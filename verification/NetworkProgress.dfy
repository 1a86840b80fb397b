/**
  A healthy fleet never gets stuck and always comes to an end.

  Messages are acknowledged before their handler runs and the lock is released before the wait, so as
  long as a client is not over some move is possible - however deeply calls nest, including calls of
  a task to itself on the one instance that serves it - and every move uses up exactly one unit of a
  measure computed from the program.
 */
module NetworkProgress {
  import opened Wrappers
  import opened InFlight
  import opened Protocol
  import opened ProtocolInvariant
  import opened Tasks
  import opened Network
  import opened NetworkInvariant
  import opened NetworkPreservation
  import Topic

  ghost predicate CanMove(f: Fleet, n: Net)
  {
    exists m :: MoveEnabled(f, n, m)
  }

  lemma Possible(f: Fleet, n: Net, m: Move)
    requires MoveEnabled(f, n, m)
    ensures CanMove(f, n)
  {
  }

  // ---- Some move is possible ------------------------------------------------------------------------

  lemma LockHolderMoves(f: Fleet, n: Net, t: nat)
    requires Inv(n.s) && t < |n.s.ts| && n.s.ts[t].local.lock.Some?
    ensures CanMove(f, n)
  {
    hide CanMove;
    assert InstanceOk(n.s, t, n.s.ts[t]);
    var r := n.s.ts[t].local.lock.value;
    assert OpOk(n.s, r, n.s.ops[r]);
    match n.s.ops[r].wire
    case OnWire => Possible(f, n, Infra(Route(r)));
    case Accepted => Possible(f, n, Infra(EndPublishing(r, Confirmed, NoTask)));
    case Refused => Possible(f, n, Infra(EndPublishing(r, Returned, NoTask)));
  }

  lemma {:induction false} FirstExists(ready: seq<Copy>, i: nat) returns (k: nat)
    requires i < |ready|
    ensures k < |ready| && ready[k].queue == ready[i].queue && FirstOfQueue(ready, k)
    decreases i
  {
    if j :| 0 <= j < i && ready[j].queue == ready[i].queue {
      k := FirstExists(ready, j);
    } else {
      k := i;
    }
  }

  /** The queue a ready copy is in has a live consumer. */
  lemma ReadyIsConsumed(f: Fleet, s: State, i: nat) returns (t: nat)
    requires Wired(f, s) && Inv(s) && RequestsFine(f, s) && i < |s.ready|
    ensures t < |s.ts| && s.ready[i].queue in s.ts[t].consumes
  {
    var c := s.ready[i];
    assert CopyOk(s, c);
    assert RequestFine(f, s, c.corr);
    if c.queue.ReplyQ? {
      t := c.queue.instance;
    } else {
      assert Carries(s.ops[c.corr], c);
      assert Consumed(s, c.queue);
      t :| 0 <= t < |s.ts| && c.queue in s.ts[t].consumes;
    }
  }

  lemma ReadyMoves(f: Fleet, n: Net, i: nat)
    requires Wired(f, n.s) && Inv(n.s) && RequestsFine(f, n.s) && i < |n.s.ready|
    ensures CanMove(f, n)
  {
    hide CanMove, Inv, Wired, RequestsFine;
    var t := ReadyIsConsumed(f, n.s, i);
    var k := FirstExists(n.s.ready, i);
    if n.s.ts[t].slot.None? {
      Possible(f, n, Infra(Deliver(k, t)));
    } else {
      Possible(f, n, Infra(Ack(t)));
    }
  }

  /** A reply is routed to the one reply queue of the caller's instance. */
  lemma ReplyIsRouted(f: Fleet, s: State, h: nat)
    requires ConfigOk(f.cfg) && Wired(f, s) && Inv(s) && IsHandler(s, h) && s.handlers[h].copy.queue.RequestQ?
    ensures s.handlers[h].copy.replyTo < |s.ts|
    ensures ReplyQ(s.handlers[h].copy.replyTo) in ReplyQueues(f.cfg, s, h)
  {
    var x := s.handlers[h];
    assert HandlerOk(s, x);
    assert OpOk(s, x.copy.corr, s.ops[x.copy.corr]);
    Topic.PlainMatchesExactly(f.cfg.replyName(x.copy.replyTo), f.cfg.replyName(x.copy.replyTo));
  }

  lemma CallerMoves(f: Fleet, n: Net, pid: Pid)
    requires IsProc(n, pid) && ProcOf(n, pid).st.Active? && ActOf(ProcOf(n, pid)).Call? && ProcOf(n, pid).t < |n.s.ts|
    ensures CanMove(f, n)
  {
    if |ProcOf(n, pid).chain| < f.program.maxDepth {
      Possible(f, n, Invoke(pid));
    } else {
      Possible(f, n, Refuse(pid));
    }
  }

  /**
    An unfinished request can be moved on, or something it waits for can: its own next step, the copy
    that carries or answers it, or the body of its handler - and if that body waits in turn, it waits
    for a later request.
   */
  lemma {:induction false} RequestMoves(f: Fleet, n: Net, goals: seq<Res>, r: nat)
    requires NetInv(f, n, goals) && r < |n.s.ops| && !n.s.ops[r].phase.Finished?
    ensures CanMove(f, n)
    decreases |n.s.ops| - r
  {
    hide CanMove, Inv, Wired, InstanceOk, EvalBody, Expected;
    var s := n.s;
    var op := s.ops[r];
    RequestFacts(f, s, r);
    if op.phase.Queued? && s.ts[op.t].local.lock.None? {
      Possible(f, n, Infra(Acquire(r)));
    } else if s.ts[op.t].local.lock.Some? {
      LockHolderMoves(f, n, op.t);
    } else if !FutureOf(s.ts[op.t].local, r).Pending? {
      Possible(f, n, Infra(Wake(r)));
    } else if i :| 0 <= i < |s.ready| && s.ready[i].corr == r {
      ReadyMoves(f, n, i);
    } else if t :| 0 <= t < |s.ts| && s.ts[t].slot.Some? && s.ts[t].slot.value.corr == r {
      Possible(f, n, Infra(Ack(t)));
    } else {
      var h :| 0 <= h < |s.handlers| && s.handlers[h].copy.corr == r && !s.handlers[h].st.Ended?;
      assert WorkerFine(f, s, h, n.workers[h]);
      HandlerMoves(f, n, h);
      if n.workers[h].st.Calling? && !s.ops[n.workers[h].st.r].phase.Finished? {
        RequestMoves(f, n, goals, n.workers[h].st.r);
      }
    }
  }

  /** What an unfinished request's own record says. */
  lemma RequestFacts(f: Fleet, s: State, r: nat)
    requires Inv(s) && RequestsFine(f, s) && r < |s.ops| && !s.ops[r].phase.Finished?
    ensures IsOp(s, r) && s.ops[r].kind.Request? && !s.ops[r].phase.Leaving?
    ensures s.ops[r].phase.Publishing? ==> s.ts[s.ops[r].t].local.lock == Some(r)
    ensures s.ops[r].phase.Waiting? && FutureOf(s.ts[s.ops[r].t].local, r).Pending? ==> Located(s, r)
  {
    assert OpOk(s, r, s.ops[r]) && RequestFine(f, s, r);
  }

  /** A handler still at work moves on, unless its body waits for an unfinished request. */
  lemma HandlerMoves(f: Fleet, n: Net, h: nat)
    requires ConfigOk(f.cfg) && Wired(f, n.s) && Inv(n.s) && h < |n.workers| == |n.s.handlers|
    requires WorkerFine(f, n.s, h, n.workers[h])
    requires !n.s.handlers[h].st.Ended?
    ensures (n.workers[h].st.Calling? && n.workers[h].st.r < |n.s.ops| && !n.s.ops[n.workers[h].st.r].phase.Finished?)
            || CanMove(f, n)
  {
    hide CanMove, Inv, Wired, EvalBody, Expected, Promise;
    var x := n.workers[h];
    if x.st.Stopped? {
      ReplyIsRouted(f, n.s, h);
      Possible(f, n, Infra(Reply(h)));
    } else if x.st.Calling? {
      if n.s.ops[x.st.r].phase.Finished? { Possible(f, n, Resume(Worker(h))); }
    } else if ActOf(x).Call? {
      CallerMoves(f, n, Worker(h));
    } else {
      Possible(f, n, Conclude(h));
    }
  }

  /** No deadlock: as long as some client is not over, some move is possible. */
  lemma NeverStuck(f: Fleet, ns: seq<Net>, ms: seq<Move>, k: nat, i: nat)
    requires NetRun(f, ns, ms) && k < |ns| && i < |ns[k].clients| && !Over(ns[k].clients[i])
    ensures CanMove(f, ns[k])
  {
    NetRunInv(f, ns, ms, k);
    var n, goals := ns[k], Goals(f, ns[0]);
    ClientMoves(f, n, goals, i);
  }

  lemma ClientMoves(f: Fleet, n: Net, goals: seq<Res>, i: nat)
    requires NetInv(f, n, goals) && i < |n.clients| && !Over(n.clients[i])
    ensures CanMove(f, n)
  {
    hide CanMove, Inv, Wired;
    assert ClientFine(f, n.s, n.clients[i], goals[i]);
    var x := n.clients[i];
    if x.st.Calling? {
      if n.s.ops[x.st.r].phase.Finished? {
        Possible(f, n, Resume(Client(i)));
      } else {
        RequestMoves(f, n, goals, x.st.r);
      }
    } else {
      CallerMoves(f, n, Client(i));
    }
  }
}
