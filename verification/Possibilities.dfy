/**
  What can always happen: from wherever a run has got to, how it can go on.  The theorems about every
  run say what must not happen; these say that nobody is trapped, and that the bounds are reached.
 */
module Possibilities {
  import opened Wrappers
  import opened InFlight
  import opened Sequences
  import opened Protocol
  import opened ProtocolInvariant
  import opened ProtocolPreservation
  import opened ProtocolTheorems
  import opened Delivery

  /** A run as far as it has got. */
  datatype Path = Path(ss: seq<State>, acts: seq<Action>)

  ghost predicate Runs(cfg: Config, p: Path) { Run(cfg, p.ss, p.acts) }

  function Last(p: Path): State
    requires |p.ss| == |p.acts| + 1
  {
    p.ss[|p.acts|]
  }

  /** The longer run begins as the shorter one and goes on with the actions `more`. */
  ghost predicate GoesOn(cfg: Config, p: Path, more: seq<Action>, p': Path)
  {
    Runs(cfg, p') && p'.acts == p.acts + more && |p.ss| <= |p'.ss| && p'.ss[..|p.ss|] == p.ss
  }

  lemma OneMore(cfg: Config, p: Path, a: Action) returns (p': Path)
    requires Runs(cfg, p) && Enabled(cfg, Last(p), a)
    ensures GoesOn(cfg, p, [a], p') && Last(p') == Apply(cfg, Last(p), a) && Inv(Last(p'))
  {
    hide Enabled, Apply, Inv;
    p' := Path(p.ss + [Apply(cfg, Last(p), a)], p.acts + [a]);
    forall i | 0 <= i < |p'.acts| ensures Step(cfg, p'.ss[i], p'.acts[i], p'.ss[i + 1]) {
      assert i < |p.acts| ==> Step(cfg, p.ss[i], p.acts[i], p.ss[i + 1]);
    }
    RunInv(cfg, p'.ss, p'.acts, |p'.acts|);
  }

  lemma OnAndOn(cfg: Config, p: Path, more: seq<Action>, p': Path, more': seq<Action>, p'': Path)
    requires GoesOn(cfg, p, more, p') && GoesOn(cfg, p', more', p'')
    ensures GoesOn(cfg, p, more + more', p'')
  {
    hide Runs;
    assert p''.ss[..|p.ss|] == p''.ss[..|p'.ss|][..|p.ss|];
  }

  // ---- Nobody is trapped ----------------------------------------------------------------------------

  /** A wait that can end ends: with the outcome the future or the abandoned wait dictates. */
  lemma CanWake(cfg: Config, p: Path, r: nat) returns (p': Path)
    requires Runs(cfg, p) && IsOp(Last(p), r)
    requires var phase := Last(p).ops[r].phase;
             phase.Leaving? || (phase.Waiting? && !FutureOf(LocalOf(Last(p), r), r).Pending?)
    ensures GoesOn(cfg, p, [Wake(r)], p') && IsOp(Last(p'), r)
    ensures var phase := Last(p).ops[r].phase;
            Last(p').ops[r].phase
            == Finished(OutcomeOf(FutureOf(LocalOf(Last(p), r), r), if phase.Leaving? then phase.end else Done))
  {
    p' := OneMore(cfg, p, Wake(r));
    hide Inv;
  }

  /**
    Whatever the broker, the workers and the other instances do or fail to do, every publish can end by steps of its own
    task alone: giving up while it waits for the lock, failing to publish, or being cancelled.
   */
  lemma EveryPublishCanEnd(cfg: Config, p: Path, r: nat) returns (own: seq<Action>, p': Path)
    requires Runs(cfg, p) && r < |Last(p).ops|
    ensures GoesOn(cfg, p, own, p') && r < |Last(p').ops| && Last(p').ops[r].phase.Finished?
    ensures |own| <= 2
            && forall a :: a in own ==> a in {GiveUp(r), EndPublishing(r, OtherError, NoTask), CancelWait(r), Wake(r)}
  {
    Standing(cfg, p, r);
    hide Inv;
    match Last(p).ops[r].phase
    case Finished(_) =>
      own, p' := [], p;
    case Queued =>
      own := [GiveUp(r)];
      p' := OneMore(cfg, p, GiveUp(r));
    case Leaving(_) =>
      own := [Wake(r)];
      p' := CanWake(cfg, p, r);
    case Waiting =>
      p' := CanLeave(cfg, p, r, CancelWait(r));
      own := [CancelWait(r), Wake(r)];
    case Publishing =>
      p' := CanFail(cfg, p, r);
      own := if Last(p).ops[r].kind.Request? then [EndPublishing(r, OtherError, NoTask), Wake(r)]
             else [EndPublishing(r, OtherError, NoTask)];
  }

  lemma Standing(cfg: Config, p: Path, r: nat)
    requires Runs(cfg, p) && r < |Last(p).ops|
    ensures IsOp(Last(p), r) && OpOk(Last(p), r, Last(p).ops[r])
  {
    RunInv(cfg, p.ss, p.acts, |p.acts|);
    OpWasOk(Last(p), r);
  }

  /** A waiting request whose deadline passes times out; one that is cancelled is aborted. */
  lemma CanLeave(cfg: Config, p: Path, r: nat, a: Action) returns (p': Path)
    requires Runs(cfg, p) && r < |Last(p).ops| && Last(p).ops[r].phase.Waiting?
    requires a == CancelWait(r) || (a == Expire(r) && Last(p).ops[r].timed)
    ensures GoesOn(cfg, p, [a, Wake(r)], p') && r < |Last(p').ops|
    ensures Last(p').ops[r].phase == Finished(if a.Expire? then TimedOut else Aborted)
  {
    Standing(cfg, p, r);
    var q := OneMore(cfg, p, a);
    hide Inv;
    p' := CanWake(cfg, q, r);
    OnAndOn(cfg, p, [a], q, [Wake(r)], p');
  }

  /** A failing publish reports the lost connection, a request by way of its future. */
  lemma CanFail(cfg: Config, p: Path, r: nat) returns (p': Path)
    requires Runs(cfg, p) && r < |Last(p).ops| && Last(p).ops[r].phase.Publishing?
    ensures var fails := EndPublishing(r, OtherError, NoTask);
            GoesOn(cfg, p, if Last(p).ops[r].kind.Request? then [fails, Wake(r)] else [fails], p')
    ensures r < |Last(p').ops| && Last(p').ops[r].phase.Finished?
  {
    Standing(cfg, p, r);
    var fails := EndPublishing(r, OtherError, NoTask);
    p' := OneMore(cfg, p, fails);
    if Last(p).ops[r].kind.Request? {
      Standing(cfg, p', r);
      hide Inv;
      var q := p';
      p' := CanWake(cfg, q, r);
      OnAndOn(cfg, p, [fails], q, [Wake(r)], p');
    }
  }

  /** A request that waits for its answer loses it when the connection closes. */
  lemma CanLoseTheConnection(cfg: Config, p: Path, r: nat) returns (p': Path)
    requires Runs(cfg, p) && IsOp(Last(p), r) && Last(p).ops[r].phase.Waiting?
    requires FutureOf(LocalOf(Last(p), r), r).Pending?
    ensures GoesOn(cfg, p, [Close(Last(p).ops[r].t), Wake(r)], p') && r < |Last(p').ops|
    ensures Last(p').ops[r].phase == Finished(ConnectionLost)
  {
    Standing(cfg, p, r);
    var a := Close(Last(p).ops[r].t);
    var q := OneMore(cfg, p, a);
    hide Inv;
    p' := CanWake(cfg, q, r);
    OnAndOn(cfg, p, [a], q, [Wake(r)], p');
  }

  /** Nor is the lock ever stuck: one step of whoever holds it, and any publish that waits for it can have it. */
  lemma LockCanBeHad(cfg: Config, p: Path, r: nat) returns (p': Path)
    requires Runs(cfg, p) && IsOp(Last(p), r) && Last(p).ops[r].phase.Queued?
    ensures var lock := LocalOf(Last(p), r).lock;
            GoesOn(cfg, p, if lock.Some? then [EndPublishing(lock.value, OtherError, NoTask), Acquire(r)]
                           else [Acquire(r)], p')
    ensures r < |Last(p').ops| && Last(p').ops[r].phase.Publishing?
  {
    Standing(cfg, p, r);
    if LocalOf(Last(p), r).lock.None? {
      p' := OneMore(cfg, p, Acquire(r));
    } else {
      var holder := LocalOf(Last(p), r).lock.value;
      LockIsHeldByThePublisher(cfg, p.ss, p.acts, |p.acts|, Last(p).ops[r].t, holder);
      Standing(cfg, p, holder);
      var q := OneMore(cfg, p, EndPublishing(holder, OtherError, NoTask));
      p' := OneMore(cfg, q, Acquire(r));
      OnAndOn(cfg, p, [EndPublishing(holder, OtherError, NoTask)], q, [Acquire(r)], p');
    }
  }

  // ---- Names can be served, and everything can fail -------------------------------------------------

  /** Any instance can come to serve any wildcard-free name, of any kind, and to consume its own reply queue. */
  lemma CanServe(cfg: Config, p: Path, t: nat, q: QueueId) returns (p': Path)
    requires Runs(cfg, p) && t < |Last(p).ts| && PlainName(q) && ExclusiveTo(q, t)
    ensures q.ReplyQ? ==> GoesOn(cfg, p, [Declare(q), Consume(t, q)], p')
    ensures !q.ReplyQ? ==> GoesOn(cfg, p, [RegisterName(t, KindOf(q), q.name), Declare(q), Consume(t, q)], p')
    ensures t < |Last(p').ts| && q in Last(p').queues && q in Last(p').ts[t].consumes
    ensures forall x :: x in Last(p).queues ==> x in Last(p').queues
  {
    hide Inv;
    if q.ReplyQ? {
      p' := CanConsume(cfg, p, t, q);
    } else {
      var named := OneMore(cfg, p, RegisterName(t, KindOf(q), q.name));
      assert Registered(Last(named).ts[t].registry, q);
      p' := CanConsume(cfg, named, t, q);
      OnAndOn(cfg, p, [RegisterName(t, KindOf(q), q.name)], named, [Declare(q), Consume(t, q)], p');
      assert [RegisterName(t, KindOf(q), q.name)] + [Declare(q), Consume(t, q)]
             == [RegisterName(t, KindOf(q), q.name), Declare(q), Consume(t, q)];
    }
  }

  lemma CanConsume(cfg: Config, p: Path, t: nat, q: QueueId) returns (p': Path)
    requires Runs(cfg, p) && t < |Last(p).ts| && PlainName(q) && ExclusiveTo(q, t)
    requires Registered(Last(p).ts[t].registry, q)
    ensures GoesOn(cfg, p, [Declare(q), Consume(t, q)], p')
    ensures t < |Last(p').ts| && q in Last(p').queues && q in Last(p').ts[t].consumes
    ensures forall x :: x in Last(p).queues ==> x in Last(p').queues
  {
    hide Inv;
    var declared := OneMore(cfg, p, Declare(q));
    p' := OneMore(cfg, declared, Consume(t, q));
    OnAndOn(cfg, p, [Declare(q)], declared, [Consume(t, q)], p');
  }

  /** A message that waits in its queue can be lost. */
  lemma CanBeLost(cfg: Config, p: Path, i: nat) returns (p': Path)
    requires Runs(cfg, p) && i < |Last(p).ready|
    ensures GoesOn(cfg, p, [Drop(i)], p')
    ensures Last(p').ready == Last(p).ready[..i] + Last(p).ready[i + 1..]
    ensures Last(p') == Last(p).(ready := Last(p').ready, dropped := Last(p').dropped)
  {
    p' := OneMore(cfg, p, Drop(i));
  }

  /** A handler can crash before it replies, and its reply can fail whether or not the broker has accepted it. */
  lemma CanFailToReply(cfg: Config, p: Path, h: nat, a: Action) returns (p': Path)
    requires Runs(cfg, p) && h < |Last(p).handlers| && !Last(p).handlers[h].st.Ended?
    requires a == Crash(h) || (a.ReplyBroken? && a.h == h && Last(p).handlers[h].st.Replying?
                               && Last(p).handlers[h].result.Some?)
    ensures GoesOn(cfg, p, [a], p')
    ensures h < |Last(p').handlers| && Last(p').handlers[h] == Last(p).handlers[h].(st := Ended)
    ensures Last(p').ops == Last(p).ops
    ensures a.Crash? || !a.accepted ==> Last(p').ready == Last(p).ready
    ensures a.ReplyBroken? ==> Last(p').ts[Last(p).handlers[h].t].local.awaiting == {}
  {
    RunInv(cfg, p.ss, p.acts, |p.acts|);
    assert HandlerOk(Last(p), Last(p).handlers[h]);
    hide Inv, Routed, MakeCopies;
    p' := OneMore(cfg, p, a);
  }

  /** The private queues of an instance that goes away can disappear, and a consumer can be cancelled. */
  lemma CanDisappear(cfg: Config, p: Path, i: nat, t: nat) returns (p': Path)
    requires Runs(cfg, p) && i < |Last(p).queues| && t < |Last(p).ts|
    requires Last(p).queues[i].BroadcastQ? || Last(p).queues[i].ReplyQ?
    ensures var q := Last(p).queues[i];
            && GoesOn(cfg, p, [CancelConsumer(t, q), Undeclare(i)], p')
            && q !in Last(p').queues && |Last(p').ts| == |Last(p).ts| && q !in Last(p').ts[t].consumes
  {
    RunInv(cfg, p.ss, p.acts, |p.acts|);
    var q := Last(p).queues[i];
    var cancelled := OneMore(cfg, p, CancelConsumer(t, q));
    hide Inv;
    p' := OneMore(cfg, cancelled, Undeclare(i));
    OnAndOn(cfg, p, [CancelConsumer(t, q)], cancelled, [Undeclare(i)], p');
  }

  // ---- The bound on handlers is reached -------------------------------------------------------------

  /** An instance that holds a copy and can take it again. */
  predicate HoldsCopy(s: State, t: nat)
  {
    HasSlot(s, t) && !s.ts[t].slot.value.queue.ReplyQ? && s.ts[t].slot.value.queue in s.ts[t].consumes
  }

  /** `n` acknowledgements are lost, and each time the same instance takes the copy again. */
  function Losses(t: nat, n: nat): seq<Action>
  {
    if n == 0 then [] else Losses(t, n - 1) + [AckLost(t), Deliver(0, t)]
  }

  /** Every lost acknowledgement may start one more handler with the same copy. */
  lemma {:induction false} LossesStartHandlers(cfg: Config, p: Path, t: nat, n: nat) returns (p': Path)
    requires Runs(cfg, p) && HoldsCopy(Last(p), t)
    ensures GoesOn(cfg, p, Losses(t, n), p') && HoldsCopy(Last(p'), t) && Last(p').ts[t].slot == Last(p).ts[t].slot
    ensures var u := Last(p).ts[t].slot.value.uid;
            && Starts(Last(p'), u) == Starts(Last(p), u) + n
            && Last(p').lostAcks[u] == Last(p).lostAcks[u] + n
  {
    p' := p;
    if n > 0 {
      var q := LossesStartHandlers(cfg, p, t, n - 1);
      hide HoldsCopy, Starts;
      p' := LossStartsHandler(cfg, q, t);
      OnAndOn(cfg, p, Losses(t, n - 1), q, [AckLost(t), Deliver(0, t)], p');
    }
  }

  lemma LossStartsHandler(cfg: Config, p: Path, t: nat) returns (p': Path)
    requires Runs(cfg, p) && HoldsCopy(Last(p), t)
    ensures GoesOn(cfg, p, [AckLost(t), Deliver(0, t)], p')
    ensures HoldsCopy(Last(p'), t) && Last(p').ts[t].slot == Last(p).ts[t].slot
    ensures var u := Last(p).ts[t].slot.value.uid;
            && Starts(Last(p'), u) == Starts(Last(p), u) + 1
            && Last(p').lostAcks[u] == Last(p).lostAcks[u] + 1
  {
    var s, c := Last(p), Last(p).ts[t].slot.value;
    AckIsLost(cfg, s, t);
    hide Apply, TakeSlot, Inv;
    var q := OneMore(cfg, p, AckLost(t));
    SlotIsFilled(cfg, Last(q), t);
    p' := OneMore(cfg, q, Deliver(0, t));
    OnAndOn(cfg, p, [AckLost(t)], q, [Deliver(0, t)], p');
  }

  lemma AckIsLost(cfg: Config, s: State, t: nat)
    requires HoldsCopy(s, t)
    ensures var s', c := Apply(cfg, s, AckLost(t)), s.ts[t].slot.value;
            && |s'.ts| == |s.ts| && s'.ts[t].slot.None? && s'.ts[t].consumes == s.ts[t].consumes
            && s'.ready == [c] + s.ready && s'.lostAcks == s.lostAcks + multiset{c.uid}
            && Starts(s', c.uid) == Starts(s, c.uid) + 1
  {
    var c := s.ts[t].slot.value;
    SumAppend(s.handlers, Handler(t, c, None, Running), StartedBy(c.uid));
  }

  lemma SlotIsFilled(cfg: Config, s: State, t: nat)
    requires t < |s.ts| && s.ts[t].slot.None? && |s.ready| > 0 && s.ready[0].queue in s.ts[t].consumes
    ensures Enabled(cfg, s, Deliver(0, t))
    ensures var s' := Apply(cfg, s, Deliver(0, t));
            && |s'.ts| == |s.ts| && s'.ts[t] == s.ts[t].(slot := Some(s.ready[0]))
            && s'.handlers == s.handlers && s'.lostAcks == s.lostAcks
  {
  }

  /** So the bound of one start more than there were losses is reached, for any number of losses. */
  lemma OneStartMoreThanLosses(cfg: Config, p: Path, t: nat, n: nat) returns (p': Path)
    requires Runs(cfg, p) && HoldsCopy(Last(p), t)
    requires var u := Last(p).ts[t].slot.value.uid; Starts(Last(p), u) == Last(p).lostAcks[u] == 0
    ensures GoesOn(cfg, p, Losses(t, n) + [Ack(t)], p')
    ensures var u := Last(p).ts[t].slot.value.uid; Last(p').lostAcks[u] == n && Starts(Last(p'), u) == n + 1
  {
    hide Inv;
    var q := LossesStartHandlers(cfg, p, t, n);
    var s, c := Last(q), Last(q).ts[t].slot.value;
    p' := OneMore(cfg, q, Ack(t));
    SumAppend(s.handlers, Handler(t, c, None, Running), StartedBy(c.uid));
    OnAndOn(cfg, p, Losses(t, n), q, [Ack(t)], p');
  }

  /** A copy whose instance goes away before acknowledging it is taken over by any other that serves its name. */
  lemma AnotherTakesOver(cfg: Config, p: Path, t: nat, t': nat) returns (p': Path)
    requires Runs(cfg, p) && HasSlot(Last(p), t) && t' < |Last(p).ts| && Last(p).ts[t'].slot.None?
    requires var q := Last(p).ts[t].slot.value.queue; !q.ReplyQ? && q in Last(p).ts[t'].consumes
    ensures GoesOn(cfg, p, [Requeue(t), Deliver(0, t'), Ack(t')], p')
    ensures Last(p').handlers == Last(p).handlers + [Handler(t', Last(p).ts[t].slot.value, None, Running)]
  {
    hide Inv;
    var q := OneMore(cfg, p, Requeue(t));
    assert Last(q).ready[0] == Last(p).ts[t].slot.value;
    var q' := OneMore(cfg, q, Deliver(0, t'));
    p' := OneMore(cfg, q', Ack(t'));
    OnAndOn(cfg, p, [Requeue(t)], q, [Deliver(0, t')], q');
    OnAndOn(cfg, p, [Requeue(t)] + [Deliver(0, t')], q', [Ack(t')], p');
    assert [Requeue(t)] + [Deliver(0, t')] + [Ack(t')] == [Requeue(t), Deliver(0, t'), Ack(t')];
  }
}
