/**
  What acknowledging after the handler would do (the alternative README.md:553-560 argues against).

  The moves are those of `Network`, except that a request's copy keeps the instance's one slot until
  the reply is published.  The slot then blocks every other delivery, and a body that calls a task
  served only by its own instance waits forever.  As everywhere in the model, the one slot is shared by
  all consumers of an instance.
 */
module LateAck {
  import opened Wrappers
  import opened InFlight
  import opened Protocol
  import opened ProtocolPreservation
  import opened Tasks
  import opened Codecs
  import opened Network
  import opened NetworkPreservation
  import Topic

  /** `busy[t]` is the handler whose copy still holds the slot of instance `t`. */
  datatype Late = Late(n: Net, busy: map<nat, nat>)

  predicate LateEnabled(f: Fleet, l: Late, m: Move)
  {
    MoveEnabled(f, l.n, m) && (m.Infra? && m.a.Ack? ==> m.a.t !in l.busy)
  }

  function LateApply(f: Fleet, l: Late, m: Move): Late
    requires LateEnabled(f, l, m)
  {
    var n' := ApplyMove(f, l.n, m);
    if m.Infra? && m.a.Ack? && !l.n.s.ts[m.a.t].slot.value.queue.ReplyQ? then
      var t := m.a.t;
      Late(n'.(s := n'.s.(ts := n'.s.ts[t := n'.s.ts[t].(slot := l.n.s.ts[t].slot)])), l.busy[t := |l.n.s.handlers|])
    else if m.Infra? && m.a.Reply? && l.n.s.handlers[m.a.h].t in l.busy
            && l.busy[l.n.s.handlers[m.a.h].t] == m.a.h then
      var t := l.n.s.handlers[m.a.h].t;
      Late(n'.(s := n'.s.(ts := n'.s.ts[t := n'.s.ts[t].(slot := None)])), l.busy - {t})
    else Late(n', l.busy)
  }

  /** Performing `ms` from `l` leads to `l'`. */
  ghost predicate Leads(f: Fleet, l: Late, ms: seq<Move>, l': Late)
    decreases |ms|
  {
    if ms == [] then l == l'
    else LateEnabled(f, l, ms[0]) && Leads(f, LateApply(f, l, ms[0]), ms[1..], l')
  }

  lemma {:induction false} LeadsOn(f: Fleet, l: Late, ms: seq<Move>, l': Late, ms': seq<Move>, l'': Late)
    requires Leads(f, l, ms, l') && Leads(f, l', ms', l'')
    ensures Leads(f, l, ms + ms', l'')
    decreases |ms|
  {
    hide LateApply, LateEnabled;
    if ms == [] {
      assert ms + ms' == ms';
    } else {
      assert (ms + ms')[1..] == ms[1..] + ms';
      LeadsOn(f, LateApply(f, l, ms[0]), ms[1..], l', ms', l'');
    }
  }

  lemma LeadsTo(f: Fleet, l: Late, m: Move)
    requires LateEnabled(f, l, m)
    ensures Leads(f, l, [m], LateApply(f, l, m))
  {
    assert [m][1..] == [];
  }

  // ---- What the variant is --------------------------------------------------------------------------

  /** Instance `t` runs no handler - or one, whose copy still holds its slot. */
  predicate OneAtATime(l: Late, t: nat)
    requires t < |l.n.s.ts|
  {
    && (t in l.busy ==>
          && l.busy[t] < |l.n.s.handlers|
          && var x := l.n.s.handlers[l.busy[t]];
             x.t == t && !x.st.Ended? && l.n.s.ts[t].slot == Some(x.copy))
    && forall h :: 0 <= h < |l.n.s.handlers| && l.n.s.handlers[h].t == t && !l.n.s.handlers[h].st.Ended? ==>
         t in l.busy && l.busy[t] == h
  }

  /**
    In every run of the variant, an instance runs one handler at a time, from the moment its copy is taken to its
    reply, and for just that long the copy holds the slot.
   */
  lemma HandlersHoldTheSlot(f: Fleet, n: Net, ms: seq<Move>, l: Late, t: nat)
    requires NetInit(f, n) && Leads(f, Late(n, map[]), ms, l) && t < |n.s.ts|
    ensures t < |l.n.s.ts| && OneAtATime(l, t)
  {
    hide Leads, Wired, Lossless, ConfigOk;
    RunKeepsOneAtATime(f, Late(n, map[]), ms, l, t);
  }

  lemma {:induction false} RunKeepsOneAtATime(f: Fleet, l: Late, ms: seq<Move>, l': Late, t: nat)
    requires Leads(f, l, ms, l') && t < |l.n.s.ts| && OneAtATime(l, t)
    ensures t < |l'.n.s.ts| && OneAtATime(l', t)
    decreases |ms|
  {
    hide LateApply, LateEnabled, OneAtATime;
    if ms != [] {
      StepKeepsOneAtATime(f, l, ms[0], t);
      RunKeepsOneAtATime(f, LateApply(f, l, ms[0]), ms[1..], l', t);
    }
  }

  lemma StepKeepsOneAtATime(f: Fleet, l: Late, m: Move, t: nat)
    requires LateEnabled(f, l, m) && t < |l.n.s.ts| && OneAtATime(l, t)
    ensures t < |LateApply(f, l, m).n.s.ts| && OneAtATime(LateApply(f, l, m), t)
  {
    if m.Infra? && m.a.Ack? {
      AckKeepsOneAtATime(f, l, m.a.t, t);
    } else if m.Infra? && m.a.Reply? {
      ReplyKeepsOneAtATime(f, l, m.a.h, t);
    } else if m.Infra? {
      OtherActionsKeepOneAtATime(f, l, m.a, t);
    } else {
      BodiesKeepOneAtATime(f, l, m, t);
    }
    hide LateApply, LateEnabled, OneAtATime;
  }

  lemma AckKeepsOneAtATime(f: Fleet, l: Late, k: nat, t: nat)
    requires LateEnabled(f, l, Infra(Ack(k))) && t < |l.n.s.ts| && OneAtATime(l, t)
    ensures var l' := LateApply(f, l, Infra(Ack(k))); t < |l'.n.s.ts| && OneAtATime(l', t)
  {
    hide Respond, NewWorker;
  }

  lemma ReplyKeepsOneAtATime(f: Fleet, l: Late, h: nat, t: nat)
    requires LateEnabled(f, l, Infra(Reply(h))) && t < |l.n.s.ts| && OneAtATime(l, t)
    ensures var l' := LateApply(f, l, Infra(Reply(h))); t < |l'.n.s.ts| && OneAtATime(l', t)
  {
    hide Routed, MakeCopies, NewWorker;
  }

  lemma OtherActionsKeepOneAtATime(f: Fleet, l: Late, a: Action, t: nat)
    requires LateEnabled(f, l, Infra(a)) && t < |l.n.s.ts| && OneAtATime(l, t)
    requires !a.Ack? && !a.Reply?
    ensures var l' := LateApply(f, l, Infra(a)); t < |l'.n.s.ts| && OneAtATime(l', t)
  {
    hide Sweep, Register, EndPublish, Routed, MakeCopies, NewWorker, OutcomeOf;
  }

  lemma BodiesKeepOneAtATime(f: Fleet, l: Late, m: Move, t: nat)
    requires LateEnabled(f, l, m) && t < |l.n.s.ts| && OneAtATime(l, t) && !m.Infra?
    ensures t < |LateApply(f, l, m).n.s.ts| && OneAtATime(LateApply(f, l, m), t)
  {
    hide NewWorker, NextAct, Response, Interpreted;
  }

  /** One instance serves everything, and nobody holds its lock. */
  ghost predicate Lone(f: Fleet, n: Net)
  {
    && ConfigOk(f.cfg) && Lossless(f.codec) && Wired(f, n.s) && |n.s.ts| == 1 && n.s.ts[0].local.lock.None?
    && |n.clients| == 1
  }

  /** A body about to call a served task, within the depth allowed. */
  predicate AboutToCall(f: Fleet, n: Net, pid: Pid)
  {
    && IsProc(n, pid)
    && var x := ProcOf(n, pid);
       x.t == 0 && x.st.Active? && ActOf(x).Call? && ActOf(x).task in f.program.tasks && |x.chain| < f.program.maxDepth
  }

  function NewOp(f: Fleet, x: Proc): Op
    requires ActOf(x).Call?
  {
    var a := ActOf(x);
    var content := CallContent(a.arg, x.chain + [HopOf(x, a.task)]);
    Op(0, Topic.Request, a.task, f.codec.encodeCall(content), false, Waiting, Accepted)
  }

  /** The call has been published and waits for its future; only the copies in its queue are new. */
  ghost predicate Asked(f: Fleet, n: Net, pid: Pid, n': Net)
    requires IsProc(n, pid) && ActOf(ProcOf(n, pid)).Call? && Lone(f, n)
  {
    var x, r := ProcOf(n, pid), |n.s.ops|;
    && Lone(f, n') && IsProc(n', pid)
    && n'.s.ops == n.s.ops + [NewOp(f, x)]
    && n'.s.ts[0].slot == n.s.ts[0].slot && n'.s.ts[0].consumes == n.s.ts[0].consumes
    && n'.s.ts[0].local.futures == n.s.ts[0].local.futures[r := Pending]
    && n'.s.handlers == n.s.handlers
    && n'.clients == SetProc(n, pid, x.(st := Calling(r))).clients
    && n'.workers == SetProc(n, pid, x.(st := Calling(r))).workers
    && |n'.s.ready| > |n.s.ready| && n'.s.ready[..|n.s.ready|] == n.s.ready
    && n'.s.ready[|n.s.ready|].queue == RequestQ(NewOp(f, x).name)
    && n'.s.ready[|n.s.ready|].body == NewOp(f, x).body
  }

  lemma AskingStarts(f: Fleet, l: Late, pid: Pid) returns (l': Late)
    requires Lone(f, l.n) && AboutToCall(f, l.n, pid)
    ensures LateEnabled(f, l, Invoke(pid)) && l' == LateApply(f, l, Invoke(pid))
    ensures var x := ProcOf(l.n, pid);
            l' == Late(SetProc(l.n, pid, x.(st := Calling(|l.n.s.ops|))).(
                         s := l.n.s.(ops := l.n.s.ops + [NewOp(f, x).(phase := Queued, wire := Unpublished)]),
                         owners := l.n.owners + [pid]), l.busy)
  {
    l' := LateApply(f, l, Invoke(pid));
  }

  lemma AskingAcquires(f: Fleet, l: Late, r: nat) returns (l': Late)
    requires |l.n.s.ts| == 1 && l.n.s.ts[0].local.lock.None? && r < |l.n.s.ops|
    requires l.n.s.ops[r].t == 0 && l.n.s.ops[r].kind.Request? && l.n.s.ops[r].phase.Queued?
    ensures LateEnabled(f, l, Infra(Acquire(r))) && l' == LateApply(f, l, Infra(Acquire(r)))
    ensures var s := l.n.s;
            l' == Late(l.n.(s := s.(
                         ts := s.ts[0 := s.ts[0].(local := Register(Lock(s.ts[0].local, r), r))],
                         ops := s.ops[r := s.ops[r].(phase := Publishing, wire := OnWire)])), l.busy)
  {
    l' := LateApply(f, l, Infra(Acquire(r)));
  }

  lemma AskingRoutes(f: Fleet, l: Late, r: nat) returns (l': Late)
    requires |l.n.s.ts| == 1 && r < |l.n.s.ops| && l.n.s.ops[r].t == 0 && l.n.s.ops[r].wire.OnWire?
    requires OpQueues(f.cfg, l.n.s, r) != []
    ensures LateEnabled(f, l, Infra(Route(r))) && l' == LateApply(f, l, Infra(Route(r)))
    ensures var s := l.n.s; var qs := OpQueues(f.cfg, s, r);
            l' == Late(l.n.(s := s.(
                         ops := s.ops[r := s.ops[r].(wire := Accepted)],
                         ready := s.ready + MakeCopies(qs, s.nextUid, r, 0, s.ops[r].body),
                         nextUid := s.nextUid + |qs|)), l.busy)
  {
    l' := LateApply(f, l, Infra(Route(r)));
  }

  lemma AskingEnds(f: Fleet, l: Late, r: nat) returns (l': Late)
    requires |l.n.s.ts| == 1 && r < |l.n.s.ops| && l.n.s.ops[r].t == 0 && l.n.s.ops[r].wire.Accepted?
    requires l.n.s.ops[r].kind.Request? && l.n.s.ops[r].phase.Publishing?
    ensures LateEnabled(f, l, Infra(EndPublishing(r, Confirmed, NoTask)))
    ensures l' == LateApply(f, l, Infra(EndPublishing(r, Confirmed, NoTask)))
    ensures var s := l.n.s;
            l' == Late(l.n.(s := s.(
                         ts := s.ts[0 := s.ts[0].(local := Unlock(s.ts[0].local))],
                         ops := s.ops[r := s.ops[r].(phase := Waiting)])), l.busy)
  {
    l' := LateApply(f, l, Infra(EndPublishing(r, Confirmed, NoTask)));
  }

  lemma Routable(f: Fleet, s: State, r: nat)
    requires ConfigOk(f.cfg) && Wired(f, s) && r < |s.ops|
    requires s.ops[r].kind.Request? && s.ops[r].name in f.program.tasks
    ensures var qs := OpQueues(f.cfg, s, r); |qs| > 0 && qs[0] == RequestQ(s.ops[r].name)
  {
    RoutedIffServed(f, s, r);
    var q := OpQueues(f.cfg, s, r)[0];
    assert q in OpQueues(f.cfg, s, r);
    RoutedToOwnQueues(f.cfg, s, r, q);
    assert Wired(f, s);
  }

  lemma FourMoves(f: Fleet, l: Late, a: Move, b: Move, c: Move, d: Move,
                                     l1: Late, l2: Late, l3: Late, l4: Late)
    requires LateEnabled(f, l, a) && l1 == LateApply(f, l, a)
    requires LateEnabled(f, l1, b) && l2 == LateApply(f, l1, b)
    requires LateEnabled(f, l2, c) && l3 == LateApply(f, l2, c)
    requires LateEnabled(f, l3, d) && l4 == LateApply(f, l3, d)
    ensures Leads(f, l, [a] + [b] + [c] + [d], l4)
  {
    hide LateApply, LateEnabled;
    LeadsTo(f, l, a);
    LeadsTo(f, l1, b);
    LeadsTo(f, l2, c);
    LeadsTo(f, l3, d);
    hide Leads;
    LeadsOn(f, l, [a], l1, [b], l2);
    LeadsOn(f, l, [a] + [b], l2, [c], l3);
    LeadsOn(f, l, [a] + [b] + [c], l3, [d], l4);
  }

  /** From a call to waiting for its answer. */
  lemma Ask(f: Fleet, l: Late, pid: Pid) returns (ms: seq<Move>, l': Late)
    requires Lone(f, l.n) && AboutToCall(f, l.n, pid)
    ensures Leads(f, l, ms, l') && Asked(f, l.n, pid, l'.n) && l'.busy == l.busy
  {
    hide LateApply, LateEnabled, Leads, Wired, OpQueues, NextAct, Lossless, ConfigOk;
    var r := |l.n.s.ops|;
    var l1 := AskingStarts(f, l, pid);
    var l2 := AskingAcquires(f, l1, r);
    WiringKept(f, l.n.s, l2.n.s);
    Routable(f, l2.n.s, r);
    var l3 := AskingRoutes(f, l2, r);
    l' := AskingEnds(f, l3, r);
    WiringKept(f, l2.n.s, l'.n.s);
    FourMoves(f, l, Invoke(pid), Infra(Acquire(r)), Infra(Route(r)), Infra(EndPublishing(r, Confirmed, NoTask)),
              l1, l2, l3, l');
    ms := [Invoke(pid)] + [Infra(Acquire(r))] + [Infra(Route(r))] + [Infra(EndPublishing(r, Confirmed, NoTask))];
  }

  lemma WiringKept(f: Fleet, s: State, s': State)
    requires Wired(f, s) && s'.queues == s.queues && |s'.ts| == |s.ts| == 1 && s'.ts[0].consumes == s.ts[0].consumes
    ensures Wired(f, s')
  {
    hide PlainName;
    assert s'.ts[0].consumes == s.ts[0].consumes;
    forall name | name in f.program.tasks
      ensures RequestQ(name) in s'.queues && Consumed(s', RequestQ(name))
    {
      ConsumedByTheOne(f, s, RequestQ(name));
      assert RequestQ(name) in s'.ts[0].consumes;
    }
  }

  /** The request is delivered and its handler started; the copy stays in the slot. */
  lemma Serve(f: Fleet, l: Late) returns (l': Late)
    requires Lone(f, l.n) && l.busy == map[] && l.n.s.ts[0].slot.None?
    requires l.n.s.ready != [] && l.n.s.ready[0].queue.RequestQ? && l.n.s.ready[0].queue.name in f.program.tasks
    ensures Leads(f, l, [Infra(Deliver(0, 0))] + [Infra(Ack(0))], l')
    ensures var c, s := l.n.s.ready[0], l.n.s;
            l' == Late(l.n.(
                         s := s.(ts := s.ts[0 := s.ts[0].(slot := Some(c))], ready := s.ready[1..],
                                 handlers := s.handlers + [Handler(0, c, None, Running)]),
                         workers := l.n.workers + [NewWorker(f, 0, c)]),
                       map[0 := |s.handlers|])
  {
    hide Leads, NewWorker, Wired;
    var c := l.n.s.ready[0];
    ConsumedByTheOne(f, l.n.s, c.queue);
    assert l.n.s.ready[..0] + l.n.s.ready[1..] == l.n.s.ready[1..];
    var l1 := LateApply(f, l, Infra(Deliver(0, 0)));
    assert l1.n.s.ready == l.n.s.ready[1..];
    l' := LateApply(f, l1, Infra(Ack(0)));
    LeadsTo(f, l, Infra(Deliver(0, 0)));
    LeadsTo(f, l1, Infra(Ack(0)));
    LeadsOn(f, l, [Infra(Deliver(0, 0))], l1, [Infra(Ack(0))], l');
    assert l'.n.s.ts == l.n.s.ts[0 := l.n.s.ts[0].(slot := Some(c))];
  }

  lemma ConsumedByTheOne(f: Fleet, s: State, q: QueueId)
    requires Wired(f, s) && |s.ts| == 1 && q.RequestQ? && q.name in f.program.tasks
    ensures q in s.ts[0].consumes
  {
    assert Consumed(s, RequestQ(q.name));
  }

  /** One client, idle transports, and a task whose first act is to call a task of the same instance. */
  ghost predicate Nested(f: Fleet, n: Net)
  {
    && NetInit(f, n) && |n.s.ts| == 1 && |n.clients| == 1 && f.program.maxDepth >= 2
    && ActOf(n.clients[0]).Call? && ActOf(n.clients[0]).task in f.program.tasks
    && var a := ActOf(n.clients[0]);
       var inner := NextAct(f.program.tasks[a.task](a.arg), []);
       inner.Call? && inner.task in f.program.tasks
  }

  /** Everyone waits: for a future nobody will resolve, or for a slot nobody will free. */
  ghost predicate AllWait(n: Net, busy: map<nat, nat>)
  {
    && |n.s.ts| == 1 && n.s.ts[0].slot.Some? && 0 in busy
    && |n.s.ops| == 2 && (forall r :: 0 <= r < 2 ==> WaitsInVain(n.s, r))
    && (forall h :: 0 <= h < |n.s.handlers| ==> n.s.handlers[h].st.Running?)
    && |n.clients| == 1 && n.clients[0].st == Calling(0)
    && |n.workers| == 1 && n.workers[0].st == Calling(1)
  }

  predicate WaitsInVain(s: State, r: nat)
  {
    && IsOp(s, r) && s.ops[r].phase == Waiting && s.ops[r].wire == Accepted
    && FutureOf(LocalOf(s, r), r) == Pending
  }

  lemma AllWaitIsStuck(f: Fleet, l: Late, m: Move)
    requires AllWait(l.n, l.busy)
    ensures !LateEnabled(f, l, m)
  {
    if m.Infra? && (m.a.Acquire? || m.a.Route? || m.a.EndPublishing? || m.a.Wake?) && m.a.r < 2 {
      assert WaitsInVain(l.n.s, m.a.r);
    }
    if m.Resume? && IsProc(l.n, m.pid) {
      assert WaitsInVain(l.n.s, ProcOf(l.n, m.pid).st.r);
    }
  }

  lemma NestedStart(f: Fleet, n: Net)
    requires Nested(f, n)
    ensures Lone(f, n) && AboutToCall(f, n, Client(0))
  {
    hide Wired, Lossless, ConfigOk, NextAct;
    assert IdleInstance(0, n.s.ts[0]) && NewClient(n, n.clients[0]);
  }

  /** The handler of the client's request is about to make the inner call. */
  lemma WorkerCalls(f: Fleet, n: Net, c: Copy)
    requires Nested(f, n) && c.queue == RequestQ(NewOp(f, n.clients[0]).name) && c.body == NewOp(f, n.clients[0]).body
    ensures var x := NewWorker(f, 0, c);
            x.t == 0 && x.st.Active? && ActOf(x).Call? && ActOf(x).task in f.program.tasks
            && |x.chain| < f.program.maxDepth
  {
    hide Wired, ConfigOk;
    assert NewClient(n, n.clients[0]);
    var a := ActOf(n.clients[0]);
    var call := CallContent(a.arg, [HopOf(n.clients[0], a.task)]);
    assert n.clients[0].chain + [HopOf(n.clients[0], a.task)] == call.chain;
    assert f.codec.decodeCall(f.codec.encodeCall(call)) == call;
  }

  lemma SecondAsk(f: Fleet, n: Net, n': Net)
    requires |n.s.ops| == 1 && WaitsInVain(n.s, 0) && Lone(f, n) && |n.s.handlers| == 1 && n.s.handlers[0].st.Running?
    requires n.s.ts[0].slot.Some? && n.clients[0].st == Calling(0) && |n.workers| == 1
    requires AboutToCall(f, n, Worker(0)) && Asked(f, n, Worker(0), n')
    ensures AllWait(n', map[0 := 0])
  {
    hide ActOf, Wired, Lossless, ConfigOk, HopOf;
    BothWait(f, n.s, n'.s, NewOp(f, n.workers[0]));
    assert n'.workers == n.workers[0 := n.workers[0].(st := Calling(1))];
  }

  lemma BothWait(f: Fleet, s: State, s': State, op: Op)
    requires |s.ops| == 1 && WaitsInVain(s, 0) && |s.ts| == |s'.ts| == 1
    requires s'.ops == s.ops + [op] && op.t == 0 && op.phase == Waiting && op.wire == Accepted
    requires s'.ts[0].local.futures == s.ts[0].local.futures[1 := Pending]
    ensures |s'.ops| == 2 && WaitsInVain(s', 0) && WaitsInVain(s', 1)
  {
    assert s'.ops[0] == s.ops[0] && s'.ops[1] == op;
  }

  /** The run: the client's call is served, the handler's own call is published, and that is all. */
  lemma StuckRun(f: Fleet, n: Net) returns (ms: seq<Move>, l: Late)
    requires Nested(f, n)
    ensures Leads(f, Late(n, map[]), ms, l) && AllWait(l.n, l.busy)
  {
    hide Leads, Wired, Lossless, ConfigOk, NextAct, NewWorker;
    NestedStart(f, n);
    var start := Late(n, map[]);
    var ms1, l1 := Ask(f, start, Client(0));
    assert IdleInstance(0, n.s.ts[0]);
    var c := l1.n.s.ready[0];
    WorkerCalls(f, n, c);
    var l2 := Serve(f, l1);
    WiringKept(f, l1.n.s, l2.n.s);
    var ms2 := [Infra(Deliver(0, 0))] + [Infra(Ack(0))];
    var ms3, l3 := Ask(f, l2, Worker(0));
    LeadsOn(f, start, ms1, l1, ms2, l2);
    LeadsOn(f, start, ms1 + ms2, l2, ms3, l3);
    ms, l := ms1 + ms2 + ms3, l3;
    SecondAsk(f, l2.n, l3.n);
  }

  /**
    With late acknowledgement, whatever the fleet: a client calling a task that calls a task of its own (single)
    instance can get both stuck for ever, with no move of any kind left and no fault involved.
   */
  lemma LateAckDeadlocks(f: Fleet, n: Net)
    requires Nested(f, n)
    ensures exists ms, l :: Leads(f, Late(n, map[]), ms, l) && Stuck(f, l)
  {
    hide Leads, Nested;
    var ms, l := StuckRun(f, n);
    forall m
      ensures !LateEnabled(f, l, m)
    {
      AllWaitIsStuck(f, l, m);
    }
    assert Stuck(f, l);
  }

  /** Its client is not over, and nothing can happen any more. */
  ghost predicate Stuck(f: Fleet, l: Late)
  {
    |l.n.clients| == 1 && !Over(l.n.clients[0]) && forall m :: !LateEnabled(f, l, m)
  }
}
