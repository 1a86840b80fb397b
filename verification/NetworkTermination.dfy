/**
  How long a healthy fleet works: every move uses up exactly its price of the work left, and the work a
  call needs is computed from the program alone - counting moves, or counting the handlers that start.
 */
module NetworkTermination {
  import opened Wrappers
  import opened InFlight
  import opened Sequences
  import opened Protocol
  import opened ProtocolInvariant
  import opened ProtocolPreservation
  import opened Tasks
  import opened Codecs
  import opened Network
  import opened NetworkInvariant
  import opened NetworkPreservation
  import opened NetworkProgress
  import opened CallPaths
  import Topic

  // ---- The work of a program ------------------------------------------------------------------------

  /** The price of each move, and what starting a handler costs on top. */
  datatype Price = Price(move: nat, start: nat)

  /** Every move counts, or only the start of a handler does. */
  const MOVES := Price(1, 0)
  const STARTS := Price(0, 1)

  /** What running a body to its end costs, the calls it makes included. */
  ghost function BodyWork(w: Price, p: Program, chain: Chain, inHandler: bool, s: Script, rs: seq<Res>): nat
    decreases Max0(p.maxDepth - |chain|), 1, Max0(s.calls - |rs|)
  {
    var a := NextAct(s, rs);
    if !a.Call? then w.move
    else
      var rest := BodyWork(w, p, chain, inHandler, s, rs + [EvalCall(p, chain, inHandler, a.task, a.arg)]);
      if |chain| >= p.maxDepth then w.move + rest
      else w.move + RequestWork(w, p, chain + [NextHop(chain, inHandler, a.task)], a.task, a.arg) + w.move + rest
  }

  /** Acquire; then what publishing costs. */
  ghost function RequestWork(w: Price, p: Program, chain: Chain, task: string, arg: Value): nat
    decreases Max0(p.maxDepth - |chain|), 4, 0
  {
    w.move + PublishWork(w, p, chain, task, arg)
  }

  /** Route and end publishing; and if the name is served: wake, and what the copy needs. */
  ghost function PublishWork(w: Price, p: Program, chain: Chain, task: string, arg: Value): nat
    decreases Max0(p.maxDepth - |chain|), 3, 0
  {
    2 * w.move + if task in p.tasks then w.move + w.move + ServedWork(w, p, chain, task, arg) else 0
  }

  /** Delivered: acknowledge, start and run the body, send the reply, and deliver and acknowledge that. */
  ghost function ServedWork(w: Price, p: Program, chain: Chain, task: string, arg: Value): nat
    requires task in p.tasks
    decreases Max0(p.maxDepth - |chain|), 2, 0
  {
    w.move + w.start + BodyWork(w, p, chain, true, p.tasks[task](arg), []) + 3 * w.move
  }

  // ---- The work left in a state ---------------------------------------------------------------------

  ghost function OpWork(w: Price, f: Fleet, op: Op): nat
  {
    var c := f.codec.decodeCall(op.body);
    match op.phase
    case Queued => RequestWork(w, f.program, c.chain, op.name, c.arg)
    case Publishing =>
      (match op.wire
       case Accepted => 2 * w.move
       case Refused => w.move
       case _ => PublishWork(w, f.program, c.chain, op.name, c.arg))
    case Waiting => w.move
    case _ => 0
  }

  /** What a copy costs once it is delivered. */
  ghost function DeliveredWork(w: Price, f: Fleet, c: Copy): nat
  {
    match c.queue
    case RequestQ(name) =>
      var call := f.codec.decodeCall(c.body);
      if name in f.program.tasks then ServedWork(w, f.program, call.chain, name, call.arg) else 0
    case _ => w.move
  }

  ghost function CopyWork(w: Price, f: Fleet, c: Copy): nat { w.move + DeliveredWork(w, f, c) }

  ghost function SlotWork(w: Price, f: Fleet, i: Instance): nat
  {
    if i.slot.Some? then DeliveredWork(w, f, i.slot.value) else 0
  }

  ghost function HandlerWork(w: Price, x: Handler): nat { if x.st.Ended? then 0 else 3 * w.move }

  ghost function ProcWork(w: Price, f: Fleet, x: Proc): nat
  {
    var a := ActOf(x);
    match x.st
    case Active => BodyWork(w, f.program, x.chain, x.inHandler, x.script, x.results)
    case Calling(_) =>
      if a.Call? then
        w.move + BodyWork(w, f.program, x.chain, x.inHandler, x.script,
                          x.results + [EvalCall(f.program, x.chain, x.inHandler, a.task, a.arg)])
      else 0
    case Stopped => 0
  }

  ghost function OpW(w: Price, f: Fleet): Op -> nat { (op: Op) => OpWork(w, f, op) }
  ghost function CopyW(w: Price, f: Fleet): Copy -> nat { (c: Copy) => CopyWork(w, f, c) }
  ghost function SlotW(w: Price, f: Fleet): Instance -> nat { (i: Instance) => SlotWork(w, f, i) }
  ghost function HandlerW(w: Price): Handler -> nat { (x: Handler) => HandlerWork(w, x) }
  ghost function ProcW(w: Price, f: Fleet): Proc -> nat { (x: Proc) => ProcWork(w, f, x) }

  ghost function StateWork(w: Price, f: Fleet, s: State): nat
  {
    Sum(s.ops, OpW(w, f)) + Sum(s.ready, CopyW(w, f)) + Sum(s.ts, SlotW(w, f)) + Sum(s.handlers, HandlerW(w))
  }

  ghost function Work(w: Price, f: Fleet, n: Net): nat
  {
    StateWork(w, f, n.s) + Sum(n.clients, ProcW(w, f)) + Sum(n.workers, ProcW(w, f))
  }

  // ---- Transports and broker ------------------------------------------------------------------------

  lemma SlotsUnchanged(w: Price, f: Fleet, ts: seq<Instance>, t: nat, l: Local)
    requires t < |ts|
    ensures Sum(ts[t := ts[t].(local := l)], SlotW(w, f)) == Sum(ts, SlotW(w, f))
  {
    SumUpdate(ts, t, ts[t].(local := l), SlotW(w, f));
  }

  lemma OpMoveWork(w: Price, f: Fleet, s: State, s': State, r: nat, op: Op, l: Local)
    requires IsOp(s, r) && s'.ops == s.ops[r := op] && s'.ready == s.ready && s'.handlers == s.handlers
    requires s'.ts == s.ts[s.ops[r].t := s.ts[s.ops[r].t].(local := l)]
    requires OpWork(w, f, s.ops[r]) == OpWork(w, f, op) + w.move
    ensures StateWork(w, f, s) == StateWork(w, f, s') + w.move
  {
    SumUpdate(s.ops, r, op, OpW(w, f));
    SlotsUnchanged(w, f, s.ts, s.ops[r].t, l);
  }

  lemma AcquireWork(w: Price, f: Fleet, s: State, r: nat)
    requires IsOp(s, r) && s.ops[r].phase.Queued?
    ensures StateWork(w, f, s) == StateWork(w, f, TakeLock(s, r)) + w.move
  {
    hide PublishWork, Sum;
    var s' := TakeLock(s, r);
    assert s'.ops == s.ops[r := s'.ops[r]];
    OpMoveWork(w, f, s, s', r, s'.ops[r], s'.ts[s.ops[r].t].local);
  }

  lemma EndPublishingWork(w: Price, f: Fleet, s: State, r: nat, p: Publish, task: CurrentTask)
    requires IsOp(s, r) && s.ops[r].phase.Publishing? && s.ops[r].kind.Request?
    requires (p.Confirmed? && s.ops[r].wire.Accepted?) || (p.Returned? && s.ops[r].wire.Refused?)
    ensures StateWork(w, f, s) == StateWork(w, f, ApplyEndPublishing(s, r, p, task)) + w.move
  {
    hide RequestWork, Sum;
    var s' := ApplyEndPublishing(s, r, p, task);
    assert s'.ops == s.ops[r := s'.ops[r]];
    OpMoveWork(w, f, s, s', r, s'.ops[r], s'.ts[s.ops[r].t].local);
  }

  lemma WakeWork(w: Price, f: Fleet, s: State, r: nat)
    requires IsOp(s, r) && s.ops[r].phase.Waiting?
    ensures StateWork(w, f, s) == StateWork(w, f, WakeUp(s, r)) + w.move
  {
    hide RequestWork, Sum;
    var s' := WakeUp(s, r);
    assert s'.ops == s.ops[r := s'.ops[r]];
    OpMoveWork(w, f, s, s', r, s'.ops[r], s'.ts[s.ops[r].t].local);
  }

  /** Distinct queues are routed to at most once each. */
  lemma {:induction false} RoutedDistinct(cfg: Config, queues: seq<QueueId>, key: string)
    requires Distinct(queues)
    ensures Distinct(Routed(cfg, queues, key))
    decreases |queues|
  {
    if |queues| > 0 {
      assert Distinct(queues[1..]);
      RoutedDistinct(cfg, queues[1..], key);
      HeadIsNew(queues);
      PrependDistinct(queues[0], Routed(cfg, queues[1..], key), queues[1..]);
    }
  }

  lemma HeadIsNew(queues: seq<QueueId>)
    requires |queues| > 0 && Distinct(queues)
    ensures queues[0] !in queues[1..]
  {
  }

  lemma PrependDistinct(q: QueueId, rest: seq<QueueId>, all: seq<QueueId>)
    requires Distinct(rest) && q !in all && forall k :: k in rest ==> k in all
    ensures Distinct([q] + rest) && Distinct([] + rest)
  {
    assert [] + rest == rest;
  }

  lemma OnlyElement(qs: seq<QueueId>, q: QueueId)
    requires Distinct(qs) && q in qs && forall k :: k in qs ==> k == q
    ensures qs == [q]
  {
    forall i | 0 <= i < |qs| ensures qs[i] == q { assert qs[i] in qs; }
    if |qs| > 1 {
      FirstTwoDiffer(qs);
      assert false;
    }
  }

  lemma FirstTwoDiffer(qs: seq<QueueId>)
    requires Distinct(qs) && |qs| > 1
    ensures qs[0] != qs[1]
  {
  }

  lemma RoutedOnce(cfg: Config, s: State, key: string, q: QueueId)
    requires QueuesOk(s) && q in Routed(cfg, s.queues, key)
    requires forall k :: k in Routed(cfg, s.queues, key) ==> k == q
    ensures Routed(cfg, s.queues, key) == [q]
  {
    hide Routed;
    RoutedDistinct(cfg, s.queues, key);
    OnlyElement(Routed(cfg, s.queues, key), q);
  }

  lemma OneCopyWork(w: Price, f: Fleet, q: QueueId, uid: nat, corr: nat, replyTo: nat, body: Bytes)
    ensures MakeCopies([q], uid, corr, replyTo, body) == [Copy(uid, q, corr, replyTo, body)]
    ensures Sum(MakeCopies([q], uid, corr, replyTo, body), CopyW(w, f))
            == CopyWork(w, f, Copy(uid, q, corr, replyTo, body))
  {
    var c := Copy(uid, q, corr, replyTo, body);
    assert MakeCopies([q], uid, corr, replyTo, body) == [c];
    SumAppend([], c, CopyW(w, f));
    assert [] + [c] == [c];
  }

  /** A request for a served name is routed to the one queue of that name; any other is refused. */
  lemma RoutedQueues(f: Fleet, s: State, r: nat)
    requires ConfigOk(f.cfg) && Wired(f, s) && QueuesOk(s) && r < |s.ops| && s.ops[r].kind.Request?
    ensures OpQueues(f.cfg, s, r) == if s.ops[r].name in f.program.tasks then [RequestQ(s.ops[r].name)] else []
  {
    hide Wired, QueuesOk, Routed;
    var qs, op := OpQueues(f.cfg, s, r), s.ops[r];
    RoutedIffServed(f, s, r);
    if qs != [] {
      forall k | k in qs ensures k == RequestQ(op.name) { RoutedToOwnQueues(f.cfg, s, r, k); }
      assert qs[0] in qs;
      RoutedOnce(f.cfg, s, OpKey(f.cfg, op), RequestQ(op.name));
    }
  }

  lemma RouteWork(w: Price, f: Fleet, s: State, r: nat)
    requires ConfigOk(f.cfg) && Wired(f, s) && QueuesOk(s) && IsOp(s, r) && s.ops[r].kind.Request?
    requires s.ops[r].phase.Publishing? && s.ops[r].wire.OnWire?
    ensures StateWork(w, f, s) == StateWork(w, f, RouteOut(f.cfg, s, r)) + w.move
  {
    hide Wired, QueuesOk, OpQueues, RouteOut, OwnMove, Sum, ServedWork;
    var s', qs, op := RouteOut(f.cfg, s, r), OpQueues(f.cfg, s, r), s.ops[r];
    RoutedQueues(f, s, r);
    RouteIsOwnMove(f.cfg, s, r);
    RouteOnlyTouches(f.cfg, s, r);
    SumUpdate(s.ops, r, s'.ops[r], OpW(w, f));
    SumConcat(s.ready, MakeCopies(qs, s.nextUid, r, op.t, op.body), CopyW(w, f));
    if qs == [] {
      NoCopyWork(w, f, s.nextUid, r, op.t, op.body);
    } else {
      OneCopyWork(w, f, RequestQ(op.name), s.nextUid, r, op.t, op.body);
    }
  }

  lemma RouteOnlyTouches(cfg: Config, s: State, r: nat)
    requires IsOp(s, r)
    ensures var s' := RouteOut(cfg, s, r);
            |s'.ops| == |s.ops| && s'.ops == s.ops[r := s'.ops[r]] && s'.handlers == s.handlers && s'.ts == s.ts
  {
  }

  lemma NoCopyWork(w: Price, f: Fleet, uid: nat, corr: nat, replyTo: nat, body: Bytes)
    ensures Sum(MakeCopies([], uid, corr, replyTo, body), CopyW(w, f)) == 0
  {
  }

  lemma DeliverWork(w: Price, f: Fleet, s: State, i: nat, t: nat)
    requires t < |s.ts| && i < |s.ready| && s.ts[t].slot.None?
    ensures StateWork(w, f, s) ==
            StateWork(w, f, SetSlot(s.(ready := RemoveAt(s.ready, i)), t, Some(s.ready[i]))) + w.move
  {
    hide DeliveredWork;
    SumRemove(s.ready, i, CopyW(w, f));
    SumUpdate(s.ts, t, s.ts[t].(slot := Some(s.ready[i])), SlotW(w, f));
  }

  /** A copy on its way in a healthy fleet is a reply or a request for a served task. */
  lemma CopyIsServed(f: Fleet, s: State, c: Copy)
    requires CopyOk(s, c) && RequestsFine(f, s)
    ensures c.queue.RequestQ? || c.queue.ReplyQ?
    ensures c.queue.RequestQ? ==> c.queue.name in f.program.tasks
  {
    assert RequestFine(f, s, c.corr);
  }

  /** Acknowledging a request starts its body; acknowledging a reply ends its copy. */
  lemma AckWork(w: Price, f: Fleet, s: State, t: nat)
    requires HasSlot(s, t) && CopyOk(s, s.ts[t].slot.value) && RequestsFine(f, s)
    ensures var s', c := TakeSlot(s, t, false), s.ts[t].slot.value;
            StateWork(w, f, s) ==
            StateWork(w, f, s') + w.move + if c.queue.ReplyQ? then 0 else w.start + ProcWork(w, f, NewWorker(f, t, c))
  {
    hide Sum, BodyWork, RequestsFine;
    var s', c := TakeSlot(s, t, false), s.ts[t].slot.value;
    CopyIsServed(f, s, c);
    assert s'.ts == s.ts[t := s'.ts[t]] && s'.ready == s.ready && s'.ops == s.ops;
    SumUpdate(s.ts, t, s'.ts[t], SlotW(w, f));
    SumAppend(s.handlers, Handler(t, c, None, Running), HandlerW(w));
  }

  lemma ReplyWork(w: Price, f: Fleet, s: State, h: nat)
    requires ConfigOk(f.cfg) && Wired(f, s) && Inv(s) && IsHandler(s, h)
    requires s.handlers[h].result.Some? && s.handlers[h].st.Replying?
    ensures StateWork(w, f, s) == StateWork(w, f, SendReply(f.cfg, s, h)) + w.move
  {
    hide Wired, Sum;
    var x := s.handlers[h];
    assert HandlerOk(s, x);
    ReplyIsRouted(f, s, h);
    forall k | k in ReplyQueues(f.cfg, s, h) ensures k == ReplyQ(x.copy.replyTo) {
      ReplyRoutedHome(f.cfg, s, x.copy.replyTo, k);
    }
    RoutedOnce(f.cfg, s, f.cfg.replyName(x.copy.replyTo), ReplyQ(x.copy.replyTo));
    OneCopyWork(w, f, ReplyQ(x.copy.replyTo), s.nextUid, x.copy.corr, x.copy.replyTo, x.result.value);
    SumConcat(s.ready, MakeCopies(ReplyQueues(f.cfg, s, h), s.nextUid, x.copy.corr, x.copy.replyTo, x.result.value),
              CopyW(w, f));
    SumUpdate(s.handlers, h, x.(st := Ended), HandlerW(w));
  }

  /** A request is acknowledged, and its handler starts. */
  predicate StartsHandler(n: Net, m: Move)
  {
    m.Infra? && m.a.Ack? && HasSlot(n.s, m.a.t) && !n.s.ts[m.a.t].slot.value.queue.ReplyQ?
  }

  function PriceOf(w: Price, n: Net, m: Move): nat { w.move + if StartsHandler(n, m) then w.start else 0 }

  lemma InfraWork(w: Price, f: Fleet, n: Net, goals: seq<Res>, a: Action)
    requires NetInv(f, n, goals) && MoveEnabled(f, n, Infra(a))
    ensures Work(w, f, n) == Work(w, f, ApplyMove(f, n, Infra(a))) + PriceOf(w, n, Infra(a))
  {
    hide Sum, Wired, StateWork, RequestsFine, OpOk, ProcWork;
    var s := n.s;
    match a
    case Acquire(r) => AcquireWork(w, f, s, r);
    case EndPublishing(r, p, task) => IsRequest(f, s, r); EndPublishingWork(w, f, s, r, p, task);
    case Wake(r) => NotLeaving(f, s, r); WakeWork(w, f, s, r);
    case Route(r) => IsRequest(f, s, r); RoutingIsPublishing(f, s, r); RouteWork(w, f, s, r);
    case Deliver(i, t) => DeliverWork(w, f, s, i, t);
    case Ack(t) =>
      assert InstanceOk(s, t, s.ts[t]);
      AckWork(w, f, s, t);
      SumAppend(n.workers, NewWorker(f, t, s.ts[t].slot.value), ProcW(w, f));
    case Reply(h) => ReplyWork(w, f, s, h);
  }

  lemma IsRequest(f: Fleet, s: State, r: nat)
    requires RequestsFine(f, s) && r < |s.ops|
    ensures s.ops[r].kind.Request?
  {
    assert RequestFine(f, s, r);
  }

  lemma RoutingIsPublishing(f: Fleet, s: State, r: nat)
    requires RequestsFine(f, s) && Inv(s) && r < |s.ops| && s.ops[r].wire.OnWire?
    ensures s.ops[r].phase.Publishing?
  {
    NotFinished(f, s, r);
    assert RequestFine(f, s, r) && OpOk(s, r, s.ops[r]);
  }

  // ---- Bodies ---------------------------------------------------------------------------------------

  /** The work of a state changes by what the one changed body's work changes by, and the rest. */
  lemma ProcChangeWork(w: Price, f: Fleet, n: Net, pid: Pid, x: Proc)
    requires IsProc(n, pid)
    ensures var n' := SetProc(n, pid, x);
            Sum(n'.clients, ProcW(w, f)) + Sum(n'.workers, ProcW(w, f)) + ProcWork(w, f, ProcOf(n, pid))
            == Sum(n.clients, ProcW(w, f)) + Sum(n.workers, ProcW(w, f)) + ProcWork(w, f, x)
  {
    hide Sum;
    match pid
    case Client(i) => SumUpdate(n.clients, i, x, ProcW(w, f));
    case Worker(h) => SumUpdate(n.workers, h, x, ProcW(w, f));
  }

  lemma InvokeWork(w: Price, f: Fleet, n: Net, goals: seq<Res>, pid: Pid)
    requires NetInv(f, n, goals) && MoveEnabled(f, n, Invoke(pid))
    ensures Work(w, f, n) == Work(w, f, ApplyMove(f, n, Invoke(pid))) + w.move
  {
    hide Sum, Wired, Inv, RequestsFine, WorkersFine, ClientsFine, EvalCall;
    var n', x := ApplyMove(f, n, Invoke(pid)), ProcOf(n, pid);
    var act := ActOf(x);
    var c := CallContent(act.arg, x.chain + [HopOf(x, act.task)]);
    var op := Op(x.t, Topic.Request, act.task, f.codec.encodeCall(c), false, Queued, Unpublished);
    assert f.codec.decodeCall(f.codec.encodeCall(c)) == c;
    assert n'.s.ops == n.s.ops + [op];
    SumAppend(n.s.ops, op, OpW(w, f));
    assert n'.s.ready == n.s.ready && n'.s.ts == n.s.ts && n'.s.handlers == n.s.handlers;
    ProcChangeWork(w, f, n, pid, x.(st := Calling(|n.s.ops|)));
  }

  lemma RefuseWork(w: Price, f: Fleet, n: Net, pid: Pid)
    requires MoveEnabled(f, n, Refuse(pid))
    ensures Work(w, f, n) == Work(w, f, ApplyMove(f, n, Refuse(pid))) + w.move
  {
    hide Sum, StateWork;
    ProcChangeWork(w, f, n, pid, WithResult(ProcOf(n, pid), TooDeep()));
  }

  lemma ResumeWork(w: Price, f: Fleet, n: Net, goals: seq<Res>, pid: Pid)
    requires NetInv(f, n, goals) && MoveEnabled(f, n, Resume(pid))
    ensures Work(w, f, n) == Work(w, f, ApplyMove(f, n, Resume(pid))) + w.move
  {
    hide Sum, StateWork, Inv, Wired, RequestsFine, EvalBody, EvalCall, BodyWork;
    var x := ProcOf(n, pid);
    ProcWasFine(f, n, goals, pid);
    OutcomeIsDirect(f, n, x);
    ProcChangeWork(w, f, n, pid, WithResult(x, Interpreted(f, n.s.ops[x.st.r].phase.outcome)));
  }

  lemma ConcludeWork(w: Price, f: Fleet, n: Net, h: nat)
    requires MoveEnabled(f, n, Conclude(h))
    ensures Work(w, f, n) == Work(w, f, ApplyMove(f, n, Conclude(h))) + w.move
  {
    hide Sum;
    var x := n.s.handlers[h];
    SumUpdate(n.s.handlers, h, x.(result := Some(f.codec.encodeResult(Response(n, h))), st := Replying), HandlerW(w));
    ProcChangeWork(w, f, n, Worker(h), n.workers[h].(st := Stopped));
  }

  /** Every move of a healthy fleet uses up exactly its price, whatever the prices are. */
  lemma MoveUsesItsPrice(w: Price, f: Fleet, n: Net, goals: seq<Res>, m: Move)
    requires NetInv(f, n, goals) && MoveEnabled(f, n, m)
    ensures Work(w, f, n) == Work(w, f, ApplyMove(f, n, m)) + PriceOf(w, n, m)
  {
    hide NetInv, ApplyMove, MoveEnabled, Work;
    match m
    case Invoke(pid) => InvokeWork(w, f, n, goals, pid);
    case Refuse(pid) => RefuseWork(w, f, n, pid);
    case Resume(pid) => ResumeWork(w, f, n, goals, pid);
    case Conclude(h) => ConcludeWork(w, f, n, h);
    case Infra(a) => InfraWork(w, f, n, goals, a);
  }

  /** After k moves just k units are used up, so no healthy run is longer than its initial work. */
  lemma {:induction false} RunsAreBounded(f: Fleet, ns: seq<Net>, ms: seq<Move>, k: nat)
    requires NetRun(f, ns, ms) && k < |ns|
    ensures Work(MOVES, f, ns[0]) == k + Work(MOVES, f, ns[k])
    decreases k
  {
    hide NetInv, ApplyMove, MoveEnabled, Work;
    if k > 0 {
      RunsAreBounded(f, ns, ms, k - 1);
      NetRunInv(f, ns, ms, k - 1);
      assert MoveEnabled(f, ns[k - 1], ms[k - 1]) && ns[k - 1 + 1] == ApplyMove(f, ns[k - 1], ms[k - 1]);
      MoveUsesItsPrice(MOVES, f, ns[k - 1], Goals(f, ns[0]), ms[k - 1]);
    }
  }

  // ---- How many handlers start ----------------------------------------------------------------------

  lemma HandlersGrow(f: Fleet, n: Net, m: Move)
    requires MoveEnabled(f, n, m)
    ensures |ApplyMove(f, n, m).s.handlers| == |n.s.handlers| + if StartsHandler(n, m) then 1 else 0
  {
    hide Routed, MakeCopies, EndPublish, OutcomeOf, Register, NextAct, Respond;
  }

  /** The handlers started so far and the ones still to start add up to what the program needs. */
  lemma {:induction false} HandlersAreCounted(f: Fleet, ns: seq<Net>, ms: seq<Move>, k: nat)
    requires NetRun(f, ns, ms) && k < |ns|
    ensures Work(STARTS, f, ns[0]) == |ns[k].s.handlers| + Work(STARTS, f, ns[k])
    decreases k
  {
    hide NetInv, ApplyMove, MoveEnabled, Work;
    if k > 0 {
      HandlersAreCounted(f, ns, ms, k - 1);
      NetRunInv(f, ns, ms, k - 1);
      assert MoveEnabled(f, ns[k - 1], ms[k - 1]) && ns[k - 1 + 1] == ApplyMove(f, ns[k - 1], ms[k - 1]);
      MoveUsesItsPrice(STARTS, f, ns[k - 1], Goals(f, ns[0]), ms[k - 1]);
      HandlersGrow(f, ns[k - 1], ms[k - 1]);
    }
  }

  /** A body starts at most, per call it may still make, the sum of b^i for i below the depth left. */
  lemma {:induction false} BodyStarts(p: Program, b: nat, chain: Chain, inHandler: bool, s: Script, rs: seq<Res>)
    requires AtMost(p, b) && |rs| <= s.calls
    ensures BodyWork(STARTS, p, chain, inHandler, s, rs) <= (s.calls - |rs|) * PowerSum(b, Max0(p.maxDepth - |chain|))
    decreases Max0(p.maxDepth - |chain|), 1, Max0(s.calls - |rs|)
  {
    hide PowerSum, EvalCall;
    var a := NextAct(s, rs);
    var k := PowerSum(b, Max0(p.maxDepth - |chain|));
    if a.Call? {
      var rs' := rs + [EvalCall(p, chain, inHandler, a.task, a.arg)];
      BodyStarts(p, b, chain, inHandler, s, rs');
      OneLess(s.calls - |rs|, k);
      if |chain| < p.maxDepth { RequestStarts(p, b, chain, inHandler, a.task, a.arg); }
    } else {
      MulBound(0, s.calls - |rs|, k);
    }
  }

  lemma {:induction false} RequestStarts(p: Program, b: nat, chain: Chain, inHandler: bool, task: string, arg: Value)
    requires AtMost(p, b) && |chain| < p.maxDepth
    ensures RequestWork(STARTS, p, chain + [NextHop(chain, inHandler, task)], task, arg)
            <= PowerSum(b, Max0(p.maxDepth - |chain|))
    decreases Max0(p.maxDepth - |chain|), 0, 0
  {
    hide PowerSum, BodyWork;
    var chain' := chain + [NextHop(chain, inHandler, task)];
    if task in p.tasks {
      var s, d := p.tasks[task](arg), Max0(p.maxDepth - |chain'|);
      var none: seq<Res> := [];
      BodyStarts(p, b, chain', true, s, none);
      PowerSumStep(b, d);
      MulBound(s.calls, b, PowerSum(b, d));
      assert s.calls - |none| == s.calls;
      assert BodyWork(STARTS, p, chain', true, s, none) <= s.calls * PowerSum(b, d);
      assert ServedWork(STARTS, p, chain', task, arg) == 1 + BodyWork(STARTS, p, chain', true, s, none);
      assert RequestWork(STARTS, p, chain', task, arg) == 1 + BodyWork(STARTS, p, chain', true, s, none);
      assert Max0(p.maxDepth - |chain|) == d + 1;
    }
  }

  ghost function CallsOf(): Proc -> nat { (x: Proc) => x.script.calls }

  lemma {:induction false} ClientsStart(f: Fleet, n: Net, b: nat, clients: seq<Proc>)
    requires AtMost(f.program, b) && forall i :: 0 <= i < |clients| ==> NewClient(n, clients[i])
    ensures Sum(clients, ProcW(STARTS, f)) <= Sum(clients, CallsOf()) * PowerSum(b, Max0(f.program.maxDepth))
    decreases |clients|
  {
    hide PowerSum, BodyWork;
    var k := PowerSum(b, Max0(f.program.maxDepth));
    if clients != [] {
      var x := clients[0];
      ClientsStart(f, n, b, clients[1..]);
      ClientStarts(f, n, b, x);
      Distribute(x.script.calls, Sum(clients[1..], CallsOf()), k);
    } else {
      MulBound(0, 0, k);
    }
  }

  lemma ClientStarts(f: Fleet, n: Net, b: nat, x: Proc)
    requires AtMost(f.program, b) && NewClient(n, x)
    ensures ProcWork(STARTS, f, x) <= x.script.calls * PowerSum(b, Max0(f.program.maxDepth))
  {
    hide PowerSum, BodyWork;
    BodyStarts(f.program, b, x.chain, x.inHandler, x.script, x.results);
    assert |x.results| == 0 && x.script.calls - |x.results| == x.script.calls;
  }

  lemma Distribute(x: nat, y: nat, k: nat)
    ensures (x + y) * k == x * k + y * k
  {
  }

  lemma {:induction false} NothingInSlots(f: Fleet, ts: seq<Instance>)
    requires forall t :: 0 <= t < |ts| ==> ts[t].slot.None?
    ensures Sum(ts, SlotW(STARTS, f)) == 0
  {
    SumZero(ts, SlotW(STARTS, f));
  }

  /**
    With at most `b` calls per task body, in every healthy run the fleet starts at most, per call its clients may
    make, the sum of b^i for i below the depth limit handlers - however cyclic the tasks, whatever bodies catch.
   */
  lemma HandlersAreBounded(f: Fleet, b: nat, ns: seq<Net>, ms: seq<Move>, k: nat)
    requires NetRun(f, ns, ms) && k < |ns| && AtMost(f.program, b)
    ensures |ns[k].s.handlers| <= Sum(ns[0].clients, CallsOf()) * PowerSum(b, Max0(f.program.maxDepth))
  {
    hide Wired, PowerSum, BodyWork, Lossless, ConfigOk;
    var n := ns[0];
    HandlersAreCounted(f, ns, ms, k);
    ClientsStart(f, n, b, n.clients);
    forall t | 0 <= t < |n.s.ts| ensures n.s.ts[t].slot.None? { assert IdleInstance(t, n.s.ts[t]); }
    NothingInSlots(f, n.s.ts);
  }
}
