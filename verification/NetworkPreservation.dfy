/** Every move of a healthy fleet keeps the invariant. */
module NetworkPreservation {
  import opened Wrappers
  import opened InFlight
  import opened Sequences
  import opened Protocol
  import opened ProtocolInvariant
  import opened ProtocolPreservation
  import opened Delivery
  import opened Tasks
  import opened Codecs
  import opened Network
  import opened NetworkInvariant
  import Topic

  // ---- What extensions of the protocol state keep ---------------------------------------------------

  lemma ClientKept(f: Fleet, s: State, s': State, x: Proc, goal: Res)
    requires Extends(s, s') && ClientFine(f, s, x, goal)
    ensures ClientFine(f, s', x, goal)
  {
    hide Promise;
    if x.st.Calling? { assert OpExtends(s.ops[x.st.r], s'.ops[x.st.r]); }
  }

  lemma WorkerKept(f: Fleet, s: State, s': State, h: nat, x: Proc)
    requires Extends(s, s') && WorkerFine(f, s, h, x)
    requires h < |s'.handlers| && (s'.handlers[h].st.Running? <==> s.handlers[h].st.Running?)
    ensures WorkerFine(f, s', h, x)
  {
    hide Promise;
    assert HandlerExtends(s.handlers[h], s'.handlers[h]);
    var r := s.handlers[h].copy.corr;
    assert OpExtends(s.ops[r], s'.ops[r]);
    assert Expected(f, s'.ops[r]) == Expected(f, s.ops[r]);
    if x.st.Calling? { assert OpExtends(s.ops[x.st.r], s'.ops[x.st.r]); }
  }

  lemma RequestKept(f: Fleet, s: State, s': State, r: nat)
    requires r < |s.ops| && RequestFine(f, s, r) && |s'.ts| == |s.ts| && r < |s'.ops| && s'.ops[r] == s.ops[r]
    requires var t := s.ops[r].t; FutureOf(s'.ts[t].local, r).Pending? ==> FutureOf(s.ts[t].local, r).Pending?
    requires (s.ops[r].wire.Accepted? && !s.ops[r].phase.Finished? && Located(s, r)
              && FutureOf(s'.ts[s.ops[r].t].local, r).Pending?) ==> Located(s', r)
    ensures RequestFine(f, s', r)
  {
    hide Located, FutureOf;
  }

  /** Nothing is taken away from where copies and handlers were. */
  lemma LocatedStays(s: State, s': State, r: nat)
    requires Located(s, r) && |s'.ts| == |s.ts| && |s.handlers| <= |s'.handlers|
    requires forall c :: c in s.ready ==> c in s'.ready
    requires forall t :: 0 <= t < |s.ts| ==> s'.ts[t].slot == s.ts[t].slot
    requires forall h :: 0 <= h < |s.handlers| ==> s'.handlers[h].copy == s.handlers[h].copy
    requires forall h :: 0 <= h < |s.handlers| && s.handlers[h].copy.corr == r && !s.handlers[h].st.Ended? ==>
               !s'.handlers[h].st.Ended?
    ensures Located(s', r)
  {
  }

  // ---- The wiring -----------------------------------------------------------------------------------

  predicate SameWiring(s: State, s': State)
  {
    s'.queues == s.queues && |s'.ts| == |s.ts|
    && forall t :: 0 <= t < |s.ts| ==> s'.ts[t].consumes == s.ts[t].consumes
  }

  lemma WiredKept(f: Fleet, s: State, s': State)
    requires Wired(f, s) && SameWiring(s, s')
    ensures Wired(f, s')
  {
    forall q | Consumed(s, q) ensures Consumed(s', q) {
      var t :| 0 <= t < |s.ts| && q in s.ts[t].consumes;
      assert q in s'.ts[t].consumes;
    }
  }

  lemma HealthyKeepsWiring(cfg: Config, s: State, a: Action)
    requires Enabled(cfg, s, a) && (Healthy(a) || a.Start? || a.Complete?)
    ensures SameWiring(s, Apply(cfg, s, a))
  {
    hide Routed, MakeCopies, EndPublish, Sweep, Register, Respond, OutcomeOf;
  }

  // ---- Transports and broker ------------------------------------------------------------------------

  /** A move of publish `r`'s own task: only its record and its instance's bookkeeping change. */
  ghost predicate OwnMove(s: State, s': State, r: nat)
  {
    && r < |s.ops| && |s'.ops| == |s.ops| && s.ops[r].t < |s.ts| == |s'.ts|
    && (forall k :: 0 <= k < |s.ops| && k != r ==> s'.ops[k] == s.ops[k])
    && (forall t :: 0 <= t < |s.ts| ==> s'.ts[t].slot == s.ts[t].slot)
    && (forall t :: 0 <= t < |s.ts| && t != s.ops[r].t ==> s'.ts[t] == s.ts[t])
    && (forall k: nat :: k != r ==> FutureOf(s'.ts[s.ops[r].t].local, k) == FutureOf(s.ts[s.ops[r].t].local, k))
    && s'.handlers == s.handlers && forall c :: c in s.ready ==> c in s'.ready
  }

  lemma OwnMoveKeepsOthers(f: Fleet, s: State, s': State, r: nat)
    requires RequestsFine(f, s) && OwnMove(s, s', r)
    requires RequestFine(f, s', r)
    ensures RequestsFine(f, s')
  {
    forall k | 0 <= k < |s'.ops| ensures RequestFine(f, s', k) {
      if k != r {
        assert RequestFine(f, s, k);
        if Located(s, k) { LocatedStays(s, s', k); }
        RequestKept(f, s, s', k);
      }
    }
  }

  lemma AcquireKeepsRequests(f: Fleet, s: State, r: nat)
    requires RequestsFine(f, s) && NothingLostAnywhere(s) && IsOp(s, r) && s.ops[r].phase.Queued?
    ensures RequestsFine(f, TakeLock(s, r)) && NothingLostAnywhere(TakeLock(s, r))
  {
    assert RequestFine(f, s, r);
    assert OwnMove(s, TakeLock(s, r), r);
    assert NothingLost(s.ts[s.ops[r].t].local);
    OwnMoveKeepsOthers(f, s, TakeLock(s, r), r);
  }

  lemma EndPublishingKeepsRequests(f: Fleet, s: State, r: nat, p: Publish, task: CurrentTask)
    requires RequestsFine(f, s) && NothingLostAnywhere(s) && IsOp(s, r) && s.ops[r].phase.Publishing?
    requires (p.Confirmed? && s.ops[r].wire.Accepted?) || (p.Returned? && s.ops[r].wire.Refused?)
    ensures RequestsFine(f, ApplyEndPublishing(s, r, p, task)) && NothingLostAnywhere(ApplyEndPublishing(s, r, p, task))
  {
    var s' := ApplyEndPublishing(s, r, p, task);
    assert RequestFine(f, s, r) && NothingLost(s.ts[s.ops[r].t].local);
    assert s'.ts[s.ops[r].t].local.futures == s.ts[s.ops[r].t].local.futures;
    assert OwnMove(s, s', r);
    if Located(s, r) { LocatedStays(s, s', r); }
    OwnMoveKeepsOthers(f, s, s', r);
  }

  lemma WakeKeepsRequests(f: Fleet, s: State, r: nat)
    requires RequestsFine(f, s) && NothingLostAnywhere(s) && IsOp(s, r)
    requires s.ops[r].phase.Waiting? && !FutureOf(LocalOf(s, r), r).Pending?
    ensures RequestsFine(f, WakeUp(s, r)) && NothingLostAnywhere(WakeUp(s, r))
  {
    var s' := WakeUp(s, r);
    assert RequestFine(f, s, r) && NothingLost(s.ts[s.ops[r].t].local);
    assert s'.ts[s.ops[r].t].local.futures == s.ts[s.ops[r].t].local.futures;
    assert OwnMove(s, s', r);
    OwnMoveKeepsOthers(f, s, s', r);
  }

  /** In a wired fleet a request is accepted exactly when its name is served. */
  lemma RoutedIffServed(f: Fleet, s: State, r: nat)
    requires ConfigOk(f.cfg) && Wired(f, s) && QueuesOk(s) && r < |s.ops| && s.ops[r].kind.Request?
    ensures OpQueues(f.cfg, s, r) != [] <==> s.ops[r].name in f.program.tasks
  {
    var qs, op := OpQueues(f.cfg, s, r), s.ops[r];
    if qs != [] {
      var q := qs[0];
      assert q in qs;
      RoutedToOwnQueues(f.cfg, s, r, q);
      var i :| 0 <= i < |s.queues| && s.queues[i] == q;
    }
    if op.name in f.program.tasks {
      MatchesWhatIsAddressed(f.cfg, s, r, RequestQ(op.name));
      assert RequestQ(op.name) in qs;
    }
  }

  lemma RouteKeepsRequests(f: Fleet, s: State, r: nat)
    requires ConfigOk(f.cfg) && Wired(f, s) && QueuesOk(s)
    requires RequestsFine(f, s) && NothingLostAnywhere(s) && IsOp(s, r) && s.ops[r].wire.OnWire?
    requires !s.ops[r].phase.Finished?
    ensures RequestsFine(f, RouteOut(f.cfg, s, r)) && NothingLostAnywhere(RouteOut(f.cfg, s, r))
  {
    var s', qs := RouteOut(f.cfg, s, r), OpQueues(f.cfg, s, r);
    assert RequestFine(f, s, r);
    RoutedIffServed(f, s, r);
    RouteIsOwnMove(f.cfg, s, r);
    if qs != [] {
      var c := Copy(s.nextUid + 0, qs[0], r, s.ops[r].t, s.ops[r].body);
      assert s'.ready[|s.ready|] == c;
      assert Located(s', r);
    }
    OwnMoveKeepsOthers(f, s, s', r);
  }

  lemma RouteIsOwnMove(cfg: Config, s: State, r: nat)
    requires IsOp(s, r)
    ensures OwnMove(s, RouteOut(cfg, s, r), r) && RouteOut(cfg, s, r).ts == s.ts
    ensures var s', qs := RouteOut(cfg, s, r), OpQueues(cfg, s, r);
            && s'.ops[r] == s.ops[r].(wire := if qs == [] then Refused else Accepted)
            && s'.ready == s.ready + MakeCopies(qs, s.nextUid, r, s.ops[r].t, s.ops[r].body)
  {
    hide Routed, FutureOf;
  }

  lemma DeliverKeepsRequests(f: Fleet, s: State, i: nat, t: nat)
    requires RequestsFine(f, s) && NothingLostAnywhere(s)
    requires t < |s.ts| && i < |s.ready| && s.ts[t].slot.None?
    ensures var s' := SetSlot(s.(ready := RemoveAt(s.ready, i)), t, Some(s.ready[i]));
            RequestsFine(f, s') && NothingLostAnywhere(s')
  {
    var s' := SetSlot(s.(ready := RemoveAt(s.ready, i)), t, Some(s.ready[i]));
    forall k | 0 <= k < |s'.ops| ensures RequestFine(f, s', k) {
      assert RequestFine(f, s, k);
      if Located(s, k) { DeliveredIsLocated(s, s', i, t, k); }
      RequestKept(f, s, s', k);
    }
    assert NothingLost(s.ts[t].local);
  }

  lemma DeliveredIsLocated(s: State, s': State, i: nat, t: nat, k: nat)
    requires t < |s.ts| && i < |s.ready| && s.ts[t].slot.None? && Located(s, k)
    requires s' == SetSlot(s.(ready := RemoveAt(s.ready, i)), t, Some(s.ready[i]))
    ensures Located(s', k)
  {
    if c :| c in s.ready && c.corr == k {
      if c == s.ready[i] {
        assert s'.ts[t].slot == Some(c);
      } else {
        assert c in s'.ready;
      }
    } else if u :| 0 <= u < |s.ts| && s.ts[u].slot.Some? && s.ts[u].slot.value.corr == k {
      assert s'.ts[u].slot == s.ts[u].slot;
    }
  }

  /** A request that is acknowledged is now its handler's; an acknowledged reply resolves its future. */
  lemma AckKeepsRequests(f: Fleet, s: State, t: nat)
    requires Inv(s) && RequestsFine(f, s) && NothingLostAnywhere(s) && HasSlot(s, t)
    ensures RequestsFine(f, TakeSlot(s, t, false)) && NothingLostAnywhere(TakeSlot(s, t, false))
  {
    var s', c := TakeSlot(s, t, false), s.ts[t].slot.value;
    assert InstanceOk(s, t, s.ts[t]) && NothingLost(s.ts[t].local);
    assert CopyOk(s, c);
    ReceivedLocal(s, t);
    forall k | 0 <= k < |s'.ops| ensures RequestFine(f, s', k) {
      assert RequestFine(f, s, k) && OpOk(s, k, s.ops[k]);
      ReceivedFuture(s, t, k);
      if Located(s, k) && !(c.queue.ReplyQ? && k == c.corr) { AcknowledgedIsLocated(s, t, k); }
      RequestKept(f, s, s', k);
    }
  }

  lemma ReceivedLocal(s: State, t: nat)
    requires HasSlot(s, t) && WellFormed(s.ts[t].local) && NothingLostAnywhere(s)
    ensures NothingLostAnywhere(TakeSlot(s, t, false))
    ensures |TakeSlot(s, t, false).ts| == |s.ts| && TakeSlot(s, t, false).ops == s.ops
  {
    assert NothingLost(s.ts[t].local);
  }

  lemma ReceivedFuture(s: State, t: nat, k: nat)
    requires HasSlot(s, t) && IsOp(s, k) && OpOk(s, k, s.ops[k]) && CopyOk(s, s.ts[t].slot.value)
    requires InstanceOk(s, t, s.ts[t])
    ensures var s', c, u := TakeSlot(s, t, false), s.ts[t].slot.value, s.ops[k].t;
            && u < |s'.ts|
            && (FutureOf(s'.ts[u].local, k).Pending? ==> FutureOf(s.ts[u].local, k).Pending?)
            && (c.queue.ReplyQ? && k == c.corr && Live(s.ops[k].phase) ==> !FutureOf(s'.ts[u].local, k).Pending?)
  {
    hide Produced, Carries;
    var c := s.ts[t].slot.value;
    if c.queue.ReplyQ? {
      assert ExclusiveTo(c.queue, t);
    }
  }

  lemma AcknowledgedIsLocated(s: State, t: nat, k: nat)
    requires HasSlot(s, t) && Located(s, k)
    requires !(s.ts[t].slot.value.queue.ReplyQ? && k == s.ts[t].slot.value.corr)
    ensures Located(TakeSlot(s, t, false), k)
  {
    hide Respond;
    var s', c := TakeSlot(s, t, false), s.ts[t].slot.value;
    assert s'.ready == s.ready;
    if u :| 0 <= u < |s.ts| && s.ts[u].slot.Some? && s.ts[u].slot.value.corr == k {
      if u == t {
        assert s'.handlers[|s.handlers|] == Handler(t, c, None, Running);
      } else {
        assert s'.ts[u].slot == s.ts[u].slot;
      }
    } else if h :| 0 <= h < |s.handlers| && s.handlers[h].copy.corr == k && !s.handlers[h].st.Ended? {
      assert s'.handlers[h] == s.handlers[h];
    }
  }

  lemma ReplyKeepsRequests(f: Fleet, s: State, h: nat)
    requires RequestsFine(f, s) && NothingLostAnywhere(s) && IsHandler(s, h) && s.handlers[h].result.Some?
    requires ReplyQueues(f.cfg, s, h) != []
    ensures RequestsFine(f, SendReply(f.cfg, s, h)) && NothingLostAnywhere(SendReply(f.cfg, s, h))
  {
    var s', x := SendReply(f.cfg, s, h), s.handlers[h];
    var qs := ReplyQueues(f.cfg, s, h);
    var c := Copy(s.nextUid + 0, qs[0], x.copy.corr, x.copy.replyTo, x.result.value);
    assert s'.ready[|s.ready|] == c;
    forall k | 0 <= k < |s'.ops| ensures RequestFine(f, s', k) {
      assert RequestFine(f, s, k);
      if k == x.copy.corr {
        assert c in s'.ready && c.corr == k;
      } else if Located(s, k) {
        LocatedStays(s, s', k);
      }
      RequestKept(f, s, s', k);
    }
  }

  // ---- Moves ----------------------------------------------------------------------------------------

  /** A healthy action keeps who owns what. */
  lemma HealthyKeepsPhases(cfg: Config, s: State, a: Action, r: nat)
    requires Enabled(cfg, s, a) && Healthy(a) && r < |s.ops|
    ensures |Apply(cfg, s, a).ops| == |s.ops|
    ensures s.ops[r].phase.Finished? && !a.Wake? ==> Apply(cfg, s, a).ops[r].phase.Finished?
    ensures a.Wake? ==> Apply(cfg, s, a).ops[r].phase.Finished? || Apply(cfg, s, a).ops[r] == s.ops[r]
  {
    hide Routed, MakeCopies, EndPublish, Sweep, Register, Respond, OutcomeOf;
  }

  lemma HealthyKeepsRequests(f: Fleet, n: Net, a: Action)
    requires ConfigOk(f.cfg) && Wired(f, n.s) && Inv(n.s) && RequestsFine(f, n.s) && NothingLostAnywhere(n.s)
    requires Healthy(a) && Enabled(f.cfg, n.s, a)
    ensures RequestsFine(f, Apply(f.cfg, n.s, a)) && NothingLostAnywhere(Apply(f.cfg, n.s, a))
  {
    hide RequestsFine, NothingLostAnywhere, Wired, QueuesOk;
    var s := n.s;
    match a
    case Acquire(r) => AcquireKeepsRequests(f, s, r);
    case EndPublishing(r, p, task) => EndPublishingKeepsRequests(f, s, r, p, task);
    case Wake(r) => NotLeaving(f, s, r); WakeKeepsRequests(f, s, r);
    case Route(r) => NotFinished(f, s, r); RouteKeepsRequests(f, s, r);
    case Deliver(i, t) => DeliverKeepsRequests(f, s, i, t);
    case Ack(t) => AckKeepsRequests(f, s, t);
    case Reply(h) => ReplyKeepsRequests(f, s, h);
  }

  lemma NotLeaving(f: Fleet, s: State, r: nat)
    requires RequestsFine(f, s) && r < |s.ops|
    ensures !s.ops[r].phase.Leaving?
  {
    assert RequestFine(f, s, r);
  }

  lemma AnsweredWasAccepted(s: State, r: nat)
    requires Inv(s) && r < |s.ops| && s.ops[r].phase.Finished? && s.ops[r].phase.outcome.Answered?
    ensures s.ops[r].wire.Accepted?
  {
    assert OpOk(s, r, s.ops[r]);
    var h: nat :| ProducedBy(s, h, r, s.ops[r].phase.outcome.body);
    assert HandlerOk(s, s.handlers[h]);
  }

  /** In a healthy run a request finishes only after its message was accepted or refused. */
  lemma NotFinished(f: Fleet, s: State, r: nat)
    requires RequestsFine(f, s) && Inv(s) && r < |s.ops| && s.ops[r].wire.OnWire?
    ensures !s.ops[r].phase.Finished?
  {
    assert RequestFine(f, s, r) && OpOk(s, r, s.ops[r]);
    if s.ops[r].phase.Finished? && s.ops[r].phase.outcome.Answered? { AnsweredWasAccepted(s, r); }
  }

  lemma HandlersAfterHealthy(cfg: Config, s: State, a: Action, h: nat)
    requires Enabled(cfg, s, a) && Healthy(a) && h < |s.handlers|
    ensures h < |Apply(cfg, s, a).handlers|
    ensures Apply(cfg, s, a).handlers[h].st.Running? <==> s.handlers[h].st.Running?
    ensures |Apply(cfg, s, a).handlers| ==
            |s.handlers| + (if a.Ack? && !s.ts[a.t].slot.value.queue.ReplyQ? then 1 else 0)
  {
    hide Routed, MakeCopies, EndPublish, Sweep, Register, Respond, OutcomeOf;
  }

  lemma HandlerCountAfterHealthy(cfg: Config, s: State, a: Action)
    requires Enabled(cfg, s, a) && Healthy(a)
    ensures |Apply(cfg, s, a).handlers| ==
            |s.handlers| + (if a.Ack? && !s.ts[a.t].slot.value.queue.ReplyQ? then 1 else 0)
    ensures |Apply(cfg, s, a).ops| == |s.ops|
  {
    hide Routed, MakeCopies, EndPublish, Sweep, Register, Respond, OutcomeOf;
  }

  lemma InfraKeepsNetInv(f: Fleet, n: Net, goals: seq<Res>, a: Action)
    requires NetInv(f, n, goals) && MoveEnabled(f, n, Infra(a))
    ensures NetInv(f, ApplyMove(f, n, Infra(a)), goals)
  {
    hide Inv, Apply, Enabled, Wired, RequestsFine, NothingLostAnywhere, Owned, ClientFine, WorkerFine, Extends;
    var s, s', n' := n.s, Apply(f.cfg, n.s, a), ApplyMove(f, n, Infra(a));
    StepKeepsInv(f.cfg, s, a);
    HealthyKeepsWiring(f.cfg, s, a);
    WiredKept(f, s, s');
    HealthyKeepsRequests(f, n, a);
    forall i | 0 <= i < |n'.clients| ensures ClientFine(f, s', n'.clients[i], goals[i]) {
      ClientKept(f, s, s', n.clients[i], goals[i]);
    }
    HandlerCountAfterHealthy(f.cfg, s, a);
    forall h | 0 <= h < |n'.workers| ensures WorkerFine(f, s', h, n'.workers[h]) {
      if h < |n.workers| {
        HandlersAfterHealthy(f.cfg, s, a, h);
        WorkerKept(f, s, s', h, n.workers[h]);
      } else {
        AckSpawnsFineWorker(f, n, a);
      }
    }
    forall r | 0 <= r < |n'.s.ops| ensures Owned(n', r) {
      HealthyKeepsPhases(f.cfg, s, a, r);
      OwnedKept(n, n', r);
    }
  }

  lemma AckSpawnsFineWorker(f: Fleet, n: Net, a: Action)
    requires Inv(n.s) && RequestsFine(f, n.s) && Lossless(f.codec) && |n.workers| == |n.s.handlers|
    requires MoveEnabled(f, n, Infra(a)) && |ApplyMove(f, n, Infra(a)).workers| > |n.workers|
    ensures WorkerFine(f, Apply(f.cfg, n.s, a), |n.workers|, ApplyMove(f, n, Infra(a)).workers[|n.workers|])
    ensures |ApplyMove(f, n, Infra(a)).workers| == |n.workers| + 1
  {
    hide Inv, RequestsFine, WorkerFine;
    NewWorkerFine(f, n, a.t);
  }

  lemma OwnedKept(n: Net, n': Net, r: nat)
    requires r < |n.s.ops| && r < |n'.s.ops| && Owned(n, r) && n'.owners == n.owners && n'.clients == n.clients
    requires n.workers <= n'.workers && (n.s.ops[r].phase.Finished? ==> n'.s.ops[r].phase.Finished?)
    ensures Owned(n', r)
  {
  }

  /** The handler of a request that was just acknowledged owes what direct evaluation of the call gives. */
  lemma NewWorkerFine(f: Fleet, n: Net, t: nat)
    requires Inv(n.s) && RequestsFine(f, n.s) && HasSlot(n.s, t) && !n.s.ts[t].slot.value.queue.ReplyQ?
    requires Lossless(f.codec)
    ensures var s', c := TakeSlot(n.s, t, false), n.s.ts[t].slot.value;
            WorkerFine(f, s', |n.s.handlers|, NewWorker(f, t, c))
  {
    var s, c := n.s, n.s.ts[t].slot.value;
    assert InstanceOk(s, t, s.ts[t]) && CopyOk(s, c);
    assert RequestFine(f, s, c.corr) && Carries(s.ops[c.corr], c);
    var call := f.codec.decodeCall(c.body);
    assert Expected(f, s.ops[c.corr])
           == Attach(EvalBody(f.program, call.chain, true, f.program.tasks[c.queue.name](call.arg), []), call.chain);
  }

  /** No body but `pid` changes, and `pid` was not waiting for an unfinished request. */
  lemma OthersStillOwn(n: Net, n': Net, pid: Pid, x: Proc, r: nat)
    requires IsProc(n, pid) && n'.clients == SetProc(n, pid, x).clients && n'.workers == SetProc(n, pid, x).workers
    requires r < |n.s.ops| && r < |n'.s.ops| && Owned(n, r) && |n'.owners| >= |n.owners| && n'.owners[r] == n.owners[r]
    requires n'.s.ops[r].phase == n.s.ops[r].phase
    requires ProcOf(n, pid).st.Calling? ==>
               ProcOf(n, pid).st.r < |n.s.ops| && n.s.ops[ProcOf(n, pid).st.r].phase.Finished?
    ensures Owned(n', r)
  {
  }

  /** The body `pid` in state `x` is as it should be. */
  ghost predicate ProcFine(f: Fleet, s: State, goals: seq<Res>, pid: Pid, x: Proc)
  {
    match pid
    case Client(i) => i < |goals| && ClientFine(f, s, x, goals[i])
    case Worker(h) => WorkerFine(f, s, h, x)
  }

  lemma ProcsFine(f: Fleet, n: Net, n': Net, goals: seq<Res>, pid: Pid, x: Proc)
    requires ClientsFine(f, n, goals) && WorkersFine(f, n) && IsProc(n, pid)
    requires n'.clients == SetProc(n, pid, x).clients && n'.workers == SetProc(n, pid, x).workers
    requires Extends(n.s, n'.s) && |n'.s.handlers| == |n.s.handlers|
    requires forall h :: 0 <= h < |n.s.handlers| && pid != Worker(h) ==>
               (n'.s.handlers[h].st.Running? <==> n.s.handlers[h].st.Running?)
    requires ProcFine(f, n'.s, goals, pid, x)
    ensures ClientsFine(f, n', goals) && WorkersFine(f, n')
  {
    hide ClientFine, WorkerFine, Extends;
    forall i | 0 <= i < |n'.clients| ensures ClientFine(f, n'.s, n'.clients[i], goals[i]) {
      if pid != Client(i) { ClientKept(f, n.s, n'.s, n.clients[i], goals[i]); }
    }
    forall h | 0 <= h < |n'.workers| ensures WorkerFine(f, n'.s, h, n'.workers[h]) {
      if pid != Worker(h) { WorkerKept(f, n.s, n'.s, h, n.workers[h]); }
    }
  }

  lemma ProcWasFine(f: Fleet, n: Net, goals: seq<Res>, pid: Pid)
    requires ClientsFine(f, n, goals) && WorkersFine(f, n) && IsProc(n, pid)
    ensures ProcFine(f, n.s, goals, pid, ProcOf(n, pid))
  {
  }

  /** A body that gets the outcome direct evaluation gives for its call goes on as it should. */
  lemma GoesOn(f: Fleet, n: Net, goals: seq<Res>, pid: Pid, r: Res)
    requires NetInv(f, n, goals) && IsProc(n, pid) && ActOf(ProcOf(n, pid)).Call? && !ProcOf(n, pid).st.Stopped?
    requires var x := ProcOf(n, pid);
             && r == EvalCall(f.program, x.chain, x.inHandler, ActOf(x).task, ActOf(x).arg)
             && (x.st.Calling? ==> x.st.r < |n.s.ops| && n.s.ops[x.st.r].phase.Finished?)
    ensures NetInv(f, SetProc(n, pid, WithResult(ProcOf(n, pid), r)), goals)
  {
    hide Inv, Wired, RequestsFine, NothingLostAnywhere, Owned, EvalCall, EvalBody;
    var x := ProcOf(n, pid);
    var x' := WithResult(x, r);
    var n' := SetProc(n, pid, x');
    ProcWasFine(f, n, goals, pid);
    PromiseKept(f, x, r);
    ProcsFine(f, n, n', goals, pid, x');
    forall k | 0 <= k < |n'.s.ops| ensures Owned(n', k) { OthersStillOwn(n, n', pid, x', k); }
  }

  lemma RefuseKeepsNetInv(f: Fleet, n: Net, goals: seq<Res>, pid: Pid)
    requires NetInv(f, n, goals) && MoveEnabled(f, n, Refuse(pid))
    ensures NetInv(f, ApplyMove(f, n, Refuse(pid)), goals)
  {
    hide NetInv;
    GoesOn(f, n, goals, pid, TooDeep());
  }

  lemma ResumeKeepsNetInv(f: Fleet, n: Net, goals: seq<Res>, pid: Pid)
    requires NetInv(f, n, goals) && MoveEnabled(f, n, Resume(pid))
    ensures NetInv(f, ApplyMove(f, n, Resume(pid)), goals)
  {
    hide EvalCall, EvalBody, Inv, Wired, RequestsFine, NothingLostAnywhere, Owned;
    ProcWasFine(f, n, goals, pid);
    var x := ProcOf(n, pid);
    OutcomeIsDirect(f, n, x);
    GoesOn(f, n, goals, pid, Interpreted(f, n.s.ops[x.st.r].phase.outcome));
  }

  /** A request just started: nothing is known of it but what it asks. */
  lemma StartedRequestsFine(f: Fleet, s: State, a: Action)
    requires RequestsFine(f, s) && NothingLostAnywhere(s) && a.Start? && a.kind.Request? && Enabled(f.cfg, s, a)
    requires |f.codec.decodeCall(a.body).chain| <= f.program.maxDepth
    ensures RequestsFine(f, Apply(f.cfg, s, a)) && NothingLostAnywhere(Apply(f.cfg, s, a))
  {
    var s' := Apply(f.cfg, s, a);
    forall k | 0 <= k < |s'.ops| ensures RequestFine(f, s', k) {
      if k < |s.ops| {
        assert RequestFine(f, s, k);
        if Located(s, k) { LocatedStays(s, s', k); }
        RequestKept(f, s, s', k);
      }
    }
  }

  lemma InvokeKeepsNetInv(f: Fleet, n: Net, goals: seq<Res>, pid: Pid)
    requires NetInv(f, n, goals) && MoveEnabled(f, n, Invoke(pid))
    ensures NetInv(f, ApplyMove(f, n, Invoke(pid)), goals)
  {
    hide Inv, Wired, RequestsFine, NothingLostAnywhere, Owned, EvalCall, EvalBody, Extends, OpOk;
    var n', x := ApplyMove(f, n, Invoke(pid)), ProcOf(n, pid);
    var act := ActOf(x);
    var a := StartOf(f, x, act.task, act.arg);
    var x' := x.(st := Calling(|n.s.ops|));
    var c := CallContent(act.arg, x.chain + [HopOf(x, act.task)]);
    StepKeepsInv(f.cfg, n.s, a);
    HealthyKeepsWiring(f.cfg, n.s, a);
    WiredKept(f, n.s, n'.s);
    assert f.codec.decodeCall(f.codec.encodeCall(c)) == c;
    StartedRequestsFine(f, n.s, a);
    ProcWasFine(f, n, goals, pid);
    assert n'.s.ops == n.s.ops + [Op(x.t, Topic.Request, act.task, a.body, false, Queued, Unpublished)];
    assert n'.s.handlers == n.s.handlers && n'.s.ts == n.s.ts;
    InvokedProcFine(f, n.s, n'.s, goals, pid, x, x');
    ProcsFine(f, n, n', goals, pid, x');
    forall k | 0 <= k < |n'.s.ops| ensures Owned(n', k) {
      if k < |n.s.ops| { OthersStillOwn(n, n', pid, x', k); } else { NewCallOwned(n', pid, k); }
    }
  }

  lemma NewCallOwned(n: Net, pid: Pid, r: nat)
    requires r < |n.s.ops| && r < |n.owners| && n.owners[r] == pid && IsProc(n, pid) && ProcOf(n, pid).st == Calling(r)
    ensures Owned(n, r)
  {
  }

  lemma InvokedProcFine(f: Fleet, s: State, s': State, goals: seq<Res>, pid: Pid, x: Proc, x': Proc)
    requires ProcFine(f, s, goals, pid, x) && x.st.Active? && ActOf(x).Call? && |x.chain| < f.program.maxDepth
    requires x' == x.(st := Calling(|s.ops|)) && CallsRightly(f, s', x')
    requires |s'.ops| == |s.ops| + 1 && s'.ops[..|s.ops|] == s.ops && s'.handlers == s.handlers && s'.ts == s.ts
    ensures ProcFine(f, s', goals, pid, x')
  {
    hide EvalBody;
    assert ActOf(x') == ActOf(x) && Promise(f, x') == Promise(f, x);
    if pid.Worker? {
      var r := s.handlers[pid.h].copy.corr;
      assert s'.ops[r] == s'.ops[..|s.ops|][r];
    }
  }

  /** A body that is over promises just what it ends with. */
  lemma OverPromises(f: Fleet, x: Proc)
    requires !ActOf(x).Call?
    ensures Promise(f, x) == EndOf(ActOf(x), x.results)
  {
  }

  lemma CompletedRequestsFine(f: Fleet, s: State, a: Action)
    requires RequestsFine(f, s) && NothingLostAnywhere(s) && a.Complete? && Enabled(f.cfg, s, a)
    ensures RequestsFine(f, Apply(f.cfg, s, a)) && NothingLostAnywhere(Apply(f.cfg, s, a))
  {
    var s' := Apply(f.cfg, s, a);
    forall k | 0 <= k < |s'.ops| ensures RequestFine(f, s', k) {
      assert RequestFine(f, s, k);
      if Located(s, k) { LocatedStays(s, s', k); }
      RequestKept(f, s, s', k);
    }
  }

  lemma ConcludeKeepsNetInv(f: Fleet, n: Net, goals: seq<Res>, h: nat)
    requires NetInv(f, n, goals) && MoveEnabled(f, n, Conclude(h))
    ensures NetInv(f, ApplyMove(f, n, Conclude(h)), goals)
  {
    hide Inv, Wired, RequestsFine, NothingLostAnywhere, Owned, EvalCall, EvalBody, Extends, OpOk, HandlerOk;
    var n', x := ApplyMove(f, n, Conclude(h)), n.workers[h];
    var x' := x.(st := Stopped);
    var a := Complete(h, f.codec.encodeResult(Response(n, h)));
    StepKeepsInv(f.cfg, n.s, a);
    HealthyKeepsWiring(f.cfg, n.s, a);
    WiredKept(f, n.s, n'.s);
    CompletedRequestsFine(f, n.s, a);
    assert WorkerFine(f, n.s, h, x);
    OverPromises(f, x);
    assert n'.s.handlers == n.s.handlers[h := n.s.handlers[h].(result := Some(a.body), st := Replying)];
    assert n'.s.ops == n.s.ops && n'.s.ts == n.s.ts;
    ProcsFine(f, n, n', goals, Worker(h), x');
    forall k | 0 <= k < |n'.s.ops| ensures Owned(n', k) { OthersStillOwn(n, n', Worker(h), x', k); }
  }

  /** The invariant of a healthy fleet is inductive. */
  lemma MoveKeepsNetInv(f: Fleet, n: Net, goals: seq<Res>, m: Move)
    requires NetInv(f, n, goals) && MoveEnabled(f, n, m)
    ensures NetInv(f, ApplyMove(f, n, m), goals)
  {
    hide NetInv, ApplyMove, MoveEnabled;
    match m
    case Invoke(pid) => InvokeKeepsNetInv(f, n, goals, pid);
    case Refuse(pid) => RefuseKeepsNetInv(f, n, goals, pid);
    case Resume(pid) => ResumeKeepsNetInv(f, n, goals, pid);
    case Conclude(h) => ConcludeKeepsNetInv(f, n, goals, h);
    case Infra(a) => InfraKeepsNetInv(f, n, goals, a);
  }

  lemma {:induction false} NetRunInv(f: Fleet, ns: seq<Net>, ms: seq<Move>, k: nat)
    requires NetRun(f, ns, ms) && k < |ns|
    ensures NetInv(f, ns[k], Goals(f, ns[0]))
    decreases k
  {
    hide NetInv, ApplyMove, MoveEnabled, Goals;
    if k == 0 {
      InitNetInv(f, ns[0]);
    } else {
      NetRunInv(f, ns, ms, k - 1);
      assert MoveEnabled(f, ns[k - 1], ms[k - 1]) && ns[k - 1 + 1] == ApplyMove(f, ns[k - 1], ms[k - 1]);
      MoveKeepsNetInv(f, ns[k - 1], Goals(f, ns[0]), ms[k - 1]);
    }
  }
}
