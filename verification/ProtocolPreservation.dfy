/**
  Every action of the protocol keeps the invariant, one group of actions at a time.
 */
module ProtocolPreservation {
  import opened Wrappers
  import opened InFlight
  import opened Protocol
  import opened ProtocolInvariant
  import Topic

  // ---- Routing stays within one kind and name -------------------------------------------------------

  /** A publish is routed to the queues declared for its own kind and name and to no other. */
  lemma RoutedToOwnQueues(cfg: Config, s: State, r: nat, q: QueueId)
    requires ConfigOk(cfg) && QueuesOk(s) && r < |s.ops| && q in OpQueues(cfg, s, r)
    ensures match q
            case RequestQ(n) => s.ops[r].kind.Request? && n == s.ops[r].name
            case EventQ(n) => s.ops[r].kind.Event? && n == s.ops[r].name
            case BroadcastQ(_, n) => s.ops[r].kind.Broadcast? && n == s.ops[r].name
            case ReplyQ(_) => false
  {
    var op := s.ops[r];
    var i :| 0 <= i < |s.queues| && s.queues[i] == q;
    assert PlainName(s.queues[i]);
    if q.ReplyQ? {
      Topic.PlainMatchesExactly(BindingKey(cfg, q), OpKey(cfg, op));
      Topic.RoutingKeyWords(cfg.prefix, op.kind, op.name);
    } else {
      var k := if q.RequestQ? then Topic.Request else if q.EventQ? then Topic.Event else Topic.Broadcast;
      Topic.TrafficNeverCrosses(cfg.prefix, k, q.name, op.kind, op.name, cfg.replyName(0));
    }
  }

  /** A reply is routed to the reply queue of the instance it is addressed to and to no other. */
  lemma ReplyRoutedHome(cfg: Config, s: State, t: nat, q: QueueId)
    requires ConfigOk(cfg) && QueuesOk(s) && q in Routed(cfg, s.queues, cfg.replyName(t))
    ensures q == ReplyQ(t)
  {
    var i :| 0 <= i < |s.queues| && s.queues[i] == q;
    assert PlainName(s.queues[i]);
    match q
    case ReplyQ(j) => Topic.PlainMatchesExactly(cfg.replyName(j), cfg.replyName(t));
    case RequestQ(n) => Topic.TrafficNeverCrosses(cfg.prefix, Topic.Request, n, Topic.Request, n, cfg.replyName(t));
    case EventQ(n) => Topic.TrafficNeverCrosses(cfg.prefix, Topic.Event, n, Topic.Event, n, cfg.replyName(t));
    case BroadcastQ(_, n) =>
      Topic.TrafficNeverCrosses(cfg.prefix, Topic.Broadcast, n, Topic.Broadcast, n, cfg.replyName(t));
  }

  // ---- Changes that leave most of the state alone ---------------------------------------------------

  /** Seen from publish `r`, going from `l` to `l'` is harmless. */
  predicate Harmless(l: Local, l': Local, r: nat)
  {
    r in l.futures ==>
      r in l'.futures
      && (l'.futures[r].Pending? ==> l.futures[r].Pending? && (r in l.awaiting ==> r in l'.awaiting))
      && (l'.futures[r].Cancelled? ==> l.futures[r].Cancelled?)
  }

  /** Publish `r` is the same in both states; its instance's bookkeeping changed harmlessly, if at all. */
  predicate Undisturbed(s: State, s': State, r: nat)
    requires r < |s.ops| && s.ops[r].t < |s.ts|
  {
    && r < |s'.ops| && s'.ops[r] == s.ops[r] && s.ops[r].t < |s'.ts|
    && (s'.ts[s.ops[r].t].local == s.ts[s.ops[r].t].local
        || ((s.ops[r].phase.Publishing? ==> s'.ts[s.ops[r].t].local.lock == s.ts[s.ops[r].t].local.lock)
            && Harmless(s.ts[s.ops[r].t].local, s'.ts[s.ops[r].t].local, r)))
  }

  lemma OpKept(s: State, s': State, r: nat)
    requires Extends(s, s') && r < |s.ops| && OpOk(s, r, s.ops[r]) && Undisturbed(s, s', r)
    ensures OpOk(s', r, s'.ops[r])
  {
    if s.ops[r].phase.Finished? && s.ops[r].phase.outcome.Answered? {
      ProducedStays(s, s', r, s.ops[r].phase.outcome.body);
    }
  }

  /** The part of an instance's invariant that speaks of phases. */
  ghost predicate PhasesFit(s: State, t: nat, l: Local)
  {
    && (forall id :: id in l.awaiting ==> id < |s.ops| && Live(s.ops[id].phase))
    && (l.lock.Some? ==>
          var r := l.lock.value; r < |s.ops| && s.ops[r].t == t && s.ops[r].phase.Publishing?)
  }

  /** `l'` has the futures of `l`, some of them failed or cancelled, and perhaps new ones that are fine. */
  ghost predicate FuturesFit(s: State, t: nat, l: Local, l': Local)
  {
    forall id :: id in l'.futures ==>
      || (id in l.futures && l'.futures[id] == l.futures[id])
      || (id in l.futures && !l'.futures[id].Result?)
      || FutureOk(s, t, id, l'.futures[id])
  }

  /** Instance `t` in `s'` differs from the one in `s` in its bookkeeping, and perhaps an emptied slot. */
  ghost predicate LocalFits(s: State, s': State, t: nat)
    requires t < |s.ts|
  {
    && t < |s'.ts|
    && (s'.ts[t] == s.ts[t].(local := s'.ts[t].local) || s'.ts[t] == s.ts[t].(local := s'.ts[t].local, slot := None))
    && WellFormed(s'.ts[t].local) && FuturesFit(s', t, s.ts[t].local, s'.ts[t].local)
    && PhasesFit(s', t, s'.ts[t].local)
  }

  lemma InstanceKept(s: State, s': State, t: nat)
    requires Extends(s, s') && t < |s.ts| && InstanceOk(s, t, s.ts[t]) && LocalFits(s, s', t)
    ensures InstanceOk(s', t, s'.ts[t])
  {
    var l, l' := s.ts[t].local, s'.ts[t].local;
    forall id | id in l'.futures ensures FutureOk(s', t, id, l'.futures[id]) {
      if id in l.futures { FutureStays(s, s', t, id, l.futures[id]); }
    }
    if s.ts[t].slot.Some? { CopyStays(s, s', s.ts[t].slot.value); }
  }

  /** Phases change for publish `r` only, so no instance but `r`'s own can notice. */
  lemma SameElsewhere(s: State, s': State, r: nat, k: nat)
    requires InstancesOk(s) && |s.ops| <= |s'.ops| && k < |s.ts| && k < |s'.ts| && s'.ts[k] == s.ts[k]
    requires forall j :: 0 <= j < |s.ops| && j != r ==> s'.ops[j].phase == s.ops[j].phase && s'.ops[j].t == s.ops[j].t
    requires r < |s.ops| ==> s.ops[r].t != k || (s'.ops[r].phase == s.ops[r].phase && s'.ops[r].t == s.ops[r].t)
    ensures LocalFits(s, s', k)
  {
    assert InstanceOk(s, k, s.ts[k]);
    var l := s.ts[k].local;
    forall id | id in l.awaiting ensures id < |s'.ops| && Live(s'.ops[id].phase) {
      assert FutureOk(s, k, id, l.futures[id]);
    }
  }

  ghost predicate NewCopiesOk(s: State, s': State)
  {
    && (forall c :: c in s'.ready ==> c in s.ready || CopyOk(s', c))
    && (forall h :: 0 <= h < |s'.handlers| ==>
          (h < |s.handlers| && s'.handlers[h] == s.handlers[h]) || HandlerOk(s', s'.handlers[h]))
  }

  /** Everything that is not a publish or an instance stays fine. */
  lemma RestKept(s: State, s': State)
    requires Extends(s, s') && ReadyOk(s) && HandlersOk(s) && NewCopiesOk(s, s')
    ensures ReadyOk(s') && HandlersOk(s')
  {
    forall i | 0 <= i < |s'.ready| ensures CopyOk(s', s'.ready[i]) {
      var c := s'.ready[i];
      if c in s.ready {
        var j :| 0 <= j < |s.ready| && s.ready[j] == c;
        CopyStays(s, s', c);
      }
    }
    forall h | 0 <= h < |s'.handlers| ensures HandlerOk(s', s'.handlers[h]) {
      if h < |s.handlers| && s'.handlers[h] == s.handlers[h] { HandlerStays(s, s', s.handlers[h]); }
    }
  }

  /** A step of publish `r`: its own record and its own instance's bookkeeping change, nothing else. */
  ghost predicate TaskStep(s: State, s': State, r: nat)
  {
    && r < |s.ops| && s.ops[r].t < |s.ts|
    && |s'.ops| == |s.ops| && (forall k :: 0 <= k < |s.ops| && k != r ==> s'.ops[k] == s.ops[k])
    && OpExtends(s.ops[r], s'.ops[r])
    && |s'.ts| == |s.ts| && (forall k :: 0 <= k < |s.ts| && k != s.ops[r].t ==> s'.ts[k] == s.ts[k])
    && s'.handlers == s.handlers && s'.queues == s.queues && s.nextUid <= s'.nextUid
    && (forall c :: c in s'.ready ==> c in s.ready || CopyOk(s', c))
    && LocalFits(s, s', s.ops[r].t) && OpOk(s', r, s'.ops[r])
    && var l, l' := s.ts[s.ops[r].t].local, s'.ts[s.ops[r].t].local;
       && (l'.lock == l.lock || l.lock.None? || l.lock == Some(r))
       && forall k :: k != r ==> Harmless(l, l', k)
  }

  lemma TaskStepExtends(s: State, s': State, r: nat)
    requires TaskStep(s, s', r)
    ensures Extends(s, s')
  {
  }

  lemma TaskStepKeepsInv(s: State, s': State, r: nat)
    requires Inv(s) && TaskStep(s, s', r)
    ensures Inv(s') && Extends(s, s')
  {
    TaskStepExtends(s, s', r);
    RestKept(s, s');
    OpsAfterTaskStep(s, s', r);
    InstancesAfterTaskStep(s, s', r);
  }

  lemma OpsAfterTaskStep(s: State, s': State, r: nat)
    requires OpsOk(s) && TaskStep(s, s', r) && Extends(s, s')
    ensures OpsOk(s')
  {
    forall k | 0 <= k < |s'.ops| ensures OpOk(s', k, s'.ops[k]) {
      if k != r {
        assert OpOk(s, k, s.ops[k]);
        OpKept(s, s', k);
      }
    }
  }

  lemma InstancesAfterTaskStep(s: State, s': State, r: nat)
    requires InstancesOk(s) && TaskStep(s, s', r) && Extends(s, s')
    ensures InstancesOk(s')
  {
    forall k | 0 <= k < |s'.ts| ensures InstanceOk(s', k, s'.ts[k]) {
      assert InstanceOk(s, k, s.ts[k]);
      if k != s.ops[r].t { SameElsewhere(s, s', r, k); }
      InstanceKept(s, s', k);
    }
  }

  /** A step in which no publish moves, and at most instance `t` changes, harmlessly for every publish. */
  ghost predicate InstanceStep(s: State, s': State, t: nat)
  {
    && |s'.ts| == |s.ts| && (forall k :: 0 <= k < |s.ts| && k != t ==> s'.ts[k] == s.ts[k])
    && s'.ops == s.ops && s.nextUid <= s'.nextUid && QueuesOk(s')
    && |s.handlers| <= |s'.handlers|
    && (forall h :: 0 <= h < |s.handlers| ==> HandlerExtends(s.handlers[h], s'.handlers[h]))
    && NewCopiesOk(s, s')
    && (t < |s.ts| ==>
          && InstanceOk(s', t, s'.ts[t]) && s.ts[t].served <= s'.ts[t].served
          && s'.ts[t].local.lock == s.ts[t].local.lock
          && forall r :: Harmless(s.ts[t].local, s'.ts[t].local, r))
  }

  lemma InstanceStepKeepsInv(s: State, s': State, t: nat)
    requires Inv(s) && InstanceStep(s, s', t)
    ensures Inv(s') && Extends(s, s')
  {
    assert Extends(s, s');
    RestKept(s, s');
    OpsAfterInstanceStep(s, s', t);
    InstancesAfterInstanceStep(s, s', t);
  }

  lemma OpsAfterInstanceStep(s: State, s': State, t: nat)
    requires OpsOk(s) && InstanceStep(s, s', t) && Extends(s, s')
    ensures OpsOk(s')
  {
    forall k | 0 <= k < |s'.ops| ensures OpOk(s', k, s'.ops[k]) {
      assert OpOk(s, k, s.ops[k]);
      OpKept(s, s', k);
    }
  }

  lemma InstancesAfterInstanceStep(s: State, s': State, t: nat)
    requires InstancesOk(s) && InstanceStep(s, s', t) && Extends(s, s')
    ensures InstancesOk(s')
  {
    forall k | 0 <= k < |s'.ts| ensures InstanceOk(s', k, s'.ts[k]) {
      if k != t {
        assert InstanceOk(s, k, s.ts[k]);
        SameElsewhere(s, s', |s.ops|, k);
        InstanceKept(s, s', k);
      }
    }
  }

  // ---- The publishing task --------------------------------------------------------------------------

  lemma KeptByStart(cfg: Config, s: State, a: Action)
    requires Inv(s) && Enabled(cfg, s, a) && a.Start?
    ensures Inv(Apply(cfg, s, a)) && Extends(s, Apply(cfg, s, a))
  {
    var s' := Apply(cfg, s, a);
    forall k | 0 <= k < |s'.ops| ensures OpOk(s', k, s'.ops[k]) {
      if k < |s.ops| { assert OpOk(s, k, s.ops[k]); OpKept(s, s', k); }
    }
    forall k | 0 <= k < |s'.ts| ensures InstanceOk(s', k, s'.ts[k]) {
      assert InstanceOk(s, k, s.ts[k]);
      SameElsewhere(s, s', |s.ops|, k);
      InstanceKept(s, s', k);
    }
    RestKept(s, s');
  }

  /** The invariant of the publish that moves and of its instance. */
  ghost predicate OwnOk(s: State, r: nat)
  {
    IsOp(s, r) && OpOk(s, r, s.ops[r]) && InstanceOk(s, s.ops[r].t, s.ts[s.ops[r].t])
  }

  lemma GiveUpIsTaskStep(s: State, r: nat)
    requires OwnOk(s, r) && s.ops[r].phase.Queued?
    ensures TaskStep(s, SetPhase(s, r, Finished(Aborted)), r)
  {
    PhaseUnnoticed(s, SetPhase(s, r, Finished(Aborted)), r);
  }

  /** A publish that is not live and does not hold the lock may change phase unnoticed. */
  lemma PhaseUnnoticed(s: State, s': State, r: nat)
    requires OwnOk(s, r) && !Live(s.ops[r].phase) && |s'.ops| == |s.ops|
    requires forall k :: 0 <= k < |s.ops| && k != r ==> s'.ops[k] == s.ops[k]
    ensures PhasesFit(s', s.ops[r].t, s.ts[s.ops[r].t].local)
  {
  }

  lemma AcquireIsTaskStep(s: State, r: nat)
    requires OwnOk(s, r) && s.ops[r].phase.Queued? && LocalOf(s, r).lock.None?
    ensures TaskStep(s, TakeLock(s, r), r)
  {
    assert s.ops[r].kind.Request? ==> FutureOk(TakeLock(s, r), s.ops[r].t, r, Pending);
  }

  /** Ending a publish is harmless to every other publish of the instance. */
  lemma EndPublishIsHarmless(l: Local, r: nat, p: Publish, task: CurrentTask)
    requires WellFormed(l)
    ensures WellFormed(Sweep(l)) && WellFormed(EndPublish(l, r, p, task))
    ensures forall k :: Harmless(l, Unlock(Sweep(l)), k)
    ensures forall k :: k != r ==> Harmless(l, EndPublish(l, r, p, task), k)
  {
    SweepFailsExactlyThePending(l);
  }

  lemma EndPublishingIsTaskStep(s: State, r: nat, p: Publish, task: CurrentTask)
    requires OwnOk(s, r) && s.ops[r].phase.Publishing?
    requires (p.Confirmed? ==> s.ops[r].wire.Accepted?) && (p.Returned? ==> s.ops[r].wire.Refused?)
    ensures TaskStep(s, ApplyEndPublishing(s, r, p, task), r)
  {
    var s' := ApplyEndPublishing(s, r, p, task);
    var t := s.ops[r].t;
    EndPublishIsHarmless(s.ts[t].local, r, p, task);
    EndPublishingFits(s, r, p, task);
  }

  lemma EndPublishingFits(s: State, r: nat, p: Publish, task: CurrentTask)
    requires OwnOk(s, r) && s.ops[r].phase.Publishing?
    requires (p.Confirmed? ==> s.ops[r].wire.Accepted?) && (p.Returned? ==> s.ops[r].wire.Refused?)
    ensures LocalFits(s, ApplyEndPublishing(s, r, p, task), s.ops[r].t)
    ensures OpOk(ApplyEndPublishing(s, r, p, task), r, ApplyEndPublishing(s, r, p, task).ops[r])
  {
    hide CopyOk, Produced;
    var l := s.ts[s.ops[r].t].local;
    EndPublishIsHarmless(l, r, p, task);
    if Sweeps(p, task) {
      assert Sweep(l).awaiting == {};
    } else {
      assert Unlock(l).futures == l.futures;
    }
  }

  lemma LeavingIsTaskStep(s: State, r: nat, e: WaitEnd)
    requires OwnOk(s, r) && (s.ops[r].phase.Waiting? || s.ops[r].phase.Leaving?)
    requires !e.Done? && (e.Deadline? ==> s.ops[r].timed)
    ensures TaskStep(s, Leave(s, r, e), r)
  {
    LeftLocal(s, r, e);
    hide LocalFits, InstanceOk, CopyOk, Harmless;
  }

  lemma LeftLocal(s: State, r: nat, e: WaitEnd)
    requires OwnOk(s, r) && (s.ops[r].phase.Waiting? || s.ops[r].phase.Leaving?) && !e.Done?
    ensures var t := s.ops[r].t; LocalFits(s, Leave(s, r, e), t)
    ensures var l, l' := s.ts[s.ops[r].t].local, Leave(s, r, e).ts[s.ops[r].t].local;
            l'.lock == l.lock && forall k :: k != r ==> Harmless(l, l', k)
  {
    hide CopyOk, Produced;
  }

  lemma WakeIsTaskStep(s: State, r: nat)
    requires OwnOk(s, r)
    requires s.ops[r].phase.Leaving? || (s.ops[r].phase.Waiting? && !FutureOf(LocalOf(s, r), r).Pending?)
    ensures TaskStep(s, WakeUp(s, r), r)
  {
    var s' := WakeUp(s, r);
    WokenOp(s, r);
    WokenLocal(s, r);
    hide OpOk, LocalFits, InstanceOk, OutcomeOf, CopyOk;
  }

  lemma WokenOp(s: State, r: nat)
    requires OwnOk(s, r)
    requires s.ops[r].phase.Leaving? || (s.ops[r].phase.Waiting? && !FutureOf(LocalOf(s, r), r).Pending?)
    ensures OpOk(WakeUp(s, r), r, WakeUp(s, r).ops[r])
  {
    hide CopyOk;
    var t := s.ops[r].t;
    var f := s.ts[t].local.futures[r];
    assert FutureOk(s, t, r, f);
    if f.Result? { ProducedCarriesOver(s, WakeUp(s, r), r, f.body); }
  }

  lemma WokenLocal(s: State, r: nat)
    requires OwnOk(s, r) && (s.ops[r].phase.Waiting? || s.ops[r].phase.Leaving?)
    ensures var t := s.ops[r].t; LocalFits(s, WakeUp(s, r), t)
    ensures var l, l' := s.ts[s.ops[r].t].local, WakeUp(s, r).ts[s.ops[r].t].local;
            l'.lock == l.lock && forall k :: k != r ==> Harmless(l, l', k)
  {
    hide CopyOk, Produced, OutcomeOf;
  }

  /** Results stay produced when the handlers and what identifies the publishes do not change. */
  lemma ProducedCarriesOver(s: State, s': State, r: nat, b: Bytes)
    requires Produced(s, r, b) && s'.handlers == s.handlers && r < |s'.ops|
    requires s'.ops[r].name == s.ops[r].name && s'.ops[r].body == s.ops[r].body
    requires |s'.ts| == |s.ts| && forall t :: 0 <= t < |s.ts| ==> s'.ts[t].served == s.ts[t].served
    ensures Produced(s', r, b)
  {
    var h: nat :| ProducedBy(s, h, r, b);
    assert ProducedBy(s', h, r, b);
  }

  lemma RouteIsTaskStep(cfg: Config, s: State, r: nat)
    requires ConfigOk(cfg) && QueuesOk(s) && OwnOk(s, r) && s.ops[r].wire.OnWire?
    ensures TaskStep(s, RouteOut(cfg, s, r), r)
  {
    RoutedCopiesOk(cfg, s, r);
    RoutedOpOk(cfg, s, r);
  }

  lemma RoutedOpOk(cfg: Config, s: State, r: nat)
    requires OwnOk(s, r) && s.ops[r].wire.OnWire?
    ensures OpOk(RouteOut(cfg, s, r), r, RouteOut(cfg, s, r).ops[r])
    ensures PhasesFit(RouteOut(cfg, s, r), s.ops[r].t, s.ts[s.ops[r].t].local)
  {
    hide CopyOk, FutureOk, Routed, MakeCopies, Produced;
    if s.ops[r].phase.Finished? && s.ops[r].phase.outcome.Answered? {
      ProducedCarriesOver(s, RouteOut(cfg, s, r), r, s.ops[r].phase.outcome.body);
    }
  }

  lemma RoutedCopiesOk(cfg: Config, s: State, r: nat)
    requires ConfigOk(cfg) && QueuesOk(s) && IsOp(s, r)
    ensures var s' := RouteOut(cfg, s, r); forall c :: c in s'.ready ==> c in s.ready || CopyOk(s', c)
  {
    var s' := RouteOut(cfg, s, r);
    forall c | c in s'.ready && c !in s.ready ensures CopyOk(s', c) {
      RoutedToOwnQueues(cfg, s, r, c.queue);
    }
  }

  // ---- Subscriptions and the broker -----------------------------------------------------------------

  /** What an instance's invariant says of futures and copies carries over to an extension. */
  lemma InstanceCarriesOver(s: State, s': State, t: nat)
    requires Extends(s, s') && s'.ops == s.ops && t < |s.ts| && InstanceOk(s, t, s.ts[t])
    ensures InstanceOk(s', t, s.ts[t]) && InstanceOk(s', t, s.ts[t].(slot := None))
  {
    forall id | id in s.ts[t].local.futures ensures FutureOk(s', t, id, s.ts[t].local.futures[id]) {
      FutureStays(s, s', t, id, s.ts[t].local.futures[id]);
    }
    if s.ts[t].slot.Some? { CopyStays(s, s', s.ts[t].slot.value); }
  }

  lemma SubscriptionIsInstanceStep(cfg: Config, s: State, a: Action)
    requires QueuesOk(s) && Enabled(cfg, s, a)
    requires a.Declare? || a.Undeclare? || a.Consume? || a.CancelConsumer? || a.RegisterName?
    requires !a.Declare? && !a.Undeclare? ==> InstanceOk(s, a.t, s.ts[a.t])
    ensures InstanceStep(s, Apply(cfg, s, a), if a.Declare? || a.Undeclare? then |s.ts| else a.t)
  {
    if !a.Declare? && !a.Undeclare? {
      SubscribedInstance(cfg, s, a);
      hide InstanceOk, CopyOk, HandlerOk;
    }
  }

  lemma SubscribedInstance(cfg: Config, s: State, a: Action)
    requires Enabled(cfg, s, a) && (a.Consume? || a.CancelConsumer? || a.RegisterName?)
    requires InstanceOk(s, a.t, s.ts[a.t])
    ensures var s' := Apply(cfg, s, a);
            |s'.ts| == |s.ts| && InstanceOk(s', a.t, s'.ts[a.t]) && s.ts[a.t].served <= s'.ts[a.t].served
  {
    InstanceCarriesOver(s, Apply(cfg, s, a), a.t);
    hide CopyOk, FutureOk;
  }

  lemma BrokerIsInstanceStep(cfg: Config, s: State, a: Action)
    requires QueuesOk(s) && Enabled(cfg, s, a) && (a.Deliver? || a.Requeue? || a.Drop?)
    requires !a.Drop? ==> InstanceOk(s, a.t, s.ts[a.t])
    requires a.Deliver? ==> CopyOk(s, s.ready[a.i])
    ensures InstanceStep(s, Apply(cfg, s, a), if a.Drop? then |s.ts| else a.t)
  {
    var s' := Apply(cfg, s, a);
    if !a.Drop? {
      InstanceCarriesOver(s, s', a.t);
      if a.Deliver? { CopyStays(s, s', s.ready[a.i]); }
    }
  }

  lemma SweptInstance(s: State, s': State, t: nat)
    requires Extends(s, s') && s'.ops == s.ops && t < |s.ts| && InstanceOk(s, t, s.ts[t])
    ensures InstanceOk(s', t, s.ts[t].(local := Sweep(s.ts[t].local)))
    ensures forall r :: Harmless(s.ts[t].local, Sweep(s.ts[t].local), r)
  {
    InstanceCarriesOver(s, s', t);
    hide CopyOk, Extends;
  }

  lemma CloseIsInstanceStep(s: State, t: nat)
    requires QueuesOk(s) && t < |s.ts| && InstanceOk(s, t, s.ts[t])
    ensures InstanceStep(s, SetLocal(s, t, Sweep(s.ts[t].local)), t)
  {
    SweptInstance(s, SetLocal(s, t, Sweep(s.ts[t].local)), t);
    hide InstanceOk, Harmless, CopyOk, HandlerOk;
  }

  // ---- The receiving side ---------------------------------------------------------------------------

  /** A reply resolves the future of the request it answers, with bytes produced for that request. */
  lemma ReceiptIsInstanceStep(s: State, t: nat, ackLost: bool)
    requires QueuesOk(s) && HasSlot(s, t) && s.ts[t].slot.value.queue.ReplyQ? && InstanceOk(s, t, s.ts[t])
    ensures InstanceStep(s, TakeSlot(s, t, ackLost), t)
  {
    var s' := TakeSlot(s, t, ackLost);
    AnsweredInstance(s, s', t);
    SlotIsOk(s, s', t);
    hide InstanceOk, Harmless, CopyOk, HandlerOk, Respond;
  }

  lemma SlotIsOk(s: State, s': State, t: nat)
    requires Extends(s, s') && HasSlot(s, t) && InstanceOk(s, t, s.ts[t])
    ensures CopyOk(s', s.ts[t].slot.value)
  {
    CopyStays(s, s', s.ts[t].slot.value);
  }

  lemma AnsweredInstance(s: State, s': State, t: nat)
    requires Extends(s, s') && s'.ops == s.ops
    requires HasSlot(s, t) && s.ts[t].slot.value.queue.ReplyQ? && InstanceOk(s, t, s.ts[t])
    ensures var c, l := s.ts[t].slot.value, s.ts[t].local;
            && InstanceOk(s', t, s.ts[t].(local := Respond(l, c.corr, c.body), slot := None))
            && Respond(l, c.corr, c.body).lock == l.lock
            && forall r :: Harmless(l, Respond(l, c.corr, c.body), r)
  {
    var c, l := s.ts[t].slot.value, s.ts[t].local;
    InstanceCarriesOver(s, s', t);
    SlotIsOk(s, s', t);
    var l' := Respond(l, c.corr, c.body);
    if c.corr in l.awaiting {
      assert FutureOk(s', t, c.corr, l.futures[c.corr]);
      forall id | id in l'.futures ensures FutureOk(s', t, id, l'.futures[id]) {
        assert FutureOk(s', t, id, l.futures[id]);
      }
    }
  }

  lemma HandlerStartIsInstanceStep(s: State, t: nat, ackLost: bool)
    requires QueuesOk(s) && HasSlot(s, t) && !s.ts[t].slot.value.queue.ReplyQ? && InstanceOk(s, t, s.ts[t])
    ensures InstanceStep(s, TakeSlot(s, t, ackLost), t)
  {
    var s' := TakeSlot(s, t, ackLost);
    InstanceCarriesOver(s, s', t);
    assert HandlerOk(s', s'.handlers[|s.handlers|]);
  }

  lemma HandlerEndIsInstanceStep(s: State, h: nat, x: Handler)
    requires QueuesOk(s) && IsHandler(s, h) && HandlerOk(s, s.handlers[h]) && !s.handlers[h].st.Ended?
    requires || x == s.handlers[h].(st := Ended)
             || (s.handlers[h].st.Running? && x.result.Some? && s.handlers[h].copy.queue.RequestQ?
                 && x == s.handlers[h].(result := x.result, st := Replying))
    ensures InstanceStep(s, SetHandler(s, h, x), |s.ts|)
  {
    HandlerStays(s, SetHandler(s, h, x), s.handlers[h]);
  }

  lemma SendReplyIsInstanceStep(cfg: Config, s: State, h: nat)
    requires ConfigOk(cfg) && QueuesOk(s) && IsHandler(s, h) && s.handlers[h].result.Some?
    requires HandlerOk(s, s.handlers[h])
    ensures InstanceStep(s, SendReply(cfg, s, h), |s.ts|)
  {
    var s' := SendReply(cfg, s, h);
    HandlerStays(s, s', s.handlers[h]);
    NewRepliesOk(cfg, s, h, s');
  }

  lemma BreakReplyIsInstanceStep(cfg: Config, s: State, h: nat, accepted: bool)
    requires ConfigOk(cfg) && QueuesOk(s) && IsHandler(s, h) && s.handlers[h].result.Some?
    requires HandlerOk(s, s.handlers[h]) && InstanceOk(s, s.handlers[h].t, s.ts[s.handlers[h].t])
    ensures InstanceStep(s, BreakReply(cfg, s, h, accepted), s.handlers[h].t)
  {
    var s', t := BreakReply(cfg, s, h, accepted), s.handlers[h].t;
    HandlerStays(s, s', s.handlers[h]);
    EndedHandler(s', s.handlers[h]);
    if accepted { NewRepliesOk(cfg, s, h, s'); }
    SweptInstance(s, s', t);
    hide InstanceOk, Harmless, CopyOk, HandlerOk, Sweep;
    assert s'.ts[t] == s.ts[t].(local := Sweep(s.ts[t].local));
  }

  lemma EndedHandler(s: State, x: Handler)
    requires HandlerOk(s, x)
    ensures HandlerOk(s, x.(st := Ended))
  {
  }

  lemma NewRepliesOk(cfg: Config, s: State, h: nat, s': State)
    requires ConfigOk(cfg) && QueuesOk(s) && IsHandler(s, h) && s.handlers[h].result.Some?
    requires HandlerOk(s, s.handlers[h]) && Extends(s, s')
    requires s'.ready == DepositReply(cfg, s, h).ready && s'.nextUid == DepositReply(cfg, s, h).nextUid
    ensures forall c :: c in s'.ready ==> c in s.ready || CopyOk(s', c)
  {
    var x := s.handlers[h];
    forall c | c in s'.ready && c !in s.ready ensures CopyOk(s', c) {
      ReplyRoutedHome(cfg, s, x.copy.replyTo, c.queue);
      assert ProducedBy(s, h, x.copy.corr, x.result.value);
      ProducedStays(s, s', x.copy.corr, x.result.value);
    }
  }

  // ---- All together ---------------------------------------------------------------------------------

  predicate PublisherAction(a: Action)
  {
    a.Start? || a.GiveUp? || a.Acquire? || a.EndPublishing? || a.Expire? || a.CancelWait? || a.Wake? || a.Route?
  }

  predicate HandlerAction(a: Action)
  {
    a.Ack? || a.AckLost? || a.Complete? || a.Crash? || a.Reply? || a.ReplyBroken?
  }

  lemma PublisherKeepsInv(cfg: Config, s: State, a: Action)
    requires ConfigOk(cfg) && Inv(s) && Enabled(cfg, s, a) && PublisherAction(a) && !a.Start?
    ensures Inv(Apply(cfg, s, a)) && Extends(s, Apply(cfg, s, a))
  {
    assert OwnOk(s, a.r);
    match a {
      case GiveUp(r) => GiveUpIsTaskStep(s, r);
      case Acquire(r) => AcquireIsTaskStep(s, r);
      case EndPublishing(r, p, task) => EndPublishingIsTaskStep(s, r, p, task);
      case Expire(r) => LeavingIsTaskStep(s, r, Deadline);
      case CancelWait(r) => LeavingIsTaskStep(s, r, TaskCancelled);
      case Wake(r) => WakeIsTaskStep(s, r);
      case Route(r) => RouteIsTaskStep(cfg, s, r);
    }
    TaskStepKeepsInv(s, Apply(cfg, s, a), a.r);
  }

  lemma BrokerKeepsInv(cfg: Config, s: State, a: Action)
    requires Inv(s) && Enabled(cfg, s, a) && !PublisherAction(a) && !HandlerAction(a)
    ensures Inv(Apply(cfg, s, a)) && Extends(s, Apply(cfg, s, a))
  {
    if a.Close? {
      CloseIsInstanceStep(s, a.t);
      InstanceStepKeepsInv(s, Apply(cfg, s, a), a.t);
    } else if a.Deliver? || a.Requeue? || a.Drop? {
      BrokerIsInstanceStep(cfg, s, a);
      InstanceStepKeepsInv(s, Apply(cfg, s, a), if a.Drop? then |s.ts| else a.t);
    } else {
      SubscriptionIsInstanceStep(cfg, s, a);
      InstanceStepKeepsInv(s, Apply(cfg, s, a), if a.Declare? || a.Undeclare? then |s.ts| else a.t);
    }
  }

  lemma ReceiverKeepsInv(cfg: Config, s: State, a: Action)
    requires ConfigOk(cfg) && Inv(s) && Enabled(cfg, s, a) && HandlerAction(a)
    ensures Inv(Apply(cfg, s, a)) && Extends(s, Apply(cfg, s, a))
  {
    if a.Ack? || a.AckLost? {
      if s.ts[a.t].slot.value.queue.ReplyQ? {
        ReceiptIsInstanceStep(s, a.t, a.AckLost?);
      } else {
        HandlerStartIsInstanceStep(s, a.t, a.AckLost?);
      }
      InstanceStepKeepsInv(s, Apply(cfg, s, a), a.t);
    } else {
      var x := s.handlers[a.h];
      assert HandlerOk(s, x) && InstanceOk(s, x.t, s.ts[x.t]);
      match a {
        case Complete(h, b) => HandlerEndIsInstanceStep(s, h, x.(result := Some(b), st := Replying));
        case Crash(h) => HandlerEndIsInstanceStep(s, h, x.(st := Ended));
        case Reply(h) => SendReplyIsInstanceStep(cfg, s, h);
        case ReplyBroken(h, accepted) => BreakReplyIsInstanceStep(cfg, s, h, accepted);
      }
      InstanceStepKeepsInv(s, Apply(cfg, s, a), if a.ReplyBroken? then x.t else |s.ts|);
    }
  }

  /** The invariant is inductive, and publishes, results and outcomes only accumulate. */
  lemma StepKeepsInv(cfg: Config, s: State, a: Action)
    requires ConfigOk(cfg) && Inv(s) && Enabled(cfg, s, a)
    ensures Inv(Apply(cfg, s, a)) && Extends(s, Apply(cfg, s, a))
  {
    if a.Start? {
      KeptByStart(cfg, s, a);
    } else if PublisherAction(a) {
      PublisherKeepsInv(cfg, s, a);
    } else if HandlerAction(a) {
      ReceiverKeepsInv(cfg, s, a);
    } else {
      BrokerKeepsInv(cfg, s, a);
    }
  }

  lemma {:induction false} RunInv(cfg: Config, ss: seq<State>, acts: seq<Action>, n: nat)
    requires Run(cfg, ss, acts) && n < |ss|
    ensures Inv(ss[n])
    decreases n
  {
    if n == 0 {
      InitInv(ss[0]);
    } else {
      RunInv(cfg, ss, acts, n - 1);
      assert Step(cfg, ss[n - 1], acts[n - 1], ss[n - 1 + 1]);
      StepKeepsInv(cfg, ss[n - 1], acts[n - 1]);
    }
  }
}
