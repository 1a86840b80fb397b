/**
  What the protocol guarantees in every run, whatever the environment does.
 */
module ProtocolTheorems {
  import opened Wrappers
  import opened InFlight
  import opened Protocol
  import opened ProtocolInvariant
  import opened ProtocolPreservation

  lemma RunStep(cfg: Config, ss: seq<State>, acts: seq<Action>, k: nat)
    requires Run(cfg, ss, acts) && k < |acts|
    ensures Inv(ss[k]) && Inv(ss[k + 1]) && Extends(ss[k], ss[k + 1])
    ensures Enabled(cfg, ss[k], acts[k]) && ss[k + 1] == Apply(cfg, ss[k], acts[k])
  {
    RunInv(cfg, ss, acts, k);
    assert Step(cfg, ss[k], acts[k], ss[k + 1]);
    StepKeepsInv(cfg, ss[k], acts[k]);
  }

  /** What happened stays: from any state of a run to any later one. */
  lemma {:induction false} RunExtends(cfg: Config, ss: seq<State>, acts: seq<Action>, m: nat, n: nat)
    requires Run(cfg, ss, acts) && m <= n < |ss|
    ensures Extends(ss[m], ss[n])
    decreases n
  {
    hide Inv, Apply, Enabled;
    if m < n {
      RunExtends(cfg, ss, acts, m, n - 1);
      RunStep(cfg, ss, acts, n - 1);
      ExtendsTransitive(ss[m], ss[n - 1], ss[n]);
    }
  }

  lemma ExtendsTransitive(a: State, b: State, c: State)
    requires Extends(a, b) && Extends(b, c)
    ensures Extends(a, c)
  {
    forall r | 0 <= r < |a.ops| ensures OpExtends(a.ops[r], c.ops[r]) {
      assert OpExtends(a.ops[r], b.ops[r]) && OpExtends(b.ops[r], c.ops[r]);
    }
    forall h | 0 <= h < |a.handlers| ensures HandlerExtends(a.handlers[h], c.handlers[h]) {
      assert HandlerExtends(a.handlers[h], b.handlers[h]) && HandlerExtends(b.handlers[h], c.handlers[h]);
    }
    forall t | 0 <= t < |a.ts| ensures a.ts[t].served <= c.ts[t].served {
      assert a.ts[t].served <= b.ts[t].served <= c.ts[t].served;
    }
  }

  // ---- Answers --------------------------------------------------------------------------------------

  /**
    The bytes a request returns were produced by a handler registered for the request's name and run
    on this very request's content, on an instance that registered that name - despite losses,
    redeliveries, timeouts, and late or duplicate replies.
   */
  lemma AnswersAreGenuine(cfg: Config, ss: seq<State>, acts: seq<Action>, n: nat, r: nat)
    requires Run(cfg, ss, acts) && n < |ss| && r < |ss[n].ops|
    requires ss[n].ops[r].phase.Finished? && ss[n].ops[r].phase.outcome.Answered?
    ensures exists h: nat :: ProducedBy(ss[n], h, r, ss[n].ops[r].phase.outcome.body)
  {
    RunInv(cfg, ss, acts, n);
    assert OpOk(ss[n], r, ss[n].ops[r]);
  }

  /** One handler's result is never the answer to two requests, so nobody receives someone else's answer. */
  lemma AnswersAreNotShared(cfg: Config, ss: seq<State>, acts: seq<Action>, n: nat, r: nat, r': nat)
    requires Run(cfg, ss, acts) && n < |ss| && r < |ss[n].ops| && r' < |ss[n].ops| && r != r'
    requires ss[n].ops[r].phase.Finished? && ss[n].ops[r].phase.outcome.Answered?
    requires ss[n].ops[r'].phase.Finished? && ss[n].ops[r'].phase.outcome.Answered?
    ensures exists h: nat, h': nat ::
              h != h' && ProducedBy(ss[n], h, r, ss[n].ops[r].phase.outcome.body)
              && ProducedBy(ss[n], h', r', ss[n].ops[r'].phase.outcome.body)
  {
    AnswersAreGenuine(cfg, ss, acts, n, r);
    AnswersAreGenuine(cfg, ss, acts, n, r');
    var h: nat :| ProducedBy(ss[n], h, r, ss[n].ops[r].phase.outcome.body);
    var h': nat :| ProducedBy(ss[n], h', r', ss[n].ops[r'].phase.outcome.body);
  }

  // ---- Nobody hangs, nothing leaks ------------------------------------------------------------------

  /** The handler whose reply an action publishes, if it is one that puts a reply into a queue. */
  function ReplyOf(a: Action): Option<nat>
  {
    match a
    case Reply(h) => Some(h)
    case ReplyBroken(h, accepted) => if accepted then Some(h) else None
    case _ => None
  }

  /**
    Every copy ever put into a reply queue comes from publishing the reply of a handler, carries that handler's result
    and the id of the request the handler was started for, and lies in the queue of the instance that made the request.
   */
  lemma RepliesCarryTheirRequest(cfg: Config, ss: seq<State>, acts: seq<Action>, n: nat, c: Copy)
    requires Run(cfg, ss, acts) && n < |acts|
    requires c in ss[n + 1].ready && c.queue.ReplyQ? && c.uid >= ss[n].nextUid
    ensures ReplyOf(acts[n]).Some? && ReplyOf(acts[n]).value < |ss[n].handlers|
    ensures var x := ss[n].handlers[ReplyOf(acts[n]).value];
            && c.corr == x.copy.corr && x.result == Some(c.body)
            && c.corr < |ss[n].ops| && c.queue == ReplyQ(ss[n].ops[c.corr].t)
  {
    RunStep(cfg, ss, acts, n);
    var s, a := ss[n], acts[n];
    if ReplyOf(a).Some? {
      DepositedReply(cfg, s, a, c);
    } else {
      NoNewReply(cfg, s, a, c);
    }
  }

  lemma NoNewReply(cfg: Config, s: State, a: Action, c: Copy)
    requires ConfigOk(cfg) && Inv(s) && Enabled(cfg, s, a) && ReplyOf(a).None? && c in Apply(cfg, s, a).ready
    ensures c.uid < s.nextUid || !c.queue.ReplyQ?
  {
    if a.Route? {
      RoutedIsNoReply(cfg, s, a.r, c);
    } else {
      OnlyOldCopies(cfg, s, a, c);
      if c in s.ready { OldCopy(s, c); } else { OldSlot(s, a.t); }
    }
  }

  lemma OldCopy(s: State, c: Copy)
    requires Inv(s) && c in s.ready
    ensures c.uid < s.nextUid
  {
    var i :| 0 <= i < |s.ready| && s.ready[i] == c;
    assert CopyOk(s, s.ready[i]);
  }

  lemma OldSlot(s: State, t: nat)
    requires Inv(s) && HasSlot(s, t)
    ensures s.ts[t].slot.value.uid < s.nextUid
  {
    assert InstanceOk(s, t, s.ts[t]);
  }

  lemma RoutedIsNoReply(cfg: Config, s: State, r: nat, c: Copy)
    requires ConfigOk(cfg) && Inv(s) && IsOp(s, r) && c in RouteOut(cfg, s, r).ready
    ensures c.uid < s.nextUid || !c.queue.ReplyQ?
  {
    if c in s.ready {
      OldCopy(s, c);
    } else {
      assert c.queue in OpQueues(cfg, s, r);
      RoutedToOwnQueues(cfg, s, r, c.queue);
    }
  }

  /** Apart from routing and replying, nothing new gets into a queue. */
  lemma OnlyOldCopies(cfg: Config, s: State, a: Action, c: Copy)
    requires Enabled(cfg, s, a) && ReplyOf(a).None? && !a.Route? && c in Apply(cfg, s, a).ready
    ensures c in s.ready || ((a.Requeue? || a.AckLost?) && HasSlot(s, a.t) && s.ts[a.t].slot.value == c)
  {
    hide Routed, MakeCopies, Sweep, Register, Abandon, EndPublish, OutcomeOf, Respond;
  }

  lemma DepositedReply(cfg: Config, s: State, a: Action, c: Copy)
    requires ConfigOk(cfg) && Inv(s) && Enabled(cfg, s, a) && ReplyOf(a).Some?
    requires c in Apply(cfg, s, a).ready && c.uid >= s.nextUid
    ensures ReplyOf(a).value < |s.handlers|
    ensures var x := s.handlers[ReplyOf(a).value];
            && c.corr == x.copy.corr && x.result == Some(c.body)
            && c.corr < |s.ops| && c.queue == ReplyQ(s.ops[c.corr].t)
  {
    hide Sweep, Routed;
    var h := ReplyOf(a).value;
    var x := s.handlers[h];
    assert Apply(cfg, s, a).ready == DepositReply(cfg, s, h).ready;
    if c in s.ready { OldCopy(s, c); }
    assert c.queue in ReplyQueues(cfg, s, h);
    ReplyRoutedHome(cfg, s, x.copy.replyTo, c.queue);
    assert HandlerOk(s, x);
  }

  /**
    Receiving a reply touches no future but that of the request whose id it carries, and no in-flight entry but that
    one, in whatever instance: with the above, no caller ever receives the answer to another's request.
   */
  lemma ReceiptTouchesOnlyItsRequest(cfg: Config, ss: seq<State>, acts: seq<Action>, n: nat, t: nat, k: nat, id: nat)
    requires Run(cfg, ss, acts) && n < |acts| && (acts[n] == Ack(t) || acts[n] == AckLost(t))
    requires HasSlot(ss[n], t) && ss[n].ts[t].slot.value.queue.ReplyQ? && k < |ss[n].ts|
    ensures var c := ss[n].ts[t].slot.value; c.corr < |ss[n].ops| && ss[n].ops[c.corr].t == t
    ensures |ss[n + 1].ts| == |ss[n].ts|
    ensures var c, l, l' := ss[n].ts[t].slot.value, ss[n].ts[k].local, ss[n + 1].ts[k].local;
            if k == t && id == c.corr then
              && FutureOf(l', id) ==
                 (if id in l.awaiting then Settle(FutureOf(l, id), Result(c.body)) else FutureOf(l, id))
              && id !in l'.awaiting
            else FutureOf(l', id) == FutureOf(l, id) && (id in l'.awaiting <==> id in l.awaiting)
  {
    hide TakeSlot, Inv, Produced, Routed;
    RunStep(cfg, ss, acts, n);
    ReplyReceived(ss[n], t);
    ReceiptIsLocal(ss[n], t, acts[n].AckLost?, k);
  }

  lemma ReplyReceived(s: State, t: nat)
    requires Inv(s) && HasSlot(s, t) && s.ts[t].slot.value.queue.ReplyQ?
    ensures var c := s.ts[t].slot.value; c.corr < |s.ops| && s.ops[c.corr].t == t
    ensures WellFormed(s.ts[t].local)
  {
    hide Produced;
    assert InstanceOk(s, t, s.ts[t]);
  }

  lemma ReceiptIsLocal(s: State, t: nat, ackLost: bool, k: nat)
    requires HasSlot(s, t) && s.ts[t].slot.value.queue.ReplyQ? && k < |s.ts|
    ensures var s', c := TakeSlot(s, t, ackLost), s.ts[t].slot.value;
            && |s'.ts| == |s.ts|
            && s'.ts[k].local == if k == t then Respond(s.ts[k].local, c.corr, c.body) else s.ts[k].local
  {
    hide Respond;
  }

  /** A live request whose future is pending is in the in-flight map of its transport. */
  lemma PendingIsRegistered(cfg: Config, ss: seq<State>, acts: seq<Action>, n: nat, r: nat)
    requires Run(cfg, ss, acts) && n < |ss| && IsOp(ss[n], r)
    requires ss[n].ops[r].kind.Request? && Live(ss[n].ops[r].phase) && FutureOf(LocalOf(ss[n], r), r).Pending?
    ensures r in LocalOf(ss[n], r).awaiting
  {
    RunInv(cfg, ss, acts, n);
    assert OpOk(ss[n], r, ss[n].ops[r]);
  }

  /** A publish failed, or was interrupted by a cancellation that nobody asked for. */
  predicate Breaks(p: Publish, task: CurrentTask)
  {
    p == OtherError || (p == CancelledError && (task == NoTask || task == Counted(0)))
  }

  /** Does this action make instance `t` give up on everything it has in flight? */
  predicate SweepsInstance(s: State, a: Action, t: nat)
  {
    match a
    case Close(k) => k == t
    case EndPublishing(r, p, task) => r < |s.ops| && s.ops[r].t == t && Breaks(p, task)
    case ReplyBroken(h, _) => h < |s.handlers| && s.handlers[h].t == t
    case _ => false
  }

  /**
    Whatever notices that the connection is gone - the close callback, or any failed publish of any
    kind - no live request of that instance is left with a pending future, and each one that waits
    can wake up at once.
   */
  lemma SweepLeavesNobodyWaiting(cfg: Config, ss: seq<State>, acts: seq<Action>, n: nat, t: nat, r: nat)
    requires Run(cfg, ss, acts) && n < |acts| && t < |ss[n].ts| && SweepsInstance(ss[n], acts[n], t)
    requires r < |ss[n].ops| && ss[n].ops[r].t == t && ss[n].ops[r].kind.Request? && Live(ss[n].ops[r].phase)
    ensures ss[n + 1].ts[t].local.awaiting == {}
    ensures IsOp(ss[n + 1], r) && !FutureOf(LocalOf(ss[n + 1], r), r).Pending?
    ensures ss[n + 1].ops[r].phase.Waiting? || ss[n + 1].ops[r].phase.Leaving? ==>
              Enabled(cfg, ss[n + 1], Wake(r))
  {
    RunStep(cfg, ss, acts, n);
    var s := ss[n];
    assert OpOk(s, r, s.ops[r]) && InstanceOk(s, t, s.ts[t]);
    SweepFailsExactlyThePending(s.ts[t].local);
    assert OpExtends(s.ops[r], ss[n + 1].ops[r]);
    SweepingStep(cfg, s, acts[n], t);
  }

  lemma SweepingStep(cfg: Config, s: State, a: Action, t: nat)
    requires Enabled(cfg, s, a) && t < |s.ts| && SweepsInstance(s, a, t)
    requires a.EndPublishing? ==> OpOk(s, a.r, s.ops[a.r])
    ensures |Apply(cfg, s, a).ts| == |s.ts|
    ensures Apply(cfg, s, a).ts[t].local.awaiting == {}
    ensures Apply(cfg, s, a).ts[t].local.futures == Sweep(s.ts[t].local).futures
  {
  }

  /** Every key of an in-flight map belongs to a live request of that very instance. */
  lemma NothingLeaks(cfg: Config, ss: seq<State>, acts: seq<Action>, n: nat, t: nat, id: nat)
    requires Run(cfg, ss, acts) && n < |ss| && t < |ss[n].ts| && id in ss[n].ts[t].local.awaiting
    ensures id < |ss[n].ops| && ss[n].ops[id].t == t && ss[n].ops[id].kind.Request? && Live(ss[n].ops[id].phase)
  {
    RunInv(cfg, ss, acts, n);
    assert InstanceOk(ss[n], t, ss[n].ts[t]);
    assert FutureOk(ss[n], t, id, ss[n].ts[t].local.futures[id]);
  }

  /** The lock is held exactly by a publish that is being published: every path out releases it. */
  lemma LockIsHeldByThePublisher(cfg: Config, ss: seq<State>, acts: seq<Action>, n: nat, t: nat, r: nat)
    requires Run(cfg, ss, acts) && n < |ss| && t < |ss[n].ts|
    ensures ss[n].ts[t].local.lock == Some(r) <==>
            r < |ss[n].ops| && ss[n].ops[r].t == t && ss[n].ops[r].phase.Publishing?
  {
    RunInv(cfg, ss, acts, n);
    assert InstanceOk(ss[n], t, ss[n].ts[t]);
    if r < |ss[n].ops| { assert OpOk(ss[n], r, ss[n].ops[r]); }
  }

  // ---- How publishing and waiting end ---------------------------------------------------------------

  /**
    A failed publish gives up on everything its instance has in flight: the map is empty, every registered pending
    future is lost, nothing else is; a request goes on to its future, an event or broadcast reports the lost connection.
   */
  lemma BrokenPublishGivesUp(cfg: Config, ss: seq<State>, acts: seq<Action>, n: nat,
                             r: nat, p: Publish, task: CurrentTask)
    requires Run(cfg, ss, acts) && n < |acts| && acts[n] == EndPublishing(r, p, task)
    requires p == OtherError || (p == CancelledError && (task == NoTask || task == Counted(0)))
    ensures IsOp(ss[n], r) && IsOp(ss[n + 1], r) && ss[n + 1].ops[r].t == ss[n].ops[r].t
    ensures var l, l' := LocalOf(ss[n], r), LocalOf(ss[n + 1], r);
            && l'.awaiting == {} && l'.lock == None && l'.futures.Keys == l.futures.Keys
            && forall id :: id in l.futures ==>
                 l'.futures[id] == if id in l.awaiting && l.futures[id] == Pending then Lost else l.futures[id]
    ensures ss[n + 1].ops[r].phase == if ss[n].ops[r].kind.Request? then Waiting else Finished(ConnectionLost)
    ensures OthersUntouched(ss[n], ss[n + 1], ss[n].ops[r].t)
  {
    hide Inv, Extends;
    RunStep(cfg, ss, acts, n);
    EndPublishingElsewhere(ss[n], r, p, task);
  }

  /**
    Every other ending of a publish leaves all futures and all entries of other requests alone.  A confirmed request
    waits, a returned one has no route, a cancelled one is aborted; an event or broadcast is sent, routed or not, or
    aborted.
   */
  lemma OtherPublishKeepsOthers(cfg: Config, ss: seq<State>, acts: seq<Action>, n: nat,
                                r: nat, p: Publish, task: CurrentTask)
    requires Run(cfg, ss, acts) && n < |acts| && acts[n] == EndPublishing(r, p, task)
    requires p == Confirmed || p == Returned
             || (p == CancelledError && (task == Uncountable || (task.Counted? && task.requests > 0)))
    ensures IsOp(ss[n], r) && IsOp(ss[n + 1], r) && ss[n + 1].ops[r].t == ss[n].ops[r].t
    ensures var l, l' := LocalOf(ss[n], r), LocalOf(ss[n + 1], r);
            && l'.futures == l.futures && l'.lock == None
            && l'.awaiting == if ss[n].ops[r].kind.Request? && p != Confirmed then l.awaiting - {r} else l.awaiting
    ensures ss[n + 1].ops[r].phase ==
            if p == CancelledError then Finished(Aborted)
            else if !ss[n].ops[r].kind.Request? then Finished(Sent)
            else if p == Confirmed then Waiting else Finished(NoRoute)
    ensures OthersUntouched(ss[n], ss[n + 1], ss[n].ops[r].t)
  {
    hide Inv, Extends, Sweep;
    RunStep(cfg, ss, acts, n);
    EndPublishingElsewhere(ss[n], r, p, task);
  }

  /** The bookkeeping of all instances but `t` is the same. */
  predicate OthersUntouched(s: State, s': State, t: nat)
  {
    |s'.ts| == |s.ts| && forall k :: 0 <= k < |s.ts| && k != t ==> s'.ts[k] == s.ts[k]
  }

  lemma EndPublishingElsewhere(s: State, r: nat, p: Publish, task: CurrentTask)
    requires IsOp(s, r)
    ensures OthersUntouched(s, ApplyEndPublishing(s, r, p, task), s.ops[r].t)
  {
    hide Sweep, EndPublish;
  }

  /**
    How a wait ends: a deadline and a cancellation win over whatever the future holds, otherwise the future decides.
    In any case the own entry goes, and nothing else changes.
   */
  lemma WakingDecides(cfg: Config, ss: seq<State>, acts: seq<Action>, n: nat, r: nat)
    requires Run(cfg, ss, acts) && n < |acts| && acts[n] == Wake(r)
    ensures IsOp(ss[n], r) && IsOp(ss[n + 1], r) && ss[n + 1].ops[r].t == ss[n].ops[r].t
    ensures var phase, f, phase' := ss[n].ops[r].phase, FutureOf(LocalOf(ss[n], r), r), ss[n + 1].ops[r].phase;
            && (phase == Leaving(Deadline) ==> phase' == Finished(TimedOut))
            && (phase == Leaving(TaskCancelled) ==> phase' == Finished(Aborted))
            && (phase == Waiting && f.Result? ==> phase' == Finished(Answered(f.body)))
            && (phase == Waiting && f.Lost? ==> phase' == Finished(ConnectionLost))
            && (phase == Waiting ==> f.Result? || f.Lost?)
    ensures var l, l' := LocalOf(ss[n], r), LocalOf(ss[n + 1], r);
            l'.futures == l.futures && l'.lock == l.lock && l'.awaiting == l.awaiting - {r}
    ensures OthersUntouched(ss[n], ss[n + 1], ss[n].ops[r].t)
  {
    RunStep(cfg, ss, acts, n);
    OpWasOk(ss[n], r);
    hide Inv, Extends, Produced;
  }

  // ---- One classified outcome per request -----------------------------------------------------------

  /** An outcome, once reached, is the outcome for good. */
  lemma OutcomeIsFinal(cfg: Config, ss: seq<State>, acts: seq<Action>, m: nat, n: nat, r: nat)
    requires Run(cfg, ss, acts) && m <= n < |ss| && r < |ss[m].ops| && ss[m].ops[r].phase.Finished?
    ensures r < |ss[n].ops| && ss[n].ops[r].phase == ss[m].ops[r].phase
  {
    RunExtends(cfg, ss, acts, m, n);
    assert OpExtends(ss[m].ops[r], ss[n].ops[r]);
  }

  /** No copy of publish `r` is in a queue or a slot, no handler was started with one, no reply exists. */
  predicate Untouched(s: State, r: nat)
  {
    && (forall i :: 0 <= i < |s.ready| ==> s.ready[i].corr != r)
    && (forall t :: 0 <= t < |s.ts| && s.ts[t].slot.Some? ==> s.ts[t].slot.value.corr != r)
    && (forall h :: 0 <= h < |s.handlers| ==> s.handlers[h].copy.corr != r)
  }

  lemma UnacceptedIsUntouched(s: State, r: nat)
    requires Inv(s) && (r < |s.ops| ==> !s.ops[r].wire.Accepted?)
    ensures Untouched(s, r)
  {
    forall i | 0 <= i < |s.ready| ensures s.ready[i].corr != r { assert CopyOk(s, s.ready[i]); }
    forall t | 0 <= t < |s.ts| && s.ts[t].slot.Some? ensures s.ts[t].slot.value.corr != r {
      assert InstanceOk(s, t, s.ts[t]);
    }
    forall h | 0 <= h < |s.handlers| ensures s.handlers[h].copy.corr != r { assert HandlerOk(s, s.handlers[h]); }
  }

  /** `NoRouteError`: before and after, the message is in no queue and no handler ever runs it. */
  lemma NoRouteMeansNeverEntered(cfg: Config, ss: seq<State>, acts: seq<Action>, n: nat, r: nat, m: nat)
    requires Run(cfg, ss, acts) && n < |ss| && m < |ss| && r < |ss[n].ops|
    requires ss[n].ops[r].phase == Finished(NoRoute)
    ensures Untouched(ss[m], r)
  {
    RunInv(cfg, ss, acts, n);
    RunInv(cfg, ss, acts, m);
    assert OpOk(ss[n], r, ss[n].ops[r]);
    if m <= n { RunExtends(cfg, ss, acts, m, n); } else { RunExtends(cfg, ss, acts, n, m); }
    if r < |ss[m].ops| {
      assert if m <= n then OpExtends(ss[m].ops[r], ss[n].ops[r]) else OpExtends(ss[n].ops[r], ss[m].ops[r]);
    }
    UnacceptedIsUntouched(ss[m], r);
  }

  /** A future turns to lost only in a sweep of its transport, while registered there. */
  lemma OnlySweepsLose(cfg: Config, s: State, a: Action, s': State, t: nat, id: nat)
    requires Step(cfg, s, a, s') && t < |s.ts| && t < |s'.ts|
    requires !FutureOf(s.ts[t].local, id).Lost? && FutureOf(s'.ts[t].local, id).Lost?
    ensures SweepsInstance(s, a, t) && id in s.ts[t].local.awaiting
  {
    hide Routed, MakeCopies, ApplyEndPublishing, TakeSlot;
    match a
    case EndPublishing(r, p, task) => EndPublishingLocal(s, r, p, task, t);
    case Ack(k) => ReceiptLosesNothing(s, k, false, t, id);
    case AckLost(k) => ReceiptLosesNothing(s, k, true, t, id);
    case _ =>
  }

  lemma EndPublishingLocal(s: State, r: nat, p: Publish, task: CurrentTask, t: nat)
    requires IsOp(s, r) && t < |s.ts|
    ensures |ApplyEndPublishing(s, r, p, task).ts| == |s.ts|
    ensures var l, l' := s.ts[t].local, ApplyEndPublishing(s, r, p, task).ts[t].local;
            l'.futures == if s.ops[r].t == t && Sweeps(p, task) then Sweep(l).futures else l.futures
  {
  }

  lemma ReceiptLosesNothing(s: State, k: nat, ackLost: bool, t: nat, id: nat)
    requires HasSlot(s, k) && t < |s.ts|
    ensures |TakeSlot(s, k, ackLost).ts| == |s.ts|
    ensures FutureOf(TakeSlot(s, k, ackLost).ts[t].local, id).Lost? ==> FutureOf(s.ts[t].local, id).Lost?
  {
  }

  /** A lost future: some earlier action of the run was a sweep of its transport while it was registered. */
  lemma {:induction false} LostMeansSwept(cfg: Config, ss: seq<State>, acts: seq<Action>, n: nat, t: nat, id: nat)
    requires Run(cfg, ss, acts) && n < |ss| && t < |ss[n].ts| && FutureOf(ss[n].ts[t].local, id).Lost?
    ensures exists k: nat :: k < n && SweptAt(ss, acts, k, t, id)
    decreases n
  {
    hide Inv, Apply, Enabled, SweepsInstance;
    if n > 0 {
      RunStep(cfg, ss, acts, n - 1);
      if FutureOf(ss[n - 1].ts[t].local, id).Lost? {
        LostMeansSwept(cfg, ss, acts, n - 1, t, id);
      } else {
        OnlySweepsLose(cfg, ss[n - 1], acts[n - 1], ss[n], t, id);
        assert SweptAt(ss, acts, n - 1, t, id);
      }
    }
  }

  predicate SweptAt(ss: seq<State>, acts: seq<Action>, k: nat, t: nat, id: nat)
  {
    k < |acts| && k < |ss| && t < |ss[k].ts| && SweepsInstance(ss[k], acts[k], t) && id in ss[k].ts[t].local.awaiting
  }

  /** The step that ends a publish with a lost connection. */
  lemma LosingStep(cfg: Config, s: State, a: Action, s': State, r: nat)
    requires Inv(s) && Step(cfg, s, a, s') && r < |s.ops| && r < |s'.ops|
    requires s.ops[r].phase != Finished(ConnectionLost) && s'.ops[r].phase == Finished(ConnectionLost)
    ensures IsOp(s, r)
    ensures s.ops[r].kind.Request? ==> FutureOf(LocalOf(s, r), r).Lost?
    ensures !s.ops[r].kind.Request? ==> SweepsInstance(s, a, s.ops[r].t)
  {
    OnlyOwnStepsChangePhase(cfg, s, a, s', r);
    hide Inv, Produced, Sweep, Register, Abandon, EndPublish;
    OpWasOk(s, r);
  }

  /**
    `ConnectionLostError`: some action of the run gave up on everything the publish's transport had in
    flight, and a request was registered at that moment.
   */
  lemma {:induction false} ConnectionLostMeansSwept(cfg: Config, ss: seq<State>, acts: seq<Action>, n: nat, r: nat)
    requires Run(cfg, ss, acts) && n < |ss| && r < |ss[n].ops| && ss[n].ops[r].phase == Finished(ConnectionLost)
    ensures exists k: nat ::
              k < n && SweepsInstance(ss[k], acts[k], ss[n].ops[r].t)
              && (ss[n].ops[r].kind.Request? ==> SweptAt(ss, acts, k, ss[n].ops[r].t, r))
    decreases n
  {
    hide Inv, Apply, Enabled, SweepsInstance;
    if n > 0 {
      var s, a := ss[n - 1], acts[n - 1];
      RunStep(cfg, ss, acts, n - 1);
      if r >= |s.ops| {
        NewPublishIsQueued(cfg, s, a, r);
      } else if s.ops[r].phase == Finished(ConnectionLost) {
        ConnectionLostMeansSwept(cfg, ss, acts, n - 1, r);
      } else {
        LosingStep(cfg, s, a, ss[n], r);
        if s.ops[r].kind.Request? {
          LostMeansSwept(cfg, ss, acts, n - 1, s.ops[r].t, r);
          var k: nat :| k < n - 1 && SweptAt(ss, acts, k, s.ops[r].t, r);
        }
      }
    }
  }

  /** What must have happened in a run for a request to end in an outcome. */
  predicate Explains(s: State, a: Action, r: nat, o: Outcome)
  {
    match o
    case TimedOut => a == Expire(r) && r < |s.ops| && s.ops[r].timed
    case Aborted =>
      || a == GiveUp(r) || a == CancelWait(r)
      || (a.EndPublishing? && a.r == r && a.p.CancelledError? && a.task != NoTask && a.task != Counted(0))
    case _ => false
  }

  /** Deadlines and cancellations reach a request only through the actions that stand for them. */
  lemma LeavingIsExplained(cfg: Config, s: State, a: Action, s': State, r: nat)
    requires Inv(s) && Step(cfg, s, a, s') && r < |s.ops| && r < |s'.ops|
    requires var p, p' := s.ops[r].phase, s'.ops[r].phase;
             p' != p && (p'.Leaving? || p' == Finished(TimedOut) || p' == Finished(Aborted))
    ensures var p, p' := s.ops[r].phase, s'.ops[r].phase;
            var o := if p'.Leaving? && p'.end.Deadline? then TimedOut else if p'.Leaving? then Aborted else p'.outcome;
            Explains(s, a, r, o) || (a == Wake(r) && p == Leaving(if o.TimedOut? then Deadline else TaskCancelled))
  {
    OnlyOwnStepsChangePhase(cfg, s, a, s', r);
    LeavingStep(cfg, s, a, s', r);
  }

  lemma OnlyOwnStepsChangePhase(cfg: Config, s: State, a: Action, s': State, r: nat)
    requires Step(cfg, s, a, s') && r < |s.ops| && r < |s'.ops| && s'.ops[r].phase != s.ops[r].phase
    ensures PublisherAction(a) && !a.Start? && !a.Route? && a.r == r
  {
    hide Routed, MakeCopies, Sweep, Register, Respond, Abandon, EndPublish, OutcomeOf;
  }

  lemma LeavingStep(cfg: Config, s: State, a: Action, s': State, r: nat)
    requires Inv(s) && Step(cfg, s, a, s') && r < |s.ops| && r < |s'.ops|
    requires PublisherAction(a) && !a.Start? && !a.Route? && a.r == r
    requires var p, p' := s.ops[r].phase, s'.ops[r].phase;
             p' != p && (p'.Leaving? || p' == Finished(TimedOut) || p' == Finished(Aborted))
    ensures var p, p' := s.ops[r].phase, s'.ops[r].phase;
            var o := if p'.Leaving? && p'.end.Deadline? then TimedOut else if p'.Leaving? then Aborted else p'.outcome;
            Explains(s, a, r, o) || (a == Wake(r) && p == Leaving(if o.TimedOut? then Deadline else TaskCancelled))
  {
    hide Inv, Produced, Sweep, Register, Abandon, EndPublish;
    OpWasOk(s, r);
  }

  lemma OpWasOk(s: State, r: nat)
    requires Inv(s) && r < |s.ops|
    ensures OpOk(s, r, s.ops[r])
  {
  }

  /** A timeout has its deadline behind it, a cancellation a cancellation of the waiting task that was a real one. */
  lemma {:induction false} OutcomeIsExplained(cfg: Config, ss: seq<State>, acts: seq<Action>,
                                              n: nat, r: nat, o: Outcome)
    requires Run(cfg, ss, acts) && n < |ss| && r < |ss[n].ops| && (o.TimedOut? || o.Aborted?)
    requires var p := ss[n].ops[r].phase;
             p == Finished(o) || p == Leaving(if o.TimedOut? then Deadline else TaskCancelled)
    ensures exists k: nat :: k < n && Explains(ss[k], acts[k], r, o)
    decreases n
  {
    hide Inv, Apply, Enabled, Explains, OpExtends;
    if n > 0 {
      var s, a := ss[n - 1], acts[n - 1];
      RunStep(cfg, ss, acts, n - 1);
      if r < |s.ops| {
        if s.ops[r].phase == ss[n].ops[r].phase {
          OutcomeIsExplained(cfg, ss, acts, n - 1, r, o);
        } else {
          LeavingIsExplained(cfg, s, a, ss[n], r);
          if !Explains(s, a, r, o) { OutcomeIsExplained(cfg, ss, acts, n - 1, r, o); }
        }
      } else {
        NewPublishIsQueued(cfg, s, a, r);
      }
    }
  }

  lemma NewPublishIsQueued(cfg: Config, s: State, a: Action, r: nat)
    requires Enabled(cfg, s, a) && |s.ops| <= r < |Apply(cfg, s, a).ops|
    ensures Apply(cfg, s, a).ops[r].phase.Queued?
  {
  }
}
