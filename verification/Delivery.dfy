/**
  Where message copies go: conservation, isolation and fan-out.
 */
module Delivery {
  import opened Wrappers
  import opened InFlight
  import opened Sequences
  import opened Protocol
  import opened ProtocolInvariant
  import opened ProtocolPreservation
  import opened ProtocolTheorems
  import Topic
  import Subscriptions

  // ---- Conservation ---------------------------------------------------------------------------------

  ghost function IsCopy(u: nat): Copy -> nat { (c: Copy) => if c.uid == u then 1 else 0 }

  ghost function InSlot(u: nat): Instance -> nat
  {
    (i: Instance) => if i.slot.Some? && i.slot.value.uid == u then 1 else 0
  }

  ghost function StartedBy(u: nat): Handler -> nat { (x: Handler) => if x.copy.uid == u then 1 else 0 }

  /** How many handlers were ever started with copy `u`. */
  ghost function Starts(s: State, u: nat): nat { Sum(s.handlers, StartedBy(u)) }

  /** How often copy `u` is present: ready in its queue, or delivered and not yet acknowledged. */
  ghost function Present(s: State, u: nat): nat { Sum(s.ready, IsCopy(u)) + Sum(s.ts, InSlot(u)) }

  /** Every copy ever made, plus the ones kept after a lost acknowledgement, is accounted for exactly. */
  ghost predicate Conserved(s: State, u: nat)
  {
    Present(s, u) + Starts(s, u) + s.received[u] + s.dropped[u] == (if u < s.nextUid then 1 else 0) + s.lostAcks[u]
  }

  lemma InitConserved(s: State, u: nat)
    requires Init(s)
    ensures Conserved(s, u)
  {
    forall t | 0 <= t < |s.ts| ensures InSlot(u)(s.ts[t]) == 0 { assert InitInstance(s.ts[t]); }
    SumZero(s.ts, InSlot(u));
  }

  lemma {:induction false} NewCopiesCounted(qs: seq<QueueId>, uid: nat, corr: nat, replyTo: nat, body: Bytes, u: nat)
    ensures Sum(MakeCopies(qs, uid, corr, replyTo, body), IsCopy(u)) == if uid <= u < uid + |qs| then 1 else 0
    decreases |qs|
  {
    if |qs| > 0 {
      var cs := MakeCopies(qs, uid, corr, replyTo, body);
      NewCopiesCounted(qs[1..], uid + 1, corr, replyTo, body, u);
      assert cs[1..] == MakeCopies(qs[1..], uid + 1, corr, replyTo, body);
    }
  }

  lemma DepositConserves(s: State, qs: seq<QueueId>, corr: nat, replyTo: nat, body: Bytes, u: nat)
    requires Conserved(s, u)
    ensures Conserved(Deposit(s, qs, corr, replyTo, body), u)
  {
    NewCopiesCounted(qs, s.nextUid, corr, replyTo, body, u);
    SumConcat(s.ready, MakeCopies(qs, s.nextUid, corr, replyTo, body), IsCopy(u));
  }

  /** Changing an instance's bookkeeping or subscriptions moves no copy; changing its slot moves one. */
  lemma InstanceUpdateCounts(s: State, t: nat, i: Instance, u: nat)
    requires t < |s.ts|
    ensures Sum(s.ts[t := i], InSlot(u)) + InSlot(u)(s.ts[t]) == Sum(s.ts, InSlot(u)) + InSlot(u)(i)
  {
    SumUpdate(s.ts, t, i, InSlot(u));
  }

  /** Nothing but instance `t`'s bookkeeping and the publishes changed. */
  predicate SameCopies(s: State, s': State, t: nat)
    requires t < |s.ts|
  {
    && |s'.ts| == |s.ts| && s'.ts == s.ts[t := s'.ts[t]] && s'.ts[t].slot == s.ts[t].slot
    && s'.ready == s.ready && s'.handlers == s.handlers && s'.nextUid == s.nextUid
    && s'.received == s.received && s'.lostAcks == s.lostAcks && s'.dropped == s.dropped
  }

  lemma SameCopiesConserved(s: State, s': State, t: nat, u: nat)
    requires Conserved(s, u) && t < |s.ts| && SameCopies(s, s', t)
    ensures Conserved(s', u)
  {
    InstanceUpdateCounts(s, t, s'.ts[t], u);
  }

  lemma PublishingConserves(cfg: Config, s: State, a: Action, u: nat)
    requires Conserved(s, u) && Enabled(cfg, s, a) && PublisherAction(a)
    ensures Conserved(Apply(cfg, s, a), u)
  {
    if a.Route? {
      var r := a.r;
      DepositConserves(SetWire(s, r, Accepted), OpQueues(cfg, s, r), r, s.ops[r].t, s.ops[r].body, u);
    } else if !a.Start? {
      PublisherMovesNoCopy(cfg, s, a);
      SameCopiesConserved(s, Apply(cfg, s, a), s.ops[a.r].t, u);
    }
  }

  lemma PublisherMovesNoCopy(cfg: Config, s: State, a: Action)
    requires Enabled(cfg, s, a) && PublisherAction(a) && !a.Start? && !a.Route?
    ensures IsOp(s, a.r) && SameCopies(s, Apply(cfg, s, a), s.ops[a.r].t)
  {
    hide EndPublish, Sweep, Register, Abandon, OutcomeOf, Routed;
  }

  lemma TakingConserves(s: State, t: nat, ackLost: bool, u: nat)
    requires Conserved(s, u) && HasSlot(s, t)
    ensures Conserved(TakeSlot(s, t, ackLost), u)
  {
    var s', c := TakeSlot(s, t, ackLost), s.ts[t].slot.value;
    InstanceUpdateCounts(s, t, s'.ts[t], u);
    SumAppend(s.handlers, Handler(t, c, None, Running), StartedBy(u));
    SumPrepend(c, s.ready, IsCopy(u));
    if c.queue.ReplyQ? {
      var s1 := SetSlot(s, t, None);
      assert s'.ts == s.ts[t := s'.ts[t]];
    } else {
      assert s'.ts == s.ts[t := s'.ts[t]];
    }
  }

  lemma HandlersConserve(cfg: Config, s: State, a: Action, u: nat)
    requires Conserved(s, u) && Enabled(cfg, s, a) && HandlerAction(a)
    ensures Conserved(Apply(cfg, s, a), u)
  {
    hide Sum, Routed, MakeCopies, Sweep, Respond;
    if a.Ack? || a.AckLost? {
      TakingConserves(s, a.t, a.AckLost?, u);
    } else {
      var h := a.h;
      var s' := Apply(cfg, s, a);
      SumUpdate(s.handlers, h, s'.handlers[h], StartedBy(u));
      if a.Reply? || a.ReplyBroken? {
        var x := s.handlers[h];
        DepositConserves(s, ReplyQueues(cfg, s, h), x.copy.corr, x.copy.replyTo, x.result.value, u);
        InstanceUpdateCounts(s, x.t, s'.ts[x.t], u);
        if a.ReplyBroken? { assert s'.ts == s.ts[x.t := s'.ts[x.t]]; }
      }
    }
  }

  /** Delivering, requeueing and dropping move one copy. */
  lemma MovingConserves(cfg: Config, s: State, a: Action, u: nat)
    requires Conserved(s, u) && Enabled(cfg, s, a) && (a.Deliver? || a.Requeue? || a.Drop?)
    ensures Conserved(Apply(cfg, s, a), u)
  {
    hide Sum, Routed, MakeCopies, Respond;
    var s' := Apply(cfg, s, a);
    match a
    case Deliver(i, t) =>
      SumRemove(s.ready, i, IsCopy(u));
      InstanceUpdateCounts(s, t, s'.ts[t], u);
      assert s'.ts == s.ts[t := s'.ts[t]];
    case Requeue(t) =>
      SumPrepend(s.ts[t].slot.value, s.ready, IsCopy(u));
      InstanceUpdateCounts(s, t, s'.ts[t], u);
      assert s'.ts == s.ts[t := s'.ts[t]];
    case Drop(i) => SumRemove(s.ready, i, IsCopy(u));
  }

  /** A close, a subscription or a registration moves none. */
  lemma ChangingConserves(cfg: Config, s: State, a: Action, u: nat)
    requires Conserved(s, u) && Enabled(cfg, s, a)
    requires a.Close? || a.Consume? || a.CancelConsumer? || a.RegisterName?
    ensures Conserved(Apply(cfg, s, a), u)
  {
    hide Sum, Sweep, Conserved;
    var s' := Apply(cfg, s, a);
    assert s'.ts == s.ts[a.t := s'.ts[a.t]];
    SameCopiesConserved(s, s', a.t, u);
  }

  lemma BrokerConserves(cfg: Config, s: State, a: Action, u: nat)
    requires Conserved(s, u) && Enabled(cfg, s, a) && !PublisherAction(a) && !HandlerAction(a)
    ensures Conserved(Apply(cfg, s, a), u)
  {
    hide Sum, Routed, MakeCopies;
    if a.Deliver? || a.Requeue? || a.Drop? {
      MovingConserves(cfg, s, a, u);
    } else if !a.Declare? && !a.Undeclare? {
      ChangingConserves(cfg, s, a, u);
    }
  }

  /** No action creates or destroys a copy unaccounted for. */
  lemma {:induction false} CopiesAreConserved(cfg: Config, ss: seq<State>, acts: seq<Action>, n: nat, u: nat)
    requires Run(cfg, ss, acts) && n < |ss|
    ensures Conserved(ss[n], u)
    decreases n
  {
    hide Conserved, Apply, Enabled;
    if n == 0 {
      InitConserved(ss[0], u);
    } else {
      CopiesAreConserved(cfg, ss, acts, n - 1, u);
      var s, a := ss[n - 1], acts[n - 1];
      assert Step(cfg, s, a, ss[n - 1 + 1]);
      if PublisherAction(a) {
        PublishingConserves(cfg, s, a, u);
      } else if HandlerAction(a) {
        HandlersConserve(cfg, s, a, u);
      } else {
        BrokerConserves(cfg, s, a, u);
      }
    }
  }

  /**
    A copy starts at most one handler more than acknowledgements were lost for it; and if none was lost
    it is in exactly one place: waiting or delivered, handed to one handler, received as a reply, or dropped.
   */
  lemma AtMostOneStartPerLostAck(cfg: Config, ss: seq<State>, acts: seq<Action>, n: nat, u: nat)
    requires Run(cfg, ss, acts) && n < |ss|
    ensures Starts(ss[n], u) <= 1 + ss[n].lostAcks[u]
    ensures u < ss[n].nextUid && ss[n].lostAcks[u] == 0 ==>
              Present(ss[n], u) + Starts(ss[n], u) + ss[n].received[u] + ss[n].dropped[u] == 1
  {
    CopiesAreConserved(cfg, ss, acts, n, u);
  }

  // ---- Isolation ------------------------------------------------------------------------------------

  /** Whatever an instance ever consumed, its router has registered. */
  ghost predicate Backed(s: State)
  {
    forall t, q :: 0 <= t < |s.ts| && q in s.ts[t].served ==> Registered(s.ts[t].registry, q)
  }

  ghost predicate SameSubscriptions(i: Instance, j: Instance) { j.served == i.served && j.registry == i.registry }

  /** Only consuming and registering change what is consumed and registered. */
  lemma SubscriptionsStay(cfg: Config, s: State, a: Action, t: nat)
    requires Enabled(cfg, s, a) && !a.Consume? && !a.RegisterName? && t < |s.ts|
    ensures |Apply(cfg, s, a).ts| == |s.ts| && SameSubscriptions(s.ts[t], Apply(cfg, s, a).ts[t])
  {
    hide SameSubscriptions;
    if PublisherAction(a) {
      PublishingKeepsSubscriptions(cfg, s, a, t);
    } else if HandlerAction(a) {
      HandlingKeepsSubscriptions(cfg, s, a, t);
    } else {
      BrokerKeepsSubscriptions(cfg, s, a, t);
    }
  }

  lemma PublishingKeepsSubscriptions(cfg: Config, s: State, a: Action, t: nat)
    requires Enabled(cfg, s, a) && PublisherAction(a) && t < |s.ts|
    ensures |Apply(cfg, s, a).ts| == |s.ts| && SameSubscriptions(s.ts[t], Apply(cfg, s, a).ts[t])
  {
    hide Routed, MakeCopies, Sweep, Register, Abandon, EndPublish, OutcomeOf, Respond;
  }

  lemma HandlingKeepsSubscriptions(cfg: Config, s: State, a: Action, t: nat)
    requires Enabled(cfg, s, a) && HandlerAction(a) && t < |s.ts|
    ensures |Apply(cfg, s, a).ts| == |s.ts| && SameSubscriptions(s.ts[t], Apply(cfg, s, a).ts[t])
  {
    if a.Ack? || a.AckLost? {
      TakingKeepsSubscriptions(s, a.t, a.AckLost?, t);
      hide TakeSlot, SameSubscriptions;
    } else {
      hide Routed, MakeCopies, Sweep, Respond, TakeSlot;
    }
  }

  lemma TakingKeepsSubscriptions(s: State, k: nat, ackLost: bool, t: nat)
    requires HasSlot(s, k) && t < |s.ts|
    ensures var s' := TakeSlot(s, k, ackLost); |s'.ts| == |s.ts| && SameSubscriptions(s.ts[t], s'.ts[t])
  {
    hide Respond;
  }

  lemma BrokerKeepsSubscriptions(cfg: Config, s: State, a: Action, t: nat)
    requires Enabled(cfg, s, a) && !PublisherAction(a) && !HandlerAction(a) && t < |s.ts|
    requires !a.Consume? && !a.RegisterName?
    ensures |Apply(cfg, s, a).ts| == |s.ts| && SameSubscriptions(s.ts[t], Apply(cfg, s, a).ts[t])
  {
    hide Routed, MakeCopies, Sweep;
  }

  lemma RegisteringKeeps(names: Subscriptions.Names, kind: Subscriptions.Kind, name: string, q: QueueId)
    requires Registered(names, q)
    ensures Registered(Subscriptions.AddName(names, kind, name), q)
  {
  }

  lemma StepKeepsBacked(cfg: Config, s: State, a: Action)
    requires Enabled(cfg, s, a) && Backed(s)
    ensures Backed(Apply(cfg, s, a))
  {
    hide Registered;
    var s' := Apply(cfg, s, a);
    if !a.Consume? && !a.RegisterName? {
      forall t | 0 <= t < |s.ts|
        ensures |s'.ts| == |s.ts| && SameSubscriptions(s.ts[t], s'.ts[t])
      {
        SubscriptionsStay(cfg, s, a, t);
      }
    } else if a.RegisterName? {
      forall q | q in s.ts[a.t].served ensures Registered(s'.ts[a.t].registry, q) {
        RegisteringKeeps(s.ts[a.t].registry, a.registry, a.name, q);
      }
    }
  }

  lemma {:induction false} RunIsBacked(cfg: Config, ss: seq<State>, acts: seq<Action>, n: nat)
    requires Run(cfg, ss, acts) && n < |ss|
    ensures Backed(ss[n])
    decreases n
  {
    hide Apply, Enabled;
    if n == 0 {
      forall t | 0 <= t < |ss[0].ts| ensures InitInstance(ss[0].ts[t]) {}
    } else {
      RunIsBacked(cfg, ss, acts, n - 1);
      RunStep(cfg, ss, acts, n - 1);
      StepKeepsBacked(cfg, ss[n - 1], acts[n - 1]);
    }
  }

  /**
    A request, event or broadcast is dequeued only by an instance whose router registered its name for its
    kind, whatever subsets of names the instances sharing the broker serve.
   */
  lemma OnlyServersDequeue(cfg: Config, ss: seq<State>, acts: seq<Action>, n: nat, i: nat, t: nat)
    requires Run(cfg, ss, acts) && n < |acts| && acts[n] == Deliver(i, t) && i < |ss[n].ready|
    requires !ss[n].ready[i].queue.ReplyQ?
    ensures var c := ss[n].ready[i];
            && c.corr < |ss[n].ops| && Carries(ss[n].ops[c.corr], c)
            && t < |ss[n].ts| && c.queue in ss[n].ts[t].served
            && ss[n].ops[c.corr].name in Subscriptions.NamesOf(ss[n].ts[t].registry, KindOf(c.queue))
  {
    RunStep(cfg, ss, acts, n);
    RunIsBacked(cfg, ss, acts, n);
    assert CopyOk(ss[n], ss[n].ready[i]);
    assert InstanceOk(ss[n], t, ss[n].ts[t]);
    assert Registered(ss[n].ts[t].registry, ss[n].ready[i].queue);
  }

  /**
    The registry lookup of a started handler succeeds, now and later: the name it was started for is the name
    the message was published under, and it is in its instance's registry of that kind.
   */
  lemma LookupSucceeds(cfg: Config, ss: seq<State>, acts: seq<Action>, n: nat, h: nat)
    requires Run(cfg, ss, acts) && n < |ss| && h < |ss[n].handlers|
    ensures var x := ss[n].handlers[h];
            && x.t < |ss[n].ts| && x.copy.corr < |ss[n].ops| && Carries(ss[n].ops[x.copy.corr], x.copy)
            && (x.copy.queue.RequestQ? <==> ss[n].ops[x.copy.corr].kind.Request?)
            && !x.copy.queue.ReplyQ? && x.copy.queue.name == ss[n].ops[x.copy.corr].name
            && x.copy.queue.name in Subscriptions.NamesOf(ss[n].ts[x.t].registry, KindOf(x.copy.queue))
  {
    RunInv(cfg, ss, acts, n);
    RunIsBacked(cfg, ss, acts, n);
    assert HandlerOk(ss[n], ss[n].handlers[h]);
    assert Registered(ss[n].ts[ss[n].handlers[h].t].registry, ss[n].handlers[h].copy.queue);
  }

  // ---- Fan-out --------------------------------------------------------------------------------------

  predicate Addressed(op: Op, q: QueueId)
  {
    match q
    case RequestQ(n) => op.kind.Request? && n == op.name
    case EventQ(n) => op.kind.Event? && n == op.name
    case BroadcastQ(_, n) => op.kind.Broadcast? && n == op.name
    case ReplyQ(_) => false
  }

  ghost function InQueue(q: QueueId): Copy -> nat { (c: Copy) => if c.queue == q then 1 else 0 }

  lemma RoutedStep(cfg: Config, queues: seq<QueueId>, key: string)
    requires queues != []
    ensures var rest := Routed(cfg, queues[1..], key);
            Routed(cfg, queues, key) ==
            if Topic.Matches(BindingKey(cfg, queues[0]), key) then [queues[0]] + rest else rest
  {
    hide BindingKey;
    assert [] + Routed(cfg, queues[1..], key) == Routed(cfg, queues[1..], key);
  }

  lemma CopiesPrepend(q: QueueId, qs: seq<QueueId>, uid: nat, corr: nat, replyTo: nat, body: Bytes)
    ensures MakeCopies([q] + qs, uid, corr, replyTo, body)
            == [Copy(uid, q, corr, replyTo, body)] + MakeCopies(qs, uid + 1, corr, replyTo, body)
  {
  }

  lemma HeadOnlyOnce(queues: seq<QueueId>, q: QueueId)
    requires queues != [] && Distinct(queues)
    ensures Distinct(queues[1..]) && (q in queues <==> q == queues[0] || q in queues[1..])
    ensures queues[0] !in queues[1..]
  {
    assert queues == [queues[0]] + queues[1..];
  }

  lemma {:induction false} FilterCount(cfg: Config, queues: seq<QueueId>, key: string, q: QueueId,
                                       uid: nat, corr: nat, replyTo: nat, body: Bytes)
    requires Distinct(queues)
    ensures Sum(MakeCopies(Routed(cfg, queues, key), uid, corr, replyTo, body), InQueue(q))
            == if q in queues && Topic.Matches(BindingKey(cfg, q), key) then 1 else 0
    decreases |queues|
  {
    if queues != [] {
      hide Sum, Routed, MakeCopies, BindingKey, Distinct;
      var head, rest := queues[0], Routed(cfg, queues[1..], key);
      HeadOnlyOnce(queues, q);
      RoutedStep(cfg, queues, key);
      if Topic.Matches(BindingKey(cfg, head), key) {
        FilterCount(cfg, queues[1..], key, q, uid + 1, corr, replyTo, body);
        CopiesPrepend(head, rest, uid, corr, replyTo, body);
        SumPrepend(Copy(uid, head, corr, replyTo, body), MakeCopies(rest, uid + 1, corr, replyTo, body), InQueue(q));
      } else {
        FilterCount(cfg, queues[1..], key, q, uid, corr, replyTo, body);
      }
    }
  }

  /** A wildcard-free binding matches a published key exactly when it is bound for that kind and name. */
  lemma MatchesWhatIsAddressed(cfg: Config, s: State, r: nat, q: QueueId)
    requires ConfigOk(cfg) && QueuesOk(s) && r < |s.ops| && q in s.queues
    ensures Topic.Matches(BindingKey(cfg, q), OpKey(cfg, s.ops[r])) <==> Addressed(s.ops[r], q)
  {
    var op := s.ops[r];
    var i :| 0 <= i < |s.queues| && s.queues[i] == q;
    assert PlainName(s.queues[i]);
    match q
    case ReplyQ(j) =>
      Topic.PlainMatchesExactly(BindingKey(cfg, q), OpKey(cfg, op));
      Topic.RoutingKeyWords(cfg.prefix, op.kind, op.name);
    case RequestQ(n) => Topic.TrafficNeverCrosses(cfg.prefix, Topic.Request, n, op.kind, op.name, cfg.replyName(0));
    case EventQ(n) => Topic.TrafficNeverCrosses(cfg.prefix, Topic.Event, n, op.kind, op.name, cfg.replyName(0));
    case BroadcastQ(_, n) =>
      Topic.TrafficNeverCrosses(cfg.prefix, Topic.Broadcast, n, op.kind, op.name, cfg.replyName(0));
  }

  /**
    Routing a publish adds exactly one copy to each queue declared for it at that moment - for a
    broadcast, one per subscriber; for a request or an event, one in the shared queue of its name - and
    none to any other; it is refused exactly when there is no such queue.
   */
  lemma OneCopyPerBoundQueue(cfg: Config, ss: seq<State>, acts: seq<Action>, n: nat, r: nat, q: QueueId)
    requires Run(cfg, ss, acts) && n < |acts| && acts[n] == Route(r) && r < |ss[n].ops|
    ensures Sum(ss[n + 1].ready, InQueue(q)) == Sum(ss[n].ready, InQueue(q))
              + (if q in ss[n].queues && Addressed(ss[n].ops[r], q) then 1 else 0)
    ensures r < |ss[n + 1].ops|
            && (ss[n + 1].ops[r].wire.Refused? <==> forall q :: q in ss[n].queues ==> !Addressed(ss[n].ops[r], q))
  {
    RunStep(cfg, ss, acts, n);
    var s, s' := ss[n], ss[n + 1];
    var op := s.ops[r];
    var qs := OpQueues(cfg, s, r);
    FilterCount(cfg, s.queues, OpKey(cfg, op), q, s.nextUid, r, op.t, op.body);
    SumConcat(s.ready, MakeCopies(qs, s.nextUid, r, op.t, op.body), InQueue(q));
    forall k | k in s.queues ensures k in qs <==> Addressed(op, k) { MatchesWhatIsAddressed(cfg, s, r, k); }
    RouteShape(cfg, s, r);
    if qs != [] { assert qs[0] in qs; }
  }

  lemma RouteShape(cfg: Config, s: State, r: nat)
    requires IsOp(s, r)
    ensures var qs, s' := OpQueues(cfg, s, r), RouteOut(cfg, s, r);
            && r < |s'.ops| && (s'.ops[r].wire.Refused? <==> qs == [])
            && s'.ready == s.ready + MakeCopies(qs, s.nextUid, r, s.ops[r].t, s.ops[r].body)
  {
  }

  // ---- Order ----------------------------------------------------------------------------------------

  /** In queue `q`, copy `u` waits in front of copy `v`, wherever that is. */
  ghost predicate Behind(ready: seq<Copy>, q: QueueId, u: nat, v: nat)
  {
    u != v && forall l :: 0 <= l < |ready| && ready[l].uid == v && ready[l].queue == q ==> HasBefore(ready, l, q, u)
  }

  predicate HasBefore(ready: seq<Copy>, l: int, q: QueueId, u: nat)
  {
    exists i :: 0 <= i < l && i < |ready| && ready[i].uid == u && ready[i].queue == q
  }

  /** The action takes copy `u` out of its queue, or puts copy `v` back to the front of its own. */
  predicate Reorders(s: State, a: Action, u: nat, v: nat)
  {
    match a
    case Deliver(i, _) => i < |s.ready| && s.ready[i].uid == u
    case Drop(i) => i < |s.ready| && s.ready[i].uid == u
    case Requeue(t) => HasSlot(s, t) && s.ts[t].slot.value.uid == v
    case AckLost(t) => HasSlot(s, t) && s.ts[t].slot.value.uid == v
    case _ => false
  }

  lemma RemovalKeepsBehind(ready: seq<Copy>, k: nat, q: QueueId, u: nat, v: nat)
    requires Behind(ready, q, u, v) && k < |ready| && ready[k].uid != u
    ensures Behind(RemoveAt(ready, k), q, u, v)
  {
    var rest := RemoveAt(ready, k);
    forall l | 0 <= l < |rest| && rest[l].uid == v && rest[l].queue == q
      ensures HasBefore(rest, l, q, u)
    {
      var l' := if l < k then l else l + 1;
      assert ready[l'] == rest[l];
      assert HasBefore(ready, l', q, u);
      var i :| 0 <= i < l' && ready[i].uid == u && ready[i].queue == q;
      assert rest[if i < k then i else i - 1] == ready[i];
    }
  }

  lemma MoreKeepsBehind(front: seq<Copy>, ready: seq<Copy>, back: seq<Copy>, q: QueueId, u: nat, v: nat)
    requires Behind(ready, q, u, v)
    requires (forall c :: c in front ==> c.uid != v) && (forall c :: c in back ==> c.uid != v)
    ensures Behind(front + ready + back, q, u, v)
  {
    var all := front + ready + back;
    assert forall i :: 0 <= i < |front| ==> all[i] in front;
    assert forall i :: |front| + |ready| <= i < |all| ==> all[i] in back;
    forall l | 0 <= l < |all| && all[l].uid == v && all[l].queue == q
      ensures HasBefore(all, l, q, u)
    {
      var l' := l - |front|;
      assert ready[l'] == all[l];
      assert HasBefore(ready, l', q, u);
      var i :| 0 <= i < l' && ready[i].uid == u && ready[i].queue == q;
      assert all[|front| + i] == ready[i];
    }
  }

  /** Delivering and dropping apart: copies come back to the front or join at the end, and the others stay in order. */
  lemma ReadyChanges(cfg: Config, s: State, a: Action) returns (front: seq<Copy>, back: seq<Copy>)
    requires Enabled(cfg, s, a) && !a.Deliver? && !a.Drop?
    ensures Apply(cfg, s, a).ready == front + s.ready + back
    ensures forall c :: c in front ==> (a.Requeue? || a.AckLost?) && HasSlot(s, a.t) && c == s.ts[a.t].slot.value
    ensures forall c :: c in back ==> c.uid >= s.nextUid
  {
    hide Enabled, Apply;
    front, back := [], [];
    if PublisherAction(a) {
      back := PublishedCopies(cfg, s, a);
    } else if HandlerAction(a) && !a.Ack? && !a.AckLost? {
      back := RepliedCopies(cfg, s, a);
    } else {
      front := ReturnedCopies(cfg, s, a);
    }
  }

  lemma ReturnedCopies(cfg: Config, s: State, a: Action) returns (front: seq<Copy>)
    requires Enabled(cfg, s, a) && !PublisherAction(a) && !a.Deliver? && !a.Drop?
    requires HandlerAction(a) ==> a.Ack? || a.AckLost?
    ensures Apply(cfg, s, a).ready == front + s.ready
    ensures forall c :: c in front ==> (a.Requeue? || a.AckLost?) && HasSlot(s, a.t) && c == s.ts[a.t].slot.value
  {
    hide Sweep, Respond;
    front := if a.Requeue? || a.AckLost? then [s.ts[a.t].slot.value] else [];
  }

  lemma PublishedCopies(cfg: Config, s: State, a: Action) returns (back: seq<Copy>)
    requires Enabled(cfg, s, a) && PublisherAction(a)
    ensures Apply(cfg, s, a).ready == s.ready + back && forall c :: c in back ==> c.uid >= s.nextUid
  {
    back := [];
    if a.Route? {
      hide Routed;
      RouteShape(cfg, s, a.r);
      back := MakeCopies(OpQueues(cfg, s, a.r), s.nextUid, a.r, s.ops[a.r].t, s.ops[a.r].body);
    } else if !a.Start? {
      PublisherMovesNoCopy(cfg, s, a);
      hide Apply, Enabled;
    }
  }

  lemma RepliedCopies(cfg: Config, s: State, a: Action) returns (back: seq<Copy>)
    requires Enabled(cfg, s, a) && HandlerAction(a) && !a.Ack? && !a.AckLost?
    ensures Apply(cfg, s, a).ready == s.ready + back && forall c :: c in back ==> c.uid >= s.nextUid
  {
    hide Sweep, Routed;
    back := [];
    if a.Reply? || (a.ReplyBroken? && a.accepted) {
      var x := s.handlers[a.h];
      back := MakeCopies(ReplyQueues(cfg, s, a.h), s.nextUid, x.copy.corr, x.copy.replyTo, x.result.value);
    }
  }

  lemma StepKeepsBehind(cfg: Config, s: State, a: Action, q: QueueId, u: nat, v: nat)
    requires Enabled(cfg, s, a) && v < s.nextUid && Behind(s.ready, q, u, v) && !Reorders(s, a, u, v)
    ensures Behind(Apply(cfg, s, a).ready, q, u, v)
  {
    if a.Deliver? || a.Drop? {
      RemovalKeepsBehind(s.ready, a.i, q, u, v);
    } else {
      var front, back := ReadyChanges(cfg, s, a);
      hide Apply, Enabled, Behind;
      MoreKeepsBehind(front, s.ready, back, q, u, v);
    }
  }

  /**
    Nothing overtakes in a queue: as long as a copy waits in front of another one, and that one is not put back to the
    front, the other one is not delivered.
   */
  lemma {:induction false} NothingOvertakes(cfg: Config, ss: seq<State>, acts: seq<Action>, m: nat, n: nat,
                                            q: QueueId, u: nat, v: nat)
    requires Run(cfg, ss, acts) && m <= n < |ss| && v < ss[m].nextUid && Behind(ss[m].ready, q, u, v)
    requires forall k :: m <= k < n ==> !Reorders(ss[k], acts[k], u, v)
    ensures Behind(ss[n].ready, q, u, v) && v < ss[n].nextUid
    ensures n < |acts| && acts[n].Deliver? ==>
              var i := acts[n].i; i < |ss[n].ready| && (ss[n].ready[i].queue == q ==> ss[n].ready[i].uid != v)
    decreases n
  {
    hide Apply, Inv, Reorders;
    if m < n {
      NothingOvertakes(cfg, ss, acts, m, n - 1, q, u, v);
      RunStep(cfg, ss, acts, n - 1);
      StepKeepsBehind(cfg, ss[n - 1], acts[n - 1], q, u, v);
    }
    if n < |acts| && acts[n].Deliver? {
      RunStep(cfg, ss, acts, n);
      FirstIsNotBehind(ss[n].ready, acts[n].i, q, u, v);
    }
  }

  lemma FirstIsNotBehind(ready: seq<Copy>, i: nat, q: QueueId, u: nat, v: nat)
    requires Behind(ready, q, u, v) && i < |ready| && FirstOfQueue(ready, i)
    ensures ready[i].queue == q ==> ready[i].uid != v
  {
    assert ready[i].uid == v && ready[i].queue == q ==> HasBefore(ready, i, q, u);
  }
}
