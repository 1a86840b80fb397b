/**
  The transport protocol as a global transition system.

  The state holds every transport instance (its in-flight bookkeeping, its one prefetch slot, the
  queues it consumes), every publish ever started, the broker's queues with the message copies ready
  in them, and every handler ever started.  `Enabled` says when an action may happen and `Apply` what
  it does; the transport's own segments are the functions of `InFlight`.

  Handlers are arbitrary: they may return any bytes at any time, or never.  The environment may lose
  or return messages, lose acknowledgements, redeliver, close connections, cancel tasks and let
  deadlines pass, in any interleaving.
 */
module Protocol {
  import opened Wrappers
  import opened InFlight
  import opened Sequences
  import Topic
  import Subscriptions

  /** A queue: durable per task name, exclusive per subscriber, or the private reply queue of an instance. */
  datatype QueueId =
    | RequestQ(name: string)
    | EventQ(name: string)
    | BroadcastQ(instance: nat, name: string)
    | ReplyQ(instance: nat)

  /** The routing-key prefix of the fleet and the broker-generated reply queue names. */
  datatype Config = Config(prefix: string, replyName: nat -> string)

  ghost predicate ConfigOk(cfg: Config)
  {
    && Topic.Plain(cfg.prefix)
    && (forall t: nat :: Topic.Plain(cfg.replyName(t)) && |Topic.Words(cfg.replyName(t))| <= 2)
    && (forall t: nat, t': nat :: cfg.replyName(t) == cfg.replyName(t') ==> t == t')
  }

  /** Every queue is bound with one exact key. */
  function BindingKey(cfg: Config, q: QueueId): string
  {
    match q
    case RequestQ(n) => Topic.RoutingKey(cfg.prefix, Topic.Request, n)
    case EventQ(n) => Topic.RoutingKey(cfg.prefix, Topic.Event, n)
    case BroadcastQ(_, n) => Topic.RoutingKey(cfg.prefix, Topic.Broadcast, n)
    case ReplyQ(i) => cfg.replyName(i)
  }

  /** Registered task names contain no wildcard word. */
  predicate PlainName(q: QueueId) { q.ReplyQ? || Topic.Plain(q.name) }

  /** The kind and name of the task a queue is for; the private reply queue is for none. */
  function KindOf(q: QueueId): Subscriptions.Kind
    requires !q.ReplyQ?
  {
    match q
    case RequestQ(_) => Subscriptions.Rpc
    case EventQ(_) => Subscriptions.Queue
    case BroadcastQ(_, _) => Subscriptions.Broadcast
  }

  /** The name a queue is for is in the registry of its kind. */
  predicate Registered(names: Subscriptions.Names, q: QueueId)
  {
    q.ReplyQ? || q.name in Subscriptions.NamesOf(names, KindOf(q))
  }

  predicate ExclusiveTo(q: QueueId, t: nat) { (q.ReplyQ? || q.BroadcastQ?) ==> q.instance == t }

  /** One copy of a message in one queue.  `corr` is the publish it answers or carries. */
  datatype Copy = Copy(uid: nat, queue: QueueId, corr: nat, replyTo: nat, body: Bytes)

  /** Where the task that publishes (and perhaps waits) stands. */
  datatype Phase =
    | Queued                    // waiting for the lock
    | Publishing                // holding it
    | Waiting                   // for the future
    | Leaving(end: WaitEnd)     // future abandoned, not yet woken
    | Finished(outcome: Outcome)

  /** What became of the published message. */
  datatype Wire = Unpublished | OnWire | Accepted | Refused

  datatype Op = Op(t: nat, kind: Topic.Traffic, name: string, body: Bytes, timed: bool, phase: Phase, wire: Wire)

  datatype HandlerState = Running | Replying | Ended

  datatype Handler = Handler(t: nat, copy: Copy, result: Option<Bytes>, st: HandlerState)

  /**
    `served` are the queues this instance ever consumed; `registry` the names in its router's three
    registries, from which nothing is ever removed.
   */
  datatype Instance = Instance(
    local: Local,
    slot: Option<Copy>,
    consumes: set<QueueId>,
    served: set<QueueId>,
    registry: Subscriptions.Names)

  datatype State = State(
    ts: seq<Instance>,
    ops: seq<Op>,
    queues: seq<QueueId>,
    ready: seq<Copy>,
    handlers: seq<Handler>,
    nextUid: nat,
    // copies by how often they were received as replies, kept after a lost acknowledgement, dropped
    received: multiset<nat>,
    lostAcks: multiset<nat>,
    dropped: multiset<nat>)

  datatype Action =
    // the publishing task
    | Start(t: nat, kind: Topic.Traffic, name: string, body: Bytes, timed: bool)
    | GiveUp(r: nat)
    | Acquire(r: nat)
    | EndPublishing(r: nat, p: Publish, task: CurrentTask)
    | Expire(r: nat)
    | CancelWait(r: nat)
    | Wake(r: nat)
    // the broker
    | Route(r: nat)
    | Deliver(i: nat, t: nat)
    | Requeue(t: nat)
    | Drop(i: nat)
    | Close(t: nat)
    // the router's names and subscriptions
    | RegisterName(t: nat, registry: Subscriptions.Kind, name: string)
    | Declare(q: QueueId)
    | Undeclare(i: nat)
    | Consume(t: nat, q: QueueId)
    | CancelConsumer(t: nat, q: QueueId)
    // the receiving side
    | Ack(t: nat)
    | AckLost(t: nat)
    | Complete(h: nat, body: Bytes)
    | Crash(h: nat)
    | Reply(h: nat)
    | ReplyBroken(h: nat, accepted: bool)

  // ---- Routing --------------------------------------------------------------------------------------

  function Routed(cfg: Config, queues: seq<QueueId>, key: string): (qs: seq<QueueId>)
    ensures forall q :: q in qs <==> q in queues && Topic.Matches(BindingKey(cfg, q), key)
    ensures |qs| <= |queues|
  {
    if |queues| == 0 then []
    else
      (if Topic.Matches(BindingKey(cfg, queues[0]), key) then [queues[0]] else [])
      + Routed(cfg, queues[1..], key)
  }

  function MakeCopies(qs: seq<QueueId>, uid: nat, corr: nat, replyTo: nat, body: Bytes): (cs: seq<Copy>)
    ensures |cs| == |qs|
    ensures forall i :: 0 <= i < |cs| ==> cs[i] == Copy(uid + i, qs[i], corr, replyTo, body)
  {
    seq(|qs|, i requires 0 <= i < |qs| => Copy(uid + i, qs[i], corr, replyTo, body))
  }

  function Deposit(s: State, qs: seq<QueueId>, corr: nat, replyTo: nat, body: Bytes): State
  {
    s.(ready := s.ready + MakeCopies(qs, s.nextUid, corr, replyTo, body), nextUid := s.nextUid + |qs|)
  }

  function OpKey(cfg: Config, op: Op): string { Topic.RoutingKey(cfg.prefix, op.kind, op.name) }

  function OpQueues(cfg: Config, s: State, r: nat): seq<QueueId>
    requires r < |s.ops|
  {
    Routed(cfg, s.queues, OpKey(cfg, s.ops[r]))
  }

  function ReplyQueues(cfg: Config, s: State, h: nat): seq<QueueId>
    requires h < |s.handlers|
  {
    Routed(cfg, s.queues, cfg.replyName(s.handlers[h].copy.replyTo))
  }

  // ---- Enabledness ----------------------------------------------------------------------------------

  predicate IsOp(s: State, r: nat) { r < |s.ops| && s.ops[r].t < |s.ts| }

  function LocalOf(s: State, r: nat): Local
    requires IsOp(s, r)
  {
    s.ts[s.ops[r].t].local
  }

  predicate IsHandler(s: State, h: nat) { h < |s.handlers| && s.handlers[h].t < |s.ts| }

  predicate HasSlot(s: State, t: nat) { t < |s.ts| && s.ts[t].slot.Some? }

  /** Queues are first in, first out. */
  predicate FirstOfQueue(ready: seq<Copy>, i: nat)
    requires i < |ready|
  {
    forall j :: 0 <= j < i ==> ready[j].queue != ready[i].queue
  }

  predicate Enabled(cfg: Config, s: State, a: Action)
  {
    match a
    case Start(t, _, _, _, _) => t < |s.ts|
    case GiveUp(r) => IsOp(s, r) && s.ops[r].phase.Queued?
    case Acquire(r) => IsOp(s, r) && s.ops[r].phase.Queued? && LocalOf(s, r).lock.None?
    case EndPublishing(r, p, task) =>
      && IsOp(s, r) && s.ops[r].phase.Publishing?
      && (p.Confirmed? ==> s.ops[r].wire.Accepted?)
      && (p.Returned? ==> s.ops[r].wire.Refused?)
    case Expire(r) => IsOp(s, r) && s.ops[r].phase.Waiting? && s.ops[r].timed
    case CancelWait(r) => IsOp(s, r) && (s.ops[r].phase.Waiting? || s.ops[r].phase.Leaving?)
    case Wake(r) =>
      && IsOp(s, r)
      && (s.ops[r].phase.Leaving? || (s.ops[r].phase.Waiting? && !FutureOf(LocalOf(s, r), r).Pending?))
    case Route(r) => IsOp(s, r) && s.ops[r].wire.OnWire?
    case Deliver(i, t) =>
      && t < |s.ts| && i < |s.ready|
      && s.ts[t].slot.None? && s.ready[i].queue in s.ts[t].consumes && FirstOfQueue(s.ready, i)
    case Requeue(t) => HasSlot(s, t)
    case Drop(i) => i < |s.ready|
    case Close(t) => t < |s.ts|
    case RegisterName(t, _, _) => t < |s.ts|
    case Declare(q) => PlainName(q)
    case Undeclare(i) => i < |s.queues| && (s.queues[i].BroadcastQ? || s.queues[i].ReplyQ?)
    case Consume(t, q) => t < |s.ts| && q in s.queues && ExclusiveTo(q, t) && Registered(s.ts[t].registry, q)
    case CancelConsumer(t, _) => t < |s.ts|
    case Ack(t) => HasSlot(s, t)
    case AckLost(t) => HasSlot(s, t)
    case Complete(h, _) => IsHandler(s, h) && s.handlers[h].st.Running? && s.handlers[h].copy.queue.RequestQ?
    case Crash(h) => IsHandler(s, h) && !s.handlers[h].st.Ended?
    case Reply(h) =>
      && IsHandler(s, h) && s.handlers[h].st.Replying? && s.handlers[h].result.Some?
      && ReplyQueues(cfg, s, h) != []
    case ReplyBroken(h, _) => IsHandler(s, h) && s.handlers[h].st.Replying? && s.handlers[h].result.Some?
  }

  // ---- Effects --------------------------------------------------------------------------------------

  function SetLocal(s: State, t: nat, l: Local): State
    requires t < |s.ts|
  {
    s.(ts := s.ts[t := s.ts[t].(local := l)])
  }

  function SetPhase(s: State, r: nat, p: Phase): State
    requires r < |s.ops|
  {
    s.(ops := s.ops[r := s.ops[r].(phase := p)])
  }

  function SetWire(s: State, r: nat, w: Wire): State
    requires r < |s.ops|
  {
    s.(ops := s.ops[r := s.ops[r].(wire := w)])
  }

  function SetSlot(s: State, t: nat, c: Option<Copy>): State
    requires t < |s.ts|
  {
    s.(ts := s.ts[t := s.ts[t].(slot := c)])
  }

  function SetHandler(s: State, h: nat, x: Handler): State
    requires h < |s.handlers|
  {
    s.(handlers := s.handlers[h := x])
  }

  /** The acknowledged message is processed: a reply resolves a future, anything else starts a handler. */
  function Receive(s: State, t: nat, c: Copy): State
    requires t < |s.ts|
  {
    if c.queue.ReplyQ? then
      SetLocal(s, t, Respond(s.ts[t].local, c.corr, c.body)).(received := s.received + multiset{c.uid})
    else s.(handlers := s.handlers + [Handler(t, c, None, Running)])
  }

  function DepositReply(cfg: Config, s: State, h: nat): State
    requires h < |s.handlers| && s.handlers[h].result.Some?
  {
    var x := s.handlers[h];
    Deposit(s, ReplyQueues(cfg, s, h), x.copy.corr, x.copy.replyTo, x.result.value)
  }

  function ApplyEndPublishing(s: State, r: nat, p: Publish, task: CurrentTask): State
    requires IsOp(s, r)
  {
    var op, l := s.ops[r], LocalOf(s, r);
    if op.kind.Request? then
      SetPhase(SetLocal(s, op.t, EndPublish(l, r, p, task)), r,
        match VerdictOf(p, task)
        case Wait => Waiting
        case Unroutable => Finished(NoRoute)
        case Interrupted => Finished(Aborted))
    else
      SetPhase(SetLocal(s, op.t, Unlock(if Sweeps(p, task) then Sweep(l) else l)), r,
        Finished(NotificationOutcome(p, task)))
  }

  function TakeLock(s: State, r: nat): State
    requires IsOp(s, r)
  {
    var l := Lock(LocalOf(s, r), r);
    var l' := if s.ops[r].kind.Request? then Register(l, r) else l;
    SetWire(SetPhase(SetLocal(s, s.ops[r].t, l'), r, Publishing), r, OnWire)
  }

  function Leave(s: State, r: nat, e: WaitEnd): State
    requires IsOp(s, r)
  {
    SetPhase(SetLocal(s, s.ops[r].t, Abandon(LocalOf(s, r), r)), r, Leaving(e))
  }

  function WakeUp(s: State, r: nat): State
    requires IsOp(s, r)
  {
    var e := if s.ops[r].phase.Leaving? then s.ops[r].phase.end else Done;
    SetPhase(SetLocal(s, s.ops[r].t, Forget(LocalOf(s, r), r)), r,
      Finished(OutcomeOf(FutureOf(LocalOf(s, r), r), e)))
  }

  function RouteOut(cfg: Config, s: State, r: nat): State
    requires IsOp(s, r)
  {
    var qs := OpQueues(cfg, s, r);
    if qs == [] then SetWire(s, r, Refused)
    else Deposit(SetWire(s, r, Accepted), qs, r, s.ops[r].t, s.ops[r].body)
  }

  /** The slot's copy is acknowledged; if the acknowledgement is lost, the broker keeps the copy too. */
  function TakeSlot(s: State, t: nat, ackLost: bool): State
    requires HasSlot(s, t)
  {
    var c := s.ts[t].slot.value;
    var s1 := SetSlot(s, t, None);
    Receive(if ackLost then s1.(ready := [c] + s.ready, lostAcks := s.lostAcks + multiset{c.uid}) else s1, t, c)
  }

  function SendReply(cfg: Config, s: State, h: nat): State
    requires IsHandler(s, h) && s.handlers[h].result.Some?
  {
    SetHandler(DepositReply(cfg, s, h), h, s.handlers[h].(st := Ended))
  }

  /** Any failure to publish a reply gives up on the requests its own instance has in flight. */
  function BreakReply(cfg: Config, s: State, h: nat, accepted: bool): State
    requires IsHandler(s, h) && s.handlers[h].result.Some?
  {
    var s1 := if accepted then DepositReply(cfg, s, h) else s;
    SetHandler(SetLocal(s1, s.handlers[h].t, Sweep(s.ts[s.handlers[h].t].local)), h, s.handlers[h].(st := Ended))
  }

  /** A name is registered once per kind. */
  function AddToRegistry(s: State, t: nat, kind: Subscriptions.Kind, name: string): State
    requires t < |s.ts|
  {
    var names := s.ts[t].registry;
    if name in Subscriptions.NamesOf(names, kind) then s
    else s.(ts := s.ts[t := s.ts[t].(registry := Subscriptions.AddName(names, kind, name))])
  }

  function Subscribe(s: State, t: nat, q: QueueId): State
    requires t < |s.ts|
  {
    s.(ts := s.ts[t := s.ts[t].(consumes := s.ts[t].consumes + {q}, served := s.ts[t].served + {q})])
  }

  function Unsubscribe(s: State, t: nat, q: QueueId): State
    requires t < |s.ts|
  {
    s.(ts := s.ts[t := s.ts[t].(consumes := s.ts[t].consumes - {q})])
  }

  function Apply(cfg: Config, s: State, a: Action): State
    requires Enabled(cfg, s, a)
  {
    match a
    case Start(t, kind, name, body, timed) =>
      s.(ops := s.ops + [Op(t, kind, name, body, timed, Queued, Unpublished)])
    case GiveUp(r) => SetPhase(s, r, Finished(Aborted))
    case Acquire(r) => TakeLock(s, r)
    case EndPublishing(r, p, task) => ApplyEndPublishing(s, r, p, task)
    case Expire(r) => Leave(s, r, Deadline)
    case CancelWait(r) => Leave(s, r, TaskCancelled)
    case Wake(r) => WakeUp(s, r)
    case Route(r) => RouteOut(cfg, s, r)
    case Deliver(i, t) => SetSlot(s.(ready := RemoveAt(s.ready, i)), t, Some(s.ready[i]))
    case Requeue(t) => SetSlot(s.(ready := [s.ts[t].slot.value] + s.ready), t, None)
    case Drop(i) => s.(ready := RemoveAt(s.ready, i), dropped := s.dropped + multiset{s.ready[i].uid})
    case Close(t) => SetLocal(s, t, Sweep(s.ts[t].local))
    case RegisterName(t, kind, name) => AddToRegistry(s, t, kind, name)
    case Declare(q) => if q in s.queues then s else s.(queues := s.queues + [q])
    case Undeclare(i) => s.(queues := RemoveAt(s.queues, i))
    case Consume(t, q) => Subscribe(s, t, q)
    case CancelConsumer(t, q) => Unsubscribe(s, t, q)
    case Ack(t) => TakeSlot(s, t, false)
    case AckLost(t) => TakeSlot(s, t, true)
    case Complete(h, body) => SetHandler(s, h, s.handlers[h].(result := Some(body), st := Replying))
    case Crash(h) => SetHandler(s, h, s.handlers[h].(st := Ended))
    case Reply(h) => SendReply(cfg, s, h)
    case ReplyBroken(h, accepted) => BreakReply(cfg, s, h, accepted)
  }

  // ---- Runs -----------------------------------------------------------------------------------------

  predicate InitInstance(i: Instance)
  {
    i.local == IDLE && i.slot.None? && i.consumes == {} && i.served == {}
    && i.registry == Subscriptions.NO_NAMES
  }

  /** Transports just constructed; nothing published, nothing declared. */
  predicate Init(s: State)
  {
    && (forall t :: 0 <= t < |s.ts| ==> InitInstance(s.ts[t]))
    && s.ops == [] && s.queues == [] && s.ready == [] && s.handlers == []
    && s.nextUid == 0 && s.received == multiset{} && s.lostAcks == multiset{} && s.dropped == multiset{}
  }

  predicate Step(cfg: Config, s: State, a: Action, s': State)
  {
    Enabled(cfg, s, a) && s' == Apply(cfg, s, a)
  }

  /** A finite run: the states it passes through and the actions between them. */
  ghost predicate Run(cfg: Config, ss: seq<State>, acts: seq<Action>)
  {
    && ConfigOk(cfg)
    && |ss| == |acts| + 1
    && Init(ss[0])
    && forall i :: 0 <= i < |acts| ==> Step(cfg, ss[i], acts[i], ss[i + 1])
  }
}
