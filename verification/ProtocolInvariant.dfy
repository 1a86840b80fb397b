/**
  The inductive invariant of the protocol: it holds initially and every action keeps it.
 */
module ProtocolInvariant {
  import opened Wrappers
  import opened InFlight
  import opened Protocol

  /** A request that still waits, or will wait, for its future. */
  predicate Live(p: Phase) { p.Publishing? || p.Waiting? || p.Leaving? }

  /** Handler `h` ran the callback registered for request `r`'s name on `r`'s own content and gave `b`. */
  predicate ProducedBy(s: State, h: nat, r: nat, b: Bytes)
  {
    && h < |s.handlers| && r < |s.ops|
    && var x := s.handlers[h];
    && x.copy.queue == RequestQ(s.ops[r].name)
    && x.copy.corr == r && x.copy.body == s.ops[r].body
    && x.result == Some(b)
    && x.t < |s.ts| && RequestQ(s.ops[r].name) in s.ts[x.t].served
  }

  ghost predicate Produced(s: State, r: nat, b: Bytes)
  {
    exists h: nat :: ProducedBy(s, h, r, b)
  }

  /** A copy in a request, event or broadcast queue carries the publish it claims to, under its name. */
  predicate Carries(op: Op, c: Copy)
  {
    && op.wire.Accepted? && c.body == op.body && c.replyTo == op.t
    && match c.queue
       case RequestQ(n) => op.kind.Request? && n == op.name
       case EventQ(n) => op.kind.Event? && n == op.name
       case BroadcastQ(_, n) => op.kind.Broadcast? && n == op.name
       case ReplyQ(_) => false
  }

  ghost predicate CopyOk(s: State, c: Copy)
  {
    && c.uid < s.nextUid && c.corr < |s.ops|
    && if c.queue.ReplyQ?
       then s.ops[c.corr].wire.Accepted? && s.ops[c.corr].kind.Request?
            && c.queue.instance == s.ops[c.corr].t && Produced(s, c.corr, c.body)
       else Carries(s.ops[c.corr], c)
  }

  ghost predicate HandlerOk(s: State, x: Handler)
  {
    && x.t < |s.ts| && CopyOk(s, x.copy) && !x.copy.queue.ReplyQ?
    && x.copy.queue in s.ts[x.t].served
    && (x.result.Some? ==> x.copy.queue.RequestQ?)
    && (x.st.Running? ==> x.result.None?)
  }

  ghost predicate FutureOk(s: State, t: nat, id: Id, f: Fut)
  {
    && id < |s.ops| && s.ops[id].t == t && s.ops[id].kind.Request? && !s.ops[id].phase.Queued?
    && (f.Result? ==> Produced(s, id, f.body))
  }

  ghost predicate InstanceOk(s: State, t: nat, i: Instance)
  {
    && WellFormed(i.local)
    && i.consumes <= i.served
    && (forall q :: q in i.served ==> ExclusiveTo(q, t))
    && (i.slot.Some? ==> CopyOk(s, i.slot.value) && i.slot.value.queue in i.served)
    && (forall id :: id in i.local.futures ==> FutureOk(s, t, id, i.local.futures[id]))
    && (forall id :: id in i.local.awaiting ==> id < |s.ops| && Live(s.ops[id].phase))
    && (i.local.lock.Some? ==>
          var r := i.local.lock.value; r < |s.ops| && s.ops[r].t == t && s.ops[r].phase.Publishing?)
  }

  ghost predicate OpOk(s: State, r: nat, op: Op)
  {
    && op.t < |s.ts|
    && (op.phase.Queued? ==> op.wire.Unpublished?)
    && (op.wire.Unpublished? ==> op.phase.Queued? || op.phase == Finished(Aborted))
    && (op.phase.Publishing? ==> s.ts[op.t].local.lock == Some(r))
    && (op.phase.Leaving? ==> !op.phase.end.Done? && (op.phase.end.Deadline? ==> op.timed))
    && (op.phase.Waiting? || op.phase.Leaving? ==> op.kind.Request?)
    && (op.kind.Request? && Live(op.phase) ==>
          var l := s.ts[op.t].local;
          r in l.futures && (l.futures[r].Pending? ==> r in l.awaiting && !op.phase.Leaving?)
          && (l.futures[r].Cancelled? ==> op.phase.Leaving?))
    && (op.phase.Finished? ==>
          match op.phase.outcome
          case Answered(b) => op.kind.Request? && Produced(s, r, b)
          case NoRoute => op.kind.Request? && op.wire.Refused?
          case TimedOut => op.kind.Request? && op.timed
          case Sent => !op.kind.Request?
          case _ => true)
  }

  predicate QueuesOk(s: State)
  {
    && (forall i :: 0 <= i < |s.queues| ==> PlainName(s.queues[i]))
    && (forall i, j :: 0 <= i < j < |s.queues| ==> s.queues[i] != s.queues[j])
  }

  ghost predicate OpsOk(s: State)
  {
    forall r :: 0 <= r < |s.ops| ==> OpOk(s, r, s.ops[r])
  }

  ghost predicate InstancesOk(s: State)
  {
    forall t :: 0 <= t < |s.ts| ==> InstanceOk(s, t, s.ts[t])
  }

  ghost predicate ReadyOk(s: State)
  {
    forall i :: 0 <= i < |s.ready| ==> CopyOk(s, s.ready[i])
  }

  ghost predicate HandlersOk(s: State)
  {
    forall h :: 0 <= h < |s.handlers| ==> HandlerOk(s, s.handlers[h])
  }

  ghost predicate Inv(s: State)
  {
    QueuesOk(s) && OpsOk(s) && InstancesOk(s) && ReadyOk(s) && HandlersOk(s)
  }

  // ---- What never changes ---------------------------------------------------------------------------

  predicate OpExtends(a: Op, b: Op)
  {
    && a.t == b.t && a.kind == b.kind && a.name == b.name && a.body == b.body && a.timed == b.timed
    && (a.wire.Accepted? ==> b.wire.Accepted?)
    && (a.wire.Refused? ==> b.wire.Refused?)
    && (!a.phase.Queued? ==> !b.phase.Queued?)
    && (a.phase.Finished? ==> b.phase == a.phase)
  }

  predicate HandlerExtends(a: Handler, b: Handler)
  {
    && a.t == b.t && a.copy == b.copy && (a.result.Some? ==> b.result == a.result)
  }

  /** Publishes, handlers, their results and outcomes, once there, stay. */
  ghost predicate Extends(a: State, b: State)
  {
    && |a.ts| == |b.ts| && |a.ops| <= |b.ops| && |a.handlers| <= |b.handlers| && a.nextUid <= b.nextUid
    && (forall t :: 0 <= t < |a.ts| ==> a.ts[t].served <= b.ts[t].served)
    && (forall r :: 0 <= r < |a.ops| ==> OpExtends(a.ops[r], b.ops[r]))
    && (forall h :: 0 <= h < |a.handlers| ==> HandlerExtends(a.handlers[h], b.handlers[h]))
  }

  lemma ProducedStays(a: State, b: State, r: nat, x: Bytes)
    requires Extends(a, b) && Produced(a, r, x)
    ensures Produced(b, r, x)
  {
    var h: nat :| ProducedBy(a, h, r, x);
    assert HandlerExtends(a.handlers[h], b.handlers[h]) && OpExtends(a.ops[r], b.ops[r]);
    assert a.ts[a.handlers[h].t].served <= b.ts[a.handlers[h].t].served;
    assert ProducedBy(b, h, r, x);
  }

  lemma CopyStays(a: State, b: State, c: Copy)
    requires Extends(a, b) && CopyOk(a, c)
    ensures CopyOk(b, c)
  {
    assert OpExtends(a.ops[c.corr], b.ops[c.corr]);
    if c.queue.ReplyQ? { ProducedStays(a, b, c.corr, c.body); }
  }

  lemma HandlerStays(a: State, b: State, x: Handler)
    requires Extends(a, b) && HandlerOk(a, x)
    ensures HandlerOk(b, x)
  {
    CopyStays(a, b, x.copy);
    assert a.ts[x.t].served <= b.ts[x.t].served;
  }

  lemma FutureStays(a: State, b: State, t: nat, id: Id, f: Fut)
    requires Extends(a, b) && FutureOk(a, t, id, f)
    ensures FutureOk(b, t, id, f)
  {
    assert OpExtends(a.ops[id], b.ops[id]);
    if f.Result? { ProducedStays(a, b, id, f.body); }
  }

  lemma InitInv(s: State)
    requires Init(s)
    ensures Inv(s)
  {
    forall t | 0 <= t < |s.ts| ensures InstanceOk(s, t, s.ts[t]) { assert InitInstance(s.ts[t]); }
  }
}
