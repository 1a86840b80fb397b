/**
  What one transport knows about the requests it has in flight: the futures it created, the map
  `_awaiting_requests` from correlation ids to pending futures, and the lock that serialises publishing.

  Every function below is one atomic segment (code between two `await`s) of the transport, as a
  function from the old to the new state.  `AmqpTransport` performs them on the heap, `Protocol`
  interleaves them.
 */
module InFlight {
  import opened Wrappers

  type Id = nat
  type Bytes = seq<int>

  /** An asyncio future holding a response. */
  datatype Fut = Pending | Result(body: Bytes) | Lost | Cancelled

  datatype Local = Local(futures: map<Id, Fut>, awaiting: set<Id>, lock: Option<Id>)

  /** A transport just constructed. */
  const IDLE := Local(map[], {}, None)

  /** Every key of the in-flight map has a future. */
  predicate WellFormed(l: Local) { l.awaiting <= l.futures.Keys }

  /** `if not future.done(): future.set_...` */
  function Settle(f: Fut, outcome: Fut): Fut { if f.Pending? then outcome else f }

  function SettleAt(l: Local, id: Id, outcome: Fut): Local
  {
    if id in l.futures then l.(futures := l.futures[id := Settle(l.futures[id], outcome)]) else l
  }

  function FutureOf(l: Local, id: Id): Fut { if id in l.futures then l.futures[id] else Pending }

  /** The lock is obtained by the publisher `id`. */
  function Lock(l: Local, id: Id): Local { l.(lock := Some(id)) }

  function Unlock(l: Local): Local { l.(lock := None) }

  /** With the lock held: create the future and register it before publishing. */
  function Register(l: Local, id: Id): Local
  {
    l.(futures := l.futures[id := Pending], awaiting := l.awaiting + {id})
  }

  function Forget(l: Local, id: Id): Local { l.(awaiting := l.awaiting - {id}) }

  /** `_fail_awaiting_requests`: swap the map for an empty one and fail every future not yet done. */
  function Sweep(l: Local): Local
  {
    l.(futures := map id | id in l.futures ::
         if id in l.awaiting then Settle(l.futures[id], Lost) else l.futures[id],
       awaiting := {})
  }

  /** A response arrives: pop its id and resolve the future, or discard it if the id is unknown. */
  function Respond(l: Local, id: Id, body: Bytes): Local
  {
    if id in l.awaiting then Forget(SettleAt(l, id, Result(body)), id) else l
  }

  /** The deadline passes, or the waiting task is cancelled: the future is cancelled, the id stays. */
  function Abandon(l: Local, id: Id): Local
  {
    SettleAt(l, id, Cancelled)
  }

  // ---- How a publish can end ------------------------------------------------------------------------

  /** What `exchange.publish` may raise: nothing, a returned message, a cancellation, anything else. */
  datatype Publish = Confirmed | Returned | CancelledError | OtherError

  /**
    `_task_was_actually_cancelled`: the current task, if any, and its count of pending cancellation
    requests where the interpreter can tell (Python 3.11 and later).
   */
  datatype CurrentTask = NoTask | Uncountable | Counted(requests: nat)

  function WasActuallyCancelled(task: CurrentTask): bool
  {
    task.Uncountable? || (task.Counted? && task.requests > 0)
  }

  /** What the publishing segment hands on: go and wait for the future, or stop with an error. */
  datatype Verdict = Wait | Unroutable | Interrupted

  function VerdictOf(p: Publish, task: CurrentTask): Verdict
  {
    match p
    case Returned => Unroutable
    case CancelledError => if WasActuallyCancelled(task) then Interrupted else Wait
    case _ => Wait
  }

  /** Does this ending of a publish give up on every request in flight? */
  predicate Sweeps(p: Publish, task: CurrentTask)
  {
    p.OtherError? || (p.CancelledError? && !WasActuallyCancelled(task))
  }

  /** The end of a request's publishing segment, lock released. */
  function EndPublish(l: Local, id: Id, p: Publish, task: CurrentTask): Local
  {
    var l' := if Sweeps(p, task) then Sweep(l) else if VerdictOf(p, task).Wait? then l else Forget(l, id);
    Unlock(l')
  }

  // ---- How a request can end ------------------------------------------------------------------------

  /** What `send_request` returns or raises (an event or broadcast that was handed off is `Sent`). */
  datatype Outcome =
    | Answered(body: Bytes)
    | NoRoute
    | ConnectionLost
    | TimedOut
    | Aborted
    | Sent

  /** What ends the wait for the future: it is done, the deadline passed, or the task was cancelled. */
  datatype WaitEnd = Done | Deadline | TaskCancelled

  function OutcomeOf(f: Fut, e: WaitEnd): Outcome
  {
    match e
    case Deadline => TimedOut
    case TaskCancelled => Aborted
    case Done => match f { case Result(b) => Answered(b) case Lost => ConnectionLost case _ => Aborted }
  }

  /** An unroutable event or broadcast is dropped silently; a lost connection is reported. */
  function NotificationOutcome(p: Publish, task: CurrentTask): Outcome
  {
    if Sweeps(p, task) then ConnectionLost else if VerdictOf(p, task).Interrupted? then Aborted else Sent
  }

  // ---- What a sweep does ----------------------------------------------------------------------------

  /** After a sweep no registered future is left pending, nothing else changed, and a second sweep is idle. */
  lemma SweepFailsExactlyThePending(l: Local)
    requires WellFormed(l)
    ensures WellFormed(Sweep(l)) && Sweep(l).awaiting == {} && Sweep(l).lock == l.lock
    ensures Sweep(l).futures.Keys == l.futures.Keys
    ensures forall id :: id in l.futures ==>
              (Sweep(l).futures[id] != l.futures[id] <==> id in l.awaiting && l.futures[id].Pending?)
    ensures forall id :: id in l.awaiting && l.futures[id].Pending? ==> Sweep(l).futures[id] == Lost
    ensures Sweep(Sweep(l)) == Sweep(l)
  {
    var once := Sweep(l);
    assert once.futures.Keys == l.futures.Keys;
    assert Sweep(once).futures == once.futures;
  }
}
