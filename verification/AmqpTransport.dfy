/**
  The AMQP transport's in-flight bookkeeping on the heap.

  The transport keeps a dictionary from correlation ids to future objects; the waiting caller keeps
  its own reference to the future, so a future outlives its dictionary entry.  Each method is one
  atomic segment and is proved to perform the corresponding function of `InFlight`.
 */
module AmqpTransport {
  import opened Wrappers
  import opened InFlight

  class Future {
    var state: Fut

    constructor ()
      ensures state == Pending
    {
      state := Pending;
    }

    method SettleWith(outcome: Fut)
      modifies this
      ensures state == Settle(old(state), outcome)
    {
      if state.Pending? {
        state := outcome;
      }
    }
  }

  class Transport {
    var awaitingRequests: map<Id, Future>
    var lockedBy: Option<Id>
    /** Every future ever created here, by correlation id. */
    ghost var issued: map<Id, Future>

    ghost predicate Valid()
      reads this
    {
      && (forall id :: id in awaitingRequests ==> id in issued && issued[id] == awaitingRequests[id])
      && (forall a, b :: a in issued && b in issued && issued[a] == issued[b] ==> a == b)
    }

    ghost function View(): Local
      reads this, issued.Values
    {
      Local(map id | id in issued :: issued[id].state, awaitingRequests.Keys, lockedBy)
    }

    lemma PendingSettles()
      ensures Settle(Pending, Lost) == Lost
    {
    }

    /** A sweep, said future by future. */
    lemma SweptFutures(before: Local, after: Local)
      requires after.futures.Keys == before.futures.Keys && after.awaiting == {} && after.lock == before.lock
      requires forall id :: id in before.futures ==>
                 after.futures[id] ==
                 if id in before.awaiting then Settle(before.futures[id], Lost) else before.futures[id]
      ensures after == Sweep(before)
    {
      assert after.futures == Sweep(before).futures;
    }

    constructor ()
      ensures Valid() && View() == IDLE && issued == map[]
    {
      awaitingRequests, lockedBy, issued := map[], None, map[];
    }

    /** The lock is handed to the publisher `id` (amqp.py:361, 430, 498). */
    method Acquire(id: Id)
      requires Valid() && lockedBy == None
      modifies this`lockedBy
      ensures Valid() && View() == Lock(old(View()), id)
    {
      lockedBy := Some(id);
    }

    /** The future is registered under a new correlation id before anything is published (363-365). */
    method StartRequest(id: Id) returns (future: Future)
      requires Valid() && lockedBy == Some(id) && id !in issued
      modifies this`awaitingRequests, this`issued
      ensures Valid() && fresh(future) && issued == old(issued)[id := future]
      ensures View() == Register(old(View()), id)
    {
      future := new Future();
      awaitingRequests := awaitingRequests[id := future];
      issued := issued[id := future];
      assert View().futures == old(View()).futures[id := Pending];
    }

    /** Give up on every request in flight (228-239). */
    method FailAwaitingRequests()
      requires Valid()
      modifies this`awaitingRequests, awaitingRequests.Values
      ensures Valid() && issued == old(issued) && View() == Sweep(old(View()))
      ensures awaitingRequests == map[]
      ensures forall id :: id in old(awaitingRequests) && old(awaitingRequests[id].state) == Pending ==>
                issued[id].state == Lost
    {
      if awaitingRequests == map[] {
        assert View() == Sweep(View());
        return;
      }
      hide Settle, Sweep;
      PendingSettles();
      var pending := awaitingRequests;
      awaitingRequests := map[];
      var todo := pending.Keys;
      while todo != {}
        invariant todo <= pending.Keys && awaitingRequests == map[]
        invariant forall id :: id in issued ==>
                    issued[id].state == if id in pending && id !in todo
                                        then Settle(old(issued[id].state), Lost) else old(issued[id].state)
        decreases todo
      {
        var id :| id in todo;
        pending[id].SettleWith(Lost);
        todo := todo - {id};
      }
      SweptFutures(old(View()), View());
    }

    /** `_awaiting_requests.pop(id, None)` */
    method Pop(id: Id)
      requires Valid()
      modifies this`awaitingRequests
      ensures Valid() && View() == Forget(old(View()), id)
      ensures awaitingRequests == old(awaitingRequests) - {id}
    {
      awaitingRequests := awaitingRequests - {id};
      assert View().futures == old(View()).futures;
    }

    /** How the publishing segment of a request ends, whatever the broker library does (367-402). */
    method FinishPublish(id: Id, p: Publish, task: CurrentTask) returns (verdict: Verdict)
      requires Valid() && lockedBy == Some(id)
      modifies this`awaitingRequests, this`lockedBy, awaitingRequests.Values
      ensures Valid() && issued == old(issued)
      ensures View() == EndPublish(old(View()), id, p, task)
      ensures verdict == if p == Returned then Unroutable
                         else if p == CancelledError && (task == Uncountable || (task.Counted? && task.requests > 0))
                         then Interrupted else Wait
      ensures verdict.Wait? && p != Confirmed ==> awaitingRequests == map[]
      ensures verdict.Wait? && p != Confirmed ==>
                forall i :: i in old(awaitingRequests) && old(awaitingRequests[i].state) == Pending ==>
                  issued[i].state == Lost
      ensures lockedBy == None
    {
      hide Settle, Sweep;
      verdict := Wait;
      match p {
      case Returned =>
        Pop(id);
        verdict := Unroutable;
      case CancelledError =>
        if WasActuallyCancelled(task) {
          Pop(id);
          verdict := Interrupted;
        } else {
          FailAwaitingRequests();
        }
      case OtherError =>
        FailAwaitingRequests();
      case Confirmed =>
      }
      ghost var ended := View();
      lockedBy := None;
      assert View() == Unlock(ended);
    }

    /** A response message, already acknowledged: pop and resolve in one step (194-204). */
    method OnResponse(id: Id, body: Bytes)
      requires Valid()
      modifies this`awaitingRequests, awaitingRequests.Values
      ensures Valid() && issued == old(issued) && View() == Respond(old(View()), id, body)
    {
      if id !in awaitingRequests {
        return;
      }
      var future := awaitingRequests[id];
      awaitingRequests := awaitingRequests - {id};
      future.SettleWith(Result(body));
      assert View().futures == old(View()).futures[id := Settle(old(View()).futures[id], Result(body))];
    }

    /** The deadline of `wait_for` passes, or the waiting task is cancelled: only the future changes. */
    method AbandonWait(id: Id, future: Future)
      requires Valid() && id in issued && issued[id] == future
      modifies future
      ensures Valid() && View() == Abandon(old(View()), id)
      ensures awaitingRequests == old(awaitingRequests)
      ensures future.state == if old(future.state).Pending? then Cancelled else old(future.state)
    {
      future.SettleWith(Cancelled);
      assert View().futures == old(View()).futures[id := Settle(old(View()).futures[id], Cancelled)];
    }

    /** The waiting task wakes up; the `finally` clause pops its id on every path (403-414). */
    method FinishWait(id: Id, future: Future, e: WaitEnd) returns (outcome: Outcome)
      requires Valid() && id in issued && issued[id] == future
      requires e.Done? ==> !future.state.Pending?
      modifies this`awaitingRequests
      ensures Valid() && View() == Forget(old(View()), id)
      ensures outcome == OutcomeOf(old(View()).futures[id], e)
      ensures e.Deadline? ==> outcome == TimedOut
      ensures e.TaskCancelled? || (e.Done? && future.state == Cancelled) ==> outcome == Aborted
      ensures e.Done? && future.state.Result? ==> outcome == Answered(future.state.body)
      ensures e.Done? && future.state == Lost ==> outcome == ConnectionLost
    {
      match e {
      case Deadline => outcome := TimedOut;
      case TaskCancelled => outcome := Aborted;
      case Done =>
        match future.state {
          case Result(body) => outcome := Answered(body);
          case Lost => outcome := ConnectionLost;
          case _ => outcome := Aborted;
        }
      }
      Pop(id);
    }

    /** How publishing an event or a broadcast ends (434-450, 502-518). */
    method FinishNotification(p: Publish, task: CurrentTask) returns (outcome: Outcome)
      requires Valid() && lockedBy.Some?
      modifies this`awaitingRequests, this`lockedBy, awaitingRequests.Values
      ensures Valid() && issued == old(issued)
      ensures View() == Unlock(if Sweeps(p, task) then Sweep(old(View())) else old(View()))
      ensures outcome == if p == Confirmed || p == Returned then Sent
                         else if p == CancelledError && (task == Uncountable || (task.Counted? && task.requests > 0))
                         then Aborted else ConnectionLost
      ensures outcome.ConnectionLost? ==> awaitingRequests == map[]
      ensures outcome.ConnectionLost? ==>
                forall i :: i in old(awaitingRequests) && old(awaitingRequests[i].state) == Pending ==>
                  issued[i].state == Lost
    {
      hide Settle, Sweep;
      match p {
      case Confirmed => outcome := Sent;
      case Returned => outcome := Sent;
      case CancelledError =>
        if WasActuallyCancelled(task) {
          outcome := Aborted;
        } else {
          FailAwaitingRequests();
          outcome := ConnectionLost;
        }
      case OtherError =>
        FailAwaitingRequests();
        outcome := ConnectionLost;
      }
      ghost var ended := View();
      lockedBy := None;
      assert View() == Unlock(ended);
    }
  }
}
