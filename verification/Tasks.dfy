/**
  Task bodies and what calling a task means.

  A body is a deterministic coroutine that interacts with the world only by calling other tasks, so
  it is given by what it does next after each history of call outcomes.  `EvalTask` evaluates a call
  by direct recursion, the way the call would run with no network in between: the chain of hops is
  handed down, the depth guard is checked at every call, and an exception that leaves a body for the
  first time gets the chain attached.
 */
module Tasks {
  import opened Wrappers

  type Value = int

  /** What a task body can tell an exception by. */
  datatype Fault =
    | User(code: int)
    | StackTooDeep        // the depth guard of `push_hop`
    | NotServed           // no task of that name: `NoRouteError` over AMQP, `UnknownRequestName` in loopback
    | EmptyResponse       // `TransportError`
    | LostConnection
    | Timeout
    | Cancellation
    | NoException         // a `raise` of something that is not an exception

  /** One atask call of a chain: its position, the task called, and whether no handler encloses it. */
  datatype Hop = Hop(seqNo: nat, task: string, isRoot: bool)

  type Chain = seq<Hop>

  /** An exception with the trace attached to it, if any. */
  datatype Exc = Exc(fault: Fault, trace: Option<Chain>)

  datatype Res = Ok(value: Value) | Err(exc: Exc)

  /** The outcome of a call as the calling body sees it. */
  datatype Seen = Gave(value: Value) | Raised(fault: Fault)

  function SeenOf(r: Res): Seen
  {
    match r
    case Ok(v) => Gave(v)
    case Err(e) => Raised(e.fault)
  }

  function SeenAll(rs: seq<Res>): (ss: seq<Seen>)
    ensures |ss| == |rs|
  {
    seq(|rs|, i requires 0 <= i < |rs| => SeenOf(rs[i]))
  }

  /** What a body does next: call a task, or end by returning, raising anew, or re-raising a caught exception. */
  datatype Act =
    | Return(value: Value)
    | Raise(fault: Fault)
    | Reraise(call: nat)
    | Call(task: string, arg: Value)

  /** A body with its argument bound.  It makes at most `calls` calls. */
  datatype RawScript = RawScript(next: seq<Seen> -> Act, calls: nat)

  ghost predicate Halts(s: RawScript)
  {
    forall h: seq<Seen> :: |h| >= s.calls ==> !s.next(h).Call?
  }

  lemma ReturningHalts()
    ensures Halts(RawScript((h: seq<Seen>) => Return(0), 0))
  {
  }

  type Script = s: RawScript | Halts(s) witness (ReturningHalts(); RawScript((h: seq<Seen>) => Return(0), 0))

  /** The tasks a fleet serves and the depth its routers allow. */
  datatype Program = Program(tasks: map<string, Value -> Script>, maxDepth: int)

  function NextAct(s: Script, rs: seq<Res>): (a: Act)
    ensures a.Call? ==> |rs| < s.calls
  {
    s.next(SeenAll(rs))
  }

  /** How a body that makes no further call ends. */
  function EndOf(a: Act, rs: seq<Res>): Res
    requires !a.Call?
  {
    match a
    case Return(v) => Ok(v)
    case Raise(f) => Err(Exc(f, None))
    case Reraise(i) => if i < |rs| && rs[i].Err? then rs[i] else Err(Exc(NoException, None))
  }

  /** The hop for a call of `task` after `chain`, made inside a handler or not. */
  function NextHop(chain: Chain, inHandler: bool, task: string): Hop
  {
    Hop(|chain|, task, !inHandler)
  }

  /** Attach the chain to an exception that carries no trace yet. */
  function Attach(r: Res, chain: Chain): Res
  {
    if r.Err? && r.exc.trace.None? then Err(r.exc.(trace := Some(chain))) else r
  }

  function TooDeep(): Res { Err(Exc(StackTooDeep, None)) }

  function Unserved(): Res { Err(Exc(NotServed, None)) }

  ghost function Max0(n: int): nat { if n < 0 then 0 else n }

  /** Run a body to its end, given the outcomes of the calls it has made. */
  ghost function EvalBody(p: Program, chain: Chain, inHandler: bool, s: Script, rs: seq<Res>): Res
    decreases Max0(p.maxDepth - |chain|), 1, Max0(s.calls - |rs|)
  {
    var a := NextAct(s, rs);
    if a.Call? then
      EvalBody(p, chain, inHandler, s, rs + [EvalCall(p, chain, inHandler, a.task, a.arg)])
    else EndOf(a, rs)
  }

  /** A call through a stub. */
  ghost function EvalCall(p: Program, chain: Chain, inHandler: bool, task: string, arg: Value): Res
    decreases Max0(p.maxDepth - |chain|), 0, 1
  {
    if |chain| >= p.maxDepth then TooDeep()
    else EvalTask(p, chain + [NextHop(chain, inHandler, task)], task, arg)
  }

  /** A task run by a handler that received `chain` with the call. */
  ghost function EvalTask(p: Program, chain: Chain, task: string, arg: Value): Res
    decreases Max0(p.maxDepth - |chain|), 2, 0
  {
    if task in p.tasks then Attach(EvalBody(p, chain, true, p.tasks[task](arg), []), chain) else Unserved()
  }
}
