/**
  A fleet at work: task bodies calling each other over the protocol, without faults.

  On top of the protocol's state every client and every started handler runs a task body.  A body's
  call pushes a hop and starts a request; when the request is finished the body resumes with its
  decoded outcome.  The only protocol actions here are the ones of a healthy system, in any
  interleaving, with one prefetch slot per instance.
 */
module Network {
  import opened Wrappers
  import opened InFlight
  import opened Protocol
  import opened Tasks
  import opened Codecs
  import Topic

  datatype Fleet = Fleet(cfg: Config, program: Program, codec: Codec)

  datatype Pid = Client(i: nat) | Worker(h: nat)

  datatype Status = Active | Calling(r: nat) | Stopped

  /** A running body: where it runs, the chain it was called with, and the outcomes of its calls so far. */
  datatype Proc = Proc(t: nat, chain: Chain, inHandler: bool, script: Script, results: seq<Res>, st: Status)

  /** `owners[r]` is the body whose call publish `r` is; `workers[h]` is the body handler `h` runs. */
  datatype Net = Net(s: State, clients: seq<Proc>, workers: seq<Proc>, owners: seq<Pid>)

  datatype Move =
    | Invoke(pid: Pid)    // a call within the depth allowed
    | Refuse(pid: Pid)    // a call stopped by the depth guard
    | Resume(pid: Pid)    // the request of a call is finished
    | Conclude(h: nat)    // a handler's body ends: the response is encoded
    | Infra(a: Action)    // transports and broker

  predicate IsProc(n: Net, pid: Pid)
  {
    match pid
    case Client(i) => i < |n.clients|
    case Worker(h) => h < |n.workers|
  }

  function ProcOf(n: Net, pid: Pid): Proc
    requires IsProc(n, pid)
  {
    match pid
    case Client(i) => n.clients[i]
    case Worker(h) => n.workers[h]
  }

  function SetProc(n: Net, pid: Pid, x: Proc): Net
    requires IsProc(n, pid)
  {
    match pid
    case Client(i) => n.(clients := n.clients[i := x])
    case Worker(h) => n.(workers := n.workers[h := x])
  }

  function ActOf(x: Proc): (a: Act)
    ensures a.Call? ==> |x.results| < x.script.calls
  {
    NextAct(x.script, x.results)
  }

  function HopOf(x: Proc, task: string): Hop { NextHop(x.chain, x.inHandler, task) }

  function StartOf(f: Fleet, x: Proc, task: string, arg: Value): Action
  {
    Start(x.t, Topic.Request, task, f.codec.encodeCall(CallContent(arg, x.chain + [HopOf(x, task)])), false)
  }

  predicate Healthy(a: Action)
  {
    match a
    case Acquire(_) => true
    case Route(_) => true
    case EndPublishing(_, p, _) => p.Confirmed? || p.Returned?
    case Wake(_) => true
    case Deliver(_, _) => true
    case Ack(_) => true
    case Reply(_) => true
    case _ => false
  }

  /** What the stub makes of a finished request. */
  function Interpreted(f: Fleet, o: Outcome): Res
  {
    match o
    case Answered(b) => Decoded(f.codec, b)
    case NoRoute => Unserved()
    case ConnectionLost => Err(Exc(LostConnection, None))
    case TimedOut => Err(Exc(Timeout, None))
    case Aborted => Err(Exc(Cancellation, None))
    case Sent => Err(Exc(EmptyResponse, None))
  }

  predicate MoveEnabled(f: Fleet, n: Net, m: Move)
  {
    match m
    case Invoke(pid) =>
      && IsProc(n, pid) && ProcOf(n, pid).st.Active? && ActOf(ProcOf(n, pid)).Call?
      && |ProcOf(n, pid).chain| < f.program.maxDepth && ProcOf(n, pid).t < |n.s.ts|
    case Refuse(pid) =>
      && IsProc(n, pid) && ProcOf(n, pid).st.Active? && ActOf(ProcOf(n, pid)).Call?
      && |ProcOf(n, pid).chain| >= f.program.maxDepth
    case Resume(pid) =>
      && IsProc(n, pid) && ProcOf(n, pid).st.Calling? && ProcOf(n, pid).st.r < |n.s.ops|
      && n.s.ops[ProcOf(n, pid).st.r].phase.Finished?
    case Conclude(h) =>
      && h < |n.workers| && n.workers[h].st.Active? && !ActOf(n.workers[h]).Call?
      && IsHandler(n.s, h) && n.s.handlers[h].st.Running? && n.s.handlers[h].copy.queue.RequestQ?
    case Infra(a) => Healthy(a) && Enabled(f.cfg, n.s, a)
  }

  /** The body a handler runs: decode the content, look the name up, install the received chain. */
  function NewWorker(f: Fleet, t: nat, c: Copy): Proc
  {
    var call := f.codec.decodeCall(c.body);
    if c.queue.RequestQ? && c.queue.name in f.program.tasks then
      Proc(t, call.chain, true, f.program.tasks[c.queue.name](call.arg), [], Active)
    else
      Proc(t, call.chain, true, RawScript((h: seq<Seen>) => Raise(NotServed), 0), [], Stopped)
  }

  function Response(n: Net, h: nat): Res
    requires h < |n.workers| && !ActOf(n.workers[h]).Call?
  {
    Attach(EndOf(ActOf(n.workers[h]), n.workers[h].results), n.workers[h].chain)
  }

  function WithResult(x: Proc, r: Res): Proc { x.(results := x.results + [r], st := Active) }

  function ApplyMove(f: Fleet, n: Net, m: Move): Net
    requires MoveEnabled(f, n, m)
  {
    match m
    case Invoke(pid) =>
      var x := ProcOf(n, pid);
      var a := ActOf(x);
      SetProc(n, pid, x.(st := Calling(|n.s.ops|))).(
        s := Apply(f.cfg, n.s, StartOf(f, x, a.task, a.arg)), owners := n.owners + [pid])
    case Refuse(pid) => SetProc(n, pid, WithResult(ProcOf(n, pid), TooDeep()))
    case Resume(pid) =>
      var x := ProcOf(n, pid);
      SetProc(n, pid, WithResult(x, Interpreted(f, n.s.ops[x.st.r].phase.outcome)))
    case Conclude(h) =>
      SetProc(n, Worker(h), n.workers[h].(st := Stopped)).(
        s := Apply(f.cfg, n.s, Complete(h, f.codec.encodeResult(Response(n, h)))))
    case Infra(a) =>
      var s' := Apply(f.cfg, n.s, a);
      if a.Ack? && !n.s.ts[a.t].slot.value.queue.ReplyQ?
      then n.(s := s', workers := n.workers + [NewWorker(f, a.t, n.s.ts[a.t].slot.value)])
      else n.(s := s')
  }

  // ---- Start of a run -------------------------------------------------------------------------------

  /** Every served name has a queue and a live consumer, every instance its reply queue; nothing else is bound. */
  ghost predicate Wired(f: Fleet, s: State)
  {
    && (forall i :: 0 <= i < |s.queues| ==>
          PlainName(s.queues[i])
          && (s.queues[i].ReplyQ? ==> s.queues[i].instance < |s.ts|)
          && (s.queues[i].RequestQ? ==> s.queues[i].name in f.program.tasks)
          && !s.queues[i].EventQ? && !s.queues[i].BroadcastQ?)
    && (forall i, j :: 0 <= i < j < |s.queues| ==> s.queues[i] != s.queues[j])
    && (forall name :: name in f.program.tasks ==> RequestQ(name) in s.queues && Consumed(s, RequestQ(name)))
    && (forall t :: 0 <= t < |s.ts| ==> ReplyQ(t) in s.queues && ReplyQ(t) in s.ts[t].consumes)
  }

  ghost predicate Consumed(s: State, q: QueueId)
  {
    exists t :: 0 <= t < |s.ts| && q in s.ts[t].consumes
  }

  predicate IdleInstance(t: nat, i: Instance)
  {
    && i.local == IDLE && i.slot.None? && i.consumes <= i.served
    && forall q :: q in i.served ==> ExclusiveTo(q, t) && Registered(i.registry, q)
  }

  /** The fleet is activated and connected; clients are about to run; nothing was sent yet. */
  ghost predicate NetInit(f: Fleet, n: Net)
  {
    && ConfigOk(f.cfg) && Lossless(f.codec) && Wired(f, n.s)
    && (forall t :: 0 <= t < |n.s.ts| ==> IdleInstance(t, n.s.ts[t]))
    && n.s.ops == [] && n.s.ready == [] && n.s.handlers == []
    && n.workers == [] && n.owners == []
    && forall i :: 0 <= i < |n.clients| ==> NewClient(n, n.clients[i])
  }

  predicate NewClient(n: Net, x: Proc)
  {
    x.t < |n.s.ts| && x.chain == [] && !x.inHandler && x.results == [] && x.st.Active?
  }

  ghost predicate NetRun(f: Fleet, ns: seq<Net>, ms: seq<Move>)
  {
    && |ns| == |ms| + 1
    && NetInit(f, ns[0])
    && forall i :: 0 <= i < |ms| ==> MoveEnabled(f, ns[i], ms[i]) && ns[i + 1] == ApplyMove(f, ns[i], ms[i])
  }

  /** A body has come to its end. */
  predicate Over(x: Proc) { x.st.Active? && !ActOf(x).Call? }

  /** What a body that is over gives. */
  function Conclusion(x: Proc): Res
    requires Over(x)
  {
    EndOf(ActOf(x), x.results)
  }
}
