/**
  Running tasks over the loopback transport, in the form the library runs them.

  Over loopback a nested call runs in the caller's own task, so the two context variables - the chain
  of the running call and the entry frame of the innermost handler - are set and restored in place.
  The methods follow the router, the trace module and the transport; together they are proved to
  compute the direct evaluation of `Tasks` and to leave the context as they found it.
 */
module Loopback {
  import opened Wrappers
  import opened Tasks
  import opened Codecs
  import opened InFlight

  class Runtime {
    const program: Program
    const codec: Codec
    /** The context variables `CURRENT` and `ENTRY_FRAME`; frames are numbered as they are entered. */
    var current: Chain
    var entryFrame: Option<nat>
    var frames: nat

    constructor (program: Program, codec: Codec)
      ensures this.program == program && this.codec == codec && current == [] && entryFrame == None
    {
      this.program, this.codec := program, codec;
      current, entryFrame, frames := [], None, 0;
    }

    /** trace.py:334-370; `None` stands for the error of the depth guard. */
    method PushHop(task: string) returns (chain: Option<Chain>)
      ensures chain == if |current| >= program.maxDepth then None
                       else Some(current + [NextHop(current, entryFrame.Some?, task)])
      ensures chain.Some? ==>
                && |chain.value| == |current| + 1 && chain.value[..|current|] == current
                && var hop := chain.value[|current|];
                   hop.seqNo == |current| && hop.task == task && (hop.isRoot <==> entryFrame.None?)
    {
      if |current| >= program.maxDepth {
        return None;
      }
      return Some(current + [Hop(|current|, task, entryFrame.None?)]);
    }

    method Enter(chain: Chain) returns (token: Chain)
      modifies this`current
      ensures current == chain && token == old(current)
    {
      token := current;
      current := chain;
    }

    method Leave(token: Chain)
      modifies this`current
      ensures current == token
    {
      current := token;
    }

    /** trace.py:387-403: a no-op on an exception that already carries a trace. */
    method AttachTrace(e: Exc) returns (e': Exc)
      ensures Err(e') == Attach(Err(e), current)
    {
      if e.trace.Some? {
        return e;
      }
      return e.(trace := Some(current));
    }

    /** The stub of a registered task, or a light reference to it: push a hop, then send (router.py:482-487). */
    method Stub(task: string, arg: Value) returns (r: Res)
      requires Lossless(codec)
      modifies this
      ensures r == EvalCall(program, old(current), old(entryFrame).Some?, task, arg)
      ensures current == old(current) && entryFrame == old(entryFrame)
      decreases Max0(program.maxDepth - |current|), 0
    {
      var chain := PushHop(task);
      if chain.None? {
        return TooDeep();
      }
      r := SendRequest(task, arg, chain.value);
    }

    /** router.py:255-265 */
    method SendRequest(task: string, arg: Value, chain: Chain) returns (r: Res)
      requires Lossless(codec)
      modifies this
      ensures r == EvalTask(program, chain, task, arg)
      ensures current == old(current) && entryFrame == old(entryFrame)
      decreases Max0(program.maxDepth - |chain|), 5
    {
      var response := Deliver(task, codec.encodeCall(CallContent(arg, chain)));
      if response.None? {
        return Unserved();
      }
      if response.value == [] {
        return Err(Exc(EmptyResponse, None));
      }
      r := codec.decodeResult(response.value);
    }

    /** base.py:313-329; `None` stands for `UnknownRequestName`. */
    method Deliver(task: string, content: Bytes) returns (response: Option<Bytes>)
      requires Lossless(codec)
      modifies this
      ensures var c := codec.decodeCall(content);
              response == if task in program.tasks
                          then Some(codec.encodeResult(EvalTask(program, c.chain, task, c.arg))) else None
      ensures current == old(current) && entryFrame == old(entryFrame)
      decreases Max0(program.maxDepth - |codec.decodeCall(content).chain|), 4
    {
      if task !in program.tasks {
        return None;
      }
      var r := OnRequest(task, content);
      response := Some(r);
    }

    /** router.py:345-365 */
    method OnRequest(task: string, content: Bytes) returns (response: Bytes)
      requires Lossless(codec) && task in program.tasks
      modifies this
      ensures var c := codec.decodeCall(content);
              response == codec.encodeResult(EvalTask(program, c.chain, task, c.arg))
      ensures current == old(current) && entryFrame == old(entryFrame)
      decreases Max0(program.maxDepth - |codec.decodeCall(content).chain|), 3
    {
      var call := codec.decodeCall(content);
      var token := Enter(call.chain);
      var r := CallCoro(program.tasks[task](call.arg));
      Leave(token);
      response := codec.encodeResult(r);
    }

    /** router.py:447-456 */
    method CallCoro(body: Script) returns (r: Res)
      requires Lossless(codec)
      modifies this
      ensures r == Attach(EvalBody(program, old(current), true, body, []), old(current))
      ensures current == old(current) && entryFrame == old(entryFrame)
      decreases Max0(program.maxDepth - |current|), 2
    {
      var token := entryFrame;
      entryFrame := Some(frames);
      frames := frames + 1;
      r := RunBody(body);
      if r.Err? {
        var e := AttachTrace(r.exc);
        r := Err(e);
      }
      entryFrame := token;
    }

    /** A body runs from call to call, seeing each outcome, until it ends. */
    method RunBody(body: Script) returns (r: Res)
      requires Lossless(codec)
      modifies this
      ensures r == EvalBody(program, old(current), old(entryFrame).Some?, body, [])
      ensures current == old(current) && entryFrame == old(entryFrame)
      decreases Max0(program.maxDepth - |current|), 1
    {
      var results: seq<Res> := [];
      var act := NextAct(body, results);
      while act.Call?
        invariant act == NextAct(body, results)
        invariant current == old(current) && entryFrame == old(entryFrame)
        invariant EvalBody(program, current, entryFrame.Some?, body, results)
                  == EvalBody(program, current, entryFrame.Some?, body, [])
        decreases Max0(body.calls - |results|)
      {
        var outcome := Stub(act.task, act.arg);
        results := results + [outcome];
        act := NextAct(body, results);
      }
      r := EndOf(act, results);
    }
  }
}
