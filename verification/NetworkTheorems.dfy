/**
  What a healthy fleet gives its callers: exactly what direct evaluation gives, always, in a bounded
  number of moves.
 */
module NetworkTheorems {
  import opened Wrappers
  import opened InFlight
  import opened Codecs
  import opened Protocol
  import opened ProtocolInvariant
  import opened Delivery
  import opened Tasks
  import opened Network
  import opened NetworkInvariant
  import opened NetworkPreservation
  import opened NetworkProgress
  import opened NetworkTermination

  /** A healthy fleet's moves are moves of the protocol: each is one enabled action or leaves its state alone. */
  lemma MovesAreProtocolSteps(f: Fleet, n: Net, m: Move)
    requires MoveEnabled(f, n, m)
    ensures ApplyMove(f, n, m).s == n.s || exists a :: Step(f.cfg, n.s, a, ApplyMove(f, n, m).s)
  {
    hide Apply;
    match m
    case Invoke(pid) =>
      var x := ProcOf(n, pid);
      assert Step(f.cfg, n.s, StartOf(f, x, ActOf(x).task, ActOf(x).arg), ApplyMove(f, n, m).s);
    case Conclude(h) =>
      assert Step(f.cfg, n.s, Complete(h, f.codec.encodeResult(Response(n, h))), ApplyMove(f, n, m).s);
    case Infra(a) => assert Step(f.cfg, n.s, a, ApplyMove(f, n, m).s);
    case _ =>
  }

  /**
    Under any interleaving, every call a client or a handler makes through a stub ends with exactly the
    value or exception, trace included, that direct evaluation of the task gives.
   */
  lemma StubCallsAreDirect(f: Fleet, ns: seq<Net>, ms: seq<Move>, k: nat, pid: Pid)
    requires NetRun(f, ns, ms) && k < |ms| && (ms[k] == Resume(pid) || ms[k] == Refuse(pid))
    requires IsProc(ns[k], pid) && IsProc(ns[k + 1], pid)
    ensures var x, x' := ProcOf(ns[k], pid), ProcOf(ns[k + 1], pid);
            && ActOf(x).Call? && x'.chain == x.chain && x'.script == x.script
            && x'.results == x.results + [EvalCall(f.program, x.chain, x.inHandler, ActOf(x).task, ActOf(x).arg)]
  {
    hide Inv, Wired, RequestsFine, EvalBody, Owned;
    NetRunInv(f, ns, ms, k);
    var n, goals := ns[k], Goals(f, ns[0]);
    assert MoveEnabled(f, n, ms[k]) && ns[k + 1] == ApplyMove(f, n, ms[k]);
    var x := ProcOf(n, pid);
    if ms[k] == Resume(pid) {
      ProcWasFine(f, n, goals, pid);
      OutcomeIsDirect(f, n, x);
    }
  }

  /**
    A caller can tell how its request ended: a value comes only from a non-empty answer that decodes to it, and an
    answer decodes to what was encoded; every other ending raises its own fault, without a trace.
   */
  lemma CallersCanTell(f: Fleet, o: Outcome, r: Res)
    requires Lossless(f.codec)
    ensures Interpreted(f, Answered(f.codec.encodeResult(r))) == r
    ensures Interpreted(f, o).Ok? ==> o.Answered? && o.body != [] && f.codec.decodeResult(o.body) == Interpreted(f, o)
    ensures !o.Answered? ==>
              && Interpreted(f, o).Err? && Interpreted(f, o).exc.trace.None?
              && var fault := Interpreted(f, o).exc.fault;
                 && (fault == NotServed <==> o == NoRoute) && (fault == LostConnection <==> o == ConnectionLost)
                 && (fault == Timeout <==> o == TimedOut) && (fault == Cancellation <==> o == Aborted)
    ensures Interpreted(f, Answered([])) == Err(Exc(EmptyResponse, None))
  {
  }

  /** A client that is over gave what direct evaluation of its body gives, whatever else went on. */
  lemma ClientsGetDirectResults(f: Fleet, ns: seq<Net>, ms: seq<Move>, k: nat, i: nat)
    requires NetRun(f, ns, ms) && k < |ns| && i < |ns[0].clients|
    requires i < |ns[k].clients| && Over(ns[k].clients[i])
    ensures Conclusion(ns[k].clients[i])
            == EvalBody(f.program, [], false, ns[0].clients[i].script, [])
  {
    hide Inv, Wired, RequestsFine;
    NetRunInv(f, ns, ms, k);
    assert ClientFine(f, ns[k].s, ns[k].clients[i], Goals(f, ns[0])[i]);
    assert NewClient(ns[0], ns[0].clients[i]);
    OverPromises(f, ns[k].clients[i]);
  }

  /**
    A healthy fleet always finishes: no run is longer than the work of its program, and when no move is
    left every client has its direct result.
   */
  lemma HealthyFleetsFinish(f: Fleet, ns: seq<Net>, ms: seq<Move>)
    requires NetRun(f, ns, ms)
    ensures |ms| <= Work(MOVES, f, ns[0])
    ensures var last := ns[|ms|];
            !CanMove(f, last) ==>
              |last.clients| == |ns[0].clients|
              && forall i :: 0 <= i < |last.clients| ==>
                   Over(last.clients[i])
                   && Conclusion(last.clients[i]) == EvalBody(f.program, [], false, ns[0].clients[i].script, [])
  {
    hide CanMove, Work, EvalBody;
    RunsAreBounded(f, ns, ms, |ms|);
    var last := ns[|ms|];
    ClientCount(f, ns, ms, |ms|);
    if !CanMove(f, last) {
      forall i | 0 <= i < |last.clients|
        ensures Over(last.clients[i])
                && Conclusion(last.clients[i]) == EvalBody(f.program, [], false, ns[0].clients[i].script, [])
      {
        if !Over(last.clients[i]) { NeverStuck(f, ns, ms, |ms|, i); }
        ClientsGetDirectResults(f, ns, ms, |ms|, i);
      }
    }
  }

  /** From any start there is a run to the end, so every fleet can give every client its direct result. */
  lemma EveryFleetCanFinish(f: Fleet, n: Net) returns (ns: seq<Net>, ms: seq<Move>)
    requires NetInit(f, n)
    ensures NetRun(f, ns, ms) && ns[0] == n && !CanMove(f, ns[|ms|]) && |ns[|ms|].clients| == |n.clients|
    ensures forall i :: 0 <= i < |n.clients| ==>
              Over(ns[|ms|].clients[i])
              && Conclusion(ns[|ms|].clients[i]) == EvalBody(f.program, [], false, n.clients[i].script, [])
  {
    hide CanMove, Work, EvalBody, NetInit;
    ns, ms := RunToTheEnd(f, [n], []);
    HealthyFleetsFinish(f, ns, ms);
  }

  lemma {:induction false} RunToTheEnd(f: Fleet, ns: seq<Net>, ms: seq<Move>) returns (ns': seq<Net>, ms': seq<Move>)
    requires NetRun(f, ns, ms)
    ensures NetRun(f, ns', ms') && ns'[0] == ns[0] && !CanMove(f, ns'[|ms'|])
    decreases Work(MOVES, f, ns[0]) - |ms|
  {
    hide Work, EvalBody, NetInit, MoveEnabled, ApplyMove;
    if CanMove(f, ns[|ms|]) {
      var m :| MoveEnabled(f, ns[|ms|], m);
      var n' := ApplyMove(f, ns[|ms|], m);
      assert NetRun(f, ns + [n'], ms + [m]);
      RunsAreBounded(f, ns + [n'], ms + [m], |ms| + 1);
      ns', ms' := RunToTheEnd(f, ns + [n'], ms + [m]);
    } else {
      ns', ms' := ns, ms;
    }
  }

  lemma ClientCount(f: Fleet, ns: seq<Net>, ms: seq<Move>, k: nat)
    requires NetRun(f, ns, ms) && k < |ns|
    ensures |ns[k].clients| == |ns[0].clients|
  {
    hide Inv, Wired, RequestsFine;
    NetRunInv(f, ns, ms, k);
  }

  /** No chain sent is longer than the depth the routers allow. */
  lemma ChainsStayShort(f: Fleet, ns: seq<Net>, ms: seq<Move>, k: nat, r: nat)
    requires NetRun(f, ns, ms) && k < |ns| && r < |ns[k].s.ops|
    ensures |f.codec.decodeCall(ns[k].s.ops[r].body).chain| <= f.program.maxDepth
  {
    hide Inv, Wired, ClientsFine, WorkersFine;
    NetRunInv(f, ns, ms, k);
    assert RequestFine(f, ns[k].s, r);
  }

  /** What an instance consumes stays registered: a healthy fleet's moves are moves of the protocol. */
  lemma {:induction false} NetRunIsBacked(f: Fleet, ns: seq<Net>, ms: seq<Move>, k: nat)
    requires NetRun(f, ns, ms) && k < |ns|
    ensures Backed(ns[k].s)
    decreases k
  {
    hide Wired, ConfigOk, MoveEnabled, ApplyMove, Apply, Enabled;
    if k == 0 {
      var s := ns[0].s;
      forall t | 0 <= t < |s.ts| ensures IdleInstance(t, s.ts[t]) {}
    } else {
      NetRunIsBacked(f, ns, ms, k - 1);
      assert MoveEnabled(f, ns[k - 1], ms[k - 1]) && ns[k - 1 + 1] == ApplyMove(f, ns[k - 1], ms[k - 1]);
      MovesAreProtocolSteps(f, ns[k - 1], ms[k - 1]);
      if ns[k].s != ns[k - 1].s {
        var a :| Step(f.cfg, ns[k - 1].s, a, ns[k].s);
        StepKeepsBacked(f.cfg, ns[k - 1].s, a);
      }
    }
  }

  /**
    Every handler that is started finds its task: the name is a task of the fleet and in the registry of the
    handler's own instance, so the lookup never fails.
   */
  lemma HandlersFindTheirTask(f: Fleet, ns: seq<Net>, ms: seq<Move>, k: nat, h: nat)
    requires NetRun(f, ns, ms) && k < |ns| && h < |ns[k].s.handlers|
    ensures var x := ns[k].s.handlers[h];
            && x.copy.queue.RequestQ? && x.copy.queue.name in f.program.tasks
            && x.t < |ns[k].s.ts| && x.copy.queue.name in ns[k].s.ts[x.t].registry.rpc
  {
    hide Wired, EvalBody;
    NetRunInv(f, ns, ms, k);
    NetRunIsBacked(f, ns, ms, k);
    var n := ns[k];
    assert WorkerFine(f, n.s, h, n.workers[h]) && HandlerOk(n.s, n.s.handlers[h]);
    assert RequestFine(f, n.s, n.s.handlers[h].copy.corr);
    assert Registered(n.s.ts[n.s.handlers[h].t].registry, n.s.handlers[h].copy.queue);
  }
}
