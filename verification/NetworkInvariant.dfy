/**
  What every reachable state of a healthy fleet satisfies: each running body still evaluates to what
  direct evaluation of its call gives, and every unanswered request is somewhere on its way.
 */
module NetworkInvariant {
  import opened Wrappers
  import opened InFlight
  import opened Protocol
  import opened ProtocolInvariant
  import opened Tasks
  import opened Codecs
  import opened Network

  /** What direct evaluation of the call that request `op` carries gives. */
  ghost function Expected(f: Fleet, op: Op): Res
  {
    var c := f.codec.decodeCall(op.body);
    EvalTask(f.program, c.chain, op.name, c.arg)
  }

  /** What running body `x` to its end by direct evaluation gives. */
  ghost function Promise(f: Fleet, x: Proc): Res
  {
    EvalBody(f.program, x.chain, x.inHandler, x.script, x.results)
  }

  /** A calling body waits for a request that carries just the call it is about to make. */
  ghost predicate CallsRightly(f: Fleet, s: State, x: Proc)
  {
    x.st.Calling? ==>
      && x.st.r < |s.ops| && ActOf(x).Call? && |x.chain| < f.program.maxDepth
      && var op, a := s.ops[x.st.r], ActOf(x);
         && op.kind.Request? && op.name == a.task
         && f.codec.decodeCall(op.body) == CallContent(a.arg, x.chain + [HopOf(x, a.task)])
  }

  ghost predicate ClientFine(f: Fleet, s: State, x: Proc, goal: Res)
  {
    !x.st.Stopped? && x.t < |s.ts| && CallsRightly(f, s, x) && Promise(f, x) == goal
  }

  ghost predicate WorkerFine(f: Fleet, s: State, h: nat, x: Proc)
  {
    && h < |s.handlers| && s.handlers[h].copy.queue.RequestQ? && s.handlers[h].copy.corr < |s.ops|
    && x.t == s.handlers[h].t && x.t < |s.ts| && x.inHandler
    && CallsRightly(f, s, x)
    && (x.st.Calling? ==> x.st.r > s.handlers[h].copy.corr)
    && var goal := Expected(f, s.ops[s.handlers[h].copy.corr]);
       if x.st.Stopped? then
         !s.handlers[h].st.Running? && s.handlers[h].result == Some(f.codec.encodeResult(goal))
       else
         s.handlers[h].st.Running? && Attach(Promise(f, x), x.chain) == goal
  }

  /** A copy that carries or answers publish `r`, or a handler that is still at work on it. */
  ghost predicate Located(s: State, r: nat)
  {
    || (exists c :: c in s.ready && c.corr == r)
    || (exists t :: 0 <= t < |s.ts| && s.ts[t].slot.Some? && s.ts[t].slot.value.corr == r)
    || (exists h :: 0 <= h < |s.handlers| && s.handlers[h].copy.corr == r && !s.handlers[h].st.Ended?)
  }

  ghost predicate RequestFine(f: Fleet, s: State, r: nat)
    requires r < |s.ops|
  {
    var op := s.ops[r];
    && op.kind.Request? && op.t < |s.ts| && !op.phase.Leaving?
    && |f.codec.decodeCall(op.body).chain| <= f.program.maxDepth
    && (op.wire.Accepted? ==> op.name in f.program.tasks)
    && (op.wire.Refused? ==> op.name !in f.program.tasks)
    && (op.phase.Waiting? ==> op.wire.Accepted?)
    && (op.phase.Finished? ==> op.phase.outcome.Answered? || op.phase.outcome.NoRoute?)
    && (op.wire.Accepted? && !op.phase.Finished? && FutureOf(s.ts[op.t].local, r).Pending? ==> Located(s, r))
  }

  /** An unfinished request belongs to a body that waits for it. */
  predicate Owned(n: Net, r: nat)
    requires r < |n.s.ops|
  {
    && r < |n.owners| && IsProc(n, n.owners[r])
    && (!n.s.ops[r].phase.Finished? ==> ProcOf(n, n.owners[r]).st == Calling(r))
  }

  /** No future was ever given up. */
  predicate NothingLost(l: Local)
  {
    forall id :: id in l.futures ==> !l.futures[id].Lost? && !l.futures[id].Cancelled?
  }

  ghost predicate RequestsFine(f: Fleet, s: State) { forall r :: 0 <= r < |s.ops| ==> RequestFine(f, s, r) }

  predicate AllOwned(n: Net)
  {
    |n.owners| == |n.s.ops| && forall r :: 0 <= r < |n.s.ops| ==> Owned(n, r)
  }

  predicate NothingLostAnywhere(s: State) { forall t :: 0 <= t < |s.ts| ==> NothingLost(s.ts[t].local) }

  ghost predicate ClientsFine(f: Fleet, n: Net, goals: seq<Res>)
  {
    |goals| == |n.clients| && forall i :: 0 <= i < |n.clients| ==> ClientFine(f, n.s, n.clients[i], goals[i])
  }

  ghost predicate WorkersFine(f: Fleet, n: Net)
  {
    |n.workers| == |n.s.handlers| && forall h :: 0 <= h < |n.workers| ==> WorkerFine(f, n.s, h, n.workers[h])
  }

  ghost predicate NetInv(f: Fleet, n: Net, goals: seq<Res>)
  {
    && ConfigOk(f.cfg) && Lossless(f.codec) && Wired(f, n.s) && Inv(n.s)
    && ClientsFine(f, n, goals) && WorkersFine(f, n)
    && RequestsFine(f, n.s) && AllOwned(n) && NothingLostAnywhere(n.s)
  }

  // ---- It holds initially ---------------------------------------------------------------------------

  /** What each client gives by direct evaluation. */
  ghost function Goals(f: Fleet, n: Net): (goals: seq<Res>)
    ensures |goals| == |n.clients|
  {
    seq(|n.clients|, i requires 0 <= i < |n.clients| => Promise(f, n.clients[i]))
  }

  lemma InitNetInv(f: Fleet, n: Net)
    requires NetInit(f, n)
    ensures NetInv(f, n, Goals(f, n))
  {
    forall t | 0 <= t < |n.s.ts| ensures InstanceOk(n.s, t, n.s.ts[t]) && NothingLost(n.s.ts[t].local) {
      assert IdleInstance(t, n.s.ts[t]);
    }
    forall i | 0 <= i < |n.clients| ensures ClientFine(f, n.s, n.clients[i], Goals(f, n)[i]) {
      assert NewClient(n, n.clients[i]);
    }
  }

  // ---- One step of evaluation -----------------------------------------------------------------------

  /** Handing a body the outcome direct evaluation gives for its call keeps its promise. */
  lemma PromiseKept(f: Fleet, x: Proc, r: Res)
    requires ActOf(x).Call?
    requires r == EvalCall(f.program, x.chain, x.inHandler, ActOf(x).task, ActOf(x).arg)
    ensures Promise(f, WithResult(x, r)) == Promise(f, x)
  {
  }

  /** A finished request's decoded outcome is what direct evaluation of the call gives. */
  lemma OutcomeIsDirect(f: Fleet, n: Net, x: Proc)
    requires Lossless(f.codec) && Inv(n.s) && WorkersFine(f, n) && RequestsFine(f, n.s)
    requires CallsRightly(f, n.s, x) && x.st.Calling? && n.s.ops[x.st.r].phase.Finished?
    ensures Interpreted(f, n.s.ops[x.st.r].phase.outcome)
            == EvalCall(f.program, x.chain, x.inHandler, ActOf(x).task, ActOf(x).arg)
  {
    var r := x.st.r;
    var op := n.s.ops[r];
    assert OpOk(n.s, r, op) && RequestFine(f, n.s, r);
    if op.phase.outcome.Answered? {
      var b := op.phase.outcome.body;
      var h: nat :| ProducedBy(n.s, h, r, b);
      assert WorkerFine(f, n.s, h, n.workers[h]);
      assert HandlerOk(n.s, n.s.handlers[h]);
      var goal := Expected(f, op);
      assert b == f.codec.encodeResult(goal);
      assert f.codec.decodeResult(f.codec.encodeResult(goal)) == goal;
    }
  }
}
