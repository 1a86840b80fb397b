/**
  The call path behind an exception, and how many handlers a call can start.

  The reference semantics below knows nothing of hops or attaching.  It gives every exception an
  identity when it is raised, and keeps a journal: which exception left which body (named by the path
  of task names from the root), and which handlers were started.  The theorem is that the chain the
  library attaches is exactly the path, in the journal, of the first body the exception escaped from.
 */
module CallPaths {
  import opened Wrappers
  import opened Tasks

  type Path = seq<string>

  datatype Escape = Escape(id: nat, path: Path)

  datatype Journal = Journal(nextId: nat, escapes: seq<Escape>, started: seq<Path>)

  datatype RefRes = Value(value: Value) | Exception(id: nat, fault: Fault)

  /** A reference result and the journal after it. */
  datatype Out = Out(res: RefRes, journal: Journal)

  function RefSeenOf(r: RefRes): Seen
  {
    match r
    case Value(v) => Gave(v)
    case Exception(_, f) => Raised(f)
  }

  function RefSeenAll(rs: seq<RefRes>): (ss: seq<Seen>)
    ensures |ss| == |rs|
  {
    seq(|rs|, i requires 0 <= i < |rs| => RefSeenOf(rs[i]))
  }

  function RefAct(s: Script, rs: seq<RefRes>): (a: Act)
    ensures a.Call? ==> |rs| < s.calls
  {
    s.next(RefSeenAll(rs))
  }

  function NewException(f: Fault, j: Journal): Out
  {
    Out(Exception(j.nextId, f), j.(nextId := j.nextId + 1))
  }

  function RefEnd(a: Act, rs: seq<RefRes>, j: Journal): Out
    requires !a.Call?
  {
    match a
    case Return(v) => Out(Value(v), j)
    case Raise(f) => NewException(f, j)
    case Reraise(i) => if i < |rs| && rs[i].Exception? then Out(rs[i], j) else NewException(NoException, j)
  }

  ghost function RefBody(p: Program, path: Path, s: Script, rs: seq<RefRes>, j: Journal): Out
    decreases Max0(p.maxDepth - |path|), 1, Max0(s.calls - |rs|)
  {
    var a := RefAct(s, rs);
    if a.Call? then
      var o := RefCall(p, path, a.task, a.arg, j);
      RefBody(p, path, s, rs + [o.res], o.journal)
    else RefEnd(a, rs, j)
  }

  ghost function RefCall(p: Program, path: Path, task: string, arg: Value, j: Journal): Out
    decreases Max0(p.maxDepth - |path|), 0, 1
  {
    if |path| >= p.maxDepth then NewException(StackTooDeep, j)
    else RefTask(p, path + [task], task, arg, j)
  }

  ghost function RefTask(p: Program, path: Path, task: string, arg: Value, j: Journal): Out
    decreases Max0(p.maxDepth - |path|), 2, 0
  {
    if task !in p.tasks then NewException(NotServed, j)
    else
      var o := RefBody(p, path, p.tasks[task](arg), [], j.(started := j.started + [path]));
      if o.res.Exception?
      then Out(o.res, o.journal.(escapes := o.journal.escapes + [Escape(o.res.id, path)]))
      else o
  }

  // ---- The path of the first escape -----------------------------------------------------------------

  function FirstEscape(es: seq<Escape>, id: nat): Option<Path>
  {
    if |es| == 0 then None
    else if es[0].id == id then Some(es[0].path)
    else FirstEscape(es[1..], id)
  }

  /** Where a call starts: the chain that is current there, and whether a handler encloses it. */
  datatype Origin = Origin(chain: Chain, inHandler: bool)

  const ROOT := Origin([], false)

  /**
    The hops of a call path that begins with the chain of its origin: positions count from the beginning of the
    chain, and only the first call made outside of any handler is a root call.
   */
  function Hops(from: Origin, path: Path): (c: Chain)
    ensures |c| == |path|
    ensures forall i :: 0 <= i < |c| ==>
              c[i] == if i < |from.chain| then from.chain[i] else Hop(i, path[i], i == |from.chain| && !from.inHandler)
  {
    seq(|path|, i requires 0 <= i < |path| =>
      if i < |from.chain| then from.chain[i] else Hop(i, path[i], i == |from.chain| && !from.inHandler))
  }

  predicate InHandler(from: Origin, path: Path) { |path| > |from.chain| || from.inHandler }

  /** A reference result as the library presents it, its trace read off the journal. */
  function Presented(from: Origin, r: RefRes, es: seq<Escape>): Res
  {
    match r
    case Value(v) => Ok(v)
    case Exception(id, f) =>
      Err(Exc(f, match FirstEscape(es, id) { case None => None case Some(path) => Some(Hops(from, path)) }))
  }

  lemma {:induction false} FirstEscapeOfConcat(a: seq<Escape>, b: seq<Escape>, id: nat)
    ensures FirstEscape(a + b, id) == if FirstEscape(a, id).Some? then FirstEscape(a, id) else FirstEscape(b, id)
    decreases |a|
  {
    if |a| == 0 {
      assert a + b == b;
    } else {
      assert (a + b)[1..] == a[1..] + b;
      FirstEscapeOfConcat(a[1..], b, id);
    }
  }

  lemma {:induction false} NoEscape(es: seq<Escape>, id: nat)
    requires forall i :: 0 <= i < |es| ==> es[i].id != id
    ensures FirstEscape(es, id) == None
    decreases |es|
  {
    if |es| > 0 { NoEscape(es[1..], id); }
  }

  // ---- What the journal gains -----------------------------------------------------------------------

  /** `after` extends `before` with escapes of exceptions that did not exist before. */
  ghost predicate Grows(before: Journal, after: Journal)
  {
    && before.nextId <= after.nextId
    && before.escapes <= after.escapes
    && (forall i :: |before.escapes| <= i < |after.escapes| ==> after.escapes[i].id >= before.nextId)
  }

  predicate Known(r: RefRes, j: Journal) { r.Exception? ==> r.id < j.nextId }

  predicate AllKnown(rs: seq<RefRes>, j: Journal) { forall i :: 0 <= i < |rs| ==> Known(rs[i], j) }

  /** A body's own exceptions are new unless they came out of one of its calls. */
  predicate NewOrFrom(r: RefRes, rs: seq<RefRes>, j: Journal) { r.Exception? && r.id < j.nextId ==> r in rs }

  lemma {:induction false} BodyGrows(p: Program, path: Path, s: Script, rs: seq<RefRes>, j: Journal)
    requires AllKnown(rs, j)
    ensures var o := RefBody(p, path, s, rs, j);
            Grows(j, o.journal) && Known(o.res, o.journal) && NewOrFrom(o.res, rs, j)
    decreases Max0(p.maxDepth - |path|), 1, Max0(s.calls - |rs|)
  {
    var a := RefAct(s, rs);
    if a.Call? {
      var o := RefCall(p, path, a.task, a.arg, j);
      CallGrows(p, path, a.task, a.arg, j);
      BodyGrows(p, path, s, rs + [o.res], o.journal);
    }
  }

  lemma {:induction false} CallGrows(p: Program, path: Path, task: string, arg: Value, j: Journal)
    ensures var o := RefCall(p, path, task, arg, j);
            Grows(j, o.journal) && Known(o.res, o.journal) && NewOrFrom(o.res, [], j)
    decreases Max0(p.maxDepth - |path|), 0, 1
  {
    if |path| < p.maxDepth { TaskGrows(p, path + [task], task, arg, j); }
  }

  lemma {:induction false} TaskGrows(p: Program, path: Path, task: string, arg: Value, j: Journal)
    ensures var o := RefTask(p, path, task, arg, j);
            Grows(j, o.journal) && Known(o.res, o.journal) && NewOrFrom(o.res, [], j)
    decreases Max0(p.maxDepth - |path|), 2, 0
  {
    if task in p.tasks { BodyGrows(p, path, p.tasks[task](arg), [], j.(started := j.started + [path])); }
  }

  /** Escapes of later exceptions do not change how an earlier result is presented. */
  lemma PresentationStays(from: Origin, r: RefRes, before: Journal, after: Journal)
    requires Grows(before, after) && Known(r, before)
    ensures Presented(from, r, after.escapes) == Presented(from, r, before.escapes)
  {
    if r.Exception? {
      var more := after.escapes[|before.escapes|..];
      assert after.escapes == before.escapes + more;
      FirstEscapeOfConcat(before.escapes, more, r.id);
      NoEscape(more, r.id);
    }
  }

  // ---- The path theorem -----------------------------------------------------------------------------

  /** The results a body holds, as presented under the journal. */
  predicate Presents(from: Origin, rs: seq<RefRes>, j: Journal, shown: seq<Res>)
  {
    |shown| == |rs| && forall i :: 0 <= i < |rs| ==> shown[i] == Presented(from, rs[i], j.escapes)
  }

  lemma SameSeen(from: Origin, rs: seq<RefRes>, j: Journal, shown: seq<Res>)
    requires Presents(from, rs, j, shown)
    ensures SeenAll(shown) == RefSeenAll(rs)
  {
  }

  lemma HopsStep(from: Origin, path: Path, task: string)
    requires |path| >= |from.chain|
    ensures Hops(from, path + [task]) == Hops(from, path) + [NextHop(Hops(from, path), InHandler(from, path), task)]
  {
  }

  lemma {:induction false} FreshIsUntraced(from: Origin, j: Journal, f: Fault)
    requires forall i :: 0 <= i < |j.escapes| ==> j.escapes[i].id < j.nextId
    ensures Presented(from, NewException(f, j).res, NewException(f, j).journal.escapes) == Err(Exc(f, None))
  {
    NoEscape(j.escapes, j.nextId);
  }

  predicate Sound(j: Journal) { forall i :: 0 <= i < |j.escapes| ==> j.escapes[i].id < j.nextId }

  lemma {:induction false} BodyPath(p: Program, from: Origin, path: Path, s: Script, rs: seq<RefRes>, j: Journal,
                                    shown: seq<Res>)
    requires |path| >= |from.chain| && AllKnown(rs, j) && Sound(j) && Presents(from, rs, j, shown)
    ensures var o := RefBody(p, path, s, rs, j);
            && Sound(o.journal)
            && EvalBody(p, Hops(from, path), InHandler(from, path), s, shown)
               == Presented(from, o.res, o.journal.escapes)
    decreases Max0(p.maxDepth - |path|), 1, Max0(s.calls - |rs|)
  {
    SameSeen(from, rs, j, shown);
    var a := RefAct(s, rs);
    if a.Call? {
      var o := RefCall(p, path, a.task, a.arg, j);
      CallPath(p, from, path, a.task, a.arg, j);
      CallGrows(p, path, a.task, a.arg, j);
      var r := EvalCall(p, Hops(from, path), InHandler(from, path), a.task, a.arg);
      forall i | 0 <= i < |rs| ensures shown[i] == Presented(from, rs[i], o.journal.escapes) {
        PresentationStays(from, rs[i], j, o.journal);
      }
      BodyPath(p, from, path, s, rs + [o.res], o.journal, shown + [r]);
    } else if a.Raise? {
      FreshIsUntraced(from, j, a.fault);
    } else if a.Reraise? {
      FreshIsUntraced(from, j, NoException);
    }
  }

  lemma {:induction false} CallPath(p: Program, from: Origin, path: Path, task: string, arg: Value, j: Journal)
    requires |path| >= |from.chain| && Sound(j)
    ensures var o := RefCall(p, path, task, arg, j);
            && Sound(o.journal)
            && EvalCall(p, Hops(from, path), InHandler(from, path), task, arg)
               == Presented(from, o.res, o.journal.escapes)
    decreases Max0(p.maxDepth - |path|), 0, 1
  {
    if |path| >= p.maxDepth {
      FreshIsUntraced(from, j, StackTooDeep);
    } else {
      HopsStep(from, path, task);
      TaskPath(p, from, path + [task], task, arg, j);
    }
  }

  lemma {:induction false} TaskPath(p: Program, from: Origin, path: Path, task: string, arg: Value, j: Journal)
    requires |path| >= |from.chain| && InHandler(from, path) && Sound(j)
    ensures var o := RefTask(p, path, task, arg, j);
            Sound(o.journal) && EvalTask(p, Hops(from, path), task, arg) == Presented(from, o.res, o.journal.escapes)
    decreases Max0(p.maxDepth - |path|), 2, 0
  {
    if task !in p.tasks {
      FreshIsUntraced(from, j, NotServed);
    } else {
      var j0 := j.(started := j.started + [path]);
      var s := p.tasks[task](arg);
      var o := RefBody(p, path, s, [], j0);
      BodyPath(p, from, path, s, [], j0, []);
      BodyGrows(p, path, s, [], j0);
      if o.res.Exception? {
        FirstEscapeOfConcat(o.journal.escapes, [Escape(o.res.id, path)], o.res.id);
      }
    }
  }

  /**
    The trace of an exception that leaves a task called from the root is the call path from the root
    to the body it first escaped from: the hops are numbered from zero, only the first is a root hop,
    and bubbling up through further bodies, being caught and being re-raised, does not change them.
    Everything else about the result is what the plain evaluation gives.
   */
  lemma TraceIsFirstEscape(p: Program, task: string, arg: Value)
    ensures var o := RefCall(p, [], task, arg, Journal(0, [], []));
            && EvalCall(p, [], false, task, arg) == Presented(ROOT, o.res, o.journal.escapes)
            && TraceFollows(EvalCall(p, [], false, task, arg), ROOT, o)
  {
    CallPath(p, ROOT, [], task, arg, Journal(0, [], []));
    assert Hops(ROOT, []) == [];
  }

  /**
    The trace, if any, begins with the chain of the origin and goes on along the path of the first body the reference
    exception escaped from: each further hop has its place as number, the task called there, and is root only as the
    first call outside of any handler.
   */
  predicate TraceFollows(r: Res, from: Origin, o: Out)
  {
    r.Err? && r.exc.trace.Some? ==>
      && o.res.Exception? && FirstEscape(o.journal.escapes, o.res.id).Some?
      && var trace, path := r.exc.trace.value, FirstEscape(o.journal.escapes, o.res.id).value;
         && |trace| == |path|
         && forall i :: 0 <= i < |trace| ==>
              if i < |from.chain| then trace[i] == from.chain[i]
              else trace[i].seqNo == i && trace[i].task == path[i]
                   && (trace[i].isRoot <==> i == |from.chain| && !from.inHandler)
  }

  /** The names of the tasks along a chain. */
  function NamesAlong(c: Chain): Path { seq(|c|, i requires 0 <= i < |c| => c[i].task) }

  /**
    The same for a handler that received any chain whatever, also an empty one: what leaves it carries that chain,
    followed by the calls made from there, none of them a root call.
   */
  lemma ReceivedChainIsExtended(p: Program, chain: Chain, task: string, arg: Value)
    ensures var o, from := RefTask(p, NamesAlong(chain), task, arg, Journal(0, [], [])), Origin(chain, true);
            && EvalTask(p, chain, task, arg) == Presented(from, o.res, o.journal.escapes)
            && TraceFollows(EvalTask(p, chain, task, arg), from, o)
    ensures var r := EvalTask(p, chain, task, arg);
            && (r.Err? && r.exc.trace.Some? ==> chain <= r.exc.trace.value)
            && (r.Err? && task in p.tasks ==> r.exc.trace.Some?)
  {
    var from := Origin(chain, true);
    TaskPath(p, from, NamesAlong(chain), task, arg, Journal(0, [], []));
    assert Hops(from, NamesAlong(chain)) == chain;
    if task in p.tasks { TraceExtends(p, chain, true, p.tasks[task](arg), []); }
  }

  /** A served task's exception always leaves with a trace, and the trace starts with that task's own path. */
  lemma EscapesAreTraced(p: Program, from: Origin, path: Path, task: string, arg: Value, j: Journal)
    requires |path| >= |from.chain| && InHandler(from, path) && Sound(j) && task in p.tasks
    ensures var r := EvalTask(p, Hops(from, path), task, arg);
            r.Err? ==> r.exc.trace.Some? && Hops(from, path) <= r.exc.trace.value
  {
    TaskPath(p, from, path, task, arg, j);
    TraceExtends(p, Hops(from, path), true, p.tasks[task](arg), []);
  }

  /** Every trace a body's exception carries starts with the body's own chain. */
  predicate TracesBelow(r: Res, chain: Chain) { r.Err? && r.exc.trace.Some? ==> chain <= r.exc.trace.value }

  lemma {:induction false} TraceExtends(p: Program, chain: Chain, inHandler: bool, s: Script, rs: seq<Res>)
    requires forall i :: 0 <= i < |rs| ==> TracesBelow(rs[i], chain)
    ensures TracesBelow(EvalBody(p, chain, inHandler, s, rs), chain)
    decreases Max0(p.maxDepth - |chain|), Max0(s.calls - |rs|)
  {
    var a := NextAct(s, rs);
    if a.Call? {
      var r := EvalCall(p, chain, inHandler, a.task, a.arg);
      assert TracesBelow(r, chain) by {
        var chain' := chain + [NextHop(chain, inHandler, a.task)];
        if |chain| < p.maxDepth && a.task !in p.tasks {
          assert r == EvalTask(p, chain', a.task, a.arg) == Unserved();
        } else if |chain| < p.maxDepth {
          TraceExtends(p, chain', true, p.tasks[a.task](a.arg), []);
          assert r == EvalTask(p, chain', a.task, a.arg);
          assert r == Attach(EvalBody(p, chain', true, p.tasks[a.task](a.arg), []), chain');
          assert TracesBelow(r, chain') && chain <= chain';
        }
      }
      TraceExtends(p, chain, inHandler, s, rs + [r]);
    }
  }

  // ---- The depth guard bounds every call ------------------------------------------------------------

  function Pow(b: nat, e: nat): nat { if e == 0 then 1 else b * Pow(b, e - 1) }

  /** The sum of b^i for i below d. */
  function PowerSum(b: nat, d: nat): nat { if d == 0 then 0 else PowerSum(b, d - 1) + Pow(b, d - 1) }

  lemma {:induction false} PowerSumStep(b: nat, d: nat)
    ensures PowerSum(b, d + 1) == 1 + b * PowerSum(b, d)
    decreases d
  {
    if d == 0 {
      assert PowerSum(b, 1) == PowerSum(b, 0) + Pow(b, 0);
    } else {
      PowerSumStep(b, d - 1);
      assert PowerSum(b, d + 1) == PowerSum(b, d) + b * Pow(b, d - 1);
    }
  }

  /** No body of the program makes more than `b` calls. */
  ghost predicate AtMost(p: Program, b: nat)
  {
    forall t, v :: t in p.tasks ==> p.tasks[t](v).calls <= b
  }

  lemma MulBound(x: nat, y: nat, z: nat)
    requires x <= y
    ensures x * z <= y * z
  {
  }

  /** Handlers started and chains sent between two journals. */
  ghost predicate Bounded(before: Journal, after: Journal, starts: nat, depth: int)
  {
    && before.started <= after.started
    && |after.started| <= |before.started| + starts
    && forall i :: |before.started| <= i < |after.started| ==> |after.started[i]| <= depth
  }

  lemma {:induction false} BodyStarts(p: Program, b: nat, path: Path, s: Script, rs: seq<RefRes>, j: Journal)
    requires AtMost(p, b) && s.calls <= b && |rs| <= s.calls
    ensures Bounded(j, RefBody(p, path, s, rs, j).journal,
                    (s.calls - |rs|) * PowerSum(b, Max0(p.maxDepth - |path|)), p.maxDepth)
    decreases Max0(p.maxDepth - |path|), 1, Max0(s.calls - |rs|)
  {
    hide PowerSum, RefCall;
    var a := RefAct(s, rs);
    var k := PowerSum(b, Max0(p.maxDepth - |path|));
    if a.Call? {
      var o := RefCall(p, path, a.task, a.arg, j);
      CallStarts(p, b, path, a.task, a.arg, j);
      BodyStarts(p, b, path, s, rs + [o.res], o.journal);
      OneLess(s.calls - |rs|, k);
      var after := RefBody(p, path, s, rs, j).journal;
      hide RefBody;
      BoundedBoth(j, o.journal, after, k, (s.calls - |rs| - 1) * k, p.maxDepth);
    } else {
      MulBound(0, s.calls - |rs|, k);
    }
  }

  lemma OneLess(x: nat, k: nat)
    requires x > 0
    ensures x * k == k + (x - 1) * k
  {
  }

  lemma BoundedBoth(a: Journal, b: Journal, c: Journal, m: nat, n: nat, depth: int)
    requires Bounded(a, b, m, depth) && Bounded(b, c, n, depth)
    ensures Bounded(a, c, m + n, depth)
  {
  }

  /**
    With at most `b` calls per body, one call made at depth d starts at most the sum of b^i for i below
    `maxDepth - d` handlers, and no chain sent is longer than `maxDepth` - even if bodies catch the
    error of the depth guard, and however cyclic the task definitions are.
   */
  lemma {:induction false} CallStarts(p: Program, b: nat, path: Path, task: string, arg: Value, j: Journal)
    requires AtMost(p, b)
    ensures Bounded(j, RefCall(p, path, task, arg, j).journal, PowerSum(b, Max0(p.maxDepth - |path|)), p.maxDepth)
    decreases Max0(p.maxDepth - |path|), 0, 1
  {
    if |path| < p.maxDepth && task in p.tasks {
      var path' := path + [task];
      var s := p.tasks[task](arg);
      BodyStarts(p, b, path', s, [], j.(started := j.started + [path']));
      var d := Max0(p.maxDepth - |path'|);
      PowerSumStep(b, d);
      MulBound(s.calls, b, PowerSum(b, d));
      assert Max0(p.maxDepth - |path|) == d + 1;
    }
  }

  /** The bound for a root call. */
  lemma RootCallStarts(p: Program, b: nat, task: string, arg: Value)
    requires AtMost(p, b)
    ensures var started := RefCall(p, [], task, arg, Journal(0, [], [])).journal.started;
            && |started| <= PowerSum(b, Max0(p.maxDepth))
            && forall i :: 0 <= i < |started| ==> |started[i]| <= p.maxDepth
  {
    CallStarts(p, b, [], task, arg, Journal(0, [], []));
  }
}
