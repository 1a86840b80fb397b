/**
  Which frames a hop records (trace.py:219-278, 340-368, 391-399): the two walks over the interpreter's
  stack, and a machine for one asyncio task that makes nested calls, in which every recorded segment is
  pinned down.
 */
module Frames {
  import opened Wrappers

  datatype Info = Info(file: string, line: int, func: string, text: string)

  /** A live frame; `handler` marks the frames of `Router._call_coro`, which install themselves as entry point. */
  datatype Frame = Frame(id: nat, handler: bool, info: Info)

  /** What `_frame_info` keeps of some frames, in order. */
  function Collected(frames: seq<Frame>, filtered: string -> bool): seq<Info>
  {
    if frames == [] then []
    else (if filtered(frames[0].info.file) then [] else [frames[0].info]) + Collected(frames[1..], filtered)
  }

  function Reversed<T>(s: seq<T>): seq<T>
  {
    if s == [] then [] else [s[|s| - 1]] + Reversed(s[..|s| - 1])
  }

  lemma CollectedNext(r: seq<Info>, tb: seq<Frame>, filtered: string -> bool)
    requires tb != []
    ensures r + Collected(tb, filtered) ==
            (if filtered(tb[0].info.file) then r else r + [tb[0].info]) + Collected(tb[1..], filtered)
  {
  }

  lemma {:induction false} ReversedNext<T>(s: seq<T>, x: T)
    ensures Reversed(s + [x]) == [x] + Reversed(s)
  {
    assert (s + [x])[..|s|] == s;
  }

  // ---- The walk up the stack ------------------------------------------------------------------------

  /** The lowest index from which no frame up to `i` (exclusive) is the boundary. */
  function Above(stack: seq<Frame>, i: nat, boundary: Option<nat>): (lo: nat)
    requires i <= |stack|
    ensures lo <= i
    ensures forall k :: lo <= k < i ==> boundary != Some(stack[k].id)
    ensures lo > 0 ==> boundary == Some(stack[lo - 1].id)
  {
    if i == 0 || boundary == Some(stack[i - 1].id) then i else Above(stack, i - 1, boundary)
  }

  /** The frames below index `i`, up to and excluding the boundary. */
  function Segment(stack: seq<Frame>, i: nat, boundary: Option<nat>): seq<Frame>
    requires i <= |stack|
  {
    stack[Above(stack, i, boundary)..i]
  }

  /** `stack` is outermost-first; the walk starts at the frame below index `i`, and `f_back` steps down. */
  method WalkFramesUntil(stack: seq<Frame>, i: nat, boundary: Option<nat>, filtered: string -> bool)
    returns (r: seq<Info>)
    requires i <= |stack|
    ensures r == Collected(Segment(stack, i, boundary), filtered)
  {
    var collected: seq<Info> := [];
    var frame := i;
    while frame != 0 && boundary != Some(stack[frame - 1].id)
      invariant 0 <= frame <= i
      invariant Above(stack, frame, boundary) == Above(stack, i, boundary)
      invariant Reversed(collected) == Collected(stack[frame..i], filtered)
    {
      hide Collected, Reversed;
      frame := frame - 1;
      assert stack[frame..i][1..] == stack[frame + 1..i];
      var info := stack[frame].info;
      ReversedNext(collected, info);
      CollectedNext([], stack[frame..i], filtered);
      if !filtered(info.file) {
        collected := collected + [info];
      }
    }
    r := Reversed(collected);
  }

  // ---- The walk along a traceback -------------------------------------------------------------------

  /** The traceback after the first entry of the boundary frame; all of it without a boundary. */
  function After(tb: seq<Frame>, boundary: Option<nat>): seq<Frame>
  {
    if boundary == None || tb == [] then tb
    else if boundary == Some(tb[0].id) then tb[1..]
    else After(tb[1..], boundary)
  }

  method WalkTracebackAfter(tb: seq<Frame>, boundary: Option<nat>, filtered: string -> bool) returns (r: seq<Info>)
    ensures r == Collected(After(tb, boundary), filtered)
  {
    r := [];
    var skipping := boundary.Some?;
    for i := 0 to |tb|
      invariant skipping ==> r == [] && boundary.Some? && After(tb, boundary) == After(tb[i..], boundary)
      invariant !skipping ==> r + Collected(tb[i..], filtered) == Collected(After(tb, boundary), filtered)
    {
      hide Collected;
      assert tb[i..][1..] == tb[i + 1..];
      CollectedNext(r, tb[i..], filtered);
      if skipping {
        if boundary == Some(tb[i].id) { skipping := false; }
      } else if !filtered(tb[i].info.file) {
        r := r + [tb[i].info];
      }
    }
  }

  /** What comes after the boundary is the part of the traceback behind its first occurrence. */
  lemma {:induction false} AfterBoundary(before: seq<Frame>, entry: Frame, after: seq<Frame>)
    requires forall i :: 0 <= i < |before| ==> before[i].id != entry.id
    ensures After(before + [entry] + after, Some(entry.id)) == after
    decreases |before|
  {
    var tb := before + [entry] + after;
    if before == [] {
      assert tb[0] == entry && tb[1..] == after;
    } else {
      assert tb[0] == before[0] && tb[1..] == before[1..] + [entry] + after;
      AfterBoundary(before[1..], entry, after);
    }
  }

  /** Without a boundary everything is kept; with one that does not occur, nothing. */
  lemma {:induction false} NoBoundaryToSkip(tb: seq<Frame>, boundary: Option<nat>)
    requires forall i :: 0 <= i < |tb| ==> boundary != Some(tb[i].id)
    ensures After(tb, boundary) == if boundary.None? then tb else []
    decreases |tb|
  {
    if tb != [] { NoBoundaryToSkip(tb[1..], boundary); }
  }

  // ---- One task making nested calls -----------------------------------------------------------------

  datatype Hop = Hop(seqNo: nat, awaitFrames: seq<Info>, isRoot: bool)

  /** A call in progress: where its call site and its handler are on the stack, and what it will restore. */
  datatype Live = Live(site: nat, entry: nat, current: seq<Hop>, entryFrame: Option<nat>)

  /**
    What the code of an asyncio task starts with: nothing for a root task, the context of the handler that
    spawned it otherwise.  The spawning handler's frame is on another stack.
   */
  datatype Origin = Origin(hops: seq<Hop>, entryFrame: Option<nat>)

  datatype Machine = Machine(
    origin: Origin,
    stack: seq<Frame>,                    // outermost first
    current: seq<Hop>,                    // CURRENT
    entryFrame: Option<nat>,              // ENTRY_FRAME
    calls: seq<Live>
  )

  datatype Op =
    | Push(frame: Frame)                  // an ordinary function is called or awaited
    | Pop                                 // it returns or raises
    | Move(info: Info)                    // the innermost frame executes another line
    | Call(plumbing: seq<Frame>, entry: Frame) // the innermost frame calls a task and its handler starts
    | Return                              // the handler ends, normally or not

  predicate FreshId(stack: seq<Frame>, id: nat) { forall i :: 0 <= i < |stack| ==> stack[i].id != id }

  predicate DistinctIds(stack: seq<Frame>) { forall i, j :: 0 <= i < j < |stack| ==> stack[i].id != stack[j].id }

  /** None of the frames is the handler frame the task inherited. */
  predicate Foreign(o: Origin, frames: seq<Frame>)
  {
    forall i :: 0 <= i < |frames| ==> o.entryFrame != Some(frames[i].id)
  }

  function Top(m: Machine): Frame
    requires m.stack != []
  {
    m.stack[|m.stack| - 1]
  }

  predicate Enabled(m: Machine, op: Op)
  {
    match op
    case Push(f) => !f.handler && FreshId(m.stack, f.id) && Foreign(m.origin, [f])
    case Pop => m.stack != [] && !Top(m).handler
    case Move(_) => m.stack != []
    case Call(plumbing, entry) =>
      && m.stack != [] && !Top(m).handler && entry.handler
      && (forall i :: 0 <= i < |plumbing| ==> !plumbing[i].handler)
      && DistinctIds(m.stack + plumbing + [entry]) && Foreign(m.origin, plumbing + [entry])
    case Return =>
      m.stack != [] && Top(m).handler && m.calls != [] && m.calls[|m.calls| - 1].site < |m.stack|
  }

  /** The hop `push_hop` appends when the frame at index `site` makes the call. */
  function NextHop(m: Machine, site: nat, filtered: string -> bool): Hop
    requires site <= |m.stack|
  {
    Hop(|m.current|, Collected(Segment(m.stack, site, m.entryFrame), filtered), m.entryFrame.None?)
  }

  function Apply(m: Machine, op: Op, filtered: string -> bool): Machine
    requires Enabled(m, op)
  {
    match op
    case Push(f) => m.(stack := m.stack + [f])
    case Pop => m.(stack := m.stack[..|m.stack| - 1])
    case Move(info) => m.(stack := m.stack[|m.stack| - 1 := Top(m).(info := info)])
    case Call(plumbing, entry) =>
      var site := |m.stack| - 1;
      var live := Live(site, |m.stack| + |plumbing|, m.current, m.entryFrame);
      m.(stack := m.stack + plumbing + [entry], current := m.current + [NextHop(m, site, filtered)],
         entryFrame := Some(entry.id), calls := m.calls + [live])
    case Return =>
      var live := m.calls[|m.calls| - 1];
      m.(stack := m.stack[..live.site + 1], current := live.current, entryFrame := live.entryFrame,
         calls := m.calls[..|m.calls| - 1])
  }

  /** The task begins: nothing on its stack yet. */
  predicate Begins(m: Machine) { m == Machine(m.origin, [], m.origin.hops, m.origin.entryFrame, []) }

  ghost predicate IsRun(states: seq<Machine>, ops: seq<Op>, filtered: string -> bool)
  {
    && |states| == |ops| + 1
    && Begins(states[0])
    && forall i :: 0 <= i < |ops| ==> Enabled(states[i], ops[i]) && states[i + 1] == Apply(states[i], ops[i], filtered)
  }

  /** The entry frame of the `k`-th call, as a boundary for the calls it makes. */
  function Boundary(m: Machine, k: nat): Option<nat>
    requires k <= |m.calls| && forall i :: 0 <= i < k ==> m.calls[i].entry < |m.stack|
  {
    if k == 0 then m.origin.entryFrame else Some(m.stack[m.calls[k - 1].entry].id)
  }

  /** The index of the first frame that belongs to the code that made the `k`-th call. */
  function Lo(m: Machine, k: nat): nat
    requires k <= |m.calls|
  {
    if k == 0 then 0 else m.calls[k - 1].entry + 1
  }

  predicate IsEntry(m: Machine, i: nat) { exists k :: 0 <= k < |m.calls| && m.calls[k].entry == i }

  /** Calls are nested in order, and the handler frames on the stack are exactly their entry frames. */
  ghost predicate Shape(m: Machine)
  {
    && DistinctIds(m.stack) && Foreign(m.origin, m.stack)
    && (forall k :: 0 <= k < |m.calls| ==> m.calls[k].site < m.calls[k].entry < |m.stack|)
    && (forall j, k :: 0 <= j < k < |m.calls| ==> m.calls[j].entry < m.calls[k].site)
    && (forall k :: 0 <= k < |m.calls| ==> m.stack[m.calls[k].entry].handler)
    && (forall i :: 0 <= i < |m.stack| && m.stack[i].handler ==> IsEntry(m, i))
  }

  /** How many hops the task inherited. */
  function Base(m: Machine): nat { |m.origin.hops| }

  /** What the hop of the `k`-th call in progress has to be. */
  function HopOf(m: Machine, k: nat, filtered: string -> bool): Hop
    requires k < |m.calls| && Lo(m, k) <= m.calls[k].site <= |m.stack|
  {
    Hop(Base(m) + k, Collected(m.stack[Lo(m, k)..m.calls[k].site], filtered), k == 0 && m.origin.entryFrame.None?)
  }

  /**
    The hop of the `k`-th call records exactly the frames strictly between its handler and its call site, and
    its handler will restore what was current there.
   */
  ghost predicate CallOk(m: Machine, k: nat, filtered: string -> bool)
    requires k < |m.calls| && Base(m) + k < |m.current| && Shape(m)
  {
    && m.current[Base(m) + k] == HopOf(m, k, filtered)
    && m.calls[k].current == m.current[..Base(m) + k]
    && m.calls[k].entryFrame == Boundary(m, k)
  }

  ghost predicate Inv(m: Machine, filtered: string -> bool)
  {
    && Shape(m)
    && |m.current| == Base(m) + |m.calls| && m.current[..Base(m)] == m.origin.hops
    && m.entryFrame == Boundary(m, |m.calls|)
    && (forall k {:trigger CallOk(m, k, filtered)} :: 0 <= k < |m.calls| ==> CallOk(m, k, filtered))
  }

  // ---- Every step keeps it --------------------------------------------------------------------------

  /** The stack changes at or above the last entry frame, which keeps its identity, and gains no handler frame. */
  ghost predicate Changed(m: Machine, m': Machine)
  {
    && m' == m.(stack := m'.stack) && DistinctIds(m'.stack) && Foreign(m.origin, m'.stack)
    && (forall k :: 0 <= k < |m.calls| ==>
          var e := m.calls[k].entry;
          e < |m.stack| && e < |m'.stack| && m'.stack[e].id == m.stack[e].id && m'.stack[..e] == m.stack[..e])
    && (forall i :: 0 <= i < |m'.stack| ==> (m'.stack[i].handler <==> i < |m.stack| && m.stack[i].handler))
  }

  lemma ChangedShape(m: Machine, m': Machine)
    requires Shape(m) && Changed(m, m')
    ensures Shape(m')
  {
    forall i | 0 <= i < |m'.stack| && m'.stack[i].handler
      ensures IsEntry(m', i)
    {
      assert IsEntry(m, i);
    }
  }

  lemma {:induction false} SameSlice<T>(s: seq<T>, t: seq<T>, e: nat, a: nat, b: nat)
    requires e <= |s| && e <= |t| && s[..e] == t[..e] && a <= b <= e
    ensures s[a..b] == t[a..b]
  {
    assert forall i :: 0 <= i < e ==> s[i] == s[..e][i] && t[i] == t[..e][i];
  }

  lemma ChangedKeepsInv(m: Machine, m': Machine, filtered: string -> bool)
    requires Inv(m, filtered) && Changed(m, m')
    ensures Inv(m', filtered)
  {
    hide Collected;
    ChangedShape(m, m');
    forall k | 0 <= k < |m'.calls|
      ensures CallOk(m', k, filtered)
    {
      assert CallOk(m, k, filtered);
      SameSlice(m.stack, m'.stack, m.calls[k].entry, Lo(m, k), m.calls[k].site);
    }
  }

  lemma PushChanges(m: Machine, f: Frame, m': Machine)
    requires Shape(m) && Enabled(m, Push(f)) && m' == m.(stack := m.stack + [f])
    ensures Changed(m, m')
  {
    hide IsEntry;
  }

  lemma TopIsAboveEntries(m: Machine)
    requires Shape(m) && m.stack != [] && !Top(m).handler
    ensures forall k :: 0 <= k < |m.calls| ==> m.calls[k].entry < |m.stack| - 1
  {
  }

  lemma PopChanges(m: Machine, m': Machine)
    requires Shape(m) && Enabled(m, Pop) && m' == m.(stack := m.stack[..|m.stack| - 1])
    ensures Changed(m, m')
  {
    hide IsEntry;
    TopIsAboveEntries(m);
  }

  lemma MoveChanges(m: Machine, info: Info, m': Machine)
    requires Shape(m) && Enabled(m, Move(info))
    requires m' == m.(stack := m.stack[|m.stack| - 1 := Top(m).(info := info)])
    ensures Changed(m, m')
  {
    hide IsEntry;
    assert forall i :: 0 <= i < |m.stack| ==>
                         m'.stack[i].id == m.stack[i].id && m'.stack[i].handler == m.stack[i].handler;
  }

  /** The walk from a call site stops exactly at the enclosing handler. */
  lemma SegmentIsScoped(m: Machine, site: nat, filtered: string -> bool)
    requires Inv(m, filtered) && site <= |m.stack| && Lo(m, |m.calls|) <= site
    ensures Segment(m.stack, site, m.entryFrame) == m.stack[Lo(m, |m.calls|)..site]
  {
    var lo := Above(m.stack, site, m.entryFrame);
    if m.calls != [] {
      var e := m.calls[|m.calls| - 1].entry;
      assert m.entryFrame == Some(m.stack[e].id);
      assert lo > 0;
      assert m.stack[lo - 1].id == m.stack[e].id;
    }
  }

  lemma ForeignConcat(o: Origin, a: seq<Frame>, b: seq<Frame>)
    requires Foreign(o, a) && Foreign(o, b)
    ensures Foreign(o, a + b)
  {
  }

  lemma CallShape(m: Machine, plumbing: seq<Frame>, entry: Frame, m': Machine, filtered: string -> bool)
    requires Inv(m, filtered) && Enabled(m, Call(plumbing, entry)) && m' == Apply(m, Call(plumbing, entry), filtered)
    ensures Shape(m')
  {
    hide DistinctIds, Foreign, CallOk, FreshId, Segment, Collected, IsEntry;
    TopIsAboveEntries(m);
    ForeignConcat(m.origin, m.stack, plumbing + [entry]);
    assert m'.stack == m.stack + (plumbing + [entry]);
    HandlersAreEntries(m, plumbing, entry, m');
  }

  lemma HandlersAreEntries(m: Machine, plumbing: seq<Frame>, entry: Frame, m': Machine)
    requires forall i :: 0 <= i < |m.stack| && m.stack[i].handler ==> IsEntry(m, i)
    requires forall i :: 0 <= i < |plumbing| ==> !plumbing[i].handler
    requires m'.stack == m.stack + (plumbing + [entry]) && |m'.calls| == |m.calls| + 1
    requires m'.calls[..|m.calls|] == m.calls && m'.calls[|m.calls|].entry == |m.stack| + |plumbing|
    ensures forall i :: 0 <= i < |m'.stack| && m'.stack[i].handler ==> IsEntry(m', i)
  {
    var n := |m.calls|;
    forall i | 0 <= i < |m'.stack| && m'.stack[i].handler
      ensures IsEntry(m', i)
    {
      if i < |m.stack| {
        assert IsEntry(m, i);
        var k :| 0 <= k < n && m.calls[k].entry == i;
        assert m'.calls[..n][k].entry == i;
      } else {
        assert m'.stack[i] == (plumbing + [entry])[i - |m.stack|];
        assert m'.calls[n].entry == i;
      }
    }
  }

  lemma CallKeepsInv(m: Machine, plumbing: seq<Frame>, entry: Frame, filtered: string -> bool)
    requires Inv(m, filtered) && Enabled(m, Call(plumbing, entry))
    ensures Inv(Apply(m, Call(plumbing, entry), filtered), filtered)
  {
    hide Segment, Collected, CallOk, Shape;
    var m' := Apply(m, Call(plumbing, entry), filtered);
    var n := |m.calls|;
    CallShape(m, plumbing, entry, m', filtered);
    NewCallOk(m, plumbing, entry, m', filtered);
    assert m'.current[..Base(m)] == m.current[..Base(m)];
    forall k | 0 <= k < |m'.calls|
      ensures CallOk(m', k, filtered)
    {
      if k < n { CallKeepsCall(m, m', k, filtered); }
    }
  }

  lemma NewCallOk(m: Machine, plumbing: seq<Frame>, entry: Frame, m': Machine, filtered: string -> bool)
    requires Inv(m, filtered) && Shape(m')
    requires Enabled(m, Call(plumbing, entry)) && m' == Apply(m, Call(plumbing, entry), filtered)
    ensures CallOk(m', |m.calls|, filtered) && m'.entryFrame == Boundary(m', |m'.calls|)
  {
    hide Segment, Collected;
    var n, site := |m.calls|, |m.stack| - 1;
    TopIsAboveEntries(m);
    SegmentIsScoped(m, site, filtered);
    assert m'.stack[..|m.stack|] == m.stack;
    assert m'.stack[Lo(m', n)..site] == m.stack[Lo(m', n)..site];
    assert m'.current[..Base(m) + n] == m.current;
  }

  lemma CallKeepsCall(m: Machine, m': Machine, k: nat, filtered: string -> bool)
    requires Shape(m) && Shape(m') && m'.origin == m.origin && k < |m.calls| <= |m'.calls|
    requires |m.current| == Base(m) + |m.calls| <= |m'.current|
    requires m'.calls[..|m.calls|] == m.calls && m'.current[..|m.current|] == m.current
    requires |m.stack| <= |m'.stack| && m'.stack[..|m.stack|] == m.stack && CallOk(m, k, filtered)
    ensures CallOk(m', k, filtered)
  {
    hide Collected;
    assert m'.calls[k] == m.calls[k] && Lo(m', k) == Lo(m, k) by {
      assert forall l :: 0 <= l < |m.calls| ==> m'.calls[..|m.calls|][l] == m.calls[l];
    }
    var lo, site := Lo(m, k), m.calls[k].site;
    assert lo <= site < |m.stack|;
    SameSlice(m'.stack, m.stack, |m.stack|, lo, site);
    assert m'.current[..Base(m) + k] == m'.current[..|m.current|][..Base(m) + k];
  }

  lemma TopHandlerIsLast(m: Machine)
    requires Shape(m) && m.stack != [] && Top(m).handler
    ensures m.calls != [] && m.calls[|m.calls| - 1].entry == |m.stack| - 1
  {
    assert IsEntry(m, |m.stack| - 1);
  }

  lemma LastHandlerIsLast(m: Machine, e: nat)
    requires Shape(m) && e < |m.stack|
    requires m.stack[e].handler && forall j :: e < j < |m.stack| ==> !m.stack[j].handler
    ensures m.calls != [] && m.calls[|m.calls| - 1].entry == e
  {
    assert IsEntry(m, e);
  }

  lemma ReturnShape(m: Machine, m': Machine, filtered: string -> bool)
    requires Inv(m, filtered) && Enabled(m, Return) && m' == Apply(m, Return, filtered)
    ensures Shape(m')
  {
    TopHandlerIsLast(m);
    forall i | 0 <= i < |m'.stack| && m'.stack[i].handler
      ensures IsEntry(m', i)
    {
      assert IsEntry(m, i);
      var k :| 0 <= k < |m.calls| && m.calls[k].entry == i;
      assert m'.calls[k].entry == i;
    }
  }

  lemma ReturnKeepsInv(m: Machine, filtered: string -> bool)
    requires Inv(m, filtered) && Enabled(m, Return)
    ensures Inv(Apply(m, Return, filtered), filtered)
  {
    hide Collected;
    var m' := Apply(m, Return, filtered);
    ReturnShape(m, m', filtered);
    hide Shape, CallOk, Boundary;
    ReturnRestores(m, m', filtered);
    forall k | 0 <= k < |m'.calls|
      ensures CallOk(m', k, filtered)
    {
      assert CallOk(m, k, filtered);
      ReturnKeepsCall(m, m', k, filtered);
    }
  }

  lemma ReturnRestores(m: Machine, m': Machine, filtered: string -> bool)
    requires Inv(m, filtered) && Enabled(m, Return) && m' == Apply(m, Return, filtered) && Shape(m')
    ensures m'.calls == m.calls[..|m.calls| - 1] && m'.current == m.current[..|m.current| - 1]
    ensures m'.origin == m.origin && m'.entryFrame == Boundary(m', |m'.calls|)
    ensures |m'.stack| <= |m.stack| && m'.stack == m.stack[..|m'.stack|]
  {
    hide Collected, IsEntry;
    assert CallOk(m, |m.calls| - 1, filtered);
  }

  lemma ReturnKeepsCall(m: Machine, m': Machine, k: nat, filtered: string -> bool)
    requires Shape(m) && Shape(m') && m'.origin == m.origin && k < |m'.calls| < |m.calls|
    requires |m.current| == Base(m) + |m.calls| && |m'.current| == Base(m) + |m'.calls|
    requires m'.calls == m.calls[..|m'.calls|] && m'.current == m.current[..|m'.current|]
    requires |m'.stack| <= |m.stack| && m'.stack == m.stack[..|m'.stack|] && CallOk(m, k, filtered)
    ensures CallOk(m', k, filtered)
  {
    hide Collected;
    assert m'.stack[Lo(m', k)..m'.calls[k].site] == m.stack[Lo(m', k)..m'.calls[k].site];
    assert m'.current[..Base(m) + k] == m.current[..Base(m) + k];
  }

  lemma StepKeepsInv(m: Machine, op: Op, filtered: string -> bool)
    requires Inv(m, filtered) && Enabled(m, op)
    ensures Inv(Apply(m, op, filtered), filtered)
  {
    hide Inv, Shape;
    var m' := Apply(m, op, filtered);
    match op {
      case Call(plumbing, entry) => CallKeepsInv(m, plumbing, entry, filtered);
      case Return => ReturnKeepsInv(m, filtered);
      case _ =>
        ChangeOf(m, op, filtered);
        ChangedKeepsInv(m, m', filtered);
    }
  }

  lemma ChangeOf(m: Machine, op: Op, filtered: string -> bool)
    requires Inv(m, filtered) && Enabled(m, op) && (op.Push? || op.Pop? || op.Move?)
    ensures Changed(m, Apply(m, op, filtered))
  {
    hide Shape, Changed;
    var m' := Apply(m, op, filtered);
    match op
    case Push(f) => PushChanges(m, f, m');
    case Pop => PopChanges(m, m');
    case Move(info) => MoveChanges(m, info, m');
  }

  lemma {:induction false} RunInv(states: seq<Machine>, ops: seq<Op>, filtered: string -> bool, i: nat)
    requires IsRun(states, ops, filtered) && i < |states|
    ensures Inv(states[i], filtered)
  {
    if i > 0 {
      RunInv(states, ops, filtered, i - 1);
      StepKeepsInv(states[i - 1], ops[i - 1], filtered);
    }
  }

  /** A number above those of all frames there are. */
  lemma {:induction false} Unused(stack: seq<Frame>, o: Origin) returns (id: nat)
    ensures forall i :: 0 <= i < |stack| ==> stack[i].id < id
    ensures o.entryFrame.Some? ==> o.entryFrame.value < id
    decreases |stack|
  {
    if stack == [] {
      id := if o.entryFrame.Some? then o.entryFrame.value + 1 else 0;
    } else {
      var n := |stack| - 1;
      id := Unused(stack[..n], o);
      assert forall i :: 0 <= i < n ==> stack[..n][i] == stack[i];
      id := if stack[n].id < id then id else stack[n].id + 1;
    }
  }

  /** Whatever code is running can call a task, and a handler can always end: calls may be nested at will. */
  lemma CodeGoesOn(states: seq<Machine>, ops: seq<Op>, filtered: string -> bool, i: nat)
    requires IsRun(states, ops, filtered) && i < |states|
    ensures var m := states[i];
            && (exists f :: Enabled(m, Push(f)))
            && (m.stack != [] && !Top(m).handler ==> exists entry :: Enabled(m, Call([], entry)))
            && (m.stack != [] && Top(m).handler ==> Enabled(m, Return))
  {
    RunInv(states, ops, filtered, i);
    var m := states[i];
    var id := Unused(m.stack, m.origin);
    var info := Info("", 0, "", "");
    assert Enabled(m, Push(Frame(id, false, info)));
    if m.stack != [] {
      if Top(m).handler {
        assert IsEntry(m, |m.stack| - 1);
      } else {
        assert m.stack + [] + [Frame(id, true, info)] == m.stack + [Frame(id, true, info)];
        assert Enabled(m, Call([], Frame(id, true, info)));
      }
    }
  }

  // ---- What the hops of a run record ----------------------------------------------------------------

  /**
    In every reachable state the current chain is the one inherited, followed by one hop per call in progress, in
    order.  The hop of the `k`-th call is numbered by its place in the chain, is root only as the first call of a task
    that inherited no handler, and its frames are the filtered, outermost-first frames strictly between its own handler
    and its call site - for the first call, from the task's outermost frame on - none of which is a handler frame.
   */
  lemma FrameScoping(states: seq<Machine>, ops: seq<Op>, filtered: string -> bool, i: nat, k: nat)
    requires IsRun(states, ops, filtered) && i < |states| && k < |states[i].calls|
    ensures var m := states[i];
            && |m.current| == Base(m) + |m.calls| && m.current[..Base(m)] == m.origin.hops
            && Lo(m, k) <= m.calls[k].site < |m.stack|
            && m.current[Base(m) + k] ==
               Hop(Base(m) + k, Collected(m.stack[Lo(m, k)..m.calls[k].site], filtered),
                   k == 0 && m.origin.entryFrame.None?)
            && (k > 0 ==> m.stack[Lo(m, k) - 1].handler)
            && (forall j :: Lo(m, k) <= j <= m.calls[k].site ==> !m.stack[j].handler)
  {
    hide Collected;
    RunInv(states, ops, filtered, i);
    var m := states[i];
    assert CallOk(m, k, filtered);
    forall l | 0 <= l < |m.calls|
      ensures m.calls[l].entry < Lo(m, k) || m.calls[k].site < m.calls[l].entry
    {
      if l < k - 1 { assert m.calls[l].entry < m.calls[k - 1].site; }
      if k < l { assert m.calls[k].entry < m.calls[l].site; }
    }
    assert forall j :: Lo(m, k) <= j <= m.calls[k].site ==> !IsEntry(m, j);
  }

  /** No frame is recorded by two hops. */
  lemma SegmentsAreDisjoint(states: seq<Machine>, ops: seq<Op>, filtered: string -> bool, i: nat, j: nat, k: nat)
    requires IsRun(states, ops, filtered) && i < |states| && j < k < |states[i].calls|
    ensures var m := states[i];
            && Lo(m, j) <= m.calls[j].site < Lo(m, k) <= m.calls[k].site < |m.stack|
            && (forall a, b :: Lo(m, j) <= a < m.calls[j].site && Lo(m, k) <= b < m.calls[k].site ==>
                  m.stack[a].id != m.stack[b].id)
  {
    RunInv(states, ops, filtered, i);
    var m := states[i];
    if j < k - 1 { assert m.calls[j].entry < m.calls[k - 1].site; }
  }

  /**
    An exception caught by the current handler has a traceback that starts at the handler's own frame; what is kept
    of it is everything behind that frame.
   */
  lemma {:induction false} RaiseFramesAreScoped(states: seq<Machine>, ops: seq<Op>, filtered: string -> bool,
                                                i: nat, e: nat, tb: seq<Frame>)
    requires IsRun(states, ops, filtered) && i < |states| && e < |states[i].stack|
    requires states[i].stack[e].handler && forall j :: e < j < |states[i].stack| ==> !states[i].stack[j].handler
    requires tb != [] && tb[0].id == states[i].stack[e].id
    ensures After(tb, states[i].entryFrame) == tb[1..]
  {
    RunInv(states, ops, filtered, i);
    LastHandlerIsLast(states[i], e);
    AfterBoundary([], tb[0], tb[1..]);
    assert [] + [tb[0]] + tb[1..] == tb;
  }

  /**
    In a task spawned by a handler the frame of that handler is on another stack: the first hop such a task makes is
    no root, and yet records everything from the task's outermost frame to the call site.
   */
  lemma SpawnedTaskIsNotScoped(states: seq<Machine>, ops: seq<Op>, filtered: string -> bool, i: nat)
    requires IsRun(states, ops, filtered) && i < |states| && states[i].calls != []
    requires states[i].origin.entryFrame.Some?
    ensures var m := states[i];
            && Base(m) < |m.current| && m.calls[0].site < |m.stack|
            && (forall j :: 0 <= j < |m.stack| ==> m.origin.entryFrame != Some(m.stack[j].id))
            && m.current[Base(m)] == Hop(Base(m), Collected(m.stack[..m.calls[0].site], filtered), false)
  {
    hide Collected;
    RunInv(states, ops, filtered, i);
    FrameScoping(states, ops, filtered, i, 0);
    var m := states[i];
    assert m.stack[0..m.calls[0].site] == m.stack[..m.calls[0].site];
  }

  // ---- A call leaves everything as it was -----------------------------------------------------------

  lemma BelowIsKept(m: Machine, op: Op, m': Machine, n: nat, filtered: string -> bool)
    requires Inv(m, filtered) && Enabled(m, op) && m' == Apply(m, op, filtered)
    requires n < |m.calls| && n < |m'.calls|
    ensures m'.origin == m.origin && m'.calls[n] == m.calls[n] && m.calls[n].entry <= |m'.stack|
    ensures m'.calls[..n] == m.calls[..n]
    ensures m'.stack[..m.calls[n].entry] == m.stack[..m.calls[n].entry]
  {
    hide Segment, Collected;
    if op.Pop? { TopIsAboveEntries(m); }
  }

  lemma {:induction false} DuringCall(states: seq<Machine>, ops: seq<Op>, filtered: string -> bool, i: nat, j: nat)
    requires IsRun(states, ops, filtered) && i < j < |states| && ops[i].Call?
    requires forall k :: i < k <= j ==> |states[k].calls| > |states[i].calls|
    ensures var m, m' := states[i], states[j]; var n := |m.calls|;
            && m'.origin == m.origin && m'.calls[..n] == m.calls && m'.calls[n].site == |m.stack| - 1
            && m'.calls[n].current == m.current && m'.calls[n].entryFrame == m.entryFrame
            && |m.stack| <= m'.calls[n].entry <= |m'.stack| && m'.stack[..|m.stack|] == m.stack
  {
    hide Segment, Collected, Inv, DistinctIds, Foreign;
    var n := |states[i].calls|;
    if j == i + 1 {
      assert states[j] == Apply(states[i], ops[i], filtered);
    } else {
      DuringCall(states, ops, filtered, i, j - 1);
      RunInv(states, ops, filtered, j - 1);
      BelowIsKept(states[j - 1], ops[j - 1], states[j], n, filtered);
      var len, e := |states[i].stack|, states[j].calls[n].entry;
      assert states[j].stack[..len] == states[j].stack[..e][..len] == states[j - 1].stack[..e][..len];
    }
  }

  /** From a call to its return, whatever happens in between: stack, `CURRENT` and `ENTRY_FRAME` are restored. */
  lemma CallRestores(states: seq<Machine>, ops: seq<Op>, filtered: string -> bool, i: nat, j: nat)
    requires IsRun(states, ops, filtered) && i < j < |ops| && ops[i].Call? && ops[j] == Return
    requires forall k :: i < k <= j ==> |states[k].calls| > |states[i].calls|
    requires |states[j + 1].calls| == |states[i].calls|
    ensures states[j + 1] == states[i]
  {
    hide Segment, Collected;
    DuringCall(states, ops, filtered, i, j);
    var n := |states[i].calls|;
    assert |states[j].calls| == n + 1;
    assert states[j + 1].stack == states[j].stack[..|states[i].stack|];
  }
}
