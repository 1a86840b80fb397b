/**
  The self-watchdog thread (`_SelfWatchdog`, service.py:111-159) beside the event loop it probes and
  the caller of `stop()`, as a timed step relation. Every step of the thread happens at most `lag`
  after it became possible; the event loop and the caller of `stop()` are free.
 */
module Watchdog {
  import opened Wrappers

  datatype Settings = Settings(period: real, timeout: real, lag: real)

  predicate SettingsOk(c: Settings) { c.period > 0.0 && c.timeout > 0.0 && c.lag >= 0.0 }

  /** Where the thread is, and since when. */
  datatype Pc =
    | Idle(at: real)                      // in `_stop.wait(period)`
    | Woken(at: real)                     // that wait returned False
    | Assigned(at: real, event: nat)      // `_acknowledgement` is the new event
    | Posted(at: real, event: nat)        // the probe is on the loop's queue
    | Probing(at: real, event: nat)       // in `acknowledgement.wait(timeout)`
    | Checked(at: real, acknowledged: bool)
    | Refused(at: real)                   // `call_soon_threadsafe` raised RuntimeError
    | Aborting(at: real)                  // SIGABRT was sent
    | Exited(at: real)

  datatype Stopper = NotCalled | FlagSet | Found | Joining

  datatype State = State(
    now: real,
    pc: Pc,
    events: nat,                          // acknowledgement events created so far
    acknowledgement: Option<nat>,
    fired: map<nat, real>,                // event -> when it was first set
    posted: map<nat, real>,               // event -> when its probe was posted
    stop: Option<real>,                   // when `_stop` was set
    stopper: Stopper,
    closed: bool                          // the loop is closed
  )

  datatype Action =
    | Tick(d: real)
    | Wake(stopped: bool) | Assign | Post | Await | Return(acknowledged: bool) | Decide | DecideRefused
    | RunProbe(event: nat) | CloseLoop
    | StopSets | StopReads | StopAcknowledges

  function Min(a: real, b: real): real { if a < b then a else b }
  function Max(a: real, b: real): real { if a < b then b else a }

  function Init(): State
  {
    State(0.0, Idle(0.0), 0, None, map[], map[], None, NotCalled, false)
  }

  /** Since when the thread's next step is possible. */
  function ReadySince(c: Settings, s: State): real
  {
    match s.pc
    case Idle(at) => if s.stop.Some? then Min(at + c.period, Max(at, s.stop.value)) else at + c.period
    case Probing(at, e) => if e in s.fired then Min(at + c.timeout, Max(at, s.fired[e])) else at + c.timeout
    case _ => s.pc.at
  }

  predicate Over(pc: Pc) { pc.Aborting? || pc.Exited? }

  /** A timed-out wait may miss an event set at its deadline or later, and no other. */
  predicate Enabled(c: Settings, s: State, a: Action)
  {
    match a
    case Tick(d) => d > 0.0 && (!Over(s.pc) ==> s.now + d <= ReadySince(c, s) + c.lag)
    case Wake(stopped) =>
      s.pc.Idle? &&
      (if stopped then s.stop.Some?
       else s.now >= s.pc.at + c.period && (s.stop.Some? ==> s.stop.value >= s.pc.at + c.period))
    case Assign => s.pc.Woken?
    case Post => s.pc.Assigned?
    case Await => s.pc.Posted?
    case Return(acknowledged) =>
      s.pc.Probing? &&
      (if acknowledged then s.pc.event in s.fired
       else s.now >= s.pc.at + c.timeout && (s.pc.event in s.fired ==> s.fired[s.pc.event] >= s.pc.at + c.timeout))
    case Decide => s.pc.Checked?
    case DecideRefused => s.pc.Refused?
    case RunProbe(e) => e in s.posted && !s.closed
    case CloseLoop => !s.closed
    case StopSets => s.stopper == NotCalled
    case StopReads => s.stopper == FlagSet
    case StopAcknowledges => s.stopper == Found
  }

  function SetEvent(s: State, e: nat): State
  {
    if e in s.fired then s else s.(fired := s.fired[e := s.now])
  }

  function Apply(c: Settings, s: State, a: Action): State
    requires Enabled(c, s, a)
  {
    match a
    case Tick(d) => s.(now := s.now + d)
    case Wake(stopped) => s.(pc := if stopped then Exited(s.now) else Woken(s.now))
    case Assign => s.(pc := Assigned(s.now, s.events), acknowledgement := Some(s.events), events := s.events + 1)
    case Post =>
      if s.closed then s.(pc := Refused(s.now))
      else s.(pc := Posted(s.now, s.pc.event), posted := s.posted[s.pc.event := s.now])
    case Await => s.(pc := Probing(s.now, s.pc.event))
    case Return(acknowledged) => s.(pc := Checked(s.now, acknowledged))
    case Decide => s.(pc := if s.pc.acknowledged || s.stop.Some? then Idle(s.now) else Aborting(s.now))
    case DecideRefused => s.(pc := if s.stop.Some? then Exited(s.now) else Aborting(s.now))
    case RunProbe(e) => SetEvent(s, e)
    case CloseLoop => s.(closed := true)
    case StopSets => s.(stop := Some(s.now), stopper := FlagSet)
    case StopReads => s.(stopper := if s.acknowledgement.Some? then Found else Joining)
    case StopAcknowledges =>
      (if s.acknowledgement.Some? then SetEvent(s, s.acknowledgement.value) else s).(stopper := Joining)
  }

  ghost predicate Step(c: Settings, s: State, a: Action, s': State) { Enabled(c, s, a) && s' == Apply(c, s, a) }

  ghost predicate IsRun(c: Settings, states: seq<State>, actions: seq<Action>)
  {
    && |states| == |actions| + 1
    && states[0] == Init()
    && forall i :: 0 <= i < |actions| ==> Step(c, states[i], actions[i], states[i + 1])
  }

  // ---- What holds of every run ----------------------------------------------------------------------

  /** No time stamp lies in the future, probes are of created events, and the current event is the field's. */
  ghost predicate Stamps(s: State)
  {
    && s.pc.at <= s.now
    && (s.stop.Some? ==> s.stop.value <= s.now)
    && (s.stop.Some? <==> s.stopper != NotCalled)
    && (s.stopper == Found ==> s.acknowledgement.Some?)
    && (forall e :: e in s.fired ==> s.fired[e] <= s.now && e < s.events)
    && (forall e :: e in s.posted ==> s.posted[e] <= s.now && e < s.events)
    && (s.acknowledgement.Some? ==> s.acknowledgement.value < s.events)
    && (s.pc.Assigned? || s.pc.Posted? || s.pc.Probing? ==> s.acknowledgement == Some(s.pc.event))
    && (s.pc.Posted? || s.pc.Probing? ==> s.pc.event in s.posted && s.posted[s.pc.event] <= s.pc.at)
    && (s.pc.Assigned? ==> s.pc.event !in s.posted)
  }

  /** ...and the thread is never overdue. */
  ghost predicate Inv(c: Settings, s: State)
  {
    Stamps(s) && (!Over(s.pc) ==> s.now <= ReadySince(c, s) + c.lag)
  }

  lemma StepKeepsStamps(c: Settings, s: State, a: Action, s': State)
    requires Stamps(s) && Step(c, s, a, s')
    ensures Stamps(s')
  {
  }

  lemma StepKeepsInv(c: Settings, s: State, a: Action, s': State)
    requires SettingsOk(c) && Inv(c, s) && Step(c, s, a, s')
    ensures Inv(c, s')
  {
    StepKeepsStamps(c, s, a, s');
  }

  lemma {:induction false} RunInv(c: Settings, states: seq<State>, actions: seq<Action>, i: nat)
    requires SettingsOk(c) && IsRun(c, states, actions) && i < |states|
    ensures Inv(c, states[i])
  {
    hide Enabled, Apply;
    if i > 0 {
      RunInv(c, states, actions, i - 1);
      StepKeepsInv(c, states[i - 1], actions[i - 1], states[i]);
    }
  }

  predicate OfTheThread(a: Action)
  {
    a.Wake? || a.Assign? || a.Post? || a.Await? || a.Return? || a.Decide? || a.DecideRefused?
  }

  /** The time limits never block: until the thread is over, it can take a step or time can pass. */
  lemma NeverStuck(c: Settings, states: seq<State>, actions: seq<Action>, i: nat)
    requires SettingsOk(c) && IsRun(c, states, actions) && i < |states|
    ensures (exists a :: OfTheThread(a) && Enabled(c, states[i], a))
            || (exists d :: d > 0.0 && Enabled(c, states[i], Tick(d)))
  {
    RunInv(c, states, actions, i);
    var s := states[i];
    if Over(s.pc) {
      assert Enabled(c, s, Tick(1.0));
    } else if s.now < ReadySince(c, s) {
      assert Enabled(c, s, Tick(ReadySince(c, s) - s.now));
    } else {
      ReadyMeansEnabled(c, s);
    }
  }

  lemma ReadyMeansEnabled(c: Settings, s: State)
    requires SettingsOk(c) && Inv(c, s) && !Over(s.pc) && s.now >= ReadySince(c, s)
    ensures exists a :: OfTheThread(a) && Enabled(c, s, a)
  {
    var a := match s.pc
      case Idle(_) => Wake(s.stop.Some?)
      case Woken(_) => Assign
      case Assigned(_, _) => Post
      case Posted(_, _) => Await
      case Probing(_, e) => Return(e in s.fired)
      case Checked(_, _) => Decide
      case _ => DecideRefused;
    assert OfTheThread(a) && Enabled(c, s, a);
  }

  /** Nor do they keep the caller of `stop()` from going on, or an open loop from running a probe or being closed. */
  lemma OthersAreFree(c: Settings, states: seq<State>, actions: seq<Action>, i: nat)
    requires SettingsOk(c) && IsRun(c, states, actions) && i < |states|
    ensures states[i].stopper != Joining ==>
              exists a :: (a == StopSets || a == StopReads || a == StopAcknowledges) && Enabled(c, states[i], a)
    ensures !states[i].closed ==>
              && Enabled(c, states[i], CloseLoop)
              && forall e :: e in states[i].posted ==> Enabled(c, states[i], RunProbe(e))
  {
    var s := states[i];
    if s.stopper != Joining {
      assert Enabled(c, s, if s.stopper == NotCalled then StopSets
                           else if s.stopper == FlagSet then StopReads else StopAcknowledges);
    }
  }

  lemma {:induction false} TimePasses(c: Settings, states: seq<State>, actions: seq<Action>, i: nat, j: nat)
    requires IsRun(c, states, actions) && i <= j < |states|
    ensures states[i].now <= states[j].now
    decreases j
  {
    if i < j {
      TimePasses(c, states, actions, i, j - 1);
      assert Step(c, states[j - 1], actions[j - 1], states[j - 1 + 1]);
    }
  }

  // ---- Probes are a period apart --------------------------------------------------------------------

  /** The thread posted a probe at `t`, and waits a whole period before it posts another. */
  ghost predicate Spaced(c: Settings, s: State, t: real)
  {
    match s.pc
    case Woken(at) => at >= t + c.period
    case Assigned(at, _) => at >= t + c.period
    case _ => s.pc.at >= t
  }

  lemma StepKeepsSpaced(c: Settings, s: State, a: Action, s': State, t: real)
    requires SettingsOk(c) && Inv(c, s) && Step(c, s, a, s') && (Spaced(c, s, t) || (a == Post && t <= s.now))
    ensures Spaced(c, s', t)
    ensures a == Post && Spaced(c, s, t) ==> s.now >= t + c.period
  {
  }

  /** However fast the loop answers, it is probed at most once in a period. */
  lemma ProbesAreSpaced(c: Settings, states: seq<State>, actions: seq<Action>, j: nat, k: nat)
    requires SettingsOk(c) && IsRun(c, states, actions) && j < k < |actions|
    requires actions[j] == Post && actions[k] == Post
    ensures states[k].now >= states[j].now + c.period
  {
    hide Enabled, Apply, Inv, Spaced;
    StaysSpaced(c, states, actions, j, k);
    RunInv(c, states, actions, k);
    assert Step(c, states[k], actions[k], states[k + 1]);
    StepKeepsSpaced(c, states[k], Post, states[k + 1], states[j].now);
  }

  lemma {:induction false} StaysSpaced(c: Settings, states: seq<State>, actions: seq<Action>, j: nat, k: nat)
    requires SettingsOk(c) && IsRun(c, states, actions) && j < k < |states| && actions[j] == Post
    ensures Spaced(c, states[k], states[j].now)
    decreases k
  {
    hide Enabled, Apply, Inv, Spaced;
    if j + 1 < k { StaysSpaced(c, states, actions, j, k - 1); }
    RunInv(c, states, actions, k - 1);
    assert Step(c, states[k - 1], actions[k - 1], states[k - 1 + 1]);
    StepKeepsSpaced(c, states[k - 1], actions[k - 1], states[k], states[j].now);
  }

  // ---- A responsive loop is never aborted -----------------------------------------------------------

  /** The loop is open until `stop()` is called, and no probe is left waiting for `timeout`. */
  ghost predicate Responsive(c: Settings, s: State)
  {
    && (s.closed ==> s.stop.Some?)
    && (forall e :: e in s.posted && e !in s.fired ==> s.now < s.posted[e] + c.timeout)
  }

  ghost predicate Acknowledged(c: Settings, s: State)
  {
    && (forall e :: e in s.posted && e in s.fired ==> s.fired[e] < s.posted[e] + c.timeout)
    && (s.pc.Refused? ==> s.stop.Some?)
    && (s.pc.Checked? ==> s.pc.acknowledged)
    && !s.pc.Aborting?
  }

  lemma StepKeepsAcknowledged(c: Settings, s: State, a: Action, s': State)
    requires SettingsOk(c) && Inv(c, s) && Step(c, s, a, s') && Responsive(c, s) && Acknowledged(c, s)
    ensures Acknowledged(c, s')
  {
  }

  /** If every probe is run within the timeout, no abort ever begins. */
  lemma {:induction false} ResponsiveLoopIsNeverAborted(c: Settings, states: seq<State>, actions: seq<Action>, i: nat)
    requires SettingsOk(c) && IsRun(c, states, actions) && i < |states|
    requires forall j :: 0 <= j < i ==> Responsive(c, states[j])
    ensures Acknowledged(c, states[i])
    ensures !states[i].pc.Aborting?
  {
    hide Enabled, Apply, Inv;
    if i > 0 {
      ResponsiveLoopIsNeverAborted(c, states, actions, i - 1);
      RunInv(c, states, actions, i - 1);
      StepKeepsAcknowledged(c, states[i - 1], actions[i - 1], states[i]);
    }
  }

  /** The loop ran the probe of event `e` within the timeout. */
  ghost predicate RunInTime(c: Settings, states: seq<State>, actions: seq<Action>, e: nat, posted: real, j: nat)
    requires |states| == |actions| + 1
  {
    exists k :: 0 <= k < j && k < |actions| && actions[k] == RunProbe(e) && states[k].now < posted + c.timeout
  }

  /** In terms of what the loop does: it is open until `stop()`, and runs every probe within the timeout. */
  lemma LivelyLoopIsNeverAborted(c: Settings, states: seq<State>, actions: seq<Action>, i: nat)
    requires SettingsOk(c) && IsRun(c, states, actions) && i < |states|
    requires forall j :: 0 <= j < i ==> (actions[j] == CloseLoop ==> states[j].stop.Some?)
    requires forall j, e :: 0 <= j < i && e in states[j].posted && states[j].now >= states[j].posted[e] + c.timeout ==>
               RunInTime(c, states, actions, e, states[j].posted[e], j)
    ensures !states[i].pc.Aborting?
  {
    hide Enabled, Apply, Inv;
    forall j | 0 <= j < i
      ensures Responsive(c, states[j])
    {
      ClosedBySomeone(c, states, actions, j);
      forall e | e in states[j].posted && states[j].now >= states[j].posted[e] + c.timeout
        ensures e in states[j].fired
      {
        var k :| 0 <= k < j && actions[k] == RunProbe(e) && states[k].now < states[j].posted[e] + c.timeout;
        ProbeFires(c, states, actions, k, e, j);
      }
    }
    ResponsiveLoopIsNeverAborted(c, states, actions, i);
  }

  /** Running a probe sets its event, for good. */
  lemma {:induction false} ProbeFires(c: Settings, states: seq<State>, actions: seq<Action>, k: nat, e: nat, j: nat)
    requires SettingsOk(c) && IsRun(c, states, actions) && k < j < |states| && actions[k] == RunProbe(e)
    ensures e in states[j].fired
    decreases j
  {
    if k + 1 < j { ProbeFires(c, states, actions, k, e, j - 1); }
    assert Step(c, states[j - 1], actions[j - 1], states[j - 1 + 1]);
  }

  lemma {:induction false} ClosedBySomeone(c: Settings, states: seq<State>, actions: seq<Action>, j: nat)
    requires IsRun(c, states, actions) && j < |states|
    requires forall k :: 0 <= k < j ==> (actions[k] == CloseLoop ==> states[k].stop.Some?)
    ensures states[j].closed ==> states[j].stop.Some?
    decreases j
  {
    if j > 0 {
      ClosedBySomeone(c, states, actions, j - 1);
      assert Step(c, states[j - 1], actions[j - 1], states[j - 1 + 1]);
    }
  }

  // ---- A dead loop is aborted in time ---------------------------------------------------------------

  /** The latest time at which a thread can be where it is when the loop ran its last probe at `t`. */
  ghost predicate OnTime(c: Settings, s: State, t: real)
  {
    var abort := t + c.period + c.timeout + 9.0 * c.lag;
    && s.stop.None?
    && (forall e :: e in s.fired ==> s.fired[e] <= t)
    && match s.pc
       case Idle(at) => at <= t + 3.0 * c.lag
       case Woken(at) => at <= t + c.period + 4.0 * c.lag
       case Assigned(at, e) => at <= t + c.period + 5.0 * c.lag && e !in s.fired
       case Posted(at, e) => at <= (if e in s.fired then t else t + c.period + 6.0 * c.lag)
       case Probing(at, e) => at <= (if e in s.fired then t + c.lag else t + c.period + 7.0 * c.lag)
       case Checked(at, acknowledged) => at <= (if acknowledged then t + 2.0 * c.lag else abort - c.lag)
       case Refused(at) => at <= t + c.period + 6.0 * c.lag
       case Aborting(at) => at <= abort
       case Exited(_) => false
  }

  lemma StepKeepsOnTime(c: Settings, s: State, a: Action, s': State, t: real)
    requires SettingsOk(c) && Inv(c, s) && Step(c, s, a, s') && OnTime(c, s, t)
    requires a.RunProbe? ==> s.now <= t
    requires a != StopSets
    ensures OnTime(c, s', t)
  {
    hide OnTime, Inv;
    if OfTheThread(a) { ThreadKeepsOnTime(c, s, a, s', t); } else { OthersKeepOnTime(c, s, a, s', t); }
  }

  lemma ThreadKeepsOnTime(c: Settings, s: State, a: Action, s': State, t: real)
    requires SettingsOk(c) && Inv(c, s) && Step(c, s, a, s') && OnTime(c, s, t) && OfTheThread(a)
    ensures OnTime(c, s', t)
  {
  }

  lemma OthersKeepOnTime(c: Settings, s: State, a: Action, s': State, t: real)
    requires SettingsOk(c) && Inv(c, s) && Step(c, s, a, s') && OnTime(c, s, t) && !OfTheThread(a)
    requires a.RunProbe? ==> s.now <= t
    requires a != StopSets
    ensures OnTime(c, s', t)
  {
  }

  lemma {:induction false} RunIsOnTime(c: Settings, states: seq<State>, actions: seq<Action>, t: real, i: nat)
    requires SettingsOk(c) && IsRun(c, states, actions) && i < |states| && t >= 0.0
    requires forall j :: 0 <= j < i ==> (actions[j].RunProbe? ==> states[j].now <= t) && actions[j] != StopSets
    ensures OnTime(c, states[i], t)
  {
    hide Enabled, Apply, Inv, Step;
    if i == 0 {
      assert OnTime(c, states[0], t);
    } else {
      hide OnTime;
      RunIsOnTime(c, states, actions, t, i - 1);
      RunInv(c, states, actions, i - 1);
      StepKeepsOnTime(c, states[i - 1], actions[i - 1], states[i], t);
    }
  }

  /**
    If the loop runs no probe after `t` and `stop()` is not called, SIGABRT is sent by
    `t + period + timeout`, give or take the thread's own delays.
   */
  lemma DeadLoopIsAborted(c: Settings, states: seq<State>, actions: seq<Action>, t: real, i: nat)
    requires SettingsOk(c) && IsRun(c, states, actions) && i < |states| && t >= 0.0
    requires forall j :: 0 <= j < i ==> (actions[j].RunProbe? ==> states[j].now <= t) && actions[j] != StopSets
    requires states[i].now > t + c.period + c.timeout + 9.0 * c.lag
    ensures states[i].pc.Aborting? && states[i].pc.at <= t + c.period + c.timeout + 9.0 * c.lag
  {
    RunIsOnTime(c, states, actions, t, i);
    RunInv(c, states, actions, i);
  }

  /** A loop that is closed without `stop()` is a dead one: it runs no probe any more, and the process is aborted. */
  lemma ClosedLoopIsAborted(c: Settings, states: seq<State>, actions: seq<Action>, k: nat, i: nat)
    requires SettingsOk(c) && IsRun(c, states, actions) && k < i < |states|
    requires actions[k] == CloseLoop && forall j :: 0 <= j < i ==> actions[j] != StopSets
    requires states[i].now > states[k].now + c.period + c.timeout + 9.0 * c.lag
    ensures states[i].pc.Aborting? && states[i].pc.at <= states[k].now + c.period + c.timeout + 9.0 * c.lag
  {
    hide Enabled, Apply, Inv, OnTime;
    TimePasses(c, states, actions, 0, k);
    forall j | 0 <= j < i && actions[j].RunProbe?
      ensures states[j].now <= states[k].now
    {
      if j <= k {
        TimePasses(c, states, actions, j, k);
      } else {
        NoProbeAfterClosing(c, states, actions, k, j);
      }
    }
    DeadLoopIsAborted(c, states, actions, states[k].now, i);
  }

  lemma {:induction false} StaysClosed(c: Settings, states: seq<State>, actions: seq<Action>, k: nat, j: nat)
    requires IsRun(c, states, actions) && k < j < |states| && actions[k] == CloseLoop
    ensures states[j].closed
    decreases j
  {
    if k + 1 < j { StaysClosed(c, states, actions, k, j - 1); }
    assert Step(c, states[j - 1], actions[j - 1], states[j - 1 + 1]);
  }

  lemma NoProbeAfterClosing(c: Settings, states: seq<State>, actions: seq<Action>, k: nat, j: nat)
    requires IsRun(c, states, actions) && k < j < |actions| && actions[k] == CloseLoop
    ensures !actions[j].RunProbe?
  {
    StaysClosed(c, states, actions, k, j);
    assert Step(c, states[j], actions[j], states[j + 1]);
  }

  // ---- stop() ---------------------------------------------------------------------------------------

  /** The latest time at which a thread can be where it is after `_stop` was set at `t`. */
  ghost predicate Leaving(c: Settings, s: State, t: real)
  {
    && s.stop == Some(t)
    && match s.pc
       case Idle(at) => at <= t + c.timeout + 6.0 * c.lag
       case Woken(at) => at <= t + c.lag
       case Assigned(at, _) => at <= t + 2.0 * c.lag
       case Posted(at, _) => at <= t + 3.0 * c.lag
       case Probing(at, _) => at <= t + 4.0 * c.lag
       case Checked(at, _) => at <= t + c.timeout + 5.0 * c.lag
       case Refused(at) => at <= t + 3.0 * c.lag
       case Exited(at) => at <= t + c.timeout + 7.0 * c.lag
       case Aborting(_) => false
  }

  lemma StepKeepsLeaving(c: Settings, s: State, a: Action, s': State, t: real)
    requires SettingsOk(c) && Inv(c, s) && Step(c, s, a, s') && Leaving(c, s, t)
    ensures Leaving(c, s', t)
  {
  }

  /**
    After `stop()` the thread begins no abort and leaves within `timeout` plus its own delays, whatever it
    was doing: also when it replaces the acknowledgement event that `stop()` sets.
   */
  lemma {:induction false} StoppedThreadLeaves(c: Settings, states: seq<State>, actions: seq<Action>, k: nat, i: nat)
    requires SettingsOk(c) && IsRun(c, states, actions) && k < i < |states|
    requires actions[k] == StopSets && !states[k].pc.Aborting?
    requires !states[k].pc.Exited?
    ensures Leaving(c, states[i], states[k].now)
    ensures states[i].now > states[k].now + c.timeout + 7.0 * c.lag ==> states[i].pc.Exited?
  {
    var t := states[k].now;
    RunInv(c, states, actions, i - 1);
    if i == k + 1 {
      assert states[i] == Apply(c, states[k], StopSets);
    } else {
      StoppedThreadLeaves(c, states, actions, k, i - 1);
      StepKeepsLeaving(c, states[i - 1], actions[i - 1], states[i], t);
    }
    RunInv(c, states, actions, i);
  }

  /** So the bounded join waits long enough when the thread's seven steps take no more than `period + 1`. */
  lemma JoinIsLongEnough(c: Settings, states: seq<State>, actions: seq<Action>, k: nat, i: nat)
    requires SettingsOk(c) && IsRun(c, states, actions) && k < i < |states|
    requires actions[k] == StopSets && !Over(states[k].pc)
    requires 7.0 * c.lag <= c.period + 1.0
    requires states[i].now > states[k].now + c.period + c.timeout + 1.0
    ensures states[i].pc.Exited?
  {
    StoppedThreadLeaves(c, states, actions, k, i);
  }

  /** The thread has seen, or will see without waiting, that it is to stop. */
  ghost predicate Prompt(c: Settings, s: State)
  {
    && s.stop.Some?
    && match s.pc
       case Idle(at) => s.stop.value < at + c.period
       case Assigned(_, e) => e in s.fired
       case Posted(_, e) => e in s.fired
       case Probing(at, e) => e in s.fired
       case Checked(_, _) => true
       case Refused(_) => true
       case Exited(_) => true
       case _ => false
  }

  /** An upper bound on when a prompt thread exits. */
  ghost function ExitBy(c: Settings, s: State): real
    requires Prompt(c, s)
  {
    match s.pc
    case Idle(at) => Max(at, s.stop.value) + c.lag
    case Assigned(at, _) => Max(at, s.stop.value) + 5.0 * c.lag
    case Posted(at, _) => Max(at, s.stop.value) + 4.0 * c.lag
    case Probing(at, e) => Max(Max(at, s.fired[e]), s.stop.value) + 3.0 * c.lag
    case Checked(at, _) => Max(at, s.stop.value) + 2.0 * c.lag
    case Refused(at) => Max(at, s.stop.value) + c.lag
    case Exited(at) => at
  }

  lemma StepKeepsPrompt(c: Settings, s: State, a: Action, s': State)
    requires SettingsOk(c) && Inv(c, s) && Step(c, s, a, s') && Prompt(c, s)
    ensures Prompt(c, s') && ExitBy(c, s') <= ExitBy(c, s)
  {
  }

  lemma {:induction false} PromptStays(c: Settings, states: seq<State>, actions: seq<Action>, j: nat, i: nat)
    requires SettingsOk(c) && IsRun(c, states, actions) && j <= i < |states| && Prompt(c, states[j])
    ensures Prompt(c, states[i]) && ExitBy(c, states[i]) <= ExitBy(c, states[j])
    decreases i
  {
    hide Prompt, ExitBy, Enabled, Apply, Inv;
    if i > j {
      PromptStays(c, states, actions, j, i - 1);
      RunInv(c, states, actions, i - 1);
      StepKeepsPrompt(c, states[i - 1], actions[i - 1], states[i]);
    }
  }

  /** Without the race - `stop()` sets the event the thread waits for - it leaves without any waiting. */
  lemma UnracedStopIsPrompt(c: Settings, states: seq<State>, actions: seq<Action>, k: nat, i: nat)
    requires SettingsOk(c) && IsRun(c, states, actions) && k < i < |states|
    requires actions[k] == StopAcknowledges
    requires states[k].pc.Assigned? || states[k].pc.Posted? || states[k].pc.Probing?
    ensures Prompt(c, states[i]) && ExitBy(c, states[i]) <= states[k].now + 5.0 * c.lag
    ensures states[i].now > states[k].now + 5.0 * c.lag ==> states[i].pc.Exited?
  {
    hide Prompt, ExitBy, Enabled, Apply, Inv;
    RunInv(c, states, actions, k);
    SettingItMakesItPrompt(c, states[k], states[k + 1]);
    PromptStays(c, states, actions, k + 1, i);
    RunInv(c, states, actions, i);
    if states[i].now > ExitBy(c, states[i]) { PromptMeansSoon(c, states[i]); }
  }

  lemma SettingItMakesItPrompt(c: Settings, s: State, s': State)
    requires SettingsOk(c) && Inv(c, s) && Step(c, s, StopAcknowledges, s')
    requires s.pc.Assigned? || s.pc.Posted? || s.pc.Probing?
    ensures Prompt(c, s') && ExitBy(c, s') <= s.now + 5.0 * c.lag
  {
  }

  lemma PromptMeansSoon(c: Settings, s: State)
    requires SettingsOk(c) && Inv(c, s) && Prompt(c, s) && s.now > ExitBy(c, s)
    ensures s.pc.Exited?
  {
  }

  // ---- A closed loop --------------------------------------------------------------------------------

  /** Since the probe was refused at `t`, the thread has not gone back to waiting. */
  ghost predicate Refusal(c: Settings, s: State, t: real)
  {
    match s.pc
    case Refused(at) => at <= t
    case Aborting(at) => at <= t + c.lag
    case Exited(at) => at <= t + c.lag && s.stop.Some? && s.stop.value <= at
    case _ => false
  }

  lemma StepKeepsRefusal(c: Settings, s: State, a: Action, s': State, t: real)
    requires SettingsOk(c) && Inv(c, s) && Step(c, s, a, s') && Refusal(c, s, t)
    ensures Refusal(c, s', t)
    ensures s.pc.Refused? && s'.pc.Aborting? ==> s.stop.None?
  {
  }

  /**
    Posting a probe to a closed loop ends the thread at once: it aborts the process, unless `stop()` was called by
    then, and in that case it exits.
   */
  lemma {:induction false} ClosedLoopEndsTheThread(c: Settings, states: seq<State>, actions: seq<Action>,
                                                   k: nat, i: nat)
    requires SettingsOk(c) && IsRun(c, states, actions) && k < i < |states|
    requires actions[k] == Post && states[k].closed
    ensures Refusal(c, states[i], states[k].now)
    ensures states[i].now > states[k].now + c.lag ==> states[i].pc.Aborting? || states[i].pc.Exited?
    ensures states[k].stop.Some? ==> !states[i].pc.Aborting?
    decreases i
  {
    RunInv(c, states, actions, i - 1);
    assert Step(c, states[i - 1], actions[i - 1], states[i - 1 + 1]);
    if i > k + 1 {
      ClosedLoopEndsTheThread(c, states, actions, k, i - 1);
      StepKeepsRefusal(c, states[i - 1], actions[i - 1], states[i], states[k].now);
      if states[k].stop.Some? { StopStays(c, states, actions, k, i - 1); }
    }
    RunInv(c, states, actions, i);
  }

  lemma {:induction false} StopStays(c: Settings, states: seq<State>, actions: seq<Action>, k: nat, i: nat)
    requires IsRun(c, states, actions) && k <= i < |states| && states[k].stop.Some?
    ensures states[i].stop.Some?
    decreases i
  {
    if i > k {
      StopStays(c, states, actions, k, i - 1);
      assert Step(c, states[i - 1], actions[i - 1], states[i - 1 + 1]);
    }
  }

  // ---- stop() sets the event ------------------------------------------------------------------------

  predicate Fired(s: State, event: Option<nat>) { event.Some? ==> event.value in s.fired }

  /**
    Only the newest event can be unset: the thread makes another one only after the one before was set.  A thread that
    goes back to waiting without it has been told to stop, and makes no other.
   */
  ghost predicate OlderFired(c: Settings, s: State)
  {
    && (forall e :: 0 <= e < s.events ==> e in s.fired || s.acknowledgement == Some(e))
    && match s.pc
       case Idle(at) => Fired(s, s.acknowledgement) || (s.stop.Some? && s.stop.value <= at)
       case Woken(_) => Fired(s, s.acknowledgement)
       case Checked(_, acknowledged) => acknowledged ==> Fired(s, s.acknowledgement)
       case _ => true
  }

  lemma StepKeepsOlderFired(c: Settings, s: State, a: Action, s': State)
    requires SettingsOk(c) && Inv(c, s) && Step(c, s, a, s') && OlderFired(c, s)
    ensures OlderFired(c, s')
    ensures forall e :: e in s.fired ==> e in s'.fired
  {
  }

  lemma {:induction false} RunOlderFired(c: Settings, states: seq<State>, actions: seq<Action>, i: nat)
    requires SettingsOk(c) && IsRun(c, states, actions) && i < |states|
    ensures OlderFired(c, states[i])
  {
    hide Enabled, Apply, Inv;
    if i == 0 {
      assert OlderFired(c, states[0]);
    } else {
      hide OlderFired;
      RunOlderFired(c, states, actions, i - 1);
      RunInv(c, states, actions, i - 1);
      StepKeepsOlderFired(c, states[i - 1], actions[i - 1], states[i]);
    }
  }

  /** What `stop()` has read, it is still about to set, or it is set. */
  predicate StopOwes(s: State, e: nat) { e < s.events && (e in s.fired || s.stopper == Found) }

  /**
    Once `stop()` has read an event and goes on to join the thread, that event is set - by itself, or because the
    thread has meanwhile replaced it, which it does only with an event that is set.
   */
  lemma {:induction false} StopSetsTheEvent(c: Settings, states: seq<State>, actions: seq<Action>,
                                            k: nat, e: nat, j: nat)
    requires SettingsOk(c) && IsRun(c, states, actions) && k < j < |states|
    requires actions[k] == StopReads && states[k].acknowledgement == Some(e)
    ensures StopOwes(states[j], e)
    ensures states[j].stopper == Joining ==> e in states[j].fired
    decreases j
  {
    RunInv(c, states, actions, j - 1);
    if j > k + 1 {
      StopSetsTheEvent(c, states, actions, k, e, j - 1);
      RunOlderFired(c, states, actions, j - 1);
      StopStepOwes(c, states[j - 1], actions[j - 1], states[j], e);
    }
  }

  lemma StopStepOwes(c: Settings, s: State, a: Action, s': State, e: nat)
    requires Inv(c, s) && Step(c, s, a, s') && OlderFired(c, s) && StopOwes(s, e)
    ensures StopOwes(s', e)
  {
  }

  /** The thread will exit without a wait, but for that of the event `e`. */
  ghost predicate WaitsAtMostFor(c: Settings, s: State, e: nat)
  {
    && s.stop.Some?
    && match s.pc
       case Idle(at) => s.stop.value < at + c.period
       case Assigned(_, event) => event == e
       case Posted(_, event) => event == e
       case Probing(_, event) => event == e
       case Woken(_) => false
       case Aborting(_) => false
       case _ => true
  }

  lemma StepKeepsWaiting(c: Settings, s: State, a: Action, s': State, e: nat)
    requires SettingsOk(c) && Inv(c, s) && Step(c, s, a, s') && WaitsAtMostFor(c, s, e)
    ensures WaitsAtMostFor(c, s', e)
  {
  }

  lemma {:induction false} WaitingStays(c: Settings, states: seq<State>, actions: seq<Action>, k: nat, e: nat, j: nat)
    requires SettingsOk(c) && IsRun(c, states, actions) && k <= j < |states| && WaitsAtMostFor(c, states[k], e)
    ensures WaitsAtMostFor(c, states[j], e)
    decreases j
  {
    hide WaitsAtMostFor, Enabled, Apply, Inv;
    if j > k {
      WaitingStays(c, states, actions, k, e, j - 1);
      RunInv(c, states, actions, j - 1);
      StepKeepsWaiting(c, states[j - 1], actions[j - 1], states[j], e);
    }
  }

  lemma FiredMakesItPrompt(c: Settings, s: State, e: nat)
    requires SettingsOk(c) && Inv(c, s) && WaitsAtMostFor(c, s, e) && e in s.fired
    ensures Prompt(c, s) && ExitBy(c, s) <= s.now + 5.0 * c.lag
  {
  }

  lemma StopWasSet(c: Settings, states: seq<State>, actions: seq<Action>, k: nat)
    requires SettingsOk(c) && IsRun(c, states, actions) && k < |actions| && actions[k] == StopReads
    ensures states[k].stop.Some?
  {
    RunInv(c, states, actions, k);
    assert Step(c, states[k], actions[k], states[k + 1]);
  }

  /**
    When the event `stop()` reads is the one the thread is going to wait for or waits for, the thread exits without
    any waiting, counted from when `stop()` begins to join it: setting the event is what does it.
   */
  lemma StopIsPrompt(c: Settings, states: seq<State>, actions: seq<Action>, k: nat, e: nat, j: nat, i: nat)
    requires SettingsOk(c) && IsRun(c, states, actions) && k < j <= i < |states|
    requires actions[k] == StopReads && states[k].acknowledgement == Some(e)
    requires states[k].pc.Assigned? || states[k].pc.Posted? || states[k].pc.Probing?
    requires states[j].stopper == Joining
    ensures states[i].now > states[j].now + 5.0 * c.lag ==> states[i].pc.Exited?
  {
    RunInv(c, states, actions, k);
    StopWasSet(c, states, actions, k);
    assert WaitsAtMostFor(c, states[k], e);
    hide Prompt, ExitBy, Enabled, Apply, Inv, WaitsAtMostFor, StopOwes;
    WaitingStays(c, states, actions, k, e, j);
    StopSetsTheEvent(c, states, actions, k, e, j);
    RunInv(c, states, actions, j);
    FiredMakesItPrompt(c, states[j], e);
    PromptStays(c, states, actions, j, i);
    RunInv(c, states, actions, i);
    if states[i].now > ExitBy(c, states[i]) { PromptMeansSoon(c, states[i]); }
  }
}
