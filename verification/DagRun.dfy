/** A whole run under dag-v2, one interleaving at a time: executeToolCallsDagLevels, runDagLevelCalls and the stop rules of
    runLoop (packages/agent/src/agent-loop.ts) around the race of each call (packages/agent/src/tool-timeout.ts). */
module DagRun {
  import opened Strings
  import opened Runs
  import opened Claims
  import opened ClaimResolvers
  import opened DagPlan
  import T = ToolTimeout

  /** Calls are numbered in the order in which their candidate levels pass authorization. */
  datatype State = State(
    aborted: bool,
    stopped: bool,
    resolutions: seq<Resolution>,
    queue: seq<seq<nat>>,
    current: seq<nat>,
    launched: bool,
    races: map<nat, T.Race>,
    finalized: set<nat>)

  const BEGIN := State(false, false, [], [], [], true, map[], {})

  datatype Action =
    | EnterLevel(calls: seq<Call>, options: Options, width: Width)
    | OpenExecutionLevel
    | Launch(timeouts: map<nat, real>, audit: bool)
    | InRace(call: nat, action: T.Action)
    | Abort
    | FinalizeCall(call: nat)
    | FinishExecutionLevel
    | StopRun

  /** The call's tool promise exists and has not settled. */
  predicate Unsettled(r: T.Race) {
    r.outcome != Some(T.NeverStarted) && r.settled.None?
  }

  function Numbered(level: seq<nat>, from: nat): seq<nat> {
    seq(|level|, k requires 0 <= k < |level| => level[k] + from)
  }

  function NumberedAll(levels: seq<seq<nat>>, from: nat): seq<seq<nat>> {
    seq(|levels|, a requires 0 <= a < |levels| => Numbered(levels[a], from))
  }

  predicate UnsettledTimeout(s: State, i: nat)
    requires i in s.races
  {
    s.races[i].outcome == Some(T.Terminal(T.TimeoutCause)) && s.races[i].settled.None?
  }

  /** A level is between authorization and its last execution level. */
  predicate Busy(s: State) {
    s.current != [] || s.queue != []
  }

  function Aborted(r: T.Race): T.Race {
    if T.Apply(r, T.ParentAborts).Some? then T.Apply(r, T.ParentAborts).value else r
  }

  /** None when the action cannot happen now. */
  function Step(s: State, a: Action): Option<State> {
    match a
    case EnterLevel(calls, options, width) =>
      if Busy(s) || s.stopped || s.aborted then None
      else Some(s.(
        queue := NumberedAll(ExecutionLevels(calls, options, width), |s.resolutions|),
        resolutions := s.resolutions + ResolveAll(calls, options)))
    case OpenExecutionLevel =>
      if s.current != [] || s.queue == [] || s.stopped || s.aborted then None
      else Some(s.(current := s.queue[0], queue := s.queue[1..], launched := false))
    case Launch(timeouts, audit) =>
      if s.launched || exists i :: i in s.current && i !in timeouts then None
      else Some(s.(
        launched := true,
        races := s.races
          + (map i | i in s.current && i in timeouts :: T.Start(timeouts[i], audit, s.aborted))))
    case InRace(call, action) =>
      if call !in s.races || action == T.ParentAborts then None
      else
        var r :- T.Apply(s.races[call], action);
        Some(s.(races := s.races[call := r]))
    case Abort =>
      if s.aborted then None else Some(s.(aborted := true, races := map i | i in s.races :: Aborted(s.races[i])))
    case FinalizeCall(call) =>
      if call !in s.current || call !in s.races || s.races[call].outcome.None? then None
      else Some(s.(finalized := s.finalized + {call}))
    case FinishExecutionLevel =>
      if s.current == [] || s.stopped || !s.launched || exists i :: i in s.current && i !in s.finalized then None
      else if s.aborted || exists i :: i in s.current && i in s.races && UnsettledTimeout(s, i) then
        Some(s.(stopped := true))
      else Some(s.(current := []))
    case StopRun => if s.current != [] then None else Some(s.(stopped := true))
  }

  // ---------------------------------------------------------------- the invariant

  predicate RaceSound(r: T.Race) {
    && (r.outcome.Some? && r.outcome.value.Real? ==> r.settled.Some?)
    && (r.outcome.Some? && r.outcome.value.Terminal? ==> r.cause == Some(r.outcome.value.cause))
    && (r.outcome == Some(T.NeverStarted) || r.cause == Some(T.AbortCause) ==> r.parentAborted)
  }

  ghost predicate LevelsFree(s: State) {
    && ConflictFree(s.current, s.resolutions)
    && (forall q :: 0 <= q < |s.queue| ==> ConflictFree(s.queue[q], s.resolutions))
  }

  ghost predicate LevelsFresh(s: State) {
    && (forall q, i :: 0 <= q < |s.queue| && i in s.queue[q] ==> i !in s.races && i !in s.current)
    && (forall q, p, i :: 0 <= q < p < |s.queue| && i in s.queue[q] ==> i !in s.queue[p])
    && (!s.launched ==> forall i :: i in s.current ==> i !in s.races)
    && (s.launched ==> forall i :: i in s.current ==> i in s.races)
    && (forall i :: i in s.races ==> i < |s.resolutions|)
    && (forall i :: i in s.finalized ==> i in s.races && s.races[i].outcome.Some?)
  }

  ghost predicate RacesSound(s: State) {
    && (forall i :: i in s.races ==> RaceSound(s.races[i]))
    && (forall i :: i in s.races && s.races[i].parentAborted ==> s.aborted)
    && (forall i :: i in s.races && Unsettled(s.races[i]) ==> i in s.current)
  }

  ghost predicate Safe(s: State) {
    LevelsFree(s) && LevelsFresh(s) && RacesSound(s)
  }

  // ---------------------------------------------------------------- every action keeps it

  lemma NumberedMembers(level: seq<nat>, from: nat, i: nat)
    ensures i in Numbered(level, from) <==> i >= from && i - from in level
  {
    if i >= from && i - from in level {
      var k :| 0 <= k < |level| && level[k] == i - from;
      assert Numbered(level, from)[k] == i;
    }
  }

  /** A level numbered from `base` has the conflicts of the level before. */
  lemma NumberedFree(level: seq<nat>, rs: seq<Resolution>, earlier: seq<Resolution>)
    requires ConflictFree(level, rs)
    ensures ConflictFree(Numbered(level, |earlier|), earlier + rs)
    ensures forall i :: i in Numbered(level, |earlier|) ==> i >= |earlier| && i - |earlier| in level
  {
    var numbered := Numbered(level, |earlier|);
    forall i | i in numbered
      ensures i >= |earlier| && i - |earlier| in level && i - |earlier| < |rs|
      ensures (earlier + rs)[i] == rs[i - |earlier|]
    {
      NumberedMembers(level, |earlier|, i);
    }
  }

  lemma EnterKeeps(s: State, calls: seq<Call>, options: Options, width: Width)
    requires Safe(s) && Step(s, EnterLevel(calls, options, width)).Some?
    ensures Safe(Step(s, EnterLevel(calls, options, width)).value)
  {
    var s' := Step(s, EnterLevel(calls, options, width)).value;
    var levels, base := ExecutionLevels(calls, options, width), |s.resolutions|;
    forall q | 0 <= q < |levels|
      ensures ConflictFree(s'.queue[q], s'.resolutions)
      ensures forall i :: i in s'.queue[q] ==> i >= base && i - base in levels[q]
    {
      PlannedLevel(calls, options, width, q);
      NumberedFree(levels[q], ResolveAll(calls, options), s.resolutions);
    }
    assert LevelsFree(s');
    forall q, p, i | 0 <= q < p < |levels| && i in s'.queue[q] ensures i !in s'.queue[p] {
      PlannedDisjoint(calls, options, width, q, p, i - base);
      NumberedMembers(levels[p], base, i);
    }
    assert LevelsFresh(s');
  }

  lemma OpenKeeps(s: State)
    requires Safe(s) && Step(s, OpenExecutionLevel).Some?
    ensures Safe(Step(s, OpenExecutionLevel).value)
  {
    var s' := Step(s, OpenExecutionLevel).value;
    assert forall q :: 0 <= q < |s'.queue| ==> s'.queue[q] == s.queue[q + 1];
  }

  lemma LaunchKeeps(s: State, timeouts: map<nat, real>, audit: bool)
    requires Safe(s) && Step(s, Launch(timeouts, audit)).Some?
    ensures Safe(Step(s, Launch(timeouts, audit)).value)
  {
    var s' := Step(s, Launch(timeouts, audit)).value;
    forall i | i in s'.races
      ensures RaceSound(s'.races[i]) && (s'.races[i].parentAborted ==> s'.aborted)
      ensures Unsettled(s'.races[i]) ==> i in s'.current
      ensures i < |s'.resolutions|
    {
      if i !in s.current { assert i in s.races && s'.races[i] == s.races[i]; }
    }
    assert LevelsFree(s');
    assert RacesSound(s');
  }

  lemma RaceStep(r: T.Race, a: T.Action)
    requires RaceSound(r) && T.Apply(r, a).Some? && a != T.ParentAborts
    ensures var r' := T.Apply(r, a).value;
            && RaceSound(r') && r'.parentAborted == r.parentAborted
            && (Unsettled(r') ==> Unsettled(r)) && (r.outcome.Some? ==> r'.outcome.Some?)
  {
  }

  lemma RaceKeeps(s: State, call: nat, a: T.Action)
    requires Safe(s) && Step(s, InRace(call, a)).Some?
    ensures Safe(Step(s, InRace(call, a)).value)
  {
    RaceStep(s.races[call], a);
  }

  lemma AbortStep(r: T.Race)
    requires RaceSound(r)
    ensures RaceSound(Aborted(r)) && (Unsettled(Aborted(r)) <==> Unsettled(r))
    ensures r.outcome.Some? ==> Aborted(r).outcome.Some?
  {
  }

  lemma AbortKeeps(s: State)
    requires Safe(s) && Step(s, Abort).Some?
    ensures Safe(Step(s, Abort).value)
  {
    hide Aborted, RaceSound, Unsettled, T.Apply;
    forall i | i in s.races
      ensures RaceSound(Aborted(s.races[i])) && (Unsettled(Aborted(s.races[i])) <==> Unsettled(s.races[i]))
      ensures s.races[i].outcome.Some? ==> Aborted(s.races[i]).outcome.Some?
    {
      AbortStep(s.races[i]);
    }
  }

  /** A level that ends without stopping the run leaves no promise behind. */
  lemma FinishSettles(s: State, i: nat)
    requires Safe(s) && Step(s, FinishExecutionLevel).Some? && !Step(s, FinishExecutionLevel).value.stopped
    requires i in s.current
    ensures i in s.races && !Unsettled(s.races[i])
  {
    assert i in s.finalized;
    var r := s.races[i];
    assert RaceSound(r) && !UnsettledTimeout(s, i);
    assert !r.parentAborted;
    match r.outcome.value
    case Terminal(TimeoutCause) =>
    case _ =>
  }

  lemma FinishKeeps(s: State)
    requires Safe(s) && Step(s, FinishExecutionLevel).Some?
    ensures Safe(Step(s, FinishExecutionLevel).value)
  {
    if !Step(s, FinishExecutionLevel).value.stopped {
      forall i | i in s.current ensures i in s.races && !Unsettled(s.races[i]) {
        FinishSettles(s, i);
      }
    }
  }

  lemma StepKeeps(s: State, a: Action)
    requires Safe(s) && Step(s, a).Some?
    ensures Safe(Step(s, a).value)
  {
    match a
    case EnterLevel(calls, options, width) => EnterKeeps(s, calls, options, width);
    case OpenExecutionLevel => OpenKeeps(s);
    case Launch(timeouts, audit) => LaunchKeeps(s, timeouts, audit);
    case InRace(call, action) => RaceKeeps(s, call, action);
    case Abort => AbortKeeps(s);
    case FinalizeCall(call) =>
    case FinishExecutionLevel => FinishKeeps(s);
    case StopRun =>
  }

  // ---------------------------------------------------------------- the theorems

  function Play(log: seq<Action>): Option<State> {
    Run(Step, BEGIN, log)
  }

  lemma ReachableSafe(log: seq<Action>)
    requires Play(log).Some?
    ensures Safe(Play(log).value)
  {
    var any := (a: Action) => true;
    forall s, a | Safe(s) && any(a) && Step(s, a).Some? ensures Safe(Step(s, a).value) {
      StepKeeps(s, a);
    }
    SafeAlong(log, any);
  }

  lemma {:induction false} SafeAlong(log: seq<Action>, any: Action -> bool)
    requires Play(log).Some?
    requires forall s, a :: Safe(s) && any(a) && Step(s, a).Some? ==> Safe(Step(s, a).value)
    requires forall a :: any(a)
    ensures Safe(Play(log).value)
  {
    if |log| > 0 {
      var n := |log| - 1;
      RunStep(Step, BEGIN, log, n);
      assert log[..n + 1] == log;
      SafeAlong(log[..n], any);
    }
  }

  /** In every reachable state, any two unsettled tool promises belong to the current execution level, and their
      resolutions from the final arguments do not conflict. */
  lemma MutualExclusion(log: seq<Action>, i: nat, j: nat)
    requires Play(log).Some? && i != j
    requires i in Play(log).value.races && Unsettled(Play(log).value.races[i])
    requires j in Play(log).value.races && Unsettled(Play(log).value.races[j])
    ensures var s := Play(log).value;
            && i in s.current && j in s.current && i < |s.resolutions| && j < |s.resolutions|
            && !ResolutionsConflict(s.resolutions[i], s.resolutions[j])
  {
    ReachableSafe(log);
  }

  /** Whenever an execution level starts, every tool promise started before it has settled. */
  lemma LevelStartsAlone(log: seq<Action>, k: nat, i: nat)
    requires Play(log).Some? && k < |log| && log[k].Launch?
    requires Play(log[..k]).Some? && i in Play(log[..k]).value.races
    ensures !Unsettled(Play(log[..k]).value.races[i])
  {
    RunStep(Step, BEGIN, log, k);
    ReachableSafe(log[..k]);
    LaunchNotYet(Play(log[..k]).value, log[k], i);
  }

  lemma LaunchNotYet(s: State, a: Action, i: nat)
    requires Safe(s) && a.Launch? && Step(s, a).Some? && i in s.races
    ensures !Unsettled(s.races[i])
  {
  }

  lemma StaysStopped(s: State, a: Action)
    requires (s.stopped || s.aborted) && Step(s, a).Some?
    ensures (Step(s, a).value.stopped || Step(s, a).value.aborted) && !a.EnterLevel? && !a.OpenExecutionLevel?
  {
  }

  /** After an abort, or once a level has finished with a timeout whose promise had not settled, no level of this or a
      later batch is entered or started. */
  lemma StoppedForGood(log: seq<Action>, k: nat, m: nat)
    requires Play(log).Some? && k <= m < |log|
    requires Play(log[..k]).Some? && (Play(log[..k]).value.stopped || Play(log[..k]).value.aborted)
    ensures !log[m].EnterLevel? && !log[m].OpenExecutionLevel?
  {
    RunStep(Step, BEGIN, log, m);
    var good, any := (s: State) => s.stopped || s.aborted, (a: Action) => true;
    forall s, a | good(s) && any(a) && Step(s, a).Some? ensures good(Step(s, a).value) {
      StaysStopped(s, a);
    }
    assert log[..m][..k] == log[..k];
    KeptAlong(Step, BEGIN, log[..m], k, good, any);
    StaysStopped(Play(log[..m]).value, log[m]);
  }

  /** A level that finishes with an unsettled timeout stops the run. */
  lemma UnsettledTimeoutStops(log: seq<Action>, k: nat, i: nat)
    requires Play(log).Some? && k < |log| && log[k].FinishExecutionLevel?
    requires Play(log[..k]).Some? && i in Play(log[..k]).value.races && Unsettled(Play(log[..k]).value.races[i])
    ensures Play(log[..k + 1]).Some? && Play(log[..k + 1]).value.stopped
  {
    RunStep(Step, BEGIN, log, k);
    ReachableSafe(log[..k]);
    var s := Play(log[..k]).value;
    if !Step(s, FinishExecutionLevel).value.stopped {
      FinishSettles(s, i);
    }
  }
}
