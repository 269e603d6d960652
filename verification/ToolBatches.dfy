/** What the executors of packages/agent/src/agent-loop.ts pass around, and the bookkeeping of their loops. */
module ToolBatches {
  import opened Strings
  import opened Envelopes
  import opened Sequences
  import opened Transcript
  import opened Repair
  import opened Turns
  import opened Events
  import opened ToolBoundary
  import C = Claims
  import R = ClaimResolvers
  import P = DagPlan

  /** A finalized call. */
  datatype Final = Final(call: ToolCall, outcome: Finalized)

  /** A call that may run, with its final arguments. */
  datatype Prepared = Prepared(call: ToolCall, arguments: R.Arguments, timeoutMs: real) {
    function Final(): R.Call {
      R.Call(call.id, call.name, arguments)
    }
  }

  datatype Preparation = Immediate(final: Final) | Ready(prepared: Prepared)
  {
    function Call(): ToolCall {
      if Immediate? then final.call else prepared.call
    }
  }

  /** What planning, validation and the before-tool hook decide about a call. */
  datatype Authorization =
    | PlanFails(reason: string)
    | ArgumentsFail(reason: string)
    | HookAllows
    | HookBlocks(reason: string)
    | HookFails(reason: string)

  datatype Batch = Batch(messages: seq<Message>, finals: seq<Final>, terminate: bool, stopRun: bool)

  datatype LevelOutcome = LevelOutcome(sourceIndex: nat, final: Final)

  /** The fields of the loop's configuration that decide which of its branches can be taken. */
  datatype Config = Config(
    dagScheduler: bool,
    sequentialExecution: bool,
    audit: bool,
    maxConcurrency: P.Width,
    prepareNextTurn: bool)
  {
    predicate Dag() {
      dagScheduler && !sequentialExecution
    }
  }

  function ResultMessage(f: Final): Message {
    ToolResult(
      f.call.id,
      f.call.name,
      if f.outcome.result.content.Text? then f.outcome.result.content.text else "",
      f.outcome.isError,
      Some(f.outcome.envelope))
  }

  function ResultMessages(finals: seq<Final>): seq<Message> {
    seq(|finals|, i requires 0 <= i < |finals| => ResultMessage(finals[i]))
  }

  predicate ShouldTerminate(finals: seq<Final>) {
    |finals| > 0 && forall f :: f in finals ==> f.outcome.result.terminate == Some(true)
  }

  /** The finals of these calls, in source order. */
  predicate FinalsOf(finals: seq<Final>, calls: seq<ToolCall>) {
    |finals| == |calls| && forall i :: 0 <= i < |calls| ==> finals[i].call == calls[i]
  }

  lemma FinalsAnswer(finals: seq<Final>, calls: seq<ToolCall>)
    requires FinalsOf(finals, calls)
    ensures Answers(ResultMessages(finals), calls)
  {
  }

  function ImmediateOutcome(call: ToolCall, disposition: Disposition, reason: string): Final
    requires disposition in {Failed, Blocked, Aborted}
  {
    Final(call, Finalized(
      ErrorOutput(reason), true,
      CreateToolResultEnvelope(Envelope(true, disposition, Some(reason), None, false)).value))
  }

  predicate DistinctIds(calls: seq<ToolCall>) {
    forall i, j :: 0 <= i < j < |calls| ==> calls[i].id != calls[j].id
  }

  predicate DistinctEntries(entries: seq<Preparation>) {
    forall i, j :: 0 <= i < j < |entries| ==> entries[i].Call().id != entries[j].Call().id
  }

  ghost predicate Among(waiting: set<nat>, entries: seq<Preparation>) {
    forall k :: k in waiting ==> k < |entries|
  }

  ghost function IdsAt(entries: seq<Preparation>, waiting: set<nat>): set<string>
    requires Among(waiting, entries)
  {
    set k | k in waiting :: entries[k].Call().id
  }

  lemma IdsAtNone(entries: seq<Preparation>)
    ensures IdsAt(entries, {}) == {}
  {
  }

  lemma IdsAtChange(entries: seq<Preparation>, waiting: set<nat>, i: nat)
    requires Among(waiting, entries) && DistinctEntries(entries) && i < |entries|
    ensures i in waiting <==> entries[i].Call().id in IdsAt(entries, waiting)
    ensures IdsAt(entries, waiting + {i}) == IdsAt(entries, waiting) + {entries[i].Call().id}
    ensures IdsAt(entries, waiting - {i}) == IdsAt(entries, waiting) - {entries[i].Call().id}
  {
    var id := entries[i].Call().id;
    assert forall k :: 0 <= k < |entries| && entries[k].Call().id == id ==> k == i;
    assert IdsAt(entries, waiting + {i}) == IdsAt(entries, waiting) + {id} by {
      if i in waiting { assert waiting + {i} == waiting; }
    }
  }

  /** The calls of a started batch that have not ended, and the results of the others. */
  ghost predicate Underway(entries: seq<Preparation>, done: seq<Option<Final>>, waiting: set<nat>) {
    && |done| == |entries| && Among(waiting, entries)
    && (forall k :: k in waiting ==> entries[k].Ready?)
    && forall k :: 0 <= k < |entries| && k !in waiting ==> Settled(entries[k], done[k])
  }

  // -------------------------------------------------------------- claims of started calls

  /** No two claims in the list conflict. */
  predicate Compatible(claims: seq<Option<C.Resolution>>) {
    forall j, k :: 0 <= j < k < |claims| && claims[j].Some? && claims[k].Some? ==>
      !C.ResolutionsConflict(claims[j].value, claims[k].value)
  }

  function ClaimsOfAll(planned: seq<Option<Planned>>): seq<Option<C.Resolution>> {
    seq(|planned|, k requires 0 <= k < |planned| => ClaimsOf(planned[k]))
  }

  /** Either all calls of the batch are planned, or none is, and each plan is that of its call. */
  predicate PlannedAs(entries: seq<Preparation>, planned: seq<Option<Planned>>, dag: bool) {
    && |planned| == |entries|
    && forall k :: 0 <= k < |planned| ==>
         && (planned[k].Some? <==> dag)
         && (planned[k].Some? ==> entries[k].Ready? && planned[k].value.call == entries[k].prepared.Final())
  }

  /** The claims of the calls whose promises are pending. */
  ghost function Held(entries: seq<Preparation>, claims: seq<Option<C.Resolution>>, open: set<nat>)
    : map<string, C.Resolution>
    requires DistinctEntries(entries) && |claims| == |entries| && Among(open, entries)
  {
    map k | k in open && claims[k].Some? :: entries[k].Call().id := claims[k].value
  }

  lemma HeldKeys(entries: seq<Preparation>, claims: seq<Option<C.Resolution>>, open: set<nat>)
    requires DistinctEntries(entries) && |claims| == |entries| && Among(open, entries)
    ensures forall x :: x in Held(entries, claims, open) <==>
              exists k :: k in open && claims[k].Some? && entries[k].Call().id == x
    ensures forall k :: k in open && claims[k].Some? ==> Held(entries, claims, open)[entries[k].Call().id] == claims[k].value
  {
  }

  lemma HeldMore(entries: seq<Preparation>, claims: seq<Option<C.Resolution>>, open: set<nat>, i: nat)
    requires DistinctEntries(entries) && |claims| == |entries| && Among(open, entries) && i < |entries| && i !in open
    ensures var id := entries[i].Call().id;
            && id !in Held(entries, claims, open)
            && Held(entries, claims, open + {i}) ==
               if claims[i].Some? then Held(entries, claims, open)[id := claims[i].value] else Held(entries, claims, open)
  {
    var id := entries[i].Call().id;
    assert forall k :: 0 <= k < |entries| && entries[k].Call().id == id ==> k == i;
    HeldKeys(entries, claims, open);
    HeldKeys(entries, claims, open + {i});
  }

  lemma HeldLess(entries: seq<Preparation>, claims: seq<Option<C.Resolution>>, open: set<nat>, i: nat)
    requires DistinctEntries(entries) && |claims| == |entries| && Among(open, entries) && i in open
    ensures claims[i].Some? ==> entries[i].Call().id in Held(entries, claims, open)
    ensures Held(entries, claims, open - {i}) ==
            if claims[i].Some? then Held(entries, claims, open) - {entries[i].Call().id} else Held(entries, claims, open)
  {
    HeldMore(entries, claims, open - {i}, i);
    assert open - {i} + {i} == open;
  }

  lemma HeldNothing(entries: seq<Preparation>, claims: seq<Option<C.Resolution>>, open: set<nat>)
    requires DistinctEntries(entries) && |claims| == |entries| && Among(open, entries)
    requires open == {} || forall k :: 0 <= k < |claims| ==> claims[k].None?
    ensures Held(entries, claims, open) == map[]
  {
  }

  /** Every call of the batch is admitted while the ones before it are running. */
  lemma HeldAdmits(entries: seq<Preparation>, claims: seq<Option<C.Resolution>>, open: set<nat>, i: nat, p: Position)
    requires DistinctEntries(entries) && |claims| == |entries| && Among(open, entries) && Compatible(claims)
    requires i < |entries| && claims[i].Some? && forall k :: k in open ==> k < i
    requires p.running == IdsAt(entries, open) && p.pending == Held(entries, claims, open)
    ensures p.Admits(claims[i].value)
  {
    HeldKeys(entries, claims, open);
    forall x | x in p.pending ensures x in p.running && !C.ResolutionsConflict(p.pending[x], claims[i].value) {
      var k :| k in open && claims[k].Some? && entries[k].Call().id == x;
    }
  }

  /** A call that was refused was not started. */
  predicate Unstarted(entries: seq<Preparation>) {
    forall i :: 0 <= i < |entries| && entries[i].Immediate? ==> !entries[i].final.outcome.envelope.executionStarted
  }

  /** An outcome that says the tool was started is that of a tool that ran. */
  predicate FinalJustified(f: Final, ran: set<string>) {
    f.outcome.envelope.executionStarted ==> f.call.id in ran
  }

  predicate FinalsJustified(finals: seq<Final>, ran: set<string>) {
    forall i :: 0 <= i < |finals| ==> FinalJustified(finals[i], ran)
  }

  lemma ResultsJustified(finals: seq<Final>, ran: set<string>)
    requires FinalsJustified(finals, ran)
    ensures Justified(ResultMessages(finals), ran)
  {
    forall k | 0 <= k < |finals| && Started(ResultMessages(finals)[k]) ensures finals[k].call.id in ran {
      assert FinalJustified(finals[k], ran);
    }
  }

  predicate Settled(entry: Preparation, done: Option<Final>) {
    && done.Some? && done.value.call == entry.Call()
    && (entry.Immediate? ==> done.value == entry.final)
  }

  /** Results of the first calls, in source order; some calls are unanswered only when the batch was cut short. */
  predicate Prefix(batch: Batch, calls: seq<ToolCall>) {
    && |batch.finals| <= |calls| && FinalsOf(batch.finals, calls[..|batch.finals|])
    && batch.messages == ResultMessages(batch.finals)
    && (batch.terminate <==> ShouldTerminate(batch.finals)) && !batch.stopRun
    && (|calls| > 0 ==> |batch.finals| > 0)
  }

  lemma PublishMore(p: Position, a: seq<Message>, b: seq<Message>)
    ensures p.Publish(a).Publish(b) == p.Publish(a + b)
    ensures p.Publish([]) == p
  {
    assert p.published + a + b == p.published + (a + b);
    assert p.inTurn + a + b == p.inTurn + (a + b);
    assert p.published + [] == p.published && p.inTurn + [] == p.inTurn;
  }

  /** The ended calls of a batch that say they were started are among those that ran. */
  ghost predicate EndedJustified(entries: seq<Preparation>, done: seq<Option<Final>>, waiting: set<nat>, ran: set<string>)
    requires |done| == |entries|
  {
    forall k :: 0 <= k < |entries| && k !in waiting && done[k].Some? ==> FinalJustified(done[k].value, ran)
  }

  /** Where a batch of executions stands: `adrift` are the calls that ended before their promises settled, which happens
      only to timeouts and aborts. */
  ghost predicate Progress(entries: seq<Preparation>, done: seq<Option<Final>>, waiting: set<nat>, adrift: set<nat>,
                           ran: set<string>, aborted: bool) {
    && Underway(entries, done, waiting) && EndedJustified(entries, done, waiting, ran)
    && Among(adrift, entries) && waiting !! adrift
    && forall i :: i in adrift ==> aborted || TimedOutFinal(done[i])
  }

  predicate TimedOutFinal(f: Option<Final>) {
    f.Some? && f.value.outcome.envelope.disposition == TimedOut
  }

  lemma ProgressStart(entries: seq<Preparation>, done: seq<Option<Final>>, waiting: set<nat>, ran: set<string>, aborted: bool)
    requires Underway(entries, done, waiting) && Unstarted(entries)
    requires forall k :: 0 <= k < |entries| ==> (k in waiting <==> entries[k].Ready?)
    ensures Progress(entries, done, waiting, {}, ran, aborted) && |done| == |entries| && Among(waiting, entries)
  {
    forall k | 0 <= k < |entries| && k !in waiting && done[k].Some? ensures FinalJustified(done[k].value, ran) {
      assert Settled(entries[k], done[k]);
    }
  }

  lemma ProgressReady(entries: seq<Preparation>, done: seq<Option<Final>>, waiting: set<nat>, adrift: set<nat>,
                      ran: set<string>, aborted: bool, i: nat)
    requires Progress(entries, done, waiting, adrift, ran, aborted) && i in waiting
    ensures i < |entries| && entries[i].Ready? && i !in adrift && Among(waiting - {i}, entries)
  {
  }

  /** One more call of the batch ends. */
  lemma ProgressStep(entries: seq<Preparation>, done: seq<Option<Final>>, waiting: set<nat>, adrift: set<nat>,
                     ran: set<string>, was: bool, i: nat, final: Final, settled: bool, aborted: bool)
    requires Progress(entries, done, waiting, adrift, ran, was) && i in waiting && (was ==> aborted)
    requires i < |entries| == |done| && entries[i].Ready? && final.call == entries[i].Call()
    requires !settled ==> aborted || TimedOutFinal(Some(final))
    ensures Progress(entries, done[i := Some(final)], waiting - {i}, if settled then adrift else adrift + {i},
                     ran + {final.call.id}, aborted)
  {
    var done' := done[i := Some(final)];
    forall k | 0 <= k < |entries| && k !in waiting - {i}
      ensures Settled(entries[k], done'[k]) && FinalJustified(done'[k].value, ran + {final.call.id})
    {
      if k != i { assert Settled(entries[k], done[k]) && FinalJustified(done[k].value, ran); }
    }
  }

  lemma ProgressDone(entries: seq<Preparation>, done: seq<Option<Final>>, adrift: set<nat>, ran: set<string>, aborted: bool)
    requires Progress(entries, done, {}, adrift, ran, aborted)
    ensures |done| == |entries| && Among(adrift, entries)
    ensures forall i :: 0 <= i < |entries| ==>
              done[i].Some? && Settled(entries[i], done[i]) && FinalJustified(done[i].value, ran)
    ensures forall i :: i in adrift ==> aborted || TimedOutFinal(done[i])
  {
  }

  predicate ClosedAs(p: Preparation, disposition: Disposition) {
    p.Immediate? && p.final.outcome.envelope.disposition == disposition
  }

  datatype Snapshot = Snapshot(position: Option<Position>, messages: seq<Message>, aborted: bool) {
    /** Without the promises that outlived their calls. */
    function Calm(): Snapshot {
      this.(position := if position.Some? then Some(position.value.Calm()) else None)
    }
  }

  /** The same position, but for tools that have run meanwhile. */
  predicate Onward(before: Position, after: Position) {
    after == before.(ran := after.ran) && before.ran <= after.ran
  }

  /** These results, and nothing else, were added to the context and published. */
  predicate Added(before: Snapshot, after: Snapshot, results: seq<Message>) {
    && before.position.Some? && before.position.value.Quiet() && after.position.Some?
    && Onward(before.position.value.Publish(results), after.position.value)
    && Justified(results, after.position.value.ran)
    && after.messages == before.messages + results
    && (before.aborted ==> after.aborted)
  }

  lemma AddedNothing(s: Snapshot)
    requires s.position.Some? && s.position.value.Quiet()
    ensures Added(s, s, [])
  {
    PublishMore(s.position.value, [], []);
  }

  lemma AddedMore(s0: Snapshot, s1: Snapshot, s2: Snapshot, a: seq<Message>, b: seq<Message>)
    requires Added(s0, s1, a) && Added(s1, s2, b)
    ensures Added(s0, s2, a + b)
  {
    PublishMore(s0.position.value, a, b);
    assert s0.messages + a + b == s0.messages + (a + b);
  }

  /** Tools ran first, then their results were added. */
  lemma AddedAfter(s0: Snapshot, s1: Snapshot, s2: Snapshot, results: seq<Message>)
    requires s0.position.Some? && s0.position.value.Quiet() && s1.position.Some?
    requires Onward(s0.position.value, s1.position.value)
    requires s1.messages == s0.messages && (s0.aborted ==> s1.aborted)
    requires Added(s1, s2, results)
    ensures Added(s0, s2, results)
  {
  }

  lemma AddedCalm(s0: Snapshot, s1: Snapshot, results: seq<Message>)
    requires Added(s0, s1, results)
    ensures Added(s0.Calm(), s1.Calm(), results)
  {
  }

  /** `waveTerminates.length > 0 && waveTerminates.every(Boolean)` */
  predicate AllTrue(flags: seq<bool>) {
    |flags| > 0 && forall k :: 0 <= k < |flags| ==> flags[k]
  }

  /** What the waves so far have done. */
  ghost predicate Joined(calls: seq<ToolCall>, finals: seq<Final>, results: seq<Message>, flags: seq<bool>) {
    && |finals| <= |calls| && FinalsOf(finals, calls[..|finals|]) && results == ResultMessages(finals)
    && (AllTrue(flags) <==> ShouldTerminate(finals)) && (|flags| == 0 <==> |finals| == 0)
  }

  lemma NothingJoined(calls: seq<ToolCall>)
    ensures Joined(calls, [], [], [])
  {
  }

  lemma JoinedPrefix(calls: seq<ToolCall>, finals: seq<Final>, results: seq<Message>, flags: seq<bool>)
    requires Joined(calls, finals, results, flags) && (|calls| > 0 ==> |finals| > 0)
    ensures Prefix(Batch(results, finals, AllTrue(flags), false), calls)
  {
  }

  lemma WaveAdds(calls: seq<ToolCall>, finals: seq<Final>, results: seq<Message>, flags: seq<bool>, wave: Batch, hi: nat)
    requires Joined(calls, finals, results, flags)
    requires |finals| < hi <= |calls| && Prefix(wave, calls[|finals|..hi])
    ensures Joined(calls, finals + wave.finals, results + wave.messages, flags + [wave.terminate])
  {
    var both, lo := finals + wave.finals, |finals|;
    assert forall f :: f in both <==> f in finals || f in wave.finals;
    assert AllTrue(flags + [wave.terminate]) <==> (|flags| == 0 || AllTrue(flags)) && wave.terminate by {
      assert (flags + [wave.terminate])[|flags|] == wave.terminate;
      assert forall k :: 0 <= k < |flags| ==> (flags + [wave.terminate])[k] == flags[k];
    }
    forall i | 0 <= i < |both| ensures both[i].call == calls[i] {
      if i >= lo { assert calls[lo..hi][i - lo] == calls[i]; }
    }
  }

  // -------------------------------------------------------------- dag-v2 levels

  datatype Runnable = Runnable(sourceIndex: nat, preparation: Preparation)

  predicate LevelIn(level: seq<nat>, n: nat) {
    Ascending(level) && forall k :: 0 <= k < |level| ==> level[k] < n
  }

  predicate LevelsIn(levels: seq<seq<nat>>, n: nat) {
    forall c :: 0 <= c < |levels| ==> LevelIn(levels[c], n)
  }

  predicate Covers(levels: seq<seq<nat>>, n: nat) {
    forall i: nat :: i < n ==> i in Flatten(levels)
  }

  /** No two calls on a level conflict. */
  ghost predicate LevelsFree(levels: seq<seq<nat>>, claims: seq<C.Resolution>) {
    forall c :: 0 <= c < |levels| ==> P.ConflictFree(levels[c], claims)
  }

  lemma ExecutionLevelsSound(calls: seq<R.Call>, options: R.Options, width: P.Width)
    ensures var levels := P.ExecutionLevels(calls, options, width);
            && LevelsIn(levels, |calls|) && Covers(levels, |calls|)
            && LevelsFree(levels, P.ResolveAll(calls, options))
  {
    hide P.ConflictFree, P.Plan;
    var levels := P.ExecutionLevels(calls, options, width);
    if P.AllPlainArguments(calls) {
      PlanCovers(P.ResolveAll(calls, options), width);
    } else {
      assert levels == Singletons(|calls|);
      SingletonsCover(|calls|);
    }
    forall c | 0 <= c < |levels| ensures P.ConflictFree(levels[c], P.ResolveAll(calls, options)) {
      P.PlannedLevel(calls, options, width, c);
    }
  }

  /** The calls of an execution level start under the plan that made the level, which keeps their claims apart. */
  lemma LevelPlanned(level: seq<nat>, calls: seq<R.Call>, options: R.Options, chosen: seq<Option<Planned>>)
    requires P.ConflictFree(level, P.ResolveAll(calls, options)) && LevelIn(level, |calls|) && |chosen| == |level|
    requires forall k :: 0 <= k < |level| ==> chosen[k] == Some(Planned(calls[level[k]], options))
    ensures Compatible(ClaimsOfAll(chosen))
  {
    hide C.ResolutionsConflict, R.ResolveCall;
    var claims, rs := ClaimsOfAll(chosen), P.ResolveAll(calls, options);
    forall j, k | 0 <= j < k < |claims| ensures !C.ResolutionsConflict(claims[j].value, claims[k].value) {
      assert level[j] in level && level[k] in level && level[j] != level[k];
      assert claims[j] == Some(rs[level[j]]) && claims[k] == Some(rs[level[k]]);
    }
  }

  lemma PlanCovers(rs: seq<C.Resolution>, width: P.Width)
    ensures LevelsIn(P.Plan(rs, width), |rs|) && Covers(P.Plan(rs, width), |rs|)
  {
    P.PlanPartition(rs, width);
    forall c | 0 <= c < |P.Plan(rs, width)| ensures LevelIn(P.Plan(rs, width)[c], |rs|) {
      var level := P.Plan(rs, width)[c];
      forall k | 0 <= k < |level| ensures level[k] < |rs| {
        assert level[k] in level;
      }
    }
    forall i: nat | i < |rs| ensures i in Flatten(P.Plan(rs, width)) {
      assert Count(Flatten(P.Plan(rs, width)), i) == 1;
    }
  }

  function Singletons(n: nat): seq<seq<nat>> {
    seq(n, i requires 0 <= i => [i])
  }

  lemma {:induction false} SingletonsCover(n: nat)
    ensures LevelsIn(Singletons(n), n) && Covers(Singletons(n), n)
  {
    if n > 0 {
      SingletonsCover(n - 1);
      assert Singletons(n)[..n - 1] == Singletons(n - 1);
    }
  }

  predicate OutcomeOf(o: LevelOutcome, calls: seq<ToolCall>) {
    o.sourceIndex < |calls| && o.final.call == calls[o.sourceIndex]
  }

  predicate OutcomesOf(outcomes: seq<LevelOutcome>, calls: seq<ToolCall>) {
    forall k :: 0 <= k < |outcomes| ==> OutcomeOf(outcomes[k], calls)
  }

  predicate OutcomesJustified(outcomes: seq<LevelOutcome>, ran: set<string>) {
    forall k :: 0 <= k < |outcomes| ==> FinalJustified(outcomes[k].final, ran)
  }

  predicate HasOutcome(outcomes: seq<LevelOutcome>, x: nat) {
    exists k :: 0 <= k < |outcomes| && outcomes[k].sourceIndex == x
  }

  predicate IsRunnable(runnable: seq<Runnable>, x: nat) {
    exists k :: 0 <= k < |runnable| && runnable[k].sourceIndex == x
  }

  /** Calls of the level that passed authorization, in source order. */
  predicate Authorized(runnable: seq<Runnable>, calls: seq<ToolCall>, level: seq<nat>) {
    && (forall k :: 0 <= k < |runnable| ==>
          && runnable[k].sourceIndex < |calls| && runnable[k].sourceIndex in level
          && runnable[k].preparation.Ready? && runnable[k].preparation.Call() == calls[runnable[k].sourceIndex])
    && forall j, k :: 0 <= j < k < |runnable| ==> runnable[j].sourceIndex < runnable[k].sourceIndex
  }

  /** The entries of an execution level. */
  lemma LevelEntries(runnable: seq<Runnable>, executionLevel: seq<nat>, calls: seq<ToolCall>, level: seq<nat>,
                     entries: seq<Preparation>)
    requires DistinctIds(calls) && LevelIn(executionLevel, |runnable|) && Authorized(runnable, calls, level)
    requires |entries| == |executionLevel|
    requires forall k :: 0 <= k < |entries| ==> entries[k] == runnable[executionLevel[k]].preparation
    ensures DistinctEntries(entries) && Unstarted(entries) && forall k :: 0 <= k < |entries| ==> entries[k].Ready?
  {
  }

  lemma LevelFinished(runnable: seq<Runnable>, executionLevel: seq<nat>, calls: seq<ToolCall>, level: seq<nat>,
                      entries: seq<Preparation>, finals: seq<Final>, finished: seq<LevelOutcome>, ran: set<string>)
    requires LevelIn(executionLevel, |runnable|) && Authorized(runnable, calls, level)
    requires |entries| == |executionLevel| == |finals| == |finished|
    requires forall k :: 0 <= k < |entries| ==>
               && entries[k] == runnable[executionLevel[k]].preparation && Settled(entries[k], Some(finals[k]))
               && finished[k] == LevelOutcome(runnable[executionLevel[k]].sourceIndex, finals[k])
    requires FinalsJustified(finals, ran)
    ensures OutcomesOf(finished, calls) && OutcomesJustified(finished, ran)
  {
    forall k | 0 <= k < |finished| ensures OutcomeOf(finished[k], calls) {
      assert Settled(entries[k], Some(finals[k]));
    }
  }

  /** The execution levels so far have produced an outcome for each of their calls. */
  ghost predicate LevelsDone(outcomes: seq<LevelOutcome>, runnable: seq<Runnable>, levels: seq<seq<nat>>) {
    forall x: nat :: x in Flatten(levels) ==> x < |runnable| && HasOutcome(outcomes, runnable[x].sourceIndex)
  }

  lemma OutcomesMore(a: seq<LevelOutcome>, b: seq<LevelOutcome>, calls: seq<ToolCall>)
    requires OutcomesOf(a, calls) && OutcomesOf(b, calls)
    ensures OutcomesOf(a + b, calls)
    ensures forall x :: HasOutcome(a + b, x) <==> HasOutcome(a, x) || HasOutcome(b, x)
  {
    forall x | HasOutcome(b, x) ensures HasOutcome(a + b, x) {
      var k :| 0 <= k < |b| && b[k].sourceIndex == x;
      assert (a + b)[|a| + k].sourceIndex == x;
    }
    forall x | HasOutcome(a, x) ensures HasOutcome(a + b, x) {
      var k :| 0 <= k < |a| && a[k].sourceIndex == x;
      assert (a + b)[k].sourceIndex == x;
    }
  }

  lemma RunnableMore(runnable: seq<Runnable>, calls: seq<ToolCall>, level: seq<nat>, i: nat, p: Preparation)
    requires i < |level| && LevelIn(level, |calls|) && Authorized(runnable, calls, level[..i])
    requires p.Ready? && p.Call() == calls[level[i]]
    ensures Authorized(runnable + [Runnable(level[i], p)], calls, level[..i + 1])
    ensures forall x :: IsRunnable(runnable + [Runnable(level[i], p)], x) <==> IsRunnable(runnable, x) || x == level[i]
  {
    var more := runnable + [Runnable(level[i], p)];
    assert level[..i + 1] == level[..i] + [level[i]];
    forall k | 0 <= k < |runnable| ensures runnable[k].sourceIndex < level[i] {
      var m :| 0 <= m < i && level[m] == runnable[k].sourceIndex;
    }
    assert more[|runnable|].sourceIndex == level[i];
    forall x | IsRunnable(runnable, x) ensures IsRunnable(more, x) {
      var k :| 0 <= k < |runnable| && runnable[k].sourceIndex == x;
      assert more[k].sourceIndex == x;
    }
  }

  lemma ExecutedMore(outcomes: seq<LevelOutcome>, finished: seq<LevelOutcome>, runnable: seq<Runnable>,
                     levels: seq<seq<nat>>, e: nat)
    requires e < |levels| && LevelIn(levels[e], |runnable|) && LevelsDone(outcomes, runnable, levels[..e])
    requires |finished| == |levels[e]|
    requires forall k :: 0 <= k < |levels[e]| ==> finished[k].sourceIndex == runnable[levels[e][k]].sourceIndex
    ensures LevelsDone(outcomes + finished, runnable, levels[..e + 1])
  {
    assert levels[..e + 1][..e] == levels[..e];
    assert Flatten(levels[..e + 1]) == Flatten(levels[..e]) + levels[e];
    forall x: nat | x in Flatten(levels[..e + 1])
      ensures x < |runnable| && HasOutcome(outcomes + finished, runnable[x].sourceIndex)
    {
      if x in Flatten(levels[..e]) {
        assert HasOutcome(outcomes, runnable[x].sourceIndex);
        var k :| 0 <= k < |outcomes| && outcomes[k].sourceIndex == runnable[x].sourceIndex;
        assert (outcomes + finished)[k].sourceIndex == runnable[x].sourceIndex;
      } else {
        assert x in levels[e];
        var k :| 0 <= k < |levels[e]| && levels[e][k] == x;
        assert (outcomes + finished)[|outcomes| + k].sourceIndex == runnable[x].sourceIndex;
      }
    }
  }

  lemma AllExecuted(outcomes: seq<LevelOutcome>, runnable: seq<Runnable>, levels: seq<seq<nat>>, level: seq<nat>)
    requires LevelsDone(outcomes, runnable, levels) && Covers(levels, |runnable|)
    requires forall x :: x in level ==> HasOutcome(outcomes, x) || IsRunnable(runnable, x)
    ensures forall x :: x in level ==> HasOutcome(outcomes, x)
  {
    forall x | x in level && IsRunnable(runnable, x) ensures HasOutcome(outcomes, x) {
      var k: nat :| k < |runnable| && runnable[k].sourceIndex == x;
      assert k in Flatten(levels);
      assert HasOutcome(outcomes, runnable[k].sourceIndex);
    }
  }

  // -------------------------------------------------------------- finalizedByIndex

  /** An outcome in a slot belongs to that slot's call. */
  predicate Filled(finalized: seq<Option<Final>>, calls: seq<ToolCall>) {
    |finalized| == |calls| && forall i :: 0 <= i < |calls| && finalized[i].Some? ==> finalized[i].value.call == calls[i]
  }

  predicate FilledJustified(finalized: seq<Option<Final>>, ran: set<string>) {
    forall i :: 0 <= i < |finalized| && finalized[i].Some? ==> FinalJustified(finalized[i].value, ran)
  }

  ghost predicate FilledFor(finalized: seq<Option<Final>>, levels: seq<seq<nat>>) {
    forall x: nat :: x in Flatten(levels) ==> x < |finalized| && finalized[x].Some?
  }

  lemma NothingFilled(finalized: seq<Option<Final>>, calls: seq<ToolCall>, levels: seq<seq<nat>>, ran: set<string>)
    requires |finalized| == |calls| && forall i :: 0 <= i < |finalized| ==> finalized[i].None?
    ensures Filled(finalized, calls) && FilledFor(finalized, levels[..0]) && FilledJustified(finalized, ran)
  {
  }

  lemma AllFilled(finalized: seq<Option<Final>>, calls: seq<ToolCall>, levels: seq<seq<nat>>)
    requires Filled(finalized, calls) && FilledFor(finalized, levels) && Covers(levels, |calls|)
    ensures forall i :: 0 <= i < |calls| ==> finalized[i].Some?
  {
  }

  method RecordOutcomes(finalized: seq<Option<Final>>, outcomes: seq<LevelOutcome>, calls: seq<ToolCall>)
    returns (finalized': seq<Option<Final>>)
    requires Filled(finalized, calls) && OutcomesOf(outcomes, calls)
    ensures Filled(finalized', calls)
    ensures forall i :: 0 <= i < |calls| ==>
              (finalized'[i].Some? <==> finalized[i].Some? || HasOutcome(outcomes, i))
    ensures forall ran :: FilledJustified(finalized, ran) && OutcomesJustified(outcomes, ran) ==>
              FilledJustified(finalized', ran)
  {
    finalized' := finalized;
    for k := 0 to |outcomes|
      invariant Filled(finalized', calls)
      invariant forall i :: 0 <= i < |calls| ==>
                  (finalized'[i].Some? <==>
                     finalized[i].Some? || exists m :: 0 <= m < k && outcomes[m].sourceIndex == i)
      invariant forall ran :: FilledJustified(finalized, ran) && OutcomesJustified(outcomes, ran) ==>
                  FilledJustified(finalized', ran)
    {
      assert OutcomeOf(outcomes[k], calls);
      finalized' := finalized'[outcomes[k].sourceIndex := Some(outcomes[k].final)];
    }
  }

  lemma FilledMore(finalized: seq<Option<Final>>, finalized': seq<Option<Final>>, levels: seq<seq<nat>>, c: nat)
    requires c < |levels| && FilledFor(finalized, levels[..c]) && |finalized'| == |finalized|
    requires forall i :: 0 <= i < |finalized| && finalized[i].Some? ==> finalized'[i].Some?
    requires forall k :: 0 <= k < |levels[c]| ==> levels[c][k] < |finalized| && finalized'[levels[c][k]].Some?
    ensures FilledFor(finalized', levels[..c + 1])
  {
    assert levels[..c + 1][..c] == levels[..c];
    assert Flatten(levels[..c + 1]) == Flatten(levels[..c]) + levels[c];
  }

  /** Exactly one result for each call in source order: its own, or a synthetic one. */
  method CollectResults(calls: seq<ToolCall>, finalized: seq<Option<Final>>, aborted: bool, skipped: Option<string>)
    returns (results: seq<Message>, finals: seq<Final>)
    requires Filled(finalized, calls)
    requires aborted || skipped.Some? || forall i :: 0 <= i < |calls| ==> finalized[i].Some?
    ensures Answers(results, calls)
    ensures forall ran :: FilledJustified(finalized, ran) ==> Justified(results, ran)
    ensures forall i :: 0 <= i < |calls| ==>
              results[i] ==
              if finalized[i].Some? then ResultMessage(finalized[i].value)
              else if aborted then SyntheticResult(calls[i], "Operation aborted", Aborted)
              else SyntheticResult(calls[i], if skipped.Some? then skipped.value else "", Skipped)
    ensures forall f :: f in finals <==> Some(f) in finalized
  {
    results, finals := [], [];
    for i := 0 to |calls|
      invariant |results| == i && forall k :: 0 <= k < i ==> AnswersCall(results[k], calls[k])
      invariant forall k :: 0 <= k < i ==>
                  results[k] ==
                  if finalized[k].Some? then ResultMessage(finalized[k].value)
                  else if aborted then SyntheticResult(calls[k], "Operation aborted", Aborted)
                  else SyntheticResult(calls[k], if skipped.Some? then skipped.value else "", Skipped)
      invariant forall f :: f in finals <==> Some(f) in finalized[..i]
    {
      assert finalized[..i + 1] == finalized[..i] + [finalized[i]];
      if finalized[i].Some? {
        results := results + [ResultMessage(finalized[i].value)];
        finals := finals + [finalized[i].value];
      } else if aborted {
        results := results + [SyntheticResult(calls[i], "Operation aborted", Aborted)];
      } else if skipped.Some? {
        results := results + [SyntheticResult(calls[i], skipped.value, Skipped)];
      }
    }
    assert finalized[..|calls|] == finalized;
    forall ran | FilledJustified(finalized, ran) ensures Justified(results, ran) {
      CollectedJustified(calls, finalized, results, ran);
    }
  }

  lemma CollectedJustified(calls: seq<ToolCall>, finalized: seq<Option<Final>>, results: seq<Message>, ran: set<string>)
    requires |finalized| == |calls| == |results| && FilledJustified(finalized, ran)
    requires forall i :: 0 <= i < |calls| ==>
               if finalized[i].Some? then results[i] == ResultMessage(finalized[i].value) else !Started(results[i])
    ensures Justified(results, ran)
  {
    forall k | 0 <= k < |results| && Started(results[k]) ensures results[k].toolCallId in ran {
      assert FinalJustified(finalized[k].value, ran);
    }
  }

  // -------------------------------------------------------------- resolved ids

  ghost function IdsBefore(calls: seq<ToolCall>, k: nat): set<string>
    requires k <= |calls|
  {
    set i | 0 <= i < k :: calls[i].id
  }

  lemma IdBefore(calls: seq<ToolCall>, i: nat, k: nat)
    requires i < |calls| && k <= |calls| && DistinctIds(calls)
    ensures calls[i].id in IdsBefore(calls, k) <==> i < k
    ensures IdsBefore(calls, i + 1) == IdsBefore(calls, i) + {calls[i].id}
  {
  }

  lemma ExistingIds(existing: seq<Message>, calls: seq<ToolCall>)
    requires |existing| <= |calls| && Answers(existing, calls[..|existing|])
    ensures (set m | m in existing && m.ToolResult? :: m.toolCallId) == IdsBefore(calls, |existing|)
  {
    var ids := set m | m in existing && m.ToolResult? :: m.toolCallId;
    forall i | 0 <= i < |existing| ensures calls[i].id in ids && AnswersCall(existing[i], calls[i]) {
      assert AnswersCall(existing[i], calls[..|existing|][i]);
      assert existing[i] in existing;
    }
  }

  lemma DistinctIdsOf(base: seq<Message>, reply: Message)
    requires reply.Assistant? && DistinctCalls(base + [reply])
    ensures DistinctIds(CallsOf(reply))
  {
    ReplyCallsDistinct(base, reply);
    var ids := Ids(CallsOf(reply));
    forall i, j | 0 <= i < j < |ids| ensures CallsOf(reply)[i].id != CallsOf(reply)[j].id {
      assert ids[i] != ids[j];
    }
  }

  lemma SyntheticsAnswer(calls: seq<ToolCall>, reason: string)
    ensures Answers(Synthetics(calls, reason), calls) && Justified(Synthetics(calls, reason), {})
  {
  }

  lemma TailMore(ms: seq<Message>, m: Message, results: seq<Message>)
    requires TailIs(ms, [m])
    ensures TailIs(ms + results, [m] + results)
  {
    var both := ms + results;
    assert both[|both| - |results| - 1] == ms[|ms| - 1] == m;
  }

  lemma SyntheticsSnoc(calls: seq<ToolCall>, from: nat, i: nat, reason: string)
    requires from <= i < |calls|
    ensures Synthetics(calls[from..i + 1], reason) ==
            Synthetics(calls[from..i], reason) + [SyntheticResult(calls[i], reason, Aborted)]
  {
  }
}
