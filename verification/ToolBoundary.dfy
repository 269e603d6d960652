/** What a call's race returns and how it becomes a final result: packages/agent/src/tool-timeout.ts and
    packages/agent/src/tool-execution-boundary.ts. */
module ToolBoundary {
  import opened Strings
  import opened Envelopes
  import opened ToolTimeout

  /** A configured timeout: an ordinary number, or NaN or an infinity. */
  datatype Number = Finite(value: real) | NotFinite

  datatype Timeouts = Timeouts(perTool: Option<Number>, perName: Option<Number>, global: Option<Number>)

  predicate Enables(config: Timeouts, ms: real) {
    ms > 0.0
    && (|| config.perTool == Some(Finite(ms))
        || (config.perTool.None? && config.perName == Some(Finite(ms)))
        || (config.perTool.None? && config.perName.None? && config.global == Some(Finite(ms))))
  }

  /** The first level that is present decides, even when it disables the timer. */
  function ResolveToolTimeoutMs(config: Timeouts): (ms: real)
    ensures forall v :: Enables(config, v) <==> v == ms && ms != 0.0
  {
    var chosen := if config.perTool.Some? then config.perTool
                  else if config.perName.Some? then config.perName
                  else config.global;
    if chosen.None? || chosen.value.NotFinite? || chosen.value.value <= 0.0 then 0.0 else chosen.value.value
  }

  /** A tool's result; a malformed one is refused when the immutable snapshot is taken. */
  datatype Content = Text(text: string) | Malformed

  datatype ToolOutput = ToolOutput(content: Content, terminate: Option<bool>)

  function ErrorOutput(message: string): ToolOutput {
    ToolOutput(Text(message), None)
  }

  datatype Executed = Executed(
    result: ToolOutput,
    isError: bool,
    executionStarted: bool,
    terminal: Option<Cause>)

  /** What runToolCallWithTimeout returns once its race has an outcome. */
  function ExecutedOf(outcome: Outcome, own: ToolOutput, thrown: string): Executed {
    match outcome
    case NeverStarted => Executed(ErrorOutput("Operation aborted"), true, false, Some(AbortCause))
    case Real(Resolved) => Executed(own, false, true, None)
    case Real(Rejected) => Executed(ErrorOutput(thrown), true, true, None)
    case Terminal(cause) =>
      Executed(ErrorOutput(if cause.TimeoutCause? then "timed out" else "Operation aborted"), true, true, Some(cause))
  }

  datatype Patch = Patch(content: Option<Content>, terminate: Option<bool>, isError: Option<bool>)

  /** How the after-tool hook ends, raced against the parent's abort. */
  datatype HookEnd = HookAborted | HookThrew(message: string) | HookSilent | HookPatched(patch: Patch)

  /** The environment's choices while one call is finalized. */
  datatype Surroundings = Surroundings(
    timeoutMs: real,
    abortedBefore: bool,
    hook: Option<HookEnd>)

  datatype Finalized = Finalized(result: ToolOutput, isError: bool, envelope: Envelope)

  function DispositionOf(cause: Cause): Disposition {
    match cause
    case TimeoutCause => TimedOut
    case AbortCause => Aborted
  }

  function PatchedContent(result: ToolOutput, patch: Patch): Content {
    if patch.content.Some? then patch.content.value else result.content
  }

  predicate HookRan(executed: Executed, around: Surroundings) {
    executed.terminal.None? && !around.abortedBefore && executed.result.content.Text? && around.hook.Some?
  }

  /** The call is committed as aborted although its race ended with the tool's own result. */
  predicate AbortedLate(executed: Executed, around: Surroundings) {
    executed.terminal.None?
    && (around.abortedBefore || (HookRan(executed, around) && around.hook.value.HookAborted?))
  }

  /** The tool's own result, or the hook's patch of it, cannot be published. */
  predicate Unpublishable(executed: Executed, around: Surroundings) {
    || executed.result.content.Malformed?
    || (HookRan(executed, around)
        && (|| around.hook.value.HookThrew?
            || (around.hook.value.HookPatched?
                && PatchedContent(executed.result, around.hook.value.patch).Malformed?)))
  }

  predicate ReportsError(executed: Executed, around: Surroundings) {
    if HookRan(executed, around) && around.hook.value.HookPatched? && around.hook.value.patch.isError.Some? then
      around.hook.value.patch.isError.value
    else
      executed.isError
  }

  /** The terminal disposition table. */
  function ExpectedDisposition(executed: Executed, around: Surroundings): Disposition {
    if executed.terminal.Some? then DispositionOf(executed.terminal.value)
    else if AbortedLate(executed, around) then Aborted
    else if Unpublishable(executed, around) || ReportsError(executed, around) then Failed
    else Completed
  }

  /** None stands for the TypeError of createToolResultEnvelope. */
  method FinalizeExecutedToolCall(executed: Executed, around: Surroundings) returns (final: Option<Finalized>)
    requires executed.terminal.None? || executed.terminal == Some(TimeoutCause) ==> executed.executionStarted
    ensures final.None? <==> executed.terminal == Some(TimeoutCause) && around.timeoutMs <= 0.0
    ensures final.Some? ==>
              && final.value.envelope.disposition == ExpectedDisposition(executed, around)
              && final.value.envelope.executionStarted == executed.executionStarted
              && (final.value.isError <==> final.value.envelope.disposition != Completed)
              && (final.value.envelope.synthetic <==>
                    final.value.envelope.disposition != Completed
                    && (final.value.envelope.disposition == Failed ==> Unpublishable(executed, around)))
              && IsToolResultEnvelope(final.value.envelope)
    ensures final.Some? ==> final.value.result.content.Text?
    ensures final.Some? && final.value.envelope.disposition == Completed ==>
              final.value.result.content ==
              if HookRan(executed, around) && around.hook.value.HookPatched? then
                PatchedContent(executed.result, around.hook.value.patch)
              else executed.result.content
  {
    var result, isError := executed.result, executed.isError;
    var syntheticFailure := false;
    var terminal := executed.terminal;
    if result.content.Malformed? {
      result, isError, syntheticFailure := ErrorOutput("Invalid tool result"), true, true;
    }
    if terminal.None? && around.abortedBefore {
      terminal, result, isError := Some(AbortCause), ErrorOutput("Operation aborted"), true;
    }
    if terminal.None? && around.hook.Some? && !syntheticFailure {
      match around.hook.value
      case HookAborted =>
        terminal, result, isError := Some(AbortCause), ErrorOutput("Operation aborted"), true;
      case HookThrew(message) =>
        result, isError, syntheticFailure := ErrorOutput(message), true, true;
      case HookSilent =>
      case HookPatched(patch) =>
        result := ToolOutput(
          PatchedContent(result, patch),
          if patch.terminate.Some? then patch.terminate else result.terminate);
        isError := if patch.isError.Some? then patch.isError.value else isError;
    }
    if terminal.None? {
      if result.content.Malformed? {
        result, isError, syntheticFailure := ErrorOutput("Invalid tool result"), true, true;
      }
    } else {
      isError := true;
    }
    var envelope :=
      if terminal.Some? then
        CreateToolResultEnvelope(Envelope(
          true,
          DispositionOf(terminal.value),
          Some(if terminal.value == TimeoutCause then "timed out" else "Operation aborted"),
          if terminal.value == TimeoutCause then Some(around.timeoutMs) else None,
          executed.executionStarted))
      else
        CreateToolResultEnvelope(Envelope(
          syntheticFailure, if isError then Failed else Completed, None, None, executed.executionStarted));
    if envelope.None? {
      return None;
    }
    return Some(Finalized(result, isError, envelope.value));
  }

  /** What every race hands to finalization: a committed timeout had a positive timer and a started tool, so no
      reachable finalization makes the envelope constructor throw. */
  lemma RaceFinalizes(s0: Race, log: seq<Action>, own: ToolOutput, thrown: string)
    requires Initial(s0) && Play(s0, log).Some? && Play(s0, log).value.outcome.Some?
    ensures var executed := ExecutedOf(Play(s0, log).value.outcome.value, own, thrown);
            && (executed.terminal == Some(TimeoutCause) ==> s0.timeoutMs > 0.0)
            && (executed.terminal.None? || executed.terminal == Some(TimeoutCause) ==> executed.executionStarted)
            && (executed.executionStarted <==> !s0.parentAborted)
  {
    PlayRemembers(s0, log);
  }

  /** The outcomes a race can have. */
  predicate PossibleOutcome(timeoutMs: real, parentAborted: bool, outcome: Outcome) {
    && (outcome.NeverStarted? <==> parentAborted)
    && (outcome == Terminal(TimeoutCause) ==> timeoutMs > 0.0)
  }

  lemma OutcomesExact(timeoutMs: real, audit: bool, parentAborted: bool, outcome: Outcome)
    ensures PossibleOutcome(timeoutMs, parentAborted, outcome) <==>
            exists log :: var end := Play(Start(timeoutMs, audit, parentAborted), log);
                          end.Some? && end.value.outcome == Some(outcome)
  {
    var s0 := Start(timeoutMs, audit, parentAborted);
    assert Initial(s0);
    forall log | Play(s0, log).Some? && Play(s0, log).value.outcome == Some(outcome)
      ensures PossibleOutcome(timeoutMs, parentAborted, outcome)
    {
      PlayRemembers(s0, log);
    }
    if PossibleOutcome(timeoutMs, parentAborted, outcome) {
      var log := OutcomeLog(timeoutMs, audit, parentAborted, outcome);
    }
  }

  lemma OutcomeLog(timeoutMs: real, audit: bool, parentAborted: bool, outcome: Outcome) returns (log: seq<Action>)
    requires PossibleOutcome(timeoutMs, parentAborted, outcome)
    ensures var end := Play(Start(timeoutMs, audit, parentAborted), log);
            end.Some? && end.value.outcome == Some(outcome)
  {
    var s0 := Start(timeoutMs, audit, parentAborted);
    if outcome.NeverStarted? { return []; }
    var trigger := match outcome
                   case Real(settlement) => ToolSettles(settlement)
                   case Terminal(TimeoutCause) => TimerFires
                   case _ => ParentAborts;
    var commit := if outcome.Real? then CommitReal else CommitCause;
    var s1 := Apply(s0, trigger).value;
    var s2 := Apply(s1, commit).value;
    Extends(s0, [], s0, trigger, s1);
    Extends(s0, [] + [trigger], s1, commit, s2);
    log := [] + [trigger] + [commit];
  }
}
