/** runToolCallWithTimeout as a protocol over every interleaving, and finalizeExecutedToolCall on its outcome. */
module ToolTimeout {
  import opened Strings
  import opened Runs

  datatype Cause = TimeoutCause | AbortCause

  datatype Settlement = Resolved | Rejected

  datatype Outcome = Real(settlement: Settlement) | Terminal(cause: Cause) | NeverStarted

  /** One observable move of the tool, the clock, the parent run, or the runtime. */
  datatype Action =
    | TimerFires
    | ParentAborts
    | ToolSettles(settlement: Settlement)
    | ToolUpdates(id: nat)
    | DeliverUpdate(id: nat)
    | CommitReal
    | CommitCause
    | Publish(ok: bool)
    | Audit

  /** What watches a tool whose cause won: registered at the commit, due once the tool settles, and used up by the audit
      event. */
  datatype Observer = Unregistered | Waiting | Due | Done

  datatype Race = Race(
    timeoutMs: real,
    audit: bool,
    timerArmed: bool,
    listening: bool,
    parentAborted: bool,
    childAborted: bool,
    cause: Option<Cause>,
    settled: Option<Settlement>,
    outcome: Option<Outcome>,
    queued: set<nat>,
    terminalCommitted: bool,
    observer: Observer)

  function Start(timeoutMs: real, audit: bool, parentAborted: bool): Race {
    if parentAborted then
      Race(timeoutMs, audit, false, false, true, false, None, None, Some(NeverStarted), {}, false, Unregistered)
    else
      Race(timeoutMs, audit, timeoutMs > 0.0, true, false, false, None, None, None, {}, false, Unregistered)
  }

  /** resolveCause: the first cause stays. */
  function ResolveCause(s: Race, cause: Cause): Race {
    s.(cause := if s.cause.Some? then s.cause else Some(cause), childAborted := true)
  }

  function Commit(s: Race, outcome: Outcome): Race {
    s.(outcome := Some(outcome), timerArmed := false, listening := false)
  }

  /** The observer is registered only under the audit policy; a tool that has settled by then makes it due at once. */
  function Register(s: Race): Race {
    s.(observer := if !s.audit then Unregistered else if s.settled.Some? then Due else Waiting)
  }

  function Settle(s: Race, settlement: Settlement): Race {
    s.(settled := Some(settlement), observer := if s.observer.Waiting? then Due else s.observer)
  }

  predicate RaceSettled(s: Race) {
    s.outcome.Some?
  }

  predicate Running(s: Race) {
    s.outcome != Some(NeverStarted) && s.settled.None?
  }

  /** None when the action cannot happen in this state. */
  function Apply(s: Race, a: Action): Option<Race> {
    match a
    case TimerFires => if s.timerArmed then Some(ResolveCause(s.(timerArmed := false), TimeoutCause)) else None
    case ParentAborts =>
      if s.parentAborted then None
      else if s.listening then Some(ResolveCause(s.(parentAborted := true, listening := false), AbortCause))
      else Some(s.(parentAborted := true))
    case ToolSettles(settlement) => if Running(s) then Some(Settle(s, settlement)) else None
    case ToolUpdates(id) =>
      if s.outcome == Some(NeverStarted) then None
      else Some(if RaceSettled(s) then s else s.(queued := s.queued + {id}))
    case DeliverUpdate(id) => if id in s.queued then Some(s.(queued := s.queued - {id})) else None
    case CommitReal => if s.outcome.None? && s.settled.Some? then Some(Commit(s, Real(s.settled.value))) else None
    case CommitCause =>
      if s.outcome.None? && s.cause.Some? then Some(Register(Commit(s, Terminal(s.cause.value)))) else None
    case Publish(_) => if s.outcome.Some? && !s.terminalCommitted then Some(s.(terminalCommitted := true)) else None
    case Audit => if s.observer.Due? && s.terminalCommitted then Some(s.(observer := Done)) else None
  }

  /** The state after a whole interleaving. */
  function Play(s: Race, log: seq<Action>): Option<Race> {
    Run(Apply, s, log)
  }

  // ---------------------------------------------------------------- facts about the log

  predicate IsCommit(a: Action) {
    a.CommitReal? || a.CommitCause?
  }

  /** Which of timer and abort fired first. */
  function FirstTrigger(log: seq<Action>): Option<Cause> {
    if |log| == 0 then None
    else NextTrigger(FirstTrigger(log[..|log| - 1]), log[|log| - 1])
  }

  function Seen(log: seq<Action>): set<Action> {
    set a | a in log
  }

  /** What the state remembers of the actions seen and of the first trigger. */
  predicate Remembers(s0: Race, s: Race, seen: set<Action>, first: Option<Cause>) {
    && CauseRemembered(s0, s, seen, first)
    && OutcomeRemembered(s0, s, seen)
    && AuditRemembered(s, seen)
  }

  predicate CauseRemembered(s0: Race, s: Race, seen: set<Action>, first: Option<Cause>) {
    && s.timeoutMs == s0.timeoutMs && s.audit == s0.audit
    && (s.timerArmed ==> s.timeoutMs > 0.0)
    && (s.outcome.None? ==> s.cause == first && s.listening == !s.parentAborted)
    && (s.cause == Some(TimeoutCause) ==> TimerFires in seen && s.timeoutMs > 0.0)
    && (s.cause == Some(AbortCause) ==> ParentAborts in seen)
    && (s.parentAborted <==> s0.parentAborted || ParentAborts in seen)
  }

  predicate OutcomeRemembered(s0: Race, s: Race, seen: set<Action>) {
    && (s.outcome.None? <==> s0.outcome.None? && CommitReal !in seen && CommitCause !in seen)
    && (s.settled.Some? <==> ToolSettles(Resolved) in seen || ToolSettles(Rejected) in seen)
    && (s.settled.Some? ==> ToolSettles(s.settled.value) in seen)
    && (s.outcome.Some? && s.outcome.value.Real? ==> s.settled == Some(s.outcome.value.settlement))
    && (s.outcome.Some? && s.outcome.value.Terminal? ==> s.cause == Some(s.outcome.value.cause))
    && (s.outcome == Some(NeverStarted) <==> s0.outcome == Some(NeverStarted))
    && (s0.outcome == Some(NeverStarted) ==> s0.parentAborted)
    && (s.outcome.Some? ==> !s.timerArmed && !s.listening)
  }

  predicate AuditRemembered(s: Race, seen: set<Action>) {
    && (s.terminalCommitted <==> Publish(true) in seen || Publish(false) in seen)
    && (s.observer.Done? <==> Audit in seen)
    && (s.terminalCommitted ==> s.outcome.Some?)
    && (!s.observer.Unregistered? ==> s.audit && s.outcome.Some? && s.outcome.value.Terminal?)
    && (s.observer.Due? || s.observer.Done? ==> s.settled.Some?)
    && (s.observer.Done? ==> s.terminalCommitted)
  }

  ghost predicate Initial(s: Race) {
    exists timeoutMs, audit, parentAborted :: s == Start(timeoutMs, audit, parentAborted)
  }

  lemma {:induction false} PlayRemembers(s0: Race, log: seq<Action>)
    requires Initial(s0) && Play(s0, log).Some?
    ensures Remembers(s0, Play(s0, log).value, Seen(log), FirstTrigger(log))
  {
    if |log| == 0 {
      assert Seen(log) == {};
    } else {
      var n := |log| - 1;
      var before := Play(s0, log[..n]).value;
      PlayRemembers(s0, log[..n]);
      StepRemembers(s0, before, Seen(log[..n]), FirstTrigger(log[..n]), log[n]);
      SeenStep(log);
    }
  }

  lemma SeenStep(log: seq<Action>)
    requires |log| > 0
    ensures Seen(log) == Seen(log[..|log| - 1]) + {log[|log| - 1]}
  {
    assert log == log[..|log| - 1] + [log[|log| - 1]];
  }

  function NextTrigger(first: Option<Cause>, a: Action): Option<Cause> {
    if first.Some? then first
    else if a.TimerFires? then Some(TimeoutCause)
    else if a.ParentAborts? then Some(AbortCause)
    else None
  }

  lemma StepRemembers(s0: Race, s: Race, seen: set<Action>, first: Option<Cause>, a: Action)
    requires Remembers(s0, s, seen, first) && Apply(s, a).Some?
    ensures Remembers(s0, Apply(s, a).value, seen + {a}, NextTrigger(first, a))
  {
    CauseStep(s0, s, seen, first, a);
    OutcomeStep(s0, s, seen, first, a);
    AuditStep(s0, s, seen, a);
  }

  lemma CauseStep(s0: Race, s: Race, seen: set<Action>, first: Option<Cause>, a: Action)
    requires Remembers(s0, s, seen, first) && Apply(s, a).Some?
    ensures CauseRemembered(s0, Apply(s, a).value, seen + {a}, NextTrigger(first, a))
  {
    hide AuditRemembered;
  }

  lemma OutcomeStep(s0: Race, s: Race, seen: set<Action>, first: Option<Cause>, a: Action)
    requires Remembers(s0, s, seen, first) && Apply(s, a).Some?
    ensures OutcomeRemembered(s0, Apply(s, a).value, seen + {a})
  {
    hide AuditRemembered;
    assert a.ToolSettles? ==> a.settlement == Resolved || a.settlement == Rejected;
  }

  lemma AuditStep(s0: Race, s: Race, seen: set<Action>, a: Action)
    requires OutcomeRemembered(s0, s, seen) && AuditRemembered(s, seen) && Apply(s, a).Some?
    ensures AuditRemembered(Apply(s, a).value, seen + {a})
  {
    hide OutcomeRemembered;
  }

  // ---------------------------------------------------------------- the protocol's promises

  lemma StepKeepsOutcome(s: Race, a: Action)
    requires Apply(s, a).Some? && s.outcome.Some?
    ensures Apply(s, a).value.outcome == s.outcome && !IsCommit(a)
    ensures Apply(s, a).value.queued <= s.queued
  {
    QueueAfter(s, a);
  }

  /** Only updates and their delivery touch the queue. */
  lemma QueueAfter(s: Race, a: Action)
    requires Apply(s, a).Some?
    ensures Apply(s, a).value.queued ==
            match a
            case ToolUpdates(id) => if s.outcome.None? then s.queued + {id} else s.queued
            case DeliverUpdate(id) => s.queued - {id}
            case _ => s.queued
  {
    match a
    case TimerFires =>
    case ParentAborts =>
    case _ =>
  }

  /** A committed outcome is never replaced, and nothing is queued behind it. */
  lemma CommitIsFinal(s0: Race, log: seq<Action>, k: nat)
    requires Play(s0, log).Some? && k <= |log|
    requires Play(s0, log[..k]).Some? && Play(s0, log[..k]).value.outcome.Some?
    ensures Play(s0, log).value.outcome == Play(s0, log[..k]).value.outcome
    ensures Play(s0, log).value.queued <= Play(s0, log[..k]).value.queued
  {
    var reached := Play(s0, log[..k]).value;
    var good := (x: Race) => x.outcome == reached.outcome && x.queued <= reached.queued;
    var any := (a: Action) => true;
    forall x, a | good(x) && any(a) && Apply(x, a).Some? ensures good(Apply(x, a).value) {
      StepKeepsOutcome(x, a);
    }
    KeptAlong(Apply, s0, log, k, good, any);
  }

  /** At most one commit occurs in an interleaving. */
  lemma OneCommit(s0: Race, log: seq<Action>, i: nat, j: nat)
    requires Play(s0, log).Some?
    requires i < j < |log| && IsCommit(log[i])
    ensures !IsCommit(log[j])
  {
    RunStep(Apply, s0, log, i);
    RunStep(Apply, s0, log, j);
    assert log[..j][..i + 1] == log[..i + 1];
    CommitIsFinal(s0, log[..j], i + 1);
    StepKeepsOutcome(Play(s0, log[..j]).value, log[j]);
  }

  /** Whatever is committed really happened before; between timer and abort the first to fire decides. */
  lemma CommitCaused(s0: Race, log: seq<Action>, i: nat)
    requires Initial(s0) && Play(s0, log).Some? && i < |log| && IsCommit(log[i])
    ensures var outcome := Play(s0, log).value.outcome;
            && outcome.Some?
            && (log[i].CommitReal? ==> outcome.value.Real? && ToolSettles(outcome.value.settlement) in log[..i])
            && (log[i].CommitCause? ==> outcome.value.Terminal? && FirstTrigger(log[..i]) == Some(outcome.value.cause))
            && (outcome == Some(Terminal(TimeoutCause)) ==> s0.timeoutMs > 0.0)
  {
    RunStep(Apply, s0, log, i);
    PlayRemembers(s0, log[..i]);
    CommitIsFinal(s0, log, i + 1);
  }

  /** A run has an outcome exactly when it committed one or never started. */
  lemma ResultIffCommit(s0: Race, log: seq<Action>)
    requires Initial(s0) && Play(s0, log).Some?
    ensures Play(s0, log).value.outcome.Some? <==> s0.parentAborted || exists i :: 0 <= i < |log| && IsCommit(log[i])
  {
    PlayRemembers(s0, log);
    assert CommitReal in log || CommitCause in log <==> exists i :: 0 <= i < |log| && IsCommit(log[i]);
  }

  lemma DeliveredWasQueued(s0: Race, log: seq<Action>, k: nat, id: nat)
    requires Play(s0, log).Some? && k < |log| && log[k] == DeliverUpdate(id)
    ensures Play(s0, log[..k]).Some? && id in Play(s0, log[..k]).value.queued
  {
    RunStep(Apply, s0, log, k);
  }

  lemma CommitsAt(s0: Race, log: seq<Action>, i: nat)
    requires Play(s0, log).Some? && i < |log| && IsCommit(log[i])
    ensures Play(s0, log[..i]).Some? && Play(s0, log[..i + 1]).Some?
    ensures Play(s0, log[..i + 1]).value.outcome.Some?
    ensures Play(s0, log[..i + 1]).value.queued == Play(s0, log[..i]).value.queued
  {
    RunStep(Apply, s0, log, i);
  }

  /** An update that the tool makes only after the commit is never delivered. */
  lemma LateUpdateDropped(s0: Race, log: seq<Action>, i: nat, id: nat)
    requires Initial(s0) && Play(s0, log).Some? && i < |log| && IsCommit(log[i])
    requires ToolUpdates(id) !in log[..i]
    ensures DeliverUpdate(id) !in log
  {
    forall k | 0 <= k < |log| && log[k] == DeliverUpdate(id) ensures false {
      DeliveredWasQueued(s0, log, k, id);
      NotQueuedAt(s0, log, i, k, id);
    }
  }

  lemma NotQueuedAt(s0: Race, log: seq<Action>, i: nat, k: nat, id: nat)
    requires Initial(s0) && Play(s0, log).Some? && i < |log| && IsCommit(log[i]) && k < |log|
    requires ToolUpdates(id) !in log[..i]
    ensures Play(s0, log[..k]).Some? && id !in Play(s0, log[..k]).value.queued
  {
    RunPrefix(Apply, s0, log, k);
    if k <= i {
      assert log[..k] <= log[..i];
      NeverQueued(s0, log[..k], id);
    } else {
      CommitsAt(s0, log, i);
      NeverQueued(s0, log[..i], id);
      assert log[..k][..i + 1] == log[..i + 1];
      CommitIsFinal(s0, log[..k], i + 1);
    }
  }

  lemma QueueGrowsByUpdate(s: Race, a: Action, id: nat)
    requires Apply(s, a).Some? && id !in s.queued && a != ToolUpdates(id)
    ensures id !in Apply(s, a).value.queued
  {
    QueueAfter(s, a);
  }

  lemma NeverQueued(s0: Race, log: seq<Action>, id: nat)
    requires Initial(s0) && Play(s0, log).Some? && ToolUpdates(id) !in log
    ensures id !in Play(s0, log).value.queued
  {
    var good := (x: Race) => id !in x.queued;
    var allowed := (a: Action) => a != ToolUpdates(id);
    assert log[..0] == [];
    forall x, a | good(x) && allowed(a) && Apply(x, a).Some? ensures good(Apply(x, a).value) {
      QueueGrowsByUpdate(x, a, id);
    }
    KeptAlong(Apply, s0, log, 0, good, allowed);
  }

  /** The audit event occurs at most once: one commit registers one observer, and the event uses it up. */
  lemma OneAudit(s0: Race, log: seq<Action>, i: nat, j: nat)
    requires Initial(s0) && Play(s0, log).Some?
    requires i < j < |log| && log[i] == Audit
    ensures log[j] != Audit
  {
    RunStep(Apply, s0, log, j);
    PlayRemembers(s0, log[..j]);
    assert log[..j][i] == Audit;
  }

  /** The audit event comes only under the audit policy, when a cause won and the tool settled, and only after the
      attempt to publish the result; after its `message_end` unless the event sink threw. */
  lemma AuditAfterPublish(s0: Race, log: seq<Action>, i: nat)
    requires Initial(s0) && Play(s0, log).Some? && i < |log| && log[i] == Audit
    ensures s0.audit && Play(s0, log).value.outcome.Some? && Play(s0, log).value.outcome.value.Terminal?
    ensures ToolSettles(Resolved) in log[..i] || ToolSettles(Rejected) in log[..i]
    ensures Publish(true) in log[..i] || Publish(false) in log[..i]
  {
    RunStep(Apply, s0, log, i);
    PlayRemembers(s0, log[..i]);
    CommitIsFinal(s0, log, i);
  }

  /** The result is published at most once. */
  lemma OnePublish(s0: Race, log: seq<Action>, i: nat, j: nat)
    requires Initial(s0) && Play(s0, log).Some?
    requires i < j < |log| && log[i].Publish?
    ensures !log[j].Publish?
  {
    RunStep(Apply, s0, log, j);
    PlayRemembers(s0, log[..j]);
    assert log[..j][i] == log[i];
  }

  /** The audit event comes after the result's `message_end`, if and only if no sink throws on that result. */
  lemma AuditAfterMessageEnd(s0: Race, log: seq<Action>, i: nat)
    requires Initial(s0) && Play(s0, log).Some? && i < |log| && log[i] == Audit
    ensures Publish(true) in log[..i] <==> Publish(false) !in log
  {
    AuditAfterPublish(s0, log, i);
    if Publish(true) in log[..i] && Publish(false) in log {
      var a: nat :| a < i && log[a] == Publish(true);
      var b: nat :| b < |log| && log[b] == Publish(false);
      OnePublish(s0, log, if a < b then a else b, if a < b then b else a);
    }
    assert Publish(false) in log[..i] ==> Publish(false) in log;
  }

  lemma Extends(s0: Race, log: seq<Action>, s: Race, a: Action, next: Race)
    requires Play(s0, log) == Some(s) && Apply(s, a) == Some(next)
    ensures Play(s0, log + [a]) == Some(next)
  {
    RunSnoc(Apply, s0, log, a);
  }

  /** A cause won, and nothing has been published yet. */
  predicate CauseWon(s: Race) {
    s.outcome.Some? && s.outcome.value.Terminal? && s.settled.None? && s.observer.Waiting? && !s.terminalCommitted
  }

  lemma CauseWins() returns (log: seq<Action>)
    ensures log == [ParentAborts] + [CommitCause]
    ensures Play(Start(0.0, true, false), log).Some? && CauseWon(Play(Start(0.0, true, false), log).value)
  {
    var s0 := Start(0.0, true, false);
    var s1 := Apply(s0, ParentAborts).value;
    var s2 := Apply(s1, CommitCause).value;
    assert [] + [ParentAborts] == [ParentAborts];
    Extends(s0, [], s0, ParentAborts, s1);
    log := [ParentAborts] + [CommitCause];
    Extends(s0, [ParentAborts], s1, CommitCause, s2);
  }

  lemma AuditAfterThrow(s: Race) returns (s': Race, s'': Race)
    requires CauseWon(s)
    ensures Apply(s, Publish(false)) == Some(s') && Apply(s', ToolSettles(Resolved)) == Some(s'')
    ensures Apply(s'', Audit).Some?
  {
    s' := Apply(s, Publish(false)).value;
    s'' := Apply(s', ToolSettles(Resolved)).value;
  }

  /** When the sink throws, the audit event can come without any `message_end`. */
  lemma AuditWithoutPublish()
    ensures exists log ::
              Play(Start(0.0, true, false), log).Some? && Audit in log && Publish(true) !in log
  {
    var s0 := Start(0.0, true, false);
    var log := CauseWins();
    var s2 := Play(s0, log).value;
    var s3, s4 := AuditAfterThrow(s2);
    Extends(s0, log, s2, Publish(false), s3);
    Extends(s0, log + [Publish(false)], s3, ToolSettles(Resolved), s4);
    var almost := log + [Publish(false)] + [ToolSettles(Resolved)];
    Extends(s0, almost, s4, Audit, Apply(s4, Audit).value);
    assert Audit in almost + [Audit];
  }
}
