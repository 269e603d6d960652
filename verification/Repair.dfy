/** repairTranscriptIntegrity and planFailureTermination: what is appended to a transcript with missing results. */
module Repair {
  import opened Strings
  import opened Envelopes
  import opened Transcript

  function SyntheticEnvelope(reason: string, disposition: Disposition): Envelope {
    Envelope(true, disposition, Some(reason), None, false)
  }

  function SyntheticResult(call: ToolCall, reason: string, disposition: Disposition): Message
    requires disposition == Aborted || disposition == Skipped
  {
    ToolResult(call.id, call.name, reason, true, CreateToolResultEnvelope(SyntheticEnvelope(reason, disposition)))
  }

  function Synthetics(calls: seq<ToolCall>, reason: string): seq<Message> {
    seq(|calls|, i requires 0 <= i < |calls| => SyntheticResult(calls[i], reason, Aborted))
  }

  /** The calls without a result, in call order. */
  function Without(calls: seq<ToolCall>, results: seq<string>): seq<ToolCall> {
    if |calls| == 0 then []
    else (if calls[0].id in results then [] else [calls[0]]) + Without(calls[1..], results)
  }

  function MissingCalls(ms: seq<Message>): seq<ToolCall> {
    Without(AllCalls(ms), ResultIds(ms))
  }

  // ---------------------------------------------------------------- the open turn

  lemma {:induction false} AutomatonAppend(a: seq<Message>, b: seq<Message>, pending: set<string>)
    ensures FinalPending(a + b, pending) ==
            (match FinalPending(a, pending) case None => None case Some(open) => FinalPending(b, open))
  {
    if |a| == 0 {
      assert a + b == b;
    } else {
      assert (a + b)[1..] == a[1..] + b;
      if a[0].ToolResult? {
        AutomatonAppend(a[1..], b, pending - {a[0].toolCallId});
      } else {
        AutomatonAppend(a[1..], b, IdSet(CallsOf(a[0])));
      }
    }
  }

  /** Nothing but results for `ids`. */
  predicate OnlyResults(ms: seq<Message>, ids: set<string>) {
    forall m :: m in ms ==> m.ToolResult? && m.toolCallId in ids
  }

  /** `k` is the last assistant message, everything after it is one of its results, and all open calls are its own. */
  predicate LastTurn(ms: seq<Message>, k: nat, open: set<string>) {
    && k < |ms| && ms[k].Assistant?
    && OnlyResults(ms[k + 1..], IdSet(CallsOf(ms[k])))
    && open <= IdSet(CallsOf(ms[k]))
  }

  lemma {:induction false} OpenTurn(ms: seq<Message>, pending: set<string>) returns (k: nat)
    requires FinalPending(ms, pending).Some? && FinalPending(ms, pending).value != {}
    ensures LastTurn(ms, k, FinalPending(ms, pending).value)
            || (OnlyResults(ms, pending) && FinalPending(ms, pending).value <= pending)
  {
    k := 0;
    if |ms| > 0 {
      var next := if ms[0].ToolResult? then pending - {ms[0].toolCallId} else IdSet(CallsOf(ms[0]));
      var open := FinalPending(ms, pending).value;
      k := OpenTurn(ms[1..], next);
      if LastTurn(ms[1..], k, open) {
        k := k + 1;
        assert ms[1..][k..] == ms[k + 1..];
      } else {
        k := 0;
        if ms[0].ToolResult? {
          assert forall m :: m in ms ==> m == ms[0] || m in ms[1..];
        }
      }
    }
  }

  lemma {:induction false} WithoutAppend(a: seq<ToolCall>, b: seq<ToolCall>, results: seq<string>)
    ensures Without(a + b, results) == Without(a, results) + Without(b, results)
  {
    if |a| == 0 {
      assert a + b == b;
    } else {
      assert (a + b)[1..] == a[1..] + b;
      WithoutAppend(a[1..], b, results);
    }
  }

  lemma {:induction false} WithoutIds(calls: seq<ToolCall>, results: seq<string>)
    ensures IdSet(Without(calls, results)) == IdSet(calls) - Members(results)
    ensures Distinct(Ids(calls)) ==> Distinct(Ids(Without(calls, results)))
  {
    if |calls| > 0 {
      var rest := Without(calls[1..], results);
      WithoutIds(calls[1..], results);
      assert calls == [calls[0]] + calls[1..];
      IdSetCons(calls[0], calls[1..]);
      IdSetCons(calls[0], rest);
      assert [] + rest == rest;
      if Distinct(Ids(calls)) {
        DistinctParts([calls[0]], calls[1..]);
        HeadDiffers(calls, rest);
      }
    }
  }

  lemma IdSetCons(call: ToolCall, calls: seq<ToolCall>)
    ensures IdSet([call] + calls) == {call.id} + IdSet(calls)
  {
    forall id | id in IdSet(calls) ensures id in IdSet([call] + calls) {
      var c :| c in calls && c.id == id;
      assert c in [call] + calls;
    }
    assert call in [call] + calls;
  }

  lemma HeadDiffers(calls: seq<ToolCall>, rest: seq<ToolCall>)
    requires |calls| > 0 && Distinct(Ids(calls)) && Distinct(Ids(rest)) && IdSet(rest) <= IdSet(calls[1..])
    ensures Distinct(Ids([calls[0]] + rest))
  {
    forall j | 0 <= j < |rest|
      ensures rest[j].id != calls[0].id
    {
      assert rest[j] in rest && rest[j].id in IdSet(rest);
      var c :| c in calls[1..] && c.id == rest[j].id;
      var i :| 0 <= i < |calls[1..]| && calls[1..][i] == c;
      assert Ids(calls)[i + 1] == c.id && Ids(calls)[0] == calls[0].id;
    }
    assert Ids([calls[0]] + rest) == [calls[0].id] + Ids(rest);
  }

  lemma IdsMembers(calls: seq<ToolCall>)
    ensures Members(Ids(calls)) == IdSet(calls)
  {
    forall id
      ensures id in Ids(calls) <==> id in IdSet(calls)
    {
      if id in Ids(calls) {
        var i :| 0 <= i < |Ids(calls)| && Ids(calls)[i] == id;
        assert calls[i] in calls;
      }
      if id in IdSet(calls) {
        var c :| c in calls && c.id == id;
        var i :| 0 <= i < |calls| && calls[i] == c;
        assert Ids(calls)[i] == id;
      }
    }
  }

  /** The ids left open by the automaton are those of the calls without a result. */
  lemma OpenIsMissing(ms: seq<Message>)
    requires Repairable(ms)
    ensures FinalPending(ms, {}).value == IdSet(MissingCalls(ms))
    ensures Distinct(Ids(MissingCalls(ms)))
  {
    RepairableCounts(ms);
    WithoutIds(AllCalls(ms), ResultIds(ms));
    IdsMembers(AllCalls(ms));
  }

  // ---------------------------------------------------------------- appending the missing results

  lemma {:induction false} SyntheticsClose(calls: seq<ToolCall>, reason: string)
    requires Distinct(Ids(calls))
    ensures FinalPending(Synthetics(calls, reason), IdSet(calls)) == Some({})
    ensures AllCalls(Synthetics(calls, reason)) == [] && ResultIds(Synthetics(calls, reason)) == Ids(calls)
  {
    if |calls| > 0 {
      var rest := calls[1..];
      FirstId(calls);
      hide IdSet, Ids, Distinct;
      SyntheticsClose(rest, reason);
      assert Synthetics(calls, reason)[1..] == Synthetics(rest, reason);
    } else {
      assert IdSet(calls) == {};
    }
  }

  function Repaired(ms: seq<Message>, reason: string): seq<Message> {
    ms + Synthetics(MissingCalls(ms), reason)
  }

  /** Closing the missing calls of a transcript without other issues makes it clean. */
  lemma RepairedClean(ms: seq<Message>, reason: string)
    requires OnlyMissing(ms)
    ensures Clean(Repaired(ms, reason))
    ensures MissingCalls(Repaired(ms, reason)) == []
  {
    OnlyMissingIffRepairable(ms);
    OpenIsMissing(ms);
    var more := Synthetics(MissingCalls(ms), reason);
    SyntheticsClose(MissingCalls(ms), reason);
    AutomatonAppend(ms, more, {});
    CallsAppend(ms, more);
    assert AllCalls(ms) + [] == AllCalls(ms);
    CleanIffNothingOpen(Repaired(ms, reason));
    OpenIsMissing(Repaired(ms, reason));
    NoIdsNoCalls(MissingCalls(Repaired(ms, reason)));
  }

  lemma NoIdsNoCalls(calls: seq<ToolCall>)
    requires IdSet(calls) == {}
    ensures calls == []
  {
    EmptyIds(calls);
  }

  lemma CleanHasNoMissing(ms: seq<Message>)
    requires Clean(ms)
    ensures OnlyMissing(ms) && MissingCalls(ms) == [] && forall reason :: Repaired(ms, reason) == ms
  {
    OnlyMissingIffRepairable(ms);
    CleanIffNothingOpen(ms);
    OpenIsMissing(ms);
    EmptyIds(MissingCalls(ms));
  }

  /** Repairing twice is repairing once. */
  lemma RepairFixedPoint(ms: seq<Message>, reason: string, reason': string)
    requires OnlyMissing(ms)
    ensures Repaired(Repaired(ms, reason), reason') == Repaired(ms, reason)
  {
    RepairedClean(ms, reason);
    CleanHasNoMissing(Repaired(ms, reason));
  }

  // ---------------------------------------------------------------- repairTranscriptIntegrity

  datatype RepairError = Ambiguous(issue: Issue) | NoAssistant | NotInTail | NotAResult

  datatype RepairOutcome = Done(messages: seq<Message>) | Refused(error: RepairError)

  const DEFAULT_REASON := "Tool result missing; synthesized by transcript repair"

  lemma MissingIssueIds(ms: seq<Message>)
    requires OnlyMissing(ms)
    ensures (set i | i in Issues(ms) :: i.toolCallId) == IdSet(MissingCalls(ms))
  {
    var callIds, resultIds := Ids(AllCalls(ms)), ResultIds(ms);
    OnlyMissingIssues(ms);
    IssueIds(MissingResult, callIds, Members(callIds) - Members(resultIds), AllCalls(ms));
    WithoutIds(AllCalls(ms), resultIds);
    IdsMembers(AllCalls(ms));
  }

  lemma IssueIds(kind: IssueKind, ids: seq<string>, wanted: set<string>, calls: seq<ToolCall>)
    requires wanted <= Members(ids)
    ensures (set i | i in IssuesFor(kind, FirstOccurrences(ids), wanted, calls) :: i.toolCallId) == wanted
  {
    var issues := IssuesFor(kind, FirstOccurrences(ids), wanted, calls);
    FirstOccurrencesSame(ids);
    IssuesForMembers(kind, FirstOccurrences(ids), wanted, calls);
    forall id | id in wanted ensures id in (set i | i in issues :: i.toolCallId) {
      assert Names(issues, id);
      var i :| i in issues && i.toolCallId == id;
    }
  }

  lemma OnlyMissingIssues(ms: seq<Message>)
    requires OnlyMissing(ms)
    ensures var callIds, resultIds := Ids(AllCalls(ms)), ResultIds(ms);
            Issues(ms) == IssuesFor(MissingResult, FirstOccurrences(callIds), Members(callIds) - Members(resultIds), AllCalls(ms))
  {
    var callIds, resultIds := Ids(AllCalls(ms)), ResultIds(ms);
    CountIssuesSilent(ms);
    ScanKinds(ms, [], callIds);
    AllOfKind(CountIssues(ms), ScanIssues(ms, [], callIds));
    assert Members(resultIds) - Members(callIds) == {};
    CountIssuesMissing(ms);
  }

  /** Without repetitions and orphans the counting pass reports the missing results alone. */
  lemma CountIssuesMissing(ms: seq<Message>)
    requires var callIds, resultIds := Ids(AllCalls(ms)), ResultIds(ms);
             Distinct(callIds) && Distinct(resultIds) && Members(resultIds) - Members(callIds) == {}
    ensures var callIds, resultIds := Ids(AllCalls(ms)), ResultIds(ms);
            CountIssues(ms) ==
            IssuesFor(MissingResult, FirstOccurrences(callIds), Members(callIds) - Members(resultIds), AllCalls(ms))
  {
    hide AllCalls, ResultIds, Ids, FirstOccurrences;
    var callIds, resultIds := Ids(AllCalls(ms)), ResultIds(ms);
    NoneRepeated(callIds);
    NoneRepeated(resultIds);
    Silent(DuplicateCallId, callIds, Repeated(callIds), AllCalls(ms));
    Silent(DuplicateResult, resultIds, Repeated(resultIds), []);
    Silent(OrphanResult, resultIds, Members(resultIds) - Members(callIds), []);
  }

  lemma CallsAround(ms: seq<Message>, k: nat)
    requires k < |ms|
    ensures AllCalls(ms) == AllCalls(ms[..k]) + CallsOf(ms[k]) + AllCalls(ms[k + 1..])
  {
    var before, rest := ms[..k], ms[k..];
    assert ms == before + rest && rest[1..] == ms[k + 1..];
    assert AllCalls(rest) == CallsOf(ms[k]) + AllCalls(ms[k + 1..]);
    hide AllCalls, CallsOf;
    CallsAppend(before, rest);
    Regroup(AllCalls(before), CallsOf(ms[k]), AllCalls(ms[k + 1..]));
  }

  lemma Regroup(a: seq<ToolCall>, b: seq<ToolCall>, c: seq<ToolCall>)
    ensures a + (b + c) == a + b + c
  {
  }

  /** All missing calls belong to the last assistant message, and nothing but its results follows. */
  lemma TailOfRepairable(ms: seq<Message>) returns (k: nat)
    requires OnlyMissing(ms) && MissingCalls(ms) != []
    ensures LastTurn(ms, k, IdSet(MissingCalls(ms)))
    ensures Without(CallsOf(ms[k]), ResultIds(ms)) == MissingCalls(ms)
  {
    OnlyMissingIffRepairable(ms);
    OpenIsMissing(ms);
    EmptyIds(MissingCalls(ms));
    k := OpenTurn(ms, {});
    var before, after := AllCalls(ms[..k]), ms[k + 1..];
    var turn := CallsOf(ms[k]);
    CallsAround(ms, k);
    NoCalls(after);
    hide AllCalls, Without, ResultIds, OnlyMissing, FinalPending, MissingCalls;
    assert before + turn + [] == before + turn;
    WithoutAppend(before, turn, ResultIds(ms));
    EarlierTurnsClosed(before, turn, ResultIds(ms));
  }

  lemma {:induction false} NoCalls(ms: seq<Message>)
    requires forall m :: m in ms ==> m.ToolResult?
    ensures AllCalls(ms) == []
  {
    if |ms| > 0 {
      assert ms[0] in ms;
      NoCalls(ms[1..]);
    }
  }

  lemma DisjointIds(a: seq<ToolCall>, b: seq<ToolCall>)
    requires Distinct(Ids(a + b))
    ensures IdSet(a) !! IdSet(b)
  {
    forall c, d | c in a && d in b
      ensures c.id != d.id
    {
      var i :| 0 <= i < |a| && a[i] == c;
      var j :| 0 <= j < |b| && b[j] == d;
      assert Ids(a + b)[i] != Ids(a + b)[|a| + j];
    }
  }

  lemma EarlierTurnsClosed(before: seq<ToolCall>, turn: seq<ToolCall>, results: seq<string>)
    requires Distinct(Ids(before + turn))
    requires IdSet(Without(before + turn, results)) <= IdSet(turn)
    ensures Without(before, results) == []
  {
    WithoutAppend(before, turn, results);
    WithoutIds(before, results);
    DisjointIds(before, turn);
    assert forall c :: c in Without(before, results) ==> c in Without(before + turn, results);
    assert IdSet(Without(before, results)) <= IdSet(Without(before + turn, results));
    EmptyIds(Without(before, results));
  }

  method LastAssistantIndex(messages: seq<Message>) returns (last: int)
    ensures last == -1 <==> forall j :: 0 <= j < |messages| ==> !messages[j].Assistant?
    ensures last != -1 ==> 0 <= last < |messages| && messages[last].Assistant?
    ensures forall j :: last < j < |messages| ==> 0 <= j && !messages[j].Assistant?
  {
    last := |messages| - 1;
    while last >= 0
      invariant -1 <= last < |messages|
      invariant forall j :: last < j < |messages| ==> !messages[j].Assistant?
    {
      if messages[last].Assistant? { return; }
      last := last - 1;
    }
  }

  lemma WithoutNone(ids: seq<string>)
    ensures Without([], ids) == []
  {
  }

  lemma WithoutOne(call: ToolCall, ids: seq<string>)
    ensures Without([call], ids) == if call.id in ids then [] else [call]
  {
    assert [call][1..] == [];
  }

  method CloseMissing(messages: seq<Message>, tailCalls: seq<ToolCall>, missingIds: set<string>, text: string)
    returns (repaired: seq<Message>)
    requires missingIds == IdSet(Without(tailCalls, ResultIds(messages)))
    ensures repaired == messages + Synthetics(Without(tailCalls, ResultIds(messages)), text)
  {
    hide Without, ResultIds, IdSet;
    repaired := messages;
    WithoutNone(ResultIds(messages));
    for i := 0 to |tailCalls|
      invariant repaired == messages + Synthetics(Without(tailCalls[..i], ResultIds(messages)), text)
    {
      assert tailCalls[..i + 1] == tailCalls[..i] + [tailCalls[i]];
      WithoutAppend(tailCalls[..i], [tailCalls[i]], ResultIds(messages));
      WithoutOne(tailCalls[i], ResultIds(messages));
      MissingMember(tailCalls, i, ResultIds(messages));
      if tailCalls[i].id in missingIds {
        repaired := repaired + [SyntheticResult(tailCalls[i], text, Aborted)];
      }
    }
    assert tailCalls[..|tailCalls|] == tailCalls;
  }

  /** The second half: its refusals are unreachable. */
  method RepairTail(messages: seq<Message>, missingIds: set<string>, text: string) returns (r: RepairOutcome)
    requires OnlyMissing(messages) && missingIds == IdSet(MissingCalls(messages)) != {}
    ensures r == Done(Repaired(messages, text))
  {
    EmptyIds(MissingCalls(messages));
    ghost var k := TailOfRepairable(messages);
    forall j | k < j < |messages|
      ensures messages[j].ToolResult? && messages[j].toolCallId in IdSet(CallsOf(messages[k]))
    {
      assert messages[j] == messages[k + 1..][j - (k + 1)];
    }
    var last := LastAssistantIndex(messages);
    if last == -1 { return Refused(NoAssistant); }
    assert last == k;
    var tailCalls := CallsOf(messages[last]);
    var tailCallIds := IdSet(tailCalls);
    if !(missingIds <= tailCallIds) { return Refused(NotInTail); }
    for i := last + 1 to |messages| {
      if !messages[i].ToolResult? || messages[i].toolCallId !in tailCallIds { return Refused(NotAResult); }
    }
    var repaired := CloseMissing(messages, tailCalls, missingIds, text);
    r := Done(repaired);
  }

  method RepairTranscriptIntegrity(messages: seq<Message>, reason: Option<string>) returns (r: RepairOutcome)
    ensures r.Done? <==> OnlyMissing(messages)
    ensures r.Done? ==> r.messages == Repaired(messages, if reason.Some? then reason.value else DEFAULT_REASON)
    ensures r.Refused? ==> r.error.Ambiguous? && r.error.issue in Issues(messages) && r.error.issue.kind != MissingResult
  {
    var report := InspectTranscriptIntegrity(messages);
    for i := 0 to |report.issues|
      invariant forall k :: 0 <= k < i ==> report.issues[k].kind == MissingResult
    {
      if report.issues[i].kind != MissingResult {
        assert report.issues[i] in Issues(messages);
        return Refused(Ambiguous(report.issues[i]));
      }
    }
    assert OnlyMissing(messages);
    MissingIssueIds(messages);
    var missingIds := set i | i in report.issues :: i.toolCallId;
    if missingIds == {} {
      EmptyIds(MissingCalls(messages));
      assert messages + [] == messages;
      return Done(messages);
    }
    r := RepairTail(messages, missingIds, if reason.Some? then reason.value else DEFAULT_REASON);
  }

  lemma MissingMember(calls: seq<ToolCall>, i: nat, results: seq<string>)
    requires i < |calls|
    ensures calls[i].id in IdSet(Without(calls, results)) <==> calls[i].id !in results
  {
    WithoutIds(calls, results);
    assert calls[i] in calls;
  }

  // ---------------------------------------------------------------- planFailureTermination

  datatype FailurePlan = FailurePlan(messages: seq<Message>, failureMessage: Option<Message>, closureResults: seq<Message>)

  const TERMINATED := "Tool result missing; run terminated by error"

  function FailureMessage(error: string, aborted: bool): Message {
    Assistant([Content("")], if aborted then ProviderAborted else ProviderError, Some(error))
  }

  method PlanFailureTermination(completed: seq<Message>, error: string, aborted: bool) returns (plan: FailurePlan)
    ensures plan.failureMessage.Some? <==> OnlyMissing(completed)
    ensures !OnlyMissing(completed) ==> plan == FailurePlan(completed, None, [])
    ensures OnlyMissing(completed) ==>
              && plan.failureMessage == Some(FailureMessage(error, aborted))
              && plan.closureResults == Synthetics(MissingCalls(completed), TERMINATED)
              && plan.messages == completed + plan.closureResults + [FailureMessage(error, aborted)]
  {
    hide Clean, OnlyMissing, MissingCalls, Issues;
    var messages, closureResults := completed, [];
    var report := InspectTranscriptIntegrity(completed);
    if report.ok {
      CleanHasNoMissing(completed);
    } else {
      var repair := RepairTranscriptIntegrity(completed, Some(TERMINATED));
      if repair.Refused? { return FailurePlan(completed, None, []); }
      var repaired := repair.messages;
      for i := |completed| to |repaired|
        invariant messages == repaired[..i] && closureResults == repaired[|completed|..i]
      {
        closureResults := closureResults + [repaired[i]];
        messages := messages + [repaired[i]];
      }
      assert repaired[..|repaired|] == repaired;
    }
    var failure := FailureMessage(error, aborted);
    plan := FailurePlan(messages + [failure], Some(failure), closureResults);
  }

  lemma PlainAppend(ms: seq<Message>, m: Message)
    requires Clean(ms) && !m.ToolResult? && CallsOf(m) == []
    ensures Clean(ms + [m])
  {
    CleanIffNothingOpen(ms);
    AutomatonAppend(ms, [m], {});
    CallsAppend(ms, [m]);
    assert [m][1..] == [] && AllCalls([m]) == [];
    assert AllCalls(ms) + [] == AllCalls(ms);
    assert IdSet([]) == {};
    CleanIffNothingOpen(ms + [m]);
  }

  /** A failure message is only ever added on top of closed turns. */
  lemma FailurePlanClean(completed: seq<Message>, error: string, aborted: bool)
    requires OnlyMissing(completed)
    ensures Clean(completed + Synthetics(MissingCalls(completed), TERMINATED) + [FailureMessage(error, aborted)])
  {
    RepairedClean(completed, TERMINATED);
    var failure := FailureMessage(error, aborted);
    assert CallsOf(failure) == [] by { assert [Content("")][..0] == []; }
    PlainAppend(Repaired(completed, TERMINATED), failure);
  }
}
