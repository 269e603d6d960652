/** packages/agent/src/tool-transcript-integrity.ts: inspectTranscriptIntegrity accepts exactly the closed transcripts. */
module Transcript {
  import opened Strings
  import opened Envelopes

  datatype ToolCall = ToolCall(id: string, name: string)

  datatype Block = Content(text: string) | CallBlock(call: ToolCall)

  datatype StopReason = Stop | ToolUse | Length | ProviderError | ProviderAborted

  datatype Message =
    | Assistant(content: seq<Block>, stopReason: StopReason, errorMessage: Option<string>)
    | ToolResult(toolCallId: string, toolName: string, text: string, isError: bool, envelope: Option<Envelope>)
    | Other(role: string, text: string)

  datatype IssueKind = MissingResult | DuplicateResult | OrphanResult | DuplicateCallId | InterleavedNonResult

  datatype Issue = Issue(kind: IssueKind, toolCallId: string, toolName: Option<string>)

  datatype Report = Report(ok: bool, issues: seq<Issue>)

  // ---------------------------------------------------------------- what a transcript contains

  function CallsIn(content: seq<Block>): seq<ToolCall> {
    if |content| == 0 then []
    else CallsIn(content[..|content| - 1])
         + (if content[|content| - 1].CallBlock? then [content[|content| - 1].call] else [])
  }

  function CallsOf(m: Message): seq<ToolCall> {
    if m.Assistant? then CallsIn(m.content) else []
  }

  function Ids(calls: seq<ToolCall>): seq<string> {
    seq(|calls|, i requires 0 <= i < |calls| => calls[i].id)
  }

  function IdSet(calls: seq<ToolCall>): set<string> {
    set c | c in calls :: c.id
  }

  function AllCalls(ms: seq<Message>): seq<ToolCall> {
    if |ms| == 0 then [] else CallsOf(ms[0]) + AllCalls(ms[1..])
  }

  function ResultIds(ms: seq<Message>): seq<string> {
    if |ms| == 0 then []
    else (if ms[0].ToolResult? then [ms[0].toolCallId] else []) + ResultIds(ms[1..])
  }

  predicate Distinct(ids: seq<string>) {
    forall i, j :: 0 <= i < j < |ids| ==> ids[i] != ids[j]
  }

  // ---------------------------------------------------------------- the grammar

  predicate ResultsFor(ms: seq<Message>, ids: multiset<string>) {
    && (forall m :: m in ms ==> m.ToolResult?)
    && multiset(ResultIds(ms)) == ids
  }

  /** Messages without calls, and blocks "assistant with calls, then a permutation of exactly their results". */
  predicate Closed(ms: seq<Message>) {
    if |ms| == 0 then true
    else if ms[0].ToolResult? then false
    else
      var n := |CallsOf(ms[0])|;
      n < |ms| && ResultsFor(ms[1..n + 1], multiset(Ids(CallsOf(ms[0])))) && Closed(ms[n + 1..])
  }

  predicate DistinctCalls(ms: seq<Message>) {
    Distinct(Ids(AllCalls(ms)))
  }

  // ---------------------------------------------------------------- the report, as a function

  /** The different ids in order of first occurrence, which is the iteration order of the source's Maps. */
  function FirstOccurrences(ids: seq<string>): seq<string> {
    if |ids| == 0 then []
    else
      var before := FirstOccurrences(ids[..|ids| - 1]);
      if ids[|ids| - 1] in before then before else before + [ids[|ids| - 1]]
  }

  /** The name of the first call with this id. */
  function NameOf(calls: seq<ToolCall>, id: string): Option<string> {
    if |calls| == 0 then None
    else if calls[0].id == id then Some(calls[0].name)
    else NameOf(calls[1..], id)
  }

  /** One issue for each of the `ids` that is `wanted`; the name is looked up in `calls`. */
  function IssuesFor(kind: IssueKind, ids: seq<string>, wanted: set<string>, calls: seq<ToolCall>): seq<Issue> {
    if |ids| == 0 then []
    else
      var id := ids[|ids| - 1];
      IssuesFor(kind, ids[..|ids| - 1], wanted, calls)
      + (if id in wanted then [Issue(kind, id, NameOf(calls, id))] else [])
  }

  function Occurrences(ids: seq<string>, id: string): nat {
    multiset(ids)[id]
  }

  function Repeated(ids: seq<string>): set<string> {
    set id | id in ids && Occurrences(ids, id) > 1
  }

  function Members(ids: seq<string>): set<string> {
    set id | id in ids
  }

  function CountIssues(ms: seq<Message>): seq<Issue> {
    var calls := AllCalls(ms);
    var callIds, resultIds := Ids(calls), ResultIds(ms);
    IssuesFor(DuplicateCallId, FirstOccurrences(callIds), Repeated(callIds), calls)
    + IssuesFor(DuplicateResult, FirstOccurrences(resultIds), Repeated(resultIds), [])
    + IssuesFor(OrphanResult, FirstOccurrences(resultIds), Members(resultIds) - Members(callIds), [])
    + IssuesFor(MissingResult, FirstOccurrences(callIds), Members(callIds) - Members(resultIds), calls)
  }

  predicate Pending(pending: seq<ToolCall>, id: string) {
    exists c :: c in pending && c.id == id
  }

  /** Map.set on the insertion-ordered map of open calls. */
  function Put(pending: seq<ToolCall>, call: ToolCall): seq<ToolCall> {
    if |pending| == 0 then [call]
    else if pending[0].id == call.id then [call] + pending[1..]
    else [pending[0]] + Put(pending[1..], call)
  }

  function PutAll(pending: seq<ToolCall>, calls: seq<ToolCall>): seq<ToolCall> {
    if |calls| == 0 then pending else Put(PutAll(pending, calls[..|calls| - 1]), calls[|calls| - 1])
  }

  function Remove(pending: seq<ToolCall>, id: string): seq<ToolCall> {
    if |pending| == 0 then []
    else if pending[0].id == id then Remove(pending[1..], id)
    else [pending[0]] + Remove(pending[1..], id)
  }

  function Interruptions(pending: seq<ToolCall>): seq<Issue> {
    seq(|pending|, i requires 0 <= i < |pending| =>
      Issue(InterleavedNonResult, pending[i].id, Some(pending[i].name)))
  }

  /** The left-to-right pass, which stops at the first interruption. */
  function ScanIssues(ms: seq<Message>, pending: seq<ToolCall>, callIds: seq<string>): seq<Issue> {
    if |ms| == 0 then []
    else if ms[0].ToolResult? then
      if Pending(pending, ms[0].toolCallId) then ScanIssues(ms[1..], Remove(pending, ms[0].toolCallId), callIds)
      else if ms[0].toolCallId in callIds then [Issue(InterleavedNonResult, ms[0].toolCallId, None)]
      else ScanIssues(ms[1..], pending, callIds)
    else if |pending| > 0 then Interruptions(pending)
    else ScanIssues(ms[1..], PutAll([], CallsOf(ms[0])), callIds)
  }

  function Issues(ms: seq<Message>): seq<Issue> {
    CountIssues(ms) + ScanIssues(ms, [], Ids(AllCalls(ms)))
  }

  predicate Clean(ms: seq<Message>) {
    |Issues(ms)| == 0
  }

  predicate OnlyMissing(ms: seq<Message>) {
    forall i :: i in Issues(ms) ==> i.kind == MissingResult
  }

  // ---------------------------------------------------------------- the scan as an automaton on sets of open ids

  /** The ids still open at the end, or None when something interrupts a region of results. */
  function FinalPending(ms: seq<Message>, pending: set<string>): Option<set<string>> {
    if |ms| == 0 then Some(pending)
    else if ms[0].ToolResult? then
      if ms[0].toolCallId in pending then FinalPending(ms[1..], pending - {ms[0].toolCallId}) else None
    else if pending != {} then None
    else FinalPending(ms[1..], IdSet(CallsOf(ms[0])))
  }

  lemma {:induction false} PutIds(pending: seq<ToolCall>, call: ToolCall)
    ensures IdSet(Put(pending, call)) == IdSet(pending) + {call.id}
  {
    if |pending| > 0 {
      assert pending == [pending[0]] + pending[1..];
      assert IdSet(pending) == {pending[0].id} + IdSet(pending[1..]);
      if pending[0].id == call.id {
        assert IdSet([call] + pending[1..]) == {call.id} + IdSet(pending[1..]);
      } else {
        PutIds(pending[1..], call);
        var rest := Put(pending[1..], call);
        assert IdSet([pending[0]] + rest) == {pending[0].id} + IdSet(rest);
      }
    } else {
      assert call in [call];
    }
  }

  lemma {:induction false} PutAllIds(calls: seq<ToolCall>)
    ensures IdSet(PutAll([], calls)) == IdSet(calls)
  {
    if |calls| > 0 {
      var n := |calls| - 1;
      PutAllIds(calls[..n]);
      PutIds(PutAll([], calls[..n]), calls[n]);
      assert calls == calls[..n] + [calls[n]];
      assert IdSet(calls) == IdSet(calls[..n]) + {calls[n].id};
    }
  }

  lemma {:induction false} RemoveIds(pending: seq<ToolCall>, id: string)
    ensures IdSet(Remove(pending, id)) == IdSet(pending) - {id}
  {
    if |pending| > 0 {
      RemoveIds(pending[1..], id);
      assert pending == [pending[0]] + pending[1..];
      assert IdSet(pending) == {pending[0].id} + IdSet(pending[1..]);
      var rest := Remove(pending[1..], id);
      assert IdSet([pending[0]] + rest) == {pending[0].id} + IdSet(rest);
    }
  }

  lemma EmptyIds(pending: seq<ToolCall>)
    ensures IdSet(pending) == {} <==> pending == []
  {
    if |pending| > 0 {
      assert pending[0] in pending && pending[0].id in IdSet(pending);
    }
  }

  lemma {:induction false} ResultsAppend(a: seq<Message>, b: seq<Message>)
    ensures ResultIds(a + b) == ResultIds(a) + ResultIds(b)
  {
    if |a| == 0 {
      assert a + b == b;
    } else {
      assert (a + b)[1..] == a[1..] + b;
      ResultsAppend(a[1..], b);
    }
  }

  lemma {:induction false} CallsAppend(a: seq<Message>, b: seq<Message>)
    ensures AllCalls(a + b) == AllCalls(a) + AllCalls(b)
  {
    if |a| == 0 {
      assert a + b == b;
    } else {
      assert (a + b)[1..] == a[1..] + b;
      CallsAppend(a[1..], b);
      var first := CallsOf(a[0]);
      assert first + (AllCalls(a[1..]) + AllCalls(b)) == (first + AllCalls(a[1..])) + AllCalls(b);
    }
  }

  /** With every result id known, the pass is silent exactly when the automaton runs to the end. */
  lemma {:induction false} ScanIsAutomaton(ms: seq<Message>, pending: seq<ToolCall>, callIds: seq<string>)
    requires forall id :: id in ResultIds(ms) ==> id in callIds
    ensures ScanIssues(ms, pending, callIds) == [] <==> FinalPending(ms, IdSet(pending)).Some?
  {
    if |ms| > 0 {
      EmptyIds(pending);
      if ms[0].ToolResult? {
        if Pending(pending, ms[0].toolCallId) {
          RemoveIds(pending, ms[0].toolCallId);
          ScanIsAutomaton(ms[1..], Remove(pending, ms[0].toolCallId), callIds);
        }
      } else if |pending| == 0 {
        PutAllIds(CallsOf(ms[0]));
        ScanIsAutomaton(ms[1..], PutAll([], CallsOf(ms[0])), callIds);
      }
    }
  }

  // ---------------------------------------------------------------- conservation of ids

  lemma DistinctIsSet(calls: seq<ToolCall>)
    requires Distinct(Ids(calls))
    ensures multiset(Ids(calls)) == multiset(IdSet(calls)) && |IdSet(calls)| == |calls|
    decreases |calls|
  {
    if |calls| > 0 {
      var n := |calls| - 1;
      assert Ids(calls[..n]) == Ids(calls)[..n] && Ids(calls) == Ids(calls)[..n] + [calls[n].id];
      DistinctIsSet(calls[..n]);
      assert calls == calls[..n] + [calls[n]];
      assert calls[n].id !in IdSet(calls[..n]) by {
        forall c | c in calls[..n]
          ensures c.id != calls[n].id
        {
          var i :| 0 <= i < n && calls[i] == c;
          assert Ids(calls)[i] != Ids(calls)[n];
        }
      }
      assert IdSet(calls) == IdSet(calls[..n]) + {calls[n].id};
    }
  }

  /** The first of distinct calls, and the others. */
  lemma FirstId(calls: seq<ToolCall>)
    requires |calls| > 0 && Distinct(Ids(calls))
    ensures Distinct(Ids(calls[1..])) && Ids(calls) == [calls[0].id] + Ids(calls[1..])
    ensures calls[0].id in IdSet(calls) && IdSet(calls) - {calls[0].id} == IdSet(calls[1..])
  {
    var rest := calls[1..];
    assert calls == [calls[0]] + rest && calls[0] in calls;
    DistinctParts([calls[0]], rest);
    forall c | c in rest ensures c.id != calls[0].id && c in calls {
      var i :| 0 <= i < |rest| && rest[i] == c;
      assert Ids(calls)[i + 1] == c.id && Ids(calls)[0] == calls[0].id;
    }
  }

  lemma DistinctParts(a: seq<ToolCall>, b: seq<ToolCall>)
    requires Distinct(Ids(a + b))
    ensures Distinct(Ids(a)) && Distinct(Ids(b))
  {
    assert Ids(a + b) == Ids(a) + Ids(b);
    assert forall i :: 0 <= i < |a| ==> Ids(a)[i] == Ids(a + b)[i];
    assert forall i :: 0 <= i < |b| ==> Ids(b)[i] == Ids(a + b)[|a| + i];
  }

  lemma OneMore(results: multiset<string>, open: multiset<string>, pending: multiset<string>, ids: multiset<string>, id: string)
    requires results + open == pending + ids
    ensures multiset{id} + results + open == pending + multiset{id} + ids
  {
    assert multiset{id} + results + open == multiset{id} + (results + open);
    assert pending + multiset{id} + ids == multiset{id} + (pending + ids);
  }

  /** Opened ids are closed by a result or still open. */
  lemma {:induction false} IdsConserved(ms: seq<Message>, pending: set<string>)
    requires DistinctCalls(ms) && FinalPending(ms, pending).Some?
    ensures multiset(ResultIds(ms)) + multiset(FinalPending(ms, pending).value) ==
            multiset(pending) + multiset(Ids(AllCalls(ms)))
  {
    if |ms| > 0 {
      var calls, rest := CallsOf(ms[0]), AllCalls(ms[1..]);
      DistinctParts(calls, rest);
      assert multiset(Ids(calls + rest)) == multiset(Ids(calls)) + multiset(Ids(rest)) by {
        assert Ids(calls + rest) == Ids(calls) + Ids(rest);
      }
      if ms[0].ToolResult? {
        var id := ms[0].toolCallId;
        IdsConserved(ms[1..], pending - {id});
        assert pending == (pending - {id}) + {id};
        assert multiset(pending) == multiset(pending - {id}) + multiset{id};
        assert [id] + ResultIds(ms[1..]) == ResultIds(ms) && calls + rest == rest;
        OneMore(multiset(ResultIds(ms[1..])), multiset(FinalPending(ms, pending).value),
                multiset(pending - {id}), multiset(Ids(rest)), id);
      } else {
        DistinctIsSet(calls);
        IdsConserved(ms[1..], IdSet(calls));
        assert ResultIds(ms) == ResultIds(ms[1..]);
      }
    }
  }

  // ---------------------------------------------------------------- what the counting pass reports

  lemma {:induction false} FirstOccurrencesSame(ids: seq<string>)
    ensures forall id :: id in FirstOccurrences(ids) <==> id in ids
    ensures Distinct(FirstOccurrences(ids))
  {
    if |ids| > 0 {
      var n := |ids| - 1;
      FirstOccurrencesSame(ids[..n]);
      assert ids == ids[..n] + [ids[n]];
    }
  }

  predicate Names(issues: seq<Issue>, id: string) {
    exists i :: i in issues && i.toolCallId == id
  }

  lemma {:induction false} IssuesForMembers(kind: IssueKind, ids: seq<string>, wanted: set<string>, calls: seq<ToolCall>)
    ensures forall i :: i in IssuesFor(kind, ids, wanted, calls) ==> i.kind == kind && i.toolCallId in wanted
    ensures forall id :: id in ids && id in wanted ==> Names(IssuesFor(kind, ids, wanted, calls), id)
  {
    if |ids| > 0 {
      var n := |ids| - 1;
      var before := IssuesFor(kind, ids[..n], wanted, calls);
      IssuesForMembers(kind, ids[..n], wanted, calls);
      forall id | id in ids && id in wanted
        ensures Names(IssuesFor(kind, ids, wanted, calls), id)
      {
        if id == ids[n] {
          assert Issue(kind, id, NameOf(calls, id)) in IssuesFor(kind, ids, wanted, calls);
        } else {
          assert id in ids[..n];
          var i :| i in before && i.toolCallId == id;
          assert i in IssuesFor(kind, ids, wanted, calls);
        }
      }
    }
  }

  lemma {:induction false} DistinctIffOnce(ids: seq<string>)
    ensures Distinct(ids) <==> forall id :: Occurrences(ids, id) <= 1
  {
    if |ids| > 0 {
      var n := |ids| - 1;
      DistinctIffOnce(ids[..n]);
      assert ids == ids[..n] + [ids[n]];
      assert forall id :: Occurrences(ids, id) == Occurrences(ids[..n], id) + if id == ids[n] then 1 else 0;
      if Distinct(ids) {
        assert ids[n] !in ids[..n];
      }
      if forall id :: Occurrences(ids, id) <= 1 {
        assert Occurrences(ids[..n], ids[n]) == 0;
        assert forall id :: Occurrences(ids[..n], id) <= Occurrences(ids, id);
        assert forall i :: 0 <= i < n ==> ids[i] in ids[..n];
      }
    }
  }

  /** Four lists of issues, one for each kind that the counting pass reports. */
  lemma FourKinds(a: seq<Issue>, b: seq<Issue>, c: seq<Issue>, d: seq<Issue>)
    requires forall i :: i in a || i in b || i in c ==> i.kind != MissingResult
    requires forall i :: i in d ==> i.kind == MissingResult
    ensures (forall i :: i in a + b + c + d ==> i.kind == MissingResult) <==> a == [] && b == [] && c == []
    ensures a + b + c + d == [] <==> a == [] && b == [] && c == [] && d == []
  {
    if |a| > 0 { assert a[0] in a + b + c + d; }
    if |b| > 0 { assert b[0] in a + b + c + d; }
    if |c| > 0 { assert c[0] in a + b + c + d; }
  }

  /** The counting pass is silent exactly when calls and results are the same ids, each once. */
  lemma CountIssuesSilent(ms: seq<Message>)
    ensures var callIds, resultIds := Ids(AllCalls(ms)), ResultIds(ms);
            && ((forall i :: i in CountIssues(ms) ==> i.kind == MissingResult) <==>
                Distinct(callIds) && Distinct(resultIds) && Members(resultIds) <= Members(callIds))
            && (CountIssues(ms) == [] <==>
                Distinct(callIds) && Distinct(resultIds) && Members(resultIds) == Members(callIds))
  {
    var calls := AllCalls(ms);
    var callIds, resultIds := Ids(calls), ResultIds(ms);
    Silent(DuplicateCallId, callIds, Repeated(callIds), calls);
    Silent(DuplicateResult, resultIds, Repeated(resultIds), []);
    Silent(OrphanResult, resultIds, Members(resultIds) - Members(callIds), []);
    Silent(MissingResult, callIds, Members(callIds) - Members(resultIds), calls);
    FourKinds(IssuesFor(DuplicateCallId, FirstOccurrences(callIds), Repeated(callIds), calls),
              IssuesFor(DuplicateResult, FirstOccurrences(resultIds), Repeated(resultIds), []),
              IssuesFor(OrphanResult, FirstOccurrences(resultIds), Members(resultIds) - Members(callIds), []),
              IssuesFor(MissingResult, FirstOccurrences(callIds), Members(callIds) - Members(resultIds), calls));
    NoneRepeated(callIds);
    NoneRepeated(resultIds);
    Differences(Members(resultIds), Members(callIds));
  }

  lemma Differences(a: set<string>, b: set<string>)
    ensures a - b == {} <==> a <= b
    ensures a - b == {} && b - a == {} <==> a == b
  {
    if a - b == {} {
      assert forall x :: x in a ==> x in a - b || x in b;
    }
    if b - a == {} {
      assert forall x :: x in b ==> x in b - a || x in a;
    }
  }

  lemma NoneRepeated(ids: seq<string>)
    ensures Repeated(ids) == {} <==> Distinct(ids)
  {
    DistinctIffOnce(ids);
    if Repeated(ids) == {} {
      forall id
        ensures Occurrences(ids, id) <= 1
      {
        assert id !in Repeated(ids);
      }
    }
  }

  lemma Silent(kind: IssueKind, ids: seq<string>, wanted: set<string>, calls: seq<ToolCall>)
    requires forall id :: id in wanted ==> id in ids
    ensures var issues := IssuesFor(kind, FirstOccurrences(ids), wanted, calls);
            && (issues == [] <==> wanted == {})
            && forall i :: i in issues ==> i.kind == kind
    ensures forall id :: id in wanted ==> exists i :: i in IssuesFor(kind, FirstOccurrences(ids), wanted, calls) && i.toolCallId == id
  {
    var issues := IssuesFor(kind, FirstOccurrences(ids), wanted, calls);
    FirstOccurrencesSame(ids);
    IssuesForMembers(kind, FirstOccurrences(ids), wanted, calls);
    if wanted != {} {
      var id :| id in wanted;
      assert Names(issues, id);
    }
    if |issues| > 0 {
      assert issues[0] in issues;
    }
  }

  // ---------------------------------------------------------------- acceptance

  /** The ids still without a result when nothing else is wrong. */
  predicate Repairable(ms: seq<Message>) {
    DistinctCalls(ms) && FinalPending(ms, {}).Some?
  }

  lemma ScanKinds(ms: seq<Message>, pending: seq<ToolCall>, callIds: seq<string>)
    ensures forall i :: i in ScanIssues(ms, pending, callIds) ==> i.kind == InterleavedNonResult
  {
  }

  lemma MembersOfSum(results: seq<string>, open: set<string>, ids: seq<string>)
    requires multiset(results) + multiset(open) == multiset(ids) && Distinct(ids)
    ensures Distinct(results) && Members(results) <= Members(ids) && open == Members(ids) - Members(results)
  {
    DistinctIffOnce(ids);
    DistinctIffOnce(results);
    forall id
      ensures Occurrences(results, id) + (if id in open then 1 else 0) == Occurrences(ids, id)
    {
      assert (multiset(results) + multiset(open))[id] == multiset(ids)[id];
    }
    forall id
      ensures (id in results <==> Occurrences(results, id) > 0) && (id in ids <==> Occurrences(ids, id) > 0)
    {
    }
  }

  lemma ScanSilent(ms: seq<Message>)
    requires Members(ResultIds(ms)) <= Members(Ids(AllCalls(ms)))
    ensures ScanIssues(ms, [], Ids(AllCalls(ms))) == [] <==> FinalPending(ms, {}).Some?
  {
    assert IdSet([]) == {};
    forall id | id in ResultIds(ms)
      ensures id in Ids(AllCalls(ms))
    {
      assert id in Members(ResultIds(ms));
    }
    ScanIsAutomaton(ms, [], Ids(AllCalls(ms)));
  }

  lemma RepairableCounts(ms: seq<Message>)
    requires Repairable(ms)
    ensures var callIds, resultIds := Ids(AllCalls(ms)), ResultIds(ms);
            && Distinct(resultIds) && Members(resultIds) <= Members(callIds)
            && FinalPending(ms, {}).value == Members(callIds) - Members(resultIds)
            && multiset(resultIds) + multiset(FinalPending(ms, {}).value) == multiset(callIds)
  {
    IdsConserved(ms, {});
    MembersOfSum(ResultIds(ms), FinalPending(ms, {}).value, Ids(AllCalls(ms)));
  }

  lemma NothingOpen(ms: seq<Message>)
    requires Repairable(ms)
    ensures Distinct(ResultIds(ms)) && Members(ResultIds(ms)) <= Members(Ids(AllCalls(ms)))
    ensures FinalPending(ms, {}) == Some({}) <==> Members(ResultIds(ms)) == Members(Ids(AllCalls(ms)))
  {
    RepairableCounts(ms);
    hide FinalPending, Members, Ids, AllCalls, ResultIds, Distinct;
    NothingLeft(Members(Ids(AllCalls(ms))), Members(ResultIds(ms)));
  }

  lemma NothingLeft(whole: set<string>, part: set<string>)
    requires part <= whole
    ensures whole - part == {} <==> part == whole
  {
    if whole - part == {} {
      forall x | x in whole ensures x in part {
        assert x !in whole - part;
      }
    }
  }

  /** A transcript without any issue but missing results is one whose calls are distinct and whose automaton
      runs to the end. */
  lemma OnlyMissingIffRepairable(ms: seq<Message>)
    ensures OnlyMissing(ms) <==> Repairable(ms)
  {
    CountIssuesSilent(ms);
    ScanKinds(ms, [], Ids(AllCalls(ms)));
    AllOfKind(CountIssues(ms), ScanIssues(ms, [], Ids(AllCalls(ms))));
    if OnlyMissing(ms) {
      ScanSilent(ms);
    }
    if Repairable(ms) {
      RepairableCounts(ms);
      ScanSilent(ms);
    }
  }

  lemma CleanCounts(ms: seq<Message>)
    ensures Clean(ms) <==> DistinctCalls(ms) && Distinct(ResultIds(ms))
                           && Members(ResultIds(ms)) == Members(Ids(AllCalls(ms)))
                           && ScanIssues(ms, [], Ids(AllCalls(ms))) == []
  {
    CountIssuesSilent(ms);
  }

  lemma CleanIffNothingOpen(ms: seq<Message>)
    ensures Clean(ms) <==> DistinctCalls(ms) && FinalPending(ms, {}) == Some({})
  {
    CleanCounts(ms);
    if Members(ResultIds(ms)) <= Members(Ids(AllCalls(ms))) {
      ScanSilent(ms);
    }
    if Repairable(ms) {
      NothingOpen(ms);
    }
  }

  lemma AllOfKind(counted: seq<Issue>, scanned: seq<Issue>)
    requires forall i :: i in scanned ==> i.kind == InterleavedNonResult
    ensures (forall i :: i in counted + scanned ==> i.kind == MissingResult) <==>
            (forall i :: i in counted ==> i.kind == MissingResult) && scanned == []
  {
    if |scanned| > 0 {
      assert scanned[0] in scanned && scanned[0] in counted + scanned;
    }
  }

  /** What it takes to end with nothing open. */
  predicate ClosesFrom(ms: seq<Message>, pending: set<string>) {
    |pending| <= |ms| && ResultsFor(ms[..|pending|], multiset(pending)) && Closed(ms[|pending|..])
  }

  lemma {:induction false} ClosedIsAutomaton(ms: seq<Message>, pending: set<string>)
    requires DistinctCalls(ms)
    ensures FinalPending(ms, pending) == Some({}) <==> ClosesFrom(ms, pending)
  {
    if |ms| == 0 {
      assert |pending| == 0 ==> pending == {};
      assert ms[..0] == ms && ms[0..] == ms;
    } else {
      DistinctParts(CallsOf(ms[0]), AllCalls(ms[1..]));
      if ms[0].ToolResult? {
        if ms[0].toolCallId in pending {
          ClosedIsAutomaton(ms[1..], pending - {ms[0].toolCallId});
          ExpectedResult(ms, pending);
        } else {
          UnexpectedResult(ms, pending);
        }
      } else {
        ClosedIsAutomaton(ms[1..], IdSet(CallsOf(ms[0])));
        TurnOpens(ms, pending);
      }
    }
  }

  lemma ClosedTurn(ms: seq<Message>)
    requires |ms| > 0 && !ms[0].ToolResult? && Distinct(Ids(CallsOf(ms[0])))
    ensures Closed(ms) <==> ClosesFrom(ms[1..], IdSet(CallsOf(ms[0])))
  {
    DistinctIsSet(CallsOf(ms[0]));
    var n := |CallsOf(ms[0])|;
    if n < |ms| {
      assert ms[1..n + 1] == ms[1..][..n] && ms[n + 1..] == ms[1..][n..];
    }
  }

  lemma EmptyRegion(ms: seq<Message>)
    ensures ClosesFrom(ms, {}) <==> Closed(ms)
  {
    assert ms[0..] == ms && ms[..0] == [];
  }

  /** A message that is not a result needs an empty region before it and opens its own. */
  lemma TurnOpens(ms: seq<Message>, pending: set<string>)
    requires |ms| > 0 && !ms[0].ToolResult? && Distinct(Ids(CallsOf(ms[0])))
    ensures ClosesFrom(ms, pending) <==> pending == {} && ClosesFrom(ms[1..], IdSet(CallsOf(ms[0])))
  {
    if pending == {} {
      EmptyRegion(ms);
      ClosedTurn(ms);
    } else {
      assert |pending| > 0;
      assert |pending| <= |ms| ==> ms[0] in ms[..|pending|];
    }
  }

  lemma ResultsCons(result: Message, rest: seq<Message>, pending: set<string>)
    requires result.ToolResult? && result.toolCallId in pending
    ensures ResultsFor([result] + rest, multiset(pending)) <==>
            ResultsFor(rest, multiset(pending - {result.toolCallId}))
  {
    var id, all := result.toolCallId, [result] + rest;
    assert all[1..] == rest;
    assert multiset(ResultIds(all)) == multiset{id} + multiset(ResultIds(rest));
    assert (forall m :: m in all ==> m.ToolResult?) <==> (forall m :: m in rest ==> m.ToolResult?);
    assert multiset(pending) == multiset(pending - {id}) + multiset{id} by {
      assert pending == (pending - {id}) + {id};
    }
    Cancel(multiset(ResultIds(rest)), multiset(pending - {id}), id);
  }

  lemma StrayResult(result: Message, rest: seq<Message>, pending: set<string>)
    requires result.ToolResult? && result.toolCallId !in pending
    ensures !ResultsFor([result] + rest, multiset(pending))
  {
    assert ([result] + rest)[1..] == rest;
    assert result.toolCallId in multiset(ResultIds([result] + rest));
  }

  lemma ExpectedResult(ms: seq<Message>, pending: set<string>)
    requires |ms| > 0 && ms[0].ToolResult? && ms[0].toolCallId in pending
    ensures ClosesFrom(ms, pending) <==> ClosesFrom(ms[1..], pending - {ms[0].toolCallId})
  {
    var n, left := |pending|, pending - {ms[0].toolCallId};
    assert |left| == n - 1;
    if n <= |ms| {
      assert ms[..n] == [ms[0]] + ms[1..n] && ms[1..][..n - 1] == ms[1..n] && ms[1..][n - 1..] == ms[n..];
      ResultsCons(ms[0], ms[1..n], pending);
    }
  }

  lemma UnexpectedResult(ms: seq<Message>, pending: set<string>)
    requires |ms| > 0 && ms[0].ToolResult? && ms[0].toolCallId !in pending
    ensures !ClosesFrom(ms, pending)
  {
    var n := |pending|;
    if n == 0 {
      assert pending == {};
      EmptyRegion(ms);
    } else if n <= |ms| {
      assert ms[..n] == [ms[0]] + ms[1..n];
      StrayResult(ms[0], ms[1..n], pending);
    }
  }

  lemma Cancel(a: multiset<string>, b: multiset<string>, id: string)
    ensures multiset{id} + a == b + multiset{id} <==> a == b
  {
    if multiset{id} + a == b + multiset{id} {
      forall x
        ensures a[x] == b[x]
      {
        assert (multiset{id} + a)[x] == (b + multiset{id})[x];
      }
    }
  }

  /** The inspector accepts exactly the transcripts in which every assistant message with calls is followed at once
      by a permutation of exactly its results, and no call id is used twice. */
  lemma CleanIffClosed(ms: seq<Message>)
    ensures Clean(ms) <==> Closed(ms) && DistinctCalls(ms)
  {
    CleanIffNothingOpen(ms);
    if DistinctCalls(ms) {
      ClosedIsAutomaton(ms, {});
      assert ms[..0] == [] && ms[0..] == ms;
    }
  }

  // ---------------------------------------------------------------- the inspector

  /** An insertion-ordered Map from ids to counts. */
  predicate Tallies(count: map<string, nat>, order: seq<string>, ids: seq<string>) {
    && order == FirstOccurrences(ids)
    && count.Keys == Members(ids)
    && forall id :: id in count ==> count[id] == Occurrences(ids, id)
  }

  lemma TalliesMore(count: map<string, nat>, order: seq<string>, ids: seq<string>, id: string)
    requires Tallies(count, order, ids)
    ensures if id in count then Tallies(count[id := count[id] + 1], order, ids + [id])
            else Tallies(count[id := 1], order + [id], ids + [id])
  {
    var all := ids + [id];
    FirstOccurrencesSame(ids);
    MembersMore(ids, id);
    FirstOccurrencesMore(ids, id);
    var count' := count[id := if id in count then count[id] + 1 else 1];
    forall x | x in count' ensures count'[x] == Occurrences(all, x) {
      OccurrencesMore(ids, id, x);
    }
  }

  lemma MembersMore(ids: seq<string>, id: string)
    ensures Members(ids + [id]) == Members(ids) + {id}
  {
  }

  lemma OccurrencesMore(ids: seq<string>, id: string, x: string)
    ensures Occurrences(ids + [id], x) == Occurrences(ids, x) + if x == id then 1 else 0
    ensures x !in Members(ids) ==> Occurrences(ids, x) == 0
  {
  }

  lemma FirstOccurrencesMore(ids: seq<string>, id: string)
    ensures FirstOccurrences(ids + [id]) == FirstOccurrences(ids) + if id in Members(ids) then [] else [id]
  {
    assert (ids + [id])[..|ids|] == ids;
    FirstOccurrencesSame(ids);
  }

  method Tally(count: map<string, nat>, order: seq<string>, id: string, ghost ids: seq<string>)
    returns (count': map<string, nat>, order': seq<string>)
    requires Tallies(count, order, ids)
    ensures Tallies(count', order', ids + [id])
  {
    hide Tallies;
    TalliesMore(count, order, ids, id);
    if id in count {
      count', order' := count[id := count[id] + 1], order;
    } else {
      count', order' := count[id := 1], order + [id];
    }
  }

  predicate NamesCalls(names: map<string, string>, calls: seq<ToolCall>) {
    && names.Keys == Members(Ids(calls))
    && forall id :: id in names ==> NameOf(calls, id) == Some(names[id])
  }

  lemma {:induction false} NameOfAppend(calls: seq<ToolCall>, call: ToolCall, id: string)
    ensures NameOf(calls + [call], id) ==
            if NameOf(calls, id).Some? then NameOf(calls, id) else if call.id == id then Some(call.name) else None
    ensures NameOf(calls, id).Some? <==> id in Ids(calls)
  {
    if |calls| == 0 {
      assert calls + [call] == [call] && [call][1..] == [];
    } else {
      assert (calls + [call])[1..] == calls[1..] + [call];
      NameOfAppend(calls[1..], call, id);
      assert Ids(calls) == [calls[0].id] + Ids(calls[1..]);
    }
  }

  method NameCall(names: map<string, string>, call: ToolCall, ghost calls: seq<ToolCall>)
    returns (names': map<string, string>)
    requires NamesCalls(names, calls)
    ensures NamesCalls(names', calls + [call])
  {
    forall id
      ensures NameOf(calls + [call], id) ==
              if NameOf(calls, id).Some? then NameOf(calls, id) else if call.id == id then Some(call.name) else None
      ensures NameOf(calls, id).Some? <==> id in Ids(calls)
    {
      NameOfAppend(calls, call, id);
    }
    assert Ids(calls + [call]) == Ids(calls) + [call.id];
    assert Members(Ids(calls + [call])) == Members(Ids(calls)) + {call.id};
    names' := if call.id in names then names else names[call.id := call.name];
  }

  lemma ContentsStep(ms: seq<Message>, i: nat)
    requires i < |ms|
    ensures AllCalls(ms[..i + 1]) == AllCalls(ms[..i]) + CallsOf(ms[i])
    ensures ResultIds(ms[..i + 1]) == ResultIds(ms[..i]) + if ms[i].ToolResult? then [ms[i].toolCallId] else []
  {
    assert ms[..i + 1] == ms[..i] + [ms[i]] && [ms[i]][1..] == [];
    CallsAppend(ms[..i], [ms[i]]);
    ResultsAppend(ms[..i], [ms[i]]);
  }

  method CountCalls(content: seq<Block>, count: map<string, nat>, order: seq<string>, names: map<string, string>,
                    ghost calls: seq<ToolCall>)
    returns (count': map<string, nat>, order': seq<string>, names': map<string, string>)
    requires Tallies(count, order, Ids(calls)) && NamesCalls(names, calls)
    ensures Tallies(count', order', Ids(calls + CallsIn(content))) && NamesCalls(names', calls + CallsIn(content))
  {
    count', order', names' := count, order, names;
    assert calls + CallsIn(content[..0]) == calls;
    for k := 0 to |content|
      invariant Tallies(count', order', Ids(calls + CallsIn(content[..k])))
      invariant NamesCalls(names', calls + CallsIn(content[..k]))
    {
      assert content[..k + 1][..k] == content[..k];
      ghost var before := calls + CallsIn(content[..k]);
      if content[k].CallBlock? {
        var call := content[k].call;
        assert Ids(before + [call]) == Ids(before) + [call.id];
        assert calls + CallsIn(content[..k + 1]) == before + [call];
        count', order' := Tally(count', order', call.id, Ids(before));
        names' := NameCall(names', call, before);
      } else {
        assert calls + CallsIn(content[..k + 1]) == before;
      }
    }
    assert content[..|content|] == content;
  }

  method CountIds(messages: seq<Message>)
    returns (callIdCount: map<string, nat>, callOrder: seq<string>, callToolName: map<string, string>,
             resultIdCount: map<string, nat>, resultOrder: seq<string>)
    ensures Tallies(callIdCount, callOrder, Ids(AllCalls(messages)))
    ensures NamesCalls(callToolName, AllCalls(messages))
    ensures Tallies(resultIdCount, resultOrder, ResultIds(messages))
  {
    callIdCount, callOrder, callToolName, resultIdCount, resultOrder := map[], [], map[], map[], [];
    for i := 0 to |messages|
      invariant Tallies(callIdCount, callOrder, Ids(AllCalls(messages[..i])))
      invariant NamesCalls(callToolName, AllCalls(messages[..i]))
      invariant Tallies(resultIdCount, resultOrder, ResultIds(messages[..i]))
    {
      ghost var calls, results := AllCalls(messages[..i]), ResultIds(messages[..i]);
      ContentsStep(messages, i);
      assert calls + [] == calls && results + [] == results;
      if messages[i].Assistant? {
        callIdCount, callOrder, callToolName :=
          CountCalls(messages[i].content, callIdCount, callOrder, callToolName, calls);
      } else if messages[i].ToolResult? {
        resultIdCount, resultOrder := Tally(resultIdCount, resultOrder, messages[i].toolCallId, results);
      }
    }
    assert messages[..|messages|] == messages;
  }

  method ReportIds(kind: IssueKind, order: seq<string>, wanted: set<string>, ghost calls: seq<ToolCall>,
                   names: map<string, string>, issues: seq<Issue>) returns (issues': seq<Issue>)
    requires NamesCalls(names, calls)
    ensures issues' == issues + IssuesFor(kind, order, wanted, calls)
  {
    issues' := issues;
    for k := 0 to |order|
      invariant issues' == issues + IssuesFor(kind, order[..k], wanted, calls)
    {
      assert order[..k + 1][..k] == order[..k];
      if order[k] in wanted {
        NameOfAppend(calls, ToolCall("", ""), order[k]);
        var name := if order[k] in names then Some(names[order[k]]) else None;
        issues' := issues' + [Issue(kind, order[k], name)];
      }
    }
    assert order[..|order|] == order;
  }

  method CheckOrder(messages: seq<Message>, callIds: set<string>, ghost ids: seq<string>, counted: seq<Issue>)
    returns (issues: seq<Issue>)
    requires callIds == Members(ids)
    ensures issues == counted + ScanIssues(messages, [], ids)
  {
    issues := counted;
    var pending: seq<ToolCall> := [];
    var resultsRegion := false;
    for i := 0 to |messages|
      invariant issues == counted
      invariant resultsRegion <==> |pending| > 0
      invariant ScanIssues(messages, [], ids) == ScanIssues(messages[i..], pending, ids)
    {
      var message := messages[i];
      assert messages[i..][1..] == messages[i + 1..];
      if message.Assistant? {
        var calls := CallsIn(message.content);
        if |calls| > 0 {
          if |pending| > 0 { return issues + Interruptions(pending); }
          for k := 0 to |calls|
            invariant pending == PutAll([], calls[..k])
          {
            assert calls[..k + 1][..k] == calls[..k];
            pending := Put(pending, calls[k]);
          }
          assert calls[..|calls|] == calls;
          resultsRegion := true;
        } else if resultsRegion && |pending| > 0 {
          return issues + Interruptions(pending);
        }
      } else if message.ToolResult? {
        if resultsRegion && Pending(pending, message.toolCallId) {
          pending := Remove(pending, message.toolCallId);
          if |pending| == 0 { resultsRegion := false; }
        } else if message.toolCallId in callIds {
          return issues + [Issue(InterleavedNonResult, message.toolCallId, None)];
        }
      } else if resultsRegion && |pending| > 0 {
        return issues + Interruptions(pending);
      }
    }
  }

  method CheckCounts(messages: seq<Message>) returns (issues: seq<Issue>, callIds: set<string>)
    ensures issues == CountIssues(messages)
    ensures callIds == Members(Ids(AllCalls(messages)))
  {
    var callIdCount, callOrder, callToolName, resultIdCount, resultOrder := CountIds(messages);
    ghost var calls := AllCalls(messages);
    ghost var ids, results := Ids(calls), ResultIds(messages);
    var repeatedCalls := set id | id in callIdCount && callIdCount[id] > 1;
    var repeatedResults := set id | id in resultIdCount && resultIdCount[id] > 1;
    assert repeatedCalls == Repeated(ids) && repeatedResults == Repeated(results);
    callIds := callIdCount.Keys;
    var orphans, missing := resultIdCount.Keys - callIds, callIds - resultIdCount.Keys;
    assert orphans == Members(results) - Members(ids) && missing == Members(ids) - Members(results);
    var a := ReportIds(DuplicateCallId, callOrder, repeatedCalls, calls, callToolName, []);
    var b := ReportIds(DuplicateResult, resultOrder, repeatedResults, [], map[], a);
    var c := ReportIds(OrphanResult, resultOrder, orphans, [], map[], b);
    issues := ReportIds(MissingResult, callOrder, missing, calls, callToolName, c);
    assert [] + IssuesFor(DuplicateCallId, callOrder, repeatedCalls, calls)
           == IssuesFor(DuplicateCallId, callOrder, repeatedCalls, calls);
  }

  method InspectTranscriptIntegrity(messages: seq<Message>) returns (report: Report)
    ensures report == Report(Clean(messages), Issues(messages))
  {
    var counted, callIds := CheckCounts(messages);
    var issues := CheckOrder(messages, callIds, Ids(AllCalls(messages)), counted);
    report := Report(|issues| == 0, issues);
  }
}
