/** One turn on top of a clean transcript: the assistant's calls and their results in source order. */
module Turns {
  import opened Strings
  import opened Transcript
  import opened Repair
  import opened Sequences

  predicate AnswersCall(result: Message, call: ToolCall) {
    result.ToolResult? && result.toolCallId == call.id && result.toolName == call.name
  }

  /** Exactly one result for each call, in source order. */
  predicate Answers(results: seq<Message>, calls: seq<ToolCall>) {
    |results| == |calls| && forall i :: 0 <= i < |calls| ==> AnswersCall(results[i], calls[i])
  }

  predicate Plain(m: Message) {
    !m.ToolResult? && CallsOf(m) == []
  }

  predicate AllPlain(ms: seq<Message>) {
    forall k :: 0 <= k < |ms| ==> Plain(ms[k])
  }

  lemma PlainParts(front: seq<Message>, rest: seq<Message>)
    ensures AllPlain(front + rest) ==> AllPlain(front) && AllPlain(rest)
  {
    if AllPlain(front + rest) {
      forall k | 0 <= k < |front| ensures Plain(front[k]) {
        assert (front + rest)[k] == front[k];
      }
      forall k | 0 <= k < |rest| ensures Plain(rest[k]) {
        assert (front + rest)[|front| + k] == rest[k];
      }
    }
  }

  lemma AnswersAppend(a: seq<Message>, b: seq<Message>, calls: seq<ToolCall>, k: nat)
    requires k <= |calls| && Answers(a, calls[..k]) && Answers(b, calls[k..])
    ensures Answers(a + b, calls)
  {
    forall i | 0 <= i < |calls|
      ensures AnswersCall((a + b)[i], calls[i])
    {
      if i >= k { assert AnswersCall(b[i - k], calls[k..][i - k]); }
    }
  }

  lemma {:induction false} AnswersEveryId(results: seq<Message>, calls: seq<ToolCall>)
    requires Answers(results, calls) && Distinct(Ids(calls))
    ensures FinalPending(results, IdSet(calls)) == Some({})
    ensures AllCalls(results) == [] && ResultIds(results) == Ids(calls)
  {
    if |calls| > 0 {
      var rest := calls[1..];
      FirstId(calls);
      hide IdSet, Ids, Distinct;
      forall i | 0 <= i < |rest| ensures AnswersCall(results[1..][i], rest[i]) {
        assert AnswersCall(results[i + 1], calls[i + 1]);
      }
      AnswersEveryId(results[1..], rest);
      assert AnswersCall(results[0], calls[0]);
    } else {
      assert IdSet(calls) == {};
    }
  }

  /** After clean messages, what an assistant's reply can break is only the distinctness of call ids. */
  lemma ReplyAmbiguity(base: seq<Message>, reply: Message)
    requires Clean(base) && reply.Assistant?
    ensures OnlyMissing(base + [reply]) <==> DistinctCalls(base + [reply])
    ensures FinalPending(base + [reply], {}) == Some(IdSet(CallsOf(reply)))
  {
    CleanIffNothingOpen(base);
    AutomatonAppend(base, [reply], {});
    assert [reply][1..] == [];
    OnlyMissingIffRepairable(base + [reply]);
  }

  /** A reply with distinct call ids, answered call by call, leaves the transcript clean. */
  lemma TurnCloses(base: seq<Message>, reply: Message, results: seq<Message>)
    requires Clean(base) && reply.Assistant? && DistinctCalls(base + [reply])
    requires Answers(results, CallsOf(reply))
    ensures Clean(base + [reply] + results)
  {
    ReplyAmbiguity(base, reply);
    CallsAppend(base, [reply]);
    assert AllCalls([reply]) == CallsOf(reply) by {
      assert [reply][1..] == [];
      assert CallsOf(reply) + [] == CallsOf(reply);
    }
    DistinctParts(AllCalls(base), CallsOf(reply));
    AnswersEveryId(results, CallsOf(reply));
    AutomatonAppend(base + [reply], results, {});
    CallsAppend(base + [reply], results);
    assert AllCalls(base + [reply]) + [] == AllCalls(base + [reply]);
    CleanIffNothingOpen(base + [reply] + results);
  }

  lemma ReplyCallsDistinct(base: seq<Message>, reply: Message)
    requires reply.Assistant? && DistinctCalls(base + [reply])
    ensures Distinct(Ids(CallsOf(reply)))
  {
    CallsAppend(base, [reply]);
    assert AllCalls([reply]) == CallsOf(reply) by {
      assert [reply][1..] == [];
      assert CallsOf(reply) + [] == CallsOf(reply);
    }
    DistinctParts(AllCalls(base), CallsOf(reply));
  }

  lemma PlainMessagesAppend(ms: seq<Message>, more: seq<Message>)
    requires Clean(ms) && AllPlain(more)
    ensures Clean(ms + more)
  {
    forall t, x | Clean(t) && Plain(x) ensures Clean(t + [x]) {
      PlainAppend(t, x);
    }
    AppendedOneByOne(Clean, Plain, ms, more);
  }
}
