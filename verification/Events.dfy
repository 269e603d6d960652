/** The event stream of an agent run, the grammar it follows, and what the grammar means. */
module Events {
  import opened Strings
  import opened Runs
  import opened Transcript
  import opened Turns
  import C = Claims
  import R = ClaimResolvers

  /** What dag-v2 starts a call on: its final arguments, and the options under which its claims were resolved. */
  datatype Planned = Planned(call: R.Call, options: R.Options) {
    function Claims(): C.Resolution {
      R.ResolveCall(call, options)
    }
  }

  function ClaimsOf(planned: Option<Planned>): Option<C.Resolution> {
    if planned.None? then None else Some(planned.value.Claims())
  }

  /** The events, with the plan of a call that dag-v2 starts. PromiseSettled is not emitted: it marks the moment from which
      on no promise of a call so started is pending. */
  datatype Event =
    | AgentStart
    | TurnStart
    | MessageStart(message: Message)
    | MessageUpdate(message: Message)
    | MessageEnd(message: Message)
    | ToolStart(toolCallId: string, planned: Option<Planned>)
    | ToolEnd(toolCallId: string)
    | PromiseSettled(toolCallId: string)
    | TurnEnd(message: Message, toolResults: seq<Message>)
    | AgentEnd(messages: seq<Message>)

  datatype Stage = Idle | Opened | InTurn | Between | Ended

  /** A result that says its tool was started. */
  predicate Started(result: Message) {
    result.ToolResult? && result.envelope.Some? && result.envelope.value.executionStarted
  }

  /** Only calls that ran have results that say so. */
  predicate Justified(results: seq<Message>, ran: set<string>) {
    forall k :: 0 <= k < |results| && Started(results[k]) ==> results[k].toolCallId in ran
  }

  /** Where a stream stands: all messages ended so far, those of the current turn, what is still open, the tools that
      were started and ended in the turn, and the claims of the pending tool promises of calls started by dag-v2. */
  datatype Position = Position(
    stage: Stage,
    published: seq<Message>,
    inTurn: seq<Message>,
    streaming: bool,
    running: set<string>,
    ran: set<string>,
    pending: map<string, C.Resolution>)
  {
    predicate Quiet() {
      stage.InTurn? && !streaming && running == {}
    }

    function Publish(ms: seq<Message>): Position {
      this.(published := published + ms, inTurn := inTurn + ms)
    }

    function Launch(id: string, claims: Option<C.Resolution>): Position {
      this.(running := running + {id}, pending := if claims.Some? then pending[id := claims.value] else pending)
    }

    /** A call under these claims may start: every pending promise is that of a running call without a conflict. */
    predicate Admits(claims: C.Resolution) {
      pending.Keys <= running && forall x :: x in pending ==> !C.ResolutionsConflict(pending[x], claims)
    }

    /** Without the promises that outlived their calls. */
    function Calm(): Position {
      this.(pending := map[])
    }
  }

  const BEGIN := Position(Idle, [], [], false, {}, {}, map[])

  predicate TailIs(ms: seq<Message>, tail: seq<Message>) {
    |tail| <= |ms| && ms[|ms| - |tail|..] == tail
  }

  /** agent_start (turn_start … turn_end)+ agent_end. A turn ends with its assistant message and exactly that
      message's tool results, in source order; nothing may still be streaming or running, and a result that says its
      tool was started needs the start and the end of that tool in the turn. A call with claims starts only when it is
      admitted. The run ends with exactly the messages that were ended. */
  function Advance(p: Position, e: Event): Option<Position> {
    match e
    case AgentStart => if p.stage.Idle? then Some(p.(stage := Opened)) else None
    case TurnStart =>
      if p.stage.Opened? || p.stage.Between? then Some(p.(stage := InTurn, inTurn := [], ran := {}))
      else None
    case MessageStart(_) => if p.Quiet() then Some(p.(streaming := true)) else None
    case MessageUpdate(_) => if p.stage.InTurn? && p.streaming then Some(p) else None
    case MessageEnd(m) => if p.stage.InTurn? && p.streaming then Some(p.(streaming := false).Publish([m])) else None
    case ToolStart(id, planned) =>
      if && p.stage.InTurn? && !p.streaming && id !in p.running && id !in p.pending
         && (planned.Some? ==> planned.value.call.id == id && p.Admits(planned.value.Claims()))
      then Some(p.Launch(id, ClaimsOf(planned)))
      else None
    case ToolEnd(id) =>
      if p.stage.InTurn? && !p.streaming && id in p.running then
        Some(p.(running := p.running - {id}, ran := p.ran + {id}))
      else None
    case PromiseSettled(id) =>
      if p.stage.InTurn? && id in p.pending then Some(p.(pending := p.pending - {id})) else None
    case TurnEnd(m, results) =>
      if p.Quiet() && m.Assistant? && Answers(results, CallsOf(m)) && TailIs(p.inTurn, [m] + results)
         && Justified(results, p.ran)
      then Some(p.(stage := Between))
      else None
    case AgentEnd(ms) => if p.stage.Between? && ms == p.published then Some(p.(stage := Ended)) else None
  }

  function Follow(trace: seq<Event>): Option<Position> {
    Run(Advance, BEGIN, trace)
  }

  /** The payloads of all message_end events. */
  function MessageEnds(trace: seq<Event>): seq<Message> {
    if |trace| == 0 then []
    else MessageEnds(trace[..|trace| - 1])
         + (if trace[|trace| - 1].MessageEnd? then [trace[|trace| - 1].message] else [])
  }

  lemma MessageEndsSnoc(trace: seq<Event>, e: Event)
    ensures MessageEnds(trace + [e]) == MessageEnds(trace) + if e.MessageEnd? then [e.message] else []
  {
    assert (trace + [e])[..|trace|] == trace;
  }

  lemma {:induction false} FollowPublishes(trace: seq<Event>)
    requires Follow(trace).Some?
    ensures Follow(trace).value.published == MessageEnds(trace)
  {
    if |trace| > 0 {
      RunStep(Advance, BEGIN, trace, |trace| - 1);
      assert trace[..|trace|] == trace;
      FollowPublishes(trace[..|trace| - 1]);
    }
  }

  // ---------------------------------------------------------------- what an accepted stream looks like

  /** What each stage says about the events so far. */
  ghost predicate Recorded(trace: seq<Event>, stage: Stage) {
    && (stage.Idle? <==> trace == [])
    && (!stage.Idle? ==> |trace| > 0 && trace[0] == AgentStart)
    && (stage.Opened? <==> |trace| == 1)
    && (stage != Idle && stage != Opened ==> |trace| > 1 && trace[1] == TurnStart)
    && (stage.Between? ==> |trace| >= 3 && trace[|trace| - 1].TurnEnd?)
    && (stage.Ended? ==> |trace| >= 4 && trace[|trace| - 2].TurnEnd? && trace[|trace| - 1].AgentEnd?)
    && forall k :: 0 <= k < |trace| && trace[k].AgentEnd? ==> stage.Ended? && k == |trace| - 1
  }

  lemma RecordedStep(trace: seq<Event>, p: Position, e: Event)
    requires Recorded(trace, p.stage) && Advance(p, e).Some?
    ensures Recorded(trace + [e], Advance(p, e).value.stage)
  {
    assert p.stage.Between? ==> (trace + [e])[|trace| - 1] == trace[|trace| - 1];
  }

  lemma {:induction false} FollowRecords(trace: seq<Event>)
    requires Follow(trace).Some?
    ensures Recorded(trace, Follow(trace).value.stage)
  {
    if |trace| > 0 {
      var n := |trace| - 1;
      RunStep(Advance, BEGIN, trace, n);
      FollowRecords(trace[..n]);
      assert trace[..n + 1] == trace == trace[..n] + [trace[n]];
      RecordedStep(trace[..n], Follow(trace[..n]).value, trace[n]);
    }
  }

  lemma EndStep(p: Position, e: Event)
    requires Advance(p, e).Some? && Advance(p, e).value.stage.Ended?
    ensures e == AgentEnd(Advance(p, e).value.published)
  {
  }

  /** An accepted stream starts with agent_start, has at least one turn, and ends with the one agent_end event, which
      carries exactly the ended messages. */
  lemma AcceptedEnds(trace: seq<Event>)
    requires Follow(trace).Some? && Follow(trace).value.stage.Ended?
    ensures |trace| >= 4 && trace[0] == AgentStart && trace[1] == TurnStart
    ensures trace[|trace| - 2].TurnEnd? && trace[|trace| - 1] == AgentEnd(MessageEnds(trace))
    ensures forall k :: 0 <= k < |trace| - 1 ==> !trace[k].AgentEnd?
  {
    FollowRecords(trace);
    FollowPublishes(trace);
    var n := |trace| - 1;
    RunStep(Advance, BEGIN, trace, n);
    assert trace[..n + 1] == trace;
    EndStep(Follow(trace[..n]).value, trace[n]);
  }

  /** Every turn ends with one result for each call of its assistant message, in source order, and these are the
      messages that were ended last. */
  lemma AcceptedTurns(trace: seq<Event>, k: nat)
    requires Follow(trace).Some? && k < |trace| && trace[k].TurnEnd?
    ensures Answers(trace[k].toolResults, CallsOf(trace[k].message))
    ensures TailIs(MessageEnds(trace[..k]), [trace[k].message] + trace[k].toolResults)
  {
    RunStep(Advance, BEGIN, trace, k);
    FollowPublishes(trace[..k]);
    TurnIsSuffix(trace[..k]);
  }

  lemma {:induction false} TurnIsSuffix(trace: seq<Event>)
    requires Follow(trace).Some?
    ensures TailIs(Follow(trace).value.published, Follow(trace).value.inTurn)
  {
    if |trace| > 0 {
      var n := |trace| - 1;
      RunStep(Advance, BEGIN, trace, n);
      assert trace[..n + 1] == trace;
      TurnIsSuffix(trace[..n]);
      hide Follow;
      SuffixStep(Follow(trace[..n]).value, trace[n]);
    }
  }

  lemma SuffixStep(p: Position, e: Event)
    requires TailIs(p.published, p.inTurn) && Advance(p, e).Some?
    ensures TailIs(Advance(p, e).value.published, Advance(p, e).value.inTurn)
  {
    if e.MessageEnd? {
      var both := p.published + [e.message];
      assert both[|both| - |p.inTurn| - 1..] == p.published[|p.published| - |p.inTurn|..] + [e.message];
    }
  }

  predicate Starts(e: Event, id: string) {
    e.ToolStart? && e.toolCallId == id
  }

  /** Starts less ends of one tool call. */
  function Balance(trace: seq<Event>, id: string): int {
    if |trace| == 0 then 0
    else
      var last := trace[|trace| - 1];
      Balance(trace[..|trace| - 1], id) + (if Starts(last, id) then 1 else if last.ToolEnd? && last.toolCallId == id then -1 else 0)
  }

  lemma {:induction false} RunningIsBalance(trace: seq<Event>, id: string)
    requires Follow(trace).Some?
    ensures Balance(trace, id) == if id in Follow(trace).value.running then 1 else 0
  {
    if |trace| > 0 {
      var n := |trace| - 1;
      RunStep(Advance, BEGIN, trace, n);
      assert trace[..n + 1] == trace;
      RunningIsBalance(trace[..n], id);
    }
  }

  /** Every tool_execution_start is followed by exactly one tool_execution_end of its call before its turn ends. */
  lemma AcceptedTools(trace: seq<Event>, k: nat, id: string)
    requires Follow(trace).Some? && k < |trace|
    ensures 0 <= Balance(trace[..k], id) <= 1
    ensures trace[k].TurnEnd? || trace[k].MessageStart? ==> Balance(trace[..k], id) == 0
  {
    RunStep(Advance, BEGIN, trace, k);
    RunningIsBalance(trace[..k], id);
  }

  ghost predicate StartedIn(trace: seq<Event>, id: string) {
    exists e :: e in trace && Starts(e, id)
  }

  /** A result that says its tool was started comes in the turn of that tool's start and end events. */
  lemma AcceptedStarts(trace: seq<Event>, k: nat, r: Message)
    requires Follow(trace).Some? && k < |trace| && trace[k].TurnEnd?
    requires r in trace[k].toolResults && Started(r)
    ensures StartedIn(trace[..k], r.toolCallId) && ToolEnd(r.toolCallId) in trace[..k]
  {
    RunStep(Advance, BEGIN, trace, k);
    RanWasStarted(trace[..k], r.toolCallId);
  }

  lemma {:induction false} RanWasStarted(trace: seq<Event>, id: string)
    requires Follow(trace).Some?
    ensures id in Follow(trace).value.running ==> StartedIn(trace, id)
    ensures id in Follow(trace).value.ran ==> StartedIn(trace, id) && ToolEnd(id) in trace
  {
    if |trace| > 0 {
      var n := |trace| - 1;
      RunStep(Advance, BEGIN, trace, n);
      assert trace[..n + 1] == trace;
      hide Advance, StartedIn, Starts;
      RanWasStarted(trace[..n], id);
      StartedMore(trace, id);
      RanStep(Follow(trace[..n]).value, trace[n], id);
    }
  }

  lemma StartedMore(trace: seq<Event>, id: string)
    requires |trace| > 0
    ensures var n := |trace| - 1;
            && (StartedIn(trace[..n], id) || Starts(trace[n], id) ==> StartedIn(trace, id))
            && (ToolEnd(id) in trace[..n] || trace[n] == ToolEnd(id) ==> ToolEnd(id) in trace)
  {
    var n := |trace| - 1;
    assert trace == trace[..n] + [trace[n]];
    if StartedIn(trace[..n], id) {
      var e :| e in trace[..n] && Starts(e, id);
      assert e in trace;
    }
  }

  lemma RanStep(p: Position, e: Event, id: string)
    requires Advance(p, e).Some?
    ensures id in Advance(p, e).value.running ==> id in p.running || Starts(e, id)
    ensures id in Advance(p, e).value.ran ==> id in p.ran || (e == ToolEnd(id) && id in p.running)
  {
  }

  // ---------------------------------------------------------------- mutual exclusion

  lemma StaysPending(p: Position, e: Event, id: string)
    requires Advance(p, e).Some? && id in p.pending && e != PromiseSettled(id)
    ensures id in Advance(p, e).value.pending && Advance(p, e).value.pending[id] == p.pending[id]
    ensures id !in p.running ==> id !in Advance(p, e).value.running
  {
  }

  /** What was pending at some point still is, when its promise has not settled since; an ended call stays ended. */
  lemma PendingAlong(trace: seq<Event>, k: nat, id: string, claims: C.Resolution, ended: bool)
    requires Follow(trace).Some? && k <= |trace| && PromiseSettled(id) !in trace[k..]
    requires Follow(trace[..k]).Some? && id in Follow(trace[..k]).value.pending
    requires Follow(trace[..k]).value.pending[id] == claims
    requires ended ==> id !in Follow(trace[..k]).value.running
    ensures id in Follow(trace).value.pending && Follow(trace).value.pending[id] == claims
    ensures ended ==> id !in Follow(trace).value.running
  {
    var good := (p: Position) => id in p.pending && p.pending[id] == claims && (ended ==> id !in p.running);
    var allowed := (e: Event) => e != PromiseSettled(id);
    forall p, e | good(p) && allowed(e) && Advance(p, e).Some? ensures good(Advance(p, e).value) {
      StaysPending(p, e, id);
    }
    forall i | k <= i < |trace| ensures allowed(trace[i]) {
      assert trace[k..][i - k] == trace[i];
    }
    KeptAlong(Advance, BEGIN, trace, k, good, allowed);
  }

  lemma StartPends(p: Position, e: Event)
    requires e.ToolStart? && e.planned.Some? && Advance(p, e).Some?
    ensures e.toolCallId in Advance(p, e).value.pending
    ensures Advance(p, e).value.pending[e.toolCallId] == e.planned.value.Claims()
  {
    hide R.ResolveCall, C.ResolutionsConflict;
  }

  lemma StartAdmitted(p: Position, e: Event, id: string)
    requires e.ToolStart? && e.planned.Some? && Advance(p, e).Some? && id in p.pending
    ensures id in p.running && id != e.toolCallId
    ensures !C.ResolutionsConflict(p.pending[id], e.planned.value.Claims())
  {
    hide R.ResolveCall, C.ResolutionsConflict;
  }

  /** When dag-v2 starts a call, every call it started before has settled its promise, unless the two are in one
      execution level, where the earlier one has not ended and the claims of their final arguments do not conflict. */
  lemma AcceptedExclusion(trace: seq<Event>, k: nat, j: nat)
    requires Follow(trace).Some? && k < j < |trace|
    requires trace[k].ToolStart? && trace[k].planned.Some? && trace[j].ToolStart? && trace[j].planned.Some?
    ensures PromiseSettled(trace[k].toolCallId) in trace[k + 1..j]
            || (&& trace[k].toolCallId != trace[j].toolCallId
                && ToolEnd(trace[k].toolCallId) !in trace[k + 1..j]
                && !C.ResolutionsConflict(trace[k].planned.value.Claims(), trace[j].planned.value.Claims()))
  {
    var id, claims := trace[k].toolCallId, trace[k].planned.value.Claims();
    if PromiseSettled(id) !in trace[k + 1..j] {
      RunStep(Advance, BEGIN, trace, j);
      RunStep(Advance, BEGIN, trace, k);
      StartPends(Follow(trace[..k]).value, trace[k]);
      PendingUntil(trace, k + 1, j, id, claims, false);
      StartAdmitted(Follow(trace[..j]).value, trace[j], id);
      if ToolEnd(id) in trace[k + 1..j] {
        var i: nat :| k + 1 <= i < j && trace[i] == ToolEnd(id);
        EndedStaysEnded(trace, k + 1, i, j, id, claims);
      }
    }
  }

  /** Every two calls that dag-v2 starts keep apart like this. */
  ghost predicate Exclusive(trace: seq<Event>) {
    forall k, j :: 0 <= k < j < |trace| && trace[k].ToolStart? && trace[j].ToolStart? ==>
      && trace[k].planned.Some? && trace[j].planned.Some?
      && (PromiseSettled(trace[k].toolCallId) in trace[k + 1..j]
          || (&& trace[k].toolCallId != trace[j].toolCallId
              && ToolEnd(trace[k].toolCallId) !in trace[k + 1..j]
              && !C.ResolutionsConflict(trace[k].planned.value.Claims(), trace[j].planned.value.Claims())))
  }

  lemma AcceptedExclusive(trace: seq<Event>)
    requires Follow(trace).Some? && forall e :: e in trace && e.ToolStart? ==> e.planned.Some?
    ensures Exclusive(trace)
  {
    hide Follow, C.ResolutionsConflict;
    forall k, j | 0 <= k < j < |trace| && trace[k].ToolStart? && trace[j].ToolStart?
      ensures trace[k].planned.Some? && trace[j].planned.Some?
      ensures PromiseSettled(trace[k].toolCallId) in trace[k + 1..j]
              || (&& trace[k].toolCallId != trace[j].toolCallId
                  && ToolEnd(trace[k].toolCallId) !in trace[k + 1..j]
                  && !C.ResolutionsConflict(trace[k].planned.value.Claims(), trace[j].planned.value.Claims()))
    {
      assert trace[k] in trace && trace[j] in trace;
      AcceptedExclusion(trace, k, j);
    }
  }

  lemma PendingUntil(trace: seq<Event>, k: nat, j: nat, id: string, claims: C.Resolution, ended: bool)
    requires k <= j <= |trace| && Follow(trace[..j]).Some? && PromiseSettled(id) !in trace[k..j]
    requires Follow(trace[..k]).Some? && id in Follow(trace[..k]).value.pending
    requires Follow(trace[..k]).value.pending[id] == claims
    requires ended ==> id !in Follow(trace[..k]).value.running
    ensures id in Follow(trace[..j]).value.pending && Follow(trace[..j]).value.pending[id] == claims
    ensures ended ==> id !in Follow(trace[..j]).value.running
  {
    assert trace[..j][..k] == trace[..k] && trace[..j][k..] == trace[k..j];
    PendingAlong(trace[..j], k, id, claims, ended);
  }

  lemma EndedStaysEnded(trace: seq<Event>, k: nat, i: nat, j: nat, id: string, claims: C.Resolution)
    requires k <= i < j <= |trace| && Follow(trace).Some? && trace[i] == ToolEnd(id)
    requires PromiseSettled(id) !in trace[k..j]
    requires Follow(trace[..k]).Some? && id in Follow(trace[..k]).value.pending
    requires Follow(trace[..k]).value.pending[id] == claims
    ensures Follow(trace[..j]).Some? && id in Follow(trace[..j]).value.pending && id !in Follow(trace[..j]).value.running
  {
    RunStep(Advance, BEGIN, trace, i);
    RunPrefix(Advance, BEGIN, trace, j);
    assert trace[k..i] <= trace[k..j];
    PendingUntil(trace, k, i, id, claims, false);
    EndPends(Follow(trace[..i]).value, id);
    hide Advance;
    assert trace[k..j][i + 1 - k..] == trace[i + 1..j];
    PendingUntil(trace, i + 1, j, id, claims, true);
  }

  lemma EndPends(p: Position, id: string)
    requires Advance(p, ToolEnd(id)).Some?
    ensures Advance(p, ToolEnd(id)).value.pending == p.pending && id !in Advance(p, ToolEnd(id)).value.running
  {
  }
}
