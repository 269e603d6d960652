/** packages/agent/src/agent-loop.ts as a program over an arbitrary environment: the provider, the hooks, the tools and
    the abort signal choose freely at every await. */
module AgentLoop {
  import opened Strings
  import opened Envelopes
  import opened Runs
  import opened Transcript
  import opened Repair
  import opened Turns
  import opened Queues
  import opened Events
  import opened ToolTimeout
  import opened ToolBoundary
  import C = Claims
  import R = ClaimResolvers
  import W = Waves
  import P = DagPlan
  import opened ToolBatches

  datatype Reply = RequestRefused | TransformRefused | ProviderThrew | Replied(message: Message)

  /** A run ends early, or with both queues empty at their last poll. */
  datatype RunEnd = Stopped(exhausted: bool) | NoReply(reply: Reply) | EmittedRefused | OutOfFuel

  datatype TurnResult = Proceed(hasMoreToolCalls: bool) | Finished(end: RunEnd)

  /** What the environment promises: queued messages are tool-free, and the hook's contexts inspect clean. */
  datatype Promises = Promises(plainQueues: bool, cleanHooks: bool)

  /** Nothing from outside breaks the transcript: not the context, not a queue, not a hook. */
  ghost predicate Trusted(config: Config, promises: Promises, context: seq<Message>,
                          steering: seq<Message>, followUp: seq<Message>) {
    && Clean(context) && AllPlain(steering) && AllPlain(followUp) && promises.plainQueues
    && (config.prepareNextTurn ==> promises.cleanHooks)
  }

  /** When the first poll was skipped, the first message after the prompts is the reply to them. */
  predicate FirstOwn(skip: bool, before: seq<Origin>, origins: seq<Origin>, firstTurn: bool) {
    && before <= origins
    && (firstTurn ==> origins == before)
    && (skip && |origins| > |before| ==> origins[|before|] == Own)
  }

  lemma OwnStaysFirst(skip: bool, before: seq<Origin>, was: seq<Origin>, now: seq<Origin>, from: Origin, injected: nat,
                      firstTurn: bool)
    requires FirstOwn(skip, before, was, firstTurn) && was + All(from, injected) <= now
    requires if firstTurn then skip ==> injected == 0 else |was| > |before|
    requires |now| > |was| + injected ==> now[|was| + injected] == Own
    ensures FirstOwn(skip, before, now, false)
  {
    assert (was + All(from, injected))[..|was|] == was;
  }

  ghost predicate StartsAs(trace: seq<Event>, dag: bool) {
    forall e :: e in trace && e.ToolStart? ==> (e.planned.Some? <==> dag)
  }

  class AgentRun {
    const config: Config
    const promises: Promises
    const steering: PendingMessageQueue
    const followUp: PendingMessageQueue
    /** The context the run started from, without its own messages. */
    ghost const base: seq<Message>
    /** Neither that context with the prompts nor the queues as they were break the transcript. */
    ghost const cleanStart: bool
    /** What had left the queues before the run. */
    ghost const steeredBefore: seq<Message>
    ghost const followedBefore: seq<Message>
    var messages: seq<Message>
    var newMessages: seq<Message>
    /** Where each new message came from. */
    ghost var origins: seq<Origin>
    var trace: seq<Event>
    var aborted: bool

    constructor (config: Config, promises: Promises, steering: PendingMessageQueue, followUp: PendingMessageQueue,
                 context: seq<Message>, prompts: seq<Message>, aborted: bool)
      requires steering != followUp && steering.Valid() && followUp.Valid()
      ensures this.config == config && this.promises == promises
      ensures this.steering == steering && this.followUp == followUp
      ensures base == context && messages == context + prompts && newMessages == prompts
      ensures trace == [] && Where() == Some(BEGIN) && this.aborted == aborted && origins == All(Prompted, |prompts|)
      ensures Trusting() <==> Trusted(config, promises, context + prompts, steering.messages, followUp.messages)
      ensures steeredBefore == steering.drained && followedBefore == followUp.drained
      ensures Fed([], Own)
    {
      hide Clean, OnlyMissing, From;
      this.config, this.promises := config, promises;
      this.steering, this.followUp := steering, followUp;
      this.messages := context + prompts;
      this.newMessages := prompts;
      this.trace := [];
      this.aborted := aborted;
      this.base := context;
      this.cleanStart := Clean(context + prompts) && AllPlain(steering.messages) && AllPlain(followUp.messages);
      this.steeredBefore, this.followedBefore := steering.drained, followUp.drained;
      this.origins := All(Prompted, |prompts|);
      new;
      FromAll(prompts, Prompted, Steering);
      FromAll(prompts, Prompted, FollowUp);
    }

    // ------------------------------------------------------------ the queues

    /** Nothing from outside breaks the transcript. */
    ghost predicate Trusting() {
      cleanStart && promises.plainQueues && (config.prepareNextTurn ==> promises.cleanHooks)
    }

    /** The new messages of one origin. */
    ghost function Taken(o: Origin): seq<Message>
      requires |origins| == |newMessages|
      reads `newMessages, `origins
    {
      From(newMessages, origins, o)
    }

    /** Each message that left a queue during the run is among the new messages, or among those still to be injected. */
    ghost predicate Fed(pending: seq<Message>, from: Origin)
      reads `newMessages, `origins, steering, followUp
    {
      && steering != followUp && steering.Valid() && followUp.Valid()
      && (Trusting() ==> AllPlain(steering.messages) && AllPlain(followUp.messages) && AllPlain(pending))
      && |origins| == |newMessages|
      && steering.drained == steeredBefore + Taken(Steering) + (if from.Steering? then pending else [])
      && followUp.drained == followedBefore + Taken(FollowUp) + (if from.FollowUp? then pending else [])
    }

    /** Messages arrive whenever they like; no poll sees the difference. */
    method Arrive(queue: PendingMessageQueue)
      requires queue.Valid()
      modifies queue
      ensures queue.Valid() && queue.drained == old(queue.drained) && old(queue.entered) <= queue.entered
      ensures promises.plainQueues && AllPlain(old(queue.messages)) ==> AllPlain(queue.messages)
    {
      var arriving: seq<Message> := *;
      if promises.plainQueues && !AllPlain(arriving) { arriving := []; }
      queue.EnqueueAll(arriving);
    }

    method Poll(queue: PendingMessageQueue) returns (queued: seq<Message>)
      requires queue.Valid()
      modifies queue, this`aborted
      ensures queue.Valid() && queue.drained == old(queue.drained) + queued && old(queue.entered) <= queue.entered
      ensures queued == [] ==> queue.messages == []
      ensures promises.plainQueues && AllPlain(old(queue.messages)) ==> AllPlain(queued) && AllPlain(queue.messages)
      ensures old(aborted) ==> aborted
    {
      hide AllPlain;
      Arrive(queue);
      Await();
      queued := queue.Drain();
      PlainParts(queued, queue.messages);
    }

    method PollSteering() returns (queued: seq<Message>)
      requires Fed([], Own)
      modifies steering, this`aborted
      ensures Fed(queued, Steering) && (queued == [] ==> steering.messages == [])
      ensures old(steering.entered) <= steering.entered && (old(aborted) ==> aborted)
    {
      queued := Poll(steering);
    }

    method PollFollowUp() returns (queued: seq<Message>)
      requires Fed([], Own)
      modifies followUp, this`aborted
      ensures Fed(queued, FollowUp) && (queued == [] ==> followUp.messages == [])
      ensures old(followUp.entered) <= followUp.entered && (old(aborted) ==> aborted)
    {
      queued := Poll(followUp);
    }

    /** Where the stream stands; calls are started on a plan exactly under dag-v2. */
    ghost function Where(): Option<Position>
      reads `trace
    {
      if StartsAs(trace, config.Dag()) then Follow(trace) else None
    }

    ghost predicate Quiet()
      reads `trace
    {
      Where().Some? && Where().value.Quiet()
    }

    /** No tool promise that dag-v2 started is pending. */
    ghost predicate Alone()
      reads `trace
    {
      Quiet() && Where().value.pending == map[]
    }

    /** After a turn_end. */
    ghost predicate AtRest()
      reads `trace
    {
      && Where().Some? && Where().value.stage.Between?
      && !Where().value.streaming && Where().value.running == {} && Where().value.pending == map[]
    }

    // ------------------------------------------------------------ awaiting and emitting

    /** The parent run may be aborted at any await; it stays aborted. */
    method Await()
      modifies this`aborted
      ensures old(aborted) ==> aborted
    {
      if * { aborted := true; }
    }

    method Emit(e: Event)
      requires Where().Some? && Advance(Where().value, e).Some?
      requires e.ToolStart? ==> (e.planned.Some? <==> config.Dag())
      modifies this`trace, this`aborted
      ensures trace == old(trace) + [e] && Where() == Advance(old(Where()).value, e)
      ensures old(aborted) ==> aborted
    {
      RunSnoc(Advance, BEGIN, trace, e);
      trace := trace + [e];
      Await();
    }

    method EmitMessage(m: Message)
      requires Quiet()
      modifies this`trace, this`aborted
      ensures Quiet() && Where() == Some(old(Where()).value.Publish([m]))
      ensures old(aborted) ==> aborted
    {
      Emit(MessageStart(m));
      Emit(MessageEnd(m));
    }

    method EmitToolStart(call: ToolCall, planned: Option<Planned>)
      requires Where().Some? && Where().value.stage.InTurn? && !Where().value.streaming
      requires call.id !in Where().value.running && call.id !in Where().value.pending
      requires planned.Some? <==> config.Dag()
      requires planned.Some? ==> planned.value.call.id == call.id && Where().value.Admits(planned.value.Claims())
      modifies this`trace, this`aborted
      ensures Where() == Some(old(Where()).value.Launch(call.id, ClaimsOf(planned)))
      ensures old(aborted) ==> aborted
    {
      Emit(ToolStart(call.id, planned));
    }

    method EmitToolEnd(call: ToolCall)
      requires Where().Some? && Where().value.stage.InTurn? && !Where().value.streaming
      requires call.id in Where().value.running
      modifies this`trace, this`aborted
      ensures Where() == Some(old(Where()).value.(
                running := old(Where()).value.running - {call.id}, ran := old(Where()).value.ran + {call.id}))
      ensures old(aborted) ==> aborted
    {
      Emit(ToolEnd(call.id));
    }

    /** The promise of a call that was started under claims settles. */
    method NoteSettled(call: ToolCall, claims: Option<C.Resolution>)
      requires Where().Some? && Where().value.stage.InTurn? && (claims.Some? ==> call.id in Where().value.pending)
      modifies this`trace, this`aborted
      ensures Where() == if claims.None? then old(Where())
                         else Some(old(Where()).value.(pending := old(Where()).value.pending - {call.id}))
      ensures old(aborted) ==> aborted
    {
      if claims.Some? { Emit(PromiseSettled(call.id)); }
    }

    // ------------------------------------------------------------ one call

    /** planToolCall and authorizePlannedToolCall, for one set of decisions by planning, validation and the hook. The hook
        is not called after an abort; `abortWins` says who wins when it fails while the run is being aborted. */
    method AuthorizeToolCall(call: ToolCall, decision: Authorization, hooked: bool, abortWins: bool,
                             arguments: R.Arguments, timeouts: Timeouts)
      returns (p: Preparation)
      modifies this`aborted
      ensures p.Call() == call && (old(aborted) ==> aborted)
      ensures p.Immediate? ==> IsToolResultEnvelope(p.final.outcome.envelope)
                               && !p.final.outcome.envelope.executionStarted && p.final.outcome.isError
      ensures ClosedAs(p, Failed) <==>
                || call.id == "" || call.name == "" || decision.PlanFails? || decision.ArgumentsFail?
                || (hooked && decision.HookFails? && !old(aborted) && !(aborted && abortWins))
      ensures ClosedAs(p, Blocked) <==> hooked && decision.HookBlocks? && !aborted && !ClosedAs(p, Failed)
      ensures ClosedAs(p, Aborted) <==> aborted && !ClosedAs(p, Failed)
      ensures p.Ready? ==> p.prepared == Prepared(call, arguments, ResolveToolTimeoutMs(timeouts))
      ensures p.Ready? || ClosedAs(p, Failed) || ClosedAs(p, Blocked) || ClosedAs(p, Aborted)
    {
      if call.id == "" || call.name == "" {
        return Immediate(ImmediateOutcome(call, Failed, "Invalid empty tool identity"));
      }
      if decision.PlanFails? || decision.ArgumentsFail? {
        return Immediate(ImmediateOutcome(call, Failed, decision.reason));
      }
      if hooked {
        if aborted { return Immediate(ImmediateOutcome(call, Aborted, "Operation aborted")); }
        Await();
        if decision.HookFails? && !(aborted && abortWins) {
          return Immediate(ImmediateOutcome(call, Failed, decision.reason));
        }
        if aborted { return Immediate(ImmediateOutcome(call, Aborted, "Operation aborted")); }
        if decision.HookBlocks? { return Immediate(ImmediateOutcome(call, Blocked, decision.reason)); }
      }
      if aborted { return Immediate(ImmediateOutcome(call, Aborted, "Operation aborted")); }
      p := Ready(Prepared(call, arguments, ResolveToolTimeoutMs(timeouts)));
    }

    method PrepareToolCall(call: ToolCall) returns (p: Preparation)
      modifies this`aborted
      ensures p.Call() == call && (old(aborted) ==> aborted)
      ensures p.Ready? ==> !aborted
      ensures p.Immediate? ==> !p.final.outcome.envelope.executionStarted
    {
      var decision: Authorization, hooked: bool, abortWins: bool, timeouts: Timeouts := *, *, *, *;
      var arguments: R.Arguments := *;
      p := AuthorizeToolCall(call, decision, hooked, abortWins, arguments, timeouts);
    }

    /** The race may have any outcome that some interleaving gives it. */
    method ExecutePreparedToolCall(prepared: Prepared, parentAborted: bool) returns (executed: Executed)
      requires parentAborted ==> aborted
      modifies this`aborted
      ensures old(aborted) ==> aborted
      ensures executed.terminal == Some(TimeoutCause) ==> prepared.timeoutMs > 0.0
      ensures executed.terminal.None? || executed.terminal == Some(TimeoutCause) ==> executed.executionStarted
      ensures executed.terminal == Some(AbortCause) ==> aborted
      ensures executed.executionStarted <==> !parentAborted
    {
      var outcome: Outcome := *;
      var own: ToolOutput, thrown: string := *, *;
      Await();
      if parentAborted {
        outcome := NeverStarted;
      } else if outcome.Terminal? && outcome.cause.AbortCause? {
        aborted := true;
      } else if !PossibleOutcome(prepared.timeoutMs, false, outcome) {
        outcome := Real(Rejected);
      }
      executed := ExecutedOf(outcome, own, thrown);
    }

    method FinalizeCall(prepared: Prepared, executed: Executed) returns (final: Final)
      requires executed.terminal == Some(TimeoutCause) ==> prepared.timeoutMs > 0.0
      requires executed.terminal.None? || executed.terminal == Some(TimeoutCause) ==> executed.executionStarted
      modifies this`aborted
      ensures final.call == prepared.call && (old(aborted) ==> aborted)
      ensures IsToolResultEnvelope(final.outcome.envelope)
      ensures final.outcome.isError <==> final.outcome.envelope.disposition != Completed
      ensures final.outcome.envelope.executionStarted == executed.executionStarted
      ensures executed.terminal.Some? ==> final.outcome.envelope.disposition == DispositionOf(executed.terminal.value)
      ensures executed.terminal.None? && final.outcome.envelope.disposition == Aborted ==> aborted
      ensures final.outcome.envelope.disposition == TimedOut ==> executed.terminal == Some(TimeoutCause)
    {
      var abortedBefore := aborted;
      var hook: Option<HookEnd> := *;
      Await();
      if hook.Some? && !hook.value.HookThrew? {
        if aborted {
          hook := Some(HookAborted);
        } else if hook.value.HookAborted? {
          hook := Some(HookSilent);
        }
      }
      var finalized := FinalizeExecutedToolCall(executed, Surroundings(prepared.timeoutMs, abortedBefore, hook));
      final := Final(prepared.call, finalized.value);
    }

    method StartAll(entries: seq<Preparation>, planned: seq<Option<Planned>>, ghost claims: seq<Option<C.Resolution>>)
      returns (done: seq<Option<Final>>, waiting: set<nat>)
      requires Alone() && DistinctEntries(entries) && PlannedAs(entries, planned, config.Dag())
      requires claims == ClaimsOfAll(planned) && Compatible(claims)
      modifies this`trace, this`aborted
      ensures Underway(entries, done, waiting) && forall k :: 0 <= k < |entries| ==> (k in waiting <==> entries[k].Ready?)
      ensures Where() == Some(old(Where()).value.(
                running := IdsAt(entries, waiting), pending := Held(entries, claims, waiting)))
      ensures old(aborted) ==> aborted
    {
      hide C.ResolutionsConflict, Held, Follow, StartsAs, Compatible, DistinctEntries, IdsAt;
      done, waiting := [], {};
      IdsAtNone(entries);
      HeldNothing(entries, claims, waiting);
      for i := 0 to |entries|
        invariant Underway(entries[..i], done, waiting) && Among(waiting, entries)
        invariant forall k :: 0 <= k < i ==> (k in waiting <==> entries[k].Ready?)
        invariant Where() == Some(old(Where()).value.(
                    running := IdsAt(entries, waiting), pending := Held(entries, claims, waiting)))
        invariant old(aborted) ==> aborted
      {
        if entries[i].Ready? {
          IdsAtChange(entries, waiting, i);
          HeldMore(entries, claims, waiting, i);
          if claims[i].Some? { HeldAdmits(entries, claims, waiting, i, Where().value); }
          EmitToolStart(entries[i].prepared.call, planned[i]);
          waiting := waiting + {i};
          done := done + [None];
        } else {
          done := done + [Some(entries[i].final)];
        }
      }
      assert entries[..|entries|] == entries;
    }

    /** Promise.all over executions that may end in any order; `adrift` are those that ended before their promises
        settled. */
    method RunConcurrently(entries: seq<Preparation>, planned: seq<Option<Planned>>, claims: seq<Option<C.Resolution>>)
      returns (finals: seq<Final>, adrift: set<nat>)
      requires Alone() && DistinctEntries(entries) && Unstarted(entries)
      requires PlannedAs(entries, planned, config.Dag()) && claims == ClaimsOfAll(planned) && Compatible(claims)
      modifies this`trace, this`aborted
      ensures Quiet() && Onward(old(Where()).value, Where().value.Calm()) && (old(aborted) ==> aborted)
      ensures Among(adrift, entries) && Where().value.pending == Held(entries, claims, adrift)
      ensures |finals| == |entries| && FinalsJustified(finals, Where().value.ran)
      ensures forall i :: 0 <= i < |entries| ==> Settled(entries[i], Some(finals[i]))
      ensures forall i :: i in adrift ==> aborted || finals[i].outcome.envelope.disposition == TimedOut
    {
      hide C.ResolutionsConflict, Held, Compatible, Follow, StartsAs, Progress, IdsAt, Underway, DistinctEntries, Unstarted, Settled;
      var abortedAtStart := aborted;
      var started, launched := StartAll(entries, planned, claims);
      ghost var ran := old(Where()).value.ran;
      ProgressStart(entries, started, launched, ran, aborted);
      var done;
      done, adrift, ran := AwaitAll(entries, claims, started, launched, abortedAtStart, old(Where()).value);
      ProgressDone(entries, done, adrift, ran, aborted);
      finals := seq(|entries|, i requires 0 <= i < |entries| && |done| == |entries| && done[i].Some? => done[i].value);
    }

    /** The started calls of a batch end in any order. */
    method AwaitAll(entries: seq<Preparation>, claims: seq<Option<C.Resolution>>, started: seq<Option<Final>>,
                    launched: set<nat>, abortedAtStart: bool, ghost start: Position)
      returns (done: seq<Option<Final>>, adrift: set<nat>, ghost ran: set<string>)
      requires DistinctEntries(entries) && |claims| == |entries| == |started| && Among(launched, entries)
      requires Progress(entries, started, launched, {}, start.ran, aborted) && (abortedAtStart ==> aborted)
      requires start.stage.InTurn? && !start.streaming
      requires Where() == Some(start.(running := IdsAt(entries, launched), pending := Held(entries, claims, launched)))
      modifies this`trace, this`aborted
      ensures Among(adrift, entries) && |done| == |entries| && Progress(entries, done, {}, adrift, ran, aborted)
      ensures Where() == Some(start.(running := {}, ran := ran, pending := Held(entries, claims, adrift)))
      ensures start.ran <= ran && (old(aborted) ==> aborted)
    {
      hide C.ResolutionsConflict, Held, Follow, StartsAs, Progress, IdsAt, DistinctEntries;
      var waiting := launched;
      done, adrift, ran := started, {}, start.ran;
      assert waiting + adrift == waiting;
      while waiting != {}
        invariant Progress(entries, done, waiting, adrift, ran, aborted)
        invariant Among(waiting + adrift, entries) && |done| == |entries|
        invariant Where() == Some(start.(
                    running := IdsAt(entries, waiting), ran := ran, pending := Held(entries, claims, waiting + adrift)))
        invariant start.ran <= ran && (old(aborted) || abortedAtStart ==> aborted)
        decreases |waiting|
      {
        var i :| i in waiting;
        ghost var open, was := waiting + adrift, aborted;
        IdsAtChange(entries, waiting, i);
        HeldLess(entries, claims, open, i);
        ProgressReady(entries, done, waiting, adrift, ran, aborted, i);
        var final, settled := EndOne(entries[i].prepared, claims[i], abortedAtStart);
        ProgressStep(entries, done, waiting, adrift, ran, was, i, final, settled, aborted);
        done := done[i := Some(final)];
        waiting := waiting - {i};
        ran := ran + {final.call.id};
        if !settled { adrift := adrift + {i}; }
        assert waiting + adrift == if settled then open - {i} else open;
      }
      IdsAtNone(entries);
      assert waiting + adrift == adrift;
    }

    /** A started call runs, and ends; its promise may outlive it. */
    method EndOne(prepared: Prepared, claims: Option<C.Resolution>, abortedAtStart: bool)
      returns (final: Final, settled: bool)
      requires Where().Some? && Where().value.stage.InTurn? && !Where().value.streaming
      requires prepared.call.id in Where().value.running
      requires (claims.Some? ==> prepared.call.id in Where().value.pending) && (abortedAtStart ==> aborted)
      modifies this`trace, this`aborted
      ensures final.call == prepared.call && (old(aborted) ==> aborted)
      ensures !settled ==> aborted || final.outcome.envelope.disposition == TimedOut
      ensures var was, id := old(Where()).value, prepared.call.id;
              Where() == Some(was.(
                running := was.running - {id}, ran := was.ran + {id},
                pending := if settled && claims.Some? then was.pending - {id} else was.pending))
    {
      final, settled := RunOne(prepared, abortedAtStart);
      if settled { NoteSettled(prepared.call, claims); }
      EmitToolEnd(prepared.call);
    }

    /** A call's execution begins at some time since `abortedAtStart` was read, when the run may have been aborted. */
    method RunOne(prepared: Prepared, abortedAtStart: bool) returns (final: Final, settled: bool)
      requires abortedAtStart ==> aborted
      modifies this`aborted
      ensures final.call == prepared.call && (old(aborted) ==> aborted)
      ensures IsToolResultEnvelope(final.outcome.envelope)
      ensures !settled ==> aborted || final.outcome.envelope.disposition == TimedOut
    {
      var parentAborted: bool := *;
      if abortedAtStart {
        parentAborted := true;
      } else if !aborted {
        parentAborted := false;
      }
      var executed := ExecutePreparedToolCall(prepared, parentAborted);
      final := FinalizeCall(prepared, executed);
      settled := true;
      if executed.terminal.Some? && executed.executionStarted { settled := *; }
    }

    /** Some promises that outlived their calls settle before the level is checked. */
    method SettleLate(entries: seq<Preparation>, claims: seq<Option<C.Resolution>>, adrift: set<nat>)
      returns (still: set<nat>)
      requires Quiet() && DistinctEntries(entries) && |claims| == |entries| && Among(adrift, entries)
      requires Where().value.pending == Held(entries, claims, adrift)
      modifies this`trace, this`aborted
      ensures still <= adrift && (old(aborted) ==> aborted)
      ensures Where() == Some(old(Where()).value.(pending := Held(entries, claims, still)))
    {
      hide C.ResolutionsConflict, Held, Follow, StartsAs, DistinctEntries, IdsAt;
      still := adrift;
      var late: set<nat> := *;
      late := late * adrift;
      while late != {}
        invariant late <= still <= adrift && (old(aborted) ==> aborted)
        invariant Where() == Some(old(Where()).value.(pending := Held(entries, claims, still)))
        decreases |late|
      {
        var i :| i in late;
        HeldLess(entries, claims, still, i);
        NoteSettled(entries[i].Call(), claims[i]);
        late, still := late - {i}, still - {i};
      }
    }

    // ------------------------------------------------------------ batches

    ghost function Now(): Snapshot
      reads this
    {
      Snapshot(Where(), messages, aborted)
    }

    method ExecuteSequentialCall(call: ToolCall) returns (final: Final)
      requires Alone() && !config.Dag()
      modifies this`messages, this`trace, this`aborted
      ensures Added(old(Now()), Now(), [ResultMessage(final)]) && final.call == call
    {
      var preparation := PrepareToolCall(call);
      if preparation.Immediate? {
        final := preparation.final;
        messages := messages + [ResultMessage(final)];
      } else {
        EmitToolStart(call, None);
        var settled;
        final, settled := RunOne(preparation.prepared, aborted);
        messages := messages + [ResultMessage(final)];
        EmitToolEnd(call);
      }
      EmitMessage(ResultMessage(final));
    }

    method ExecuteToolCallsSequential(calls: seq<ToolCall>) returns (batch: Batch)
      requires Alone() && !config.Dag()
      modifies this`messages, this`trace, this`aborted
      ensures Added(old(Now()), Now(), batch.messages) && Prefix(batch, calls)
      ensures |batch.finals| < |calls| ==> aborted
    {
      hide Follow, StartsAs;
      var finals: seq<Final>, results: seq<Message> := [], [];
      AddedNothing(Now());
      for i := 0 to |calls|
        invariant Added(old(Now()), Now(), results) && results == ResultMessages(finals)
        invariant FinalsOf(finals, calls[..i])
      {
        ghost var before := Now();
        var final := ExecuteSequentialCall(calls[i]);
        AddedMore(old(Now()), before, Now(), results, [ResultMessage(final)]);
        finals, results := finals + [final], results + [ResultMessage(final)];
        if aborted { break; }
      }
      batch := Batch(results, finals, ShouldTerminate(finals), false);
    }

    method PublishOne(result: Message)
      requires Quiet() && Justified([result], Where().value.ran)
      modifies this`messages, this`trace, this`aborted
      ensures Quiet() && Added(old(Now()), Now(), [result])
    {
      messages := messages + [result];
      EmitMessage(result);
    }

    /** The context grows by the results one by one, each published at once. */
    method PublishResults(results: seq<Message>)
      requires Quiet() && Justified(results, Where().value.ran)
      modifies this`messages, this`trace, this`aborted
      ensures Added(old(Now()), Now(), results)
    {
      AddedNothing(Now());
      assert results[..0] == [];
      for i := 0 to |results|
        invariant Added(old(Now()), Now(), results[..i])
      {
        ghost var before := Now();
        PublishOne(results[i]);
        AddedMore(old(Now()), before, Now(), results[..i], [results[i]]);
        assert results[..i + 1] == results[..i] + [results[i]];
      }
      assert results[..|results|] == results;
    }

    method ExecuteToolCallsParallel(calls: seq<ToolCall>) returns (batch: Batch)
      requires Alone() && !config.Dag() && DistinctIds(calls)
      modifies this`messages, this`trace, this`aborted
      ensures Added(old(Now()), Now(), batch.messages) && Prefix(batch, calls)
      ensures |batch.finals| < |calls| ==> aborted
    {
      hide Follow, StartsAs, C.ResolutionsConflict;
      var entries: seq<Preparation> := [];
      for i := 0 to |calls|
        invariant |entries| == i && Unstarted(entries) && forall k :: 0 <= k < i ==> entries[k].Call() == calls[k]
        invariant messages == old(messages) && trace == old(trace) && (old(aborted) ==> aborted)
      {
        var preparation := PrepareToolCall(calls[i]);
        entries := entries + [preparation];
        if aborted { break; }
      }
      ghost var start := Now();
      var planned: seq<Option<Planned>> := seq(|entries|, i => None);
      var claims := ClaimsOfAll(planned);
      var finals, adrift := RunConcurrently(entries, planned, claims);
      HeldNothing(entries, claims, adrift);
      ghost var middle := Now();
      var results := ResultMessages(finals);
      ResultsJustified(finals, Where().value.ran);
      PublishResults(results);
      AddedAfter(start, middle, Now(), results);
      batch := Batch(results, finals, ShouldTerminate(finals), false);
    }

    method ExecuteWave(calls: seq<ToolCall>, wave: seq<nat>, ghost lo: nat) returns (executed: Batch)
      requires Alone() && !config.Dag() && DistinctIds(calls)
      requires |wave| > 0 && lo + |wave| <= |calls| && wave == W.Range(lo, lo + |wave|)
      modifies this`messages, this`trace, this`aborted
      ensures Alone() && Added(old(Now()), Now(), executed.messages) && Prefix(executed, calls[lo..lo + |wave|])
      ensures |executed.finals| < |wave| ==> aborted
    {
      var waveCalls := seq(|wave|, i requires 0 <= i < |wave| && wave[i] < |calls| => calls[wave[i]]);
      assert waveCalls == calls[lo..lo + |wave|];
      if |waveCalls| == 1 {
        executed := ExecuteToolCallsSequential(waveCalls);
      } else {
        executed := ExecuteToolCallsParallel(waveCalls);
      }
    }

    /** One more wave joins the results so far. */
    method JoinWave(calls: seq<ToolCall>, wave: seq<nat>, finals: seq<Final>, results: seq<Message>, flags: seq<bool>,
                    ghost start: Snapshot)
      returns (executed: Batch)
      requires Alone() && !config.Dag() && DistinctIds(calls) && Joined(calls, finals, results, flags) && Added(start, Now(), results)
      requires |wave| > 0 && |finals| + |wave| <= |calls| && wave == W.Range(|finals|, |finals| + |wave|)
      modifies this`messages, this`trace, this`aborted
      ensures Alone() && Added(start, Now(), results + executed.messages)
      ensures Joined(calls, finals + executed.finals, results + executed.messages, flags + [executed.terminate])
      ensures |executed.finals| <= |wave| && (|executed.finals| < |wave| ==> aborted)
    {
      hide Added;
      ghost var before := Now();
      executed := ExecuteWave(calls, wave, |finals|);
      AddedMore(start, before, Now(), results, executed.messages);
      WaveAdds(calls, finals, results, flags, executed, |finals| + |wave|);
    }

    method ExecuteToolCallsInWaves(calls: seq<ToolCall>, waves: seq<seq<nat>>, ghost slots: seq<W.Slot>)
      returns (batch: Batch)
      requires Alone() && !config.Dag() && DistinctIds(calls) && |slots| == |calls|
      requires W.Partition(slots, 0, waves)
      modifies this`messages, this`trace, this`aborted
      ensures Added(old(Now()), Now(), batch.messages) && Prefix(batch, calls)
      ensures |batch.finals| < |calls| ==> aborted
    {
      assert W.Partition(slots, 0, waves[0..]) by { assert waves[0..] == waves; }
      hide W.Partition, W.ValidWave, Added, Follow, StartsAs, Joined, DistinctIds;
      var results: seq<Message>, finals: seq<Final>, waveTerminates: seq<bool> := [], [], [];
      AddedNothing(Now());
      NothingJoined(calls);
      for k := 0 to |waves|
        invariant Alone() && Added(old(Now()), Now(), results) && Joined(calls, finals, results, waveTerminates)
        invariant W.Partition(slots, |finals|, waves[k..]) && |finals| <= |calls|
      {
        W.PartitionNext(slots, |finals|, waves, k);
        var executed := JoinWave(calls, waves[k], finals, results, waveTerminates, old(Now()));
        results, finals := results + executed.messages, finals + executed.finals;
        waveTerminates := waveTerminates + [executed.terminate];
        if aborted { break; }
      }
      if !aborted { W.PartitionDone(slots, |finals|, waves); }
      JoinedPrefix(calls, finals, results, waveTerminates);
      batch := Batch(results, finals, AllTrue(waveTerminates), false);
    }

    // ------------------------------------------------------------ dag-v2

    /** Levels from the claim scheduler, or one call a level when arguments are not plain; none after an abort. */
    method PlanLevels(calls: seq<R.Call>) returns (levels: seq<seq<nat>>, options: R.Options)
      modifies this`aborted
      ensures old(aborted) ==> aborted
      ensures !aborted ==> Covers(levels, |calls|)
      ensures LevelsIn(levels, |calls|) && LevelsFree(levels, P.ResolveAll(calls, options))
    {
      hide P.ExecutionLevels, P.ConflictFree;
      var chosen: R.Options := *;
      options := chosen;
      levels := P.ExecutionLevels(calls, options, config.maxConcurrency);
      ExecutionLevelsSound(calls, options, config.maxConcurrency);
      if P.AllPlainArguments(calls) {
        Await();
        if aborted { levels := []; }
      }
    }

    /** Authorize one candidate level, plan it again for the final arguments, and run its execution levels. */
    method RunDagLevelCalls(calls: seq<ToolCall>, level: seq<nat>) returns (outcomes: seq<LevelOutcome>, stopped: bool)
      requires Alone() && config.Dag() && DistinctIds(calls) && LevelIn(level, |calls|)
      modifies this`trace, this`aborted
      ensures Quiet() && Onward(old(Where()).value, Where().value.Calm()) && (old(aborted) ==> aborted)
      ensures !aborted && !stopped ==> Alone()
      ensures OutcomesOf(outcomes, calls) && OutcomesJustified(outcomes, Where().value.ran)
      ensures !aborted && !stopped ==> forall x :: x in level ==> HasOutcome(outcomes, x)
      ensures stopped ==> exists o :: o in outcomes && o.final.outcome.envelope.disposition == TimedOut
    {
      hide Follow, StartsAs, P.ConflictFree, P.ResolveAll;
      outcomes, stopped := [], false;
      var runnable: seq<Runnable> := [];
      for i := 0 to |level|
        invariant OutcomesOf(outcomes, calls) && OutcomesJustified(outcomes, {})
        invariant Authorized(runnable, calls, level[..i])
        invariant forall x :: x in level[..i] ==> HasOutcome(outcomes, x) || IsRunnable(runnable, x)
        invariant trace == old(trace) && (old(aborted) ==> aborted)
      {
        var sourceIndex := level[i];
        var preparation := PrepareToolCall(calls[sourceIndex]);
        if preparation.Immediate? {
          OutcomesMore(outcomes, [LevelOutcome(sourceIndex, preparation.final)], calls);
          assert [LevelOutcome(sourceIndex, preparation.final)][0].sourceIndex == sourceIndex;
          outcomes := outcomes + [LevelOutcome(sourceIndex, preparation.final)];
        } else {
          RunnableMore(runnable, calls, level, i, preparation);
          runnable := runnable + [Runnable(sourceIndex, preparation)];
        }
        assert level[..i + 1] == level[..i] + [level[i]];
        if aborted { return; }
      }
      assert level[..|level|] == level;
      var planned := seq(|runnable|, k requires 0 <= k < |runnable| && runnable[k].preparation.Ready? =>
        runnable[k].preparation.prepared.Final());
      var executionLevels, options := PlanLevels(planned);
      ghost var cut := aborted;
      for e := 0 to |executionLevels|
        invariant Quiet() && Onward(old(Where()).value, Where().value.Calm()) && (old(aborted) || cut ==> aborted)
        invariant aborted || Alone()
        invariant OutcomesOf(outcomes, calls) && OutcomesJustified(outcomes, Where().value.ran)
        invariant forall x :: x in level ==> HasOutcome(outcomes, x) || IsRunnable(runnable, x)
        invariant LevelsDone(outcomes, runnable, executionLevels[..e])
      {
        if aborted { break; }
        assert LevelIn(executionLevels[e], |runnable|);
        var finished, unsettledTimeout := RunExecutionLevel(runnable, executionLevels[e], planned, options, calls, level);
        OutcomesMore(outcomes, finished, calls);
        ExecutedMore(outcomes, finished, runnable, executionLevels, e);
        outcomes := outcomes + finished;
        if aborted { break; }
        if unsettledTimeout {
          stopped := true;
          break;
        }
      }
      assert executionLevels[..|executionLevels|] == executionLevels;
      if !aborted && !stopped {
        AllExecuted(outcomes, runnable, executionLevels, level);
      }
    }

    /** One execution level: its calls start together, on the plan of their final arguments, under claims that do not
        conflict. */
    method RunExecutionLevel(runnable: seq<Runnable>, executionLevel: seq<nat>, planned: seq<R.Call>, options: R.Options,
                             calls: seq<ToolCall>, ghost level: seq<nat>)
      returns (finished: seq<LevelOutcome>, unsettledTimeout: bool)
      requires Alone() && config.Dag() && DistinctIds(calls) && LevelIn(executionLevel, |runnable|)
      requires Authorized(runnable, calls, level) && |planned| == |runnable|
      requires forall k :: 0 <= k < |runnable| ==> planned[k] == runnable[k].preparation.prepared.Final()
      requires P.ConflictFree(executionLevel, P.ResolveAll(planned, options))
      modifies this`trace, this`aborted
      ensures Quiet() && Onward(old(Where()).value, Where().value.Calm()) && (old(aborted) ==> aborted)
      ensures OutcomesOf(finished, calls) && |finished| == |executionLevel|
      ensures OutcomesJustified(finished, Where().value.ran)
      ensures forall k :: 0 <= k < |executionLevel| ==>
                finished[k].sourceIndex == runnable[executionLevel[k]].sourceIndex
      ensures !aborted && !unsettledTimeout ==> Alone()
      ensures unsettledTimeout ==> exists o :: o in finished && o.final.outcome.envelope.disposition == TimedOut
    {
      hide P.ConflictFree, C.ResolutionsConflict, Held, Follow, StartsAs, DistinctEntries, DistinctIds, Authorized;
      hide Settled, Compatible, P.ResolveAll, R.ResolveCall, FinalsJustified, OutcomesJustified, OutcomesOf, Unstarted;
      var entries := seq(|executionLevel|, k requires 0 <= k < |executionLevel| && executionLevel[k] < |runnable| =>
        runnable[executionLevel[k]].preparation);
      var chosen := seq(|executionLevel|, k requires 0 <= k < |executionLevel| && executionLevel[k] < |planned| =>
        Some(Planned(planned[executionLevel[k]], options)));
      var claims := ClaimsOfAll(chosen);
      LevelPlanned(executionLevel, planned, options, chosen);
      LevelEntries(runnable, executionLevel, calls, level, entries);
      var finals, adrift := RunConcurrently(entries, chosen, claims);
      var still := SettleLate(entries, claims, adrift);
      unsettledTimeout := exists k :: k in still && finals[k].outcome.envelope.disposition == TimedOut;
      finished := seq(|executionLevel|,
        k requires 0 <= k < |executionLevel| && executionLevel[k] < |runnable| && k < |finals| =>
          LevelOutcome(runnable[executionLevel[k]].sourceIndex, finals[k]));
      LevelFinished(runnable, executionLevel, calls, level, entries, finals, finished, Where().value.ran);
      if unsettledTimeout {
        var k :| k in still && finals[k].outcome.envelope.disposition == TimedOut;
        assert finished[k] in finished;
      } else if !aborted {
        assert still == {};
        HeldNothing(entries, claims, still);
      }
    }

    /** One candidate level runs, and its outcomes go to their slots. */
    method RunCandidateLevel(calls: seq<ToolCall>, levels: seq<seq<nat>>, c: nat, finalized: seq<Option<Final>>)
      returns (finalized': seq<Option<Final>>, terminates: bool, stopped: bool)
      requires Alone() && config.Dag() && DistinctIds(calls) && LevelsIn(levels, |calls|) && c < |levels|
      requires Filled(finalized, calls) && FilledFor(finalized, levels[..c])
      requires FilledJustified(finalized, Where().value.ran)
      modifies this`trace, this`aborted
      ensures Quiet() && Onward(old(Where()).value, Where().value.Calm()) && (old(aborted) ==> aborted)
      ensures Filled(finalized', calls) && FilledJustified(finalized', Where().value.ran)
      ensures !aborted && !stopped ==> Alone() && FilledFor(finalized', levels[..c + 1])
    {
      hide Follow, StartsAs, DistinctIds;
      assert LevelIn(levels[c], |calls|);
      var outcomes;
      outcomes, stopped := RunDagLevelCalls(calls, levels[c]);
      finalized' := RecordOutcomes(finalized, outcomes, calls);
      if !aborted && !stopped {
        forall k | 0 <= k < |levels[c]| ensures HasOutcome(outcomes, levels[c][k]) {
          assert levels[c][k] in levels[c];
        }
        FilledMore(finalized, finalized', levels, c);
      }
      terminates := ShouldTerminate(seq(|outcomes|, k requires 0 <= k < |outcomes| => outcomes[k].final));
    }

    method ExecuteToolCallsDagLevels(calls: seq<ToolCall>) returns (batch: Batch)
      requires Alone() && config.Dag() && DistinctIds(calls)
      modifies this`messages, this`trace, this`aborted
      ensures Added(old(Now()), Now().Calm(), batch.messages) && (!aborted && !batch.stopRun ==> Alone())
      ensures Answers(batch.messages, calls)
      ensures batch.stopRun ==> batch.terminate
      ensures ShouldTerminate(batch.finals) ==> batch.terminate
    {
      hide Follow, StartsAs, DistinctIds, FilledJustified, FilledFor, Covers, LevelsIn, P.ResolveAll, LevelsFree;
      var finalized: seq<Option<Final>> := seq(|calls|, i => None);
      var skipped: Option<string>, stopRun := None, false;
      var arguments: seq<R.Arguments> := *;
      if |arguments| != |calls| { arguments := seq(|calls|, i => R.NotPlain); }
      var levels, options := PlanLevels(seq(|calls|, i requires 0 <= i < |calls| && |arguments| == |calls| =>
        R.Call(calls[i].id, calls[i].name, arguments[i])));
      NothingFilled(finalized, calls, levels, Where().value.ran);
      ghost var cut := aborted;
      for c := 0 to |levels|
        invariant Quiet() && Onward(old(Where()).value, Where().value.Calm()) && (aborted || Alone())
        invariant messages == old(messages) && (old(aborted) || cut ==> aborted)
        invariant Filled(finalized, calls) && FilledFor(finalized, levels[..c])
        invariant FilledJustified(finalized, Where().value.ran)
        invariant skipped.None? && !stopRun
      {
        if aborted { break; }
        var terminates, stopped;
        finalized, terminates, stopped := RunCandidateLevel(calls, levels, c, finalized);
        if aborted { break; }
        if stopped {
          skipped := Some("Skipped because a preceding DAG tool timed out before its execution promise settled");
          stopRun := true;
          break;
        }
        if terminates {
          skipped := Some("Skipped because the preceding DAG level requested termination");
          break;
        }
      }
      assert levels[..|levels|] == levels;
      if !aborted && skipped.None? { AllFilled(finalized, calls, levels); }
      var results, finals := CollectResults(calls, finalized, aborted, skipped);
      ghost var middle := Now();
      PublishResults(results);
      AddedCalm(middle, Now(), results);
      AddedAfter(old(Now()), middle.Calm(), Now().Calm(), results);
      batch := Batch(results, finals, skipped.Some? || ShouldTerminate(finals), stopRun);
    }

    /** One aborted result for each call that has none; `existing` answers the first calls. */
    method CloseAbortedToolBatch(calls: seq<ToolCall>, existing: seq<Message>) returns (synthesized: seq<Message>)
      requires Quiet() && DistinctIds(calls)
      requires |existing| <= |calls| && Answers(existing, calls[..|existing|])
      modifies this`messages, this`trace, this`aborted
      ensures synthesized == Synthetics(calls[|existing|..], "Operation aborted")
      ensures Added(old(Now()), Now(), synthesized)
    {
      var resolvedIds := set m | m in existing && m.ToolResult? :: m.toolCallId;
      ExistingIds(existing, calls);
      synthesized := [];
      AddedNothing(Now());
      hide Added, IdsBefore, DistinctIds, Follow, StartsAs;
      for i := 0 to |calls|
        invariant resolvedIds == IdsBefore(calls, if i < |existing| then |existing| else i)
        invariant synthesized == if i < |existing| then [] else Synthetics(calls[|existing|..i], "Operation aborted")
        invariant Quiet() && Added(old(Now()), Now(), synthesized)
      {
        IdBefore(calls, i, if i < |existing| then |existing| else i);
        if calls[i].id in resolvedIds { continue; }
        var result := SyntheticResult(calls[i], "Operation aborted", Aborted);
        ghost var before := Now();
        PublishOne(result);
        AddedMore(old(Now()), before, Now(), synthesized, [result]);
        SyntheticsSnoc(calls, |existing|, i, "Operation aborted");
        synthesized := synthesized + [result];
        resolvedIds := resolvedIds + {calls[i].id};
      }
      assert calls[|existing|..|calls|] == calls[|existing|..];
    }

    method ExecuteToolCalls(calls: seq<ToolCall>) returns (batch: Batch)
      requires Alone() && DistinctIds(calls)
      modifies this`messages, this`trace, this`aborted
      ensures Added(old(Now()), Now().Calm(), batch.messages) && (!aborted && !batch.stopRun ==> Alone())
      ensures |batch.messages| <= |calls| && Answers(batch.messages, calls[..|batch.messages|])
      ensures |batch.messages| < |calls| ==> aborted
      ensures ShouldTerminate(batch.finals) ==> batch.terminate
      ensures batch.stopRun ==> config.Dag()
    {
      if config.Dag() {
        batch := ExecuteToolCallsDagLevels(calls);
        assert calls[..|calls|] == calls;
        return;
      }
      var hasSequentialToolCall: bool, slots: seq<W.Slot> := *, *;
      if |slots| != |calls| { slots := seq(|calls|, i => W.Solo); }
      var waves := W.WavesFrom(slots, 0);
      W.GreedyPartition(slots, 0);
      if config.sequentialExecution || hasSequentialToolCall || forall w :: w in waves ==> |w| == 1 {
        batch := ExecuteToolCallsSequential(calls);
      } else if |waves| == 1 {
        batch := ExecuteToolCallsParallel(calls);
      } else {
        batch := ExecuteToolCallsInWaves(calls, waves, slots);
      }
      FinalsAnswer(batch.finals, calls[..|batch.finals|]);
    }

    // ------------------------------------------------------------ one turn

    /** Between two awaits of the loop: everything published is new, and the context is accounted for. */
    ghost predicate Steady()
      reads `messages, `newMessages, `trace
    {
      Where().Some? && Where().value.published == newMessages && Accounted()
    }

    ghost predicate Accounted()
      reads `messages, `newMessages
    {
      (!config.prepareNextTurn ==> messages == base + newMessages) && (Trusting() ==> Clean(messages))
    }

    method StreamAssistantResponse() returns (reply: Reply)
      requires Quiet()
      modifies this`messages, this`trace, this`aborted
      ensures reply.RequestRefused? <==> !Clean(old(messages))
      ensures reply.RequestRefused? || reply.TransformRefused? ==> messages == old(messages) && trace == old(trace)
      ensures reply.Replied? ==>
                reply.message.Assistant? && Where() == Some(old(Where()).value.Publish([reply.message]))
                && messages == old(messages) + [reply.message]
      ensures reply.ProviderThrew? ==>
                Where().Some? && Where().value.stage.InTurn? && Where().value.published == old(Where()).value.published
    {
      var integrity := InspectTranscriptIntegrity(messages);
      if !integrity.ok { return RequestRefused; }
      var transformed: Option<seq<Message>> := *;
      Await();
      if transformed.Some? {
        var transformedIntegrity := InspectTranscriptIntegrity(transformed.value);
        if !transformedIntegrity.ok { return TransformRefused; }
      }
      reply := ReceiveReply();
    }

    /** The response stream: it may fail at once, fail after partial messages, or end with the final message. */
    method ReceiveReply() returns (reply: Reply)
      requires Quiet()
      modifies this`messages, this`trace, this`aborted
      ensures reply.Replied? || reply.ProviderThrew?
      ensures reply.Replied? ==>
                reply.message.Assistant? && Where() == Some(old(Where()).value.Publish([reply.message]))
                && messages == old(messages) + [reply.message]
      ensures reply.ProviderThrew? ==>
                Where().Some? && Where().value.stage.InTurn? && Where().value.published == old(Where()).value.published
    {
      var throwsAtOnce: bool, streams: bool, throwsLater: bool := *, *, *;
      if throwsAtOnce { return ProviderThrew; }
      var content: seq<Block>, stopReason: StopReason, errorMessage: Option<string> := *, *, *;
      var message := Assistant(content, stopReason, errorMessage);
      if streams {
        StreamPartials();
        if throwsLater { return ProviderThrew; }
        messages := messages[|messages| - 1 := message];
      } else {
        messages := messages + [message];
        Emit(MessageStart(message));
      }
      assert messages == old(messages) + [message];
      EmitMessageEnd(message);
      reply := Replied(message);
    }

    method EmitMessageEnd(m: Message)
      requires Where().Some? && Where().value.stage.InTurn? && Where().value.streaming && Where().value.running == {}
      modifies this`trace, this`aborted
      ensures Where() == Some(old(Where()).value.(streaming := false).Publish([m])) && (old(aborted) ==> aborted)
    {
      Emit(MessageEnd(m));
    }

    /** The partial message stays last in the context while it is replaced by longer ones. */
    method StreamPartials()
      requires Quiet()
      modifies this`messages, this`trace, this`aborted
      ensures |messages| == |old(messages)| + 1 && messages[..|old(messages)|] == old(messages)
      ensures Where() == Some(old(Where()).value.(streaming := true)) && (old(aborted) ==> aborted)
    {
      var content: seq<Block> := *;
      var partial := Assistant(content, Stop, None);
      messages := messages + [partial];
      Emit(MessageStart(partial));
      var updates: seq<seq<Block>> := *;
      for i := 0 to |updates|
        invariant |messages| == |old(messages)| + 1 && messages[..|old(messages)|] == old(messages)
        invariant Where() == Some(old(Where()).value.(streaming := true)) && (old(aborted) ==> aborted)
      {
        var longer := Assistant(updates[i], Stop, None);
        messages := messages[|messages| - 1 := longer];
        Emit(MessageUpdate(longer));
      }
    }

    /** Steering or follow-up messages enter the context before the next request. */
    method Inject(pending: seq<Message>, ghost from: Origin)
      requires Alone() && Steady() && Fed(pending, from)
      modifies this`messages, this`newMessages, this`origins, this`trace, this`aborted
      ensures Alone() && Steady() && Fed([], Own)
      ensures newMessages == old(newMessages) + pending && origins == old(origins) + All(from, |pending|)
    {
      hide Clean, OnlyMissing, From;
      InjectAll(pending);
      origins := origins + All(from, |pending|);
      FromInjected(old(newMessages), old(origins), pending, from, Steering, steering.drained, steeredBefore);
      FromInjected(old(newMessages), old(origins), pending, from, FollowUp, followUp.drained, followedBefore);
    }

    method InjectAll(pending: seq<Message>)
      requires Alone() && Steady() && (Trusting() ==> AllPlain(pending))
      modifies this`messages, this`newMessages, this`trace, this`aborted
      ensures Alone() && Steady()
      ensures newMessages == old(newMessages) + pending
    {
      hide Clean, OnlyMissing;
      for i := 0 to |pending|
        invariant Alone() && Steady()
        invariant newMessages == old(newMessages) + pending[..i]
      {
        assert pending[..i + 1] == pending[..i] + [pending[i]];
        InjectOne(pending[i]);
      }
      assert pending[..|pending|] == pending;
    }

    method InjectOne(m: Message)
      requires Alone() && Steady() && (Trusting() ==> Plain(m))
      modifies this`messages, this`newMessages, this`trace, this`aborted
      ensures Alone() && Steady() && newMessages == old(newMessages) + [m]
    {
      hide Clean, Follow, StartsAs, Advance;
      if Trusting() { PlainAppend(messages, m); }
      assert base + newMessages + [m] == base + (newMessages + [m]);
      EmitMessage(m);
      messages := messages + [m];
      newMessages := newMessages + [m];
    }

    /** turn_end and, when the run stops here, agent_end. */
    method CloseTurn(m: Message, results: seq<Message>, stop: bool)
      requires Quiet() && m.Assistant? && Answers(results, CallsOf(m))
      requires Where().value.published == newMessages && TailIs(Where().value.inTurn, [m] + results)
      requires Justified(results, Where().value.ran)
      modifies this`trace, this`aborted
      ensures Where().Some? && Where().value.published == newMessages
      ensures if stop then Where().value.stage.Ended? else old(Alone()) ==> AtRest()
    {
      Emit(TurnEnd(m, results));
      if stop { Emit(AgentEnd(newMessages)); }
    }

    /** The results of a reply's calls: run, closed after an abort, or never started. */
    method AnswerCalls(m: Message) returns (toolResults: seq<Message>, more: bool, stop: bool)
      requires Alone() && m.Assistant? && DistinctIds(CallsOf(m))
      modifies this`messages, this`trace, this`aborted
      ensures Added(old(Now()), Now().Calm(), toolResults) && Answers(toolResults, CallsOf(m))
      ensures stop || Alone()
      ensures CallsOf(m) == [] ==> !more
      ensures m.stopReason.ProviderError? || m.stopReason.ProviderAborted? ==> stop
    {
      var toolCalls := CallsOf(m);
      toolResults, more, stop := [], false, false;
      AddedNothing(Now());
      if m.stopReason.ProviderError? || m.stopReason.ProviderAborted? {
        toolResults := ProviderTerminated(m, toolCalls);
        return toolResults, false, true;
      }
      if |toolCalls| == 0 { return; }
      var executed := ExecuteToolCalls(toolCalls);
      toolResults, more, stop := executed.messages, !executed.terminate, executed.stopRun;
      if aborted {
        ghost var middle := Now();
        var synthesized := CloseAbortedToolBatch(toolCalls, toolResults);
        AddedCalm(middle, Now(), synthesized);
        AddedMore(old(Now()), middle.Calm(), Now().Calm(), toolResults, synthesized);
        SyntheticsAnswer(toolCalls[|toolResults|..], "Operation aborted");
        AnswersAppend(toolResults, synthesized, toolCalls, |toolResults|);
        return toolResults + synthesized, more, true;
      }
      assert toolCalls[..|toolCalls|] == toolCalls;
    }

    /** The rest of a turn whose reply passed the check for ambiguous output. */
    method AnswerReply(m: Message, ghost context: seq<Message>) returns (r: TurnResult, toolResults: seq<Message>)
      requires Alone() && m.Assistant? && Clean(context) && messages == context + [m] && DistinctCalls(messages)
      requires Where().value.published == newMessages && TailIs(Where().value.inTurn, [m])
      requires !config.prepareNextTurn ==> messages == base + newMessages
      modifies this`messages, this`newMessages, this`origins, this`trace, this`aborted
      ensures Steady() && Clean(messages) && Answers(toolResults, CallsOf(m))
      ensures messages == context + [m] + toolResults
      ensures newMessages == old(newMessages) + toolResults && origins == old(origins) + All(Own, |toolResults|)
      ensures r == Finished(Stopped(false)) || r.Proceed?
      ensures if r.Proceed? then AtRest() else Where().value.stage.Ended?
    {
      hide Clean, OnlyMissing;
      DistinctIdsOf(context, m);
      var more, stop;
      toolResults, more, stop := AnswerCalls(m);
      EndTurn(m, context, toolResults, old(Where()).value, stop);
      r := if stop then Finished(Stopped(false)) else Proceed(more);
    }

    method EndTurn(m: Message, ghost context: seq<Message>, toolResults: seq<Message>, ghost replied: Position, stop: bool)
      requires m.Assistant? && Clean(context) && DistinctCalls(context + [m]) && Answers(toolResults, CallsOf(m))
      requires messages == context + [m] + toolResults
      requires Quiet() && Onward(replied.Publish(toolResults), Where().value.Calm()) && (stop || Alone())
      requires Justified(toolResults, Where().value.ran)
      requires replied.published == newMessages && TailIs(replied.inTurn, [m])
      requires !config.prepareNextTurn ==> context + [m] == base + newMessages
      modifies this`newMessages, this`origins, this`trace, this`aborted
      ensures newMessages == old(newMessages) + toolResults && origins == old(origins) + All(Own, |toolResults|)
      ensures Steady() && Clean(messages)
      ensures if stop then Where().value.stage.Ended? else AtRest()
    {
      hide Clean, OnlyMissing;
      assert base + newMessages + toolResults == base + (newMessages + toolResults);
      TailMore(replied.inTurn, m, toolResults);
      newMessages, origins := newMessages + toolResults, origins + All(Own, |toolResults|);
      CloseTurn(m, toolResults, stop);
      TurnCloses(context, m, toolResults);
    }

    /** The provider ended with an error or an abort: its calls are never run. */
    method ProviderTerminated(m: Message, calls: seq<ToolCall>) returns (results: seq<Message>)
      requires Quiet() && m.Assistant?
      modifies this`messages, this`trace, this`aborted
      ensures Added(old(Now()), Now(), results) && Answers(results, calls)
      ensures forall k :: 0 <= k < |calls| ==>
                results[k].envelope.Some? && !results[k].envelope.value.executionStarted
                && results[k].envelope.value.disposition == if m.stopReason.ProviderAborted? then Aborted else Skipped
    {
      var reason := if m.stopReason.ProviderAborted? then "Operation aborted"
                    else "Skipped because the provider terminated before tool execution";
      var disposition := if m.stopReason.ProviderAborted? then Aborted else Skipped;
      results := seq(|calls|, k requires 0 <= k < |calls| => SyntheticResult(calls[k], reason, disposition));
      PublishResults(results);
    }

    /** What every way out of a turn or of the run leaves behind. */
    ghost predicate Explains(end: RunEnd)
      reads `messages, `newMessages, `trace, steering, followUp
    {
      && Where().Some? && Where().value.published == newMessages
      && (end.Stopped? <==> Where().value.stage.Ended?)
      && match end
         case Stopped(exhausted) => Steady() && (exhausted ==> steering.messages == [] && followUp.messages == [])
         case OutOfFuel => Steady() && AtRest()
         case NoReply(reply) =>
           && !reply.Replied?
           && (reply.RequestRefused? ==> !Trusting() && !Clean(messages))
           && (!config.prepareNextTurn && Trusting() ==> Clean(base + newMessages))
         case EmittedRefused => !OnlyMissing(messages) && (!config.prepareNextTurn ==> messages == base + newMessages)
    }

    /** How a turn ends. */
    ghost predicate TurnEnded(r: TurnResult)
      reads `messages, `newMessages, `trace, steering, followUp
    {
      if r.Proceed? then Steady() && AtRest()
      else r.end != OutOfFuel && r.end != Stopped(true) && Explains(r.end)
    }

    /** One pass of the inner loop up to the hooks; what follows the injected messages is the run's own. */
    method Turn(pending: seq<Message>, ghost from: Origin, first: bool) returns (r: TurnResult)
      requires Steady() && Fed(pending, from) && if first then Alone() else AtRest()
      modifies this`messages, this`newMessages, this`origins, this`trace, this`aborted
      ensures TurnEnded(r) && Fed([], Own)
      ensures old(newMessages) + pending <= newMessages && old(origins) + All(from, |pending|) <= origins
      ensures |origins| > |old(origins)| + |pending| ==> origins[|old(origins)| + |pending|] == Own
      ensures r.Proceed? ==> |origins| > |old(origins)| + |pending|
    {
      hide Clean, OnlyMissing;
      if !first { Emit(TurnStart); }
      Inject(pending, from);
      ghost var injected := origins;
      ghost var own;
      r, own := Respond();
      assert own > 0 ==> (injected + All(Own, own))[|injected|] == Own;
    }

    /** A request and its reply, which joins the context and the run's messages. */
    method Request() returns (reply: Reply)
      requires Steady() && Alone()
      modifies this`messages, this`newMessages, this`origins, this`trace, this`aborted
      ensures reply.Replied? ==>
                && reply.message.Assistant? && Clean(old(messages)) && Alone()
                && messages == old(messages) + [reply.message] && newMessages == old(newMessages) + [reply.message]
                && Where().value.published == newMessages && TailIs(Where().value.inTurn, [reply.message])
                && (!config.prepareNextTurn ==> messages == base + newMessages)
      ensures !reply.Replied? ==> newMessages == old(newMessages) && Explains(NoReply(reply))
      ensures origins == if reply.Replied? then old(origins) + [Own] else old(origins)
    {
      hide Clean, OnlyMissing;
      assert !config.prepareNextTurn && Trusting() ==> Clean(base + newMessages);
      reply := StreamAssistantResponse();
      if reply.Replied? {
        assert base + newMessages + [reply.message] == base + (newMessages + [reply.message]);
        newMessages, origins := newMessages + [reply.message], origins + [Own];
      }
    }

    /** The provider's reply, the check that it is unambiguous, and its tool calls. */
    method Respond() returns (r: TurnResult, ghost own: nat)
      requires Steady() && Alone() && Fed([], Own)
      modifies this`messages, this`newMessages, this`origins, this`trace, this`aborted
      ensures TurnEnded(r) && Fed([], Own) && old(newMessages) <= newMessages
      ensures origins == old(origins) + All(Own, own) && (r.Proceed? ==> own > 0)
    {
      hide Clean, OnlyMissing, From, Follow, StartsAs, AllPlain, Explains, Steady, AtRest, DistinctCalls, Answers, All;
      ghost var context, before := messages, newMessages;
      own := 0;
      var reply := Request();
      OwnMore(old(origins), 0);
      if !reply.Replied? { return Finished(NoReply(reply)), 0; }
      RepliesFed(old(origins), before, [reply.message]);
      r, own := CheckAndAnswer(reply.message, context, old(origins), before);
      own := 1 + own;
    }

    /** A reply that has joined the context is checked, and its calls are answered. */
    method CheckAndAnswer(m: Message, ghost context: seq<Message>, ghost tags: seq<Origin>, ghost before: seq<Message>)
      returns (r: TurnResult, ghost results: nat)
      requires Alone() && m.Assistant? && Clean(context) && messages == context + [m]
      requires newMessages == before + [m] && |tags| == |before| && origins == tags + [Own] && Fed([], Own)
      requires Where().value.published == newMessages && TailIs(Where().value.inTurn, [m])
      requires !config.prepareNextTurn ==> messages == base + newMessages
      modifies this`messages, this`newMessages, this`origins, this`trace, this`aborted
      ensures TurnEnded(r) && Fed([], Own) && before <= newMessages
      ensures origins == tags + All(Own, 1 + results)
    {
      hide Clean, OnlyMissing, From, Follow, StartsAs, AllPlain, Explains, Steady, AtRest, DistinctCalls, Answers, All;
      results := 0;
      OwnMore(tags, 0);
      RepliesFed(tags, before, [m]);
      var ambiguous := RefuseAmbiguity();
      if ambiguous {
        AmbiguityExplains();
        return Finished(EmittedRefused), 0;
      }
      ReplyAmbiguity(context, m);
      var toolResults;
      r, toolResults := AnswerReply(m, context);
      if r.Finished? { StopExplains(); }
      results := |toolResults|;
      OwnMore(tags, results);
      assert before + [m] + toolResults == before + ([m] + toolResults);
      RepliesFed(tags, before, [m] + toolResults);
    }

    lemma StopExplains()
      requires Steady() && Where().value.stage.Ended?
      ensures Explains(Stopped(false))
    {
    }

    lemma AmbiguityExplains()
      requires Quiet() && Where().value.published == newMessages && !OnlyMissing(messages)
      requires !config.prepareNextTurn ==> messages == base + newMessages
      ensures Explains(EmittedRefused)
    {
    }

    /** The run's own messages change nothing for the queues. */
    lemma RepliesFed(tags: seq<Origin>, before: seq<Message>, own: seq<Message>)
      requires |tags| == |before| && newMessages == before + own && origins == tags + All(Own, |own|)
      ensures Taken(Steering) == From(before, tags, Steering) && Taken(FollowUp) == From(before, tags, FollowUp)
    {
      FromMore(before, tags, own, Own, Steering);
      FromMore(before, tags, own, Own, FollowUp);
    }

    method RefuseAmbiguity() returns (ambiguous: bool)
      ensures ambiguous <==> !OnlyMissing(messages)
    {
      var emittedIntegrity := InspectTranscriptIntegrity(messages);
      ambiguous := exists i :: i in emittedIntegrity.issues && i.kind != MissingResult;
    }

    /** prepareNextTurn, when there is such a hook, may replace the context. */
    method PrepareNextTurn()
      requires Steady() && AtRest()
      modifies this`messages, this`aborted
      ensures Steady() && AtRest() && (old(aborted) ==> aborted)
    {
      hide Clean, OnlyMissing;
      if !config.prepareNextTurn { return; }
      var snapshot: Option<seq<Message>> := *;
      Await();
      if snapshot.Some? && promises.cleanHooks {
        var integrity := InspectTranscriptIntegrity(snapshot.value);
        if !integrity.ok { snapshot := None; }
      }
      if snapshot.Some? { messages := snapshot.value; }
    }

    /** agent_start, the first turn_start, and the prompts, which are already in the context. */
    method Begin()
      requires Where() == Some(BEGIN) && Accounted()
      modifies this`trace, this`aborted
      ensures Steady() && Alone()
    {
      hide Clean, OnlyMissing, Follow, StartsAs;
      Emit(AgentStart);
      Emit(TurnStart);
      for i := 0 to |newMessages|
        invariant Alone() && Where().value.published == newMessages[..i]
        invariant Accounted()
      {
        EmitMessage(newMessages[i]);
        assert newMessages[..i + 1] == newMessages[..i] + [newMessages[i]];
      }
      assert newMessages[..|newMessages|] == newMessages;
    }

    method EndRun(exhausted: bool) returns (end: RunEnd)
      requires Steady() && AtRest() && (exhausted ==> steering.messages == [] && followUp.messages == [])
      modifies this`trace, this`aborted
      ensures end == Stopped(exhausted) && Explains(end)
    {
      hide Clean, OnlyMissing;
      Emit(AgentEnd(newMessages));
      end := Stopped(exhausted);
    }

    /** prepareNextTurn, shouldStopAfterTurn, and the steering queue. */
    method AfterTurn() returns (stopped: bool, pendingMessages: seq<Message>)
      requires Steady() && AtRest() && Fed([], Own)
      modifies this`messages, this`trace, this`aborted, steering
      ensures old(steering.entered) <= steering.entered
      ensures if stopped then Explains(Stopped(false)) && Fed([], Own)
              else Steady() && AtRest() && Fed(pendingMessages, Steering)
                   && (pendingMessages == [] ==> steering.messages == [])
    {
      hide Clean, OnlyMissing;
      PrepareNextTurn();
      stopped := *;
      pendingMessages := [];
      Await();
      if stopped {
        var end := EndRun(false);
      } else {
        pendingMessages := PollSteering();
      }
    }

    /** What the loop keeps from one pass to the next. */
    ghost predicate Looping(firstTurn: bool, pendingMessages: seq<Message>, from: Origin)
      reads `messages, `newMessages, `origins, `trace, steering, followUp
    {
      Steady() && Fed(pendingMessages, from) && if firstTurn then Alone() else AtRest()
    }

    /** The first poll, unless the caller has just drained the steering queue. */
    method FirstPoll(skipInitialSteeringPoll: bool) returns (pendingMessages: seq<Message>)
      requires Fed([], Own)
      modifies steering, this`aborted
      ensures Fed(pendingMessages, Steering) && (skipInitialSteeringPoll ==> pendingMessages == [])
      ensures old(steering.entered) <= steering.entered
    {
      pendingMessages := [];
      if skipInitialSteeringPoll {
        Await();
      } else {
        pendingMessages := PollSteering();
      }
    }

    lemma NothingPending(from: Origin)
      requires Fed([], from)
      ensures Fed([], Own) && steering != followUp && steering.Valid() && followUp.Valid()
      ensures |origins| == |newMessages|
    {
    }

    lemma FuelGone(pending: seq<Message>, from: Origin)
      requires Steady() && AtRest() && Fed(pending, from)
      ensures Explains(OutOfFuel) && steering.Valid() && followUp.Valid() && |origins| == |newMessages|
    {
    }

    /** One pass of the inner loop. */
    method Pass(pendingMessages: seq<Message>, ghost from: Origin, firstTurn: bool)
      returns (result: TurnResult, next: seq<Message>)
      requires Looping(firstTurn, pendingMessages, from)
      modifies this`messages, this`newMessages, this`origins, this`trace, this`aborted, steering
      ensures if result.Proceed? then Looping(false, next, Steering) && (next == [] ==> steering.messages == [])
              else result.end != OutOfFuel && Explains(result.end) && Fed([], Own)
      ensures old(newMessages) <= newMessages && old(steering.entered) <= steering.entered
      ensures old(origins) + All(from, |pendingMessages|) <= origins
      ensures |origins| > |old(origins)| + |pendingMessages| ==> origins[|old(origins)| + |pendingMessages|] == Own
      ensures result.Proceed? ==> |origins| > |old(origins)| + |pendingMessages|
    {
      hide Clean, OnlyMissing, Fed, Steady, AtRest, Alone, Explains, From, All, Follow, StartsAs, AllPlain, PendingMessageQueue.Valid;
      result := Turn(pendingMessages, from, firstTurn);
      next := [];
      if result.Proceed? {
        var stopped;
        stopped, next := AfterTurn();
        if stopped { result := Finished(Stopped(false)); }
      }
    }

    /** `fuel` bounds the number of provider requests; everything holds at any bound. */
    method RunLoop(fuel: nat, skipInitialSteeringPoll: bool) returns (end: RunEnd)
      requires Steady() && Alone() && Fed([], Own) && fuel > 0
      modifies this`messages, this`newMessages, this`origins, this`trace, this`aborted, steering, followUp
      ensures Explains(end) && (end != OutOfFuel ==> Fed([], Own))
      ensures steering.Valid() && followUp.Valid() && |origins| == |newMessages|
      ensures old(newMessages) <= newMessages && old(origins) <= origins
      ensures skipInitialSteeringPoll && |origins| > |old(origins)| ==> origins[|old(origins)|] == Own
      ensures old(steering.entered) <= steering.entered && old(followUp.entered) <= followUp.entered
    {
      hide Clean, OnlyMissing, Fed, Steady, AtRest, Alone, Explains, From, All, Follow, StartsAs, AllPlain, PendingMessageQueue.Valid;
      var firstTurn: bool, left: nat := true, fuel;
      ghost var from := Steering;
      var pendingMessages := FirstPoll(skipInitialSteeringPoll);
      while true
        invariant Looping(firstTurn, pendingMessages, from)
        invariant old(newMessages) <= newMessages && FirstOwn(skipInitialSteeringPoll, old(origins), origins, firstTurn)
        invariant old(steering.entered) <= steering.entered && old(followUp.entered) <= followUp.entered
        invariant !firstTurn ==> |origins| > |old(origins)|
        invariant firstTurn ==> left == fuel > 0 && (skipInitialSteeringPoll ==> pendingMessages == [])
        decreases left
      {
        var hasMoreToolCalls := true;
        ghost var before := left;
        while hasMoreToolCalls || |pendingMessages| > 0
          invariant Looping(firstTurn, pendingMessages, from)
          invariant old(newMessages) <= newMessages && FirstOwn(skipInitialSteeringPoll, old(origins), origins, firstTurn)
          invariant old(steering.entered) <= steering.entered && old(followUp.entered) <= followUp.entered
          invariant !firstTurn ==> |origins| > |old(origins)|
          invariant firstTurn ==> left == fuel > 0 && (skipInitialSteeringPoll ==> pendingMessages == [])
          invariant left < before || (left == before && hasMoreToolCalls)
          invariant !hasMoreToolCalls && |pendingMessages| == 0 ==> steering.messages == []
          decreases left
        {
          if left == 0 {
            FuelGone(pendingMessages, from);
            return OutOfFuel;
          }
          ghost var was, injected := origins, |pendingMessages|;
          var result;
          result, pendingMessages := Pass(pendingMessages, from, firstTurn);
          OwnStaysFirst(skipInitialSteeringPoll, old(origins), was, origins, from, injected, firstTurn);
          firstTurn := false;
          left := left - 1;
          if result.Finished? {
            NothingPending(Own);
            return result.end;
          }
          hasMoreToolCalls := result.hasMoreToolCalls;
          from := Steering;
        }
        NothingPending(from);
        from := FollowUp;
        pendingMessages := PollFollowUp();
        if |pendingMessages| == 0 { break; }
      }
      NothingPending(from);
      end := EndRun(true);
    }
  }
}
