/** The public entry points of packages/agent/src/agent-loop.ts: every stream ends, and ends coherently. */
module AgentStream {
  import opened Transcript
  import opened Repair
  import opened Turns
  import opened Queues
  import opened Events
  import opened ToolBatches
  import opened AgentLoop

  /** What a run did with its two queues: what it took is among its messages, and nothing was lost or reordered. */
  ghost predicate Served(run: AgentRun, steering0: seq<Message>, drained0: seq<Message>,
                         followUp0: seq<Message>, followed0: seq<Message>)
    reads run, run.steering, run.followUp
  {
    && run.steering != run.followUp && run.steering.Valid() && run.followUp.Valid()
    && |run.origins| == |run.newMessages|
    && run.steering.drained == drained0 + run.Taken(Steering)
    && run.followUp.drained == followed0 + run.Taken(FollowUp)
    && steering0 <= run.Taken(Steering) + run.steering.messages
    && followUp0 <= run.Taken(FollowUp) + run.followUp.messages
  }

  lemma NothingLost(drained0: seq<Message>, queued0: seq<Message>, taken: seq<Message>, queued: seq<Message>)
    requires drained0 + queued0 <= drained0 + taken + queued
    ensures queued0 <= taken + queued
  {
    var more := drained0 + taken + queued;
    assert more[|drained0|..] == taken + queued;
    assert more[..|drained0 + queued0|][|drained0|..] == queued0;
  }

  lemma FedServes(run: AgentRun, steering0: seq<Message>, drained0: seq<Message>,
                  followUp0: seq<Message>, followed0: seq<Message>)
    requires run.Fed([], Own) && run.steeredBefore == drained0 && run.followedBefore == followed0
    requires drained0 + steering0 <= run.steering.entered && followed0 + followUp0 <= run.followUp.entered
    ensures Served(run, steering0, drained0, followUp0, followed0)
  {
    NothingLost(drained0, steering0, run.Taken(Steering), run.steering.messages);
    NothingLost(followed0, followUp0, run.Taken(FollowUp), run.followUp.messages);
  }

  /** The prompts are published before the first request. From a clean context with tool-free prompts and queues, and
      hooks that keep it clean, the provider request is never refused. */
  method RunAgentLoop(config: Config, promises: Promises, steering: PendingMessageQueue, followUp: PendingMessageQueue,
                      context: seq<Message>, prompts: seq<Message>, aborted: bool, skipInitialSteeringPoll: bool, fuel: nat)
    returns (run: AgentRun, end: RunEnd)
    requires steering != followUp && steering.Valid() && followUp.Valid() && fuel > 0
    modifies steering, followUp
    ensures fresh(run) && run.base == context && run.config == config && run.steering == steering && run.followUp == followUp
    ensures prompts <= run.newMessages && run.Explains(end)
    ensures run.Trusting() <==>
              Trusted(config, promises, context + prompts, old(steering.messages), old(followUp.messages))
    ensures Trusted(config, promises, context, old(steering.messages), old(followUp.messages)) && AllPlain(prompts) ==>
              run.Trusting() && end != NoReply(RequestRefused)
    ensures steering.Valid() && followUp.Valid()
    ensures end != OutOfFuel ==>
              Served(run, old(steering.messages), old(steering.drained), old(followUp.messages), old(followUp.drained))
    ensures All(Prompted, |prompts|) <= run.origins && |run.origins| == |run.newMessages|
    ensures skipInitialSteeringPoll && |run.origins| > |prompts| ==> run.origins[|prompts|] == Own
  {
    hide Clean, OnlyMissing;
    hide AllPlain, AgentRun.Fed, AgentRun.Steady, From, Follow, Served;
    run := new AgentRun(config, promises, steering, followUp, context, prompts, aborted);
    if Clean(context) && AllPlain(prompts) { PlainMessagesAppend(context, prompts); }
    run.Begin();
    end := run.RunLoop(fuel, skipInitialSteeringPoll);
    if end != OutOfFuel {
      FedServes(run, old(steering.messages), old(steering.drained), old(followUp.messages), old(followUp.drained));
    }
  }

  /** Continuing is refused exactly for an empty context or one that does not inspect clean. */
  method RunAgentLoopContinue(config: Config, promises: Promises, steering: PendingMessageQueue,
                              followUp: PendingMessageQueue, context: seq<Message>, aborted: bool, fuel: nat)
    returns (started: bool, run: AgentRun?, end: RunEnd)
    requires steering != followUp && steering.Valid() && followUp.Valid() && fuel > 0
    modifies steering, followUp
    ensures started <==> |context| > 0 && Clean(context)
    ensures started <==> run != null
    ensures started ==> fresh(run) && run.base == context && run.config == config && run.Explains(end)
    ensures started ==> run.steering == steering && run.followUp == followUp
    ensures started ==>
              (run.Trusting() <==> Trusted(config, promises, context, old(steering.messages), old(followUp.messages)))
    ensures started && Trusted(config, promises, context, old(steering.messages), old(followUp.messages)) ==>
              end != NoReply(RequestRefused)
    ensures steering.Valid() && followUp.Valid()
    ensures !started ==> unchanged(steering) && unchanged(followUp)
    ensures started && end != OutOfFuel ==>
              Served(run, old(steering.messages), old(steering.drained), old(followUp.messages), old(followUp.drained))
  {
    hide OnlyMissing;
    started, run, end := false, null, OutOfFuel;
    if |context| == 0 { return; }
    var report := InspectTranscriptIntegrity(context);
    if !report.ok { return; }
    started := true;
    assert context + [] == context;
    run, end := RunAgentLoop(config, promises, steering, followUp, context, [], aborted, false, fuel);
  }

  // ---------------------------------------------------------------- the stream of events

  function Published(ms: seq<Message>): seq<Event> {
    if |ms| == 0 then []
    else Published(ms[..|ms| - 1]) + [MessageStart(ms[|ms| - 1]), MessageEnd(ms[|ms| - 1])]
  }

  lemma {:induction false} MessageEndsAppend(a: seq<Event>, b: seq<Event>)
    ensures MessageEnds(a + b) == MessageEnds(a) + MessageEnds(b)
  {
    if |b| == 0 {
      assert a + b == a;
    } else {
      var n := |b| - 1;
      MessageEndsAppend(a, b[..n]);
      MessageEndsSnoc(a + b[..n], b[n]);
      assert a + b[..n] + [b[n]] == a + b;
    }
  }

  lemma PublishedOne(before: seq<Event>, m: Message)
    ensures MessageEnds(before + [MessageStart(m), MessageEnd(m)]) == MessageEnds(before) + [m]
  {
    MessageEndsSnoc(before, MessageStart(m));
    MessageEndsSnoc(before + [MessageStart(m)], MessageEnd(m));
    assert before + [MessageStart(m), MessageEnd(m)] == before + [MessageStart(m)] + [MessageEnd(m)];
  }

  lemma {:induction false} PublishedEnds(ms: seq<Message>)
    ensures MessageEnds(Published(ms)) == ms
    ensures forall k :: 0 <= k < |Published(ms)| ==> !Published(ms)[k].AgentEnd?
  {
    if |ms| > 0 {
      var n := |ms| - 1;
      PublishedEnds(ms[..n]);
      PublishedOne(Published(ms[..n]), ms[n]);
    }
  }

  /** The only agent_end is the last event, and it carries exactly the messages that were ended. */
  ghost predicate EndsCoherently(stream: seq<Event>) {
    && |stream| > 0 && stream[|stream| - 1] == AgentEnd(MessageEnds(stream))
    && forall k :: 0 <= k < |stream| - 1 ==> !stream[k].AgentEnd?
  }

  function Termination(plan: FailurePlan): seq<Event> {
    Published(plan.closureResults)
    + (if plan.failureMessage.Some? then
         Published([plan.failureMessage.value]) + [TurnEnd(plan.failureMessage.value, [])]
       else [])
    + [AgentEnd(plan.messages)]
  }

  lemma FailureEnds(m: Message)
    ensures var events := Published([m]) + [TurnEnd(m, [])];
            MessageEnds(events) == [m] && forall k :: 0 <= k < |events| ==> !events[k].AgentEnd?
  {
    PublishedEnds([m]);
    MessageEndsSnoc(Published([m]), TurnEnd(m, []));
  }

  lemma TerminationEnds(plan: FailurePlan)
    ensures var tail := Termination(plan);
            && MessageEnds(tail) ==
               plan.closureResults + (if plan.failureMessage.Some? then [plan.failureMessage.value] else [])
            && tail[|tail| - 1] == AgentEnd(plan.messages)
            && forall k :: 0 <= k < |tail| - 1 ==> !tail[k].AgentEnd?
  {
    var closure := Published(plan.closureResults);
    PublishedEnds(plan.closureResults);
    var failure: seq<Event> := [];
    if plan.failureMessage.Some? {
      FailureEnds(plan.failureMessage.value);
      failure := Published([plan.failureMessage.value]) + [TurnEnd(plan.failureMessage.value, [])];
    }
    MessageEndsAppend(closure, failure);
    MessageEndsSnoc(closure + failure, AgentEnd(plan.messages));
    assert Termination(plan) == closure + failure + [AgentEnd(plan.messages)];
  }

  /** What is still pushed when the run was rejected. */
  method EndStreamWithFailure(trace: seq<Event>, error: string, aborted: bool) returns (stream: seq<Event>)
    requires forall k :: 0 <= k < |trace| ==> !trace[k].AgentEnd?
    ensures trace <= stream && EndsCoherently(stream)
    ensures var completed := MessageEnds(trace);
            MessageEnds(stream) ==
            if OnlyMissing(completed) then Repaired(completed, TERMINATED) + [FailureMessage(error, aborted)]
            else completed
    ensures OnlyMissing(MessageEnds(trace)) ==> Clean(MessageEnds(stream))
  {
    hide Clean, OnlyMissing;
    var completedMessages := MessageEnds(trace);
    var plan := PlanFailureTermination(completedMessages, error, aborted);
    stream := trace + Termination(plan);
    TerminationEnds(plan);
    MessageEndsAppend(trace, Termination(plan));
    if OnlyMissing(completedMessages) {
      FailurePlanClean(completedMessages, error, aborted);
      assert completedMessages + plan.closureResults + [FailureMessage(error, aborted)]
          == completedMessages + (plan.closureResults + [FailureMessage(error, aborted)]);
    }
  }

  /** agentLoop: whatever the environment does, a stream that ends does so with one agent_end event that carries every
      message published on it, and its failure message is only ever added to closed turns. */
  method RunStream(config: Config, promises: Promises, steering: PendingMessageQueue, followUp: PendingMessageQueue,
                   context: seq<Message>, prompts: seq<Message>, aborted: bool, fuel: nat, error: string)
    returns (stream: seq<Event>, run: AgentRun, end: RunEnd)
    requires steering != followUp && steering.Valid() && followUp.Valid() && fuel > 0
    modifies steering, followUp
    ensures fresh(run) && run.base == context && run.Explains(end) && run.trace <= stream
    ensures end != OutOfFuel ==> EndsCoherently(stream)
    ensures config.Dag() ==> Exclusive(run.trace)
    ensures end.Stopped? ==> stream == run.trace && MessageEnds(stream) == run.newMessages
    ensures end.Stopped? && !config.prepareNextTurn ==> run.messages == context + MessageEnds(stream)
    ensures Trusted(config, promises, context, old(steering.messages), old(followUp.messages)) && AllPlain(prompts) ==>
              end != NoReply(RequestRefused) && (end.Stopped? ==> Clean(run.messages))
    ensures !end.Stopped? && end != OutOfFuel ==>
              MessageEnds(stream) ==
              if OnlyMissing(run.newMessages) then
                Repaired(run.newMessages, TERMINATED) + [FailureMessage(error, run.aborted)]
              else run.newMessages
  {
    hide Clean, OnlyMissing;
    run, end := RunAgentLoop(config, promises, steering, followUp, context, prompts, aborted, false, fuel);
    stream := run.trace;
    FollowPublishes(run.trace);
    FollowRecords(run.trace);
    if config.Dag() { AcceptedExclusive(run.trace); }
    if end.Stopped? {
      AcceptedEnds(run.trace);
    } else if end != OutOfFuel {
      stream := EndStreamWithFailure(run.trace, error, run.aborted);
    }
  }
}
