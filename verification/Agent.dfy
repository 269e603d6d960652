/** packages/agent/src/agent.ts: how the agent reduces a run's events to its state, and how a failed run ends. */
module Agents {
  import opened Strings
  import opened Runs
  import opened Transcript
  import opened Repair
  import opened Turns
  import opened Queues
  import opened Events
  import opened ToolBatches
  import opened AgentLoop
  import opened AgentStream

  /** The reduced part of the agent's state. */
  datatype View = View(
    messages: seq<Message>,
    streamingMessage: Option<Message>,
    pendingToolCalls: set<string>,
    errorMessage: Option<string>)

  function Reduce(v: View, e: Event): View {
    match e
    case MessageStart(m) => v.(streamingMessage := Some(m))
    case MessageUpdate(m) => v.(streamingMessage := Some(m))
    case MessageEnd(m) => v.(streamingMessage := None, messages := v.messages + [m])
    case ToolStart(id, _) => v.(pendingToolCalls := v.pendingToolCalls + {id})
    case ToolEnd(id) => v.(pendingToolCalls := v.pendingToolCalls - {id})
    case TurnEnd(m, _) =>
      if m.Assistant? && m.errorMessage.Some? && m.errorMessage.value != "" then v.(errorMessage := m.errorMessage) else v
    case AgentEnd(_) => v.(streamingMessage := None)
    case _ => v
  }

  function ReduceAll(v: View, trace: seq<Event>): View {
    if |trace| == 0 then v else Reduce(ReduceAll(v, trace[..|trace| - 1]), trace[|trace| - 1])
  }

  /** The transcript grows by exactly the ended messages, whatever else is in the stream. */
  lemma {:induction false} ReducedMessages(v: View, trace: seq<Event>)
    ensures ReduceAll(v, trace).messages == v.messages + MessageEnds(trace)
  {
    if |trace| > 0 {
      ReducedMessages(v, trace[..|trace| - 1]);
    }
  }

  lemma ReduceFollows(v: View, p: Position, e: Event)
    requires Advance(p, e).Some? && (p.streaming ==> p.stage.InTurn?)
    requires v.pendingToolCalls == p.running && (v.streamingMessage.Some? <==> p.streaming)
    ensures Reduce(v, e).pendingToolCalls == Advance(p, e).value.running
    ensures Reduce(v, e).streamingMessage.Some? <==> Advance(p, e).value.streaming
  {
  }

  lemma {:induction false} BetweenIsQuiet(trace: seq<Event>)
    requires Follow(trace).Some?
    ensures !Follow(trace).value.stage.InTurn? ==>
              !Follow(trace).value.streaming && Follow(trace).value.running == {}
  {
    if |trace| > 0 {
      var n := |trace| - 1;
      RunStep(Advance, BEGIN, trace, n);
      assert trace[..n + 1] == trace;
      BetweenIsQuiet(trace[..n]);
    }
  }

  /** While a run is under way the pending calls are exactly the started ones that have not ended, and a message is
      being shown exactly while one is streaming. */
  lemma {:induction false} ReducedView(v: View, trace: seq<Event>)
    requires Follow(trace).Some? && v.pendingToolCalls == {} && v.streamingMessage.None?
    ensures ReduceAll(v, trace).pendingToolCalls == Follow(trace).value.running
    ensures ReduceAll(v, trace).streamingMessage.Some? <==> Follow(trace).value.streaming
  {
    if |trace| > 0 {
      var n := |trace| - 1;
      RunStep(Advance, BEGIN, trace, n);
      assert trace[..n + 1] == trace;
      ReducedView(v, trace[..n]);
      BetweenIsQuiet(trace[..n]);
      ReduceFollows(ReduceAll(v, trace[..n]), Follow(trace[..n]).value, trace[n]);
    }
  }

  /** What a run leaves in the transcript when it was rejected. */
  function Terminated(completed: seq<Message>, error: string, aborted: bool): seq<Message> {
    if OnlyMissing(completed) then Repaired(completed, TERMINATED) + [FailureMessage(error, aborted)] else completed
  }

  lemma TerminatedClean(completed: seq<Message>, error: string, aborted: bool)
    ensures completed <= Terminated(completed, error, aborted)
    ensures Clean(Terminated(completed, error, aborted)) <==> OnlyMissing(completed)
  {
    if OnlyMissing(completed) {
      FailurePlanClean(completed, error, aborted);
    } else if Clean(completed) {
      CleanHasNoMissing(completed);
    }
  }

  datatype ContinueResult = Busy | Nothing | PendingCalls | Ran(end: RunEnd)

  /** What was behind a drained front was taken or is still there. */
  lemma BehindFront(queued: seq<Message>, front: seq<Message>, rest: seq<Message>, taken: seq<Message>, left: seq<Message>)
    requires queued == front + rest && rest <= taken + left
    ensures queued <= front + taken + left
  {
    assert front + (taken + left) == front + taken + left;
  }

  /** What continuing after an assistant message submits: queued messages, steering before follow-ups, or else an empty
      prompt. */
  function NextPrompts(steering: seq<Message>, steeringAll: bool, followUp: seq<Message>, followUpAll: bool): seq<Message> {
    if steering != [] then Front(steering, steeringAll)
    else if followUp != [] then Front(followUp, followUpAll)
    else [Other("user", "")]
  }

  class Agent {
    var messages: seq<Message>
    var streamingMessage: Option<Message>
    var pendingToolCalls: set<string>
    var errorMessage: Option<string>
    var isStreaming: bool
    var activeRun: bool
    const steeringQueue: PendingMessageQueue
    const followUpQueue: PendingMessageQueue
    const config: Config
    const promises: Promises

    ghost function State(): View
      reads this
    {
      View(messages, streamingMessage, pendingToolCalls, errorMessage)
    }

    /** Nothing of a finished run is left over. */
    ghost predicate AtIdle()
      reads this
    {
      !activeRun && !isStreaming && streamingMessage.None? && pendingToolCalls == {}
    }

    ghost predicate QueuesValid()
      reads steeringQueue, followUpQueue
    {
      steeringQueue != followUpQueue && steeringQueue.Valid() && followUpQueue.Valid()
    }

    /** Neither these messages nor the queues, as they are now, break the transcript. */
    ghost predicate TrustedWith(context: seq<Message>)
      reads steeringQueue, followUpQueue
    {
      Trusted(config, promises, context, steeringQueue.messages, followUpQueue.messages)
    }

    constructor (config: Config, promises: Promises, messages: seq<Message>, steeringAll: bool, followUpAll: bool)
      ensures AtIdle() && QueuesValid()
      ensures this.messages == messages && this.config == config && this.promises == promises
      ensures steeringQueue.drainsAll == steeringAll && followUpQueue.drainsAll == followUpAll
      ensures fresh(steeringQueue) && fresh(followUpQueue) && steeringQueue.messages == followUpQueue.messages == []
    {
      this.messages, this.config, this.promises := messages, config, promises;
      streamingMessage, pendingToolCalls, errorMessage := None, {}, None;
      isStreaming, activeRun := false, false;
      steeringQueue := new PendingMessageQueue(steeringAll);
      followUpQueue := new PendingMessageQueue(followUpAll);
    }

    method ProcessEvents(event: Event)
      requires activeRun
      modifies this`messages, this`streamingMessage, this`pendingToolCalls, this`errorMessage
      ensures State() == Reduce(old(State()), event)
    {
      match event
      case MessageStart(m) => streamingMessage := Some(m);
      case MessageUpdate(m) => streamingMessage := Some(m);
      case MessageEnd(m) =>
        streamingMessage := None;
        messages := messages + [m];
      case ToolStart(id, _) => pendingToolCalls := pendingToolCalls + {id};
      case ToolEnd(id) => pendingToolCalls := pendingToolCalls - {id};
      case TurnEnd(m, _) =>
        if m.Assistant? && m.errorMessage.Some? && m.errorMessage.value != "" {
          errorMessage := m.errorMessage;
        }
      case AgentEnd(_) => streamingMessage := None;
      case _ =>
    }

    method ProcessAll(trace: seq<Event>)
      requires activeRun
      modifies this`messages, this`streamingMessage, this`pendingToolCalls, this`errorMessage
      ensures State() == ReduceAll(old(State()), trace)
    {
      for i := 0 to |trace|
        invariant State() == ReduceAll(old(State()), trace[..i])
      {
        ProcessEvents(trace[i]);
        assert trace[..i + 1][..i] == trace[..i];
      }
      assert trace[..|trace|] == trace;
    }

    method ProcessMessages(ms: seq<Message>)
      requires activeRun
      modifies this`messages, this`streamingMessage, this`pendingToolCalls, this`errorMessage
      ensures messages == old(messages) + ms
    {
      for i := 0 to |ms|
        invariant messages == old(messages) + ms[..i]
      {
        ProcessEvents(MessageStart(ms[i]));
        ProcessEvents(MessageEnd(ms[i]));
        assert old(messages) + ms[..i] + [ms[i]] == old(messages) + ms[..i + 1];
      }
      assert ms[..|ms|] == ms;
    }

    /** The events of a failure plan. */
    method ProcessPlan(plan: FailurePlan)
      requires activeRun
      modifies this`messages, this`streamingMessage, this`pendingToolCalls, this`errorMessage
      ensures messages == old(messages) + plan.closureResults
                          + if plan.failureMessage.Some? then [plan.failureMessage.value] else []
    {
      ProcessMessages(plan.closureResults);
      if plan.failureMessage.Some? {
        ProcessMessages([plan.failureMessage.value]);
        ProcessEvents(TurnEnd(plan.failureMessage.value, []));
      }
      ProcessEvents(AgentEnd(plan.messages));
    }

    /** The transcript becomes exactly the failure plan for it. */
    method HandleRunFailure(error: string, aborted: bool)
      requires activeRun
      modifies this`messages, this`streamingMessage, this`pendingToolCalls, this`errorMessage
      ensures messages == Terminated(old(messages), error, aborted)
    {
      hide Clean, OnlyMissing;
      var plan := PlanFailureTermination(messages, error, aborted);
      ProcessPlan(plan);
    }

    method FinishRun()
      modifies this`isStreaming, this`streamingMessage, this`pendingToolCalls, this`activeRun
      ensures AtIdle()
    {
      isStreaming, streamingMessage, pendingToolCalls, activeRun := false, None, {}, false;
    }

    method StartRun()
      requires !activeRun
      modifies this`isStreaming, this`streamingMessage, this`errorMessage, this`activeRun
      ensures activeRun && isStreaming && streamingMessage.None? && errorMessage.None?
    {
      activeRun, isStreaming, streamingMessage, errorMessage := true, true, None, None;
    }

    /** The events of a run, and its end, arrive at the agent. */
    method Absorb(run: AgentRun, end: RunEnd, error: string)
      requires activeRun && pendingToolCalls == {} && streamingMessage.None?
      requires run.Explains(end) && run.base == messages
      modifies this`messages, this`streamingMessage, this`pendingToolCalls, this`errorMessage,
               this`isStreaming, this`activeRun
      ensures end.OutOfFuel? ==> activeRun && messages == old(messages) + run.newMessages
      ensures !end.OutOfFuel? ==> AtIdle()
      ensures end.Stopped? ==> messages == old(messages) + run.newMessages
      ensures !end.OutOfFuel? && !end.Stopped? ==>
                messages == Terminated(old(messages) + run.newMessages, error, run.aborted)
      ensures run.Trusting() && !run.config.prepareNextTurn ==> Clean(messages) || end.EmittedRefused?
      ensures old(messages) + run.newMessages <= messages
    {
      hide Clean, OnlyMissing;
      ReducedMessages(State(), run.trace);
      FollowPublishes(run.trace);
      ProcessAll(run.trace);
      var completed := messages;
      if end.OutOfFuel? { return; }
      if !end.Stopped? {
        TerminatedClean(messages, error, run.aborted);
        if end.NoReply? && run.Trusting() && !run.config.prepareNextTurn { CleanHasNoMissing(messages); }
        HandleRunFailure(error, run.aborted);
      }
      FinishRun();
    }

    /** A run on new messages, which the queues feed. Clean transcripts stay clean, unless the provider's own output was
        ambiguous; then the run fails closed and adds nothing to it. */
    method RunPromptMessages(prompts: seq<Message>, skipInitialSteeringPoll: bool, error: string, aborted: bool, fuel: nat)
      returns (end: RunEnd, run: AgentRun)
      requires AtIdle() && QueuesValid() && fuel > 0
      modifies this, steeringQueue, followUpQueue
      ensures QueuesValid() && (!end.OutOfFuel? ==> AtIdle())
      ensures fresh(run) && run.steering == steeringQueue && run.followUp == followUpQueue
      ensures run.Explains(end) && prompts <= run.newMessages && old(messages) + prompts <= messages
      ensures messages == if end.Stopped? || end.OutOfFuel? then old(messages) + run.newMessages
                          else Terminated(old(messages) + run.newMessages, error, run.aborted)
      ensures old(TrustedWith(messages + prompts)) && !config.prepareNextTurn ==> Clean(messages) || end.EmittedRefused?
      ensures end.EmittedRefused? && !config.prepareNextTurn ==> messages == old(messages) + run.newMessages
      ensures old(TrustedWith(messages)) && AllPlain(prompts) ==> end != NoReply(RequestRefused)
      ensures !end.OutOfFuel? ==>
                Served(run, old(steeringQueue.messages), old(steeringQueue.drained),
                       old(followUpQueue.messages), old(followUpQueue.drained))
      ensures |prompts| <= |run.origins| == |run.newMessages|
      ensures skipInitialSteeringPoll && |run.origins| > |prompts| ==> run.origins[|prompts|] == Own
    {
      hide Clean, OnlyMissing, Served;
      StartRun();
      run, end := RunAgentLoop(config, promises, steeringQueue, followUpQueue, messages, prompts, aborted,
                               skipInitialSteeringPoll, fuel);
      assert messages + prompts <= messages + run.newMessages;
      Absorb(run, end, error);
    }

    method Prompt(prompts: seq<Message>, error: string, aborted: bool, fuel: nat) returns (started: bool)
      requires (!activeRun ==> AtIdle()) && QueuesValid() && fuel > 0
      modifies this, steeringQueue, followUpQueue
      ensures started <==> !old(activeRun)
      ensures !started ==> State() == old(State()) && unchanged(steeringQueue) && unchanged(followUpQueue)
      ensures started ==> old(messages) + prompts <= messages
    {
      if activeRun { return false; }
      var end, run := RunPromptMessages(prompts, false, error, aborted, fuel);
      started := true;
    }

    /** A run that could not even start. */
    method Refuse(error: string, aborted: bool)
      requires activeRun
      modifies this`messages, this`streamingMessage, this`pendingToolCalls, this`errorMessage,
               this`isStreaming, this`activeRun
      ensures AtIdle() && messages == Terminated(old(messages), error, aborted) && old(messages) <= messages
    {
      hide Clean, OnlyMissing;
      TerminatedClean(messages, error, aborted);
      HandleRunFailure(error, aborted);
      FinishRun();
    }

    /** Without new messages: a transcript that does not inspect clean is not continued but terminated. */
    method RunContinuation(error: string, aborted: bool, fuel: nat) returns (end: RunEnd, run: AgentRun?)
      requires AtIdle() && QueuesValid() && fuel > 0 && |messages| > 0
      modifies this, steeringQueue, followUpQueue
      ensures QueuesValid() && (!end.OutOfFuel? ==> AtIdle())
      ensures old(messages) <= messages && (run != null <==> Clean(old(messages)))
      ensures run == null ==>
                messages == Terminated(old(messages), error, aborted) && end == NoReply(RequestRefused)
                && unchanged(steeringQueue) && unchanged(followUpQueue)
      ensures run != null ==>
                && fresh(run) && run.steering == steeringQueue && run.followUp == followUpQueue && run.Explains(end)
                && messages == (if end.Stopped? || end.OutOfFuel? then old(messages) + run.newMessages
                                else Terminated(old(messages) + run.newMessages, error, run.aborted))
      ensures old(TrustedWith(messages)) ==>
                end != NoReply(RequestRefused) && (!config.prepareNextTurn ==> Clean(messages) || end.EmittedRefused?)
      ensures run != null && !end.OutOfFuel? ==>
                Served(run, old(steeringQueue.messages), old(steeringQueue.drained),
                       old(followUpQueue.messages), old(followUpQueue.drained))
    {
      hide Clean, OnlyMissing, Served;
      StartRun();
      var started;
      started, run, end :=
        RunAgentLoopContinue(config, promises, steeringQueue, followUpQueue, messages, aborted, fuel);
      if !started {
        Refuse(error, aborted);
        end := NoReply(RequestRefused);
      } else {
        Absorb(run, end, error);
      }
    }

    /** Steering first, follow-ups only when there was no steering. */
    method TakeQueued() returns (taken: seq<Message>)
      requires QueuesValid()
      modifies steeringQueue, followUpQueue
      ensures QueuesValid()
      ensures var s, f := old(steeringQueue.messages), old(followUpQueue.messages);
              && (taken != [] ==> taken == NextPrompts(s, steeringQueue.drainsAll, f, followUpQueue.drainsAll))
              && (taken == [] <==> s == [] && f == [])
              && s == (if s != [] then taken else []) + steeringQueue.messages
              && f == (if s != [] then [] else taken) + followUpQueue.messages
    {
      taken := steeringQueue.Drain();
      DrainedFront(old(steeringQueue.messages), taken, steeringQueue.messages, steeringQueue.drainsAll);
      if |taken| == 0 {
        taken := followUpQueue.Drain();
        DrainedFront(old(followUpQueue.messages), taken, followUpQueue.messages, followUpQueue.drainsAll);
      }
    }

    /** Queued messages are tried first after an assistant message, steering before follow-ups; an assistant message
        with pending calls is refused without touching the transcript. What the run then finds in the queues is the
        rest, and none of it is lost. */
    method Continue(error: string, aborted: bool, fuel: nat) returns (r: ContinueResult, run: AgentRun?)
      requires (!activeRun ==> AtIdle()) && QueuesValid() && fuel > 0
      modifies this, steeringQueue, followUpQueue
      ensures QueuesValid() && old(messages) <= messages
      ensures r.Busy? <==> old(activeRun)
      ensures r.Nothing? <==> !old(activeRun) && old(messages) == []
      ensures r.PendingCalls? <==>
                && !old(activeRun) && old(messages) != []
                && CallsOf(old(messages)[|old(messages)| - 1]) != []
                && old(steeringQueue.messages) == [] && old(followUpQueue.messages) == []
      ensures !r.Ran? ==> State() == old(State())
      ensures !r.Ran? ==>
                steeringQueue.messages == old(steeringQueue.messages)
                && followUpQueue.messages == old(followUpQueue.messages)
      ensures r.Ran? && old(messages)[|old(messages)| - 1].Assistant? ==>
                run != null && Continued(run, r.end, old(steeringQueue.messages), old(followUpQueue.messages), old(messages))
      ensures r.Ran? && !old(messages)[|old(messages)| - 1].Assistant? ==>
                && (run != null <==> Clean(old(messages)))
                && (run != null && !r.end.OutOfFuel? ==>
                      run.steering == steeringQueue && run.followUp == followUpQueue
                      && Served(run, old(steeringQueue.messages), old(steeringQueue.drained),
                                old(followUpQueue.messages), old(followUpQueue.drained)))
    {
      hide Clean, OnlyMissing;
      run := null;
      if activeRun { return Busy, null; }
      if |messages| == 0 { return Nothing, null; }
      var lastMessage := messages[|messages| - 1];
      if !lastMessage.Assistant? {
        var end;
        end, run := RunContinuation(error, aborted, fuel);
        return Ran(end), run;
      }
      r, run := ContinueAfter(lastMessage, error, aborted, fuel);
    }

    /** A run whose prompts came from the front of the queues: the transcript holds them, and what was queued behind
        them was taken by the run in order or is still queued. */
    ghost predicate Continued(run: AgentRun, end: RunEnd, s: seq<Message>, f: seq<Message>, before: seq<Message>)
      reads this, run, steeringQueue, followUpQueue, run.steering, run.followUp
    {
      var prompts := NextPrompts(s, steeringQueue.drainsAll, f, followUpQueue.drainsAll);
      && run.steering == steeringQueue && run.followUp == followUpQueue
      && before + prompts <= messages && prompts <= run.newMessages && |run.origins| == |run.newMessages|
      && (!end.OutOfFuel? ==>
            && s <= (if s != [] then prompts else []) + run.Taken(Steering) + steeringQueue.messages
            && f <= (if s == [] && f != [] then prompts else []) + run.Taken(FollowUp) + followUpQueue.messages)
      && (s != [] && |run.origins| > |prompts| ==> run.origins[|prompts|] == Own)
    }

    method ContinueAfter(lastMessage: Message, error: string, aborted: bool, fuel: nat)
      returns (r: ContinueResult, run: AgentRun?)
      requires AtIdle() && QueuesValid() && fuel > 0
      modifies this, steeringQueue, followUpQueue
      ensures QueuesValid() && (r.Ran? || r.PendingCalls?)
      ensures r.PendingCalls? <==>
                CallsOf(lastMessage) != [] && old(steeringQueue.messages) == [] && old(followUpQueue.messages) == []
      ensures r.PendingCalls? ==> State() == old(State()) && steeringQueue.messages == followUpQueue.messages == []
      ensures r.Ran? ==>
                run != null && Continued(run, r.end, old(steeringQueue.messages), old(followUpQueue.messages), old(messages))
    {
      hide Clean, OnlyMissing, Follow, AgentRun.Explains, Terminated, AllPlain, Trusted, From;
      run := null;
      var steered := |steeringQueue.messages| > 0;
      var taken := TakeQueued();
      var prompts := taken;
      if |taken| == 0 {
        if CallsOf(lastMessage) != [] { return PendingCalls, null; }
        prompts := [Other("user", "")];
      }
      ghost var s, f := steeringQueue.messages, followUpQueue.messages;
      var end;
      end, run := RunPromptMessages(prompts, steered, error, aborted, fuel);
      r := Ran(end);
      if !end.OutOfFuel? {
        BehindFront(old(steeringQueue.messages), if steered then taken else [], s,
                    run.Taken(Steering), steeringQueue.messages);
        BehindFront(old(followUpQueue.messages), if steered then [] else taken, f,
                    run.Taken(FollowUp), followUpQueue.messages);
      }
    }
  }
}
