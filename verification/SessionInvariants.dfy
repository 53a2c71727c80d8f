/** What every reachable session satisfies. */
module SessionInvariants {
  import opened Contracts
  import opened Transcript
  import opened Turns
  import opened PlanSearch
  import opened ContextPlanner
  import opened SessionEvents
  import opened TextDeltas
  import opened SessionMachine
  import opened Traces

  /** The log is a valid one, agrees with the status, and leaves room for a terminal event. */
  ghost predicate LogAgrees(s: Session) {
    && Numbered(s.events)
    && |s.events| <= MAX_EVENTS
    && (!Terminal(s.status) ==> |s.events| < MAX_EVENTS)
    && Starts(s.events) == s.providerCalls
    && (s.phase.Idle? <==> !s.status.Running?)
    && match s.status
       case Created => false
       case Running =>
         if s.phase.Probing? then
           StageOf(s.events) == Called(s.providerCalls) && |s.events| <= MAX_EVENTS - SCHEDULING_RESERVE
         else InCall(StageOf(s.events), s.providerCalls)
       case WaitingForTool =>
         if s.pending != [] then StageOf(s.events) == AwaitingTools(s.providerCalls)
         else StageOf(s.events) == ResultsIn(s.providerCalls) && |s.events| == MAX_EVENTS - SCHEDULING_RESERVE
       case Completed =>
         || StageOf(s.events) == Answered(s.providerCalls)
         || (StageOf(s.events) == InputIn(s.providerCalls) && |s.events| == MAX_EVENTS - SCHEDULING_RESERVE)
       case Failed => StageOf(s.events) == Ended
       case Canceled => StageOf(s.events) == Ended
  }

  ghost predicate DistinctIds(requests: seq<ToolRequest>) {
    forall i, j | 0 <= i < j < |requests| :: requests[i].id != requests[j].id
  }

  /** The transcript ends in an assistant message whose requests are the pending ones; what
      stands before it is closed. */
  ghost predicate OpenGroup(messages: seq<Message>, pending: seq<ToolRequest>) {
    && messages != []
    && var last := messages[|messages| - 1];
       && last.role.Assistant? && last.toolRequests == pending
       && ToolClosed(messages[..|messages| - 1])
  }

  /** Requests are pending only while waiting, or in a session that failed while recording
      them; otherwise the transcript of a live session is closed. */
  ghost predicate GroupsAgree(s: Session) {
    && s.messages != []
    && DistinctIds(s.pending)
    && (s.pending != [] ==> s.status.WaitingForTool? || s.status.Failed?)
    && (s.pending != [] ==> OpenGroup(s.messages, s.pending))
    && (s.pending == [] && !s.status.Canceled? ==> ToolClosed(s.messages))
  }

  ghost predicate WithinLimits(p: Profile, s: Session) {
    && s.toolRounds <= p.limits.maxToolRounds
    && (s.pending != [] ==> s.toolRounds < p.limits.maxToolRounds)
    && s.outputChars <= p.limits.maxOutputChars
  }

  /** The provider's count refers to messages of this transcript and counts each at least once. */
  ghost predicate CountAgrees(s: Session) {
    s.observed.Some? ==>
      && (forall i | i in s.observed.value.indices :: i < |s.messages|)
      && |s.observed.value.indices| <= s.observed.value.promptTokens
      && 0 < s.observed.value.promptTokens <= MAX_PROMPT_TOKENS
  }

  /** While the provider works: what it was sent, and what was streamed so far. */
  ghost predicate CallAgrees(p: Profile, s: Session) {
    s.phase.Calling? ==>
      && s.context == Some(s.phase.plan)
      && PlanAgrees(p, s, s.phase.plan)
      && (s.phase.emitter.Some? ==> EmitterAgrees(p, s, s.phase.emitter.value))
  }

  ghost predicate PlanAgrees(p: Profile, s: Session, plan: ContextPlan) {
    && plan.messages != [] && |plan.messages| == |plan.indices|
    && InBounds(s.messages, plan.indices) && plan.messages == Pick(s.messages, plan.indices)
    && ToolClosed(plan.messages)
    && plan.failure.None?
    && plan.allocatedOutputTokens <= p.limits.maxOutputTokens
  }

  ghost predicate EmitterAgrees(p: Profile, s: Session, e: Emitter) {
    && e.round == s.providerCalls
    && Bounded(e, s.events, RemainingChars(p, s))
    && RoundText(s.events, e.round) + e.pending == e.text
  }

  ghost predicate Inv(p: Profile, s: Session) {
    && LogAgrees(s)
    && GroupsAgree(s)
    && WithinLimits(p, s)
    && CountAgrees(s)
    && CallAgrees(p, s)
  }

  // ---------------------------------------------------------------------------------------
  // Failing and cancelling
  // ---------------------------------------------------------------------------------------

  /** A state inside the provider task from which any failure can be recorded: the record of a
      running session, up to the messages and requests the answer may just have added. */
  ghost predicate CanFail(p: Profile, s: Session) {
    && Numbered(s.events) && |s.events| < MAX_EVENTS && Starts(s.events) == s.providerCalls
    && InCall(StageOf(s.events), s.providerCalls)
    && s.messages != [] && DistinctIds(s.pending)
    && (s.pending != [] ==> OpenGroup(s.messages, s.pending))
    && (s.pending == [] ==> ToolClosed(s.messages))
    && WithinLimits(p, s)
    && CountAgrees(s)
  }

  lemma FailedLog(s: Session, code: Code)
    requires Numbered(s.events) && |s.events| < MAX_EVENTS && Starts(s.events) == s.providerCalls
    requires InCall(StageOf(s.events), s.providerCalls)
    ensures FailedWith(s, code).events == Logged(s.events, SessionFailed(code))
    ensures LogAgrees(FailedWith(s, code))
  {
    LoggedSteps(s.events, SessionFailed(code));
  }

  lemma FailedWithKeeps(p: Profile, s: Session, code: Code)
    requires CanFail(p, s)
    ensures Inv(p, FailedWith(s, code)) && FailedWith(s, code).status.Failed?
    ensures FailedWith(s, code).events == Logged(s.events, SessionFailed(code))
  {
    FailedLog(s, code);
  }

  lemma RunningCanFail(p: Profile, s: Session)
    requires Inv(p, s) && !s.phase.Idle?
    ensures CanFail(p, s)
  {
  }

  lemma FlushedOutKeeps(p: Profile, s: Session)
    requires Inv(p, s) && !s.phase.Idle?
    ensures FlushedOut(s).Ok?
    ensures var t := FlushedOut(s).value;
            && CanFail(p, t)
            && t == s.(events := t.events, phase := t.phase)
            && (s.phase.Calling? ==>
                  && t.phase == s.phase.(emitter := t.phase.emitter)
                  && (t.phase.emitter.Some? <==> s.phase.emitter.Some?)
                  && (t.phase.emitter.Some? ==>
                        && t.phase.emitter.value.text == s.phase.emitter.value.text
                        && RoundText(t.events, s.providerCalls) == t.phase.emitter.value.text))
  {
    RunningCanFail(p, s);
    if s.phase.Calling? && s.phase.emitter.Some? {
      FlushKeepsLog(s.phase.emitter.value, s.events, RemainingChars(p, s));
    }
  }

  /** The last flush of a call leaves the log numbered, in the same call and with room. */
  lemma FlushKeepsLog(e: Emitter, events: seq<Event>, remaining: nat)
    requires Bounded(e, events, remaining) && RoundText(events, e.round) + e.pending == e.text
    requires Numbered(events) && |events| < MAX_EVENTS && InCall(StageOf(events), e.round)
    ensures Flushed(e, events).Some?
    ensures var (after, log) := Flushed(e, events).value;
            && Numbered(log) && |log| < MAX_EVENTS && Starts(log) == Starts(events) && InCall(StageOf(log), e.round)
            && after.text == e.text && RoundText(log, e.round) == e.text
  {
    FlushSucceeds(e, events, remaining);
    FlushKeepsText(e, events);
    LoggedSteps(events, TextDelta(e.round, e.pending));
    if e.pending != "" {
      BudgetRemains(e, events, remaining);
    }
  }

  lemma FailKeeps(p: Profile, s: Session, code: Code)
    requires Inv(p, s) && !s.phase.Idle?
    ensures Inv(p, Fail(s, code)) && Fail(s, code).status.Failed? && Fail(s, code).failure == Some(code)
  {
    FlushedOutKeeps(p, s);
    FailedWithKeeps(p, FlushedOut(s).value, code);
  }

  lemma CanceledAtKeeps(p: Profile, s: Session)
    requires Numbered(s.events) && |s.events| < MAX_EVENTS && Starts(s.events) == s.providerCalls
    requires Advance(StageOf(s.events), SessionCanceled) == Ended
    requires s.messages != [] && WithinLimits(p, s) && CountAgrees(s)
    ensures Inv(p, CanceledAt(s))
  {
    LoggedSteps(s.events, SessionCanceled);
  }

  lemma CancelWaiting(p: Profile, s: Session)
    requires Inv(p, s) && s.status.WaitingForTool?
    ensures Cancel(s) == CanceledAt(s) && Inv(p, Cancel(s))
  {
    assert FlushedOut(s) == Ok(s);
    CanceledAtKeeps(p, s);
  }

  lemma CancelRunning(p: Profile, s: Session)
    requires Inv(p, s) && !s.phase.Idle?
    ensures FlushedOut(s).Ok? && Cancel(s) == CanceledAt(FlushedOut(s).value) && Inv(p, Cancel(s))
  {
    FlushedOutKeeps(p, s);
    CanceledAtKeeps(p, FlushedOut(s).value);
  }

  lemma CancelKeeps(p: Profile, s: Session)
    requires Inv(p, s)
    ensures Inv(p, Cancel(s))
    ensures !Terminal(s.status) ==> Cancel(s).status.Canceled? && Cancel(s).pending == []
  {
    if s.status.WaitingForTool? {
      CancelWaiting(p, s);
    } else if !s.phase.Idle? {
      CancelRunning(p, s);
    }
  }

  // ---------------------------------------------------------------------------------------
  // The provider task
  // ---------------------------------------------------------------------------------------

  /** The indices are the instructions and a suffix of whole turns. */
  ghost predicate WholeTurns(messages: seq<Message>, indices: seq<nat>) {
    exists kept: nat :: Searched(Partitioned(messages), kept) && indices == Suffix(Partitioned(messages), kept)
  }

  /** A window is never empty, lists each of its messages once and splits no turn. */
  lemma PlannedWindow(r: Request)
    requires r.messages != [] && ToolClosed(r.messages)
    ensures var plan := PlanOf(r);
            && plan.messages != [] && |plan.messages| == |plan.indices|
            && InBounds(r.messages, plan.indices) && plan.messages == Pick(r.messages, plan.indices)
            && ToolClosed(plan.messages)
  {
    PlannedWindowClosed(r);
    WindowShape(r);
    PartitionShape(r.messages);
    SuffixIsContiguous(r.messages, Decided(r).kept);
  }

  lemma PlannedTurns(r: Request)
    ensures WholeTurns(r.messages, PlanOf(r).indices)
  {
    assert Searched(Partitioned(r.messages), Decided(r).kept);
  }

  lemma PlannedAgrees(p: Profile, s: Session, plan: ContextPlan)
    requires s.messages != [] && ToolClosed(s.messages) && IsPlanned(p, s, plan)
    ensures plan.failure.None? ==> PlanAgrees(p, s, plan)
    ensures WholeTurns(s.messages, plan.indices)
  {
    var window: ContextWindow, measure: seq<Message> -> nat :| plan == PlanOf(RequestFor(p, s, window, measure));
    PlannedWindow(RequestFor(p, s, window, measure));
    PlannedTurns(RequestFor(p, s, window, measure));
    if plan.failure.None? {
      PlanIsSound(RequestFor(p, s, window, measure));
    }
  }

  lemma NoticeKeeps(p: Profile, s: Session, plan: ContextPlan)
    requires CanFail(p, s) && StageOf(s.events).Called?
    requires NoticeOf(s, plan).Some? ==> HasRoom(s.events, NoticeOf(s, plan).value)
    ensures CanFail(p, Notified(s, plan))
    ensures StageOf(Notified(s, plan).events).Called? || StageOf(Notified(s, plan).events).Narrowed?
  {
    LoggedSteps(s.events, ContextReduced(s.providerCalls, ReductionOf(plan)));
  }

  /** Entering the provider with a fresh emitter, or without one. */
  lemma EnterProviderKeeps(p: Profile, s: Session, plan: ContextPlan)
    requires CanFail(p, s) && s.status.Running? && s.pending == []
    requires StageOf(s.events).Called? || StageOf(s.events).Narrowed?
    requires PlanAgrees(p, s, plan) && s.context == Some(plan)
    ensures Inv(p, EnterProvider(p, s, plan))
  {
    var emitter := NewEmitter(|s.events|, s.providerCalls, RemainingChars(p, s));
    if emitter.None? {
      FailedWithKeeps(p, s, EventLimitExceeded);
    } else {
      NewEmitterAgrees(p, s);
    }
  }

  lemma NewEmitterAgrees(p: Profile, s: Session)
    requires Starts(s.events) == s.providerCalls && !StageOf(s.events).Invalid?
    requires StageOf(s.events).Called? || StageOf(s.events).Narrowed?
    requires NewEmitter(|s.events|, s.providerCalls, RemainingChars(p, s)).Some?
    ensures EmitterAgrees(p, s, NewEmitter(|s.events|, s.providerCalls, RemainingChars(p, s)).value)
  {
    NewEmitterIsBounded(s.events, s.providerCalls, RemainingChars(p, s));
    RoundsAreCounted(s.events);
  }

  lemma EnterKeeps(p: Profile, s: Session, plan: ContextPlan)
    requires Inv(p, s) && s.phase.Probing?
    requires plan.failure.None? ==> PlanAgrees(p, s, plan)
    ensures Inv(p, Enter(p, s, plan))
  {
    var s1 := s.(context := Some(plan));
    assert CanFail(p, s1) && StageOf(s1.events).Called?;
    if plan.failure.Some? {
      FailedWithKeeps(p, s1, if plan.failureCode.InputExceeded? then InputLimitExceeded else ContextWindowExceeded);
    } else if NoticeOf(s1, plan).Some? && !HasRoom(s1.events, NoticeOf(s1, plan).value) {
      FailedWithKeeps(p, s1, EventLimitExceeded);
    } else {
      NoticeKeeps(p, s1, plan);
      assert PlanAgrees(p, Notified(s1, plan), plan);
      EnterProviderKeeps(p, Notified(s1, plan), plan);
    }
  }

  /** A refused fragment leaves the record as it was, and never for want of room. */
  lemma RefusedPush(p: Profile, s: Session, delta: string)
    requires Inv(p, s) && s.phase.Calling? && s.phase.emitter.Some?
    requires Pushed(s.phase.emitter.value, s.events, delta, RemainingChars(p, s)).2.Some?
    ensures var failure := Pushed(s.phase.emitter.value, s.events, delta, RemainingChars(p, s)).2.value;
            Push(p, s, delta) == Fail(s, failure) && failure != EventLimitExceeded
  {
    PushSucceeds(s.phase.emitter.value, s.events, delta, RemainingChars(p, s));
  }

  lemma AcceptedPush(p: Profile, s: Session, delta: string)
    requires Inv(p, s) && s.phase.Calling? && s.phase.emitter.Some?
    requires Pushed(s.phase.emitter.value, s.events, delta, RemainingChars(p, s)).2.None?
    ensures var (after, events, _) := Pushed(s.phase.emitter.value, s.events, delta, RemainingChars(p, s));
            var t := s.(events := events, phase := s.phase.(emitter := Some(after)));
            Push(p, s, delta) == t && LogAgrees(t) && EmitterAgrees(p, t, after)
  {
    PushKeepsLog(s.phase.emitter.value, s.events, delta, RemainingChars(p, s));
  }

  /** A fragment taken leaves the log numbered, in the same call and with room. */
  lemma PushKeepsLog(e: Emitter, events: seq<Event>, delta: string, remaining: nat)
    requires Bounded(e, events, remaining) && RoundText(events, e.round) + e.pending == e.text
    requires Numbered(events) && |events| < MAX_EVENTS && InCall(StageOf(events), e.round)
    requires Pushed(e, events, delta, remaining).2.None?
    ensures var (after, log, _) := Pushed(e, events, delta, remaining);
            && Numbered(log) && |log| < MAX_EVENTS && Starts(log) == Starts(events) && InCall(StageOf(log), e.round)
            && after.round == e.round && Bounded(after, log, remaining)
            && RoundText(log, e.round) + after.pending == after.text
  {
    PushSucceeds(e, events, delta, remaining);
    PushKeepsText(e, events, delta, remaining);
    LoggedSteps(events, TextDelta(e.round, e.pending + delta));
  }

  lemma PushKeeps(p: Profile, s: Session, delta: string)
    requires Inv(p, s) && s.phase.Calling? && s.phase.emitter.Some?
    ensures Inv(p, Push(p, s, delta))
    ensures Push(p, s, delta).failure != Some(EventLimitExceeded) || s.failure == Some(EventLimitExceeded)
  {
    var failure := Pushed(s.phase.emitter.value, s.events, delta, RemainingChars(p, s)).2;
    if failure.None? {
      AcceptedPush(p, s, delta);
    } else {
      RefusedPush(p, s, delta);
      FailKeeps(p, s, failure.value);
    }
  }

  lemma {:induction false} PendingIsRequests(p: Profile, requests: seq<ToolRequest>)
    ensures var pending := PendingOf(p, requests);
            pending.Ok? ==> pending.value == requests && DistinctIds(requests)
  {
    if requests != [] {
      var n := |requests| - 1;
      FrontAndLast(requests);
      PendingIsRequests(p, requests[..n]);
      if PendingOf(p, requests).Ok? {
        assert !HasId(requests[..n], requests[n].id);
        forall i, j | 0 <= i < j < |requests| ensures requests[i].id != requests[j].id {
          assert requests[i] == requests[..n][i];
          assert j < n ==> requests[j] == requests[..n][j];
        }
      }
    }
  }

  lemma IndexSetSize(indices: seq<nat>)
    ensures |IndexSet(indices)| <= |indices|
  {
    if indices == [] {
      assert IndexSet(indices) == {};
    } else {
      var n := |indices| - 1;
      IndexSetSize(indices[..n]);
      FrontAndLast(indices);
      assert IndexSet(indices) == IndexSet(indices[..n]) + {indices[n]};
    }
  }

  lemma ObservedAfterKeeps(p: Profile, s: Session, plan: ContextPlan, answer: Answer)
    requires CountAgrees(s) && PlanAgrees(p, s, plan)
    ensures CountAgrees(s.(observed := ObservedAfter(s, plan, answer)))
  {
    IndexSetSize(plan.indices);
  }

  lemma AppendKeepsCount(s: Session, more: seq<Message>)
    requires CountAgrees(s)
    ensures CountAgrees(s.(messages := s.messages + more))
  {
  }

  lemma OpenGroupAppended(messages: seq<Message>, text: string, pending: seq<ToolRequest>)
    requires ToolClosed(messages)
    ensures OpenGroup(messages + [Message(Assistant, text, pending, None, None)], pending)
  {
    var all := messages + [Message(Assistant, text, pending, None, None)];
    assert all[..|all| - 1] == messages;
  }

  lemma StandaloneAppended(messages: seq<Message>, m: Message)
    requires ToolClosed(messages) && Standalone(m)
    ensures ToolClosed(messages + [m])
  {
    ClosedStandalone([m]);
    ClosedAppend(messages, [m]);
  }

  lemma TakeRequestsKeeps(p: Profile, s: Session, answer: Answer)
    requires CanFail(p, s) && s.status.Running? && s.pending == [] && answer.toolRequests != []
    ensures Inv(p, TakeRequests(p, s, answer))
  {
    PendingIsRequests(p, answer.toolRequests);
    if s.toolRounds >= p.limits.maxToolRounds {
      FailedWithKeeps(p, s, ToolRoundLimitExceeded);
    } else if PendingOf(p, answer.toolRequests).Err? {
      FailedWithKeeps(p, s, PendingOf(p, answer.toolRequests).error);
    } else {
      RecordingKeeps(p, s, answer);
    }
  }

  /** The message that carries the requests, with the requests pending. */
  function Recorded(s: Session, text: string, pending: seq<ToolRequest>): Session {
    s.(messages := s.messages + [Message(Assistant, text, pending, None, None)],
       pending := pending, status := WaitingForTool, phase := Idle)
  }

  lemma RecordedAgrees(p: Profile, s: Session, text: string, pending: seq<ToolRequest>)
    requires CanFail(p, s) && pending != [] && DistinctIds(pending) && s.toolRounds < p.limits.maxToolRounds
    requires s.pending == []
    ensures GroupsAgree(Recorded(s, text, pending)) && CanFail(p, Recorded(s, text, pending))
  {
    OpenGroupAppended(s.messages, text, pending);
    AppendKeepsCount(s, [Message(Assistant, text, pending, None, None)]);
  }

  lemma RecordingKeeps(p: Profile, s: Session, answer: Answer)
    requires CanFail(p, s) && s.status.Running? && s.pending == [] && answer.toolRequests != []
    requires s.toolRounds < p.limits.maxToolRounds && PendingOf(p, answer.toolRequests).Ok?
    ensures Inv(p, TakeRequests(p, s, answer))
  {
    var pending, s1 := answer.toolRequests, Recorded(s, answer.text, answer.toolRequests);
    PendingIsRequests(p, pending);
    RecordedAgrees(p, s, answer.text, pending);
    TakenIs(p, s, answer);
    if HasRoom(s.events, ToolRequests(pending)) {
      RecordedInLog(p, s1);
    } else {
      FailedWithKeeps(p, s1, EventLimitExceeded);
    }
  }

  lemma TakenIs(p: Profile, s: Session, answer: Answer)
    requires s.toolRounds < p.limits.maxToolRounds && PendingOf(p, answer.toolRequests) == Ok(answer.toolRequests)
    ensures var s1 := Recorded(s, answer.text, answer.toolRequests);
            TakeRequests(p, s, answer)
            == if HasRoom(s.events, ToolRequests(answer.toolRequests))
               then s1.(events := Logged(s1.events, ToolRequests(s1.pending)))
               else FailedWith(s1, EventLimitExceeded)
  {
  }

  lemma RecordedInLog(p: Profile, s: Session)
    requires CanFail(p, s) && GroupsAgree(s) && s.status.WaitingForTool? && s.phase.Idle? && s.pending != []
    requires HasRoom(s.events, ToolRequests(s.pending))
    ensures Inv(p, s.(events := Logged(s.events, ToolRequests(s.pending))))
  {
    LoggedSteps(s.events, ToolRequests(s.pending));
  }

  lemma TakeTextKeeps(p: Profile, s: Session, answer: Answer)
    requires CanFail(p, s) && s.status.Running? && s.pending == []
    ensures Inv(p, TakeText(p, s, answer))
  {
    if p.outputSchema.Some? && !p.validOutput(answer.text, p.outputSchema.value) {
      FailedWithKeeps(p, s, SchemaValidationFailed);
    } else {
      StandaloneAppended(s.messages, Plain(Assistant, answer.text));
      AppendKeepsCount(s, [Plain(Assistant, answer.text)]);
      LoggedSteps(s.events, SessionCompleted(answer.text));
    }
  }

  lemma SettleKeeps(p: Profile, s: Session, answer: Answer)
    requires CanFail(p, s) && s.status.Running? && s.pending == []
    ensures Inv(p, Settle(p, s, answer))
  {
    if answer.toolRequests != [] {
      TakeRequestsKeeps(p, s, answer);
    } else {
      TakeTextKeeps(p, s, answer);
    }
  }

  lemma ChargedCanFail(p: Profile, s: Session, total: nat)
    requires CanFail(p, s) && total <= p.limits.maxOutputChars
    ensures CanFail(p, s.(outputChars := total))
  {
  }

  lemma OverchargeKeeps(p: Profile, s: Session, answer: Answer)
    requires CanFail(p, s) && Total(p, s, answer) > p.limits.maxOutputChars
    ensures Inv(p, Charge(p, s, answer))
  {
    FailedWithKeeps(p, s, OutputLimitExceeded);
  }

  lemma ChargeKeeps(p: Profile, s: Session, answer: Answer)
    requires CanFail(p, s) && s.status.Running? && s.pending == []
    ensures Inv(p, Charge(p, s, answer))
  {
    var total := Total(p, s, answer);
    if total > p.limits.maxOutputChars {
      OverchargeKeeps(p, s, answer);
    } else {
      ChargedCanFail(p, s, total);
      SettleKeeps(p, s.(outputChars := total), answer);
    }
  }

  lemma TakeAnswerKeeps(p: Profile, s: Session, plan: ContextPlan, answer: Answer)
    requires CanFail(p, s) && s.status.Running? && s.pending == [] && PlanAgrees(p, s, plan)
    ensures Inv(p, TakeAnswer(p, s, plan, answer))
  {
    ObservedAfterKeeps(p, s, plan, answer);
    var noted := s.(observed := ObservedAfter(s, plan, answer));
    assert CanFail(p, noted);
    ChargeKeeps(p, noted, answer);
  }

  lemma FinishKeeps(p: Profile, s: Session, answer: Answer)
    requires Inv(p, s) && s.phase.Calling?
    ensures Inv(p, Finish(p, s, answer))
  {
    FlushedOutKeeps(p, s);
    var s1 := FlushedOut(s).value;
    if s1.phase.emitter.Some? && answer.text != s1.phase.emitter.value.text {
      FailedWithKeeps(p, s1, InvalidProviderResponse);
    } else {
      assert PlanAgrees(p, s1, s1.phase.plan);
      TakeAnswerKeeps(p, s1, s1.phase.plan, answer);
    }
  }

  // ---------------------------------------------------------------------------------------
  // Requests of the consumer
  // ---------------------------------------------------------------------------------------

  /** A record about to be scheduled: its input is logged and its transcript is closed. */
  ghost predicate Ready(p: Profile, s: Session) {
    && Numbered(s.events) && |s.events| <= MAX_EVENTS - SCHEDULING_RESERVE
    && Starts(s.events) == s.providerCalls
    && Advance(StageOf(s.events), ProviderStarted) == Called(s.providerCalls + 1)
    && s.messages != [] && s.pending == [] && ToolClosed(s.messages)
    && s.phase.Idle?
    && WithinLimits(p, s) && CountAgrees(s)
  }

  lemma ScheduledKeeps(p: Profile, s: Session, active: nat)
    requires Ready(p, s) && Unschedulable(s, active).None?
    ensures Inv(p, Scheduled(s, active).0) && Scheduled(s, active).0.status.Running?
  {
    LoggedSteps(s.events, ProviderStarted);
  }

  lemma {:induction false} AnswersPending(pending: seq<ToolRequest>, results: seq<ToolResult>)
    requires AnswerMessages(pending, results).Some?
    ensures var messages := AnswerMessages(pending, results).value;
            && |messages| == |pending|
            && forall j | 0 <= j < |pending| :: Answers(messages[j], pending[j])
  {
    if pending != [] {
      AnswersPending(pending[..|pending| - 1], results);
    }
  }

  lemma Regroup(a: seq<Message>, b: seq<Message>)
    requires a != []
    ensures a[..|a| - 1] + ([a[|a| - 1]] + b) == a + b
  {
  }

  /** Results close the group their requests opened. */
  lemma ResultsClose(messages: seq<Message>, pending: seq<ToolRequest>, answers: seq<Message>)
    requires OpenGroup(messages, pending) && |answers| == |pending|
    requires forall j | 0 <= j < |pending| :: Answers(answers[j], pending[j])
    ensures ToolClosed(messages + answers)
  {
    var front, head := messages[..|messages| - 1], messages[|messages| - 1];
    ClosedGroup(head, answers);
    ClosedAppend(front, [head] + answers);
    Regroup(messages, answers);
  }

  lemma WithResultsIsReady(p: Profile, s: Session, messages: seq<Message>, count: nat)
    requires Inv(p, s) && s.status.WaitingForTool? && |s.events| < MAX_EVENTS - SCHEDULING_RESERVE
    requires |messages| == |s.pending| && forall j | 0 <= j < |s.pending| :: Answers(messages[j], s.pending[j])
    ensures Ready(p, WithResults(s, messages, count))
  {
    LoggedSteps(s.events, ToolResultsReceived(count));
    ResultsClose(s.messages, s.pending, messages);
    AppendKeepsCount(s, messages);
  }

  lemma SubmitKeeps(p: Profile, s: Session, results: seq<ToolResult>, active: nat)
    requires Inv(p, s)
    ensures Inv(p, Submit(s, results, active).0)
  {
    if Submit(s, results, active).0 != s {
      AnswersPending(s.pending, results);
      var messages := AnswerMessages(s.pending, results).value;
      WithResultsIsReady(p, s, messages, |results|);
      var s1 := WithResults(s, messages, |results|);
      assert Submit(s, results, active) == Scheduled(s1, active);
      if Unschedulable(s1, active).None? {
        ScheduledKeeps(p, s1, active);
      } else {
        LoggedSteps(s.events, ToolResultsReceived(|results|));
      }
    }
  }

  lemma WithInputIsReady(p: Profile, s: Session, prompt: string)
    requires Inv(p, s) && s.status.Completed? && |s.events| < MAX_EVENTS - SCHEDULING_RESERVE
    ensures Ready(p, WithInput(s, prompt))
  {
    LoggedSteps(s.events, UserInputReceived);
    StandaloneAppended(s.messages, Plain(User, prompt));
    AppendKeepsCount(s, [Plain(User, prompt)]);
  }

  lemma ContinueKeeps(p: Profile, s: Session, prompt: string, effortSupported: bool, active: nat)
    requires Inv(p, s)
    ensures Inv(p, Continue(p, s, prompt, effortSupported, active).0)
  {
    if Continue(p, s, prompt, effortSupported, active).0 != s {
      var s1 := WithInput(s, prompt);
      WithInputIsReady(p, s, prompt);
      assert Continue(p, s, prompt, effortSupported, active) == Scheduled(s1, active);
      if Unschedulable(s1, active).None? {
        ScheduledKeeps(p, s1, active);
      } else {
        LoggedSteps(s.events, UserInputReceived);
      }
    }
  }

  lemma NewSessionIsReady(p: Profile, instructions: Option<string>, prompt: string)
    ensures Ready(p, NewSession(Opening(instructions, prompt)))
  {
    FirstEntry();
    ClosedStandalone(Opening(instructions, prompt));
  }

  lemma FirstEntry()
    ensures var log := Logged([], SessionCreated);
            && Numbered(log) && |log| == 1 && Starts(log) == 0
            && Advance(StageOf(log), ProviderStarted) == Called(1)
  {
    LoggedSteps([], SessionCreated);
  }

  // ---------------------------------------------------------------------------------------
  // Every run
  // ---------------------------------------------------------------------------------------

  /** What every step of a session keeps. */
  lemma NextKeeps(p: Profile, s: Session, step: Step)
    requires Inv(p, s) && Enabled(p, s, step)
    ensures Inv(p, Next(p, s, step))
  {
    match step
    case PlanStep(plan) =>
      PlannedAgrees(p, s, plan);
      EnterKeeps(p, s, plan);
    case PushStep(delta) => PushKeeps(p, s, delta);
    case FinishStep(answer) => FinishKeeps(p, s, answer);
    case FailStep(code) => FailKeeps(p, s, code);
    case SubmitStep(results, active) => SubmitKeeps(p, s, results, active);
    case ContinueStep(prompt, effortSupported, active) => ContinueKeeps(p, s, prompt, effortSupported, active);
    case CancelStep => CancelKeeps(p, s);
  }

  lemma FollowsKeeps(p: Profile, s: Session, t: Session)
    requires Inv(p, s) && Follows(p, s, t)
    ensures Inv(p, t)
  {
    var step :| Enabled(p, s, step) && t == Next(p, s, step);
    NextKeeps(p, s, step);
  }

  lemma RunOpens(p: Profile, trace: seq<Session>)
    requires IsRun(p, trace)
    ensures Inv(p, trace[0]) && trace[0].phase.Probing?
  {
    var instructions: Option<string>, prompt: string, active: nat :|
      trace[0] == Scheduled(NewSession(Opening(instructions, prompt)), active).0 && trace[0].status.Running?;
    NewSessionIsReady(p, instructions, prompt);
    ScheduledKeeps(p, NewSession(Opening(instructions, prompt)), active);
  }

  /** The invariant holds in every state of every run. */
  lemma RunKeeps(p: Profile, trace: seq<Session>, n: nat)
    requires IsRun(p, trace) && n < |trace|
    ensures Inv(p, trace[n])
  {
    RunOpens(p, trace);
    var good := s => Inv(p, s);
    forall s, t | good(s) && NextOf(p)(s, t) ensures good(t) {
      FollowsKeeps(p, s, t);
    }
    EverAfter(trace, NextOf(p), good, 0, n);
  }
}
