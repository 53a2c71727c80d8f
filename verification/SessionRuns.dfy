/** Results about whole runs of a session. */
module SessionRuns {
  import opened Contracts
  import opened Transcript
  import opened Turns
  import opened ContextPlanner
  import opened SessionEvents
  import opened TextDeltas
  import opened SessionMachine
  import opened SessionInvariants
  import opened Traces

  // ---------------------------------------------------------------------------------------
  // Transcript
  // ---------------------------------------------------------------------------------------

  lemma AnswerAppends(p: Profile, s: Session, plan: ContextPlan, answer: Answer)
    ensures s.messages <= TakeAnswer(p, s, plan, answer).messages
  {
  }

  predicate SameRecord(s: Session, t: Session) { t.messages == s.messages && t.observed == s.observed }

  lemma FailKeepsRecord(s: Session, code: Code)
    ensures SameRecord(s, Fail(s, code))
  {
  }

  lemma CancelKeepsRecord(s: Session)
    ensures SameRecord(s, Cancel(s))
  {
  }

  lemma EnterKeepsRecord(p: Profile, s: Session, plan: ContextPlan)
    ensures SameRecord(s, Enter(p, s, plan))
  {
  }

  lemma PushKeepsRecord(p: Profile, s: Session, delta: string)
    requires s.phase.Calling? && s.phase.emitter.Some?
    ensures SameRecord(s, SessionMachine.Push(p, s, delta))
  {
    var (e, events, failure) := Pushed(s.phase.emitter.value, s.events, delta, RemainingChars(p, s));
    if failure.Some? {
      FailKeepsRecord(s.(events := events, phase := s.phase.(emitter := Some(e))), failure.value);
    }
  }

  lemma SubmitAppends(s: Session, results: seq<ToolResult>, active: nat)
    ensures var t := Submit(s, results, active).0; s.messages <= t.messages && t.observed == s.observed
  {
  }

  lemma ContinueAppends(p: Profile, s: Session, prompt: string, effortSupported: bool, active: nat)
    ensures var t := Continue(p, s, prompt, effortSupported, active).0;
            s.messages <= t.messages && t.observed == s.observed
  {
  }

  lemma FinishAppends(p: Profile, s: Session, answer: Answer)
    requires s.phase.Calling?
    ensures s.messages <= Finish(p, s, answer).messages
  {
    if FlushedOut(s).Ok? {
      AnswerAppends(p, FlushedOut(s).value, s.phase.plan, answer);
    }
  }

  lemma NextAppends(p: Profile, s: Session, step: Step)
    requires Enabled(p, s, step)
    ensures s.messages <= Next(p, s, step).messages
  {
    match step
    case PlanStep(plan) => EnterKeepsRecord(p, s, plan);
    case PushStep(delta) => PushKeepsRecord(p, s, delta);
    case FinishStep(answer) => FinishAppends(p, s, answer);
    case FailStep(code) => FailKeepsRecord(s, code);
    case SubmitStep(results, active) => SubmitAppends(s, results, active);
    case ContinueStep(prompt, effortSupported, active) => ContinueAppends(p, s, prompt, effortSupported, active);
    case CancelStep => CancelKeepsRecord(s);
  }

  lemma FollowsAppends(p: Profile, s: Session, t: Session)
    requires Follows(p, s, t)
    ensures s.messages <= t.messages
  {
    var step :| Enabled(p, s, step) && t == Next(p, s, step);
    NextAppends(p, s, step);
  }

  /** The transcript is append-only over the whole life of a session. */
  lemma TranscriptIsAppendOnly(p: Profile, trace: seq<Session>, i: nat, j: nat)
    requires IsRun(p, trace) && i <= j < |trace|
    ensures trace[i].messages <= trace[j].messages
  {
    RunKeeps(p, trace, i);
    var good := s => Inv(p, s) && trace[i].messages <= s.messages;
    forall s, t | good(s) && NextOf(p)(s, t) ensures good(t) {
      FollowsKeeps(p, s, t);
      FollowsAppends(p, s, t);
    }
    EverAfter(trace, NextOf(p), good, i, j);
  }

  ghost predicate SentWholeTurns(s: Session) {
    s.phase.Calling? ==> WholeTurns(s.messages, s.phase.plan.indices)
  }

  lemma FailEndsCall(p: Profile, s: Session, code: Code)
    ensures Fail(s, code).phase.Idle? && FailedWith(s, code).phase.Idle?
  {
  }

  lemma FinishEndsCall(p: Profile, s: Session, answer: Answer)
    requires s.phase.Calling?
    ensures Finish(p, s, answer).phase.Idle?
  {
  }

  lemma EnterSendsPlan(p: Profile, s: Session, plan: ContextPlan)
    ensures Enter(p, s, plan).phase.Calling? ==> Enter(p, s, plan).messages == s.messages
                                                 && (s.phase.Probing? ==> Enter(p, s, plan).phase.plan == plan)
  {
  }

  lemma NextKeepsWholeTurns(p: Profile, s: Session, step: Step)
    requires Inv(p, s) && SentWholeTurns(s) && Enabled(p, s, step)
    ensures SentWholeTurns(Next(p, s, step))
  {
    match step
    case PlanStep(plan) =>
      PlannedAgrees(p, s, plan);
      EnterSendsPlan(p, s, plan);
    case PushStep(delta) => PushKeepsPlan(p, s, delta);
    case FinishStep(answer) => FinishEndsCall(p, s, answer);
    case FailStep(code) => FailEndsCall(p, s, code);
    case SubmitStep(results, active) => RequestsKeepPlan(p, s, results, "", false, active);
    case ContinueStep(prompt, effortSupported, active) =>
      RequestsKeepPlan(p, s, [], prompt, effortSupported, active);
    case CancelStep => RequestsKeepPlan(p, s, [], "", false, 0);
  }

  lemma RequestsKeepPlan(p: Profile, s: Session, results: seq<ToolResult>, prompt: string, effortSupported: bool,
                         active: nat)
    requires SentWholeTurns(s)
    ensures SentWholeTurns(Submit(s, results, active).0)
    ensures SentWholeTurns(Continue(p, s, prompt, effortSupported, active).0)
    ensures SentWholeTurns(Cancel(s))
  {
  }

  lemma PushKeepsPlan(p: Profile, s: Session, delta: string)
    requires Inv(p, s) && SentWholeTurns(s) && s.phase.Calling? && s.phase.emitter.Some?
    ensures SentWholeTurns(SessionMachine.Push(p, s, delta))
  {
    var (e, events, failure) := Pushed(s.phase.emitter.value, s.events, delta, RemainingChars(p, s));
    if failure.Some? {
      FailEndsCall(p, s.(events := events, phase := s.phase.(emitter := Some(e))), failure.value);
    }
  }

  lemma FollowsKeepsWholeTurns(p: Profile, s: Session, t: Session)
    requires Inv(p, s) && SentWholeTurns(s) && Follows(p, s, t)
    ensures SentWholeTurns(t)
  {
    var step :| Enabled(p, s, step) && t == Next(p, s, step);
    NextKeepsWholeTurns(p, s, step);
  }

  lemma RunKeepsWholeTurns(p: Profile, trace: seq<Session>, n: nat)
    requires IsRun(p, trace) && n < |trace|
    ensures SentWholeTurns(trace[n])
  {
    RunOpens(p, trace);
    var good := s => Inv(p, s) && SentWholeTurns(s);
    forall s, t | good(s) && NextOf(p)(s, t) ensures good(t) {
      FollowsKeeps(p, s, t);
      FollowsKeepsWholeTurns(p, s, t);
    }
    EverAfter(trace, NextOf(p), good, 0, n);
  }

  /** Every window handed to a provider, in every run, is the instructions and a suffix of whole
      turns in which each request is answered at once, in order, and no result stands alone. */
  lemma SentWindowsAreClosed(p: Profile, trace: seq<Session>, n: nat)
    requires IsRun(p, trace) && n < |trace| && trace[n].phase.Calling?
    ensures var plan := trace[n].phase.plan;
            && ToolClosed(plan.messages)
            && WholeTurns(trace[n].messages, plan.indices)
            && InBounds(trace[n].messages, plan.indices)
            && plan.messages == Pick(trace[n].messages, plan.indices)
  {
    RunKeeps(p, trace, n);
    RunKeepsWholeTurns(p, trace, n);
  }

  lemma WindowStays(p: Profile, trace: seq<Session>, i: nat, j: nat)
    requires IsRun(p, trace) && i <= j < |trace| && trace[i].phase.Calling?
    ensures var plan := trace[i].phase.plan;
            InBounds(trace[j].messages, plan.indices) && Pick(trace[j].messages, plan.indices) == plan.messages
  {
    RunKeeps(p, trace, i);
    TranscriptIsAppendOnly(p, trace, i, j);
  }

  /** `count` is what a provider reported for the window it was sent with `plan`. */
  predicate CountOf(count: ObservedPrompt, plan: ContextPlan) {
    && count.indices == IndexSet(plan.indices)
    && |plan.messages| <= count.promptTokens <= MAX_PROMPT_TOKENS
  }

  lemma ChargeKeepsCount(p: Profile, s: Session, answer: Answer)
    ensures Charge(p, s, answer).observed == s.observed
  {
  }

  lemma FinishCounts(p: Profile, s: Session, answer: Answer)
    requires s.phase.Calling?
    ensures var t := Finish(p, s, answer);
            t.observed == s.observed || (t.observed.Some? && CountOf(t.observed.value, s.phase.plan))
  {
    if FlushedOut(s).Ok? {
      var s1 := FlushedOut(s).value;
      ChargeKeepsCount(p, s1.(observed := ObservedAfter(s1, s.phase.plan, answer)), answer);
    }
  }

  predicate CountOrSame(s: Session, t: Session) {
    || t.observed == s.observed
    || (s.phase.Calling? && t.observed.Some? && CountOf(t.observed.value, s.phase.plan))
  }

  lemma NextCounts(p: Profile, s: Session, step: Step)
    requires Enabled(p, s, step)
    ensures CountOrSame(s, Next(p, s, step))
  {
    match step
    case PlanStep(plan) => EnterKeepsRecord(p, s, plan);
    case PushStep(delta) => PushKeepsRecord(p, s, delta);
    case FinishStep(answer) => FinishCounts(p, s, answer);
    case FailStep(code) => FailKeepsRecord(s, code);
    case SubmitStep(results, active) => SubmitAppends(s, results, active);
    case ContinueStep(prompt, effortSupported, active) => ContinueAppends(p, s, prompt, effortSupported, active);
    case CancelStep => CancelKeepsRecord(s);
  }

  /** A step replaces the stored count only by the count of the call it ends. */
  lemma CountStep(p: Profile, s: Session, t: Session)
    requires Follows(p, s, t)
    ensures CountOrSame(s, t)
  {
    var step :| Enabled(p, s, step) && t == Next(p, s, step);
    NextCounts(p, s, step);
  }

  ghost predicate CountedAt(trace: seq<Session>, i: nat, count: ObservedPrompt) {
    i < |trace| && trace[i].phase.Calling? && CountOf(count, trace[i].phase.plan)
  }

  /** A count that no state had at first came from one of the calls before. */
  lemma {:induction false} CountCameFrom(trace: seq<Session>, n: nat) returns (i: nat)
    requires n < |trace| && trace[n].observed.Some? && trace[0].observed.None?
    requires forall k: nat | k < n :: CountOrSame(trace[k], trace[k + 1])
    ensures i < n && CountedAt(trace, i, trace[n].observed.value)
  {
    assert CountOrSame(trace[n - 1], trace[n - 1 + 1]);
    if trace[n].observed == trace[n - 1].observed {
      i := CountCameFrom(trace, n - 1);
    } else {
      i := n - 1;
    }
  }

  lemma RunCountsStep(p: Profile, trace: seq<Session>, k: nat)
    requires IsRun(p, trace) && k + 1 < |trace|
    ensures CountOrSame(trace[k], trace[k + 1])
  {
    assert NextOf(p)(trace[k], trace[k + 1]);
    CountStep(p, trace[k], trace[k + 1]);
  }

  lemma RunOpensWithoutCount(p: Profile, trace: seq<Session>)
    requires IsRun(p, trace)
    ensures trace[0].observed.None?
  {
  }

  /** A stored count is the count of an earlier call of this run: it is at least the number of
      messages that call sent, and its indices denote those very messages ever after. */
  lemma CountedMessagesStay(p: Profile, trace: seq<Session>, n: nat)
    requires IsRun(p, trace) && n < |trace| && trace[n].observed.Some?
    ensures exists i: nat | i < n ::
              && CountedAt(trace, i, trace[n].observed.value)
              && InBounds(trace[n].messages, trace[i].phase.plan.indices)
              && Pick(trace[n].messages, trace[i].phase.plan.indices) == trace[i].phase.plan.messages
  {
    RunOpensWithoutCount(p, trace);
    forall k: nat | k < n ensures CountOrSame(trace[k], trace[k + 1]) {
      RunCountsStep(p, trace, k);
    }
    var i := CountCameFrom(trace, n);
    WindowStays(p, trace, i, n);
  }

  /** Planning in a run never meets a count of zero, so its exact conditions apply. */
  lemma CountsInRunsArePositive(p: Profile, trace: seq<Session>, n: nat, window: ContextWindow,
                                measure: seq<Message> -> nat)
    requires IsRun(p, trace) && n < |trace|
    ensures CountsArePositive(RequestFor(p, trace[n], window, measure))
  {
    RunKeeps(p, trace, n);
  }

  // ---------------------------------------------------------------------------------------
  // Log and limits
  // ---------------------------------------------------------------------------------------

  /** In every reachable state the log is numbered from one, holds at most 512 entries and at
      most 511 while the session may still end, is a valid log, and counts the calls. */
  lemma LogsInRuns(p: Profile, trace: seq<Session>, n: nat)
    requires IsRun(p, trace) && n < |trace|
    ensures var s := trace[n];
            && Numbered(s.events) && |s.events| <= MAX_EVENTS
            && (!Terminal(s.status) ==> HasRoom(s.events, SessionCanceled))
            && !StageOf(s.events).Invalid?
            && s.providerCalls == Starts(s.events)
  {
    RunKeeps(p, trace, n);
  }

  /** Tool rounds and output stay within the profile's limits; rounds strictly so while
      requests are pending. A session may wait with nothing pending only at the log's limit. */
  lemma LimitsInRuns(p: Profile, trace: seq<Session>, n: nat)
    requires IsRun(p, trace) && n < |trace|
    ensures var s := trace[n];
            && s.toolRounds <= p.limits.maxToolRounds && s.outputChars <= p.limits.maxOutputChars
            && (s.status.WaitingForTool? ==>
                  s.toolRounds < p.limits.maxToolRounds || |s.events| == MAX_EVENTS - SCHEDULING_RESERVE)
            && (s.pending != [] ==> s.status.WaitingForTool? || s.status.Failed?)
  {
    RunKeeps(p, trace, n);
  }

  /** Failure and cancellation are final: nothing in the record changes any more. */
  lemma FinalStatesAbsorb(p: Profile, s: Session, step: Step)
    requires Inv(p, s) && (s.status.Failed? || s.status.Canceled?) && Enabled(p, s, step)
    ensures Next(p, s, step) == s
  {
  }

  lemma CompletingAnswer(p: Profile, s: Session, plan: ContextPlan, answer: Answer)
    requires s.status.Running? && TakeAnswer(p, s, plan, answer).status.Completed?
    ensures var t := TakeAnswer(p, s, plan, answer);
            && t.finalText == Some(answer.text) && t.providerCalls == s.providerCalls
            && t.events == Logged(s.events, SessionCompleted(answer.text))
  {
  }

  /** A streamed session that completes has logged exactly its final text for the last round. */
  lemma StreamedTextIsFinalText(p: Profile, s: Session, answer: Answer)
    requires Inv(p, s) && s.phase.Calling? && s.phase.emitter.Some?
    requires Finish(p, s, answer).status.Completed?
    ensures var t := Finish(p, s, answer);
            t.finalText == Some(answer.text) && RoundText(t.events, t.providerCalls) == answer.text
  {
    FlushedOutKeeps(p, s);
    var s1 := FlushedOut(s).value;
    assert Finish(p, s, answer) == TakeAnswer(p, s1, s1.phase.plan, answer);
    CompletingAnswer(p, s1, s1.phase.plan, answer);
    LoggedSteps(s1.events, SessionCompleted(answer.text));
  }

  /** A planned call always enters the provider: its reduction notice has room in the log, and
      so have the deltas when it streams. */
  lemma PlannedCallsEnter(p: Profile, s: Session, plan: ContextPlan)
    requires Inv(p, s) && s.phase.Probing? && plan.failure.None?
    ensures var t := Enter(p, s, plan);
            && t.phase.Calling? && t.phase.plan == plan
            && (t.phase.emitter.Some? <==> p.outputSchema.None? && p.streams)
            && t.events == (if NoticeOf(s, plan).Some? then Logged(s.events, NoticeOf(s, plan).value) else s.events)
  {
    assert |Notified(s.(context := Some(plan)), plan).events| <= MAX_EVENTS - SCHEDULING_RESERVE + 1;
  }

  // ---------------------------------------------------------------------------------------
  // Follow-ups
  // ---------------------------------------------------------------------------------------

  /** The one length of the log at which a follow-up passes the first check and fails the second. */
  const BOUNDARY: nat := MAX_EVENTS - SCHEDULING_RESERVE - 1

  predicate AnswersEverything(s: Session, results: seq<ToolResult>) {
    && s.status.WaitingForTool?
    && MatchesPending(results, s.pending)
    && AnswerMessages(s.pending, results).Some?
  }

  /** Submitting tool results: accepted exactly when they answer everything pending, fewer than
      503 entries are logged and a slot is free. */
  lemma SubmitAcceptedExactly(p: Profile, s: Session, results: seq<ToolResult>, active: nat)
    requires Inv(p, s)
    ensures Submit(s, results, active).1.None? <==>
              AnswersEverything(s, results) && active < MAX_ACTIVE && |s.events| < BOUNDARY
  {
  }

  /** What a submission that answers everything comes to. */
  lemma SubmitAnswered(s: Session, results: seq<ToolResult>, active: nat)
    requires AnswersEverything(s, results) && s.phase.Idle?
    ensures Submit(s, results, active)
         == if |s.events| > BOUNDARY then (s, Some(EventLimitReached))
            else if active >= MAX_ACTIVE then (s, Some(CapacityExceeded))
            else Scheduled(WithResults(s, AnswerMessages(s.pending, results).value, |results|), active)
  {
  }

  lemma SchedulingAtBoundary(s: Session, active: nat)
    requires s.phase.Idle? && |s.events| == BOUNDARY + 1
    ensures Scheduled(s, active) == (s, Some(EventLimitReached))
  {
  }

  /** A refused submission changes nothing, except at exactly 503 entries, where the results are
      kept and only the next call is refused. */
  lemma SubmitIsAtomicExceptAtBoundary(p: Profile, s: Session, results: seq<ToolResult>, active: nat)
    requires Inv(p, s) && Submit(s, results, active).1.Some?
    ensures var (t, refusal) := Submit(s, results, active);
            if AnswersEverything(s, results) && active < MAX_ACTIVE && |s.events| == BOUNDARY then
              && t == WithResults(s, AnswerMessages(s.pending, results).value, |results|) && t != s
              && refusal == Some(EventLimitReached) && t.status.WaitingForTool? && t.pending == []
            else t == s
  {
    if AnswersEverything(s, results) {
      SubmitAnswered(s, results, active);
      if |s.events| == BOUNDARY {
        var kept := WithResults(s, AnswerMessages(s.pending, results).value, |results|);
        assert |kept.events| == |s.events| + 1;
        SchedulingAtBoundary(kept, active);
      }
    }
  }

  predicate AsksMore(p: Profile, s: Session, prompt: string, effortSupported: bool) {
    s.status.Completed? && !p.blank(prompt) && |prompt| <= p.limits.maxInputChars && effortSupported
  }

  /** Follow-up input, likewise. */
  lemma ContinueIsAtomicExceptAtBoundary(p: Profile, s: Session, prompt: string, effortSupported: bool, active: nat)
    requires Inv(p, s)
    ensures var (t, refusal) := Continue(p, s, prompt, effortSupported, active);
            var asked := AsksMore(p, s, prompt, effortSupported) && active < MAX_ACTIVE;
            && (refusal.None? <==> asked && |s.events| < BOUNDARY)
            && (refusal.Some? ==> (t != s <==> asked && |s.events| == BOUNDARY))
            && (refusal.Some? && t != s ==>
                  refusal == Some(EventLimitReached) && t == WithInput(s, prompt) && t.status.Completed?)
  {
    if AsksMore(p, s, prompt, effortSupported) && |s.events| <= BOUNDARY {
      assert Logged(s.events, UserInputReceived) != s.events;
    }
  }

  /** A record without a provider task whose log has reached the scheduling limit. */
  predicate Exhausted(s: Session) {
    s.phase.Idle? && |s.events| >= MAX_EVENTS - SCHEDULING_RESERVE
  }

  lemma ExhaustedStays(p: Profile, s: Session, step: Step)
    requires Inv(p, s) && Exhausted(s) && Enabled(p, s, step)
    ensures Exhausted(Next(p, s, step)) && Next(p, s, step).providerCalls == s.providerCalls
  {
  }

  lemma FollowsExhausted(p: Profile, s: Session, t: Session)
    requires Inv(p, s) && Exhausted(s) && Follows(p, s, t)
    ensures Exhausted(t) && t.providerCalls == s.providerCalls
  {
    var step :| Enabled(p, s, step) && t == Next(p, s, step);
    ExhaustedStays(p, s, step);
  }

  /** After that no provider call can ever start on the record again. */
  lemma ExhaustedForever(p: Profile, trace: seq<Session>, i: nat, j: nat)
    requires IsRun(p, trace) && i <= j < |trace| && Exhausted(trace[i])
    ensures Exhausted(trace[j]) && trace[j].providerCalls == trace[i].providerCalls
  {
    RunKeeps(p, trace, i);
    var good := s => Inv(p, s) && Exhausted(s) && s.providerCalls == trace[i].providerCalls;
    forall s, t | good(s) && NextOf(p)(s, t) ensures good(t) {
      FollowsKeeps(p, s, t);
      FollowsExhausted(p, s, t);
    }
    EverAfter(trace, NextOf(p), good, i, j);
  }
}
