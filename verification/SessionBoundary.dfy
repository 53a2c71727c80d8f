/** Two runs, under a profile that can be configured, to the one log length at which a refused
    follow-up is not undone. */
module SessionBoundary {
  import opened Contracts
  import opened Turns
  import opened PlanSearch
  import opened ContextPlanner
  import opened SessionEvents
  import opened TextDeltas
  import opened SessionMachine
  import opened SessionInvariants
  import opened SessionRuns
  import opened Traces

  ghost predicate Reachable(p: Profile, s: Session) {
    exists trace: seq<Session> :: IsRun(p, trace) && trace[|trace| - 1] == s
  }

  lemma ReachableIsSound(p: Profile, s: Session)
    requires Reachable(p, s)
    ensures Inv(p, s)
  {
    var trace: seq<Session> :| IsRun(p, trace) && trace[|trace| - 1] == s;
    RunKeeps(p, trace, |trace| - 1);
  }

  lemma ReachNext(p: Profile, s: Session, step: Step)
    requires Reachable(p, s) && Enabled(p, s, step)
    ensures Reachable(p, Next(p, s, step))
  {
    var trace: seq<Session> :| IsRun(p, trace) && trace[|trace| - 1] == s;
    Longer(p, trace, Next(p, s, step));
  }

  lemma Longer(p: Profile, trace: seq<Session>, t: Session)
    requires IsRun(p, trace) && Follows(p, trace[|trace| - 1], t)
    ensures Reachable(p, t)
  {
    LinkedMore(trace, NextOf(p), t);
    var all := trace + [t];
    assert all[0] == trace[0];
    assert IsRun(p, all) && all[|all| - 1] == t;
  }

  // ---------------------------------------------------------------------------------------
  // A profile that can be configured, and its calls
  // ---------------------------------------------------------------------------------------

  /** The profile's limits can be configured, and no requests are an empty JSON list. */
  predicate Legal(p: Profile) { Configurable(p.limits) && p.requestsChars([]) == 2 }

  const REQUEST: ToolRequest := ToolRequest("r", "t", Obj([]))
  const RESULT: ToolResult := ToolResult("r", "t", Some("{}"))

  /** The JSON length of a list of so many requests like `REQUEST`. */
  function ListChars(requests: seq<ToolRequest>): nat { if requests == [] then 2 else 43 * |requests| }

  /** One tool, one tool round, and streamed text. */
  const PROFILE: Profile := Profile(
    Limits(200_000, 100_000, 4_096, 1), [ToolDefinition("t", "", Obj([("type", Str("object"))]))], None, true,
    (id: string) => true, (arguments: Json, schema: Json) => true, (text: string, schema: Json) => true,
    ListChars, (text: string) => text == "", (value: Json) => "{}")

  const MESSAGE_CHARS: nat := 300

  function NoWindow(): ContextWindow { ContextWindow(None, "unknown") }

  /** A prompt measure for transcripts of short messages. */
  function ShortMessages(): seq<Message> -> nat { (messages: seq<Message>) => MESSAGE_CHARS * |messages| }

  function WholeRequest(p: Profile, s: Session): Request { RequestFor(p, s, NoWindow(), ShortMessages()) }

  lemma WholeWindow(r: Request)
    ensures var turns := |Partitioned(r.messages).turns|;
            Searched(Partitioned(r.messages), turns) && Window(r, turns) == r.messages
  {
    var p, turns := Partitioned(r.messages), |Partitioned(r.messages).turns|;
    SuffixIsContiguous(r.messages, turns);
    SuffixInBounds(r.messages, turns);
    PickSuffix(r.messages, turns, Suffix(p, turns));
    assert r.messages[..|p.system|] + r.messages[|p.system|..] == r.messages;
  }

  /** Without a capacity and with room for the whole transcript, nothing is reduced. */
  lemma WholePlanReducesNothing(p: Profile, s: Session)
    requires MESSAGE_CHARS * |s.messages| <= p.limits.maxInputChars
    ensures var plan := PlanOf(WholeRequest(p, s));
            plan.failure.None? && !plan.Reduced() && !plan.OutputReduced() && IsPlanned(p, s, plan)
  {
    var r := WholeRequest(p, s);
    UnknownCapacity(ChoicesOf(r), r.limits.maxOutputTokens);
    DroppedTogether(r);
    WholeWindow(r);
    assert FitsChars(r, |Partitioned(r.messages).turns|);
  }

  /** The first call of a session, under any profile that can be configured. */
  lemma FirstCall(p: Profile) returns (s: Session)
    requires Legal(p)
    ensures Reachable(p, s) && s.phase.Calling? && s.status.Running? && s.outputChars == 0 && |s.events| == 2
    ensures s.phase.emitter.Some? <==> p.outputSchema.None? && p.streams
  {
    var start := Scheduled(NewSession(Opening(None, "x")), 0).0;
    assert IsRun(p, [start]) && [start][|[start]| - 1] == start;
    ReachableIsSound(p, start);
    WholePlanReducesNothing(p, start);
    var plan := PlanOf(WholeRequest(p, start));
    s := Enter(p, start, plan);
    ReachNext(p, start, PlanStep(plan));
    PlannedCallsEnter(p, start, plan);
  }

  /** What the runs below keep an eye on. */
  ghost predicate At(s: Session, entries: nat, rounds: nat) {
    && Reachable(PROFILE, s)
    && |s.events| == entries && s.toolRounds == rounds
    && |s.messages| <= entries && s.outputChars <= 50 * entries
  }

  predicate Unused(e: Emitter) {
    e.text == "" && e.pending == "" && !e.emittedOnce && e.emittedEvents == 0 && e.eventBudget >= 2
  }

  /** In the provider, nothing streamed yet. */
  ghost predicate AtCall(s: Session, entries: nat, rounds: nat) {
    && At(s, entries, rounds)
    && s.status.Running? && s.phase.Calling? && s.phase.emitter.Some? && Unused(s.phase.emitter.value)
  }

  lemma NewEmitterIsUnused(eventCount: nat, round: nat, remainingChars: nat)
    requires NewEmitter(eventCount, round, remainingChars).Some?
    ensures Unused(NewEmitter(eventCount, round, remainingChars).value)
  {
  }

  lemma EnteredAfresh(s: Session, plan: ContextPlan)
    requires Enter(PROFILE, s, plan).phase.Calling? && s.phase.Probing?
    ensures var t := Enter(PROFILE, s, plan);
            && t == s.(context := Some(plan), events := t.events, phase := t.phase)
            && t.phase.emitter.Some? && Unused(t.phase.emitter.value)
  {
    var s2 := Notified(s.(context := Some(plan)), plan);
    assert Enter(PROFILE, s, plan) == EnterProvider(PROFILE, s2, plan);
    var emitter := NewEmitter(|s2.events|, s2.providerCalls, RemainingChars(PROFILE, s2));
    assert PROFILE.outputSchema.None? && PROFILE.streams;
    assert EnterProvider(PROFILE, s2, plan) == s2.(phase := Calling(plan, emitter));
    NewEmitterIsUnused(|s2.events|, s2.providerCalls, RemainingChars(PROFILE, s2));
  }

  lemma CallBegins(s: Session, entries: nat, rounds: nat) returns (t: Session)
    requires At(s, entries, rounds) && s.phase.Probing? && entries <= BOUNDARY
    ensures AtCall(t, entries, rounds)
  {
    ReachableIsSound(PROFILE, s);
    WholePlanReducesNothing(PROFILE, s);
    var plan := PlanOf(WholeRequest(PROFILE, s));
    t := Enter(PROFILE, s, plan);
    ReachNext(PROFILE, s, PlanStep(plan));
    PlannedCallsEnter(PROFILE, s, plan);
    EnteredAfresh(s, plan);
  }

  // ---------------------------------------------------------------------------------------
  // A turn of one logged delta: four entries
  // ---------------------------------------------------------------------------------------

  lemma FirstFragment(e: Emitter, events: seq<Event>, delta: string, remaining: nat)
    requires Unused(e) && 0 < |delta| <= remaining && |events| < MAX_EVENTS - 1
    ensures var logged := e.(text := delta, emittedOnce := true, emittedEvents := 1);
            Pushed(e, events, delta, remaining) == (logged, Logged(events, TextDelta(e.round, delta)), None)
  {
    assert e.text + delta == delta && e.pending + delta == delta;
  }

  /** In the provider, with everything streamed so far in the log. */
  ghost predicate Said(s: Session, text: string, entries: nat, rounds: nat) {
    && At(s, entries, rounds)
    && s.status.Running? && s.phase.Calling? && s.phase.emitter.Some?
    && s.phase.emitter.value.text == text && s.phase.emitter.value.pending == ""
  }

  lemma Speaks(s: Session, entries: nat, rounds: nat) returns (t: Session)
    requires AtCall(s, entries, rounds) && entries < BOUNDARY
    ensures Said(t, "x", entries + 1, rounds)
  {
    var e, remaining := s.phase.emitter.value, RemainingChars(PROFILE, s);
    FirstFragment(e, s.events, "x", remaining);
    t := SessionMachine.Push(PROFILE, s, "x");
    ReachNext(PROFILE, s, PushStep("x"));
  }

  /** The provider's answer is the text streamed. */
  lemma Completes(s: Session, text: string, entries: nat, rounds: nat) returns (t: Session)
    requires Said(s, text, entries, rounds) && |text| <= 1 && entries < BOUNDARY
    ensures At(t, entries + 1, rounds) && t.status.Completed? && t.phase.Idle?
  {
    var answer := Answer(text, [], None);
    assert FlushedOut(s) == Ok(s);
    assert Total(PROFILE, s, answer) == s.outputChars + |text| + 2;
    t := Finish(PROFILE, s, answer);
    ReachNext(PROFILE, s, FinishStep(answer));
  }

  lemma FollowUpIsScheduled(s: Session)
    requires s.status.Completed? && s.phase.Idle? && |s.events| < BOUNDARY
    ensures var t := Continue(PROFILE, s, "x", true, 0).0;
            && t.phase.Probing? && |t.events| == |s.events| + 2 && |t.messages| == |s.messages| + 1
            && t.toolRounds == s.toolRounds && t.outputChars == s.outputChars
  {
  }

  /** A follow-up prompt: two entries. */
  lemma FollowsUp(s: Session, entries: nat, rounds: nat) returns (t: Session)
    requires At(s, entries, rounds) && s.status.Completed? && entries + 2 <= BOUNDARY
    ensures At(t, entries + 2, rounds) && t.phase.Probing?
  {
    ReachableIsSound(PROFILE, s);
    FollowUpIsScheduled(s);
    t := Continue(PROFILE, s, "x", true, 0).0;
    ReachNext(PROFILE, s, ContinueStep("x", true, 0));
  }

  lemma {:induction false} AfterTurns(k: nat) returns (s: Session)
    requires 1 <= k <= 125
    ensures At(s, 4 * k, 0) && s.status.Completed?
  {
    var asked: Session;
    if k == 1 {
      asked := Scheduled(NewSession(Opening(None, "x")), 0).0;
      assert IsRun(PROFILE, [asked]) && [asked][|[asked]| - 1] == asked;
    } else {
      var before := AfterTurns(k - 1);
      asked := FollowsUp(before, 4 * (k - 1), 0);
    }
    var called := CallBegins(asked, 4 * k - 2, 0);
    var said := Speaks(called, 4 * k - 2, 0);
    s := Completes(said, "x", 4 * k - 1, 0);
  }

  // ---------------------------------------------------------------------------------------
  // The one tool round
  // ---------------------------------------------------------------------------------------

  lemma OnePending(requests: seq<ToolRequest>)
    requires requests == [REQUEST]
    ensures PendingOf(PROFILE, requests) == Ok(requests)
  {
    assert requests[..0] == [] && PendingOf(PROFILE, []) == Ok([]);
    assert FindTool(PROFILE.tools, "t") == Some(PROFILE.tools[0]);
    assert CheckRequest(PROFILE, [], REQUEST).None?;
    assert [] + [REQUEST] == requests;
  }

  /** The provider asks for the tool at once: one entry. */
  lemma Asks(s: Session, entries: nat) returns (t: Session)
    requires AtCall(s, entries, 0) && entries < BOUNDARY
    ensures At(t, entries + 1, 0) && t.status.WaitingForTool? && t.phase.Idle? && t.pending == [REQUEST]
  {
    var answer := Answer("", [REQUEST], None);
    assert FlushedOut(s) == Ok(s);
    OnePending([REQUEST]);
    assert Total(PROFILE, s, answer) == s.outputChars + 43;
    t := Finish(PROFILE, s, answer);
    ReachNext(PROFILE, s, FinishStep(answer));
  }

  lemma ResultsFit()
    ensures MatchesPending([RESULT], [REQUEST])
    ensures AnswerMessages([REQUEST], [RESULT]).Some? && |AnswerMessages([REQUEST], [RESULT]).value| == 1
  {
    assert RESULT in [RESULT] && REQUEST in [REQUEST];
    assert (set r | r in [RESULT] :: r.requestId) == {"r"};
    assert (set q | q in [REQUEST] :: q.id) == {"r"};
    assert [REQUEST][..0] == [];
    assert AnswerMessages([], [RESULT]) == Some([]);
  }

  /** The result arrives and the next call starts: two entries. */
  lemma Resumes(s: Session, entries: nat) returns (t: Session)
    requires At(s, entries, 0) && entries + 2 <= BOUNDARY
    requires s.status.WaitingForTool? && s.phase.Idle? && s.pending == [REQUEST]
    ensures At(t, entries + 2, 1) && t.phase.Probing?
  {
    ResultsFit();
    SubmitAnswered(s, [RESULT], 0);
    t := Submit(s, [RESULT], 0).0;
    ReachNext(PROFILE, s, SubmitStep([RESULT], 0));
  }

  // ---------------------------------------------------------------------------------------
  // The boundary
  // ---------------------------------------------------------------------------------------

  /** A reachable session under a profile that can be configured, waiting for tools with exactly
      503 entries. The answers to everything pending are refused and kept, and leave it waiting
      with nothing pending and all its tool rounds used. */
  ghost predicate ResultsRefusedAndKept(p: Profile, s: Session, results: seq<ToolResult>) {
    && Legal(p) && Reachable(p, s) && |s.events| == BOUNDARY && AnswersEverything(s, results)
    && var (t, refusal) := Submit(s, results, 0);
       && refusal.Some? && t != s && Reachable(p, t)
       && t.status.WaitingForTool? && t.pending == [] && t.toolRounds == p.limits.maxToolRounds
  }

  lemma WaitingBoundaryIsReached()
    ensures exists p, s, results :: ResultsRefusedAndKept(p, s, results)
  {
    var s := WaitsAtBoundary();
    RefusedWaiting(s);
  }

  lemma WaitsAtBoundary() returns (s: Session)
    ensures At(s, BOUNDARY, 0) && s.status.WaitingForTool? && s.pending == [REQUEST]
  {
    var turns := AfterTurns(125);
    var asked := FollowsUp(turns, 500, 0);
    var called := CallBegins(asked, 502, 0);
    s := Asks(called, 502);
  }

  lemma RefusedWaiting(s: Session)
    requires At(s, BOUNDARY, 0) && s.status.WaitingForTool? && s.pending == [REQUEST]
    ensures ResultsRefusedAndKept(PROFILE, s, [RESULT])
  {
    ResultsFit();
    ReachableIsSound(PROFILE, s);
    SubmitAcceptedExactly(PROFILE, s, [RESULT], 0);
    SubmitIsAtomicExceptAtBoundary(PROFILE, s, [RESULT], 0);
    ReachNext(PROFILE, s, SubmitStep([RESULT], 0));
  }

  /** Likewise one that has completed with exactly 503 entries: a proper follow-up prompt is
      refused and kept. */
  ghost predicate PromptRefusedAndKept(p: Profile, s: Session, prompt: string) {
    && Legal(p) && Reachable(p, s) && |s.events| == BOUNDARY && AsksMore(p, s, prompt, true)
    && var (t, refusal) := Continue(p, s, prompt, true, 0);
       refusal.Some? && t != s && Reachable(p, t) && t.messages == s.messages + [Plain(User, prompt)]
  }

  lemma CompletedBoundaryIsReached()
    ensures exists p, s, prompt :: PromptRefusedAndKept(p, s, prompt)
  {
    var s := CompletesAtBoundary();
    RefusedCompleted(s);
  }

  lemma CompletesAtBoundary() returns (s: Session)
    ensures At(s, BOUNDARY, 1) && s.status.Completed?
  {
    var resumed := AfterToolRound();
    var called := CallBegins(resumed, 501, 1);
    var said := Speaks(called, 501, 1);
    s := Completes(said, "x", 502, 1);
  }

  lemma AfterToolRound() returns (s: Session)
    ensures At(s, 501, 1) && s.phase.Probing?
  {
    var turns := AfterTurns(124);
    var asked := FollowsUp(turns, 496, 0);
    var called := CallBegins(asked, 498, 0);
    var waiting := Asks(called, 498);
    s := Resumes(waiting, 499);
  }

  lemma RefusedCompleted(s: Session)
    requires At(s, BOUNDARY, 1) && s.status.Completed?
    ensures PromptRefusedAndKept(PROFILE, s, "x")
  {
    ReachableIsSound(PROFILE, s);
    ContinueIsAtomicExceptAtBoundary(PROFILE, s, "x", true, 0);
    ReachNext(PROFILE, s, ContinueStep("x", true, 0));
  }
}
