/** The service objects: records and emitters whose fields the steps update in place. Every
    method is tied to the step of the session machine it performs. */
module RuntimeServiceObjects {
  import opened Contracts
  import opened PlanSearch
  import opened ContextPlanner
  import opened SessionEvents
  import opened TextDeltas
  import opened SessionMachine
  import opened SessionInvariants
  import opened SessionStore

  /** Where the provider task of a record stands. */
  datatype Task = NoTask | ProbingTask | CallingTask(plan: ContextPlan)

  /** Coalesces native fragments into log entries of its record. */
  class TextDeltaEmitter {
    const record: SessionRecord
    const round: nat
    const eventBudget: nat
    const chunkChars: nat
    var pending: string
    var text: string
    var emittedOnce: bool
    var emittedEvents: nat

    function State(): Emitter
      reads this
    {
      Emitter(round, pending, text, emittedOnce, emittedEvents, eventBudget, chunkChars)
    }

    constructor (record: SessionRecord, from: Emitter)
      ensures this.record == record && State() == from
    {
      this.record := record;
      round, eventBudget, chunkChars := from.round, from.eventBudget, from.chunkChars;
      pending, text, emittedOnce, emittedEvents := from.pending, from.text, from.emittedOnce, from.emittedEvents;
    }

    /** Writes the pending text; false when the budget or the log has no room for it. */
    method Flush() returns (ok: bool)
      modifies this, record`events
      ensures var done := Flushed(old(State()), old(record.events));
              && ok == done.Some?
              && (State(), record.events) == if ok then done.value else (old(State()), old(record.events))
    {
      if pending == "" {
        return true;
      }
      if emittedEvents >= eventBudget {
        return false;
      }
      ok := record.AddEvent(TextDelta(round, pending));
      if ok {
        pending := "";
        emittedOnce := true;
        emittedEvents := emittedEvents + 1;
      }
    }

    /** Takes one fragment; the text is written at once when it is the first or long enough. */
    method Push(delta: string) returns (failure: Option<Code>)
      modifies this, record`events
      ensures (State(), record.events, failure)
           == Pushed(old(State()), old(record.events), delta, record.Remaining())
    {
      if delta == "" {
        return Some(InvalidProviderResponse);
      }
      if |text| + |delta| > record.Remaining() {
        return Some(OutputLimitExceeded);
      }
      text := text + delta;
      pending := pending + delta;
      if !emittedOnce || |pending| >= chunkChars {
        var ok := Flush();
        return if ok then None else Some(EventLimitExceeded);
      }
      failure := None;
    }
  }

  class SessionRecord {
    const profile: Profile
    var status: Status
    var events: seq<Event>
    var messages: seq<Message>
    var pendingTools: seq<ToolRequest>
    var toolRounds: nat
    var providerCalls: nat
    var outputChars: nat
    var finalText: Option<string>
    var failure: Option<Code>
    var validation: Validation
    var context: Option<ContextPlan>
    var observed: Option<ObservedPrompt>
    var task: Task
    var emitter: TextDeltaEmitter?
    /** The task has been told to stop. */
    var cancelRequested: bool

    /** A record uses an emitter of its own, and only while the provider is at work. */
    ghost predicate Valid()
      reads this
    {
      emitter != null ==> emitter.record == this && task.CallingTask?
    }

    function CurrentPhase(): Phase
      reads this, emitter
    {
      match task
      case NoTask => Idle
      case ProbingTask => Probing
      case CallingTask(plan) => Calling(plan, if emitter == null then None else Some(emitter.State()))
    }

    function State(): Session
      reads this, emitter
    {
      Session(status, events, messages, pendingTools, toolRounds, providerCalls, outputChars, finalText,
              failure, validation, context, observed, CurrentPhase())
    }

    function Remaining(): nat
      reads this`outputChars
    {
      Max(0, profile.limits.maxOutputChars - outputChars)
    }

    constructor (profile: Profile, messages: seq<Message>)
      ensures Valid() && this.profile == profile && State() == NewSession(messages)
      ensures emitter == null
    {
      this.profile, this.messages, status := profile, messages, Created;
      events, pendingTools, toolRounds, providerCalls, outputChars := Logged([], SessionCreated), [], 0, 0, 0;
      finalText, failure, validation, context, observed := None, None, Undecided, None, None;
      task, emitter, cancelRequested := NoTask, null, false;
    }

    /** Appends to the log unless the limit for this kind of event is reached. */
    method AddEvent(kind: EventKind) returns (ok: bool)
      modifies this`events
      ensures ok == HasRoom(old(events), kind)
      ensures events == if ok then Logged(old(events), kind) else old(events)
      ensures State() == old(State()).(events := events)
    {
      ok := |events| < EventLimit(kind);
      if ok {
        events := events + [Event(|events| + 1, kind)];
      }
    }

    method RecordFailure(code: Code)
      requires Valid()
      modifies this
      ensures Valid() && emitter == null && State() == FailedWith(old(State()), code)
    {
      status, validation, failure := Failed, NotPassed, Some(code);
      task, emitter := NoTask, null;
      assert State() == old(State()).(status := Failed, validation := NotPassed, failure := Some(code), phase := Idle);
      var _ := AddEvent(SessionFailed(code));
    }

    /** Appends to the log, or fails the record when the limit for this kind is reached. */
    method LogOrFail(kind: EventKind)
      requires Valid() && emitter == null
      modifies this
      ensures Valid() && emitter == null
      ensures State() == if HasRoom(old(events), kind) then old(State()).(events := Logged(old(events), kind))
                         else FailedWith(old(State()), EventLimitExceeded)
    {
      var ok := AddEvent(kind);
      if !ok {
        RecordFailure(EventLimitExceeded);
      }
    }

    /** The flush on the way out of the provider call. */
    method FlushOut() returns (ok: bool)
      requires Valid()
      modifies this`events, emitter
      ensures Valid() && ok == FlushedOut(old(State())).Ok?
      ensures ok ==> State() == FlushedOut(old(State())).value
      ensures !ok ==> State() == old(State())
    {
      ok := true;
      if emitter != null {
        ok := emitter.Flush();
      }
    }

    /** The provider task begins. */
    method BeginCall()
      requires Valid() && task.NoTask? && HasRoom(events, ProviderStarted)
      modifies this
      ensures Valid() && emitter == old(emitter)
      ensures State() == old(State()).(status := Running, providerCalls := old(providerCalls) + 1, phase := Probing,
                                       events := Logged(old(events), ProviderStarted))
    {
      status := Running;
      providerCalls := providerCalls + 1;
      task := ProbingTask;
      var _ := AddEvent(ProviderStarted);
    }

    /** An error or a timeout inside the provider task. */
    method AdvanceFails(code: Code)
      requires Valid()
      modifies this, emitter
      ensures Valid() && emitter == null && State() == Fail(old(State()), code)
    {
      var ok := FlushOut();
      RecordFailure(if ok then code else EventLimitExceeded);
    }

    /** The provider task after the context probe: plan, log a reduction, enter the provider. */
    method AdvancePlan(window: ContextWindow, measure: seq<Message> -> nat)
      requires Valid() && task.ProbingTask?
      modifies this
      ensures Valid() && (emitter == null || fresh(emitter))
      ensures State() == Enter(profile, old(State()), PlanOf(RequestFor(profile, old(State()), window, measure)))
    {
      var plan := PlanContext(RequestFor(profile, State(), window, measure));
      EnterProvider(plan);
    }

    method EnterProvider(plan: ContextPlan)
      requires Valid() && task.ProbingTask?
      modifies this
      ensures Valid() && (emitter == null || fresh(emitter))
      ensures State() == Enter(profile, old(State()), plan)
    {
      context := Some(plan);
      if plan.failure.Some? {
        RecordFailure(if plan.failureCode.InputExceeded? then InputLimitExceeded else ContextWindowExceeded);
        return;
      }
      if plan.Reduced() || plan.OutputReduced() {
        var ok := AddEvent(ContextReduced(providerCalls, ReductionOf(plan)));
        if !ok {
          RecordFailure(EventLimitExceeded);
          return;
        }
      }
      OpenEmitter(plan);
    }

    /** The provider call begins, with an emitter when the answer is streamed as text. */
    method OpenEmitter(plan: ContextPlan)
      requires Valid()
      modifies this
      ensures Valid() && (emitter == null || fresh(emitter))
      ensures State() == SessionMachine.EnterProvider(profile, old(State()), plan)
    {
      emitter := null;
      if profile.outputSchema.None? && profile.streams {
        var start := NewEmitter(|events|, providerCalls, Remaining());
        if start.None? {
          RecordFailure(EventLimitExceeded);
          return;
        }
        emitter := new TextDeltaEmitter(this, start.value);
      }
      task := CallingTask(plan);
    }

    /** One streamed fragment; a refused one ends the call. */
    method AdvancePush(delta: string)
      requires Valid() && task.CallingTask? && emitter != null
      modifies this, emitter
      ensures Valid() && (emitter == null || emitter == old(emitter))
      ensures State() == SessionMachine.Push(profile, old(State()), delta)
    {
      var refused := emitter.Push(delta);
      if refused.Some? {
        AdvanceFails(refused.value);
      }
    }

    /** The answers to the pending requests join the transcript and close the round. */
    method TakeResults(answers: seq<Message>, count: nat)
      requires Valid() && HasRoom(events, ToolResultsReceived(count))
      modifies this
      ensures Valid() && emitter == old(emitter)
      ensures State() == WithResults(old(State()), answers, count)
    {
      messages := messages + answers;
      pendingTools := [];
      toolRounds := toolRounds + 1;
      var _ := AddEvent(ToolResultsReceived(count));
    }

    /** A follow-up prompt joins the transcript and the last turn's outcome is cleared. */
    method TakePrompt(prompt: string)
      requires Valid() && HasRoom(events, UserInputReceived)
      modifies this
      ensures Valid() && emitter == old(emitter)
      ensures State() == WithInput(old(State()), prompt)
    {
      finalText := None;
      failure := None;
      validation := Undecided;
      messages := messages + [Plain(User, prompt)];
      var _ := AddEvent(UserInputReceived);
    }

    /** The loop that checks an answer's requests and makes them pending. */
    method CollectRequests(requests: seq<ToolRequest>) returns (pending: Result<seq<ToolRequest>, Code>)
      ensures pending == PendingOf(profile, requests)
    {
      var collected: seq<ToolRequest> := [];
      for i := 0 to |requests|
        invariant PendingOf(profile, requests[..i]) == Ok(collected)
      {
        assert requests[..i + 1][..i] == requests[..i];
        var bad := CheckRequest(profile, collected, requests[i]);
        if bad.Some? {
          BadRequestDecides(profile, requests, i + 1);
          return Err(bad.value);
        }
        collected := collected + [requests[i]];
      }
      assert requests[..|requests|] == requests;
      pending := Ok(collected);
    }

    method AcceptRequests(answer: Answer)
      requires Valid()
      modifies this
      ensures Valid() && emitter == null && State() == TakeRequests(profile, old(State()), answer)
    {
      if toolRounds >= profile.limits.maxToolRounds {
        RecordFailure(ToolRoundLimitExceeded);
        return;
      }
      var pending := CollectRequests(answer.toolRequests);
      if pending.Err? {
        RecordFailure(pending.error);
        return;
      }
      RecordRequests(answer.text, pending.value);
    }

    method RecordRequests(text: string, pending: seq<ToolRequest>)
      requires Valid()
      modifies this
      ensures Valid() && emitter == null
      ensures var s1 := Recorded(old(State()), text, pending);
              State() == if HasRoom(s1.events, ToolRequests(pending))
                         then s1.(events := Logged(s1.events, ToolRequests(pending)))
                         else FailedWith(s1, EventLimitExceeded)
    {
      messages := messages + [Message(Assistant, text, pending, None, None)];
      pendingTools := pending;
      status, task, emitter := WaitingForTool, NoTask, null;
      assert State() == Recorded(old(State()), text, pending);
      LogOrFail(ToolRequests(pending));
    }

    method AcceptText(answer: Answer)
      requires Valid()
      modifies this
      ensures Valid() && emitter == null && State() == TakeText(profile, old(State()), answer)
    {
      if profile.outputSchema.Some? && !profile.validOutput(answer.text, profile.outputSchema.value) {
        RecordFailure(SchemaValidationFailed);
        return;
      }
      RecordText(answer.text);
    }

    method RecordText(text: string)
      requires Valid()
      modifies this
      ensures Valid() && emitter == null
      ensures var s1 := old(State()).(messages := old(messages) + [Plain(Assistant, text)], finalText := Some(text),
                                      validation := Passed, status := Completed, phase := Idle);
              State() == if HasRoom(s1.events, SessionCompleted(text))
                         then s1.(events := Logged(s1.events, SessionCompleted(text)))
                         else FailedWith(s1, EventLimitExceeded)
    {
      messages := messages + [Plain(Assistant, text)];
      finalText, validation, status := Some(text), Passed, Completed;
      task, emitter := NoTask, null;
      assert State() == old(State()).(messages := messages, finalText := finalText, validation := Passed,
                                      status := Completed, phase := Idle);
      LogOrFail(SessionCompleted(text));
    }

    /** The provider's answer: count noted, output charged, requests or text taken. */
    method AdvanceFinish(answer: Answer)
      requires Valid() && task.CallingTask?
      modifies this, emitter
      ensures Valid() && emitter == null && State() == Finish(profile, old(State()), answer)
    {
      var plan := task.plan;
      var ok := FlushOut();
      if !ok {
        RecordFailure(EventLimitExceeded);
        return;
      }
      if emitter != null && answer.text != emitter.text {
        RecordFailure(InvalidProviderResponse);
        return;
      }
      ghost var flushed := State();
      TakeProviderAnswer(plan, answer);
      assert State() == TakeAnswer(profile, flushed, plan, answer);
    }

    method TakeProviderAnswer(plan: ContextPlan, answer: Answer)
      requires Valid()
      modifies this
      ensures Valid() && emitter == null && State() == TakeAnswer(profile, old(State()), plan, answer)
    {
      if answer.promptTokens.Some? && |plan.messages| <= answer.promptTokens.value <= MAX_PROMPT_TOKENS {
        observed := Some(ObservedPrompt(IndexSet(plan.indices), answer.promptTokens.value));
      }
      ChargeAnswer(answer);
    }

    /** The output is charged, and requests or text are taken. */
    method ChargeAnswer(answer: Answer)
      requires Valid()
      modifies this
      ensures Valid() && emitter == null && State() == Charge(profile, old(State()), answer)
    {
      var total := outputChars + |answer.text| + profile.requestsChars(answer.toolRequests);
      assert total == Total(profile, State(), answer);
      if total > profile.limits.maxOutputChars {
        RecordFailure(OutputLimitExceeded);
        return;
      }
      outputChars := total;
      ghost var charged := State();
      assert charged == old(State()).(outputChars := total);
      SettleAnswer(answer);
      assert State() == Settle(profile, charged, answer);
    }

    method SettleAnswer(answer: Answer)
      requires Valid()
      modifies this
      ensures Valid() && emitter == null && State() == Settle(profile, old(State()), answer)
    {
      if answer.toolRequests != [] {
        AcceptRequests(answer);
      } else {
        AcceptText(answer);
      }
    }

    /** Cancellation takes effect, inside the provider task or without one. */
    method CancelNow()
      requires Valid()
      modifies this, emitter
      ensures Valid() && State() == SessionMachine.Cancel(old(State()))
      ensures emitter == null || (emitter == old(emitter) && Terminal(old(status)))
    {
      if Terminal(status) {
        return;
      }
      var ok := FlushOut();
      if !ok {
        RecordFailure(EventLimitExceeded);
        return;
      }
      RecordCancellation();
    }

    method RecordCancellation()
      requires Valid()
      modifies this
      ensures Valid() && emitter == null && State() == CanceledAt(old(State()))
    {
      status, pendingTools, validation := Canceled, [], NotValidated;
      task, emitter := NoTask, null;
      assert State() == old(State()).(status := Canceled, pending := [], validation := NotValidated, phase := Idle);
      var _ := AddEvent(SessionCanceled);
    }
  }

  /** Bounded in-memory sessions, by identifier. */
  class RuntimeService {
    var sessions: map<string, SessionRecord>

    /** Records are sound and no two identifiers share one. */
    ghost predicate Separate()
      reads this, sessions.Values
    {
      && (forall id | id in sessions :: sessions[id].Valid())
      && (forall a, b | a in sessions && b in sessions && a != b :: sessions[a] != sessions[b])
    }

    ghost function Emitters(): set<object>
      reads this, sessions.Values
    {
      set id | id in sessions && sessions[id].emitter != null :: sessions[id].emitter as object
    }

    /** The state of every session. */
    ghost function View(): Store
      reads this, sessions.Values, Emitters()
    {
      map id | id in sessions :: Entry(sessions[id].profile, sessions[id].State())
    }

    /** Records are separate, every session is sound, and the store is within its limits. */
    ghost predicate Valid()
      reads this, sessions.Values, Emitters()
    {
      Separate() && StoreInv(View())
    }

    constructor ()
      ensures Valid() && View() == map[] && sessions == map[]
    {
      sessions := map[];
      new;
      assert ActiveIds(View()) == {};
    }

    /** A step that changes one record changes one entry of the view. */
    twostate lemma OneRecordChanged(id: string)
      requires old(Separate()) && sessions == old(sessions) && id in sessions && sessions[id].Valid()
      requires forall other | other in sessions && other != id :: unchanged(sessions[other])
      requires forall other | other in sessions && other != id && sessions[other].emitter != null ::
                 unchanged(sessions[other].emitter)
      ensures Separate() && View() == old(View())[id := Entry(sessions[id].profile, sessions[id].State())]
    {
    }

    /** Storing a record adds its entry to the view. */
    twostate lemma RecordStored(id: string, new record: SessionRecord)
      requires old(Separate()) && id !in old(sessions) && sessions == old(sessions)[id := record]
      requires record.Valid() && record.emitter == null && record !in old(sessions.Values)
      requires forall other | other in old(sessions) :: unchanged(old(sessions)[other])
      requires forall other | other in old(sessions) && old(sessions)[other].emitter != null ::
                 unchanged(old(sessions)[other].emitter)
      ensures Separate() && View() == old(View())[id := Entry(record.profile, record.State())]
    {
      assert forall other | other in old(sessions) :: sessions[other] == old(sessions)[other];
    }

    /** Sessions the provider is at work on. */
    method CountActive(ghost store: Store) returns (active: nat)
      requires Separate() && store == View()
      ensures active == Active(store)
    {
      active := 0;
      var todo := sessions.Keys;
      ghost var running := ActiveIds(store);
      assert running * todo == running;
      while todo != {}
        invariant todo <= sessions.Keys
        invariant active + |running * todo| == |running|
        decreases todo
      {
        var id :| id in todo;
        assert running * todo == if id in running then (running * (todo - {id})) + {id} else running * (todo - {id});
        if sessions[id].status.Running? {
          active := active + 1;
        }
        todo := todo - {id};
      }
      assert running * {} == {};
    }

    /** Whether the next call of a record may be started now. */
    method EnsureSchedulable(record: SessionRecord, ghost store: Store) returns (refusal: Option<Refusal>)
      requires Separate() && store == View()
      ensures refusal == Unschedulable(record.State(), Active(store))
    {
      if !record.task.NoTask? {
        return Some(AlreadyRunning);
      }
      if |record.events| >= MAX_EVENTS - SCHEDULING_RESERVE {
        return Some(EventLimitReached);
      }
      var active := CountActive(store);
      if active >= MAX_ACTIVE && !record.status.Running? {
        return Some(CapacityExceeded);
      }
      refusal := None;
    }

    /** Starts the next provider call of a record. */
    method Schedule(record: SessionRecord, ghost store: Store) returns (refusal: Option<Refusal>)
      requires Separate() && record.Valid() && store == View()
      modifies record
      ensures record.Valid() && record.emitter == old(record.emitter)
      ensures (record.State(), refusal) == Scheduled(old(record.State()), Active(store))
    {
      refusal := EnsureSchedulable(record, store);
      if refusal.Some? {
        return;
      }
      record.BeginCall();
    }

    /** Forgetting sessions past their time leaves the others as they are. */
    twostate lemma SessionsDropped(expired: set<string>)
      requires old(Separate())
      requires forall id :: id in sessions <==>
                 id in old(sessions) && (id !in expired || old(sessions[id].status.Running?))
      requires forall id | id in sessions :: sessions[id] == old(sessions)[id] && unchanged(sessions[id])
      requires forall id | id in sessions && sessions[id].emitter != null :: unchanged(sessions[id].emitter)
      ensures Separate() && View() == Dropped(old(View()), expired)
    {
      assert View().Keys == Dropped(old(View()), expired).Keys;
    }

    /** A session past its time is forgotten when it is next asked for, unless it is running. */
    method Forget(id: string, expired: bool)
      requires Separate()
      modifies this
      ensures Separate() && View() == Dropped(old(View()), if expired then {id} else {})
      ensures sessions.Values <= old(sessions.Values)
      ensures forall other | other in sessions :: other in old(sessions) && sessions[other] == old(sessions[other])
    {
      if id in sessions && expired && !sessions[id].status.Running? {
        sessions := map other | other in sessions && other != id :: sessions[other];
      }
      SessionsDropped(if expired then {id} else {});
    }

    /** One answer message for each pending request, or none when a result does not fit. */
    method CollectAnswers(pending: seq<ToolRequest>, results: seq<ToolResult>) returns (messages: Option<seq<Message>>)
      ensures messages == AnswerMessages(pending, results)
    {
      var collected: seq<Message> := [];
      for i := 0 to |pending|
        invariant AnswerMessages(pending[..i], results) == Some(collected)
      {
        assert pending[..i + 1][..i] == pending[..i];
        var message := AnswerMessage(pending[i], results);
        if message.None? {
          BadAnswerDecides(pending, results, i + 1);
          return None;
        }
        collected := collected + [message.value];
      }
      assert pending[..|pending|] == pending;
      messages := Some(collected);
    }

    /** Takes the results of every pending request and starts the next provider call. */
    method SubmitToolResults(id: string, expired: bool, results: seq<ToolResult>) returns (refusal: Option<Refusal>)
      requires Valid()
      modifies this, if id in sessions then {sessions[id]} else {}
      ensures Valid()
      ensures (View(), refusal) == SubmitTo(Dropped(old(View()), if expired then {id} else {}), id, results)
    {
      DroppedKeeps(View(), if expired then {id} else {});
      SubmitToKeeps(Dropped(View(), if expired then {id} else {}), id, results);
      Forget(id, expired);
      if id !in sessions {
        return Some(NotFound);
      }
      refusal := SubmitFound(id, results);
    }

    method SubmitFound(id: string, results: seq<ToolResult>) returns (refusal: Option<Refusal>)
      requires Separate() && id in sessions
      modifies sessions[id]
      ensures Separate() && (View(), refusal) == SubmitTo(old(View()), id, results)
    {
      refusal := AcceptResults(id, sessions[id], results, View());
      OneRecordChanged(id);
    }

    method AcceptResults(id: string, record: SessionRecord, results: seq<ToolResult>, ghost store: Store)
      returns (refusal: Option<Refusal>)
      requires Separate() && id in sessions && record == sessions[id] && store == View()
      modifies record
      ensures record.Valid() && record.emitter == old(record.emitter)
      ensures (record.State(), refusal) == Submit(old(record.State()), results, Active(store))
    {
      if !record.status.WaitingForTool? {
        return Some(NotWaiting);
      }
      if !MatchesPending(results, record.pendingTools) {
        return Some(InvalidRequest);
      }
      var messages := CollectAnswers(record.pendingTools, results);
      if messages.None? {
        return Some(InvalidRequest);
      }
      refusal := EnsureSchedulable(record, store);
      if refusal.None? {
        record.TakeResults(messages.value, |results|);
        OneRecordChanged(id);
        SameActive(store, id, Entry(record.profile, record.State()));
        refusal := Schedule(record, View());
      }
    }

    /** A follow-up prompt on a completed session starts the next provider call. */
    method ContinueSession(id: string, expired: bool, prompt: string, effortSupported: bool)
      returns (refusal: Option<Refusal>)
      requires Valid()
      modifies this, if id in sessions then {sessions[id]} else {}
      ensures Valid()
      ensures (View(), refusal)
           == ContinueIn(Dropped(old(View()), if expired then {id} else {}), id, prompt, effortSupported)
    {
      DroppedKeeps(View(), if expired then {id} else {});
      ContinueInKeeps(Dropped(View(), if expired then {id} else {}), id, prompt, effortSupported);
      Forget(id, expired);
      if id !in sessions {
        return Some(NotFound);
      }
      refusal := ContinueFound(id, prompt, effortSupported);
    }

    method ContinueFound(id: string, prompt: string, effortSupported: bool) returns (refusal: Option<Refusal>)
      requires Separate() && id in sessions
      modifies sessions[id]
      ensures Separate() && (View(), refusal) == ContinueIn(old(View()), id, prompt, effortSupported)
    {
      refusal := AcceptPrompt(id, sessions[id], prompt, effortSupported, View());
      OneRecordChanged(id);
    }

    method AcceptPrompt(id: string, record: SessionRecord, prompt: string, effortSupported: bool, ghost store: Store)
      returns (refusal: Option<Refusal>)
      requires Separate() && id in sessions && record == sessions[id] && store == View()
      modifies record
      ensures record.Valid() && record.emitter == old(record.emitter)
      ensures (record.State(), refusal)
           == Continue(record.profile, old(record.State()), prompt, effortSupported, Active(store))
    {
      if !record.status.Completed? {
        return Some(NotCompleted);
      }
      if record.profile.blank(prompt) || |prompt| > record.profile.limits.maxInputChars || !effortSupported {
        return Some(InvalidRequest);
      }
      refusal := EnsureSchedulable(record, store);
      if refusal.None? {
        record.TakePrompt(prompt);
        OneRecordChanged(id);
        SameActive(store, id, Entry(record.profile, record.State()));
        refusal := Schedule(record, View());
      }
    }

    /** A cancel request up to its wait. A session without a provider task ends at once; a task is
        told to stop and waited for. */
    method BeginCancel(id: string, expired: bool) returns (refusal: Option<Refusal>, waits: bool)
      requires Valid()
      modifies this, if id in sessions then {sessions[id]} else {}
      ensures Valid()
      ensures var kept := Dropped(old(View()), if expired then {id} else {});
              && (View(), refusal) == CancelBegun(kept, id)
              && (waits <==> id in kept && !kept[id].session.phase.Idle?)
    {
      var gone := if expired then {id} else {};
      DroppedKeeps(View(), gone);
      CancelBegunKeeps(Dropped(View(), gone), id);
      if id in sessions {
        TerminalIsIdle(View(), id);
      }
      refusal, waits := BeginStop(id, expired);
    }

    method BeginStop(id: string, expired: bool) returns (refusal: Option<Refusal>, waits: bool)
      requires Separate()
      requires id in sessions && Terminal(sessions[id].status) ==> sessions[id].task.NoTask?
      modifies this, if id in sessions then {sessions[id]} else {}
      ensures Separate()
      ensures var kept := Dropped(old(View()), if expired then {id} else {});
              && (View(), refusal) == CancelBegun(kept, id)
              && (waits <==> id in kept && !kept[id].session.phase.Idle?)
    {
      Forget(id, expired);
      if id !in sessions {
        return Some(NotFound), false;
      }
      waits := StopFound(id);
      refusal := None;
    }

    /** A session that is over has no task, as the store's soundness has it. */
    method StopFound(id: string) returns (waits: bool)
      requires Separate() && id in sessions
      requires Terminal(sessions[id].status) ==> sessions[id].task.NoTask?
      modifies sessions[id]
      ensures Separate() && View() == CancelBegun(old(View()), id).0
      ensures waits <==> !old(sessions[id].task.NoTask?)
    {
      waits := !Terminal(sessions[id].status) && !sessions[id].task.NoTask?;
      if waits {
        MarkCanceled(id);
      } else {
        CancelFound(id);
      }
    }

    method MarkCanceled(id: string)
      requires Separate() && id in sessions
      modifies sessions[id]
      ensures Separate() && View() == old(View())
    {
      sessions[id].cancelRequested := true;
      OneRecordChanged(id);
    }

    /** The cancellation reaches the provider task. */
    method TaskCanceled(id: string)
      requires Valid() && id in sessions && sessions[id].cancelRequested && !sessions[id].task.NoTask?
      modifies sessions[id], sessions[id].emitter
      ensures Valid() && View() == CancelIn(old(View()), id).0
    {
      CancelInKeeps(View(), id);
      CancelFound(id);
    }

    /** The rest of a cancel request, once the task is over. */
    method EndCancel(id: string)
      requires Valid() && (id in sessions ==> sessions[id].task.NoTask?)
      modifies if id in sessions then {sessions[id]} else {}
      ensures Valid() && View() == CancelIn(old(View()), id).0
      ensures id in sessions ==> Terminal(sessions[id].status)
    {
      CancelInKeeps(View(), id);
      if id in sessions {
        assert IsSound(View(), id);
        CancelEnds(sessions[id].profile, sessions[id].State());
        CancelFound(id);
      }
    }

    method CancelFound(id: string)
      requires Separate() && id in sessions
      modifies sessions[id], sessions[id].emitter
      ensures Separate() && View() == CancelIn(old(View()), id).0
      ensures sessions[id].State() == SessionMachine.Cancel(old(sessions[id].State()))
    {
      sessions[id].CancelNow();
      OneRecordChanged(id);
    }

    // The provider task of a stored session, from one wait to the next.

    /** The context probe has answered: plan, and enter the provider. */
    method Plan(id: string, window: ContextWindow, measure: seq<Message> -> nat)
      requires Valid() && id in sessions && sessions[id].task.ProbingTask?
      modifies sessions[id]
      ensures Valid() && View() == EnterIn(old(View()), id, window, measure)
    {
      TaskStepsKeep(View(), id);
      PlanFound(id, window, measure);
    }

    method PlanFound(id: string, window: ContextWindow, measure: seq<Message> -> nat)
      requires Separate() && id in sessions && sessions[id].task.ProbingTask?
      modifies sessions[id]
      ensures Separate() && View() == EnterIn(old(View()), id, window, measure)
    {
      ghost var was := View()[id];
      assert was == Entry(sessions[id].profile, sessions[id].State());
      sessions[id].AdvancePlan(window, measure);
      ghost var plan := PlanOf(RequestFor(was.profile, was.session, window, measure));
      assert sessions[id].State() == Enter(was.profile, was.session, plan);
      OneRecordChanged(id);
    }

    /** The provider streams a fragment. */
    method Fragment(id: string, delta: string)
      requires Valid() && id in sessions && sessions[id].task.CallingTask? && sessions[id].emitter != null
      modifies sessions[id], sessions[id].emitter
      ensures Valid() && View() == PushIn(old(View()), id, delta)
    {
      TaskStepsKeep(View(), id);
      FragmentFound(id, delta);
    }

    method FragmentFound(id: string, delta: string)
      requires Separate() && id in sessions && sessions[id].task.CallingTask? && sessions[id].emitter != null
      modifies sessions[id], sessions[id].emitter
      ensures Separate() && View() == PushIn(old(View()), id, delta)
    {
      sessions[id].AdvancePush(delta);
      OneRecordChanged(id);
    }

    /** The provider answers. */
    method TakeAnswer(id: string, answer: Answer)
      requires Valid() && id in sessions && sessions[id].task.CallingTask?
      modifies sessions[id], sessions[id].emitter
      ensures Valid() && View() == FinishIn(old(View()), id, answer)
    {
      TaskStepsKeep(View(), id);
      AnswerFound(id, answer);
    }

    method AnswerFound(id: string, answer: Answer)
      requires Separate() && id in sessions && sessions[id].task.CallingTask?
      modifies sessions[id], sessions[id].emitter
      ensures Separate() && View() == FinishIn(old(View()), id, answer)
    {
      sessions[id].AdvanceFinish(answer);
      OneRecordChanged(id);
    }

    /** The task fails or times out. */
    method TaskFails(id: string, code: Code)
      requires Valid() && id in sessions && !sessions[id].task.NoTask?
      modifies sessions[id], sessions[id].emitter
      ensures Valid() && View() == FailIn(old(View()), id, code)
    {
      TaskStepsKeep(View(), id);
      FailFound(id, code);
    }

    method FailFound(id: string, code: Code)
      requires Separate() && id in sessions && !sessions[id].task.NoTask?
      modifies sessions[id], sessions[id].emitter
      ensures Separate() && View() == FailIn(old(View()), id, code)
    {
      sessions[id].AdvanceFails(code);
      OneRecordChanged(id);
    }

    /** Forgets every session past its time that the provider is not at work on. */
    method Sweep(expired: set<string>)
      requires Separate()
      modifies this
      ensures Separate() && View() == Dropped(old(View()), expired)
      ensures sessions.Keys <= old(sessions.Keys)
    {
      ghost var all := sessions;
      var todo := sessions.Keys;
      while todo != {}
        invariant todo <= all.Keys
        invariant forall id :: id in sessions <==>
                    id in all && (id in todo || id !in expired || all[id].status.Running?)
        invariant forall id | id in sessions :: sessions[id] == all[id]
        decreases todo
      {
        var id :| id in todo;
        if id in expired && !sessions[id].status.Running? {
          sessions := sessions - {id};
        }
        todo := todo - {id};
      }
      SessionsDropped(expired);
    }

    /** A new session is kept only when its first provider call can start at once. */
    method CreateSession(id: string, profile: Profile, instructions: Option<string>, prompt: string,
                         measured: nat, expired: set<string>)
      returns (refusal: Option<Refusal>)
      requires Valid() && id !in sessions
      modifies this
      ensures Valid()
      ensures (View(), refusal)
           == Admitted(old(View()), id, profile, instructions, prompt, measured, expired)
    {
      CreateKeeps(View(), id, profile, instructions, prompt, measured, expired);
      if profile.blank(prompt) || (instructions.Some? && profile.blank(instructions.value))
         || |prompt| > profile.limits.maxInputChars {
        return Some(InvalidRequest);
      }
      Sweep(expired);
      ghost var kept := View();
      assert |kept| == |sessions| by { assert kept.Keys == sessions.Keys; }
      if |sessions| >= MAX_SESSIONS {
        return Some(CapacityExceeded);
      }
      if measured > profile.limits.maxInputChars {
        return Some(InputTooLong);
      }
      refusal := Start(id, profile, Opening(instructions, prompt));
    }

    /** A new record, stored only when its first call can start. */
    method Start(id: string, profile: Profile, messages: seq<Message>) returns (refusal: Option<Refusal>)
      requires Separate() && id !in sessions
      modifies this
      ensures Separate()
      ensures (View(), refusal) == Started(old(View()), id, profile, messages)
    {
      ghost var kept := View();
      var record := new SessionRecord(profile, messages);
      assert record !in sessions.Values;
      assert View() == kept;
      refusal := KeepIfSchedulable(id, record, kept);
    }

    method KeepIfSchedulable(id: string, record: SessionRecord, ghost kept: Store) returns (refusal: Option<Refusal>)
      requires Separate() && kept == View()
      requires id !in sessions && record.Valid() && record !in sessions.Values && record.emitter == null
      requires !record.status.Running?
      modifies this, record
      ensures Separate() && refusal == Scheduled(old(record.State()), Active(kept)).1
      ensures View() == if refusal.Some? then kept
                        else kept[id := Entry(record.profile, Scheduled(old(record.State()), Active(kept)).0)]
    {
      refusal := EnsureSchedulable(record, kept);
      if refusal.None? {
        Keep(id, record, kept);
      }
    }

    /** Stores a new record and starts its first call. */
    method Keep(id: string, record: SessionRecord, ghost kept: Store)
      requires Separate() && kept == View()
      requires id !in sessions && record.Valid() && record !in sessions.Values && record.emitter == null
      requires Unschedulable(record.State(), Active(kept)).None? && !record.status.Running?
      modifies this, record
      ensures Separate() && sessions == old(sessions)[id := record]
      ensures View() == kept[id := Entry(record.profile, Scheduled(old(record.State()), Active(kept)).0)]
    {
      sessions := sessions[id := record];
      RecordStored(id, record);
      IdleAdds(kept, id, Entry(record.profile, record.State()));
      var refused := Schedule(record, View());
      RecordStored(id, record);
    }

    /** The log entries beyond a cursor; a cursor that is negative or beyond the log is refused. */
    method Events(id: string, expired: bool, after: int) returns (found: Result<seq<Event>, Refusal>)
      requires Valid()
      modifies this
      ensures Valid() && (View(), found) == EventsOf(old(View()), id, expired, after)
    {
      EventsOfKeeps(View(), id, expired, after);
      found := EventsBeyond(id, expired, after);
    }

    method EventsBeyond(id: string, expired: bool, after: int) returns (found: Result<seq<Event>, Refusal>)
      requires Separate()
      modifies this
      ensures Separate() && (View(), found) == EventsOf(old(View()), id, expired, after)
    {
      if after < 0 {
        return Err(InvalidRequest);
      }
      Forget(id, expired);
      if id !in sessions {
        return Err(NotFound);
      }
      var events := sessions[id].events;
      assert View()[id].session.events == events;
      found := if after > |events| then Err(InvalidRequest) else Ok(Later(events, after));
    }
  }

  /** The number of running sessions depends on the statuses alone. */
  lemma SameActive(store: Store, id: string, entry: Entry)
    requires id in store && (entry.session.status.Running? <==> store[id].session.status.Running?)
    ensures Active(store[id := entry]) == Active(store)
  {
    assert ActiveIds(store[id := entry]) == ActiveIds(store);
  }

  lemma IdleAdds(store: Store, id: string, entry: Entry)
    requires id !in store && !entry.session.status.Running?
    ensures Active(store[id := entry]) == Active(store)
  {
    assert ActiveIds(store[id := entry]) == ActiveIds(store);
  }

  lemma {:induction false} BadAnswerDecides(pending: seq<ToolRequest>, results: seq<ToolResult>, n: nat)
    requires n <= |pending| && AnswerMessages(pending[..n], results).None?
    ensures AnswerMessages(pending, results).None?
  {
    if n < |pending| {
      var front := pending[..|pending| - 1];
      assert front[..n] == pending[..n];
      BadAnswerDecides(front, results, n);
    } else {
      assert pending[..n] == pending;
    }
  }

  lemma {:induction false} BadRequestDecides(p: Profile, requests: seq<ToolRequest>, n: nat)
    requires n <= |requests| && PendingOf(p, requests[..n]).Err?
    ensures PendingOf(p, requests) == PendingOf(p, requests[..n])
  {
    if n < |requests| {
      var front := requests[..|requests| - 1];
      assert front[..n] == requests[..n];
      BadRequestDecides(p, front, n);
    } else {
      assert requests[..n] == requests;
    }
  }
}
