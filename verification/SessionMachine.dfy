/** One session: its record, and the steps between two points at which the runtime may switch
    to other work. Every step is atomic; a run is any sequence of steps. */
module SessionMachine {
  import opened Contracts
  import opened PlanSearch
  import opened ContextPlanner
  import opened SessionEvents
  import opened TextDeltas
  import opened Traces

  const SCHEDULING_RESERVE: nat := 8
  const MAX_ACTIVE: nat := 8
  const MAX_TOOL_RESULT_CHARS: nat := 100_000
  const MAX_PROMPT_TOKENS: nat := 999_999_999

  datatype Validation = Undecided | Passed | NotPassed | NotValidated

  /** Where the provider task stands: none, waiting for the context probe, or in the provider. */
  datatype Phase = Idle | Probing | Calling(plan: ContextPlan, emitter: Option<Emitter>)

  /** The session's profile and request, and the checks this model does not open: identifier
      syntax, JSON Schema validation of arguments and output, the JSON length of a list of
      requests, texts of white space only, and compact JSON text. */
  datatype Profile = Profile(
    limits: Limits,
    tools: seq<ToolDefinition>,
    outputSchema: Option<Json>,
    streams: bool,
    validId: string -> bool,
    validArguments: (Json, Json) -> bool,
    validOutput: (string, Json) -> bool,
    requestsChars: seq<ToolRequest> -> nat,
    blank: string -> bool,
    compact: Json -> string)

  datatype Session = Session(
    status: Status,
    events: seq<Event>,
    messages: seq<Message>,
    pending: seq<ToolRequest>,
    toolRounds: nat,
    providerCalls: nat,
    outputChars: nat,
    finalText: Option<string>,
    failure: Option<Code>,
    validation: Validation,
    context: Option<ContextPlan>,
    observed: Option<ObservedPrompt>,
    phase: Phase)

  /** A provider's answer; the prompt count is given when it is a finite whole number. */
  datatype Answer = Answer(text: string, toolRequests: seq<ToolRequest>, promptTokens: Option<nat>)

  /** A submitted tool result with its JSON text, if it has one. */
  datatype ToolResult = ToolResult(requestId: string, name: string, serialized: Option<string>)

  datatype Refusal =
    | NotFound
    | NotWaiting
    | NotCompleted
    | InvalidRequest
    | InputTooLong
    | AlreadyRunning
    | EventLimitReached
    | CapacityExceeded

  // ---------------------------------------------------------------------------------------
  // Failing
  // ---------------------------------------------------------------------------------------

  /** The failure handlers of the provider task. */
  function FailedWith(s: Session, code: Code): Session {
    var s1 := s.(status := Failed, validation := NotPassed, failure := Some(code), phase := Idle);
    if HasRoom(s.events, SessionFailed(code)) then s1.(events := Logged(s.events, SessionFailed(code))) else s1
  }

  /** Pending text is written on the way out of the provider call, whatever ends it. */
  function FlushedOut(s: Session): Result<Session, Code> {
    if s.phase.Calling? && s.phase.emitter.Some? then
      match Flushed(s.phase.emitter.value, s.events)
      case None => Err(EventLimitExceeded)
      case Some((e, events)) => Ok(s.(events := events, phase := s.phase.(emitter := Some(e))))
    else Ok(s)
  }

  /** A timeout, a provider failure, or any other error of the provider task. */
  function Fail(s: Session, code: Code): Session {
    match FlushedOut(s)
    case Err(other) => FailedWith(s, other)
    case Ok(s1) => FailedWith(s1, code)
  }

  // ---------------------------------------------------------------------------------------
  // The provider task
  // ---------------------------------------------------------------------------------------

  function RequestFor(p: Profile, s: Session, window: ContextWindow, measure: seq<Message> -> nat): Request {
    Request(s.messages, p.tools, p.outputSchema, p.limits, window, s.observed, measure, p.compact)
  }

  function RemainingChars(p: Profile, s: Session): nat {
    Max(0, p.limits.maxOutputChars - s.outputChars)
  }

  function ReductionOf(plan: ContextPlan): Reduction {
    Reduction(plan.droppedMessages, plan.droppedTurns, |plan.indices|, plan.estimatedPromptTokens,
              plan.capacityTokens, plan.budgetTokens, plan.configuredOutputTokens,
              plan.allocatedOutputTokens, plan.basis.Calibrated?)
  }

  function NoticeOf(s: Session, plan: ContextPlan): Option<EventKind> {
    if plan.Reduced() || plan.OutputReduced() then Some(ContextReduced(s.providerCalls, ReductionOf(plan))) else None
  }

  /** `plan` is what the planner answers for some probed capacity and some prompt measure. */
  ghost predicate IsPlanned(p: Profile, s: Session, plan: ContextPlan) {
    exists window: ContextWindow, measure: seq<Message> -> nat :: plan == PlanOf(RequestFor(p, s, window, measure))
  }

  /** The window is settled: enter the provider, with an emitter of its own when it streams. */
  function EnterProvider(p: Profile, s: Session, plan: ContextPlan): Session {
    if p.outputSchema.None? && p.streams then
      var emitter := NewEmitter(|s.events|, s.providerCalls, RemainingChars(p, s));
      if emitter.None? then FailedWith(s, EventLimitExceeded) else s.(phase := Calling(plan, emitter))
    else s.(phase := Calling(plan, None))
  }

  function Notified(s: Session, plan: ContextPlan): Session {
    if NoticeOf(s, plan).Some? then s.(events := Logged(s.events, NoticeOf(s, plan).value)) else s
  }

  /** The window is planned: log a reduction and enter the provider, or fail. */
  function Enter(p: Profile, s: Session, plan: ContextPlan): Session {
    var s1 := s.(context := Some(plan));
    if plan.failure.Some? then
      FailedWith(s1, if plan.failureCode.InputExceeded? then InputLimitExceeded else ContextWindowExceeded)
    else if NoticeOf(s1, plan).Some? && !HasRoom(s1.events, NoticeOf(s1, plan).value)
    then FailedWith(s1, EventLimitExceeded)
    else EnterProvider(p, Notified(s1, plan), plan)
  }

  /** The provider streams one text fragment. A refused fragment ends the call. */
  function Push(p: Profile, s: Session, delta: string): Session
    requires s.phase.Calling? && s.phase.emitter.Some?
  {
    var (e, events, failure) := Pushed(s.phase.emitter.value, s.events, delta, RemainingChars(p, s));
    var s1 := s.(events := events, phase := s.phase.(emitter := Some(e)));
    if failure.None? then s1 else Fail(s1, failure.value)
  }

  function FindTool(tools: seq<ToolDefinition>, name: string): Option<ToolDefinition> {
    if tools == [] then None
    else if tools[|tools| - 1].name == name then Some(tools[|tools| - 1])
    else FindTool(tools[..|tools| - 1], name)
  }

  predicate HasId(requests: seq<ToolRequest>, id: string) {
    exists i :: 0 <= i < |requests| && requests[i].id == id
  }

  function CheckRequest(p: Profile, pending: seq<ToolRequest>, request: ToolRequest): Option<Code> {
    if !p.validId(request.id) || HasId(pending, request.id) then Some(InvalidToolRequest)
    else match FindTool(p.tools, request.name)
      case None => Some(UnknownToolRequest)
      case Some(tool) =>
        if p.validArguments(request.arguments, tool.inputSchema) then None else Some(InvalidToolArguments)
  }

  /** Requests become pending one by one; the first bad one fails the answer. */
  function PendingOf(p: Profile, requests: seq<ToolRequest>): Result<seq<ToolRequest>, Code> {
    if requests == [] then Ok([])
    else
      match PendingOf(p, requests[..|requests| - 1])
      case Err(code) => Err(code)
      case Ok(pending) =>
        var request := requests[|requests| - 1];
        match CheckRequest(p, pending, request)
        case Some(code) => Err(code)
        case None => Ok(pending + [request])
  }

  function IndexSet(indices: seq<nat>): set<nat> { set i | i in indices }

  function ObservedAfter(s: Session, plan: ContextPlan, answer: Answer): Option<ObservedPrompt> {
    if answer.promptTokens.Some? && |plan.messages| <= answer.promptTokens.value <= MAX_PROMPT_TOKENS
    then Some(ObservedPrompt(IndexSet(plan.indices), answer.promptTokens.value))
    else s.observed
  }

  function TakeRequests(p: Profile, s: Session, answer: Answer): Session {
    if s.toolRounds >= p.limits.maxToolRounds then FailedWith(s, ToolRoundLimitExceeded)
    else
      match PendingOf(p, answer.toolRequests)
      case Err(code) => FailedWith(s, code)
      case Ok(pending) =>
        var s1 := s.(messages := s.messages + [Message(Assistant, answer.text, pending, None, None)],
                     pending := pending, status := WaitingForTool, phase := Idle);
        if HasRoom(s.events, ToolRequests(pending)) then s1.(events := Logged(s.events, ToolRequests(pending)))
        else FailedWith(s1, EventLimitExceeded)
  }

  function TakeText(p: Profile, s: Session, answer: Answer): Session {
    if p.outputSchema.Some? && !p.validOutput(answer.text, p.outputSchema.value) then
      FailedWith(s, SchemaValidationFailed)
    else
      var s1 := s.(messages := s.messages + [Plain(Assistant, answer.text)],
                   finalText := Some(answer.text), validation := Passed, status := Completed, phase := Idle);
      if HasRoom(s.events, SessionCompleted(answer.text))
      then s1.(events := Logged(s.events, SessionCompleted(answer.text)))
      else FailedWith(s1, EventLimitExceeded)
  }

  function Settle(p: Profile, s: Session, answer: Answer): Session {
    if answer.toolRequests != [] then TakeRequests(p, s, answer) else TakeText(p, s, answer)
  }

  /** The provider's count is noted first, then the output is charged, then the answer is taken. */
  function TakeAnswer(p: Profile, s: Session, plan: ContextPlan, answer: Answer): Session {
    Charge(p, s.(observed := ObservedAfter(s, plan, answer)), answer)
  }

  /** Output so far with this answer's: its text and its requests as JSON. */
  function Total(p: Profile, s: Session, answer: Answer): nat {
    s.outputChars + |answer.text| + p.requestsChars(answer.toolRequests)
  }

  function Charge(p: Profile, s: Session, answer: Answer): Session {
    if Total(p, s, answer) > p.limits.maxOutputChars then FailedWith(s, OutputLimitExceeded)
    else Settle(p, s.(outputChars := Total(p, s, answer)), answer)
  }

  /** The provider answers. */
  function Finish(p: Profile, s: Session, answer: Answer): Session
    requires s.phase.Calling?
  {
    match FlushedOut(s)
    case Err(code) => FailedWith(s, code)
    case Ok(s1) =>
      if s1.phase.emitter.Some? && answer.text != s1.phase.emitter.value.text
      then FailedWith(s1, InvalidProviderResponse)
      else TakeAnswer(p, s1, s1.phase.plan, answer)
  }

  // ---------------------------------------------------------------------------------------
  // Requests of the consumer
  // ---------------------------------------------------------------------------------------

  function Unschedulable(s: Session, active: nat): Option<Refusal> {
    if !s.phase.Idle? then Some(AlreadyRunning)
    else if |s.events| >= MAX_EVENTS - SCHEDULING_RESERVE then Some(EventLimitReached)
    else if active >= MAX_ACTIVE && !s.status.Running? then Some(CapacityExceeded)
    else None
  }

  /** Starts the next provider call, unless the log or the other sessions leave no room. */
  function Scheduled(s: Session, active: nat): (Session, Option<Refusal>) {
    var refusal := Unschedulable(s, active);
    if refusal.Some? then (s, refusal)
    else
      (s.(status := Running, providerCalls := s.providerCalls + 1, phase := Probing,
          events := Logged(s.events, ProviderStarted)), None)
  }

  function Opening(instructions: Option<string>, prompt: string): seq<Message> {
    (if instructions.Some? then [Plain(System, instructions.value)] else []) + [Plain(User, prompt)]
  }

  /** A new record, before it is scheduled. */
  function NewSession(messages: seq<Message>): Session {
    Session(Created, Logged([], SessionCreated), messages, [], 0, 0, 0, None, None, Undecided, None, None, Idle)
  }

  function FindResult(results: seq<ToolResult>, id: string): Option<ToolResult> {
    if results == [] then None
    else if results[0].requestId == id then Some(results[0])
    else FindResult(results[1..], id)
  }

  /** Results answer every pending request exactly: no duplicate, none missing, none besides. */
  predicate MatchesPending(results: seq<ToolResult>, pending: seq<ToolRequest>) {
    && (forall i, j | 0 <= i < j < |results| :: results[i].requestId != results[j].requestId)
    && (set r | r in results :: r.requestId) == (set q | q in pending :: q.id)
  }

  function AnswerMessage(request: ToolRequest, results: seq<ToolResult>): Option<Message> {
    match FindResult(results, request.id)
    case None => None
    case Some(result) =>
      if result.name != request.name || result.serialized.None?
         || |result.serialized.value| > MAX_TOOL_RESULT_CHARS then None
      else Some(Message(Tool, result.serialized.value, [], Some(request.id), Some(request.name)))
  }

  function AnswerMessages(pending: seq<ToolRequest>, results: seq<ToolResult>): Option<seq<Message>> {
    if pending == [] then Some([])
    else
      var front, last := AnswerMessages(pending[..|pending| - 1], results), AnswerMessage(pending[|pending| - 1],
          results);
      if front.None? || last.None? then None else Some(front.value + [last.value])
  }

  /** Results accepted, before the next call is scheduled. */
  function WithResults(s: Session, messages: seq<Message>, count: nat): Session {
    s.(messages := s.messages + messages, pending := [], toolRounds := s.toolRounds + 1,
       events := Logged(s.events, ToolResultsReceived(count)))
  }

  /** Follow-up input accepted, before the next call is scheduled. */
  function WithInput(s: Session, prompt: string): Session {
    s.(finalText := None, failure := None, validation := Undecided,
       messages := s.messages + [Plain(User, prompt)], events := Logged(s.events, UserInputReceived))
  }

  function Submit(s: Session, results: seq<ToolResult>, active: nat): (Session, Option<Refusal>) {
    if !s.status.WaitingForTool? then (s, Some(NotWaiting))
    else if !MatchesPending(results, s.pending) then (s, Some(InvalidRequest))
    else
      match AnswerMessages(s.pending, results)
      case None => (s, Some(InvalidRequest))
      case Some(messages) =>
        var refusal := Unschedulable(s, active);
        if refusal.Some? then (s, refusal)
        else
          Scheduled(WithResults(s, messages, |results|), active)
  }

  function Continue(p: Profile, s: Session, prompt: string, effortSupported: bool, active: nat)
    : (Session, Option<Refusal>)
  {
    if !s.status.Completed? then (s, Some(NotCompleted))
    else if p.blank(prompt) || |prompt| > p.limits.maxInputChars || !effortSupported then (s, Some(InvalidRequest))
    else
      var refusal := Unschedulable(s, active);
      if refusal.Some? then (s, refusal)
      else
        Scheduled(WithInput(s, prompt), active)
  }

  predicate Terminal(status: Status) { status.Completed? || status.Failed? || status.Canceled? }

  /** Recording the cancellation once pending text is written. */
  function CanceledAt(s: Session): Session {
    var s1 := s.(status := Canceled, pending := [], validation := NotValidated, phase := Idle);
    if HasRoom(s.events, SessionCanceled) then s1.(events := Logged(s.events, SessionCanceled)) else s1
  }

  /** Cancellation takes effect: inside the provider task, or on a session without one. */
  function Cancel(s: Session): Session {
    if Terminal(s.status) then s
    else
      match FlushedOut(s)
      case Err(code) => FailedWith(s, code)
      case Ok(s1) => CanceledAt(s1)
  }

  // ---------------------------------------------------------------------------------------
  // Runs
  // ---------------------------------------------------------------------------------------

  datatype Step =
    | PlanStep(plan: ContextPlan)
    | PushStep(delta: string)
    | FinishStep(answer: Answer)
    | FailStep(code: Code)
    | SubmitStep(results: seq<ToolResult>, active: nat)
    | ContinueStep(prompt: string, effortSupported: bool, active: nat)
    | CancelStep

  /** A step of the provider task happens only while it is where the step begins. */
  ghost predicate Enabled(p: Profile, s: Session, step: Step) {
    match step
    case PlanStep(plan) => s.phase.Probing? && IsPlanned(p, s, plan)
    case PushStep(_) => s.phase.Calling? && s.phase.emitter.Some?
    case FinishStep(_) => s.phase.Calling?
    case FailStep(_) => !s.phase.Idle?
    case _ => true
  }

  ghost function Next(p: Profile, s: Session, step: Step): Session
    requires Enabled(p, s, step)
  {
    match step
    case PlanStep(plan) => Enter(p, s, plan)
    case PushStep(delta) => Push(p, s, delta)
    case FinishStep(answer) => Finish(p, s, answer)
    case FailStep(code) => Fail(s, code)
    case SubmitStep(results, active) => Submit(s, results, active).0
    case ContinueStep(prompt, effortSupported, active) => Continue(p, s, prompt, effortSupported, active).0
    case CancelStep => Cancel(s)
  }

  /** `trace` is a run: it opens with a scheduled new session and every state comes from the
      one before by an enabled step. */
  ghost predicate IsRun(p: Profile, trace: seq<Session>) {
    && trace != []
    && (exists instructions: Option<string>, prompt: string, active: nat ::
          trace[0] == Scheduled(NewSession(Opening(instructions, prompt)), active).0
          && trace[0].status.Running?)
    && Linked(trace, NextOf(p))
  }

  ghost predicate Follows(p: Profile, s: Session, t: Session) {
    exists step :: Enabled(p, s, step) && t == Next(p, s, step)
  }

  ghost function NextOf(p: Profile): (Session, Session) -> bool { (s, t) => Follows(p, s, t) }
}
