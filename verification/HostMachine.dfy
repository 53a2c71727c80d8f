/** The host's side of one session: what it relays from the runtime log, how a turn of driving
    the runtime proceeds from one poll to the next, and when it ends. */
module HostMachine {
  import opened Contracts
  import opened SessionEvents

  datatype HostStatus = HostRunning | HostCompleted | HostFailed | HostCanceled | HostApprovalRequired

  datatype HostKind =
    | SessionStarted(continuation: bool)
    | ModelWorking
    | AssistantTextDelta(round: nat, delta: string)
    | ContextNarrowed(round: nat, reduction: Reduction)
    | ToolsRequested(tools: seq<string>)
    | ToolsCompleted(count: nat)
    | ApprovalRequired(blocked: seq<string>)
    | TurnCompleted(text: Option<string>)
    | TurnFailed(code: string)
    | TurnCanceled

  datatype HostEvent = HostEvent(sequence: nat, kind: HostKind)

  /** Bounds of the coordinator. */
  datatype Config = Config(maxToolRounds: nat, maxIdlePolls: nat)

  const MAX_SAFE_INTEGER: int := 9_007_199_254_740_991

  /** What one turn of driving remembers between polls. */
  datatype Driver = Driver(lastStatus: Option<Status>, idlePolls: nat, cursorBefore: nat)

  /** `history` is every host event so far; `driver` is present while the runtime is driven, and
      `continuing` is set while a follow-up waits for the runtime to accept it. */
  datatype HostState = HostState(
    history: seq<HostEvent>,
    cursor: nat,
    toolRounds: nat,
    status: HostStatus,
    continuing: bool,
    driver: Option<Driver>)

  datatype Fault = TimedOut | Aborted | Error(code: string)

  // ---------------------------------------------------------------------------------------
  // Relaying the runtime log
  // ---------------------------------------------------------------------------------------

  predicate IsSafe(n: int) { -MAX_SAFE_INTEGER <= n <= MAX_SAFE_INTEGER }

  predicate IsSafeOrNull(n: Option<int>) { n.Some? ==> IsSafe(n.value) }

  predicate CountsAreSafe(r: Reduction) {
    && IsSafe(r.droppedMessages) && IsSafe(r.droppedTurns) && IsSafe(r.retainedMessages)
    && IsSafe(r.estimatedPromptTokens)
    && IsSafeOrNull(r.capacityTokens) && IsSafeOrNull(r.budgetTokens)
    && IsSafe(r.configuredOutputTokens) && IsSafe(r.allocatedOutputTokens)
  }

  /** Entries whose payload the host does not accept. */
  predicate Refused(event: Event) {
    match event.kind
    case TextDelta(round, delta) => !IsSafe(round) || round < 1 || delta == ""
    case ContextReduced(round, r) => !IsSafe(round) || !CountsAreSafe(r) || !r.Justified()
    case _ => false
  }

  function Names(requests: seq<ToolRequest>): seq<string> {
    seq(|requests|, i requires 0 <= i < |requests| => requests[i].name)
  }

  /** The host event that one entry of the runtime log becomes, if any. */
  function Image(event: Event): Option<HostKind> {
    if Refused(event) then None
    else
      match event.kind
      case ProviderStarted => Some(ModelWorking)
      case TextDelta(round, delta) => Some(AssistantTextDelta(round, delta))
      case ContextReduced(round, reduction) => Some(ContextNarrowed(round, reduction))
      case ToolRequests(requests) => Some(ToolsRequested(Names(requests)))
      case ToolResultsReceived(count) => Some(ToolsCompleted(count))
      case _ => None
  }

  function Images(log: seq<Event>): seq<HostKind> {
    if log == [] then []
    else
      var image := Image(log[|log| - 1]);
      Images(log[..|log| - 1]) + if image.Some? then [image.value] else []
  }

  predicate IsRelayed(kind: HostKind) {
    || kind.ModelWorking? || kind.AssistantTextDelta? || kind.ContextNarrowed?
    || kind.ToolsRequested? || kind.ToolsCompleted?
  }

  /** The events of the host log that were relayed from the runtime. */
  function Relayed(history: seq<HostEvent>): seq<HostKind> {
    if history == [] then []
    else
      var kind := history[|history| - 1].kind;
      Relayed(history[..|history| - 1]) + if IsRelayed(kind) then [kind] else []
  }

  function Recorded(history: seq<HostEvent>, kind: HostKind): seq<HostEvent> {
    history + [HostEvent(|history| + 1, kind)]
  }

  function Noted(h: HostState, kind: HostKind): HostState {
    h.(history := Recorded(h.history, kind))
  }

  /** One delivered entry: the cursor moves first, then the entry is relayed. */
  function Relay(h: HostState, event: Event): HostState {
    var image := Image(event);
    var h1 := h.(cursor := event.sequence);
    if image.Some? then Noted(h1, image.value) else h1
  }

  /** A stream of entries, relayed up to the first refused one. */
  function RelayAll(h: HostState, events: seq<Event>): (HostState, Option<Fault>)
    decreases |events|
  {
    if events == [] then (h, None)
    else if Refused(events[0]) then (Relay(h, events[0]), Some(Error("invalid_runtime_event")))
    else RelayAll(Relay(h, events[0]), events[1..])
  }

  // ---------------------------------------------------------------------------------------
  // One poll
  // ---------------------------------------------------------------------------------------

  /** The runtime's session state. Pending requests that are no list of requests are None. */
  datatype Reply = Reply(
    status: Status,
    pendingTools: Option<seq<ToolRequest>>,
    finalText: Option<string>,
    failureCode: Option<string>)

  /** What the surroundings do during one poll: whether the session's signal is found aborted at
      the loop head, how far the stream delivers the runtime log and whether it breaks, the state
      then read, the tool decisions, and whether executing the tools, or the wait before the next
      poll, is interrupted. */
  datatype Poll = Poll(
    aborted: bool,
    upTo: nat,
    streamFault: Option<Fault>,
    reply: Result<Reply, Fault>,
    execute: ToolRequest -> Result<bool, Fault>,
    followUp: Option<Fault>)

  datatype Verdict = Again(driver: Driver) | Returned | Threw(fault: Fault)

  predicate ProperRequests(requests: seq<ToolRequest>) {
    && (forall i | 0 <= i < |requests| :: requests[i].id != "" && requests[i].name != "")
    && (forall i, j | 0 <= i < j < |requests| :: requests[i].id != requests[j].id)
  }

  /** Requests the host may not execute by itself; a fault while deciding ends the turn. */
  function Blocked(execute: ToolRequest -> Result<bool, Fault>, pending: seq<ToolRequest>)
    : Result<seq<ToolRequest>, Fault>
  {
    if pending == [] then Ok([])
    else
      match Blocked(execute, pending[..|pending| - 1])
      case Err(fault) => Err(fault)
      case Ok(blocked) =>
        match execute(pending[|pending| - 1])
        case Err(fault) => Err(fault)
        case Ok(allowed) => Ok(if allowed then blocked else blocked + [pending[|pending| - 1]])
  }

  function EndTurn(h: HostState, status: HostStatus, kind: HostKind): HostState {
    Noted(h.(status := status), kind)
  }

  function AnswerTools(cfg: Config, h: HostState, reply: Reply, poll: Poll): (HostState, Verdict) {
    var h1 := h.(toolRounds := h.toolRounds + 1);
    if h1.toolRounds > cfg.maxToolRounds then (h1, Threw(Error("tool_round_limit_reached")))
    else if reply.pendingTools.None? || !ProperRequests(reply.pendingTools.value)
    then (h1, Threw(Error("invalid_runtime_response")))
    else
      match Blocked(poll.execute, reply.pendingTools.value)
      case Err(fault) => (h1, Threw(fault))
      case Ok(blocked) =>
        if blocked != [] then (EndTurn(h1, HostApprovalRequired, ApprovalRequired(Names(blocked))), Returned)
        else if poll.followUp.Some? then (h1, Threw(poll.followUp.value))
        else (h1, Again(Driver(Some(WaitingForTool), 0, h1.cursor)))
  }

  function AnswerReply(cfg: Config, h: HostState, d: Driver, reply: Reply, poll: Poll): (HostState, Verdict) {
    match reply.status
    case WaitingForTool => AnswerTools(cfg, h, reply, poll)
    case Completed => (EndTurn(h, HostCompleted, TurnCompleted(reply.finalText)), Returned)
    case Failed =>
      var code := if reply.failureCode.Some? then reply.failureCode.value else "runtime_failure";
      (EndTurn(h, HostFailed, TurnFailed(code)), Returned)
    case Canceled => (EndTurn(h, HostCanceled, TurnCanceled), Returned)
    case _ =>
      var madeProgress := h.cursor != d.cursorBefore || Some(reply.status) != d.lastStatus;
      var idlePolls := if madeProgress then 0 else d.idlePolls + 1;
      if idlePolls >= cfg.maxIdlePolls then (h, Threw(Error("runtime_stream_stalled")))
      else if poll.followUp.Some? then (h, Threw(poll.followUp.value))
      else (h, Again(Driver(Some(reply.status), idlePolls, h.cursor)))
  }

  /** The entries a stream opened at the cursor delivers. */
  function Delivered(log: seq<Event>, h: HostState, poll: Poll): seq<Event> {
    if h.cursor <= poll.upTo <= |log| then log[h.cursor..poll.upTo] else []
  }

  /** One iteration of driving: relay the stream to its end, read the state, act on it. An
      aborted signal at the loop head ends driving without an outcome. */
  function Polled(cfg: Config, log: seq<Event>, h: HostState, poll: Poll): (HostState, Verdict)
    requires h.driver.Some?
  {
    var (h1, refused) := RelayAll(h, Delivered(log, h, poll));
    if poll.aborted then (h, Returned)
    else if refused.Some? then (h1, Threw(refused.value))
    else if poll.streamFault.Some? then (h1, Threw(poll.streamFault.value))
    else if poll.reply.Err? then (h1, Threw(poll.reply.error))
    else AnswerReply(cfg, h1, h.driver.value, poll.reply.value, poll)
  }

  /** What an error makes of the session: a timeout, a cancellation, or a failure. */
  function Settled(h: HostState, fault: Fault): HostState {
    match fault
    case TimedOut => EndTurn(h, HostFailed, TurnFailed("session_timeout")).(driver := None)
    case Aborted => EndTurn(h, HostCanceled, TurnCanceled).(driver := None)
    case Error(code) => EndTurn(h, HostFailed, TurnFailed(code)).(driver := None)
  }

  function Concluded(h: HostState, verdict: Verdict): HostState {
    match verdict
    case Again(d) => h.(driver := Some(d))
    case Returned => h.(driver := None)
    case Threw(fault) => Settled(h, fault)
  }

  // ---------------------------------------------------------------------------------------
  // Driving ends
  // ---------------------------------------------------------------------------------------

  /** A runtime that, unless it waits for tools or has ended, is running. */
  predicate Serves(poll: Poll) {
    poll.reply.Ok? ==> !poll.reply.value.status.Created?
  }

  ghost predicate AllServe(polls: nat -> Poll) { forall i: nat :: Serves(polls(i)) }

  function LeftRounds(cfg: Config, h: HostState): nat {
    if h.toolRounds <= cfg.maxToolRounds then cfg.maxToolRounds - h.toolRounds else 0
  }

  function LeftEvents(log: seq<Event>, h: HostState): nat {
    if h.cursor <= |log| then |log| - h.cursor else 0
  }

  function NotYetRunning(h: HostState): nat {
    if h.driver.Some? && h.driver.value.lastStatus == Some(Running) then 0 else 1
  }

  function LeftIdle(cfg: Config, h: HostState): nat {
    if h.driver.Some? && h.driver.value.idlePolls <= cfg.maxIdlePolls
    then cfg.maxIdlePolls - h.driver.value.idlePolls else 0
  }

  /** The termination measure of driving, compared from left to right: tool rounds left, log
      entries left, whether the last state read was not yet a running one, idle polls left. */
  predicate Lower(cfg: Config, log: seq<Event>, h1: HostState, h: HostState) {
    || LeftRounds(cfg, h1) < LeftRounds(cfg, h)
    || (LeftRounds(cfg, h1) == LeftRounds(cfg, h)
        && (|| LeftEvents(log, h1) < LeftEvents(log, h)
            || (LeftEvents(log, h1) == LeftEvents(log, h)
                && (|| NotYetRunning(h1) < NotYetRunning(h)
                    || (NotYetRunning(h1) == NotYetRunning(h) && LeftIdle(cfg, h1) < LeftIdle(cfg, h))))))
  }

  lemma RelayAllStep(h: HostState, entries: seq<Event>, i: nat)
    requires i < |entries|
    ensures RelayAll(h, entries[i..])
         == if Refused(entries[i]) then (Relay(h, entries[i]), Some(Error("invalid_runtime_event")))
            else RelayAll(Relay(h, entries[i]), entries[i + 1..])
  {
    assert entries[i..][0] == entries[i] && entries[i..][1..] == entries[i + 1..];
  }

  lemma {:induction false} RelayAllMoves(cfg: Config, log: seq<Event>, h: HostState, upTo: nat)
    requires Numbered(log) && h.cursor <= upTo <= |log|
    ensures var (h1, refused) := RelayAll(h, log[h.cursor..upTo]);
            && h1 == h.(history := h1.history, cursor := h1.cursor)
            && h.cursor <= h1.cursor <= upTo
            && (refused.None? ==> h1.cursor == upTo)
    decreases upTo - h.cursor
  {
    var events := log[h.cursor..upTo];
    if events != [] && !Refused(events[0]) {
      var h1 := Relay(h, events[0]);
      assert events[1..] == log[h1.cursor..upTo];
      RelayAllMoves(cfg, log, h1, upTo);
    }
  }

  /** The state of a session that is being driven between two polls. */
  predicate Ready(log: seq<Event>, h: HostState) {
    && Numbered(log) && h.cursor <= |log|
    && h.driver.Some? && h.driver.value.cursorBefore == h.cursor
  }

  /** Every poll after which driving goes on lowers the measure. */
  lemma DrivingDescends(cfg: Config, log: seq<Event>, h: HostState, poll: Poll)
    requires Ready(log, h) && Serves(poll) && Polled(cfg, log, h, poll).1.Again?
    ensures var (h1, verdict) := Polled(cfg, log, h, poll);
            && Ready(log, Concluded(h1, verdict))
            && Lower(cfg, log, Concluded(h1, verdict), h)
  {
    if h.cursor <= poll.upTo <= |log| {
      RelayAllMoves(cfg, log, h, poll.upTo);
    }
  }

  /** Driving against any surroundings `polls`, from poll `k` on: it always ends, with an
      outcome for the turn unless it found the signal aborted between two polls. */
  ghost function Driven(cfg: Config, log: seq<Event>, h: HostState, polls: nat -> Poll, k: nat): (end: HostState)
    requires Ready(log, h) && AllServe(polls)
    ensures end.driver.None?
    decreases LeftRounds(cfg, h), LeftEvents(log, h), NotYetRunning(h), LeftIdle(cfg, h)
  {
    var (h1, verdict) := Polled(cfg, log, h, polls(k));
    if verdict.Again? then
      DrivingDescends(cfg, log, h, polls(k));
      Driven(cfg, log, Concluded(h1, verdict), polls, k + 1)
    else Concluded(h1, verdict)
  }
}
