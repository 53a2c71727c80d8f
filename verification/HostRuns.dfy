/** Every run of one host session, across streams that reconnect and turns that continue. */
module HostRuns {
  import opened Contracts
  import opened SessionEvents
  import opened HostMachine

  // ---------------------------------------------------------------------------------------
  // The language of host logs
  // ---------------------------------------------------------------------------------------

  datatype TurnStage = NoTurn | Working | Finished | Closed | Broken

  function AfterHostEvent(stage: TurnStage, kind: HostKind): TurnStage {
    match stage
    case NoTurn => if kind == SessionStarted(false) then Working else Broken
    case Working =>
      if IsRelayed(kind) then Working
      else if kind.TurnCompleted? then Finished
      else if kind.SessionStarted? then Broken
      else Closed
    case Finished => if kind == SessionStarted(true) then Working else Broken
    case _ => Broken
  }

  function TurnStageOf(history: seq<HostEvent>): TurnStage {
    if history == [] then NoTurn
    else AfterHostEvent(TurnStageOf(history[..|history| - 1]), history[|history| - 1].kind)
  }

  function StageFor(status: HostStatus): TurnStage {
    match status
    case HostRunning => Working
    case HostCompleted => Finished
    case _ => Closed
  }

  predicate IsOutcome(kind: HostKind) {
    kind.TurnCompleted? || kind.TurnFailed? || kind.TurnCanceled? || kind.ApprovalRequired?
  }

  function TurnsStarted(history: seq<HostEvent>): nat {
    if history == [] then 0
    else TurnsStarted(history[..|history| - 1]) + if history[|history| - 1].kind.SessionStarted? then 1 else 0
  }

  function Outcomes(history: seq<HostEvent>): nat {
    if history == [] then 0
    else Outcomes(history[..|history| - 1]) + if IsOutcome(history[|history| - 1].kind) then 1 else 0
  }

  /** Every turn has exactly one outcome, except the one still being worked on. */
  lemma {:induction false} OneOutcomePerTurn(history: seq<HostEvent>)
    requires !TurnStageOf(history).Broken?
    ensures TurnsStarted(history) == Outcomes(history) + if TurnStageOf(history).Working? then 1 else 0
  {
    if history != [] {
      OneOutcomePerTurn(history[..|history| - 1]);
    }
  }

  predicate HostNumbered(history: seq<HostEvent>) {
    forall i | 0 <= i < |history| :: history[i].sequence == i + 1
  }

  lemma RecordedSteps(history: seq<HostEvent>, kind: HostKind)
    ensures var all := Recorded(history, kind);
            && TurnStageOf(all) == AfterHostEvent(TurnStageOf(history), kind)
            && Relayed(all) == Relayed(history) + (if IsRelayed(kind) then [kind] else [])
            && (HostNumbered(history) ==> HostNumbered(all))
  {
    var all := Recorded(history, kind);
    assert all[..|all| - 1] == history && all[|all| - 1].kind == kind;
  }

  // ---------------------------------------------------------------------------------------
  // Steps
  // ---------------------------------------------------------------------------------------

  /** `LeaveStep`: a cancellation is noticed between two polls and driving stops silently.
      `AskStep` and `AnsweredStep` are a follow-up before and after it has waited. */
  datatype HostStep =
    | DeliverStep
    | ReplyStep(poll: Poll)
    | FaultStep(fault: Fault)
    | LeaveStep
    | CancelStep
    | AskStep(valid: bool)
    | AnsweredStep(accepted: bool)

  function JustStarted(): HostState {
    HostState(Recorded([], SessionStarted(false)), 0, 0, HostRunning, false, Some(Driver(None, 0, 0)))
  }

  predicate CanTake(log: seq<Event>, h: HostState, step: HostStep) {
    match step
    case DeliverStep => h.driver.Some? && h.cursor < |log|
    case ReplyStep(poll) => h.driver.Some? && poll.reply.Ok?
    case FaultStep(_) => h.driver.Some?
    case LeaveStep => h.driver.Some?
    case CancelStep => h.driver.None?
    case AskStep(_) => true
    case AnsweredStep(_) => h.continuing
  }

  /** The cancel request, after driving has stopped. */
  function CancelTail(h: HostState): HostState {
    if h.status.HostRunning? then EndTurn(h, HostCanceled, TurnCanceled) else h
  }

  /** A follow-up is asked for; a proper one on a completed session is passed on, one at a time. */
  function Asked(h: HostState, valid: bool): HostState {
    if valid && h.status.HostCompleted? && !h.continuing then h.(continuing := true) else h
  }

  /** The runtime, or the authorizer before it, has answered; the status is not looked at again. */
  function AskAnswered(h: HostState, accepted: bool): HostState {
    if accepted then Continued(h.(continuing := false)) else h.(continuing := false)
  }

  /** A follow-up accepted by the runtime opens the next turn; cursor and rounds carry over. */
  function Continued(h: HostState): HostState {
    Noted(h.(status := HostRunning, driver := Some(Driver(None, 0, h.cursor))), SessionStarted(true))
  }

  function Taken(cfg: Config, log: seq<Event>, h: HostState, step: HostStep): HostState
    requires CanTake(log, h, step)
  {
    match step
    case DeliverStep =>
      var h1 := Relay(h, log[h.cursor]);
      if Refused(log[h.cursor]) then Settled(h1, Error("invalid_runtime_event")) else h1
    case ReplyStep(poll) =>
      var (h1, verdict) := AnswerReply(cfg, h, h.driver.value, poll.reply.value, poll);
      Concluded(h1, verdict)
    case FaultStep(fault) => Settled(h, fault)
    case LeaveStep => h.(driver := None)
    case CancelStep => CancelTail(h)
    case AskStep(valid) => Asked(h, valid)
    case AnsweredStep(accepted) => AskAnswered(h, accepted)
  }

  function Run(cfg: Config, log: seq<Event>, h: HostState, steps: seq<HostStep>): Option<HostState> {
    if steps == [] then Some(h)
    else
      match Run(cfg, log, h, steps[..|steps| - 1])
      case None => None
      case Some(h1) =>
        var step := steps[|steps| - 1];
        if CanTake(log, h1, step) then Some(Taken(cfg, log, h1, step)) else None
  }

  // ---------------------------------------------------------------------------------------
  // What every step keeps
  // ---------------------------------------------------------------------------------------

  /** The host log is the image of the runtime log up to the cursor, once each and in order,
      and its shape agrees with the status. */
  predicate HostInv(cfg: Config, log: seq<Event>, h: HostState) {
    && HostNumbered(h.history)
    && h.cursor <= |log|
    && Relayed(h.history) == Images(log[..h.cursor])
    && TurnStageOf(h.history) == StageFor(h.status)
    && (h.driver.Some? ==> h.status.HostRunning?)
    && (h.continuing ==> h.status.HostCompleted?)
    && h.toolRounds <= cfg.maxToolRounds + 1
    && (h.status.HostRunning? || h.status.HostCompleted? ==> h.toolRounds <= cfg.maxToolRounds)
  }

  lemma ImagesStep(log: seq<Event>, n: nat)
    requires n < |log|
    ensures var image := Image(log[n]);
            Images(log[..n + 1]) == Images(log[..n]) + (if image.Some? then [image.value] else [])
  {
    assert log[..n + 1][..n] == log[..n];
  }

  lemma RelayKeeps(cfg: Config, log: seq<Event>, h: HostState)
    requires Numbered(log) && HostInv(cfg, log, h) && h.cursor < |log| && h.status.HostRunning?
    ensures HostInv(cfg, log, Relay(h, log[h.cursor]))
  {
    ImagesStep(log, h.cursor);
    var image := Image(log[h.cursor]);
    if image.Some? {
      NotedKeeps(cfg, log, h.(cursor := h.cursor + 1), image.value);
    }
  }

  /** Noting the image of an entry whose cursor has already moved past it. */
  lemma NotedKeeps(cfg: Config, log: seq<Event>, h: HostState, kind: HostKind)
    requires 0 < h.cursor <= |log| && h.status.HostRunning? && HostInv(cfg, log, h.(cursor := h.cursor - 1))
    requires IsRelayed(kind) && Images(log[..h.cursor]) == Images(log[..h.cursor - 1]) + [kind]
    requires AfterHostEvent(Working, kind) == Working
    ensures HostInv(cfg, log, Noted(h, kind))
  {
    RecordedSteps(h.history, kind);
  }

  lemma EndedKeeps(cfg: Config, log: seq<Event>, h: HostState, status: HostStatus, kind: HostKind)
    requires HostNumbered(h.history) && h.cursor <= |log|
    requires Relayed(h.history) == Images(log[..h.cursor]) && TurnStageOf(h.history).Working?
    requires h.toolRounds <= cfg.maxToolRounds + 1
    requires status.HostCompleted? ==> h.toolRounds <= cfg.maxToolRounds
    requires !h.continuing
    requires IsOutcome(kind) && !status.HostRunning? && (status.HostCompleted? <==> kind.TurnCompleted?)
    ensures HostInv(cfg, log, EndTurn(h, status, kind).(driver := None))
  {
    RecordedSteps(h.history, kind);
  }

  lemma SettledKeeps(cfg: Config, log: seq<Event>, h: HostState, fault: Fault)
    requires HostNumbered(h.history) && h.cursor <= |log|
    requires Relayed(h.history) == Images(log[..h.cursor]) && TurnStageOf(h.history).Working?
    requires h.toolRounds <= cfg.maxToolRounds + 1 && !h.continuing
    ensures HostInv(cfg, log, Settled(h, fault))
  {
    match fault
    case TimedOut => EndedKeeps(cfg, log, h, HostFailed, TurnFailed("session_timeout"));
    case Aborted => EndedKeeps(cfg, log, h, HostCanceled, TurnCanceled);
    case Error(code) => EndedKeeps(cfg, log, h, HostFailed, TurnFailed(code));
  }

  lemma ReplyShape(cfg: Config, h: HostState, d: Driver, reply: Reply, poll: Poll)
    ensures var (h1, verdict) := AnswerReply(cfg, h, d, reply, poll);
            var counted := h.(toolRounds := h1.toolRounds);
            && h.toolRounds <= h1.toolRounds <= h.toolRounds + 1
            && (!verdict.Threw? && h.toolRounds <= cfg.maxToolRounds ==> h1.toolRounds <= cfg.maxToolRounds)
            && (verdict.Returned? ==>
                  exists status, kind :: IsOutcomeOf(status, kind) && h1 == EndTurn(counted, status, kind))
            && (!verdict.Returned? ==> h1 == counted)
  {
    var (h1, verdict) := AnswerReply(cfg, h, d, reply, poll);
    if verdict.Returned? {
      assert IsOutcomeOf(h1.status, h1.history[|h1.history| - 1].kind);
    }
  }

  predicate IsOutcomeOf(status: HostStatus, kind: HostKind) {
    IsOutcome(kind) && !status.HostRunning? && (status.HostCompleted? <==> kind.TurnCompleted?)
  }

  lemma ReplyKeeps(cfg: Config, log: seq<Event>, h: HostState, d: Driver, reply: Reply, poll: Poll)
    requires HostInv(cfg, log, h) && h.status.HostRunning?
    ensures var (h1, verdict) := AnswerReply(cfg, h, d, reply, poll);
            HostInv(cfg, log, Concluded(h1, verdict))
  {
    ReplyShape(cfg, h, d, reply, poll);
    var (h1, verdict) := AnswerReply(cfg, h, d, reply, poll);
    if verdict.Threw? {
      SettledKeeps(cfg, log, h1, verdict.fault);
    } else if verdict.Returned? {
      var status, kind :| IsOutcomeOf(status, kind) && h1 == EndTurn(h.(toolRounds := h1.toolRounds), status, kind);
      EndedKeeps(cfg, log, h.(toolRounds := h1.toolRounds), status, kind);
    }
  }

  lemma TakenKeeps(cfg: Config, log: seq<Event>, h: HostState, step: HostStep)
    requires Numbered(log) && HostInv(cfg, log, h) && CanTake(log, h, step)
    ensures HostInv(cfg, log, Taken(cfg, log, h, step))
  {
    match step
    case DeliverStep =>
      RelayKeeps(cfg, log, h);
      if Refused(log[h.cursor]) {
        SettledKeeps(cfg, log, Relay(h, log[h.cursor]), Error("invalid_runtime_event"));
      }
    case ReplyStep(poll) => ReplyKeeps(cfg, log, h, h.driver.value, poll.reply.value, poll);
    case FaultStep(fault) => SettledKeeps(cfg, log, h, fault);
    case LeaveStep =>
    case CancelStep =>
      if h.status.HostRunning? {
        EndedKeeps(cfg, log, h, HostCanceled, TurnCanceled);
      }
    case AskStep(_) =>
    case AnsweredStep(_) => RecordedSteps(h.history, SessionStarted(true));
  }

  lemma {:induction false} RunKeeps(cfg: Config, log: seq<Event>, h: HostState, steps: seq<HostStep>)
    requires Numbered(log) && HostInv(cfg, log, h) && Run(cfg, log, h, steps).Some?
    ensures HostInv(cfg, log, Run(cfg, log, h, steps).value)
  {
    if steps != [] {
      RunKeeps(cfg, log, h, steps[..|steps| - 1]);
      TakenKeeps(cfg, log, Run(cfg, log, h, steps[..|steps| - 1]).value, steps[|steps| - 1]);
    }
  }

  /** In every run the host log relays exactly the entries up to the cursor, each once and in
      order, however often the stream broke and however many turns there were; every turn but
      the one at work has ended once; tool rounds stay within their limit. */
  lemma HostLogIsExact(cfg: Config, log: seq<Event>, steps: seq<HostStep>)
    requires Numbered(log) && Run(cfg, log, JustStarted(), steps).Some?
    ensures var h := Run(cfg, log, JustStarted(), steps).value;
            && HostNumbered(h.history)
            && h.cursor <= |log| && Relayed(h.history) == Images(log[..h.cursor])
            && TurnsStarted(h.history) == Outcomes(h.history) + (if h.status.HostRunning? then 1 else 0)
            && (h.status.HostRunning? || h.status.HostCompleted? ==> h.toolRounds <= cfg.maxToolRounds)
  {
    JustStartedIsSound(cfg, log);
    RunKeeps(cfg, log, JustStarted(), steps);
    OneOutcomePerTurn(Run(cfg, log, JustStarted(), steps).value.history);
  }

  lemma JustStartedIsSound(cfg: Config, log: seq<Event>)
    ensures HostInv(cfg, log, JustStarted())
  {
    RecordedSteps([], SessionStarted(false));
    assert log[..0] == [];
  }

  /** A session that failed, was canceled, or needs an approval never changes again. */
  lemma ClosedIsFinal(cfg: Config, log: seq<Event>, h: HostState, step: HostStep)
    requires HostInv(cfg, log, h) && CanTake(log, h, step)
    requires !h.status.HostRunning? && !h.status.HostCompleted?
    ensures Taken(cfg, log, h, step) == h
  {
  }

  predicate Grows(h: HostState, t: HostState) { h.history <= t.history && h.cursor <= t.cursor }

  lemma ReplyGrows(cfg: Config, h: HostState, d: Driver, reply: Reply, poll: Poll)
    ensures var (h1, verdict) := AnswerReply(cfg, h, d, reply, poll); Grows(h, Concluded(h1, verdict))
  {
    ReplyShape(cfg, h, d, reply, poll);
    var (h1, verdict) := AnswerReply(cfg, h, d, reply, poll);
    if verdict.Returned? {
      var status, kind :| IsOutcomeOf(status, kind) && h1 == EndTurn(h.(toolRounds := h1.toolRounds), status, kind);
    }
  }

  /** The host log only grows, and its relay cursor never goes back. */
  lemma HostLogOnlyGrows(cfg: Config, log: seq<Event>, h: HostState, step: HostStep)
    requires Numbered(log) && CanTake(log, h, step)
    ensures Grows(h, Taken(cfg, log, h, step))
  {
    if step.ReplyStep? {
      ReplyGrows(cfg, h, h.driver.value, step.poll.reply.value, step.poll);
    }
  }

  // ---------------------------------------------------------------------------------------
  // What the host shows
  // ---------------------------------------------------------------------------------------

  /** Of a valid runtime log the host refuses exactly the reduction notices with a count that
      is no safe integer; every notice has something to tell. */
  lemma ValidLogIsAccepted(log: seq<Event>, i: nat)
    requires i < |log| <= MAX_EVENTS && !StageOf(log).Invalid?
    ensures Refused(log[i]) <==> log[i].kind.ContextReduced? && !CountsAreSafe(log[i].kind.reduction)
    ensures log[i].kind.ContextReduced? ==> log[i].kind.reduction.Justified()
  {
    PrefixIsValid(log, i + 1);
    StageStep(log, i);
    PrefixIsValid(log, i);
    RoundsArePositive(log[..i]);
    RoundsAreFew(log[..i]);
  }

  lemma {:induction false} RoundsAreFew(log: seq<Event>)
    requires !StageOf(log).Invalid?
    ensures RoundOf(StageOf(log)) <= |log|
  {
    if log != [] {
      RoundsAreFew(log[..|log| - 1]);
    }
  }

  lemma {:induction false} RoundsArePositive(log: seq<Event>)
    requires !StageOf(log).Invalid?
    ensures StageOf(log).Empty? || StageOf(log).Opened? || StageOf(log).Ended? || RoundOf(StageOf(log)) >= 1
  {
    if log != [] {
      RoundsArePositive(log[..|log| - 1]);
    }
  }

  function TextShown(kinds: seq<HostKind>, round: nat): string {
    if kinds == [] then ""
    else
      var kind := kinds[|kinds| - 1];
      TextShown(kinds[..|kinds| - 1], round)
      + if kind.AssistantTextDelta? && kind.round == round then kind.delta else ""
  }

  lemma TextShownStep(kinds: seq<HostKind>, kind: HostKind, round: nat)
    ensures TextShown(kinds + [kind], round)
         == TextShown(kinds, round) + if kind.AssistantTextDelta? && kind.round == round then kind.delta else ""
  {
    var all := kinds + [kind];
    assert all[..|all| - 1] == kinds && all[|all| - 1] == kind;
  }

  /** The assistant text in the host log, round by round, is the text the runtime logged. */
  lemma {:induction false} ShownTextIsLoggedText(log: seq<Event>, round: nat)
    requires !StageOf(log).Invalid? && |log| <= MAX_EVENTS
    ensures TextShown(Images(log), round) == RoundText(log, round)
  {
    if log != [] {
      ValidLogIsAccepted(log, |log| - 1);
      ShownTextIsLoggedText(log[..|log| - 1], round);
      ShownStep(log, round);
    }
  }

  lemma ShownStep(log: seq<Event>, round: nat)
    requires log != [] && (log[|log| - 1].kind.TextDelta? ==> !Refused(log[|log| - 1]))
    ensures var front := log[..|log| - 1];
            TextShown(Images(front), round) == RoundText(front, round) ==>
              TextShown(Images(log), round) == RoundText(log, round)
  {
    var front, last := log[..|log| - 1], log[|log| - 1];
    var image := Image(last);
    if image.Some? {
      TextShownStep(Images(front), image.value, round);
    } else {
      assert Images(log) == Images(front);
      assert RoundText(log, round) == RoundText(front, round);
    }
  }

  // ---------------------------------------------------------------------------------------
  // Driving is made of steps
  // ---------------------------------------------------------------------------------------

  lemma {:induction false} RunAppends(cfg: Config, log: seq<Event>, h: HostState, first: seq<HostStep>,
      rest: seq<HostStep>)
    requires Run(cfg, log, h, first).Some?
    ensures Run(cfg, log, h, first + rest) == Run(cfg, log, Run(cfg, log, h, first).value, rest)
  {
    if rest == [] {
      assert first + rest == first;
    } else {
      var front := rest[..|rest| - 1];
      assert (first + rest)[..|first + rest| - 1] == first + front;
      RunAppends(cfg, log, h, first, front);
    }
  }

  lemma OneStepRun(cfg: Config, log: seq<Event>, h: HostState, step: HostStep)
    requires CanTake(log, h, step)
    ensures Run(cfg, log, h, [step]) == Some(Taken(cfg, log, h, step))
  {
    assert [step][..0] == [];
  }

  ghost predicate Reaches(cfg: Config, log: seq<Event>, h: HostState, h1: HostState) {
    exists steps :: Run(cfg, log, h, steps) == Some(h1)
  }

  lemma ReachesNow(cfg: Config, log: seq<Event>, h: HostState)
    ensures Reaches(cfg, log, h, h)
  {
    assert Run(cfg, log, h, []) == Some(h);
  }

  lemma ReachesOn(cfg: Config, log: seq<Event>, h: HostState, step: HostStep, h1: HostState)
    requires CanTake(log, h, step) && Reaches(cfg, log, Taken(cfg, log, h, step), h1)
    ensures Reaches(cfg, log, h, h1)
  {
    var steps :| Run(cfg, log, Taken(cfg, log, h, step), steps) == Some(h1);
    OneStepRun(cfg, log, h, step);
    RunAppends(cfg, log, h, [step], steps);
  }

  lemma ReachesThen(cfg: Config, log: seq<Event>, h: HostState, h1: HostState, h2: HostState)
    requires Reaches(cfg, log, h, h1) && Reaches(cfg, log, h1, h2)
    ensures Reaches(cfg, log, h, h2)
  {
    var first :| Run(cfg, log, h, first) == Some(h1);
    var rest :| Run(cfg, log, h1, rest) == Some(h2);
    RunAppends(cfg, log, h, first, rest);
  }

  lemma {:induction false} RelayingIsSteps(cfg: Config, log: seq<Event>, h: HostState, upTo: nat)
    requires Numbered(log) && h.driver.Some? && h.cursor <= upTo <= |log|
    ensures var (h1, refused) := RelayAll(h, log[h.cursor..upTo]);
            Reaches(cfg, log, h, if refused.Some? then Settled(h1, refused.value) else h1)
    decreases upTo - h.cursor
  {
    var events := log[h.cursor..upTo];
    var (h1, refused) := RelayAll(h, events);
    var end := if refused.Some? then Settled(h1, refused.value) else h1;
    if events == [] {
      ReachesNow(cfg, log, h);
    } else {
      var next := Taken(cfg, log, h, DeliverStep);
      if Refused(events[0]) {
        ReachesNow(cfg, log, next);
      } else {
        assert events[1..] == log[next.cursor..upTo];
        RelayingIsSteps(cfg, log, next, upTo);
      }
      ReachesOn(cfg, log, h, DeliverStep, end);
    }
  }

  /** One poll of the drive loop is a run of the steps above. */
  lemma PollIsSteps(cfg: Config, log: seq<Event>, h: HostState, poll: Poll)
    requires Ready(log, h)
    ensures var (h1, verdict) := Polled(cfg, log, h, poll); Reaches(cfg, log, h, Concluded(h1, verdict))
  {
    if poll.aborted {
      ReachesNow(cfg, log, h.(driver := None));
      ReachesOn(cfg, log, h, LeaveStep, h.(driver := None));
      return;
    }
    var upTo := if h.cursor <= poll.upTo <= |log| then poll.upTo else h.cursor;
    assert Delivered(log, h, poll) == log[h.cursor..upTo];
    RelayingIsSteps(cfg, log, h, upTo);
    RelayAllMoves(cfg, log, h, upTo);
    var (h1, refused) := RelayAll(h, Delivered(log, h, poll));
    var end := Concluded(Polled(cfg, log, h, poll).0, Polled(cfg, log, h, poll).1);
    if refused.None? {
      var step := if poll.streamFault.Some? then FaultStep(poll.streamFault.value)
                  else if poll.reply.Err? then FaultStep(poll.reply.error)
                  else ReplyStep(poll);
      ReachesNow(cfg, log, end);
      ReachesOn(cfg, log, h1, step, end);
      ReachesThen(cfg, log, h, h1, end);
    }
  }

  function AfterPoll(cfg: Config, log: seq<Event>, h: HostState, poll: Poll): HostState
    requires Ready(log, h)
  {
    var (h1, verdict) := Polled(cfg, log, h, poll);
    Concluded(h1, verdict)
  }

  /** The state after one poll: driving either goes on from it or it is the end. */
  ghost predicate GoesOn(cfg: Config, log: seq<Event>, h: HostState, polls: nat -> Poll, k: nat, h2: HostState)
    requires Ready(log, h) && AllServe(polls)
  {
    if h2.driver.Some? then
      && Ready(log, h2) && Lower(cfg, log, h2, h)
      && Driven(cfg, log, h, polls, k) == Driven(cfg, log, h2, polls, k + 1)
    else
      Driven(cfg, log, h, polls, k) == h2 && (polls(k).aborted || !h2.status.HostRunning?)
  }

  lemma PollGoesOn(cfg: Config, log: seq<Event>, h: HostState, polls: nat -> Poll, k: nat)
    requires Ready(log, h) && AllServe(polls)
    ensures GoesOn(cfg, log, h, polls, k, AfterPoll(cfg, log, h, polls(k)))
  {
    var (h1, verdict) := Polled(cfg, log, h, polls(k));
    if verdict.Again? {
      DrivingDescends(cfg, log, h, polls(k));
    }
  }

  ghost predicate AbortedFrom(polls: nat -> Poll, k: nat) { exists i: nat :: i >= k && polls(i).aborted }

  /** Driving on from poll `k` leads to `end`: by a run, and short of an outcome only when some
      later poll finds the signal aborted. */
  ghost predicate LeadsTo(cfg: Config, log: seq<Event>, h: HostState, polls: nat -> Poll, k: nat, end: HostState) {
    Reaches(cfg, log, h, end) && (end.status.HostRunning? ==> AbortedFrom(polls, k))
  }

  lemma LeadsOn(cfg: Config, log: seq<Event>, h: HostState, polls: nat -> Poll, k: nat)
    requires Ready(log, h) && AllServe(polls)
    requires var h2 := AfterPoll(cfg, log, h, polls(k));
             && GoesOn(cfg, log, h, polls, k, h2)
             && (h2.driver.Some? ==> LeadsTo(cfg, log, h2, polls, k + 1, Driven(cfg, log, h2, polls, k + 1)))
    ensures LeadsTo(cfg, log, h, polls, k, Driven(cfg, log, h, polls, k))
  {
    var h2 := AfterPoll(cfg, log, h, polls(k));
    PollIsSteps(cfg, log, h, polls(k));
    if h2.driver.Some? {
      ReachesThen(cfg, log, h, h2, Driven(cfg, log, h2, polls, k + 1));
    }
  }

  lemma {:induction false} DrivingLeads(cfg: Config, log: seq<Event>, h: HostState, polls: nat -> Poll, k: nat)
    requires Ready(log, h) && AllServe(polls)
    ensures LeadsTo(cfg, log, h, polls, k, Driven(cfg, log, h, polls, k))
    decreases LeftRounds(cfg, h), LeftEvents(log, h), NotYetRunning(h), LeftIdle(cfg, h), 1
  {
    PollGoesOn(cfg, log, h, polls, k);
    NextLeads(cfg, log, h, AfterPoll(cfg, log, h, polls(k)), polls, k);
    LeadsOn(cfg, log, h, polls, k);
  }

  lemma {:induction false} NextLeads(cfg: Config, log: seq<Event>, h: HostState, h2: HostState, polls: nat -> Poll,
                                     k: nat)
    requires AllServe(polls)
    requires h2.driver.Some? ==> Ready(log, h2) && Lower(cfg, log, h2, h)
    ensures h2.driver.Some? ==> LeadsTo(cfg, log, h2, polls, k + 1, Driven(cfg, log, h2, polls, k + 1))
    decreases LeftRounds(cfg, h), LeftEvents(log, h), NotYetRunning(h), LeftIdle(cfg, h), 0
  {
    if h2.driver.Some? {
      DrivingLeads(cfg, log, h2, polls, k + 1);
    }
  }

  /** A whole turn of driving is a run. */
  lemma DrivingIsARun(cfg: Config, log: seq<Event>, h: HostState, polls: nat -> Poll, k: nat)
    requires Ready(log, h) && AllServe(polls)
    ensures Reaches(cfg, log, h, Driven(cfg, log, h, polls, k))
  {
    DrivingLeads(cfg, log, h, polls, k);
  }

  /** Driving that ends without an outcome found the signal aborted. */
  lemma LeavesOnlyAborted(cfg: Config, log: seq<Event>, h: HostState, polls: nat -> Poll, k: nat)
    requires Ready(log, h) && AllServe(polls) && Driven(cfg, log, h, polls, k).status.HostRunning?
    ensures AbortedFrom(polls, k)
  {
    DrivingLeads(cfg, log, h, polls, k);
  }

  /** Driving a sound session keeps it sound and ends its turn, or leaves it to the request that
      aborted it, which gives the outcome. */
  lemma DrivingSettles(cfg: Config, log: seq<Event>, h: HostState, polls: nat -> Poll)
    requires Ready(log, h) && HostInv(cfg, log, h) && AllServe(polls)
    ensures var end := Driven(cfg, log, h, polls, 0);
            && HostInv(cfg, log, end)
            && (end.status.HostRunning? ==> AbortedFrom(polls, 0))
            && HostInv(cfg, log, CancelTail(end)) && !CancelTail(end).status.HostRunning?
  {
    DrivingIsARun(cfg, log, h, polls, 0);
    var end := Driven(cfg, log, h, polls, 0);
    var steps :| Run(cfg, log, h, steps) == Some(end);
    RunKeeps(cfg, log, h, steps);
    TakenKeeps(cfg, log, end, CancelStep);
    if end.status.HostRunning? {
      LeavesOnlyAborted(cfg, log, h, polls, 0);
    }
  }
}
