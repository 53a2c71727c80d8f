/** The session event log: what is logged, how many entries fit, and in which order. */
module SessionEvents {
  import opened Contracts

  const MAX_EVENTS: nat := 512

  /** Why a session failed. Failures inside a provider adapter keep the adapter's own code. */
  datatype Code =
    | EventLimitExceeded
    | OutputLimitExceeded
    | ContextWindowExceeded
    | InputLimitExceeded
    | InvalidProviderResponse
    | ToolRoundLimitExceeded
    | InvalidToolRequest
    | UnknownToolRequest
    | InvalidToolArguments
    | SchemaValidationFailed
    | ProviderTimeout
    | ProviderFailure
    | AdapterCode(code: string)

  /** The counts of a reduction notice. An unknown capacity has neither capacity nor budget. */
  datatype Reduction = Reduction(
    droppedMessages: int,
    droppedTurns: int,
    retainedMessages: int,
    estimatedPromptTokens: int,
    capacityTokens: Option<int>,
    budgetTokens: Option<int>,
    configuredOutputTokens: int,
    allocatedOutputTokens: int,
    calibrated: bool)
  {
    /** There is something to tell: messages left the prompt or the output was cut. */
    predicate Justified() { droppedMessages >= 1 || allocatedOutputTokens < configuredOutputTokens }
  }

  datatype EventKind =
    | SessionCreated
    | ProviderStarted
    | ContextReduced(round: nat, reduction: Reduction)
    | TextDelta(round: nat, delta: string)
    | ToolRequests(requests: seq<ToolRequest>)
    | ToolResultsReceived(count: nat)
    | UserInputReceived
    | SessionCompleted(text: string)
    | SessionFailed(code: Code)
    | SessionCanceled
  {
    predicate Terminal() { SessionCompleted? || SessionFailed? || SessionCanceled? }
  }

  datatype Status = Created | Running | WaitingForTool | Completed | Failed | Canceled

  datatype Event = Event(sequence: nat, kind: EventKind)

  /** The last entry is kept free for a terminal event. */
  function EventLimit(kind: EventKind): nat {
    if kind.Terminal() then MAX_EVENTS else MAX_EVENTS - 1
  }

  predicate HasRoom(events: seq<Event>, kind: EventKind) { |events| < EventLimit(kind) }

  function Logged(events: seq<Event>, kind: EventKind): seq<Event> {
    events + [Event(|events| + 1, kind)]
  }

  predicate Numbered(events: seq<Event>) {
    forall i | 0 <= i < |events| :: events[i].sequence == i + 1
  }

  /** The entries numbered beyond a cursor. */
  function Later(events: seq<Event>, after: int): seq<Event> {
    if events == [] then []
    else
      var last := events[|events| - 1];
      Later(events[..|events| - 1], after) + if last.sequence > after then [last] else []
  }

  /** In a numbered log the entries beyond a cursor are the rest of the log. */
  lemma {:induction false} LaterIsSuffix(events: seq<Event>, after: nat)
    requires Numbered(events) && after <= |events|
    ensures Later(events, after) == events[after..]
  {
    if after < |events| {
      var front := events[..|events| - 1];
      LaterIsSuffix(front, after);
      assert events[after..] == front[after..] + [events[|events| - 1]];
    } else if events != [] {
      NothingLater(events, after);
    }
  }

  lemma {:induction false} NothingLater(events: seq<Event>, after: nat)
    requires Numbered(events) && |events| <= after
    ensures Later(events, after) == []
  {
    if events != [] {
      NothingLater(events[..|events| - 1], after);
    }
  }

  // ---------------------------------------------------------------------------------------
  // The language of logs
  // ---------------------------------------------------------------------------------------

  /** Where a log stands. `round` counts the provider calls started so far. */
  datatype Stage =
    | Empty
    | Opened
    | Called(round: nat)
    | Narrowed(round: nat)
    | Streaming(round: nat)
    | AwaitingTools(round: nat)
    | Answered(round: nat)
    | ResultsIn(round: nat)
    | InputIn(round: nat)
    | Ended
    | Invalid

  /** The provider is at work in round `round`. */
  predicate InCall(stage: Stage, round: nat) {
    stage == Called(round) || stage == Narrowed(round) || stage == Streaming(round)
  }

  function AfterCall(round: nat, kind: EventKind): Stage {
    match kind
    case TextDelta(r, delta) => if r == round && delta != "" then Streaming(round) else Invalid
    case ToolRequests(requests) => if requests != [] then AwaitingTools(round) else Invalid
    case SessionCompleted(_) => Answered(round)
    case SessionFailed(_) => Ended
    case SessionCanceled => Ended
    case _ => Invalid
  }

  predicate IsNotice(kind: EventKind, round: nat) {
    kind.ContextReduced? && kind.round == round && kind.reduction.Justified()
  }

  function Advance(stage: Stage, kind: EventKind): Stage {
    match stage
    case Empty => if kind.SessionCreated? then Opened else Invalid
    case Opened => if kind.ProviderStarted? then Called(1) else Invalid
    case Called(round) => if IsNotice(kind, round) then Narrowed(round) else AfterCall(round, kind)
    case Narrowed(round) => AfterCall(round, kind)
    case Streaming(round) => AfterCall(round, kind)
    case AwaitingTools(round) =>
      if kind.ToolResultsReceived? then ResultsIn(round) else if kind.SessionCanceled? then Ended else Invalid
    case ResultsIn(round) =>
      if kind.ProviderStarted? then Called(round + 1) else if kind.SessionCanceled? then Ended else Invalid
    case Answered(round) => if kind.UserInputReceived? then InputIn(round) else Invalid
    case InputIn(round) => if kind.ProviderStarted? then Called(round + 1) else Invalid
    case _ => Invalid
  }

  function StageOf(events: seq<Event>): Stage {
    if events == [] then Empty else Advance(StageOf(events[..|events| - 1]), events[|events| - 1].kind)
  }

  function Starts(events: seq<Event>): nat {
    if events == [] then 0
    else Starts(events[..|events| - 1]) + if events[|events| - 1].kind.ProviderStarted? then 1 else 0
  }

  /** Assistant text logged for one round. */
  function RoundText(events: seq<Event>, round: nat): string {
    if events == [] then ""
    else
      var kind := events[|events| - 1].kind;
      RoundText(events[..|events| - 1], round)
      + if kind.TextDelta? && kind.round == round then kind.delta else ""
  }

  lemma LoggedSteps(events: seq<Event>, kind: EventKind)
    ensures var all := Logged(events, kind);
            && StageOf(all) == Advance(StageOf(events), kind)
            && Starts(all) == Starts(events) + (if kind.ProviderStarted? then 1 else 0)
            && (forall r: nat :: RoundText(all, r) == RoundText(events, r)
                                 + if kind.TextDelta? && kind.round == r then kind.delta else "")
            && (Numbered(events) ==> Numbered(all))
  {
    var all := Logged(events, kind);
    assert all[..|all| - 1] == events && all[|all| - 1].kind == kind;
  }

  function RoundOf(stage: Stage): nat {
    match stage
    case Empty => 0
    case Opened => 0
    case Ended => 0
    case Invalid => 0
    case Called(r) => r
    case Narrowed(r) => r
    case Streaming(r) => r
    case AwaitingTools(r) => r
    case Answered(r) => r
    case ResultsIn(r) => r
    case InputIn(r) => r
  }

  predicate Live(stage: Stage) { !stage.Ended? && !stage.Invalid? }

  /** In a valid log the round in force is the number of provider calls, later rounds have no
      text yet, and a round that has only just been called has none either. */
  lemma {:induction false} RoundsAreCounted(events: seq<Event>)
    requires Live(StageOf(events))
    ensures RoundOf(StageOf(events)) == Starts(events)
    ensures forall r: nat | r > Starts(events) :: RoundText(events, r) == ""
    ensures StageOf(events).Called? || StageOf(events).Narrowed? ==> RoundText(events, Starts(events)) == ""
  {
    if events != [] {
      RoundsAreCounted(events[..|events| - 1]);
    }
  }

  /** A valid log, cut anywhere, is a valid log. */
  lemma {:induction false} PrefixIsValid(events: seq<Event>, n: nat)
    requires n <= |events| && !StageOf(events).Invalid?
    ensures !StageOf(events[..n]).Invalid?
    ensures n < |events| ==> Live(StageOf(events[..n]))
  {
    if n < |events| {
      var front := events[..|events| - 1];
      PrefixIsValid(front, n);
      assert front[..n] == events[..n];
      if n == |front| {
        assert front[..n] == front;
      }
    } else {
      assert events[..n] == events;
    }
  }

  predicate EndsCall(kind: EventKind) { kind.ToolRequests? || kind.Terminal() }

  /** Between the provider start at `i` and position `j` stands nothing but one reduction
      notice, directly after the start, and text of that round. */
  ghost predicate CallSpan(events: seq<Event>, i: nat, j: nat, round: nat)
    requires i < j <= |events|
  {
    && events[i].kind.ProviderStarted?
    && forall k | i < k < j :: InSpan(events[k].kind, k == i + 1, round)
  }

  predicate InSpan(kind: EventKind, first: bool, round: nat) {
    (first && IsNotice(kind, round)) || (kind.TextDelta? && kind.round == round)
  }

  lemma StageStep(events: seq<Event>, j: nat)
    requires j < |events|
    ensures StageOf(events[..j + 1]) == Advance(StageOf(events[..j]), events[j].kind)
    ensures Starts(events[..j + 1]) == Starts(events[..j]) + if events[j].kind.ProviderStarted? then 1 else 0
  {
    assert events[..j + 1][..j] == events[..j];
  }

  lemma SpanStep(stage: Stage, kind: EventKind, round: nat)
    requires InCall(stage, round) && !EndsCall(kind) && !Advance(stage, kind).Invalid?
    ensures InCall(Advance(stage, kind), round) && !Advance(stage, kind).Called?
    ensures InSpan(kind, stage.Called?, round)
  {
  }

  lemma StartStep(events: seq<Event>, i: nat)
    requires i < |events| && events[i].kind.ProviderStarted? && !StageOf(events[..i + 1]).Invalid?
    ensures StageOf(events[..i + 1]) == Called(Starts(events[..i + 1]))
  {
    StageStep(events, i);
    RoundsAreCounted(events[..i + 1]);
  }

  lemma SpanExtends(events: seq<Event>, i: nat, j: nat, round: nat)
    requires i < j < |events| && CallSpan(events, i, j, round) && InSpan(events[j].kind, j == i + 1, round)
    ensures CallSpan(events, i, j + 1, round)
  {
  }

  lemma {:induction false} SpanUpTo(events: seq<Event>, i: nat, j: nat)
    requires i < j <= |events| && !StageOf(events[..j]).Invalid?
    requires events[i].kind.ProviderStarted?
    requires forall k | i < k < j :: !EndsCall(events[k].kind)
    ensures InCall(StageOf(events[..j]), Starts(events[..i + 1]))
    ensures CallSpan(events, i, j, Starts(events[..i + 1]))
    ensures StageOf(events[..j]).Called? <==> j == i + 1
    decreases j
  {
    if j == i + 1 {
      StartStep(events, i);
    } else {
      var round, before, after := Starts(events[..i + 1]), StageOf(events[..j - 1]), StageOf(events[..j]);
      assert after == Advance(before, events[j - 1].kind) by { StageStep(events, j - 1); }
      SpanUpTo(events, i, j - 1);
      SpanStep(before, events[j - 1].kind, round);
      SpanExtends(events, i, j - 1, round);
    }
  }

  /** The call started at `i` ended at `j` and was followed up by the input that `j` asked for. */
  ghost predicate FollowedUp(events: seq<Event>, i: nat, j: nat) {
    && i < j < j + 1 < |events|
    && CallSpan(events, i, j, Starts(events[..i + 1]))
    && ((events[j].kind.ToolRequests? && events[j + 1].kind.ToolResultsReceived?)
        || (events[j].kind.SessionCompleted? && events[j + 1].kind.UserInputReceived?))
  }

  /** No call starts while another is going on. */
  lemma SomeEnd(events: seq<Event>, i: nat, next: nat)
    requires i < next < |events| && !StageOf(events[..next + 1]).Invalid?
    requires events[i].kind.ProviderStarted? && events[next].kind.ProviderStarted?
    ensures exists k :: i < k < next && EndsCall(events[k].kind)
  {
    StageStep(events, next);
    if forall k | i < k < next :: !EndsCall(events[k].kind) {
      SpanUpTo(events, i, next);
    }
  }

  /** Where the call started at `i` ends, before the next one starts. */
  lemma CallEnds(events: seq<Event>, i: nat, next: nat) returns (j: nat)
    requires i < next < |events| && !StageOf(events).Invalid?
    requires events[i].kind.ProviderStarted? && events[next].kind.ProviderStarted?
    ensures i < j < next && EndsCall(events[j].kind)
    ensures InCall(StageOf(events[..j]), Starts(events[..i + 1]))
    ensures CallSpan(events, i, j, Starts(events[..i + 1]))
  {
    PrefixIsValid(events, next + 1);
    SomeEnd(events, i, next);
    j := FirstEnd(events, i, next);
    PrefixIsValid(events, j);
    SpanUpTo(events, i, j);
  }

  /** Reading the language off any valid log: two consecutive provider starts enclose the first
      one's reduction notice and text, exactly one ending event, and the follow-up. */
  lemma BetweenStarts(events: seq<Event>, i: nat, next: nat)
    requires i < next < |events| && !StageOf(events).Invalid?
    requires events[i].kind.ProviderStarted? && events[next].kind.ProviderStarted?
    requires forall k | i < k < next :: !events[k].kind.ProviderStarted?
    ensures next >= 2 && FollowedUp(events, i, next - 2)
  {
    var j := CallEnds(events, i, next);
    EndThenStart(events, j, next, Starts(events[..i + 1]));
    assert j == next - 2;
  }

  /** The three entries after which a call that ended is followed by another. */
  lemma EndStages(stage: Stage, round: nat, k0: EventKind, k1: EventKind, k2: EventKind)
    requires InCall(stage, round) && EndsCall(k0) && !Advance(stage, k0).Invalid?
    requires !Advance(Advance(stage, k0), k1).Invalid?
    ensures !k1.ProviderStarted?
    ensures !Advance(Advance(Advance(stage, k0), k1), k2).Invalid? ==>
              || (k0.ToolRequests? && k1.ToolResultsReceived?)
              || (k0.SessionCompleted? && k1.UserInputReceived?)
    ensures Live(Advance(Advance(Advance(stage, k0), k1), k2)) ==> k2.ProviderStarted?
  {
  }

  /** After a call has ended the next start comes two entries later, behind the follow-up. */
  lemma EndThenStart(events: seq<Event>, j: nat, next: nat, round: nat)
    requires j < next < |events| && !StageOf(events).Invalid?
    requires InCall(StageOf(events[..j]), round) && EndsCall(events[j].kind)
    requires events[next].kind.ProviderStarted?
    requires forall k | j < k < next :: !events[k].kind.ProviderStarted?
    ensures next == j + 2
    ensures (events[j].kind.ToolRequests? && events[j + 1].kind.ToolResultsReceived?)
         || (events[j].kind.SessionCompleted? && events[j + 1].kind.UserInputReceived?)
  {
    var k2 := if j + 2 < |events| then events[j + 2].kind else SessionCanceled;
    var stage, s1, s2 := StageOf(events[..j]), StageOf(events[..j + 1]), StageOf(events[..j + 2]);
    assert s1 == Advance(stage, events[j].kind)
        && !s1.Invalid? by { StageStep(events, j); PrefixIsValid(events, j + 1); }
    assert s2 == Advance(s1, events[j + 1].kind)
        && !s2.Invalid? by { StageStep(events, j + 1); PrefixIsValid(events, j + 2); }
    EndStages(stage, round, events[j].kind, events[j + 1].kind, k2);
    var s3 := StageOf(events[..j + 3]);
    assert s3 == Advance(s2, k2) && !s3.Invalid? && (j + 3 < |events| ==> Live(s3)) by {
      StageStep(events, j + 2);
      PrefixIsValid(events, j + 3);
    }
  }

  function FirstEnd(events: seq<Event>, i: nat, hi: nat): (j: nat)
    requires i < hi <= |events|
    requires exists k :: i < k < hi && EndsCall(events[k].kind)
    ensures i < j < hi && EndsCall(events[j].kind)
    ensures forall k | i < k < j :: !EndsCall(events[k].kind)
  {
    if exists k :: i < k < hi - 1 && EndsCall(events[k].kind) then FirstEnd(events, i, hi - 1) else hi - 1
  }
}
