/** Across the components: from a session's log in the runtime, over the wire, to the host's log. */
module Conversation {
  import opened Contracts
  import opened Lines
  import opened Turns
  import opened PlanSearch
  import opened ContextPlanner
  import opened SessionEvents
  import opened SessionMachine
  import opened SessionInvariants
  import opened SessionRuns
  import opened SessionBoundary
  import Wire = EventStream
  import Bound = EventLimits
  import Store = SessionStore
  import Host = HostMachine
  import HostRuns

  /** Every session the runtime stores meets what the host relies on: its log is numbered,
      bounded and valid, and it is never in the state before its first call. */
  lemma StoredSessionsServeTheHost(store: Store.Store, id: string, poll: Host.Poll)
    requires Store.StoreInv(store) && id in store
    requires poll.reply.Ok? ==> poll.reply.value.status == store[id].session.status
    ensures var s := store[id].session;
            Numbered(s.events) && |s.events| <= MAX_EVENTS && !StageOf(s.events).Invalid?
    ensures Host.Serves(poll)
  {
    assert Store.IsSound(store, id);
  }

  /** Sizes a host can count with: transcript, configured output, and the capacity or, when it
      is unknown, the estimate. */
  predicate SafeSizes(r: Request) {
    && Host.IsSafe(|r.messages|) && Host.IsSafe(r.limits.maxOutputTokens)
    && match r.window.tokens
       case Some(capacity) => Host.IsSafe(capacity)
       case None => Host.IsSafe(PlanOf(r).estimatedPromptTokens)
  }

  lemma PlannedCountsAreSafe(r: Request)
    requires PlanOf(r).failure.None? && SafeSizes(r)
    ensures Host.CountsAreSafe(ReductionOf(PlanOf(r)))
  {
    PlanIsSound(r);
    WindowShape(r);
    TurnsAreFew(r.messages);
  }

  lemma NoticeIsRelayed(p: Profile, s: Session, plan: ContextPlan)
    requires Inv(p, s) && s.phase.Probing? && plan.failure.None? && NoticeOf(s, plan).Some?
    requires Host.CountsAreSafe(ReductionOf(plan))
    ensures var events := Enter(p, s, plan).events;
            && |events| == |s.events| + 1
            && events[|s.events|].kind == ContextReduced(s.providerCalls, ReductionOf(plan))
            && Host.Image(events[|s.events|]) == Some(Host.ContextNarrowed(s.providerCalls, ReductionOf(plan)))
  {
    PlannedCallsEnter(p, s, plan);
    StartsAreFew(s.events);
    HostRuns.RoundsArePositive(s.events);
    assert StageOf(s.events) == Called(s.providerCalls);
  }

  /** Every notice the runtime logs for a planned call is accepted and relayed by the host. */
  lemma NoticesAreRelayed(p: Profile, s: Session, window: ContextWindow, measure: seq<Message> -> nat,
                          plan: ContextPlan)
    requires Inv(p, s) && s.phase.Probing? && SafeSizes(RequestFor(p, s, window, measure))
    requires plan == PlanOf(RequestFor(p, s, window, measure)) && plan.failure.None? && NoticeOf(s, plan).Some?
    ensures var events := Enter(p, s, plan).events;
            && |events| == |s.events| + 1
            && Host.Image(events[|s.events|]) == Some(Host.ContextNarrowed(s.providerCalls, ReductionOf(plan)))
  {
    PlannedCountsAreSafe(RequestFor(p, s, window, measure));
    NoticeIsRelayed(p, s, plan);
  }

  lemma {:induction false} StartsAreFew(events: seq<Event>)
    ensures Starts(events) <= |events|
  {
    if events != [] {
      StartsAreFew(events[..|events| - 1]);
    }
  }

  /** One stream from the gateway, cut anywhere and rechunked in any way, hands the host exactly
      the entries of some poll of its machine: those from its cursor to where the stream ended. */
  lemma StreamIsADelivery(codec: Wire.Codec<Event>, log: seq<Event>, h: Host.HostState, frames: seq<Wire.Frame<Event>>,
                          chunks: seq<string>, limit: nat, poll: Host.Poll)
    requires forall e: Event :: codec.sequenceOf(e) == e.sequence
    requires Numbered(log) && h.cursor <= |log|
    requires Wire.EventsOf(frames) == log[h.cursor..]
    requires forall i | 0 <= i < |frames| :: Wire.FaithfulFrame(codec, frames[i])
    requires Concat(chunks) <= Wire.StreamText(codec, frames)
    requires Wire.FeedAll(codec, h.cursor, chunks, limit).delivered.failure != Some(Wire.TooLong)
    requires poll.upTo == Wire.FeedAll(codec, h.cursor, chunks, limit).delivered.cursor
    ensures Wire.FeedAll(codec, h.cursor, chunks, limit).delivered.events == Host.Delivered(log, h, poll)
  {
    Wire.CutShort(codec, log, h.cursor, frames, chunks, limit);
  }

  /** When a streamed session completes and the host has relayed its whole log, the text the
      host shows for the last round is the final text. */
  lemma HostShowsTheFinalText(p: Profile, s: Session, answer: Answer, cfg: Host.Config, h: Host.HostState)
    requires Inv(p, s) && s.phase.Calling? && s.phase.emitter.Some?
    requires Finish(p, s, answer).status.Completed?
    requires var t := Finish(p, s, answer); HostRuns.HostInv(cfg, t.events, h) && h.cursor == |t.events|
    ensures var t := Finish(p, s, answer);
            t.finalText == Some(HostRuns.TextShown(Host.Relayed(h.history), t.providerCalls))
  {
    var t := Finish(p, s, answer);
    StreamedTextIsFinalText(p, s, answer);
    FinishKeeps(p, s, answer);
    assert t.events[..h.cursor] == t.events;
    HostRuns.ShownTextIsLoggedText(t.events, t.providerCalls);
  }

  // ---------------------------------------------------------------------------------------
  // A final text the runtime allows and the client refuses
  // ---------------------------------------------------------------------------------------

  /** A completion is printed under its type, with the final text escaped in its JSON. */
  ghost predicate PrintsFinalText(codec: Wire.Codec<Event>) {
    forall e: Event | e.kind.SessionCompleted? ::
      && codec.typeOf(e) == "session_completed"
      && exists at: nat :: OccursAt(codec.encode(e), Bound.Escaped(e.kind.text), at)
  }

  /** The client refuses every stream of this log from a cursor before its end, however the
      stream is cut. */
  ghost predicate NeverGetsThrough(log: seq<Event>) {
    forall codec: Wire.Codec<Event>, after: nat, frames: seq<Wire.Frame<Event>>, chunks: seq<string>
      | PrintsFinalText(codec) && after < |log| && Bound.Sends(codec, log, after, frames)
        && Concat(chunks) == Wire.StreamText(codec, frames) ::
      Bound.Refused(codec, after, chunks, Bound.CLIENT_LIMIT)
  }

  lemma {:induction false} FrameOf(frames: seq<Wire.Frame<Event>>, e: Event) returns (n: nat)
    requires e in Wire.EventsOf(frames)
    ensures n < |frames| && frames[n] == Wire.EventFrame(e)
  {
    if e in Wire.EventIn(frames[0]) {
      n := 0;
    } else {
      var m := FrameOf(frames[1..], e);
      n := m + 1;
    }
  }

  lemma LongCompletionIsRefused(codec: Wire.Codec<Event>, log: seq<Event>, after: nat, frames: seq<Wire.Frame<Event>>,
                                chunks: seq<string>, text: string)
    requires log != [] && log[|log| - 1].kind == SessionCompleted(text)
    requires |Bound.Escaped(text)| > Bound.CLIENT_LIMIT - 39
    requires PrintsFinalText(codec) && after < |log| && Bound.Sends(codec, log, after, frames)
    requires Concat(chunks) == Wire.StreamText(codec, frames)
    ensures Bound.Refused(codec, after, chunks, Bound.CLIENT_LIMIT)
  {
    var last := log[|log| - 1];
    assert log[after..][|log| - after - 1] == last;
    var n := FrameOf(frames, last);
    var at: nat :| OccursAt(codec.encode(last), Bound.Escaped(text), at);
    Bound.LongTextIsRefused(codec, log, after, frames, n, chunks, Bound.CLIENT_LIMIT, text, at);
  }

  /** However a session came to complete with a text this long, its log never gets through. */
  lemma LongFinalTextIsRefused(log: seq<Event>, text: string)
    requires log != [] && log[|log| - 1].kind == SessionCompleted(text)
    requires |Bound.Escaped(text)| > Bound.CLIENT_LIMIT - 39
    ensures NeverGetsThrough(log)
  {
    forall codec: Wire.Codec<Event>, after: nat, frames: seq<Wire.Frame<Event>>, chunks: seq<string>
      | PrintsFinalText(codec) && after < |log| && Bound.Sends(codec, log, after, frames)
        && Concat(chunks) == Wire.StreamText(codec, frames)
      ensures Bound.Refused(codec, after, chunks, Bound.CLIENT_LIMIT)
    {
      LongCompletionIsRefused(codec, log, after, frames, chunks, text);
    }
  }

  // Such streams exist for every numbered log.

  function Hashes(n: nat): string { seq(n, i => '#') }

  function PlainText(e: Event): string {
    Hashes(e.sequence) + ['.'] + if e.kind.SessionCompleted? then Bound.Escaped(e.kind.text) else ""
  }

  function FindEvent(log: seq<Event>, text: string): Option<Event> {
    if log == [] then None
    else if PlainText(log[0]) == text then Some(log[0])
    else FindEvent(log[1..], text)
  }

  function TypeName(e: Event): string { if e.kind.SessionCompleted? then "session_completed" else "event" }

  function PlainCodec(log: seq<Event>): Wire.Codec<Event> {
    Wire.Codec((e: Event) => e.sequence, (e: Event) => TypeName(e), (e: Event) => PlainText(e),
               (text: string) => FindEvent(log, text))
  }

  lemma PrintedApart(a: Event, b: Event)
    requires a.sequence < b.sequence
    ensures PlainText(a) != PlainText(b)
  {
    assert PlainText(a)[a.sequence] == '.';
    assert PlainText(b)[a.sequence] == '#';
  }

  lemma {:induction false} EventIsFound(log: seq<Event>, i: nat)
    requires i < |log| && forall j, k | 0 <= j < k < |log| :: log[j].sequence < log[k].sequence
    ensures FindEvent(log, PlainText(log[i])) == Some(log[i])
  {
    if i > 0 {
      PrintedApart(log[0], log[i]);
      EventIsFound(log[1..], i - 1);
    }
  }

  lemma PlainTextIsOneLine(e: Event)
    ensures PlainText(e) != "" && '\n' !in PlainText(e) && '\n' !in TypeName(e)
  {
    if e.kind.SessionCompleted? {
      Bound.EscapedIsOneLine(e.kind.text);
    }
  }

  lemma PlainCodecPrints(log: seq<Event>)
    ensures PrintsFinalText(PlainCodec(log))
  {
    var codec := PlainCodec(log);
    forall e: Event | e.kind.SessionCompleted?
      ensures exists at: nat :: OccursAt(codec.encode(e), Bound.Escaped(e.kind.text), at)
    {
      assert OccursAt(codec.encode(e), Bound.Escaped(e.kind.text), e.sequence + 1);
    }
  }

  lemma PlainCodecIsFaithful(log: seq<Event>, i: nat)
    requires Numbered(log) && i < |log|
    ensures Wire.Faithful(PlainCodec(log), log[i])
  {
    EventIsFound(log, i);
    PlainTextIsOneLine(log[i]);
  }

  /** Every numbered log has streams that a client may be sent. */
  lemma StreamsExist(log: seq<Event>)
    requires Numbered(log)
    ensures exists codec, frames :: PrintsFinalText(codec) && Bound.Sends(codec, log, 0, frames)
  {
    var frames := seq(|log|, i requires 0 <= i < |log| => Wire.EventFrame(log[i]));
    Wire.EventFramesOnly(log);
    PlainCodecPrints(log);
    forall i | 0 <= i < |frames| ensures Wire.FaithfulFrame(PlainCodec(log), frames[i]) {
      PlainCodecIsFaithful(log, i);
    }
    assert log[0..] == log;
    assert Bound.Sends(PlainCodec(log), log, 0, frames);
  }

  const WHOLE_PROFILE: Profile := PROFILE.(streams := false)

  /** An answer that uses up the whole output limit of a first call is taken. */
  lemma WholeAllowanceIsTaken(s: Session, text: string)
    requires s.phase.Calling? && s.phase.emitter.None? && s.status.Running? && s.outputChars == 0 && |s.events| == 2
    requires |text| == 99_998
    ensures var t := Finish(WHOLE_PROFILE, s, Answer(text, [], None));
            && t.status.Completed? && t.finalText == Some(text)
            && t.events != [] && t.events[|t.events| - 1].kind == SessionCompleted(text)
  {
    assert FlushedOut(s) == Ok(s);
    assert Total(WHOLE_PROFILE, s, Answer(text, [], None)) == 100_000;
  }

  /** A reachable session takes the answer `text` as its final text, and its log never gets
      through to the host. */
  ghost predicate TakenButRefused(p: Profile, s: Session, text: string) {
    && Legal(p) && Reachable(p, s) && s.phase.Calling?
    && var t := Finish(p, s, Answer(text, [], None));
       Reachable(p, t) && t.status.Completed? && t.finalText == Some(text) && NeverGetsThrough(t.events)
  }

  /** That happens to every text of 99,998 characters beyond U+FFFF. */
  lemma AllowedTextIsRefused(text: string)
    requires Bound.Astral(text) && |text| == 99_998
    ensures exists p, s :: TakenButRefused(p, s, text)
  {
    var s := FirstCall(WHOLE_PROFILE);
    WholeAllowanceIsTaken(s, text);
    var answer := Answer(text, [], None);
    ReachNext(WHOLE_PROFILE, s, FinishStep(answer));
    Bound.AstralLength(text);
    LongFinalTextIsRefused(Finish(WHOLE_PROFILE, s, answer).events, text);
    assert TakenButRefused(WHOLE_PROFILE, s, text);
  }
}
