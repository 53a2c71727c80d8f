/** The session event stream across the wire: the gateway prints a session log as server-sent
    events, the host's client parses them back. The format is a subset of "Server-sent
    events", section 9.2 of the WHATWG HTML Standard. */
module EventStream {
  import opened Contracts
  import opened Decimals
  import opened Lines
  import opened Framing

  /** What the wire needs to know about events: their sequence number and type, and the JSON
      text of an event. `decode` is JSON parsing with the check that the type is a string. */
  datatype Codec<!E> = Codec(
    sequenceOf: E -> nat,
    typeOf: E -> string,
    encode: E -> string,
    decode: string -> Option<E>)

  /** JSON text is one nonempty line that parses back; event types are one line. */
  ghost predicate Faithful<E>(codec: Codec<E>, e: E) {
    && '\n' !in codec.typeOf(e)
    && '\n' !in codec.encode(e)
    && codec.encode(e) != ""
    && codec.decode(codec.encode(e)) == Some(e)
  }

  // ---------------------------------------------------------------------------------------
  // Printing
  // ---------------------------------------------------------------------------------------

  datatype Frame<E> = EventFrame(event: E) | Heartbeat

  /** The lines of a frame, without the blank line that closes it. */
  function FrameLines<E>(codec: Codec<E>, frame: Frame<E>): seq<string> {
    match frame
    case Heartbeat => [": heartbeat"]
    case EventFrame(e) =>
      ["id: " + Decimal(codec.sequenceOf(e)), "event: " + codec.typeOf(e), "data: " + codec.encode(e)]
  }

  function FrameText<E>(codec: Codec<E>, frame: Frame<E>): string {
    Join(FrameLines(codec, frame), '\n') + "\n\n"
  }

  function StreamText<E>(codec: Codec<E>, frames: seq<Frame<E>>): string {
    if frames == [] then "" else FrameText(codec, frames[0]) + StreamText(codec, frames[1..])
  }

  function EventIn<E>(frame: Frame<E>): seq<E> {
    if frame.EventFrame? then [frame.event] else []
  }

  function EventsOf<E>(frames: seq<Frame<E>>): seq<E> {
    if frames == [] then [] else EventIn(frames[0]) + EventsOf(frames[1..])
  }

  lemma {:induction false} EventsOfConcat<E>(a: seq<Frame<E>>, b: seq<Frame<E>>)
    ensures EventsOf(a + b) == EventsOf(a) + EventsOf(b)
  {
    if a == [] {
      assert a + b == b;
    } else {
      assert (a + b)[0] == a[0] && (a + b)[1..] == a[1..] + b;
      EventsOfConcat(a[1..], b);
      var head, x, y := EventIn(a[0]), EventsOf(a[1..]), EventsOf(b);
      assert head + (x + y) == head + x + y;
    }
  }

  /** The service's answer to one round of the gateway loop: the log, whether the session is
      terminal or paused, whether the client has gone, and whether the heartbeat is due. */
  datatype Poll<E> = Poll(log: seq<E>, paused: bool, disconnected: bool, heartbeatDue: bool)

  datatype Ending = Paused | Disconnected | StillOpen

  /** Event `i` of a log carries sequence number `i + 1`. */
  predicate Numbered<E>(codec: Codec<E>, log: seq<E>) {
    forall i | 0 <= i < |log| :: codec.sequenceOf(log[i]) == i + 1
  }

  ghost predicate Growing<E>(polls: seq<Poll<E>>) {
    forall i, j | 0 <= i <= j < |polls| :: polls[i].log <= polls[j].log
  }

  function After<E>(codec: Codec<E>, log: seq<E>, cursor: nat): seq<E> {
    if log == [] then []
    else
      After(codec, log[..|log| - 1], cursor)
      + if codec.sequenceOf(log[|log| - 1]) > cursor then [log[|log| - 1]] else []
  }

  lemma {:induction false} AfterIsSuffix<E>(codec: Codec<E>, log: seq<E>, cursor: nat)
    requires Numbered(codec, log)
    ensures After(codec, log, cursor) == if cursor <= |log| then log[cursor..] else []
  {
    if log != [] {
      var front := log[..|log| - 1];
      AfterIsSuffix(codec, front, cursor);
      if cursor < |log| {
        assert log[cursor..] == front[cursor..] + [log[|log| - 1]];
      }
    }
  }

  /** Round `i` finds no event after those of the round before. */
  ghost predicate Quiet<E>(polls: seq<Poll<E>>, after: nat, i: nat)
    requires i < |polls|
  {
    |polls[i].log| == if i == 0 then after else |polls[i - 1].log|
  }

  lemma {:induction false} EventFramesOnly<E>(batch: seq<E>)
    ensures EventsOf(seq(|batch|, i requires 0 <= i < |batch| => EventFrame(batch[i]))) == batch
  {
    var frames := seq(|batch|, i requires 0 <= i < |batch| => EventFrame(batch[i]));
    if batch != [] {
      EventFramesOnly(batch[1..]);
      assert frames[1..] == seq(|batch| - 1, i requires 0 <= i < |batch| - 1 => EventFrame(batch[1..][i]));
    }
  }

  /** The frames of one batch, moving the cursor to each event in turn. */
  method YieldBatch<E>(codec: Codec<E>, batch: seq<E>, cursor: nat) returns (frames: seq<Frame<E>>, last: nat)
    ensures EventsOf(frames) == batch
    ensures last == if batch == [] then cursor else codec.sequenceOf(batch[|batch| - 1])
  {
    frames, last := [], cursor;
    for i := 0 to |batch|
      invariant frames == seq(i, j requires 0 <= j < i => EventFrame(batch[j]))
      invariant last == if i == 0 then cursor else codec.sequenceOf(batch[i - 1])
    {
      last := codec.sequenceOf(batch[i]);
      frames := frames + [EventFrame(batch[i])];
    }
    EventFramesOnly(batch);
  }

  /** The gateway's cursor, and the events it has sent, after `n` rounds. */
  ghost function CursorAt<E>(polls: seq<Poll<E>>, after: nat, n: nat): nat
    requires n <= |polls|
  {
    if n == 0 then after else |polls[n - 1].log|
  }

  ghost function Sent<E>(polls: seq<Poll<E>>, after: nat, n: nat): seq<E>
    requires n <= |polls|
  {
    if n == 0 || after > |polls[n - 1].log| then [] else polls[n - 1].log[after..]
  }

  lemma NextBatch<E>(codec: Codec<E>, polls: seq<Poll<E>>, after: nat, i: nat)
    requires Growing(polls) && i < |polls| && Numbered(codec, polls[i].log)
    requires after <= |polls[0].log|
    ensures var cursor := CursorAt(polls, after, i); var batch := After(codec, polls[i].log, cursor);
            && Sent(polls, after, i) + batch == Sent(polls, after, i + 1)
            && (batch == [] <==> Quiet(polls, after, i))
            && CursorAt(polls, after, i + 1)
               == if batch == [] then cursor else codec.sequenceOf(batch[|batch| - 1])
  {
    var log := polls[i].log;
    if i == 0 {
      Batch(codec, log, log[..after], after);
    } else {
      assert polls[0].log <= polls[i - 1].log <= log;
      Batch(codec, log, polls[i - 1].log, after);
    }
  }

  lemma Batch<E>(codec: Codec<E>, log: seq<E>, before: seq<E>, after: nat)
    requires Numbered(codec, log) && before <= log && after <= |before|
    ensures var batch := After(codec, log, |before|);
            && before[after..] + batch == log[after..]
            && (batch == [] <==> |log| == |before|)
            && |log| == if batch == [] then |before| else codec.sequenceOf(batch[|batch| - 1])
  {
    AfterIsSuffix(codec, log, |before|);
  }

  /** Whether and how round `i` ends the stream. */
  ghost function EndingAt<E>(polls: seq<Poll<E>>, after: nat, i: nat): Ending
    requires i < |polls|
  {
    if polls[i].paused && Quiet(polls, after, i) then Paused
    else if polls[i].disconnected then Disconnected
    else StillOpen
  }

  /** Round `i`: what the log holds beyond the cursor, and a heartbeat when that is nothing. */
  method YieldRound<E>(codec: Codec<E>, polls: seq<Poll<E>>, after: nat, i: nat, cursor: nat)
    returns (frames: seq<Frame<E>>, last: nat, ending: Ending)
    requires Growing(polls) && i < |polls| && Numbered(codec, polls[i].log)
    requires after <= |polls[0].log| && cursor == CursorAt(polls, after, i)
    ensures Sent(polls, after, i) + EventsOf(frames) == Sent(polls, after, i + 1)
    ensures last == CursorAt(polls, after, i + 1) && ending == EndingAt(polls, after, i)
  {
    NextBatch(codec, polls, after, i);
    var poll := polls[i];
    var batch := After(codec, poll.log, cursor);
    frames, last := YieldBatch(codec, batch, cursor);
    if poll.paused && batch == [] {
      return frames, last, Paused;
    }
    if poll.disconnected {
      return frames, last, Disconnected;
    }
    ending := StillOpen;
    if batch == [] && poll.heartbeatDue {
      EventsOfConcat(frames, [Heartbeat]);
      frames := frames + [Heartbeat];
    }
  }

  /** The gateway's generator over the rounds it lives through. Everything it yields is, apart
      from heartbeats, the log after the cursor, and it ends at the first round that finds the
      client gone, or the session terminal or paused with nothing new to send. */
  method Stream<E>(codec: Codec<E>, polls: seq<Poll<E>>, after: nat)
    returns (frames: seq<Frame<E>>, ending: Ending, rounds: nat)
    requires Growing(polls)
    requires forall i | 0 <= i < |polls| :: Numbered(codec, polls[i].log)
    requires polls != [] ==> after <= |polls[0].log|
    ensures rounds <= |polls| && (ending.StillOpen? ==> rounds == |polls|)
    ensures EventsOf(frames) == Sent(polls, after, rounds)
    ensures !ending.StillOpen? ==> rounds > 0 && ending == EndingAt(polls, after, rounds - 1)
    ensures forall i: nat | i < if ending.StillOpen? then rounds else rounds - 1 :: EndingAt(polls, after, i).StillOpen?
  {
    frames, ending, rounds := [], StillOpen, 0;
    var cursor := after;
    while rounds < |polls| && ending.StillOpen?
      invariant rounds <= |polls|
      invariant cursor == CursorAt(polls, after, rounds)
      invariant EventsOf(frames) == Sent(polls, after, rounds)
      invariant !ending.StillOpen? ==> rounds > 0 && ending == EndingAt(polls, after, rounds - 1)
      invariant forall i: nat | i < if ending.StillOpen? then rounds else rounds - 1 ::
                  EndingAt(polls, after, i).StillOpen?
    {
      var printed, last, end := YieldRound(codec, polls, after, rounds, cursor);
      EventsOfConcat(frames, printed);
      frames, cursor, ending, rounds := frames + printed, last, end, rounds + 1;
    }
  }

  // ---------------------------------------------------------------------------------------
  // Parsing
  // ---------------------------------------------------------------------------------------

  const DATA: string := "data: "
  const BLANK_LINE: string := "\n\n"

  function DataLines(lines: seq<string>): seq<string> {
    if lines == [] then []
    else (if DATA <= lines[0] then [lines[0][|DATA|..]] else []) + DataLines(lines[1..])
  }

  function Read<E>(codec: Codec<E>, frame: string): Meaning<E> {
    var data := Join(DataLines(Split(frame, '\n')), '\n');
    if data == "" then Nothing
    else match codec.decode(data)
      case None => Malformed
      case Some(e) => Value(e)
  }

  function Boundary(buffer: string): Option<(nat, nat)> {
    match Find(buffer, BLANK_LINE)
    case None => None
    case Some(at) => Some((at, 2))
  }

  function ClientFramer<E>(codec: Codec<E>): Framer<char, E> {
    Framer(buffer => Boundary(buffer), frame => Read(codec, frame))
  }

  lemma BoundaryIsStable(a: string, b: string)
    requires Boundary(a).Some?
    ensures Boundary(a + b) == Boundary(a)
  {
    var at := Find(a, BLANK_LINE).value;
    OccursInPrefix(a, b, BLANK_LINE, at);
    forall i: nat | i < at ensures !OccursAt(a + b, BLANK_LINE, i) {
      OccursInPrefix(a, b, BLANK_LINE, i);
    }
  }

  lemma ClientFramerIsSteady<E>(codec: Codec<E>)
    ensures Steady(ClientFramer(codec))
  {
    forall a: string, b: string | Boundary(a).Some? ensures Boundary(a + b) == Boundary(a) {
      BoundaryIsStable(a, b);
    }
  }

  datatype ReadFailure = TooLong | BadSequence | BadEvent | Truncated

  /** What the consumer has seen: events in order, the cursor, and the error that ended it. */
  datatype Delivery<E> = Delivery(events: seq<E>, cursor: nat, failure: Option<ReadFailure>)

  /** The client's state: what it delivered and the text not yet framed. */
  datatype Client<E> = Client(delivered: Delivery<E>, buffer: string)

  /** Hands out events while each follows the cursor. */
  function Deliver<E>(codec: Codec<E>, d: Delivery<E>, values: seq<E>): Delivery<E>
    decreases |values|
  {
    if values == [] || d.failure.Some? then d
    else if codec.sequenceOf(values[0]) != d.cursor + 1 then d.(failure := Some(BadSequence))
    else Deliver(codec, Delivery(d.events + [values[0]], d.cursor + 1, None), values[1..])
  }

  function NoteBroken<E>(d: Delivery<E>, phase: Phase): Delivery<E> {
    if d.failure.None? && phase.Broken? then d.(failure := Some(BadEvent)) else d
  }

  /** Taking every complete frame out of the buffer. */
  function Absorb<E>(codec: Codec<E>, c: Client<E>): Client<E> {
    Settled(codec, c.delivered, Drain(ClientFramer(codec), c.buffer))
  }

  function Settled<E>(codec: Codec<E>, before: Delivery<E>, d: Drained<char, E>): Client<E> {
    Client(NoteBroken(Deliver(codec, before, d.values), d.phase), d.rest)
  }

  function Feed<E>(codec: Codec<E>, c: Client<E>, chunk: string, limit: nat): Client<E> {
    if c.delivered.failure.Some? then c
    else if |c.buffer| + |chunk| > limit then c.(delivered := c.delivered.(failure := Some(TooLong)))
    else Absorb(codec, c.(buffer := c.buffer + chunk))
  }

  function Opened<E>(after: nat): Client<E> { Client(Delivery([], after, None), "") }

  function FeedAll<E>(codec: Codec<E>, after: nat, chunks: seq<string>, limit: nat): Client<E> {
    if chunks == [] then Opened(after)
    else Feed(codec, FeedAll(codec, after, chunks[..|chunks| - 1], limit), chunks[|chunks| - 1], limit)
  }

  /** White space as the client's trimming defines it. */
  predicate IsSpace(c: char) {
    var code := c as int;
    || 9 <= code <= 13 || code == 32 || code == 0xA0 || code == 0x1680 || 0x2000 <= code <= 0x200A
    || code in {0x2028, 0x2029, 0x202F, 0x205F, 0x3000, 0xFEFF}
  }

  /** End of the response: what is left must be blank. */
  function Close<E>(c: Client<E>): Delivery<E> {
    if c.delivered.failure.None? && exists i | 0 <= i < |c.buffer| :: !IsSpace(c.buffer[i])
    then c.delivered.(failure := Some(Truncated))
    else c.delivered
  }

  lemma {:induction false} DeliverConcat<E>(codec: Codec<E>, d: Delivery<E>, a: seq<E>, b: seq<E>)
    ensures Deliver(codec, d, a + b) == Deliver(codec, Deliver(codec, d, a), b)
    decreases |a|
  {
    if a == [] || d.failure.Some? {
      assert a == [] ==> a + b == b;
    } else {
      assert (a + b)[0] == a[0] && (a + b)[1..] == a[1..] + b;
      if codec.sequenceOf(a[0]) == d.cursor + 1 {
        DeliverConcat(codec, Delivery(d.events + [a[0]], d.cursor + 1, None), a[1..], b);
      }
    }
  }

  /** Reading the whole text at once. */
  function ReadWhole<E>(codec: Codec<E>, after: nat, text: string): Client<E> {
    Absorb(codec, Client(Delivery([], after, None), text))
  }

  lemma NoteContinues<E>(codec: Codec<E>, start: Delivery<E>, a: seq<E>, b: seq<E>, phase: Phase)
    ensures var first := Deliver(codec, start, a);
            NoteBroken(Deliver(codec, start, a + b), phase)
            == if first.failure.None? then NoteBroken(Deliver(codec, first, b), phase) else first
  {
    DeliverConcat(codec, start, a, b);
    if Deliver(codec, start, a).failure.Some? {
      DeliverStuck(codec, Deliver(codec, start, a), b);
    }
  }

  lemma AbsorbContinues<E>(codec: Codec<E>, after: nat, text: string, chunk: string)
    ensures var c := ReadWhole(codec, after, text); var all := ReadWhole(codec, after, text + chunk);
            if c.delivered.failure.None? then all == Absorb(codec, c.(buffer := c.buffer + chunk))
            else all.delivered == c.delivered
  {
    var f, d := ClientFramer(codec), Drain(ClientFramer(codec), text);
    ClientFramerIsSteady(codec);
    DrainContinues(f, text, chunk);
    ClientNeverFinishes(codec, text);
    if d.phase.Open? {
      var e := Drain(f, d.rest + chunk);
      NoteContinues(codec, Delivery([], after, None), d.values, e.values, e.phase);
    }
  }

  /** No frame of this stream announces its end. */
  lemma {:induction false} ClientNeverFinishes<E>(codec: Codec<E>, text: string)
    ensures !Drain(ClientFramer(codec), text).phase.Finished?
    decreases |text|
  {
    var next := Next(ClientFramer(codec), text);
    if next.Some? {
      ClientNeverFinishes(codec, text[next.value.0 + next.value.1..]);
    }
  }

  lemma DeliverStuck<E>(codec: Codec<E>, d: Delivery<E>, values: seq<E>)
    requires d.failure.Some?
    ensures Deliver(codec, d, values) == d
  {
  }

  /** Unless the buffer limit is hit, events delivered and verdict depend only on the text, not
      on how the transport cut it. */
  lemma {:induction false} ClientChunking<E>(codec: Codec<E>, after: nat, chunks: seq<string>, limit: nat)
    requires FeedAll(codec, after, chunks, limit).delivered.failure != Some(TooLong)
    ensures var c := FeedAll(codec, after, chunks, limit); var whole := ReadWhole(codec, after, Concat(chunks));
            && c.delivered == whole.delivered
            && (c.delivered.failure.None? ==> c == whole)
            && Close(c) == Close(whole)
  {
    if chunks == [] {
      assert Find("", BLANK_LINE).None?;
      assert Drain(ClientFramer(codec), "") == Drained([], "", Open);
    } else {
      var front, last := chunks[..|chunks| - 1], chunks[|chunks| - 1];
      ClientChunking(codec, after, front, limit);
      AbsorbContinues(codec, after, Concat(front), last);
    }
  }

  // ---------------------------------------------------------------------------------------
  // Round trip
  // ---------------------------------------------------------------------------------------

  /** Nonempty lines without line breaks. */
  predicate AreLines(lines: seq<string>) {
    lines != [] && forall i | 0 <= i < |lines| :: lines[i] != "" && '\n' !in lines[i]
  }

  /** Joined lines neither contain a blank line nor end in a line break. */
  lemma {:induction false} JoinedHasNoBlankLine(lines: seq<string>)
    requires AreLines(lines)
    ensures var s := Join(lines, '\n');
            && s != "" && s[0] != '\n' && s[|s| - 1] != '\n'
            && forall i | 0 <= i < |s| - 1 :: s[i] != '\n' || s[i + 1] != '\n'
  {
    if |lines| > 1 {
      JoinedHasNoBlankLine(lines[1..]);
      var head, rest := lines[0], Join(lines[1..], '\n');
      var s := head + ['\n'] + rest;
      forall i | 0 <= i < |s| - 1 ensures s[i] != '\n' || s[i + 1] != '\n' {
        if i > |head| {
          assert s[i] == rest[i - |head| - 1] && s[i + 1] == rest[i - |head|];
        }
      }
    }
  }

  lemma BoundaryAfterLines(lines: seq<string>, rest: string)
    requires AreLines(lines)
    ensures Boundary(Join(lines, '\n') + BLANK_LINE + rest) == Some((|Join(lines, '\n')|, 2))
  {
    var head := Join(lines, '\n');
    var s := head + BLANK_LINE + rest;
    JoinedHasNoBlankLine(lines);
    assert s[|head|..|head| + 2] == BLANK_LINE;
    assert OccursAt(s, BLANK_LINE, |head|);
    forall i: nat | i < |head| ensures !OccursAt(s, BLANK_LINE, i) {
      assert s[i] == head[i];
      if s[i] != '\n' {
        Mismatch(s, BLANK_LINE, i, 0);
      } else {
        assert s[i + 1] == head[i + 1];
        Mismatch(s, BLANK_LINE, i, 1);
      }
    }
  }

  ghost predicate FaithfulFrame<E>(codec: Codec<E>, frame: Frame<E>) {
    frame.EventFrame? ==> Faithful(codec, frame.event)
  }

  lemma FrameIsLines<E>(codec: Codec<E>, frame: Frame<E>)
    requires FaithfulFrame(codec, frame)
    ensures AreLines(FrameLines(codec, frame))
  {
    if frame.EventFrame? {
      var n := Decimal(codec.sequenceOf(frame.event));
      assert '\n' !in n;
    }
  }

  lemma FrameMeaning<E>(codec: Codec<E>, frame: Frame<E>)
    requires FaithfulFrame(codec, frame)
    ensures Read(codec, Join(FrameLines(codec, frame), '\n'))
         == if frame.EventFrame? then Value(frame.event) else Nothing
  {
    FrameIsLines(codec, frame);
    SplitJoin(FrameLines(codec, frame), '\n');
    FrameData(codec, frame);
  }

  lemma FrameData<E>(codec: Codec<E>, frame: Frame<E>)
    ensures DataLines(FrameLines(codec, frame)) == if frame.EventFrame? then [codec.encode(frame.event)] else []
  {
    if frame.EventFrame? {
      DataIsThird("id: " + Decimal(codec.sequenceOf(frame.event)), "event: " + codec.typeOf(frame.event),
                  codec.encode(frame.event));
    } else {
      NotData(": heartbeat");
      assert DataLines([": heartbeat"]) == DataLines([]);
    }
  }

  lemma DataIsThird(id: string, kind: string, text: string)
    requires id != "" && id[0] != 'd' && kind != "" && kind[0] != 'd'
    ensures DataLines([id, kind, "data: " + text]) == [text]
  {
    var last := "data: " + text;
    NotData(id);
    NotData(kind);
    assert last[..|DATA|] == DATA && last[|DATA|..] == text;
    assert DataLines([last]) == [text] + DataLines([]);
    assert [kind, last][1..] == [last];
    assert [id, kind, last][1..] == [kind, last];
  }

  lemma NotData(line: string)
    requires line != "" && line[0] != 'd'
    ensures !(DATA <= line)
  {
    assert DATA[0] == 'd';
  }

  lemma FirstBoundary<E>(codec: Codec<E>, frame: Frame<E>, rest: string)
    requires FaithfulFrame(codec, frame)
    ensures var all := FrameText(codec, frame) + rest; var head := Join(FrameLines(codec, frame), '\n');
            && Next(ClientFramer(codec), all) == Some((|head|, 2))
            && |FrameText(codec, frame)| == |head| + 2
            && all[..|head|] == head && all[|head| + 2..] == rest
  {
    var head := Join(FrameLines(codec, frame), '\n');
    FrameIsLines(codec, frame);
    BoundaryAfterLines(FrameLines(codec, frame), rest);
    assert FrameText(codec, frame) + rest == head + BLANK_LINE + rest;
  }

  lemma FirstFrame<E>(codec: Codec<E>, frame: Frame<E>, rest: string)
    requires FaithfulFrame(codec, frame)
    ensures Next(ClientFramer(codec), FrameText(codec, frame) + rest) == Some((|FrameText(codec, frame)| - 2, 2))
    ensures var d := Drain(ClientFramer(codec), rest);
            Drain(ClientFramer(codec), FrameText(codec, frame) + rest)
            == Drained(EventIn(frame) + d.values, d.rest, d.phase)
  {
    var f, all := ClientFramer(codec), FrameText(codec, frame) + rest;
    var head := Join(FrameLines(codec, frame), '\n');
    FirstBoundary(codec, frame, rest);
    FrameMeaning(codec, frame);
    DrainStep(f, all, |head|, 2);
    assert f.read(head) == if frame.EventFrame? then Value(frame.event) else Nothing;
    var d := Drain(f, rest);
    assert d == Drained([] + d.values, d.rest, d.phase);
  }

  lemma {:induction false} PrintedThenDrained<E>(codec: Codec<E>, frames: seq<Frame<E>>)
    requires forall i | 0 <= i < |frames| :: FaithfulFrame(codec, frames[i])
    ensures Drain(ClientFramer(codec), StreamText(codec, frames)) == Drained(EventsOf(frames), "", Open)
  {
    if frames == [] {
      assert Boundary("").None?;
    } else {
      PrintedThenDrained(codec, frames[1..]);
      FirstFrame(codec, frames[0], StreamText(codec, frames[1..]));
    }
  }

  /** Events numbered from the cursor on are all handed out. */
  lemma {:induction false} DeliverNumbered<E>(codec: Codec<E>, d: Delivery<E>, values: seq<E>)
    requires d.failure.None?
    requires forall i | 0 <= i < |values| :: codec.sequenceOf(values[i]) == d.cursor + 1 + i
    ensures Deliver(codec, d, values) == Delivery(d.events + values, d.cursor + |values|, None)
    decreases |values|
  {
    if values != [] {
      assert values == [values[0]] + values[1..];
      assert codec.sequenceOf(values[0]) == d.cursor + 1 + 0;
      DeliverNumbered(codec, Delivery(d.events + [values[0]], d.cursor + 1, None), values[1..]);
    }
  }

  /** What the gateway printed for a log is read back by the client as exactly the events after
      the cursor, in order and once each, wherever heartbeats stand between frames and however
      the bytes are cut. */
  lemma RoundTrip<E>(codec: Codec<E>, log: seq<E>, after: nat, frames: seq<Frame<E>>,
                     chunks: seq<string>, limit: nat)
    requires Numbered(codec, log) && after <= |log|
    requires EventsOf(frames) == log[after..]
    requires forall i | 0 <= i < |frames| :: FaithfulFrame(codec, frames[i])
    requires Concat(chunks) == StreamText(codec, frames)
    requires FeedAll(codec, after, chunks, limit).delivered.failure != Some(TooLong)
    ensures Close(FeedAll(codec, after, chunks, limit)) == Delivery(log[after..], |log|, None)
  {
    ClientChunking(codec, after, chunks, limit);
    PrintedThenDrained(codec, frames);
    DeliverNumbered(codec, Delivery([], after, None), log[after..]);
  }

  /** Texts of the frames are no longer than `size`. */
  ghost predicate FramesUpTo<E>(codec: Codec<E>, frames: seq<Frame<E>>, size: nat) {
    size > 0 && forall i | 0 <= i < |frames| :: |FrameText(codec, frames[i])| <= size
  }

  lemma BeforeFirst<E>(codec: Codec<E>, all: string, text: string, at: nat)
    requires Next(ClientFramer(codec), all) == Some((at, 2)) && text <= all && |text| < at + 2
    ensures Drain(ClientFramer(codec), text) == Drained([], text, Open)
  {
    ClientFramerIsSteady(codec);
    assert text + all[|text|..] == all;
    if Next(ClientFramer(codec), text).Some? {
      NextMoves(ClientFramer(codec), text, all[|text|..]);
    }
  }

  /** What draining a broken-off stream leaves: less than one frame, and the events so far. */
  ghost predicate IsBrokenOff<E>(codec: Codec<E>, frames: seq<Frame<E>>, text: string, size: nat) {
    var d := Drain(ClientFramer(codec), text);
    d.phase.Open? && d.values <= EventsOf(frames) && |d.rest| < size
  }

  lemma BrokenInFirst<E>(codec: Codec<E>, frames: seq<Frame<E>>, text: string, size: nat)
    requires frames != [] && FaithfulFrame(codec, frames[0]) && FramesUpTo(codec, frames, size)
    requires text <= StreamText(codec, frames) && |text| < |FrameText(codec, frames[0])|
    ensures IsBrokenOff(codec, frames, text, size)
  {
    var first, rest := FrameText(codec, frames[0]), StreamText(codec, frames[1..]);
    FirstFrame(codec, frames[0], rest);
    BeforeFirst(codec, first + rest, text, |first| - 2);
  }

  lemma BrokenLater<E>(codec: Codec<E>, frames: seq<Frame<E>>, tail: string, size: nat)
    requires frames != [] && FaithfulFrame(codec, frames[0])
    requires IsBrokenOff(codec, frames[1..], tail, size)
    ensures IsBrokenOff(codec, frames, FrameText(codec, frames[0]) + tail, size)
  {
    FirstFrame(codec, frames[0], tail);
  }

  lemma TailOfStream(first: string, rest: string, text: string)
    requires text <= first + rest && |first| <= |text|
    ensures text == first + text[|first|..] && text[|first|..] <= rest
  {
    assert text[|first|..] == (first + rest)[|first|..|text|];
  }

  /** A stream broken off anywhere leaves less than one frame and the events printed so far. */
  lemma {:induction false} BrokenOff<E>(codec: Codec<E>, frames: seq<Frame<E>>, text: string, size: nat)
    requires forall i | 0 <= i < |frames| :: FaithfulFrame(codec, frames[i])
    requires FramesUpTo(codec, frames, size)
    requires text <= StreamText(codec, frames)
    ensures IsBrokenOff(codec, frames, text, size)
    decreases |frames|
  {
    if frames == [] {
      assert Boundary("").None?;
    } else {
      var first := FrameText(codec, frames[0]);
      if |text| < |first| {
        BrokenInFirst(codec, frames, text, size);
      } else {
        TailOfStream(first, StreamText(codec, frames[1..]), text);
        BrokenOff(codec, frames[1..], text[|first|..], size);
        BrokenLater(codec, frames, text[|first|..], size);
      }
    }
  }

  /** Reading an unbroken text hands out what was drained from it. */
  lemma OpenText<E>(codec: Codec<E>, after: nat, text: string)
    requires Drain(ClientFramer(codec), text).phase.Open?
    ensures ReadWhole(codec, after, text).delivered
         == Deliver(codec, Delivery([], after, None), Drain(ClientFramer(codec), text).values)
  {
  }

  lemma DeliverFromLog<E>(codec: Codec<E>, log: seq<E>, after: nat, values: seq<E>)
    requires Numbered(codec, log) && after <= |log| && values <= log[after..]
    ensures Deliver(codec, Delivery([], after, None), values)
         == Delivery(log[after..after + |values|], after + |values|, None)
  {
    forall i | 0 <= i < |values| ensures codec.sequenceOf(values[i]) == after + 1 + i {
      assert values[i] == log[after..][i];
    }
    DeliverNumbered(codec, Delivery([], after, None), values);
    assert values == log[after..][..|values|] == log[after..after + |values|];
  }

  /** A connection cut at any point delivers the events printed so far, in order and once
      each, so that reconnecting from the cursor continues without loss or repetition. */
  lemma CutShort<E>(codec: Codec<E>, log: seq<E>, after: nat, frames: seq<Frame<E>>,
                    chunks: seq<string>, limit: nat)
    requires Numbered(codec, log) && after <= |log|
    requires EventsOf(frames) == log[after..]
    requires forall i | 0 <= i < |frames| :: FaithfulFrame(codec, frames[i])
    requires Concat(chunks) <= StreamText(codec, frames)
    requires FeedAll(codec, after, chunks, limit).delivered.failure != Some(TooLong)
    ensures var d := FeedAll(codec, after, chunks, limit).delivered;
            d.failure.None? && after <= d.cursor <= |log| && d.events == log[after..d.cursor]
  {
    ClientChunking(codec, after, chunks, limit);
    ReadBroken(codec, log, after, frames, Concat(chunks));
  }

  lemma ReadBroken<E>(codec: Codec<E>, log: seq<E>, after: nat, frames: seq<Frame<E>>, text: string)
    requires Numbered(codec, log) && after <= |log|
    requires EventsOf(frames) == log[after..]
    requires forall i | 0 <= i < |frames| :: FaithfulFrame(codec, frames[i])
    requires text <= StreamText(codec, frames)
    ensures var d := ReadWhole(codec, after, text).delivered;
            d.failure.None? && after <= d.cursor <= |log| && d.events == log[after..d.cursor]
  {
    LongestFrame(codec, frames);
    var size: nat :| FramesUpTo(codec, frames, size);
    BrokenOff(codec, frames, text, size);
    OpenText(codec, after, text);
    DeliverFromLog(codec, log, after, Drain(ClientFramer(codec), text).values);
  }

  lemma {:induction false} LongestFrame<E>(codec: Codec<E>, frames: seq<Frame<E>>)
    ensures exists size: nat :: FramesUpTo(codec, frames, size)
  {
    if frames == [] {
      assert FramesUpTo(codec, frames, 1);
    } else {
      LongestFrame(codec, frames[1..]);
      var rest: nat :| FramesUpTo(codec, frames[1..], rest);
      var size := Max(rest, |FrameText(codec, frames[0])|);
      forall i | 0 <= i < |frames| ensures |FrameText(codec, frames[i])| <= size {
        assert i > 0 ==> frames[i] == frames[1..][i - 1];
      }
      assert FramesUpTo(codec, frames, size);
    }
  }

  /** The client's limit is never hit when one frame and one chunk fit in it together. */
  lemma {:induction false} EnoughRoom<E>(codec: Codec<E>, after: nat, frames: seq<Frame<E>>, size: nat,
                                         chunks: seq<string>, chunkSize: nat, limit: nat)
    requires forall i | 0 <= i < |frames| :: FaithfulFrame(codec, frames[i])
    requires FramesUpTo(codec, frames, size)
    requires forall i | 0 <= i < |chunks| :: |chunks[i]| <= chunkSize
    requires Concat(chunks) <= StreamText(codec, frames)
    requires size + chunkSize <= limit + 1
    ensures FeedAll(codec, after, chunks, limit).delivered.failure != Some(TooLong)
  {
    if chunks != [] {
      var front, last := chunks[..|chunks| - 1], chunks[|chunks| - 1];
      EnoughRoom(codec, after, frames, size, front, chunkSize, limit);
      ClientChunking(codec, after, front, limit);
      BrokenOff(codec, frames, Concat(front), size);
      NotTooLong(codec, FeedAll(codec, after, front, limit).(buffer := FeedAll(codec, after, front,
          limit).buffer + last));
    }
  }

  lemma NotTooLong<E>(codec: Codec<E>, c: Client<E>)
    requires c.delivered.failure != Some(TooLong)
    ensures Absorb(codec, c).delivered.failure != Some(TooLong)
  {
    DeliverNotTooLong(codec, c.delivered, Drain(ClientFramer(codec), c.buffer).values);
  }

  lemma {:induction false} DeliverNotTooLong<E>(codec: Codec<E>, d: Delivery<E>, values: seq<E>)
    requires d.failure != Some(TooLong)
    ensures Deliver(codec, d, values).failure != Some(TooLong)
    decreases |values|
  {
    if values != [] && d.failure.None? && codec.sequenceOf(values[0]) == d.cursor + 1 {
      DeliverNotTooLong(codec, Delivery(d.events + [values[0]], d.cursor + 1, None), values[1..]);
    }
  }

  // ---------------------------------------------------------------------------------------
  // The client's loop
  // ---------------------------------------------------------------------------------------

  /** The first value is handed out if it follows the cursor, and ends the delivery if not. */
  lemma SettledCons<E>(codec: Codec<E>, before: Delivery<E>, e: E, d: Drained<char, E>)
    requires before.failure.None?
    ensures var c := Settled(codec, before, Drained([e] + d.values, d.rest, d.phase));
            if codec.sequenceOf(e) == before.cursor + 1
            then c == Settled(codec, Delivery(before.events + [e], before.cursor + 1, None), d)
            else c.delivered == before.(failure := Some(BadSequence))
  {
    assert ([e] + d.values)[1..] == d.values;
  }

  lemma BoundaryIsNext<E>(codec: Codec<E>, buffer: string)
    ensures Next(ClientFramer(codec), buffer) == Boundary(buffer)
    ensures Boundary(buffer).Some? ==> Boundary(buffer).value.1 == 2 && Boundary(buffer).value.0 + 2 <= |buffer|
  {
  }

  /** One round of the frame loop. */
  lemma AbsorbStep<E>(codec: Codec<E>, d: Delivery<E>, buffer: string)
    requires d.failure.None?
    ensures Boundary(buffer).None? ==> Absorb(codec, Client(d, buffer)) == Client(d, buffer)
    ensures Boundary(buffer).Some? ==>
              var at := Boundary(buffer).value.0;
              && Boundary(buffer).value.1 == 2 && at + 2 <= |buffer|
              && var rest := buffer[at + 2..];
                 match Read(codec, buffer[..at])
                 case Nothing => Absorb(codec, Client(d, buffer)) == Absorb(codec, Client(d, rest))
                 case Final => false
                 case Malformed => Absorb(codec, Client(d, buffer)).delivered == d.(failure := Some(BadEvent))
                 case Value(e) =>
                   if codec.sequenceOf(e) == d.cursor + 1
                   then Absorb(codec, Client(d, buffer))
                        == Absorb(codec, Client(Delivery(d.events + [e], d.cursor + 1, None), rest))
                   else Absorb(codec, Client(d, buffer)).delivered == d.(failure := Some(BadSequence))
  {
    BoundaryIsNext(codec, buffer);
    if Boundary(buffer).Some? {
      var at := Boundary(buffer).value.0;
      DrainStep(ClientFramer(codec), buffer, at, 2);
      var meaning := Read(codec, buffer[..at]);
      if meaning.Value? {
        SettledCons(codec, d, meaning.value, Drain(ClientFramer(codec), buffer[at + 2..]));
      }
    }
  }

  /** Takes complete frames out of the buffer and hands out their events one by one. */
  method TakeFrames<E>(codec: Codec<E>, start: Client<E>) returns (c: Client<E>)
    requires start.delivered.failure.None?
    ensures c.delivered == Absorb(codec, start).delivered
    ensures c.delivered.failure.None? ==> c == Absorb(codec, start)
  {
    var buffer, cursor, events := start.buffer, start.delivered.cursor, start.delivered.events;
    while true
      invariant Absorb(codec, start) == Absorb(codec, Client(Delivery(events, cursor, None), buffer))
      decreases |buffer|
    {
      AbsorbStep(codec, Delivery(events, cursor, None), buffer);
      var boundary := Boundary(buffer);
      if boundary.None? {
        return Client(Delivery(events, cursor, None), buffer);
      }
      var frame := buffer[..boundary.value.0];
      buffer := buffer[boundary.value.0 + 2..];
      var meaning := Read(codec, frame);
      if meaning.Malformed? {
        return Client(Delivery(events, cursor, Some(BadEvent)), buffer);
      }
      if meaning.Value? {
        if codec.sequenceOf(meaning.value) != cursor + 1 {
          return Client(Delivery(events, cursor, Some(BadSequence)), buffer);
        }
        cursor := codec.sequenceOf(meaning.value);
        events := events + [meaning.value];
      }
    }
  }

  method StreamEvents<E>(codec: Codec<E>, after: nat, chunks: seq<string>, limit: nat)
    returns (delivered: Delivery<E>)
    ensures delivered == Close(FeedAll(codec, after, chunks, limit))
  {
    var c: Client<E> := Opened(after);
    for i := 0 to |chunks|
      invariant c == FeedAll(codec, after, chunks[..i], limit) && c.delivered.failure.None?
    {
      assert chunks[..i + 1][..i] == chunks[..i];
      if |c.buffer| + |chunks[i]| > limit {
        FailureSticks(codec, after, chunks, i + 1, limit);
        return c.delivered.(failure := Some(TooLong));
      }
      c := TakeFrames(codec, c.(buffer := c.buffer + chunks[i]));
      if c.delivered.failure.Some? {
        FailureSticks(codec, after, chunks, i + 1, limit);
        return c.delivered;
      }
    }
    assert chunks[..|chunks|] == chunks;
    delivered := Close(c);
  }

  lemma {:induction false} FailureSticks<E>(codec: Codec<E>, after: nat, chunks: seq<string>, n: nat, limit: nat)
    requires n <= |chunks|
    requires FeedAll(codec, after, chunks[..n], limit).delivered.failure.Some?
    ensures FeedAll(codec, after, chunks, limit) == FeedAll(codec, after, chunks[..n], limit)
  {
    if n < |chunks| {
      var front := chunks[..|chunks| - 1];
      assert front[..n] == chunks[..n];
      FailureSticks(codec, after, front, n, limit);
    } else {
      assert chunks[..n] == chunks;
    }
  }
}
