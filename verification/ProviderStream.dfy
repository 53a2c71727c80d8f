/** Framing of a provider's server-sent events ("Server-sent events", section 9.2 of the WHATWG
    HTML Standard, as far as providers use it) under a bound on the bytes received. */
module ProviderStream {
  import opened Contracts
  import opened Lines
  import opened Framing

  newtype Byte = x: int | 0 <= x < 256

  type Bytes = seq<Byte>

  const LF: Byte := 10
  const CR: Byte := 13
  const SPACE: Byte := 32
  const LF_LF: Bytes := [LF, LF]
  const CRLF_CRLF: Bytes := [CR, LF, CR, LF]
  /** `data:` */
  const DATA: Bytes := [100, 97, 116, 97, 58]
  /** `[DONE]` */
  const DONE: Bytes := [91, 68, 79, 78, 69, 93]

  /** Text decoding and JSON parsing, which this model does not open: whether bytes are valid
      UTF-8, and the JSON object a text denotes, if it denotes one. */
  datatype Codec<!V> = Codec(validText: Bytes -> bool, parseObject: Bytes -> Option<V>)

  function ReplaceCrLf(s: Bytes): Bytes {
    if |s| >= 2 && s[0] == CR && s[1] == LF then [LF] + ReplaceCrLf(s[2..])
    else if s == [] then []
    else [s[0]] + ReplaceCrLf(s[1..])
  }

  predicate IsData(line: Bytes) { DATA <= line }

  function DataOf(line: Bytes): Bytes
    requires IsData(line)
  {
    var value := line[|DATA|..];
    if value != [] && value[0] == SPACE then value[1..] else value
  }

  function DataLines(lines: seq<Bytes>): seq<Bytes> {
    if lines == [] then []
    else (if IsData(lines[0]) then [DataOf(lines[0])] else []) + DataLines(lines[1..])
  }

  function FrameData(raw: Bytes): Bytes {
    Join(DataLines(Split(ReplaceCrLf(raw), LF)), LF)
  }

  function Read<V>(codec: Codec<V>, raw: Bytes): Meaning<V> {
    if !codec.validText(ReplaceCrLf(raw)) then Malformed
    else
      var data := FrameData(raw);
      if data == [] then Nothing
      else if data == DONE then Final
      else match codec.parseObject(data)
        case None => Malformed
        case Some(value) => Value(value)
  }

  // ---------------------------------------------------------------------------------------
  // Delimiters
  // ---------------------------------------------------------------------------------------

  /** Start and length of the first delimiter. */
  function Boundary(buffered: Bytes): Option<(nat, nat)> {
    var lf, crlf := Find(buffered, LF_LF), Find(buffered, CRLF_CRLF);
    if lf.None? && crlf.None? then None
    else if crlf.None? || (lf.Some? && lf.value <= crlf.value) then Some((lf.value, 2))
    else Some((crlf.value, 4))
  }

  /** No delimiter of either kind starts before the boundary, and one starts there. */
  lemma BoundaryIsFirst(buffered: Bytes)
    ensures var b := Boundary(buffered);
            && (b.Some? ==>
                  || (b.value.1 == 2 && OccursAt(buffered, LF_LF, b.value.0))
                  || (b.value.1 == 4 && OccursAt(buffered, CRLF_CRLF, b.value.0)))
            && forall i: nat | b.Some? ==> i < b.value.0 ::
                 !OccursAt(buffered, LF_LF, i) && !OccursAt(buffered, CRLF_CRLF, i)
  {
  }

  /** Bytes that arrive later never create an earlier delimiter. */
  lemma BoundaryIsStable(a: Bytes, b: Bytes)
    requires Boundary(a).Some?
    ensures Boundary(a + b) == Boundary(a)
  {
    var (at, size) := Boundary(a).value;
    BoundaryIsFirst(a);
    BoundaryIsFirst(a + b);
    var marker := if size == 2 then LF_LF else CRLF_CRLF;
    OccursInPrefix(a, b, marker, at);
    forall i: nat | i < at ensures !OccursAt(a + b, LF_LF, i) && !OccursAt(a + b, CRLF_CRLF, i) {
      NothingEarlier(a, b, at, size, i);
    }
    assert (a + b)[at] == a[at..at + size][0];
    Mismatch(a + b, if size == 2 then CRLF_CRLF else LF_LF, at, 0);
  }

  lemma NothingEarlier(a: Bytes, b: Bytes, at: nat, size: nat, i: nat)
    requires Boundary(a) == Some((at, size)) && i < at
    ensures !OccursAt(a + b, LF_LF, i) && !OccursAt(a + b, CRLF_CRLF, i)
  {
    BoundaryIsFirst(a);
    OccursInPrefix(a, b, LF_LF, i);
    if i + 4 <= |a| {
      OccursInPrefix(a, b, CRLF_CRLF, i);
    } else {
      // The delimiter found is then LF LF and starts right after `i`.
      assert (a + b)[i + 2] == a[at..at + 2][1];
      Mismatch(a + b, CRLF_CRLF, i, 2);
    }
  }

  function ProviderFramer<V>(codec: Codec<V>): Framer<Byte, V> {
    Framer(buffered => Boundary(buffered), raw => Read(codec, raw))
  }

  lemma ProviderFramerIsSteady<V>(codec: Codec<V>)
    ensures Steady(ProviderFramer(codec))
  {
    forall a: Bytes, b: Bytes | Boundary(a).Some? ensures Boundary(a + b) == Boundary(a) {
      BoundaryIsStable(a, b);
    }
  }

  // ---------------------------------------------------------------------------------------
  // Reading a response
  // ---------------------------------------------------------------------------------------

  predicate IsBlank(b: Byte) { b == SPACE || 9 <= b <= 13 }

  datatype Verdict = Complete | InvalidResponse | OutputLimit

  function VerdictOf<V>(d: Drained<Byte, V>): Verdict {
    match d.phase
    case Finished => Complete
    case Broken => InvalidResponse
    case Open => if forall i | 0 <= i < |d.rest| :: IsBlank(d.rest[i]) then Complete else InvalidResponse
  }

  /** Reading a whole response in one piece: frames up to the end, `[DONE]` or a bad frame,
      and a failure when anything but white space is left undelimited. */
  function WholeStream<V>(f: Framer<Byte, V>, stream: Bytes): (seq<V>, Verdict) {
    var d := Drain(f, stream);
    (d.values, VerdictOf(d))
  }

  /** Number of leading chunks received before the byte bound is exceeded. */
  function ChunksWithin(chunks: seq<Bytes>, maxBytes: nat): (n: nat)
    ensures n <= |chunks|
    ensures forall i: nat | i <= n :: |Concat(chunks[..i])| <= maxBytes
    ensures n < |chunks| ==> |Concat(chunks[..n + 1])| > maxBytes
  {
    if chunks == [] then 0
    else
      var front := chunks[..|chunks| - 1];
      var n := ChunksWithin(front, maxBytes);
      assert forall i: nat | i <= |front| :: front[..i] == chunks[..i];
      assert chunks[..|chunks|] == chunks;
      if n == |front| && |Concat(chunks)| <= maxBytes then n + 1 else n
  }

  /** Reading a response that arrives in `chunks`: the whole response, unless the bound is
      exceeded while reading is still going on. */
  function Received<V>(f: Framer<Byte, V>, chunks: seq<Bytes>, maxBytes: nat): (seq<V>, Verdict) {
    var n := ChunksWithin(chunks, maxBytes);
    var d := Drain(f, Concat(chunks[..n]));
    (d.values, if n == |chunks| || !d.phase.Open? then VerdictOf(d) else OutputLimit)
  }

  lemma WithinBound<V>(f: Framer<Byte, V>, chunks: seq<Bytes>, maxBytes: nat)
    requires |Concat(chunks)| <= maxBytes
    ensures Received(f, chunks, maxBytes) == WholeStream(f, Concat(chunks))
  {
    var n := ChunksWithin(chunks, maxBytes);
    if n < |chunks| {
      ConcatGrows(chunks, n + 1);
    }
    assert chunks[..|chunks|] == chunks;
  }

  /** The bytes decide everything: two ways of cutting one response within the bound give the
      same frames, the same `[DONE]` cut and the same verdict on truncation. */
  lemma ChunkingInvariance<V>(codec: Codec<V>, a: seq<Bytes>, b: seq<Bytes>, maxBytes: nat)
    requires Concat(a) == Concat(b) && |Concat(a)| <= maxBytes
    ensures var f := ProviderFramer(codec);
            Received(f, a, maxBytes) == Received(f, b, maxBytes) == WholeStream(f, Concat(a))
  {
    WithinBound(ProviderFramer(codec), a, maxBytes);
    WithinBound(ProviderFramer(codec), b, maxBytes);
  }

  /** Past the bound, too, nothing is invented: the frames delivered are a prefix of those of
      the whole response. */
  lemma OverlongDeliversPrefix<V>(codec: Codec<V>, chunks: seq<Bytes>, maxBytes: nat)
    ensures var f := ProviderFramer(codec);
            Received(f, chunks, maxBytes).0 <= WholeStream(f, Concat(chunks)).0
  {
    ConcatGrows(chunks, ChunksWithin(chunks, maxBytes));
    PrefixDrains(codec, Concat(chunks[..ChunksWithin(chunks, maxBytes)]), Concat(chunks));
  }

  lemma PrefixDrains<V>(codec: Codec<V>, a: Bytes, all: Bytes)
    requires a <= all
    ensures Drain(ProviderFramer(codec), a).values <= Drain(ProviderFramer(codec), all).values
  {
    ProviderFramerIsSteady(codec);
    assert all == a + all[|a|..];
    DrainExtends(ProviderFramer(codec), a, all[|a|..]);
  }

  /** Once reading stopped, chunks that were never read change nothing. */
  lemma StoppedEarly<V>(codec: Codec<V>, chunks: seq<Bytes>, n: nat, maxBytes: nat)
    requires n <= ChunksWithin(chunks, maxBytes)
    requires !Drain(ProviderFramer(codec), Concat(chunks[..n])).phase.Open?
    ensures Received(ProviderFramer(codec), chunks, maxBytes)
         == WholeStream(ProviderFramer(codec), Concat(chunks[..n]))
  {
    ProviderFramerIsSteady(codec);
    var limit := ChunksWithin(chunks, maxBytes);
    ConcatGrows(chunks[..limit], n);
    assert chunks[..limit][..n] == chunks[..n];
    var a, all := Concat(chunks[..n]), Concat(chunks[..limit]);
    assert all == a + all[|a|..];
    DrainContinues(ProviderFramer(codec), a, all[|a|..]);
  }

  // ---------------------------------------------------------------------------------------
  // Frames a provider sends
  // ---------------------------------------------------------------------------------------

  /** One `data:` line, with or without the optional space, closed by either delimiter. */
  datatype SentFrame = SentFrame(data: Bytes, spaced: bool, crlf: bool)

  function FrameLine(sent: SentFrame): Bytes {
    DATA + (if sent.spaced then [SPACE] else []) + sent.data
  }

  function FrameText(sent: SentFrame): Bytes {
    FrameLine(sent) + if sent.crlf then CRLF_CRLF else LF_LF
  }

  function StreamText(frames: seq<SentFrame>): Bytes {
    if frames == [] then [] else FrameText(frames[0]) + StreamText(frames[1..])
  }

  predicate IsLine(s: Bytes) { CR !in s && LF !in s }

  /** A frame whose data is one line denoting a JSON object. */
  ghost predicate Carries<V>(codec: Codec<V>, sent: SentFrame, v: V) {
    && IsLine(sent.data) && sent.data != [] && sent.data != DONE
    && (sent.spaced || sent.data[0] != SPACE)
    && codec.validText(FrameLine(sent))
    && codec.parseObject(sent.data) == Some(v)
  }

  lemma {:induction false} NoCrLf(s: Bytes)
    requires CR !in s
    ensures ReplaceCrLf(s) == s
  {
    if s != [] {
      NoCrLf(s[1..]);
    }
  }

  lemma BoundaryAfterLine(head: Bytes, crlf: bool, rest: Bytes)
    requires IsLine(head)
    ensures Boundary(head + (if crlf then CRLF_CRLF else LF_LF) + rest)
         == Some((|head|, if crlf then 4 else 2))
  {
    var marker, other := if crlf then CRLF_CRLF else LF_LF, if crlf then LF_LF else CRLF_CRLF;
    var s := head + marker + rest;
    BoundaryIsFirst(s);
    assert s[|head|..|head| + |marker|] == marker;
    assert OccursAt(s, marker, |head|);
    Mismatch(s, other, |head|, 0);
    forall i: nat | i < |head| ensures !OccursAt(s, LF_LF, i) && !OccursAt(s, CRLF_CRLF, i) {
      assert s[i] == head[i];
      Mismatch(s, LF_LF, i, 0);
      Mismatch(s, CRLF_CRLF, i, 0);
    }
  }

  lemma LineData(sent: SentFrame)
    requires IsLine(sent.data) && sent.data != [] && (sent.spaced || sent.data[0] != SPACE)
    ensures IsData(FrameLine(sent)) && DataOf(FrameLine(sent)) == sent.data
    ensures IsLine(FrameLine(sent))
  {
    var line := FrameLine(sent);
    assert line[..|DATA|] == DATA;
    assert line[|DATA|..] == (if sent.spaced then [SPACE] else []) + sent.data;
  }

  lemma LineMeaning<V>(codec: Codec<V>, sent: SentFrame, v: V)
    requires Carries(codec, sent, v)
    ensures IsLine(FrameLine(sent))
    ensures Read(codec, FrameLine(sent)) == Value(v)
  {
    var line := FrameLine(sent);
    LineData(sent);
    NoCrLf(line);
    SplitWhole(line, LF);
    assert DataLines([line]) == [sent.data] + DataLines([]);
  }

  lemma FirstFrame<V>(codec: Codec<V>, sent: SentFrame, v: V, rest: Bytes)
    requires Carries(codec, sent, v)
    ensures var d := Drain(ProviderFramer(codec), rest);
            Drain(ProviderFramer(codec), FrameText(sent) + rest) == Drained([v] + d.values, d.rest, d.phase)
  {
    var head, size := FrameLine(sent), if sent.crlf then 4 else 2;
    LineMeaning(codec, sent, v);
    BoundaryAfterLine(head, sent.crlf, rest);
    var all := FrameText(sent) + rest;
    assert all == head + (if sent.crlf then CRLF_CRLF else LF_LF) + rest;
    assert all[..|head|] == head && all[|head| + size..] == rest;
    assert Next(ProviderFramer(codec), all) == Some((|head|, size));
  }

  /** Frames with either delimiter, mixed freely, are read back one by one and in order. */
  lemma {:induction false} SentFramesAreRead<V>(codec: Codec<V>, frames: seq<SentFrame>, values: seq<V>)
    requires |frames| == |values|
    requires forall i | 0 <= i < |frames| :: Carries(codec, frames[i], values[i])
    ensures Drain(ProviderFramer(codec), StreamText(frames)) == Drained(values, [], Open)
    ensures WholeStream(ProviderFramer(codec), StreamText(frames)) == (values, Complete)
  {
    if frames == [] {
      BoundaryIsFirst([]);
    } else {
      SentFramesAreRead(codec, frames[1..], values[1..]);
      FirstFrame(codec, frames[0], values[0], StreamText(frames[1..]));
      assert values == [values[0]] + values[1..];
    }
  }

  /** Draining `arrived` gives `values` and then whatever draining `buffered` gives. */
  ghost predicate Taking<V>(codec: Codec<V>, arrived: Bytes, values: seq<V>, buffered: Bytes) {
    var d := Drain(ProviderFramer(codec), buffered);
    Drain(ProviderFramer(codec), arrived) == Drained(values + d.values, d.rest, d.phase)
  }

  lemma FrameTaken<V>(codec: Codec<V>, arrived: Bytes, values: seq<V>, buffered: Bytes, at: nat, size: nat)
    requires Taking(codec, arrived, values, buffered) && Boundary(buffered) == Some((at, size))
    ensures 0 < size && at + size <= |buffered|
    ensures var rest := buffered[at + size..];
            match Read(codec, buffered[..at])
            case Nothing => Taking(codec, arrived, values, rest)
            case Final => Drain(ProviderFramer(codec), arrived) == Drained(values, rest, Finished)
            case Malformed => Drain(ProviderFramer(codec), arrived) == Drained(values, rest, Broken)
            case Value(v) => Taking(codec, arrived, values + [v], rest)
  {
    BoundaryIsFirst(buffered);
    assert Next(ProviderFramer(codec), buffered) == Some((at, size));
    DrainStep(ProviderFramer(codec), buffered, at, size);
    if Read(codec, buffered[..at]).Value? {
      ValueMoves(values, Read(codec, buffered[..at]).value, Drain(ProviderFramer(codec), buffered[at + size..]).values);
    }
  }

  lemma ValueMoves<V>(values: seq<V>, v: V, more: seq<V>)
    ensures values + ([v] + more) == values + [v] + more
  {
  }

  lemma NothingToTake<V>(codec: Codec<V>, arrived: Bytes, values: seq<V>, buffered: Bytes)
    requires Taking(codec, arrived, values, buffered) && Boundary(buffered).None?
    ensures Drain(ProviderFramer(codec), arrived) == Drained(values, buffered, Open)
  {
  }

  /** Takes every complete frame out of the buffer, stopping at `[DONE]` or a bad frame. */
  method TakeFrames<V>(codec: Codec<V>, arrived: Bytes)
    returns (values: seq<V>, buffered: Bytes, phase: Phase)
    ensures Drained(values, buffered, phase) == Drain(ProviderFramer(codec), arrived)
  {
    values, buffered, phase := [], arrived, Open;
    while true
      invariant Taking(codec, arrived, values, buffered)
      invariant phase.Open?
      decreases |buffered|
    {
      var boundary := Boundary(buffered);
      if boundary.None? {
        NothingToTake(codec, arrived, values, buffered);
        return;
      }
      var (at, size) := boundary.value;
      FrameTaken(codec, arrived, values, buffered, at, size);
      var frame := buffered[..at];
      buffered := buffered[at + size..];
      match Read(codec, frame) {
        case Nothing =>
        case Final => return values, buffered, Finished;
        case Malformed => return values, buffered, Broken;
        case Value(v) => values := values + [v];
      }
    }
  }

  /** After `i` chunks: these values were taken, this text is left, and reading goes on. */
  ghost predicate HasRead<V>(codec: Codec<V>, chunks: seq<Bytes>, i: nat, d: Drained<Byte, V>) {
    i <= |chunks| && Drain(ProviderFramer(codec), Concat(chunks[..i])) == d
  }

  lemma ReceiveStep<V>(codec: Codec<V>, chunks: seq<Bytes>, i: nat, values: seq<V>, buffered: Bytes)
    requires i < |chunks| && HasRead(codec, chunks, i, Drained(values, buffered, Open))
    ensures |Concat(chunks[..i + 1])| == |Concat(chunks[..i])| + |chunks[i]|
    ensures var d := Drain(ProviderFramer(codec), buffered + chunks[i]);
            HasRead(codec, chunks, i + 1, Drained(values + d.values, d.rest, d.phase))
  {
    ProviderFramerIsSteady(codec);
    assert chunks[..i + 1][..i] == chunks[..i];
    DrainContinues(ProviderFramer(codec), Concat(chunks[..i]), chunks[i]);
  }

  lemma BoundExceeded<V>(codec: Codec<V>, chunks: seq<Bytes>, i: nat, maxBytes: nat, values: seq<V>, buffered: Bytes)
    requires i <= ChunksWithin(chunks, maxBytes)
    requires HasRead(codec, chunks, i, Drained(values, buffered, Open))
    requires i < |chunks| && |Concat(chunks[..i + 1])| > maxBytes
    ensures Received(ProviderFramer(codec), chunks, maxBytes) == (values, OutputLimit)
  {
  }

  lemma AllRead<V>(codec: Codec<V>, chunks: seq<Bytes>, maxBytes: nat, values: seq<V>, buffered: Bytes)
    requires |chunks| <= ChunksWithin(chunks, maxBytes)
    requires HasRead(codec, chunks, |chunks|, Drained(values, buffered, Open))
    ensures Received(ProviderFramer(codec), chunks, maxBytes)
         == (values, if forall i | 0 <= i < |buffered| :: IsBlank(buffered[i]) then Complete else InvalidResponse)
  {
  }

  lemma ReadingStopped<V>(codec: Codec<V>, chunks: seq<Bytes>, n: nat, maxBytes: nat, d: Drained<Byte, V>)
    requires n <= ChunksWithin(chunks, maxBytes)
    requires HasRead(codec, chunks, n, d) && !d.phase.Open?
    ensures Received(ProviderFramer(codec), chunks, maxBytes)
         == (d.values, if d.phase.Finished? then Complete else InvalidResponse)
  {
    StoppedEarly(codec, chunks, n, maxBytes);
  }

  /** The receive loop. `values` are the frames handed to the caller. */
  method StreamJsonSse<V>(codec: Codec<V>, chunks: seq<Bytes>, maxBytes: nat)
    returns (values: seq<V>, verdict: Verdict)
    ensures (values, verdict) == Received(ProviderFramer(codec), chunks, maxBytes)
  {
    values := [];
    var buffered: Bytes := [];
    var received: nat := 0;
    for i := 0 to |chunks|
      invariant i <= ChunksWithin(chunks, maxBytes)
      invariant received == |Concat(chunks[..i])|
      invariant HasRead(codec, chunks, i, Drained(values, buffered, Open))
    {
      ReceiveStep(codec, chunks, i, values, buffered);
      received := received + |chunks[i]|;
      if received > maxBytes {
        BoundExceeded(codec, chunks, i, maxBytes, values, buffered);
        return values, OutputLimit;
      }
      var frames, rest, phase := TakeFrames(codec, buffered + chunks[i]);
      values := values + frames;
      buffered := rest;
      if !phase.Open? {
        ReadingStopped(codec, chunks, i + 1, maxBytes, Drained(values, buffered, phase));
        return values, if phase.Finished? then Complete else InvalidResponse;
      }
    }
    AllRead(codec, chunks, maxBytes, values, buffered);
    verdict := if forall i | 0 <= i < |buffered| :: IsBlank(buffered[i]) then Complete else InvalidResponse;
  }
}
