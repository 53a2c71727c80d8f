/** When the client's buffer limit refuses an event stream. */
module EventLimits {
  import opened Contracts
  import opened Decimals
  import opened Lines
  import opened Framing
  import opened EventStream

  const CLIENT_LIMIT: nat := 1_200_000

  predicate Refused<E>(codec: Codec<E>, after: nat, chunks: seq<string>, limit: nat) {
    FeedAll(codec, after, chunks, limit).delivered.failure == Some(TooLong)
  }

  /** Frames of a log beyond a cursor, as a gateway may send them. */
  ghost predicate Sends<E>(codec: Codec<E>, log: seq<E>, after: nat, frames: seq<Frame<E>>) {
    && Numbered(codec, log) && after <= |log|
    && EventsOf(frames) == log[after..]
    && forall i | 0 <= i < |frames| :: FaithfulFrame(codec, frames[i])
  }

  // ---------------------------------------------------------------------------------------
  // What is left in the buffer
  // ---------------------------------------------------------------------------------------

  /** Length of the first `n` frames. */
  function EndOf<E>(codec: Codec<E>, frames: seq<Frame<E>>, n: nat): nat
    requires n <= |frames|
  {
    |StreamText(codec, frames[..n])|
  }

  lemma {:induction false} StreamSplits<E>(codec: Codec<E>, frames: seq<Frame<E>>, n: nat)
    requires n <= |frames|
    ensures StreamText(codec, frames) == StreamText(codec, frames[..n]) + StreamText(codec, frames[n..])
  {
    if n == 0 {
      assert frames[..0] == [] && frames[0..] == frames;
    } else {
      SlicesOfTail(frames, n);
      var a, b := frames[..n], frames[n..];
      StreamSplits(codec, frames[1..], n - 1);
      assert StreamText(codec, a) == FrameText(codec, frames[0]) + StreamText(codec, frames[1..][..n - 1]);
      Regroup(FrameText(codec, frames[0]), StreamText(codec, frames[1..][..n - 1]), StreamText(codec, b));
    }
  }

  lemma SlicesOfTail<T>(s: seq<T>, n: nat)
    requires 0 < n <= |s|
    ensures s[1..][..n - 1] == s[..n][1..] && s[1..][n - 1..] == s[n..] && s[..n][0] == s[0]
  {
  }

  lemma Regroup(a: string, b: string, c: string)
    ensures a + (b + c) == a + b + c
  {
  }

  /** Inside a frame the buffer holds exactly what has arrived of it. */
  lemma {:induction false} RestInside<E>(codec: Codec<E>, frames: seq<Frame<E>>, n: nat, text: string)
    requires forall i | 0 <= i < |frames| :: FaithfulFrame(codec, frames[i])
    requires n < |frames| && text <= StreamText(codec, frames)
    requires EndOf(codec, frames, n) <= |text| < EndOf(codec, frames, n + 1)
    ensures |Drain(ClientFramer(codec), text).rest| == |text| - EndOf(codec, frames, n)
    decreases n
  {
    var first, rest := FrameText(codec, frames[0]), StreamText(codec, frames[1..]);
    FirstFrame(codec, frames[0], rest);
    if n == 0 {
      assert frames[..0] == [] && frames[..1] == [frames[0]];
      assert StreamText(codec, [frames[0]]) == first;
      BeforeFirst(codec, first + rest, text, |first| - 2);
    } else {
      StartOf(codec, frames, n);
      StartOf(codec, frames, n + 1);
      var tail := text[|first|..];
      assert text == first + tail && tail <= rest;
      RestInside(codec, frames[1..], n - 1, tail);
      FirstFrame(codec, frames[0], tail);
    }
  }

  lemma StartOf<E>(codec: Codec<E>, frames: seq<Frame<E>>, n: nat)
    requires 0 < n <= |frames|
    ensures EndOf(codec, frames, n) == |FrameText(codec, frames[0])| + EndOf(codec, frames[1..], n - 1)
  {
    assert frames[..n][1..] == frames[1..][..n - 1];
  }

  lemma EndSteps<E>(codec: Codec<E>, frames: seq<Frame<E>>, n: nat)
    requires n < |frames|
    ensures EndOf(codec, frames, n + 1) == EndOf(codec, frames, n) + |FrameText(codec, frames[n])|
  {
    StreamSplits(codec, frames[..n + 1], n);
    assert frames[..n + 1][..n] == frames[..n] && frames[..n + 1][n..] == [frames[n]];
    assert StreamText(codec, [frames[n]]) == FrameText(codec, frames[n]);
  }

  /** The buffer is never longer than what has arrived. */
  lemma {:induction false} RestIsShort<E>(codec: Codec<E>, text: string)
    ensures |Drain(ClientFramer(codec), text).rest| <= |text|
    decreases |text|
  {
    var next := Next(ClientFramer(codec), text);
    if next.Some? {
      RestIsShort(codec, text[next.value.0 + next.value.1..]);
    }
  }

  // ---------------------------------------------------------------------------------------
  // A frame that is too long
  // ---------------------------------------------------------------------------------------

  /** While nothing is refused, a frame longer than the limit has not arrived in full. */
  lemma {:induction false} NeverArrives<E>(codec: Codec<E>, log: seq<E>, after: nat, frames: seq<Frame<E>>, n: nat,
                                           chunks: seq<string>, limit: nat)
    requires Sends(codec, log, after, frames) && n < |frames| && |FrameText(codec, frames[n])| > limit
    requires Concat(chunks) <= StreamText(codec, frames) && !Refused(codec, after, chunks, limit)
    ensures |Concat(chunks)| < EndOf(codec, frames, n + 1)
  {
    EndSteps(codec, frames, n);
    if chunks != [] {
      var front, last := chunks[..|chunks| - 1], chunks[|chunks| - 1];
      var sofar := Concat(front);
      assert Concat(chunks) == sofar + last;
      NeverArrives(codec, log, after, frames, n, front, limit);
      ClientChunking(codec, after, front, limit);
      PartialIsSound(codec, log, after, frames, front, limit);
      var buffer := FeedAll(codec, after, front, limit).buffer;
      assert |buffer| + |last| <= limit;
      if |sofar| >= EndOf(codec, frames, n) {
        RestInside(codec, frames, n, sofar);
      }
    }
  }

  lemma PartialIsSound<E>(codec: Codec<E>, log: seq<E>, after: nat, frames: seq<Frame<E>>, chunks: seq<string>,
                          limit: nat)
    requires Sends(codec, log, after, frames)
    requires Concat(chunks) <= StreamText(codec, frames) && !Refused(codec, after, chunks, limit)
    ensures var c := FeedAll(codec, after, chunks, limit);
            c.delivered.failure.None? && c.buffer == Drain(ClientFramer(codec), Concat(chunks)).rest
  {
    CutShort(codec, log, after, frames, chunks, limit);
    ClientChunking(codec, after, chunks, limit);
  }

  /** A stream with a frame longer than the limit is refused however it is cut. */
  lemma LongFrameIsRefused<E>(codec: Codec<E>, log: seq<E>, after: nat, frames: seq<Frame<E>>, n: nat,
                              chunks: seq<string>, limit: nat)
    requires Sends(codec, log, after, frames) && n < |frames| && |FrameText(codec, frames[n])| > limit
    requires Concat(chunks) == StreamText(codec, frames)
    ensures Refused(codec, after, chunks, limit)
  {
    StreamSplits(codec, frames, n + 1);
    if !Refused(codec, after, chunks, limit) {
      NeverArrives(codec, log, after, frames, n, chunks, limit);
    }
  }

  // ---------------------------------------------------------------------------------------
  // Exact conditions
  // ---------------------------------------------------------------------------------------

  function Singles(text: string): seq<string> {
    seq(|text|, i requires 0 <= i < |text| => [text[i]])
  }

  lemma {:induction false} SinglesJoin(text: string)
    ensures Concat(Singles(text)) == text
  {
    if text != "" {
      var front := text[..|text| - 1];
      SinglesJoin(front);
      assert Singles(text)[..|text| - 1] == Singles(front);
      assert text == front + [text[|text| - 1]];
    } else {
      assert Singles(text) == [];
    }
  }

  lemma SinglesGetThrough<E>(codec: Codec<E>, after: nat, frames: seq<Frame<E>>, limit: nat)
    requires forall i | 0 <= i < |frames| :: FaithfulFrame(codec, frames[i]) && |FrameText(codec, frames[i])| <= limit
    ensures !Refused(codec, after, Singles(StreamText(codec, frames)), limit)
  {
    var text := StreamText(codec, frames);
    SinglesJoin(text);
    if frames == [] {
      assert Singles(text) == [];
    } else {
      assert |FrameText(codec, frames[0])| > 0;
      EnoughRoom(codec, after, frames, limit, Singles(text), 1, limit);
    }
  }

  /** Some way of cutting the stream gets through exactly when every frame fits the limit. */
  lemma GetsThroughExactly<E>(codec: Codec<E>, log: seq<E>, after: nat, frames: seq<Frame<E>>, limit: nat)
    requires Sends(codec, log, after, frames)
    ensures (exists chunks :: Concat(chunks) == StreamText(codec, frames) && !Refused(codec, after, chunks, limit))
        <==> forall i | 0 <= i < |frames| :: |FrameText(codec, frames[i])| <= limit
  {
    if forall i | 0 <= i < |frames| :: |FrameText(codec, frames[i])| <= limit {
      SinglesGetThrough(codec, after, frames, limit);
      SinglesJoin(StreamText(codec, frames));
    } else {
      var n :| 0 <= n < |frames| && |FrameText(codec, frames[n])| > limit;
      forall chunks | Concat(chunks) == StreamText(codec, frames) ensures Refused(codec, after, chunks, limit) {
        LongFrameIsRefused(codec, log, after, frames, n, chunks, limit);
      }
    }
  }

  lemma {:induction false} ShortStreamGetsThrough<E>(codec: Codec<E>, log: seq<E>, after: nat, frames: seq<Frame<E>>,
                                                     chunks: seq<string>, limit: nat)
    requires Sends(codec, log, after, frames) && |StreamText(codec, frames)| <= limit
    requires Concat(chunks) <= StreamText(codec, frames)
    ensures !Refused(codec, after, chunks, limit)
  {
    if chunks != [] {
      var front, last := chunks[..|chunks| - 1], chunks[|chunks| - 1];
      assert Concat(chunks) == Concat(front) + last;
      ShortStreamGetsThrough(codec, log, after, frames, front, limit);
      PartialIsSound(codec, log, after, frames, front, limit);
      RestIsShort(codec, Concat(front));
      var c := FeedAll(codec, after, front, limit);
      NotTooLong(codec, c.(buffer := c.buffer + last));
    }
  }

  /** Every way of cutting the stream gets through exactly when the whole stream fits the limit. */
  lemma AlwaysGetsThroughExactly<E>(codec: Codec<E>, log: seq<E>, after: nat, frames: seq<Frame<E>>, limit: nat)
    requires Sends(codec, log, after, frames)
    ensures (forall chunks | Concat(chunks) == StreamText(codec, frames) :: !Refused(codec, after, chunks, limit))
        <==> |StreamText(codec, frames)| <= limit
  {
    var text := StreamText(codec, frames);
    if |text| <= limit {
      forall chunks | Concat(chunks) == text ensures !Refused(codec, after, chunks, limit) {
        ShortStreamGetsThrough(codec, log, after, frames, chunks, limit);
      }
    } else {
      var whole := [text];
      assert whole[..0] == [] && Concat(whole) == Concat([]) + text;
      assert Refused(codec, after, whole, limit);
    }
  }

  // ---------------------------------------------------------------------------------------
  // Texts in JSON, and one that is too long
  // ---------------------------------------------------------------------------------------

  lemma FrameLength<E>(codec: Codec<E>, e: E)
    ensures |FrameText(codec, EventFrame(e))|
         == |Decimal(codec.sequenceOf(e))| + |codec.typeOf(e)| + |codec.encode(e)| + 21
  {
    var lines := FrameLines(codec, EventFrame(e));
    ThreeLines(lines[0], lines[1], lines[2]);
    assert lines == [lines[0], lines[1], lines[2]];
    assert |lines[0]| == 4 + |Decimal(codec.sequenceOf(e))|;
    assert |lines[1]| == 7 + |codec.typeOf(e)| && |lines[2]| == 6 + |codec.encode(e)|;
  }

  lemma ThreeLines(a: string, b: string, c: string)
    ensures |Join([a, b, c], '\n')| == |a| + |b| + |c| + 2
  {
    assert [a, b, c][1..] == [b, c] && [b, c][1..] == [c];
    assert Join([c], '\n') == c && Join([b, c], '\n') == b + ['\n'] + c;
  }

  const HEX: string := "0123456789abcdef"

  function Hex4(n: nat): (digits: string)
    requires n < 0x1_0000
    ensures |digits| == 4
  {
    [HEX[n / 0x1000], HEX[n / 0x100 % 16], HEX[n / 16 % 16], HEX[n % 16]]
  }

  function CodeUnit(n: nat): (escape: string)
    requires n < 0x1_0000
    ensures |escape| == 6
  {
    "\\u" + Hex4(n)
  }

  /** One character of a text in JSON that keeps to ASCII. */
  function EscapedChar(c: char): string {
    var code := c as int;
    if c == '\"' then "\\\""
    else if c == '\\' then "\\\\"
    else if c == '\n' then "\\n"
    else if c == '\r' then "\\r"
    else if c == '\t' then "\\t"
    else if code == 8 then "\\b"
    else if code == 12 then "\\f"
    else if 0x20 <= code <= 0x7E then [c]
    else if code <= 0xFFFF then CodeUnit(code)
    else CodeUnit(0xD800 + (code - 0x1_0000) / 0x400) + CodeUnit(0xDC00 + (code - 0x1_0000) % 0x400)
  }

  function Escaped(text: string): string {
    if text == "" then "" else Escaped(text[..|text| - 1]) + EscapedChar(text[|text| - 1])
  }

  lemma CodeUnitIsOneLine(n: nat)
    requires n < 0x1_0000
    ensures '\n' !in CodeUnit(n)
  {
    assert forall i | 0 <= i < 16 :: HEX[i] != '\n';
  }

  lemma EscapedCharIsOneLine(c: char)
    ensures '\n' !in EscapedChar(c)
  {
    var code := c as int;
    if code > 0xFFFF {
      CodeUnitIsOneLine(0xD800 + (code - 0x1_0000) / 0x400);
      CodeUnitIsOneLine(0xDC00 + (code - 0x1_0000) % 0x400);
    } else {
      CodeUnitIsOneLine(code);
    }
  }

  lemma {:induction false} EscapedIsOneLine(text: string)
    ensures '\n' !in Escaped(text)
  {
    if text != "" {
      EscapedIsOneLine(text[..|text| - 1]);
      EscapedCharIsOneLine(text[|text| - 1]);
    }
  }

  predicate Astral(text: string) { forall i | 0 <= i < |text| :: text[i] as int > 0xFFFF }

  lemma {:induction false} AstralLength(text: string)
    requires Astral(text)
    ensures |Escaped(text)| == 12 * |text|
  {
    if text != "" {
      AstralLength(text[..|text| - 1]);
    }
  }

  /** A stream with an event whose JSON holds too long a text is refused however it is cut. */
  lemma LongTextIsRefused<E>(codec: Codec<E>, log: seq<E>, after: nat, frames: seq<Frame<E>>, n: nat,
                             chunks: seq<string>, limit: nat, text: string, at: nat)
    requires Sends(codec, log, after, frames) && Concat(chunks) == StreamText(codec, frames)
    requires n < |frames| && frames[n].EventFrame? && OccursAt(codec.encode(frames[n].event), Escaped(text), at)
    requires |codec.typeOf(frames[n].event)| + |Escaped(text)| + 22 > limit
    ensures Refused(codec, after, chunks, limit)
  {
    FrameLength(codec, frames[n].event);
    LongFrameIsRefused(codec, log, after, frames, n, chunks, limit);
  }
}
