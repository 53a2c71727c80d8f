/** Cutting a growing buffer into frames, for any delimiter search that later input cannot
    disturb. The provider reader and the host's event reader are both instances. */
module Framing {
  import opened Contracts
  import opened Lines

  /** What one frame says. */
  datatype Meaning<+V> = Nothing | Final | Value(value: V) | Malformed

  /** `boundary` finds the first delimiter, as its start and length; `read` is the meaning of
      the text before it. */
  datatype Framer<!T, !V> = Framer(
    boundary: seq<T> -> Option<(nat, nat)>,
    read: seq<T> -> Meaning<V>)

  /** Text that arrives later never creates an earlier delimiter. */
  ghost predicate Steady<T(!new), V>(f: Framer<T, V>) {
    forall a: seq<T>, b: seq<T> {:trigger f.boundary(a + b)} ::
      f.boundary(a).Some? ==> f.boundary(a + b) == f.boundary(a)
  }

  datatype Phase = Open | Finished | Broken

  /** Values taken from a buffer, the text left in it, and whether reading goes on. */
  datatype Drained<T, V> = Drained(values: seq<V>, rest: seq<T>, phase: Phase)

  /** A delimiter of positive length inside the buffer. */
  function Next<T, V>(f: Framer<T, V>, buffer: seq<T>): (b: Option<(nat, nat)>)
    ensures b.Some? ==> 0 < b.value.1 && b.value.0 + b.value.1 <= |buffer|
  {
    match f.boundary(buffer)
    case None => None
    case Some((at, size)) => if 0 < size && at + size <= |buffer| then Some((at, size)) else None
  }

  function Drain<T, V>(f: Framer<T, V>, buffer: seq<T>): Drained<T, V>
    decreases |buffer|
  {
    match Next(f, buffer)
    case None => Drained([], buffer, Open)
    case Some((at, size)) =>
      var rest := buffer[at + size..];
      match f.read(buffer[..at])
      case Nothing => Drain(f, rest)
      case Final => Drained([], rest, Finished)
      case Malformed => Drained([], rest, Broken)
      case Value(v) => var d := Drain(f, rest); Drained([v] + d.values, d.rest, d.phase)
  }

  /** What a drain does once its first delimiter is known. */
  lemma DrainStep<T, V>(f: Framer<T, V>, buffer: seq<T>, at: nat, size: nat)
    requires Next(f, buffer) == Some((at, size))
    ensures var d := Drain(f, buffer[at + size..]);
            Drain(f, buffer)
            == match f.read(buffer[..at])
               case Nothing => d
               case Final => Drained([], buffer[at + size..], Finished)
               case Malformed => Drained([], buffer[at + size..], Broken)
               case Value(v) => Drained([v] + d.values, d.rest, d.phase)
  {
  }

  lemma NextMoves<T(!new), V>(f: Framer<T, V>, a: seq<T>, b: seq<T>)
    requires Steady(f) && Next(f, a).Some?
    ensures Next(f, a + b) == Next(f, a)
    ensures var (at, size) := Next(f, a).value;
            (a + b)[..at] == a[..at] && (a + b)[at + size..] == a[at + size..] + b
  {
    assert f.boundary(a + b) == f.boundary(a);
  }

  /** The run `d` carried on with the text `b`. */
  function Resume<T, V>(f: Framer<T, V>, d: Drained<T, V>, b: seq<T>): Drained<T, V> {
    if d.phase.Open? then
      var e := Drain(f, d.rest + b);
      Drained(d.values + e.values, e.rest, e.phase)
    else Drained(d.values, d.rest + b, d.phase)
  }

  /** Draining what is left together with the text that follows continues the same run. */
  lemma {:induction false} DrainContinues<T(!new), V>(f: Framer<T, V>, a: seq<T>, b: seq<T>)
    requires Steady(f)
    ensures Drain(f, a + b) == Resume(f, Drain(f, a), b)
    decreases |a|
  {
    if Next(f, a).Some? {
      var (at, size) := Next(f, a).value;
      NextMoves(f, a, b);
      DrainStep(f, a, at, size);
      DrainStep(f, a + b, at, size);
      DrainContinues(f, a[at + size..], b);
      if f.read(a[..at]).Value? {
        ResumeCons(f, f.read(a[..at]).value, Drain(f, a[at + size..]), b);
      }
    } else {
      assert Drain(f, a) == Drained([], a, Open);
      assert [] + Drain(f, a + b).values == Drain(f, a + b).values;
    }
  }

  lemma ResumeCons<T, V>(f: Framer<T, V>, v: V, d: Drained<T, V>, b: seq<T>)
    ensures var r := Resume(f, d, b);
            Resume(f, Drained([v] + d.values, d.rest, d.phase), b) == Drained([v] + r.values, r.rest, r.phase)
  {
    if d.phase.Open? {
      var e := Drain(f, d.rest + b);
      assert [v] + (d.values + e.values) == [v] + d.values + e.values;
    }
  }

  /** Nothing already taken is taken back: what follows only adds values. */
  lemma DrainExtends<T(!new), V>(f: Framer<T, V>, a: seq<T>, b: seq<T>)
    requires Steady(f)
    ensures Drain(f, a).values <= Drain(f, a + b).values
  {
    DrainContinues(f, a, b);
  }

  lemma {:induction false} ConcatGrows<T>(chunks: seq<seq<T>>, n: nat)
    requires n <= |chunks|
    ensures |Concat(chunks[..n])| <= |Concat(chunks)|
    ensures Concat(chunks[..n]) <= Concat(chunks)
  {
    if n < |chunks| {
      var front := chunks[..|chunks| - 1];
      ConcatGrows(front, n);
      assert front[..n] == chunks[..n];
    } else {
      assert chunks[..n] == chunks;
    }
  }
}
