/** Searching, splitting and joining sequences, as `find`, `split` and `join` define them. */
module Lines {
  import opened Contracts

  predicate OccursAt<T(==)>(s: seq<T>, marker: seq<T>, at: nat) {
    at + |marker| <= |s| && s[at..at + |marker|] == marker
  }

  /** Lowest position of `marker` that is not below `at`. */
  function FindFrom<T(==)>(s: seq<T>, marker: seq<T>, at: nat): (r: Option<nat>)
    ensures r.Some? ==> r.value >= at && OccursAt(s, marker, r.value)
    ensures forall i: nat | at <= i && (r.Some? ==> i < r.value) :: !OccursAt(s, marker, i)
    decreases |s| - at
  {
    if OccursAt(s, marker, at) then Some(at)
    else if at >= |s| then None
    else FindFrom(s, marker, at + 1)
  }

  function Find<T(==)>(s: seq<T>, marker: seq<T>): (r: Option<nat>)
    ensures r.Some? ==> OccursAt(s, marker, r.value)
    ensures forall i: nat | r.Some? ==> i < r.value :: !OccursAt(s, marker, i)
  {
    FindFrom(s, marker, 0)
  }

  lemma OccursInPrefix<T>(a: seq<T>, b: seq<T>, marker: seq<T>, at: nat)
    requires at + |marker| <= |a|
    ensures OccursAt(a + b, marker, at) <==> OccursAt(a, marker, at)
  {
    assert (a + b)[at..at + |marker|] == a[at..at + |marker|];
  }

  lemma Mismatch<T>(s: seq<T>, marker: seq<T>, at: nat, k: nat)
    requires k < |marker| && at + k < |s| && s[at + k] != marker[k]
    ensures !OccursAt(s, marker, at)
  {
    if at + |marker| <= |s| {
      assert s[at..at + |marker|][k] == s[at + k];
    }
  }

  function Split<T(==)>(s: seq<T>, sep: T): (parts: seq<seq<T>>)
    ensures |parts| > 0
    ensures forall i | 0 <= i < |parts| :: sep !in parts[i]
  {
    if s == [] then [[]]
    else
      var rest := Split(s[1..], sep);
      if s[0] == sep then [[]] + rest else [[s[0]] + rest[0]] + rest[1..]
  }

  function Join<T>(parts: seq<seq<T>>, sep: T): seq<T> {
    if parts == [] then []
    else if |parts| == 1 then parts[0]
    else parts[0] + [sep] + Join(parts[1..], sep)
  }

  /** Splitting undoes joining parts that do not contain the separator. */
  lemma {:induction false} SplitJoin<T>(parts: seq<seq<T>>, sep: T)
    requires parts != [] && forall i | 0 <= i < |parts| :: sep !in parts[i]
    ensures Split(Join(parts, sep), sep) == parts
  {
    if |parts| == 1 {
      SplitWhole(parts[0], sep);
    } else {
      SplitJoin(parts[1..], sep);
      SplitHead(parts[0], Join(parts[1..], sep), sep);
    }
  }

  lemma {:induction false} SplitWhole<T>(s: seq<T>, sep: T)
    requires sep !in s
    ensures Split(s, sep) == [s]
  {
    if s != [] {
      SplitWhole(s[1..], sep);
      assert [s[0]] + s[1..] == s;
    }
  }

  lemma {:induction false} SplitHead<T>(head: seq<T>, rest: seq<T>, sep: T)
    requires sep !in head
    ensures Split(head + [sep] + rest, sep) == [head] + Split(rest, sep)
  {
    var s := head + [sep] + rest;
    if head == [] {
      assert s[1..] == rest;
    } else {
      assert s[1..] == head[1..] + [sep] + rest;
      SplitHead(head[1..], rest, sep);
      assert [head[0]] + head[1..] == head;
    }
  }

  function Concat<T>(parts: seq<seq<T>>): seq<T> {
    if parts == [] then [] else Concat(parts[..|parts| - 1]) + parts[|parts| - 1]
  }
}
