/** Splitting a transcript into leading instructions and whole turns. */
module Turns {
  import opened Contracts
  import opened Transcript

  datatype Partition = Partition(system: seq<nat>, turns: seq<seq<nat>>)

  function Range(lo: nat, hi: nat): (r: seq<nat>)
    ensures |r| == if lo <= hi then hi - lo else 0
    ensures forall i | 0 <= i < |r| :: r[i] == lo + i
  {
    if lo < hi then seq(hi - lo, (i: nat) => lo + i) else []
  }

  function Extend(p: Partition, index: nat, role: Role): Partition {
    if role.System? && p.turns == [] then p.(system := p.system + [index])
    else if role.User? || p.turns == [] then p.(turns := p.turns + [[index]])
    else p.(turns := p.turns[..|p.turns| - 1] + [p.turns[|p.turns| - 1] + [index]])
  }

  function Partitioned(ms: seq<Message>): (p: Partition) {
    if ms == [] then Partition([], [])
    else Extend(Partitioned(ms[..|ms| - 1]), |ms| - 1, ms[|ms| - 1].role)
  }

  lemma PartitionedNext(ms: seq<Message>, index: nat)
    requires index < |ms|
    ensures Partitioned(ms[..index + 1]) == Extend(Partitioned(ms[..index]), index, ms[index].role)
  {
    assert ms[..index + 1][..index] == ms[..index];
  }

  method SplitTurns(ms: seq<Message>) returns (p: Partition)
    ensures p == Partitioned(ms)
  {
    var system: seq<nat>, turns: seq<seq<nat>> := [], [];
    for index := 0 to |ms|
      invariant Partition(system, turns) == Partitioned(ms[..index])
    {
      PartitionedNext(ms, index);
      if ms[index].role.System? && turns == [] {
        system := system + [index];
      } else if ms[index].role.User? || turns == [] {
        turns := turns + [[index]];
      } else {
        turns := turns[..|turns| - 1] + [turns[|turns| - 1] + [index]];
      }
    }
    assert ms[..|ms|] == ms;
    p := Partition(system, turns);
  }

  function Flatten(turns: seq<seq<nat>>): seq<nat> {
    if turns == [] then [] else turns[0] + Flatten(turns[1..])
  }

  lemma {:induction false} FlattenConcat(a: seq<seq<nat>>, b: seq<seq<nat>>)
    ensures Flatten(a + b) == Flatten(a) + Flatten(b)
  {
    if a == [] {
      assert a + b == b;
    } else {
      assert (a + b)[1..] == a[1..] + b;
      FlattenConcat(a[1..], b);
    }
  }

  ghost predicate Opened(ms: seq<Message>, turn: seq<nat>) {
    turn != [] && turn[0] < |ms| && ms[turn[0]].role.User?
  }

  ghost predicate NoFurtherUser(ms: seq<Message>, turn: seq<nat>) {
    forall i | 0 < i < |turn| :: turn[i] < |ms| && !ms[turn[i]].role.User?
  }

  /** The leading run of system messages. */
  ghost predicate IsLead(ms: seq<Message>, system: seq<nat>) {
    && |system| <= |ms|
    && system == Range(0, |system|)
    && (forall i | 0 <= i < |system| :: ms[i].role.System?)
    && (|system| < |ms| ==> !ms[|system|].role.System?)
  }

  /** Nonempty turns, each later one opened by its only user message. */
  ghost predicate AreTurns(ms: seq<Message>, turns: seq<seq<nat>>) {
    && (forall j | 0 <= j < |turns| :: turns[j] != [])
    && (forall j | 0 < j < |turns| :: Opened(ms, turns[j]))
    && (forall j | 0 <= j < |turns| :: NoFurtherUser(ms, turns[j]))
  }

  /** What the split promises: the leading instructions, then turns that list every other
      index in order. */
  ghost predicate IsPartition(ms: seq<Message>, p: Partition) {
    && IsLead(ms, p.system)
    && Flatten(p.turns) == Range(|p.system|, |ms|)
    && AreTurns(ms, p.turns)
  }

  lemma {:induction false} PartitionShape(ms: seq<Message>)
    ensures IsPartition(ms, Partitioned(ms))
  {
    if ms != [] {
      var n := |ms| - 1;
      PartitionShape(ms[..n]);
      TurnsStay(ms, n, Partitioned(ms[..n]).turns);
      ExtendShape(ms, Partitioned(ms[..n]));
    }
  }

  lemma TurnsStay(ms: seq<Message>, n: nat, turns: seq<seq<nat>>)
    requires n <= |ms| && AreTurns(ms[..n], turns)
    ensures AreTurns(ms, turns)
  {
    forall j | 0 <= j < |turns| ensures (j > 0 ==> Opened(ms, turns[j])) && NoFurtherUser(ms, turns[j]) {
      assert NoFurtherUser(ms[..n], turns[j]);
      assert j > 0 ==> Opened(ms[..n], turns[j]);
    }
  }

  lemma LeadStays(ms: seq<Message>, n: nat, system: seq<nat>)
    requires n + 1 == |ms| && IsLead(ms[..n], system)
    requires |system| < n || !ms[n].role.System?
    ensures IsLead(ms, system)
  {
    assert forall i | 0 <= i < n :: ms[i] == ms[..n][i];
  }

  lemma LeadGrows(ms: seq<Message>, n: nat, system: seq<nat>)
    requires n + 1 == |ms| && IsLead(ms[..n], system) && |system| == n && ms[n].role.System?
    ensures IsLead(ms, system + [n])
  {
    assert forall i | 0 <= i < n :: ms[i] == ms[..n][i];
  }

  lemma TurnAdded(ms: seq<Message>, n: nat, turns: seq<seq<nat>>)
    requires n < |ms| && AreTurns(ms, turns)
    requires turns == [] || ms[n].role.User?
    ensures AreTurns(ms, turns + [[n]])
    ensures Flatten(turns + [[n]]) == Flatten(turns) + [n]
  {
    FlattenConcat(turns, [[n]]);
    assert Flatten([[n]]) == [n] + Flatten([]);
    assert Opened(ms, [n]) || turns == [];
    assert NoFurtherUser(ms, [n]);
  }

  lemma TurnExtended(ms: seq<Message>, n: nat, front: seq<seq<nat>>, last: seq<nat>)
    requires n < |ms| && AreTurns(ms, front + [last])
    requires !ms[n].role.User?
    ensures AreTurns(ms, front + [last + [n]])
  {
    var before, after, k := front + [last], front + [last + [n]], |front|;
    assert before[k] == last && after[k] == last + [n];
    assert NoFurtherUser(ms, last + [n]);
    assert k > 0 ==> Opened(ms, before[k]) && Opened(ms, last + [n]);
    forall j | 0 <= j < k ensures after[j] == before[j] {
    }
  }

  lemma ExtendShape(ms: seq<Message>, before: Partition)
    requires ms != [] && IsPartition(ms[..|ms| - 1], before)
    requires AreTurns(ms, before.turns)
    ensures IsPartition(ms, Extend(before, |ms| - 1, ms[|ms| - 1].role))
  {
    var n := |ms| - 1;
    if ms[n].role.System? && before.turns == [] {
      LeadGrows(ms, n, before.system);
    } else {
      if before.turns != [] {
        FlattenIsNonempty(before.turns);
      }
      LeadStays(ms, n, before.system);
      if ms[n].role.User? || before.turns == [] {
        TurnAdded(ms, n, before.turns);
      } else {
        JoinLast(ms, before);
      }
    }
  }

  lemma JoinedFlatten(front: seq<seq<nat>>, last: seq<nat>, n: nat)
    ensures Flatten(front + [last + [n]]) == Flatten(front + [last]) + [n]
  {
    FlattenConcat(front, [last]);
    FlattenConcat(front, [last + [n]]);
    assert Flatten([last]) == last;
    assert Flatten([last + [n]]) == last + [n];
  }

  lemma FlattenIsNonempty(turns: seq<seq<nat>>)
    requires turns != [] && turns[0] != []
    ensures |Flatten(turns)| > 0
  {
  }

  lemma {:induction false} FlattenIsLong(turns: seq<seq<nat>>)
    requires forall j | 0 <= j < |turns| :: turns[j] != []
    ensures |Flatten(turns)| >= |turns|
  {
    if turns != [] {
      FlattenIsLong(turns[1..]);
    }
  }

  lemma TurnsAreFew(ms: seq<Message>)
    ensures |Partitioned(ms).turns| <= |ms|
  {
    PartitionShape(ms);
    FlattenIsLong(Partitioned(ms).turns);
  }

  lemma JoinLast(ms: seq<Message>, before: Partition)
    requires ms != [] && Flatten(before.turns) == Range(|before.system|, |ms| - 1)
    requires before.turns != [] && AreTurns(ms, before.turns)
    requires !ms[|ms| - 1].role.User?
    ensures var after := Extend(before, |ms| - 1, ms[|ms| - 1].role);
            && after.system == before.system
            && AreTurns(ms, after.turns) && Flatten(after.turns) == Range(|before.system|, |ms|)
  {
    var n, k := |ms| - 1, |before.turns| - 1;
    var front, last := before.turns[..k], before.turns[k];
    FrontAndLast(before.turns);
    FlattenIsNonempty(before.turns);
    JoinedFlatten(front, last, n);
    TurnExtended(ms, n, front, last);
  }

  /** `turns[-kept:]` as the slice is defined: a zero count takes every turn. */
  function LastTurns(turns: seq<seq<nat>>, kept: nat): seq<seq<nat>> {
    if kept == 0 || kept > |turns| then turns else turns[|turns| - kept..]
  }

  function Suffix(p: Partition, kept: nat): seq<nat> {
    p.system + Flatten(LastTurns(p.turns, kept))
  }

  /** The counts of kept turns the planner searches: zero only when there are no turns. */
  predicate Searched(p: Partition, kept: nat) {
    Min(|p.turns|, 1) <= kept <= |p.turns|
  }

  /** First transcript index, past the instructions, that a window of `kept` turns holds. */
  function Cut(ms: seq<Message>, kept: nat): int {
    |ms| - |Flatten(LastTurns(Partitioned(ms).turns, kept))|
  }

  /** A window is the instructions and one contiguous run up to the newest message; the run
      starts at a user message unless the window is the whole transcript. */
  lemma SuffixIsContiguous(ms: seq<Message>, kept: nat)
    requires Searched(Partitioned(ms), kept)
    ensures var p := Partitioned(ms); var cut := Cut(ms, kept);
            && |p.system| <= cut <= |ms|
            && Suffix(p, kept) == Range(0, |p.system|) + Range(cut, |ms|)
            && (kept == |p.turns| ==> cut == |p.system|)
            && (kept < |p.turns| ==> cut < |ms| && ms[cut].role.User?)
  {
    PartitionShape(ms);
    LastTurnsTail(ms, Partitioned(ms), kept, Cut(ms, kept));
  }

  ghost predicate IsWindow(ms: seq<Message>, p: Partition, kept: nat, cut: int) {
    && |p.system| <= cut <= |ms|
    && Suffix(p, kept) == Range(0, |p.system|) + Range(cut, |ms|)
    && (kept == |p.turns| ==> cut == |p.system|)
    && (kept < |p.turns| ==> cut < |ms| && ms[cut].role.User?)
  }

  lemma LastTurnsTail(ms: seq<Message>, p: Partition, kept: nat, cut: int)
    requires IsPartition(ms, p) && Searched(p, kept)
    requires cut == |ms| - |Flatten(LastTurns(p.turns, kept))|
    ensures IsWindow(ms, p, kept, cut)
  {
    TailIsRange(p.turns, |p.system|, |ms|, kept);
    if kept < |p.turns| {
      TailOpens(ms, p.turns, |p.turns| - kept);
    }
  }

  /** What the last turns list is the end of what all of them list. */
  lemma TailIsRange(turns: seq<seq<nat>>, lo: nat, hi: nat, kept: nat)
    requires Flatten(turns) == Range(lo, hi) && lo <= hi && kept <= |turns| && (kept == 0 ==> turns == [])
    ensures var tail := Flatten(LastTurns(turns, kept));
            && |tail| <= hi - lo && tail == Range(hi - |tail|, hi)
            && (kept == |turns| ==> |tail| == hi - lo)
  {
    var at := |turns| - kept;
    assert turns == turns[..at] + turns[at..];
    assert LastTurns(turns, kept) == turns[at..];
    FlattenConcat(turns[..at], turns[at..]);
    TailOfRange(lo, hi, Flatten(turns[..at]), Flatten(turns[at..]));
    if at == 0 {
      assert turns[..at] == [];
    }
  }

  /** The turns from the `at`-th on open with a user message. */
  lemma TailOpens(ms: seq<Message>, turns: seq<seq<nat>>, at: nat)
    requires AreTurns(ms, turns) && 0 < at < |turns|
    ensures var tail := Flatten(turns[at..]); tail != [] && tail[0] < |ms| && ms[tail[0]].role.User?
  {
    assert Opened(ms, turns[at]);
    assert Flatten(turns[at..])[0] == turns[at][0];
  }

  lemma TailOfRange(lo: nat, hi: nat, front: seq<nat>, tail: seq<nat>)
    requires lo <= hi && front + tail == Range(lo, hi)
    ensures |front| + |tail| == hi - lo
    ensures tail == Range(hi - |tail|, hi)
  {
    assert forall i | 0 <= i < |tail| :: tail[i] == (front + tail)[|front| + i];
  }

  /** Keeping more turns strictly extends the window on the left. */
  lemma {:induction false} CutDecreases(ms: seq<Message>, fewer: nat, more: nat)
    requires 1 <= fewer < more <= |Partitioned(ms).turns|
    ensures Cut(ms, more) < Cut(ms, fewer)
  {
    PartitionShape(ms);
    MoreIsLonger(Partitioned(ms).turns, fewer, more);
  }

  lemma MoreIsLonger(turns: seq<seq<nat>>, fewer: nat, more: nat)
    requires 1 <= fewer < more <= |turns| && forall j | 0 <= j < |turns| :: turns[j] != []
    ensures |Flatten(LastTurns(turns, fewer))| < |Flatten(LastTurns(turns, more))|
  {
    var a, b := |turns| - more, |turns| - fewer;
    assert LastTurns(turns, more) == turns[a..b] + turns[b..] && LastTurns(turns, fewer) == turns[b..];
    FlattenConcat(turns[a..b], turns[b..]);
    FlattenIsNonempty(turns[a..b]);
  }

  predicate InBounds(ms: seq<Message>, indices: seq<nat>) {
    forall i | 0 <= i < |indices| :: indices[i] < |ms|
  }

  function Pick(ms: seq<Message>, indices: seq<nat>): seq<Message>
    requires InBounds(ms, indices)
  {
    seq(|indices|, i requires 0 <= i < |indices| => ms[indices[i]])
  }

  lemma SuffixInBounds(ms: seq<Message>, kept: nat)
    requires Searched(Partitioned(ms), kept)
    ensures InBounds(ms, Suffix(Partitioned(ms), kept))
  {
    PartitionShape(ms);
    SuffixIsContiguous(ms, kept);
  }

  /** The window's messages: instructions, then everything from the cut on. */
  lemma PickSuffix(ms: seq<Message>, kept: nat, indices: seq<nat>)
    requires Searched(Partitioned(ms), kept)
    requires indices == Suffix(Partitioned(ms), kept)
    requires InBounds(ms, indices)
    ensures |Partitioned(ms).system| <= Cut(ms, kept) <= |ms|
    ensures Pick(ms, indices) == ms[..|Partitioned(ms).system|] + ms[Cut(ms, kept)..]
  {
    SuffixIsContiguous(ms, kept);
    PickRanges(ms, |Partitioned(ms).system|, Cut(ms, kept));
  }

  lemma PickRanges(ms: seq<Message>, lead: nat, cut: nat)
    requires lead <= cut <= |ms|
    ensures InBounds(ms, Range(0, lead) + Range(cut, |ms|))
    ensures Pick(ms, Range(0, lead) + Range(cut, |ms|)) == ms[..lead] + ms[cut..]
  {
  }

  lemma LeadClosed(ms: seq<Message>)
    requires ToolClosed(ms)
    ensures |Partitioned(ms).system| <= |ms|
    ensures ToolClosed(ms[..|Partitioned(ms).system|])
  {
    PartitionShape(ms);
    var lead := ms[..|Partitioned(ms).system|];
    forall i | 0 <= i < |lead| ensures Standalone(lead[i]) {
      assert ms[i].role.System?;
      assert ms[i].toolRequests == [];
    }
    ClosedStandalone(lead);
  }

  lemma RestClosed(ms: seq<Message>, kept: nat)
    requires ToolClosed(ms) && Searched(Partitioned(ms), kept)
    ensures 0 <= Cut(ms, kept) <= |ms|
    ensures ToolClosed(ms[Cut(ms, kept)..])
  {
    SuffixIsContiguous(ms, kept);
    PartitionShape(ms);
    var cut := Cut(ms, kept);
    if kept == |Partitioned(ms).turns| {
      assert forall owner: nat | owner < cut :: ms[owner].role.System? && ms[owner].toolRequests == [];
      assert forall owner: nat | owner < cut < |ms| :: !IsAnswer(ms, cut, owner);
    }
    ClosedSuffix(ms, cut);
  }

  /** Dropping whole turns never splits a tool group. */
  lemma WindowClosed(ms: seq<Message>, kept: nat, indices: seq<nat>)
    requires ToolClosed(ms)
    requires Searched(Partitioned(ms), kept)
    requires indices == Suffix(Partitioned(ms), kept)
    requires InBounds(ms, indices)
    ensures ToolClosed(Pick(ms, indices))
  {
    PickSuffix(ms, kept, indices);
    LeadClosed(ms);
    RestClosed(ms, kept);
    ClosedAppend(ms[..|Partitioned(ms).system|], ms[Cut(ms, kept)..]);
  }
}
