/** The planner's decision once every candidate window has a size and a verdict on the
    character ceiling: which count of kept turns is sent, and with how much output. */
module PlanSearch {
  import opened Contracts

  const OUTPUT_MARGIN_MIN_TOKENS: nat := 128
  const SMALL_CONTEXT_TOKENS: nat := 128_000
  const OUTPUT_FLOOR_TOKENS: nat := 2_048

  datatype Failure = Irreducible | Reserve | InputIrreducible

  datatype FailureCode = ContextExceeded | InputExceeded

  /** The candidate windows of a transcript of `turns` turns, indexed by turns kept. */
  datatype Choices = Choices(turns: nat, size: nat -> nat, fits: nat -> bool)
  {
    function Mandatory(): nat { Min(turns, 1) }

    predicate Candidate(kept: nat) { Mandatory() <= kept <= turns }
  }

  /** Five percent of the capacity, rounded up, but never under the minimum. */
  function OutputMargin(capacity: nat): nat {
    Max(OUTPUT_MARGIN_MIN_TOKENS, (capacity + 19) / 20)
  }

  function InputBudget(capacity: nat, outputTokens: nat): int {
    capacity - outputTokens - OutputMargin(capacity)
  }

  function OutputFloor(configured: nat): nat {
    Min(configured, OUTPUT_FLOOR_TOKENS)
  }

  /** Inside the character ceiling and, when a token budget is given, inside that budget. */
  predicate Admissible(c: Choices, kept: nat, budget: Option<int>) {
    (budget.Some? ==> c.size(kept) <= budget.value) && c.fits(kept)
  }

  function LargestAdmissible(c: Choices, budget: Option<int>, hi: nat): (best: Option<nat>)
    requires c.Candidate(hi)
    ensures best.Some? ==> c.Candidate(best.value) && best.value <= hi && Admissible(c, best.value, budget)
    ensures forall k: nat | c.Candidate(k) && k <= hi && (best.Some? ==> k > best.value) ::
              !Admissible(c, k, budget)
  {
    if Admissible(c, hi, budget) then Some(hi)
    else if hi == c.Mandatory() then None
    else LargestAdmissible(c, budget, hi - 1)
  }

  /** `best` has the smallest size among the fitting windows of at least `lo` turns, and the
      most turns among those of that size. */
  ghost predicate IsSmallest(c: Choices, lo: nat, best: nat) {
    && c.Candidate(best) && best >= lo && c.fits(best)
    && forall k: nat | c.Candidate(k) && k >= lo && c.fits(k) ::
         c.size(best) <= c.size(k) && (k > best ==> c.size(best) < c.size(k))
  }

  function SmallestFitting(c: Choices, lo: nat): (best: Option<nat>)
    requires c.Candidate(lo)
    ensures best.Some? ==> IsSmallest(c, lo, best.value)
    ensures best.None? ==> forall k: nat | c.Candidate(k) && k >= lo :: !c.fits(k)
    decreases c.turns - lo
  {
    var larger := if lo < c.turns then SmallestFitting(c, lo + 1) else None;
    if c.fits(lo) && (larger.None? || c.size(lo) < c.size(larger.value)) then Some(lo)
    else larger
  }

  datatype Decision = Decision(
    kept: nat,
    output: nat,
    failure: Option<Failure>,
    failureCode: FailureCode)

  function DecideUnknown(c: Choices, configured: nat): Decision {
    match LargestAdmissible(c, None, c.turns)
    case Some(kept) => Decision(kept, configured, None, InputExceeded)
    case None => Decision(c.Mandatory(), configured, Some(InputIrreducible), InputExceeded)
  }

  function Refused(c: Choices, capacity: nat, configured: nat): Decision {
    var reserve := InputBudget(capacity, configured) <= 0 && capacity >= SMALL_CONTEXT_TOKENS;
    Decision(c.Mandatory(), configured, Some(if reserve then Reserve else Irreducible), ContextExceeded)
  }

  /** A small context under pressure: smallest window, remaining capacity to output. */
  function DecideSmall(c: Choices, capacity: nat, configured: nat): Decision
    requires c.fits(c.Mandatory())
  {
    var best := SmallestFitting(c, c.Mandatory()).value;
    var available := capacity - OutputMargin(capacity) - c.size(best);
    if available >= OutputFloor(configured)
    then Decision(best, Min(configured, available), None, ContextExceeded)
    else Refused(c, capacity, configured)
  }

  function FirstPass(c: Choices, capacity: nat, configured: nat): Option<nat> {
    var budget := InputBudget(capacity, configured);
    if budget > 0 then LargestAdmissible(c, Some(budget), c.turns) else None
  }

  function DecideKnown(c: Choices, capacity: nat, configured: nat): Decision {
    match FirstPass(c, capacity, configured)
    case Some(kept) => Decision(kept, configured, None, ContextExceeded)
    case None =>
      if !c.fits(c.Mandatory()) then
        Decision(c.Mandatory(), configured, Some(InputIrreducible), InputExceeded)
      else if capacity < SMALL_CONTEXT_TOKENS then DecideSmall(c, capacity, configured)
      else Refused(c, capacity, configured)
  }

  function Decide(c: Choices, capacity: Option<nat>, configured: nat): (d: Decision)
    ensures c.Candidate(d.kept)
  {
    if capacity.Some? then DecideKnown(c, capacity.value, configured) else DecideUnknown(c, configured)
  }

  /** The search for the largest window, from the whole transcript downwards. */
  method SearchLargest(c: Choices, budget: Option<int>) returns (best: Option<nat>)
    ensures best == LargestAdmissible(c, budget, c.turns)
  {
    var kept := c.turns;
    while true
      invariant c.Candidate(kept)
      invariant LargestAdmissible(c, budget, c.turns) == LargestAdmissible(c, budget, kept)
      decreases kept
    {
      if Admissible(c, kept, budget) {
        return Some(kept);
      }
      if kept == c.Mandatory() {
        return None;
      }
      kept := kept - 1;
    }
  }

  /** The fallback search: a smaller window replaces the best only when strictly smaller, so
      the unfitting ones are skipped and a tie keeps the larger. */
  method SearchSmallest(c: Choices) returns (best: Option<nat>)
    ensures best == SmallestFitting(c, c.Mandatory())
  {
    best := None;
    var kept := c.turns + 1;
    while kept > c.Mandatory()
      invariant c.Mandatory() <= kept <= c.turns + 1
      invariant best == if kept <= c.turns then SmallestFitting(c, kept) else None
    {
      kept := kept - 1;
      if c.fits(kept) {
        if best.None? || c.size(kept) < c.size(best.value) {
          best := Some(kept);
        }
      }
    }
  }

  /** Both passes and the failures, in the order the planner tries them. */
  method Choose(c: Choices, window: Option<nat>, configured: nat) returns (d: Decision)
    ensures d == Decide(c, window, configured)
  {
    var chosen: Option<nat>;
    var output := configured;
    var failure: Option<Failure> := None;
    var failureCode := ContextExceeded;
    if window.None? {
      chosen := SearchLargest(c, None);
      if chosen.None? {
        chosen, failure := Some(c.Mandatory()), Some(InputIrreducible);
      }
      return Decision(chosen.value, output, failure, InputExceeded);
    }
    var capacity := window.value;
    var budget := InputBudget(capacity, configured);
    chosen := None;
    if budget > 0 {
      chosen := SearchLargest(c, Some(budget));
    }
    if chosen.None? && !c.fits(c.Mandatory()) {
      failure := Some(InputIrreducible);
      failureCode := InputExceeded;
    } else if chosen.None? && capacity < SMALL_CONTEXT_TOKENS {
      var best := SearchSmallest(c);
      assert best.Some?;
      var available := capacity - OutputMargin(capacity) - c.size(best.value);
      if available >= OutputFloor(configured) {
        chosen := best;
        output := Min(configured, available);
      }
    }
    if chosen.None? {
      chosen := Some(c.Mandatory());
      if failure.None? {
        failure := Some(if budget <= 0 && capacity >= SMALL_CONTEXT_TOKENS then Reserve else Irreducible);
      }
    }
    d := Decision(chosen.value, output, failure, failureCode);
  }

  // ---------------------------------------------------------------------------------------
  // What the decision guarantees
  // ---------------------------------------------------------------------------------------

  /** Without capacity evidence the window is the largest one inside the character ceiling,
      the output allowance is untouched, and failure means that no window fits. */
  lemma UnknownCapacity(c: Choices, configured: nat)
    ensures var d := Decide(c, None, configured);
            && d.output == configured && d.failureCode.InputExceeded?
            && (d.failure.None? <==> exists k: nat :: c.Candidate(k) && c.fits(k))
            && (d.failure.None? ==> c.fits(d.kept) && forall k: nat | c.Candidate(k) && c.fits(k) :: k <= d.kept)
            && (d.failure.Some? ==> d.kept == c.Mandatory() && d.failure.value.InputIrreducible?)
  {
    var d := Decide(c, None, configured);
    assert forall k: nat :: c.fits(k) <==> Admissible(c, k, None);
    assert d.failure.None? ==> c.Candidate(d.kept) && c.fits(d.kept);
  }

  /** A window that will be sent fits both limits beside its output and the margin. */
  lemma SentWindowIsSound(c: Choices, capacity: nat, configured: nat)
    requires Decide(c, Some(capacity), configured).failure.None?
    ensures var d := Decide(c, Some(capacity), configured);
            && c.fits(d.kept)
            && c.size(d.kept) + d.output + OutputMargin(capacity) <= capacity
            && OutputFloor(configured) <= d.output <= configured
  {
  }

  /** Admissible beside the full configured allowance. */
  predicate FitsFully(c: Choices, capacity: nat, configured: nat, kept: nat) {
    && c.Candidate(kept)
    && c.fits(kept)
    && c.size(kept) + configured + OutputMargin(capacity) <= capacity
  }

  lemma FirstPassIsExact(c: Choices, capacity: nat, configured: nat)
    requires forall k: nat | c.Candidate(k) :: c.size(k) > 0
    ensures var first := FirstPass(c, capacity, configured);
            && (first.Some? ==> FitsFully(c, capacity, configured, first.value))
            && (forall k: nat | FitsFully(c, capacity, configured, k) :: first.Some? && k <= first.value)
  {
    var budget := InputBudget(capacity, configured);
    forall k: nat | FitsFully(c, capacity, configured, k)
      ensures FirstPass(c, capacity, configured).Some? && k <= FirstPass(c, capacity, configured).value
    {
      assert Admissible(c, k, Some(budget));
    }
  }

  /** The allowance shrinks exactly when no window fits beside all of it, so the fallback's
      minimum never returns the configured value. Otherwise the largest such window is sent. */
  lemma OutputShrinksExactlyUnderPressure(c: Choices, capacity: nat, configured: nat)
    requires forall k: nat | c.Candidate(k) :: c.size(k) > 0
    ensures var d := Decide(c, Some(capacity), configured);
            && (d.failure.None? ==>
                  (d.output < configured <==> forall k: nat :: !FitsFully(c, capacity, configured, k)))
            && (forall k: nat | FitsFully(c, capacity, configured, k) ::
                  d.failure.None? && d.output == configured && k <= d.kept
                      && FitsFully(c, capacity, configured, d.kept))
  {
    FirstPassIsExact(c, capacity, configured);
    var d := Decide(c, Some(capacity), configured);
    if FirstPass(c, capacity, configured).None? && d.failure.None? {
      assert !FitsFully(c, capacity, configured, d.kept);
    }
  }

  /** Positive sizes are needed: a window counted as zero tokens escapes the first pass when
      the configured output takes the whole budget, and the fallback hands it all back. */
  lemma ZeroSizeEscapesFirstPass()
    ensures var c := Choices(0, (k: nat) => 0, (k: nat) => true);
            && FitsFully(c, 1_128, 1_000, 0)
            && FirstPass(c, 1_128, 1_000).None?
            && Decide(c, Some(1_128), 1_000).output == 1_000
  {
    assert OutputMargin(1_128) == 128;
    var c := Choices(0, (k: nat) => 0, (k: nat) => true);
    assert SmallestFitting(c, 0) == Some(0);
  }

  /** With known capacity and a mandatory window inside the character ceiling, a small context
      fails exactly when no fitting window leaves the margin and the useful floor. */
  lemma SmallContextFailsExactly(c: Choices, capacity: nat, configured: nat)
    requires c.fits(c.Mandatory()) && capacity < SMALL_CONTEXT_TOKENS
    ensures Decide(c, Some(capacity), configured).failure.Some? <==>
            forall k: nat | c.Candidate(k) && c.fits(k) ::
              c.size(k) + OutputMargin(capacity) + OutputFloor(configured) > capacity
    ensures Decide(c, Some(capacity), configured).failure != Some(InputIrreducible)
    ensures Decide(c, Some(capacity), configured).failure != Some(Reserve)
  {
    var d := Decide(c, Some(capacity), configured);
    if d.failure.Some? {
      var best := SmallestFitting(c, c.Mandatory());
      assert IsSmallest(c, c.Mandatory(), best.value);
      forall k: nat | c.Candidate(k) && c.fits(k)
        ensures c.size(k) + OutputMargin(capacity) + OutputFloor(configured) > capacity
      {
        assert c.size(best.value) <= c.size(k);
      }
    } else {
      SentWindowIsSound(c, capacity, configured);
      assert c.Candidate(d.kept) && c.fits(d.kept);
    }
  }

  /** From 128,000 tokens on the allocation is never cut: planning fails exactly when no window
      fits beside the configured allowance. */
  lemma LargeContextFailsExactly(c: Choices, capacity: nat, configured: nat)
    requires capacity >= SMALL_CONTEXT_TOKENS
    requires forall k: nat | c.Candidate(k) :: c.size(k) > 0
    ensures var d := Decide(c, Some(capacity), configured);
            && d.output == configured
            && (d.failure.Some? <==> forall k: nat :: !FitsFully(c, capacity, configured, k))
            && (d.failure == Some(Reserve) <==>
                  c.fits(c.Mandatory()) && configured + OutputMargin(capacity) >= capacity)
  {
    FirstPassIsExact(c, capacity, configured);
  }

  /** The profile's input limit is blamed exactly when nothing fits beside the full allowance
      and the mandatory window alone is too long for the character ceiling. */
  lemma InputLimitBlamedExactly(c: Choices, capacity: nat, configured: nat)
    requires forall k: nat | c.Candidate(k) :: c.size(k) > 0
    ensures var d := Decide(c, Some(capacity), configured);
            && (d.failure == Some(InputIrreducible) <==>
                  !c.fits(c.Mandatory()) && forall k: nat :: !FitsFully(c, capacity, configured, k))
            && (d.failureCode.InputExceeded? <==> d.failure == Some(InputIrreducible))
            && (d.failure.Some? ==> d.kept == c.Mandatory() && d.output == configured)
  {
    FirstPassIsExact(c, capacity, configured);
  }

  /** Under pressure the window sent is the smallest one inside the character ceiling, a tie
      going to the larger, and output receives everything that is left. */
  lemma FallbackIsOptimal(c: Choices, capacity: nat, configured: nat)
    requires forall k: nat | c.Candidate(k) :: c.size(k) > 0
    requires Decide(c, Some(capacity), configured).failure.None?
    requires forall k: nat :: !FitsFully(c, capacity, configured, k)
    ensures var d := Decide(c, Some(capacity), configured);
            && capacity < SMALL_CONTEXT_TOKENS
            && IsSmallest(c, c.Mandatory(), d.kept)
            && d.output == capacity - OutputMargin(capacity) - c.size(d.kept) < configured
  {
    FirstPassIsExact(c, capacity, configured);
    OutputShrinksExactlyUnderPressure(c, capacity, configured);
  }

  /** Sizes grow with the turns kept inside the calibrated region `[from..turns]` and inside
      the heuristic region below it. */
  ghost predicate GrowsInRegions(c: Choices, from: nat) {
    forall a: nat, b: nat {:trigger c.size(a), c.size(b)} |
      c.Candidate(a) && c.Candidate(b) && a < b && (b < from || from <= a) :: c.size(a) < c.size(b)
  }

  /** So the fallback has two outcomes: the mandatory window, or the smallest fitting window
      that extends the provider's own count. */
  lemma FallbackPicksOneOfTwo(c: Choices, from: nat, best: nat)
    requires GrowsInRegions(c, from)
    requires c.fits(c.Mandatory()) && IsSmallest(c, c.Mandatory(), best)
    ensures || best == c.Mandatory()
            || (from <= best && forall k: nat | from <= k < best && c.Candidate(k) :: !c.fits(k))
  {
    if best != c.Mandatory() {
      assert best < from ==> c.size(c.Mandatory()) < c.size(best);
      forall k: nat | from <= k < best && c.Candidate(k) ensures !c.fits(k) {
        assert c.size(k) < c.size(best);
      }
    }
  }
}
