/** Choosing the prompt window of one provider call under the model's token capacity and the
    profile's character ceiling at once. */
module ContextPlanner {
  import opened Contracts
  import opened Transcript
  import opened TokenEstimates
  import opened Turns
  import opened PlanSearch

  datatype Basis = Estimated | Calibrated

  /** The last size a provider gave for one of its prompts, with the transcript indices of that prompt. */
  datatype ObservedPrompt = ObservedPrompt(indices: set<nat>, promptTokens: nat)

  /** What planning reads. `measure` is the size in characters of a candidate window: the
      adapter's own measure, or the generic estimate when the adapter offers none. `compact`
      is the compact JSON text of a value. */
  datatype Request = Request(
    messages: seq<Message>,
    tools: seq<ToolDefinition>,
    outputSchema: Option<Json>,
    limits: Limits,
    window: ContextWindow,
    observed: Option<ObservedPrompt>,
    measure: seq<Message> -> nat,
    compact: Json -> string)

  datatype ContextPlan = ContextPlan(
    messages: seq<Message>,
    indices: seq<nat>,
    capacityTokens: Option<nat>,
    capacitySource: string,
    budgetTokens: Option<int>,
    estimatedPromptTokens: nat,
    basis: Basis,
    droppedMessages: int,
    droppedTurns: int,
    configuredOutputTokens: nat,
    allocatedOutputTokens: nat,
    failure: Option<Failure>,
    failureCode: FailureCode)
  {
    predicate Reduced() { droppedMessages > 0 }

    predicate OutputReduced() { allocatedOutputTokens < configuredOutputTokens }
  }

  /** Cost of the listed messages that are not in `skip`. */
  function CostOf(costs: seq<nat>, indices: seq<nat>, skip: set<nat>): nat {
    if indices == [] then 0
    else
      (if indices[0] in skip || indices[0] >= |costs| then 0 else costs[indices[0]])
      + CostOf(costs, indices[1..], skip)
  }

  predicate Covers(indices: seq<nat>, observed: set<nat>) {
    forall i | i in observed :: i in indices
  }

  /** Prompt size of a window: the provider's count plus what was added since, or the
      heuristic for everything. */
  function Estimate(costs: seq<nat>, fixed: nat, observed: Option<ObservedPrompt>,
                    indices: seq<nat>): (nat, Basis) {
    if observed.Some? && Covers(indices, observed.value.indices)
    then (observed.value.promptTokens + CostOf(costs, indices, observed.value.indices), Calibrated)
    else (fixed + CostOf(costs, indices, {}), Estimated)
  }

  function Costs(r: Request): (costs: seq<nat>)
    ensures |costs| == |r.messages|
    ensures forall i | 0 <= i < |costs| :: costs[i] > 0
  {
    seq(|r.messages|, i requires 0 <= i < |r.messages| => MessageTokens(r.messages[i], r.compact))
  }

  function FixedTokens(r: Request): nat {
    TEMPLATE_OVERHEAD_TOKENS + ToolsTokens(r.tools, r.outputSchema, r.compact)
  }

  function Indices(r: Request, kept: nat): (indices: seq<nat>)
    ensures Searched(Partitioned(r.messages), kept) ==> InBounds(r.messages, indices)
  {
    if Searched(Partitioned(r.messages), kept) then SuffixInBounds(r.messages,
        kept); Suffix(Partitioned(r.messages), kept)
    else []
  }

  function Window(r: Request, kept: nat): seq<Message> {
    if Searched(Partitioned(r.messages), kept) then Pick(r.messages, Indices(r, kept)) else []
  }

  function Size(r: Request, kept: nat): nat {
    Estimate(Costs(r), FixedTokens(r), r.observed, Indices(r, kept)).0
  }

  function BasisOf(r: Request, kept: nat): Basis {
    Estimate(Costs(r), FixedTokens(r), r.observed, Indices(r, kept)).1
  }

  predicate FitsChars(r: Request, kept: nat) {
    r.measure(Window(r, kept)) <= r.limits.maxInputChars
  }

  function ChoicesOf(r: Request): (c: Choices)
    ensures c.turns == |Partitioned(r.messages).turns|
    ensures forall k :: c.size(k) == Size(r, k) && (c.fits(k) <==> FitsChars(r, k))
    ensures forall k: nat :: c.Candidate(k) <==> Searched(Partitioned(r.messages), k)
  {
    Choices(|Partitioned(r.messages).turns|, (k: nat) => Size(r, k), (k: nat) => FitsChars(r, k))
  }

  function Decided(r: Request): (d: Decision)
    ensures Searched(Partitioned(r.messages), d.kept)
  {
    Decide(ChoicesOf(r), r.window.tokens, r.limits.maxOutputTokens)
  }

  function PlanFor(r: Request, d: Decision): ContextPlan {
    ContextPlan(
      Window(r, d.kept),
      Indices(r, d.kept),
      r.window.tokens,
      r.window.source,
      if r.window.tokens.Some? then Some(InputBudget(r.window.tokens.value, d.output)) else None,
      Size(r, d.kept),
      BasisOf(r, d.kept),
      |r.messages| - |Indices(r, d.kept)|,
      |Partitioned(r.messages).turns| - d.kept,
      r.limits.maxOutputTokens,
      d.output,
      d.failure,
      d.failureCode)
  }

  function PlanOf(r: Request): ContextPlan { PlanFor(r, Decided(r)) }

  /** The planner: costs in one loop, turns in another, then the searches. */
  method PlanContext(r: Request) returns (plan: ContextPlan)
    ensures plan == PlanOf(r)
  {
    var costs: seq<nat> := [];
    for i := 0 to |r.messages|
      invariant costs == Costs(r)[..i]
    {
      var cost := EstimateMessageTokens(r.messages[i], r.compact);
      costs := costs + [cost];
    }
    assert costs == Costs(r);
    var tools := EstimateToolsTokens(r.tools, r.outputSchema, r.compact);
    var fixed := TEMPLATE_OVERHEAD_TOKENS + tools;
    var p := SplitTurns(r.messages);
    var d := Choose(ChoicesOf(r), r.window.tokens, r.limits.maxOutputTokens);
    var indices := Indices(r, d.kept);
    var (total, basis) := Estimate(costs, fixed, r.observed, indices);
    plan := ContextPlan(
      Pick(r.messages, indices), indices, r.window.tokens, r.window.source,
      if r.window.tokens.Some? then Some(InputBudget(r.window.tokens.value, d.output)) else None,
      total, basis, |r.messages| - |indices|, |p.turns| - d.kept,
      r.limits.maxOutputTokens, d.output, d.failure, d.failureCode);
  }

  // ---------------------------------------------------------------------------------------
  // Shape of the window
  // ---------------------------------------------------------------------------------------

  /** Every planned window is the instructions plus a run of whole turns up to the newest
      message, in transcript order, with the newest user message and all that follows it. */
  lemma WindowShape(r: Request)
    ensures var plan := PlanOf(r);
            var system := |Partitioned(r.messages).system|; var cut := Cut(r.messages, Decided(r).kept);
            && system <= cut <= |r.messages|
            && plan.indices == Range(0, system) + Range(cut, |r.messages|)
            && plan.messages == r.messages[..system] + r.messages[cut..]
            && plan.droppedMessages == cut - system
            && (plan.Reduced() ==> cut < |r.messages| && r.messages[cut].role.User?)
  {
    var kept := Decided(r).kept;
    SuffixIsContiguous(r.messages, kept);
    PickSuffix(r.messages, kept, Indices(r, kept));
  }

  /** Messages leave the window exactly when a turn does. */
  lemma DroppedTogether(r: Request)
    ensures PlanOf(r).Reduced() <==> PlanOf(r).droppedTurns > 0
  {
    var kept, turns := Decided(r).kept, |Partitioned(r.messages).turns|;
    SuffixIsContiguous(r.messages, kept);
    SuffixIsContiguous(r.messages, turns);
    if kept < turns {
      CutDecreases(r.messages, kept, turns);
    }
  }

  /** A closed transcript is only ever sent as closed windows. */
  lemma PlannedWindowClosed(r: Request)
    requires ToolClosed(r.messages)
    ensures ToolClosed(PlanOf(r).messages)
  {
    WindowClosed(r.messages, Decided(r).kept, Indices(r, Decided(r).kept));
  }

  // ---------------------------------------------------------------------------------------
  // Sizes
  // ---------------------------------------------------------------------------------------

  lemma {:induction false} CostOfConcat(costs: seq<nat>, a: seq<nat>, b: seq<nat>, skip: set<nat>)
    ensures CostOf(costs, a + b, skip) == CostOf(costs, a, skip) + CostOf(costs, b, skip)
  {
    if a == [] {
      assert a + b == b;
    } else {
      assert (a + b)[1..] == a[1..] + b;
      CostOfConcat(costs, a[1..], b, skip);
    }
  }

  lemma CostOfPositive(costs: seq<nat>, indices: seq<nat>, skip: set<nat>)
    requires indices != [] && indices[0] < |costs| && indices[0] !in skip
    requires forall i | 0 <= i < |costs| :: costs[i] > 0
    ensures CostOf(costs, indices, skip) > 0
  {
  }

  lemma RangeSplits(a: nat, b: nat, n: nat)
    requires a <= b <= n
    ensures Range(a, n) == Range(a, b) + Range(b, n)
  {
  }

  lemma CostGrows(costs: seq<nat>, system: nat, a: nat, b: nat, skip: set<nat>)
    requires a < b <= |costs| && a !in skip
    requires forall i | 0 <= i < |costs| :: costs[i] > 0
    ensures CostOf(costs, Range(0, system) + Range(b, |costs|), skip)
         < CostOf(costs, Range(0, system) + Range(a, |costs|), skip)
  {
    var low, middle, high := Range(0, system), Range(a, b), Range(b, |costs|);
    RangeSplits(a, b, |costs|);
    CostOfConcat(costs, low, middle + high, skip);
    CostOfConcat(costs, middle, high, skip);
    CostOfConcat(costs, low, high, skip);
    assert middle[0] == a;
    CostOfPositive(costs, middle, skip);
  }

  /** A wider window contains the narrower one and costs strictly more on the same basis. */
  lemma SizeGrows(r: Request, fewer: nat, more: nat)
    requires Searched(Partitioned(r.messages), fewer) && fewer < more <= |Partitioned(r.messages).turns|
    requires BasisOf(r, fewer) == BasisOf(r, more)
    ensures Size(r, fewer) < Size(r, more)
  {
    var system, a, b := |Partitioned(r.messages).system|, Cut(r.messages, more), Cut(r.messages, fewer);
    SuffixIsContiguous(r.messages, fewer);
    SuffixIsContiguous(r.messages, more);
    CutDecreases(r.messages, fewer, more);
    var skip := if BasisOf(r, fewer).Calibrated? then r.observed.value.indices else {};
    assert a !in Range(0, system) && a !in Range(b, |r.messages|);
    assert a !in Indices(r, fewer);
    assert a !in skip;
    CostGrows(Costs(r), system, a, b, skip);
  }

  /** The calibrated windows are the larger ones: extending one keeps it calibrated. */
  lemma CalibrationIsUpward(r: Request, fewer: nat, more: nat)
    requires Searched(Partitioned(r.messages), fewer) && fewer < more <= |Partitioned(r.messages).turns|
    requires BasisOf(r, fewer).Calibrated?
    ensures BasisOf(r, more).Calibrated?
  {
    var ms := r.messages;
    SuffixIsContiguous(ms, fewer);
    SuffixIsContiguous(ms, more);
    CutDecreases(ms, fewer, more);
    var s, a, b := |Partitioned(ms).system|, Cut(ms, more), Cut(ms, fewer);
    forall i | i in r.observed.value.indices ensures i in Indices(r, more) {
      assert i in Indices(r, fewer);
      if i in Range(b, |ms|) {
        assert Range(a, |ms|)[i - a] == i;
      } else {
        assert i in Range(0, s);
      }
    }
  }

  /** The smallest number from which on `good` holds throughout, going down from `hi`. */
  function StartOf(good: nat -> bool, hi: nat): (from: nat)
    ensures from <= hi
    ensures forall k: nat | from <= k < hi :: good(k)
    ensures from > 0 ==> !good(from - 1)
  {
    if hi > 0 && good(hi - 1) then StartOf(good, hi - 1) else hi
  }

  predicate SizedByCount(r: Request, k: nat) {
    Searched(Partitioned(r.messages), k) && BasisOf(r, k).Calibrated?
  }

  function CountSizes(r: Request): nat -> bool { (k: nat) => SizedByCount(r, k) }

  /** Smallest count of kept turns sized from the provider's own count, one past the number
      of turns when there is none. */
  function CalibratedFrom(r: Request): nat {
    StartOf(CountSizes(r), |Partitioned(r.messages).turns| + 1)
  }

  lemma StartIsExact(good: nat -> bool, hi: nat, k: nat)
    requires k < hi && forall a: nat, b: nat | a < b < hi && good(a) :: good(b)
    ensures good(k) <==> k >= StartOf(good, hi)
  {
  }

  lemma CountSizesUpward(r: Request, a: nat, b: nat)
    requires a < b <= |Partitioned(r.messages).turns| && CountSizes(r)(a)
    ensures CountSizes(r)(b)
  {
    CalibrationIsUpward(r, a, b);
  }

  lemma CalibratedExactlyFrom(r: Request, k: nat)
    requires Searched(Partitioned(r.messages), k)
    ensures BasisOf(r, k).Calibrated? <==> k >= CalibratedFrom(r)
  {
    var turns := |Partitioned(r.messages).turns|;
    forall a: nat, b: nat | a < b < turns + 1 && CountSizes(r)(a) ensures CountSizes(r)(b) {
      CountSizesUpward(r, a, b);
    }
    StartIsExact(CountSizes(r), turns + 1, k);
    assert CountSizes(r)(k) <==> BasisOf(r, k).Calibrated?;
  }

  /** Size is not monotone in the turns kept, but it is on either side of one threshold. */
  lemma SizesGrowInRegions(r: Request)
    ensures GrowsInRegions(ChoicesOf(r), CalibratedFrom(r))
    ensures forall k: nat | Searched(Partitioned(r.messages), k) ::
            BasisOf(r, k).Calibrated? <==> k >= CalibratedFrom(r)
  {
    var from := CalibratedFrom(r);
    forall k: nat | Searched(Partitioned(r.messages), k) ensures BasisOf(r, k).Calibrated? <==> k >= from {
      CalibratedExactlyFrom(r, k);
    }
    forall a: nat, b: nat | Searched(Partitioned(r.messages), a) && Searched(Partitioned(r.messages), b)
                            && a < b && (b < from || from <= a)
      ensures Size(r, a) < Size(r, b)
    {
      CalibratedExactlyFrom(r, a);
      CalibratedExactlyFrom(r, b);
      SizeGrows(r, a, b);
    }
  }

  /** The provider counted at least one token, so no window is sized at zero. */
  predicate CountsArePositive(r: Request) {
    r.observed.Some? ==> r.observed.value.promptTokens > 0
  }

  // ---------------------------------------------------------------------------------------
  // Main results
  // ---------------------------------------------------------------------------------------

  /** A plan without failure holds prompt, output and margin inside the capacity, keeps the
      output between the floor and the configured allowance, and fits the character ceiling. */
  lemma PlanIsSound(r: Request)
    requires PlanOf(r).failure.None?
    ensures var plan := PlanOf(r);
            && r.measure(plan.messages) <= r.limits.maxInputChars
            && plan.allocatedOutputTokens <= plan.configuredOutputTokens == r.limits.maxOutputTokens
            && (r.window.tokens.None? ==> !plan.OutputReduced())
            && (r.window.tokens.Some? ==>
                  && OutputFloor(r.limits.maxOutputTokens) <= plan.allocatedOutputTokens
                  && plan.estimatedPromptTokens + plan.allocatedOutputTokens
                     + OutputMargin(r.window.tokens.value) <= r.window.tokens.value
                  && plan.estimatedPromptTokens <= plan.budgetTokens.value)
  {
    var c := ChoicesOf(r);
    if r.window.tokens.Some? {
      SentWindowIsSound(c, r.window.tokens.value, r.limits.maxOutputTokens);
    } else {
      UnknownCapacity(c, r.limits.maxOutputTokens);
    }
  }

  /** The allocation is reduced exactly when no window of whole turns fits beside the
      configured allowance, and then the window is the mandatory one or the smallest fitting
      extension of the counted prompt, of smallest size among all fitting windows. */
  lemma ReducedAllocationIsOptimal(r: Request, capacity: nat)
    requires CountsArePositive(r) && r.window.tokens == Some(capacity)
    requires PlanOf(r).failure.None?
    ensures var c := ChoicesOf(r); var plan := PlanOf(r); var kept := Decided(r).kept;
            && (plan.OutputReduced() <==>
                  forall k: nat :: !FitsFully(c, capacity, r.limits.maxOutputTokens, k))
            && (plan.OutputReduced() ==>
                  && capacity < SMALL_CONTEXT_TOKENS
                  && IsSmallest(c, c.Mandatory(), kept)
                  && plan.allocatedOutputTokens == capacity - OutputMargin(capacity) - plan.estimatedPromptTokens
                  && (kept == c.Mandatory()
                      || (plan.basis.Calibrated? &&
                          forall k: nat | k < kept && Searched(Partitioned(r.messages), k)
                              && BasisOf(r, k).Calibrated? ::
                            !FitsChars(r, k))))
            && (!plan.OutputReduced() ==>
                  && FitsFully(c, capacity, r.limits.maxOutputTokens, kept)
                  && forall k: nat | FitsFully(c, capacity, r.limits.maxOutputTokens, k) :: k <= kept)
  {
    var c := ChoicesOf(r);
    SizesArePositive(r);
    OutputShrinksExactlyUnderPressure(c, capacity, r.limits.maxOutputTokens);
    if PlanOf(r).OutputReduced() {
      FallbackIsOptimal(c, capacity, r.limits.maxOutputTokens);
      SizesGrowInRegions(r);
      FirstPassIsExact(c, capacity, r.limits.maxOutputTokens);
      FallbackPicksOneOfTwo(c, CalibratedFrom(r), Decided(r).kept);
    }
  }

  lemma SizesArePositive(r: Request)
    requires CountsArePositive(r)
    ensures forall k: nat :: ChoicesOf(r).size(k) > 0
  {
  }

  /** Exactly when planning fails, by which limit, for every capacity. */
  lemma PlanFailsExactly(r: Request)
    requires CountsArePositive(r)
    ensures var c := ChoicesOf(r); var plan := PlanOf(r); var configured := r.limits.maxOutputTokens;
            match r.window.tokens
            case None => plan.failure.Some? <==> forall k: nat | c.Candidate(k) :: !c.fits(k)
            case Some(capacity) =>
              if !c.fits(c.Mandatory()) || capacity >= SMALL_CONTEXT_TOKENS then
                plan.failure.Some? <==> forall k: nat :: !FitsFully(c, capacity, configured, k)
              else
                plan.failure.Some? <==>
                forall k: nat | c.Candidate(k) && c.fits(k) ::
                  c.size(k) + OutputMargin(capacity) + OutputFloor(configured) > capacity
    ensures PlanOf(r).failure.Some? ==>
              (PlanOf(r).failureCode.InputExceeded? <==> !ChoicesOf(r).fits(ChoicesOf(r).Mandatory()))
    ensures PlanOf(r).failure.Some? ==> PlanOf(r).allocatedOutputTokens == r.limits.maxOutputTokens
  {
    var c, configured := ChoicesOf(r), r.limits.maxOutputTokens;
    SizesArePositive(r);
    if r.window.tokens.None? {
      UnknownCapacity(c, configured);
      assert c.Candidate(c.Mandatory());
    } else {
      var capacity := r.window.tokens.value;
      InputLimitBlamedExactly(c, capacity, configured);
      if c.fits(c.Mandatory()) {
        if capacity < SMALL_CONTEXT_TOKENS {
          SmallContextFailsExactly(c, capacity, configured);
        } else {
          LargeContextFailsExactly(c, capacity, configured);
        }
      } else {
        OutputShrinksExactlyUnderPressure(c, capacity, configured);
      }
    }
  }
}
