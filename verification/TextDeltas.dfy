/** Coalescing streamed text into a bounded number of log entries. */
module TextDeltas {
  import opened Contracts
  import opened SessionEvents

  const STREAM_EVENT_CHARS: nat := 128
  const STREAM_EVENT_BUDGET: nat := 256

  datatype Emitter = Emitter(
    round: nat,
    pending: string,
    text: string,
    emittedOnce: bool,
    emittedEvents: nat,
    eventBudget: nat,
    chunkChars: nat)

  /** The emitter of a call, if the log has room for at least two deltas. */
  function NewEmitter(eventCount: nat, round: nat, remainingChars: nat): Option<Emitter> {
    var budget := Min(STREAM_EVENT_BUDGET, MAX_EVENTS - eventCount - 1);
    if budget < 2 then None
    else
      var later := budget - 1;
      Some(Emitter(round, "", "", false, 0, budget, Max(STREAM_EVENT_CHARS, (remainingChars + later - 1) / later)))
  }

  /** Writes the pending text, if any; no room in the budget or the log is an error. */
  function Flushed(e: Emitter, events: seq<Event>): Option<(Emitter, seq<Event>)> {
    if e.pending == "" then Some((e, events))
    else if e.emittedEvents >= e.eventBudget || !HasRoom(events, TextDelta(e.round, e.pending)) then None
    else Some((e.(pending := "", emittedOnce := true, emittedEvents := e.emittedEvents + 1),
               Logged(events, TextDelta(e.round, e.pending))))
  }

  /** One fragment: refused when empty or over the output limit, else noted and perhaps written. */
  function Pushed(e: Emitter, events: seq<Event>, delta: string, remainingChars: nat)
    : (Emitter, seq<Event>, Option<Code>)
  {
    if delta == "" then (e, events, Some(InvalidProviderResponse))
    else if |e.text| + |delta| > remainingChars then (e, events, Some(OutputLimitExceeded))
    else
      var noted := e.(text := e.text + delta, pending := e.pending + delta);
      if noted.emittedOnce && |noted.pending| < noted.chunkChars then (noted, events, None)
      else match Flushed(noted, events)
        case None => (noted, events, Some(EventLimitExceeded))
        case Some((after, logged)) => (after, logged, None)
  }

  /** Between fragments: what was written, what is pending, and what the budget still covers. */
  ghost predicate Bounded(e: Emitter, events: seq<Event>, remainingChars: nat) {
    && 2 <= e.eventBudget <= STREAM_EVENT_BUDGET
    && e.eventBudget + |events| <= e.emittedEvents + MAX_EVENTS - 1
    && (e.eventBudget - 1) * e.chunkChars >= remainingChars
    && |e.pending| <= |e.text| <= remainingChars
    && (e.emittedOnce <==> e.emittedEvents > 0)
    && (e.emittedEvents == 0 ==> e.text == "")
    && (e.emittedEvents > 0 ==> 1 + (e.emittedEvents - 1) * e.chunkChars <= |e.text| - |e.pending|)
  }

  lemma CeilingCovers(n: nat, d: nat)
    requires d > 0
    ensures d * ((n + d - 1) / d) >= n
  {
  }

  lemma NewEmitterIsBounded(events: seq<Event>, round: nat, remainingChars: nat)
    requires NewEmitter(|events|, round, remainingChars).Some?
    ensures Bounded(NewEmitter(|events|, round, remainingChars).value, events, remainingChars)
  {
    var e := NewEmitter(|events|, round, remainingChars).value;
    CeilingCovers(remainingChars, e.eventBudget - 1);
    Product(e.eventBudget - 1, (remainingChars + e.eventBudget - 2) / (e.eventBudget - 1), e.chunkChars);
  }

  lemma Product(a: nat, b: nat, c: nat)
    requires b <= c
    ensures a * b <= a * c
  {
  }

  /** Text still pending means that the budget is not used up. */
  lemma BudgetRemains(e: Emitter, events: seq<Event>, remainingChars: nat)
    requires Bounded(e, events, remainingChars) && e.pending != ""
    ensures e.emittedEvents < e.eventBudget
    ensures HasRoom(events, TextDelta(e.round, e.pending))
  {
    if e.emittedEvents >= e.eventBudget {
      Product(e.chunkChars, e.eventBudget - 1, e.emittedEvents - 1);
    }
  }

  /** The final flush, or the one after a refused fragment, always finds room. */
  lemma FlushSucceeds(e: Emitter, events: seq<Event>, remainingChars: nat)
    requires Bounded(e, events, remainingChars)
    ensures Flushed(e, events).Some?
  {
    if e.pending != "" {
      BudgetRemains(e, events, remainingChars);
    }
  }

  /** The guard in the flush is unreachable: a fragment inside the output limit is never refused,
      and the bounds hold again. */
  lemma PushSucceeds(e: Emitter, events: seq<Event>, delta: string, remainingChars: nat)
    requires Bounded(e, events, remainingChars)
    ensures var (after, logged, failure) := Pushed(e, events, delta, remainingChars);
            && Bounded(after, logged, remainingChars)
            && (failure.None? <==> delta != "" && |e.text| + |delta| <= remainingChars)
            && failure != Some(EventLimitExceeded)
  {
    var noted := e.(text := e.text + delta, pending := e.pending + delta);
    if delta != "" && |e.text| + |delta| <= remainingChars {
      if e.emittedEvents == 0 {
        assert HasRoom(events, TextDelta(noted.round, noted.pending));
        WrittenIsBounded(noted, events, remainingChars);
      } else {
        assert Bounded(noted, events, remainingChars);
        if |noted.pending| >= noted.chunkChars {
          BudgetRemains(noted, events, remainingChars);
          WrittenIsBounded(noted, events, remainingChars);
        }
      }
    }
  }

  /** Writing the first text, or a full chunk, keeps the bounds. */
  lemma WrittenIsBounded(e: Emitter, events: seq<Event>, remainingChars: nat)
    requires e.pending != "" && |e.pending| <= |e.text| <= remainingChars
    requires e.emittedEvents < e.eventBudget && HasRoom(events, TextDelta(e.round, e.pending))
    requires e.emittedEvents == 0 || (|e.pending| >= e.chunkChars && Bounded(e, events, remainingChars))
    requires 2 <= e.eventBudget <= STREAM_EVENT_BUDGET
    requires e.eventBudget + |events| <= e.emittedEvents + MAX_EVENTS - 1
    requires (e.eventBudget - 1) * e.chunkChars >= remainingChars
    ensures Flushed(e, events).Some?
    ensures Bounded(Flushed(e, events).value.0, Flushed(e, events).value.1, remainingChars)
  {
    assert e.emittedEvents > 0 ==>
        (e.emittedEvents - 1) * e.chunkChars + e.chunkChars == e.emittedEvents * e.chunkChars;
  }

  lemma Rejoined(a: string, b: string, c: string)
    ensures a + (b + c) == a + b + c
    ensures a + b + "" == a + b
  {
  }

  /** Everything pushed is either written for this round or pending. */
  lemma PushKeepsText(e: Emitter, events: seq<Event>, delta: string, remainingChars: nat)
    requires RoundText(events, e.round) + e.pending == e.text
    ensures var (after, logged, failure) := Pushed(e, events, delta, remainingChars);
            && after.round == e.round
            && RoundText(logged, e.round) + after.pending == after.text
            && (failure.None? ==> after.text == e.text + delta)
            && (failure.Some? ==> failure == Some(EventLimitExceeded) || (after == e && logged == events))
  {
    Rejoined(RoundText(events, e.round), e.pending, delta);
    LoggedSteps(events, TextDelta(e.round, e.pending + delta));
  }

  lemma FlushKeepsText(e: Emitter, events: seq<Event>)
    requires RoundText(events, e.round) + e.pending == e.text && Flushed(e, events).Some?
    ensures RoundText(Flushed(e, events).value.1, e.round) == e.text
  {
    LoggedSteps(events, TextDelta(e.round, e.pending));
  }

  // ---------------------------------------------------------------------------------------
  // A whole call
  // ---------------------------------------------------------------------------------------

  function PushedAll(e: Emitter, events: seq<Event>, deltas: seq<string>, remainingChars: nat)
    : (Emitter, seq<Event>, Option<Code>)
  {
    if deltas == [] then (e, events, None)
    else
      var (before, logged, failure) := PushedAll(e, events, deltas[..|deltas| - 1], remainingChars);
      if failure.Some? then (before, logged, failure)
      else Pushed(before, logged, deltas[|deltas| - 1], remainingChars)
  }

  function TotalText(deltas: seq<string>): string {
    if deltas == [] then "" else TotalText(deltas[..|deltas| - 1]) + deltas[|deltas| - 1]
  }

  lemma {:induction false} PushedAllKeeps(e: Emitter, events: seq<Event>, deltas: seq<string>, remainingChars: nat)
    requires Bounded(e, events, remainingChars) && e.text == "" && e.pending == ""
    requires RoundText(events, e.round) == ""
    ensures var (after, logged, failure) := PushedAll(e, events, deltas, remainingChars);
            && Bounded(after, logged, remainingChars)
            && after.round == e.round && after.eventBudget == e.eventBudget
            && |logged| == |events| + after.emittedEvents - e.emittedEvents
            && RoundText(logged, e.round) + after.pending == after.text
            && failure != Some(EventLimitExceeded)
            && (failure.None? ==> after.text == TotalText(deltas))
    ensures (forall i | 0 <= i < |deltas| :: deltas[i] != "") && |TotalText(deltas)| <= remainingChars ==>
              PushedAll(e, events, deltas, remainingChars).2.None?
  {
    if deltas != [] {
      var n := |deltas| - 1;
      PushedAllKeeps(e, events, deltas[..n], remainingChars);
      var (before, logged, failure) := PushedAll(e, events, deltas[..n], remainingChars);
      if failure.None? {
        PushSucceeds(before, logged, deltas[n], remainingChars);
        PushKeepsText(before, logged, deltas[n], remainingChars);
      }
    }
  }

  lemma WithinBudget(e: Emitter, events: seq<Event>, remainingChars: nat)
    requires Bounded(e, events, remainingChars)
    ensures e.emittedEvents <= e.eventBudget
    ensures e.pending != "" ==> e.emittedEvents < e.eventBudget
  {
    if e.pending != "" {
      BudgetRemains(e, events, remainingChars);
    } else if e.emittedEvents > e.eventBudget {
      Product(e.chunkChars, e.eventBudget - 1, e.emittedEvents - 1);
    }
  }

  lemma LastFlush(e: Emitter, before: nat, events: seq<Event>, remainingChars: nat)
    requires Bounded(e, events, remainingChars) && |events| == before + e.emittedEvents
    requires RoundText(events, e.round) + e.pending == e.text
    ensures Flushed(e, events).Some?
    ensures var (last, all) := Flushed(e, events).value;
            && |all| - before == last.emittedEvents <= e.eventBudget && |all| < MAX_EVENTS
            && RoundText(all, e.round) == e.text
  {
    FlushSucceeds(e, events, remainingChars);
    FlushKeepsText(e, events);
    WithinBudget(e, events, remainingChars);
  }

  /** Any call: first flush, threshold flushes and final flush together stay within the budget,
      none of them raises, and the logged deltas join to exactly the pushed text. */
  lemma CallNeverExhaustsBudget(events: seq<Event>, round: nat, deltas: seq<string>, remainingChars: nat)
    requires NewEmitter(|events|, round, remainingChars).Some?
    requires RoundText(events, round) == ""
    requires forall i | 0 <= i < |deltas| :: deltas[i] != ""
    requires |TotalText(deltas)| <= remainingChars
    ensures var e := NewEmitter(|events|, round, remainingChars).value;
            var (after, logged, failure) := PushedAll(e, events, deltas, remainingChars);
            && failure.None? && Flushed(after, logged).Some?
            && var (last, all) := Flushed(after, logged).value;
               && |all| - |events| == last.emittedEvents <= e.eventBudget
               && |all| < MAX_EVENTS
               && RoundText(all, round) == TotalText(deltas)
  {
    var e := NewEmitter(|events|, round, remainingChars).value;
    NewEmitterIsBounded(events, round, remainingChars);
    PushedAllKeeps(e, events, deltas, remainingChars);
    var (after, logged, failure) := PushedAll(e, events, deltas, remainingChars);
    LastFlush(after, |events|, logged, remainingChars);
  }
}
