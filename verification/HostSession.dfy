/** The host's session record: a bounded event list answering cursors, and the loop that drives
    the runtime. Every method performs the matching function of the host machine. */
module HostSessionObjects {
  import opened Contracts
  import opened SessionEvents
  import opened HostMachine
  import opened HostRuns

  datatype CursorError = InvalidCursor | StaleCursor

  class HostSession {
    const cfg: Config
    const maxEvents: nat
    var events: seq<HostEvent>
    var nextEventSequence: nat
    var eventCount: nat
    var runtimeCursor: nat
    var toolRounds: nat
    var status: HostStatus
    var continuing: bool
    /** Everything ever logged; `events` holds the end of it. */
    ghost var history: seq<HostEvent>

    /** The list is the end of the history, as much of it as the bound allows. */
    ghost predicate LogValid()
      reads this
    {
      && maxEvents >= 1
      && HostNumbered(history)
      && nextEventSequence == |history| + 1
      && |events| == Min(maxEvents, |history|)
      && events == history[|history| - |events|..]
    }

    /** The published event count is up to date. */
    ghost predicate Valid()
      reads this
    {
      LogValid() && eventCount == |history|
    }

    ghost function State(driver: Option<Driver>): HostState
      reads this
    {
      HostState(history, runtimeCursor, toolRounds, status, continuing, driver)
    }

    constructor (cfg: Config, maxEvents: nat)
      requires maxEvents >= 1
      ensures Valid() && this.cfg == cfg && this.maxEvents == maxEvents
      ensures State(Some(Driver(None, 0, 0))) == JustStarted()
    {
      this.cfg, this.maxEvents := cfg, maxEvents;
      events, nextEventSequence, eventCount, history := [], 1, 0, [];
      runtimeCursor, toolRounds, status, continuing := 0, 0, HostRunning, false;
      new;
      AddEvent(SessionStarted(false));
    }

    /** Appends an event and forgets the oldest one beyond the bound. */
    method AddEvent(kind: HostKind)
      requires LogValid()
      modifies this`events, this`nextEventSequence, this`eventCount, this`history
      ensures Valid() && history == Recorded(old(history), kind)
    {
      var sequence := nextEventSequence;
      nextEventSequence := nextEventSequence + 1;
      events := events + [HostEvent(sequence, kind)];
      history := history + [HostEvent(sequence, kind)];
      assert events == history[|history| - |events|..];
      if |events| > maxEvents {
        events := events[1..];
      }
      eventCount := sequence;
    }

    /** The events after a cursor: all of them, in order, or a stale cursor exactly when one of
        them is already forgotten. */
    method EventsAfter(after: int) returns (found: Result<seq<HostEvent>, CursorError>)
      requires Valid()
      ensures found == Err(InvalidCursor) <==> after < 0 || after > |history|
      ensures found == Err(StaleCursor) <==>
                0 <= after <= |history| && exists e :: e in history && e.sequence > after && e !in events
      ensures found.Ok? ==> 0 <= after <= |history| && found.value == history[after..]
    {
      if after < 0 || after > eventCount {
        return Err(InvalidCursor);
      }
      var earliest := if events != [] then events[0].sequence else nextEventSequence;
      if after < earliest - 1 {
        assert history[after].sequence == after + 1;
        assert history[after] in history && history[after] !in events;
        return Err(StaleCursor);
      }
      assert forall e | e in history && e.sequence > after :: e in events by {
        Retained(after);
      }
      var selected := Select(after);
      found := Ok(selected);
    }

    /** The loop over the retained events. */
    method Select(after: nat) returns (selected: seq<HostEvent>)
      requires LogValid() && |history| - |events| <= after <= |history|
      ensures selected == history[after..]
    {
      selected := [];
      ghost var gone := |history| - |events|;
      for i := 0 to |events|
        invariant selected == if gone + i <= after then [] else history[after..gone + i]
      {
        if events[i].sequence > after {
          assert history[after..gone + i + 1] == history[after..gone + i] + [history[gone + i]];
          selected := selected + [events[i]];
        }
      }
      assert history[after..|history|] == history[after..];
    }

    lemma Retained(after: nat)
      requires Valid() && |history| - |events| <= after
      ensures forall e | e in history && e.sequence > after :: e in events
    {
      forall e | e in history && e.sequence > after ensures e in events {
        var i :| 0 <= i < |history| && history[i] == e;
        assert events[i - (|history| - |events|)] == e;
      }
    }

    /** Relays one log entry; true when its payload is refused. */
    method NormalizeRuntimeEvent(event: Event) returns (refused: bool)
      requires Valid()
      modifies this`events, this`nextEventSequence, this`eventCount, this`history
      ensures Valid() && refused == Refused(event)
      ensures var image := Image(event);
              history == if image.Some? then Recorded(old(history), image.value) else old(history)
    {
      refused := false;
      if event.kind.ProviderStarted? {
        AddEvent(ModelWorking);
      } else if event.kind.TextDelta? {
        if !IsSafe(event.kind.round) || event.kind.round < 1 || event.kind.delta == "" {
          return true;
        }
        AddEvent(AssistantTextDelta(event.kind.round, event.kind.delta));
      } else if event.kind.ContextReduced? {
        var reduction := event.kind.reduction;
        if !IsSafe(event.kind.round) || !CountsAreSafe(reduction) {
          return true;
        }
        var outputReduced := reduction.allocatedOutputTokens < reduction.configuredOutputTokens;
        if reduction.droppedMessages < 1 && !outputReduced {
          return true;
        }
        AddEvent(ContextNarrowed(event.kind.round, reduction));
      } else if event.kind.ToolRequests? {
        AddEvent(ToolsRequested(Names(event.kind.requests)));
      } else if event.kind.ToolResultsReceived? {
        AddEvent(ToolsCompleted(event.kind.count));
      }
    }

    /** Reads a stream to its end, or up to the first refused entry. */
    method RelayStream(entries: seq<Event>, ghost driver: Option<Driver>) returns (fault: Option<Fault>)
      requires Valid()
      modifies this
      ensures Valid() && (State(driver), fault) == RelayAll(old(State(driver)), entries)
    {
      for i := 0 to |entries|
        invariant Valid()
        invariant RelayAll(State(driver), entries[i..]) == RelayAll(old(State(driver)), entries)
      {
        ghost var before := State(driver);
        RelayAllStep(before, entries, i);
        runtimeCursor := entries[i].sequence;
        var refused := NormalizeRuntimeEvent(entries[i]);
        assert State(driver) == Relay(before, entries[i]);
        if refused {
          return Some(Error("invalid_runtime_event"));
        }
      }
      fault := None;
    }

    /** The requests that may not be executed without an approval. */
    method CollectBlocked(execute: ToolRequest -> Result<bool, Fault>, pending: seq<ToolRequest>)
      returns (blocked: Result<seq<ToolRequest>, Fault>)
      ensures blocked == Blocked(execute, pending)
    {
      var collected: seq<ToolRequest> := [];
      for i := 0 to |pending|
        invariant Blocked(execute, pending[..i]) == Ok(collected)
      {
        assert pending[..i + 1][..i] == pending[..i];
        match execute(pending[i]) {
          case Err(fault) =>
            FaultDecides(execute, pending, i + 1);
            return Err(fault);
          case Ok(allowed) =>
            if !allowed {
              collected := collected + [pending[i]];
            }
        }
      }
      assert pending[..|pending|] == pending;
      blocked := Ok(collected);
    }

    method MarkTerminal(status: HostStatus, kind: HostKind)
      requires Valid()
      modifies this
      ensures Valid()
      ensures forall d :: State(d) == EndTurn(old(State(d)), status, kind)
    {
      this.status := status;
      AddEvent(kind);
    }

    /** Tools are executed and their results submitted, or an approval is asked for. */
    method TakeToolRequests(reply: Reply, poll: Poll, ghost driver: Option<Driver>) returns (verdict: Verdict)
      requires Valid()
      modifies this
      ensures Valid() && (State(driver), verdict) == AnswerTools(cfg, old(State(driver)), reply, poll)
    {
      toolRounds := toolRounds + 1;
      if toolRounds > cfg.maxToolRounds {
        return Threw(Error("tool_round_limit_reached"));
      }
      if reply.pendingTools.None? || !ProperRequests(reply.pendingTools.value) {
        return Threw(Error("invalid_runtime_response"));
      }
      var blocked := CollectBlocked(poll.execute, reply.pendingTools.value);
      if blocked.Err? {
        return Threw(blocked.error);
      }
      if blocked.value != [] {
        MarkTerminal(HostApprovalRequired, ApprovalRequired(Names(blocked.value)));
        return Returned;
      }
      if poll.followUp.Some? {
        return Threw(poll.followUp.value);
      }
      verdict := Again(Driver(Some(WaitingForTool), 0, runtimeCursor));
    }

    /** Acts on the session state read after a stream has ended. */
    method TakeReply(reply: Reply, poll: Poll, driver: Driver) returns (verdict: Verdict)
      requires Valid()
      modifies this
      ensures Valid()
      ensures (State(Some(driver)), verdict) == AnswerReply(cfg, old(State(Some(driver))), driver, reply, poll)
    {
      match reply.status {
        case WaitingForTool =>
          verdict := TakeToolRequests(reply, poll, Some(driver));
        case Completed =>
          MarkTerminal(HostCompleted, TurnCompleted(reply.finalText));
          verdict := Returned;
        case Failed =>
          var code := if reply.failureCode.Some? then reply.failureCode.value else "runtime_failure";
          MarkTerminal(HostFailed, TurnFailed(code));
          verdict := Returned;
        case Canceled =>
          MarkTerminal(HostCanceled, TurnCanceled);
          verdict := Returned;
        case _ =>
          var madeProgress := runtimeCursor != driver.cursorBefore || Some(reply.status) != driver.lastStatus;
          var idlePolls := if madeProgress then 0 else driver.idlePolls + 1;
          if idlePolls >= cfg.maxIdlePolls {
            return Threw(Error("runtime_stream_stalled"));
          }
          if poll.followUp.Some? {
            return Threw(poll.followUp.value);
          }
          verdict := Again(Driver(Some(reply.status), idlePolls, runtimeCursor));
      }
    }

    method PollOnce(log: seq<Event>, poll: Poll, driver: Driver) returns (verdict: Verdict)
      requires Valid() && !poll.aborted
      modifies this
      ensures Valid()
      ensures (State(Some(driver)), verdict) == Polled(cfg, log, old(State(Some(driver))), poll)
    {
      var entries := if runtimeCursor <= poll.upTo <= |log| then log[runtimeCursor..poll.upTo] else [];
      var fault := RelayStream(entries, Some(driver));
      if fault.Some? {
        return Threw(fault.value);
      }
      if poll.streamFault.Some? {
        return Threw(poll.streamFault.value);
      }
      if poll.reply.Err? {
        return Threw(poll.reply.error);
      }
      verdict := TakeReply(poll.reply.value, poll, driver);
    }

    method SettleDriveFailure(fault: Fault, ghost driver: Option<Driver>)
      requires Valid()
      modifies this
      ensures Valid() && State(None) == Settled(old(State(driver)), fault)
    {
      match fault {
        case TimedOut => MarkTerminal(HostFailed, TurnFailed("session_timeout"));
        case Aborted => MarkTerminal(HostCanceled, TurnCanceled);
        case Error(code) => MarkTerminal(HostFailed, TurnFailed(code));
      }
    }

    /** Drives the runtime, poll after poll, until the turn has an outcome or the signal is found
        aborted. It always ends. */
    method Drive(log: seq<Event>, polls: nat -> Poll)
      requires Valid() && Numbered(log) && runtimeCursor <= |log|
      requires AllServe(polls)
      modifies this
      ensures Valid()
      ensures State(None)
           == Driven(cfg, log, old(State(Some(Driver(None, 0, runtimeCursor)))), polls, 0)
    {
      var driver := Driver(None, 0, runtimeCursor);
      var k: nat := 0;
      ghost var goal := Driven(cfg, log, State(Some(driver)), polls, 0);
      while !polls(k).aborted
        invariant Valid() && Ready(log, State(Some(driver)))
        invariant Driven(cfg, log, State(Some(driver)), polls, k) == goal
        decreases LeftRounds(cfg, State(Some(driver))), LeftEvents(log, State(Some(driver))),
                  NotYetRunning(State(Some(driver))), LeftIdle(cfg, State(Some(driver)))
      {
        PollGoesOn(cfg, log, State(Some(driver)), polls, k);
        var verdict := PollOnce(log, polls(k), driver);
        if verdict.Returned? {
          return;
        }
        if verdict.Threw? {
          SettleDriveFailure(verdict.fault, Some(driver));
          return;
        }
        driver := verdict.driver;
        k := k + 1;
      }
      PollGoesOn(cfg, log, State(Some(driver)), polls, k);
    }

    /** The end of a cancel request, when driving has stopped. */
    method FinishCancel()
      requires Valid()
      modifies this
      ensures Valid() && State(None) == CancelTail(old(State(None)))
    {
      if status.HostRunning? {
        MarkTerminal(HostCanceled, TurnCanceled);
      }
    }

    /** A follow-up is asked for. */
    method BeginContinue(valid: bool) returns (asked: bool)
      requires Valid()
      modifies this`continuing
      ensures Valid() && State(None) == Asked(old(State(None)), valid)
      ensures asked <==> continuing && !old(continuing)
    {
      if !status.HostCompleted? || continuing || !valid {
        return false;
      }
      continuing := true;
      asked := true;
    }

    /** The follow-up was refused, or it was accepted: then the next turn opens on the same log
        and cursor. */
    method FinishContinue(accepted: bool)
      requires Valid() && continuing
      modifies this
      ensures Valid()
      ensures State(if accepted then Some(Driver(None, 0, runtimeCursor)) else None)
           == AskAnswered(old(State(None)), accepted)
    {
      if accepted {
        status, eventCount := HostRunning, 0;
        AddEvent(SessionStarted(true));
      }
      continuing := false;
    }
  }

  lemma {:induction false} FaultDecides(execute: ToolRequest -> Result<bool, Fault>, pending: seq<ToolRequest>, n: nat)
    requires n <= |pending| && Blocked(execute, pending[..n]).Err?
    ensures Blocked(execute, pending) == Blocked(execute, pending[..n])
  {
    if n < |pending| {
      var front := pending[..|pending| - 1];
      assert front[..n] == pending[..n];
      FaultDecides(execute, front, n);
    } else {
      assert pending[..n] == pending;
    }
  }
}
