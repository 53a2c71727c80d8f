/** The lifecycle of the supervised runtime process. Starts, stops, clients' calls and process
    exits interleave at the points where a call waits; each step runs from one such point to
    the next. */
module SupervisorMachine {
  import opened Contracts

  /** A spawned process, with the generation it was spawned in. */
  datatype Process = Process(generation: nat, exited: bool, signalled: bool, killed: bool)

  /** Letting a process go: asked to terminate, then killed if it has not exited in time, and
      waited for once more. `Done` names the process, if there was one to let go. */
  datatype Leave = Terminating(process: nat) | Killing(process: nat) | Done(let: Option<nat>)

  /** Where a start waits: for the old child to go, for a health answer, for the pause between
      two health checks, or for its own child to go before it fails. `spawned` is the generation
      of the process it spawned; a start that connects spawns none. */
  datatype StartPhase =
    | Disposing(leave: Leave)
    | Checking(spawned: Option<nat>)
    | Pausing(spawned: Option<nat>)
    | Closing(leave: Leave)

  /** A stop that lets the child go and then waits for the start that was pending when it began.
      `undisturbed` until somebody asks for a start. */
  datatype Stopper = Stopper(waitsFor: Option<nat>, undisturbed: bool, leave: Leave)

  datatype Supervisor = Supervisor(
    child: Option<nat>,
    runtime: Option<nat>,
    startPromise: Option<nat>,
    unexpectedExit: bool,
    restarts: nat,
    stopped: bool,
    generation: nat,
    processes: seq<Process>,
    starts: map<nat, StartPhase>,
    nextStart: nat,
    stops: seq<Stopper>)

  datatype Options = Options(spawns: bool, maxRestarts: nat)

  datatype Health = Healthy | Incompatible | HostRefusal | Unreachable

  // ---------------------------------------------------------------------------------------
  // Segments
  // ---------------------------------------------------------------------------------------

  /** The current child, if any, is let go: signalled unless it has already exited. */
  function Disposed(s: Supervisor): Supervisor {
    var s1 := s.(child := None, generation := s.generation + 1);
    if s.child.None? || s.child.value >= |s.processes| || s.processes[s.child.value].exited then s1
    else s1.(processes := s.processes[s.child.value := s.processes[s.child.value].(signalled := true)])
  }

  predicate ChildGone(s: Supervisor) {
    s.child.None? || s.child.value >= |s.processes| || s.processes[s.child.value].exited
  }

  /** What the caller of the disposal waits for. */
  function LeaveOf(s: Supervisor): Leave {
    if ChildGone(s) then Done(None) else Terminating(s.child.value)
  }

  /** The end of a wait for a process to go: it has exited, or the time is over. */
  function LeaveOn(s: Supervisor, leave: Leave): (Supervisor, Leave) {
    match leave
    case Terminating(p) =>
      if p >= |s.processes| || s.processes[p].exited then (s, Done(Some(p)))
      else (s.(processes := s.processes[p := s.processes[p].(killed := true)]), Killing(p))
    case Killing(p) => (s, Done(Some(p)))
    case Done(_) => (s, leave)
  }

  function InPhase(s: Supervisor, id: nat, phase: StartPhase): Supervisor {
    s.(starts := s.starts[id := phase])
  }

  /** A start is over, with success or failure; its promise is cleared a moment later. */
  function Over(s: Supervisor, id: nat): Supervisor {
    s.(starts := s.starts - {id})
  }

  /** A new start up to its first wait. */
  function StartOnce(o: Options, s: Supervisor, id: nat): Supervisor {
    if s.stopped then s
    else if s.unexpectedExit && (!o.spawns || s.restarts >= o.maxRestarts) then s
    else
      var s1 := if s.unexpectedExit then s.(restarts := s.restarts + 1) else s;
      InPhase(Disposed(s1), id, Disposing(LeaveOf(s1)))
  }

  /** Joins the start under way or begins one, unless a runtime is there. */
  function EnsureStarted(o: Options, s: Supervisor): Supervisor {
    if (s.runtime.Some? && !s.unexpectedExit) || s.startPromise.Some? then s
    else
      var id := s.nextStart;
      StartOnce(o, s, id).(startPromise := Some(id), nextStart := id + 1)
  }

  function ClientCalls(o: Options, s: Supervisor): Supervisor {
    if s.stopped then s else EnsureStarted(o, s)
  }

  function Disturbed(stops: seq<Stopper>): seq<Stopper> {
    seq(|stops|, i requires 0 <= i < |stops| => stops[i].(undisturbed := false))
  }

  function StartCalls(o: Options, s: Supervisor): Supervisor {
    var s1 := if s.stopped then s.(stopped := false, restarts := 0, unexpectedExit := false) else s;
    EnsureStarted(o, s1.(stops := Disturbed(s.stops)))
  }

  /** The head of the loop that waits for a healthy runtime. */
  function LoopHead(s: Supervisor, id: nat, spawned: Option<nat>, late: bool): Supervisor {
    if late || s.stopped then InPhase(Disposed(s), id, Closing(LeaveOf(s)))
    else if spawned.Some? && (s.generation != spawned.value || ChildGone(s) || s.unexpectedExit)
    then InPhase(Disposed(s), id, Closing(LeaveOf(s)))
    else InPhase(s, id, Checking(spawned))
  }

  /** A new process is the child, in a generation of its own. */
  function Spawned(s: Supervisor): Supervisor {
    s.(generation := s.generation + 1, child := Some(|s.processes|),
       processes := s.processes + [Process(s.generation + 1, false, false, false)])
  }

  /** The old child is gone: spawn, or connect, and enter the loop. */
  function Launched(o: Options, s: Supervisor, id: nat, launches: bool, late: bool): Supervisor {
    var s1 := s.(unexpectedExit := false);
    if !launches then Over(s1, id)
    else if o.spawns then LoopHead(Spawned(s1), id, Some(s.generation + 1), late)
    else LoopHead(s1, id, None, late)
  }

  function Answered(s: Supervisor, id: nat, spawned: Option<nat>, health: Health): Supervisor {
    match health
    case Healthy =>
      if s.stopped then InPhase(Disposed(s), id, Closing(LeaveOf(s))) else Over(s.(runtime := Some(id)), id)
    case Incompatible => InPhase(Disposed(s), id, Closing(LeaveOf(s)))
    case HostRefusal => Over(s, id)
    case Unreachable => InPhase(s, id, Pausing(spawned))
  }

  /** What the handler of an exit or an error of a process does. */
  function Noticed(s: Supervisor, process: nat): Supervisor {
    if s.child == Some(process) && process < |s.processes| && s.generation == s.processes[process].generation
        && !s.stopped
    then s.(runtime := None, unexpectedExit := true)
    else s
  }

  function StopCalls(s: Supervisor): Supervisor {
    var s1 := Disposed(s.(stopped := true, runtime := None, unexpectedExit := false));
    s1.(stops := s.stops + [Stopper(s.startPromise, true, LeaveOf(s))])
  }

  // ---------------------------------------------------------------------------------------
  // Runs
  // ---------------------------------------------------------------------------------------

  datatype Move =
    | ClientMove
    | StartMove
    | LaunchMove(id: nat, launches: bool, late: bool)
    | HealthMove(id: nat, health: Health)
    | PauseMove(id: nat, late: bool)
    | CloseMove(id: nat)
    | ClearMove
    | StopMove
    | StartLeavesMove(id: nat)
    | StopLeavesMove(index: nat)
    | StopEndsMove(index: nat)
    | ExitMove(process: nat)
    | ErrorMove(process: nat)

  predicate CanMove(s: Supervisor, move: Move) {
    match move
    case LaunchMove(id, _, _) => id in s.starts && s.starts[id].Disposing? && s.starts[id].leave.Done?
    case HealthMove(id, _) => id in s.starts && s.starts[id].Checking?
    case PauseMove(id, _) => id in s.starts && s.starts[id].Pausing?
    case CloseMove(id) => id in s.starts && s.starts[id].Closing? && s.starts[id].leave.Done?
    case StartLeavesMove(id) => id in s.starts && (s.starts[id].Disposing? || s.starts[id].Closing?)
    case StopLeavesMove(i) => i < |s.stops|
    case ClearMove => s.startPromise.Some? && s.startPromise.value !in s.starts
    case StopEndsMove(i) =>
      && i < |s.stops| && s.stops[i].leave.Done?
      && (s.stops[i].waitsFor.Some? ==> s.stops[i].waitsFor.value !in s.starts)
    case ExitMove(process) => process < |s.processes|
    case ErrorMove(process) => process < |s.processes|
    case _ => true
  }

  function Moved(o: Options, s: Supervisor, move: Move): Supervisor
    requires CanMove(s, move)
  {
    match move
    case ClientMove => ClientCalls(o, s)
    case StartMove => StartCalls(o, s)
    case LaunchMove(id, launches, late) => Launched(o, s, id, launches, late)
    case HealthMove(id, health) => Answered(s, id, s.starts[id].spawned, health)
    case PauseMove(id, late) => LoopHead(s, id, s.starts[id].spawned, late)
    case CloseMove(id) => Over(s, id)
    case ClearMove => s.(startPromise := None)
    case StopMove => StopCalls(s)
    case StartLeavesMove(id) =>
      var (s1, leave) := LeaveOn(s, s.starts[id].leave);
      InPhase(s1, id, if s.starts[id].Disposing? then Disposing(leave) else Closing(leave))
    case StopLeavesMove(i) =>
      var (s1, leave) := LeaveOn(s, s.stops[i].leave);
      s1.(stops := s.stops[i := s.stops[i].(leave := leave)])
    case StopEndsMove(i) => s.(stops := s.stops[..i] + s.stops[i + 1..])
    case ExitMove(process) =>
      Noticed(s.(processes := s.processes[process := s.processes[process].(exited := true)]), process)
    case ErrorMove(process) => Noticed(s, process)
  }

  function Idle(): Supervisor {
    Supervisor(None, None, None, false, 0, false, 0, [], map[], 0, [])
  }

  ghost predicate MovesTo(o: Options, s: Supervisor, t: Supervisor) {
    exists move :: CanMove(s, move) && t == Moved(o, s, move)
  }

  ghost predicate IsHistory(o: Options, trace: seq<Supervisor>) {
    && trace != [] && trace[0] == Idle()
    && forall i | 0 <= i < |trace| - 1 :: MovesTo(o, trace[i], trace[i + 1])
  }

  // ---------------------------------------------------------------------------------------
  // What every reachable supervisor satisfies
  // ---------------------------------------------------------------------------------------

  /** At most one start is under way, and it is the one the promise stands for. */
  predicate SingleFlight(s: Supervisor) {
    && (forall id | id in s.starts :: s.startPromise == Some(id))
    && (s.startPromise.Some? ==> s.startPromise.value < s.nextStart)
  }

  predicate LetGo(process: Process) { process.exited || process.signalled }

  /** Every process ever spawned, other than the current child, has exited or been signalled. */
  predicate NoStrays(s: Supervisor) {
    && (s.child.Some? ==> s.child.value < |s.processes|)
    && (forall i | 0 <= i < |s.processes| && s.child != Some(i) :: LetGo(s.processes[i]))
  }

  /** The generation moves on whenever the child does. */
  predicate GenerationsAgree(s: Supervisor) {
    && (forall i | 0 <= i < |s.processes| :: s.processes[i].generation <= s.generation)
    && (s.child.Some? && s.child.value < |s.processes| ==> s.processes[s.child.value].generation == s.generation)
  }

  /** A start that spawned a process still has it as the child unless the generation moved on. */
  predicate PhaseAgrees(s: Supervisor, phase: StartPhase) {
    && (phase.Disposing? ==> s.child.None?)
    && (phase.Checking? || phase.Pausing? ==>
          phase.spawned.Some? ==>
            && phase.spawned.value <= s.generation
            && (phase.spawned.value == s.generation ==> s.child.Some?))
  }

  predicate PhasesAgree(s: Supervisor) {
    forall id | id in s.starts :: PhaseAgrees(s, s.starts[id])
  }

  /** Wherever a call waits after a stop, there is no child and no published runtime. */
  predicate StoppedIsEmpty(s: Supervisor) {
    s.stopped ==> s.child.None? && s.runtime.None?
  }

  /** A stop nobody has disturbed waits for the only start there can be. */
  predicate StopsAgree(s: Supervisor) {
    forall i | 0 <= i < |s.stops| && s.stops[i].undisturbed ::
      s.stopped && forall id | id in s.starts :: s.stops[i].waitsFor == Some(id)
  }

  /** A process being let go was asked to terminate; one let go has exited or was killed. */
  predicate LeaveAgrees(processes: seq<Process>, leave: Leave) {
    match leave
    case Terminating(p) => p < |processes| && processes[p].signalled
    case Killing(p) => p < |processes| && processes[p].killed
    case Done(Some(p)) => p < |processes| && (processes[p].exited || processes[p].killed)
    case Done(None) => true
  }

  predicate LeavesAgree(s: Supervisor) {
    && (forall id | id in s.starts && (s.starts[id].Disposing? || s.starts[id].Closing?) ::
          LeaveAgrees(s.processes, s.starts[id].leave))
    && (forall i | 0 <= i < |s.stops| :: LeaveAgrees(s.processes, s.stops[i].leave))
  }

  predicate Inv(o: Options, s: Supervisor) {
    && SingleFlight(s)
    && NoStrays(s)
    && GenerationsAgree(s)
    && PhasesAgree(s)
    && StoppedIsEmpty(s)
    && StopsAgree(s)
    && LeavesAgree(s)
    && s.restarts <= o.maxRestarts
  }

  /** Processes are only added, and what has happened to one has happened. */
  predicate Onward(a: seq<Process>, b: seq<Process>) {
    && |a| <= |b|
    && forall i | 0 <= i < |a| ::
         && (a[i].exited ==> b[i].exited)
         && (a[i].signalled ==> b[i].signalled)
         && (a[i].killed ==> b[i].killed)
  }

  lemma LeaveStays(a: seq<Process>, b: seq<Process>, leave: Leave)
    requires LeaveAgrees(a, leave) && Onward(a, b)
    ensures LeaveAgrees(b, leave)
  {
  }

  lemma LeavesStay(s: Supervisor, processes: seq<Process>)
    requires LeavesAgree(s) && Onward(s.processes, processes)
    ensures LeavesAgree(s.(processes := processes))
  {
    forall id | id in s.starts && (s.starts[id].Disposing? || s.starts[id].Closing?)
      ensures LeaveAgrees(processes, s.starts[id].leave)
    {
      LeaveStays(s.processes, processes, s.starts[id].leave);
    }
    forall i | 0 <= i < |s.stops| ensures LeaveAgrees(processes, s.stops[i].leave) {
      LeaveStays(s.processes, processes, s.stops[i].leave);
    }
  }

  lemma DisposedShape(s: Supervisor)
    requires NoStrays(s) && GenerationsAgree(s)
    ensures var t := Disposed(s);
            && NoStrays(t) && GenerationsAgree(t) && t.child.None?
            && t == s.(child := None, generation := s.generation + 1, processes := t.processes)
            && Onward(s.processes, t.processes) && LeaveAgrees(t.processes, LeaveOf(s))
  {
  }

  lemma DisposedKeeps(s: Supervisor)
    requires NoStrays(s) && GenerationsAgree(s) && LeavesAgree(s)
    ensures var t := Disposed(s);
            && NoStrays(t) && GenerationsAgree(t) && t.child.None?
            && t == s.(child := None, generation := s.generation + 1, processes := t.processes)
            && LeavesAgree(t) && LeaveAgrees(t.processes, LeaveOf(s))
  {
    DisposedShape(s);
    LeavesStay(s, Disposed(s).processes);
  }

  lemma LeaveOnKeeps(s: Supervisor, leave: Leave)
    requires LeavesAgree(s) && LeaveAgrees(s.processes, leave)
    ensures var (t, next) := LeaveOn(s, leave);
            && LeavesAgree(t) && LeaveAgrees(t.processes, next)
            && t == s.(processes := t.processes) && Onward(s.processes, t.processes)
            && (NoStrays(s) ==> NoStrays(t)) && (GenerationsAgree(s) ==> GenerationsAgree(t))
  {
    LeavesStay(s, LeaveOn(s, leave).0.processes);
  }

  /** A start that disposes of the child left over, under a fresh identifier. */
  lemma StartBegins(o: Options, s: Supervisor)
    requires Inv(o, s) && s.startPromise.None? && !s.stopped
    ensures Inv(o, InPhase(Disposed(s), s.nextStart, Disposing(LeaveOf(s)))
                   .(startPromise := Some(s.nextStart), nextStart := s.nextStart + 1))
  {
    DisposedKeeps(s);
    assert s.starts.Keys == {};
  }

  lemma RestartCounts(o: Options, s: Supervisor)
    requires Inv(o, s) && s.restarts < o.maxRestarts
    ensures Inv(o, s.(restarts := s.restarts + 1))
  {
  }

  /** A start begun for a fresh identifier, which the promise then stands for. */
  lemma StartOnceKeeps(o: Options, s: Supervisor)
    requires Inv(o, s) && s.startPromise.None?
    ensures Inv(o, StartOnce(o, s, s.nextStart).(startPromise := Some(s.nextStart), nextStart := s.nextStart + 1))
  {
    if s.stopped || (s.unexpectedExit && (!o.spawns || s.restarts >= o.maxRestarts)) {
      assert s.starts.Keys == {};
    } else if s.unexpectedExit {
      RestartCounts(o, s);
      StartBegins(o, s.(restarts := s.restarts + 1));
    } else {
      StartBegins(o, s);
    }
  }

  lemma EnsureStartedKeeps(o: Options, s: Supervisor)
    requires Inv(o, s)
    ensures Inv(o, EnsureStarted(o, s))
  {
    if s.startPromise.None? {
      StartOnceKeeps(o, s);
    }
  }

  lemma LoopLeavesKeeps(o: Options, s: Supervisor, id: nat)
    requires SingleFlight(s) && NoStrays(s) && GenerationsAgree(s) && StopsAgree(s) && LeavesAgree(s)
    requires s.restarts <= o.maxRestarts
    requires s.stopped ==> s.runtime.None?
    requires id in s.starts
    ensures Inv(o, InPhase(Disposed(s), id, Closing(LeaveOf(s))))
  {
    DisposedKeeps(s);
    assert forall other | other in s.starts :: other == id;
  }

  lemma LoopHeadKeeps(o: Options, s: Supervisor, id: nat, spawned: Option<nat>, late: bool)
    requires SingleFlight(s) && NoStrays(s) && GenerationsAgree(s) && StopsAgree(s) && LeavesAgree(s)
    requires s.restarts <= o.maxRestarts
    requires s.stopped ==> s.runtime.None?
    requires id in s.starts && (spawned.Some? ==> spawned.value <= s.generation)
    requires spawned.Some? && spawned.value == s.generation ==> s.child.Some?
    ensures Inv(o, LoopHead(s, id, spawned, late))
  {
    if LoopHead(s, id, spawned, late) == InPhase(s, id, Checking(spawned)) {
      assert forall other | other in s.starts :: other == id;
    } else {
      LoopLeavesKeeps(o, s, id);
    }
  }

  lemma SpawnedIsSound(s: Supervisor)
    requires NoStrays(s) && GenerationsAgree(s) && LeavesAgree(s) && s.child.None?
    ensures NoStrays(Spawned(s)) && GenerationsAgree(Spawned(s)) && LeavesAgree(Spawned(s))
  {
    LeavesStay(s, Spawned(s).processes);
  }

  lemma LaunchedKeeps(o: Options, s: Supervisor, id: nat, launches: bool, late: bool)
    requires Inv(o, s) && id in s.starts && s.starts[id].Disposing?
    ensures Inv(o, Launched(o, s, id, launches, late))
  {
    var s1 := s.(unexpectedExit := false);
    assert s1.child.None? by { assert PhaseAgrees(s, s.starts[id]); }
    if launches && o.spawns {
      SpawnedIsSound(s1);
      LoopHeadKeeps(o, Spawned(s1), id, Some(s.generation + 1), late);
    } else if launches {
      LoopHeadKeeps(o, s1, id, None, late);
    }
  }

  lemma AnsweredKeeps(o: Options, s: Supervisor, id: nat, health: Health)
    requires Inv(o, s) && id in s.starts && s.starts[id].Checking?
    ensures Inv(o, Answered(s, id, s.starts[id].spawned, health))
  {
    if health.Incompatible? || (health.Healthy? && s.stopped) {
      LoopLeavesKeeps(o, s, id);
    }
  }

  lemma StopCallsKeeps(o: Options, s: Supervisor)
    requires Inv(o, s)
    ensures Inv(o, StopCalls(s))
  {
    var stopping := s.(stopped := true, runtime := None, unexpectedExit := false);
    DisposedKeeps(stopping);
    assert LeaveOf(stopping) == LeaveOf(s);
  }

  lemma StartCallsKeeps(o: Options, s: Supervisor)
    requires Inv(o, s)
    ensures Inv(o, StartCalls(o, s))
  {
    var s1 := if s.stopped then s.(stopped := false, restarts := 0, unexpectedExit := false) else s;
    EnsureStartedKeeps(o, s1.(stops := Disturbed(s.stops)));
  }

  lemma StartLeavesKeeps(o: Options, s: Supervisor, id: nat)
    requires Inv(o, s) && CanMove(s, StartLeavesMove(id))
    ensures Inv(o, Moved(o, s, StartLeavesMove(id)))
  {
    LeaveOnKeeps(s, s.starts[id].leave);
    assert PhaseAgrees(s, s.starts[id]);
  }

  lemma StopLeavesKeeps(o: Options, s: Supervisor, i: nat)
    requires Inv(o, s) && i < |s.stops|
    ensures Inv(o, Moved(o, s, StopLeavesMove(i)))
  {
    LeaveOnKeeps(s, s.stops[i].leave);
  }

  lemma ExitKeeps(o: Options, s: Supervisor, process: nat)
    requires Inv(o, s) && process < |s.processes|
    ensures Inv(o, Moved(o, s, ExitMove(process)))
  {
    LeavesStay(s, s.processes[process := s.processes[process].(exited := true)]);
  }

  lemma MovedKeeps(o: Options, s: Supervisor, move: Move)
    requires Inv(o, s) && CanMove(s, move)
    ensures Inv(o, Moved(o, s, move))
  {
    match move
    case ClientMove => EnsureStartedKeeps(o, s);
    case StartMove => StartCallsKeeps(o, s);
    case LaunchMove(id, launches, late) => LaunchedKeeps(o, s, id, launches, late);
    case HealthMove(id, health) => AnsweredKeeps(o, s, id, health);
    case PauseMove(id, late) => LoopHeadKeeps(o, s, id, s.starts[id].spawned, late);
    case StopMove => StopCallsKeeps(o, s);
    case StartLeavesMove(id) => StartLeavesKeeps(o, s, id);
    case StopLeavesMove(i) => StopLeavesKeeps(o, s, i);
    case ExitMove(process) => ExitKeeps(o, s, process);
    case _ =>
  }

  lemma {:induction false} HistoryKeeps(o: Options, trace: seq<Supervisor>, n: nat)
    requires IsHistory(o, trace) && n < |trace|
    ensures Inv(o, trace[n])
  {
    if n > 0 {
      HistoryKeeps(o, trace, n - 1);
      assert MovesTo(o, trace[n - 1], trace[n - 1 + 1]);
      var move :| CanMove(trace[n - 1], move) && trace[n] == Moved(o, trace[n - 1], move);
      MovedKeeps(o, trace[n - 1], move);
    }
  }

  // ---------------------------------------------------------------------------------------
  // What follows
  // ---------------------------------------------------------------------------------------

  /** Starts are single-flight, strays are impossible, restarts are bounded, and a stopped
      supervisor holds nothing, in every run. */
  lemma LifecycleHolds(o: Options, trace: seq<Supervisor>, n: nat)
    requires IsHistory(o, trace) && n < |trace|
    ensures var s := trace[n];
            && |s.starts| <= 1
            && NoStrays(s)
            && s.restarts <= o.maxRestarts
            && (s.stopped ==> s.child.None? && s.runtime.None?)
  {
    HistoryKeeps(o, trace, n);
    var s := trace[n];
    if s.starts.Keys != {} {
      var id :| id in s.starts;
      assert s.starts.Keys == {id};
      assert |s.starts| == |s.starts.Keys|;
    }
  }

  /** When any stop ends, the process it let go has exited or was killed. */
  lemma StoppedProcessIsGone(o: Options, trace: seq<Supervisor>, n: nat, i: nat)
    requires IsHistory(o, trace) && n < |trace| && CanMove(trace[n], StopEndsMove(i))
    ensures var s := trace[n]; var process := s.stops[i].leave.let;
            process.Some? ==>
              process.value < |s.processes| && (s.processes[process.value].exited || s.processes[process.value].killed)
  {
    HistoryKeeps(o, trace, n);
    assert LeaveAgrees(trace[n].processes, trace[n].stops[i].leave);
  }

  /** When a stop ends that no start has disturbed, nothing is left: no child, no runtime, no
      start under way, and every process has exited or been signalled. */
  lemma StopLeavesNothing(o: Options, trace: seq<Supervisor>, n: nat, i: nat)
    requires IsHistory(o, trace) && n < |trace|
    requires CanMove(trace[n], StopEndsMove(i)) && trace[n].stops[i].undisturbed
    ensures var s := trace[n];
            && s.child.None? && s.runtime.None? && s.starts == map[]
            && forall p | 0 <= p < |s.processes| :: LetGo(s.processes[p])
  {
    HistoryKeeps(o, trace, n);
    assert trace[n].starts.Keys == {};
  }

  /** An exit unpublishes the runtime exactly when it is the current child's; the exit of any
      other process, of a superseded generation, changes nothing but that process. */
  lemma ExitIsNoticedExactly(o: Options, s: Supervisor, process: nat)
    requires Inv(o, s) && CanMove(s, ExitMove(process))
    ensures var t := Moved(o, s, ExitMove(process));
            if s.child == Some(process) then t.runtime.None? && t.unexpectedExit
            else t == s.(processes := t.processes)
  {
  }

  /** While a start waits for its process to be healthy, only a stop moves the generation on. */
  lemma OnlyStopSupersedes(o: Options, s: Supervisor, id: nat, move: Move)
    requires Inv(o, s) && CanMove(s, move) && id in s.starts && (s.starts[id].Checking? || s.starts[id].Pausing?)
    requires var t := Moved(o, s, move); id in t.starts && (t.starts[id].Checking? || t.starts[id].Pausing?)
    ensures Moved(o, s, move).generation != s.generation ==> move.StopMove?
  {
    assert forall other | other in s.starts :: other == id;
  }

  /** A runtime published by a start that spawned a process belongs to the current child exactly
      when the generation is still that of the spawn. */
  lemma PublishedIsCurrentExactly(o: Options, s: Supervisor, id: nat)
    requires Inv(o, s) && CanMove(s, HealthMove(id, Healthy)) && !s.stopped && s.starts[id].spawned.Some?
    ensures var t := Moved(o, s, HealthMove(id, Healthy));
            && t.runtime == Some(id)
            && (t.child.Some? && t.processes[t.child.value].generation == s.starts[id].spawned.value
                <==> s.generation == s.starts[id].spawned.value)
  {
    assert PhaseAgrees(s, s.starts[id]);
  }

  predicate PublishedWithoutChild(s: Supervisor) {
    s.runtime.Some? && !s.stopped && !s.unexpectedExit && s.child.None?
  }

  lemma FirstStart(o: Options) returns (s1: Supervisor, s2: Supervisor)
    requires o == Options(true, 1)
    ensures MovesTo(o, Idle(), s1) && MovesTo(o, s1, s2)
    ensures s2 == Supervisor(Some(0), None, Some(0), false, 0, false, 2, [Process(2, false, false, false)],
                             map[0 := Checking(Some(2))], 1, [])
  {
    s1 := Moved(o, Idle(), StartMove);
    assert s1 == Supervisor(None, None, Some(0), false, 0, false, 1, [], map[0 := Disposing(Done(None))], 1, []);
    s2 := Moved(o, s1, LaunchMove(0, true, false));
  }

  lemma StartDuringStop(o: Options) returns (trace: seq<Supervisor>)
    requires o == Options(true, 1)
    ensures |trace| == 5 && trace[0] == Idle() && trace[4].starts == map[0 := Checking(Some(2))]
    ensures forall i | 0 <= i < |trace| - 1 :: MovesTo(o, trace[i], trace[i + 1])
    ensures !trace[4].stopped && !trace[4].unexpectedExit && trace[4].child.None?
  {
    var s1, s2 := FirstStart(o);
    var s3 := Moved(o, s2, StopMove);
    assert s3.starts == s2.starts && s3.startPromise == Some(0) && s3.child.None? && s3.runtime.None?;
    var s4 := Moved(o, s3, StartMove);
    assert MovesTo(o, s2, s3) && MovesTo(o, s3, s4);
    trace := [Idle(), s1, s2, s3, s4];
    assert trace[0 + 1] == s1 && trace[1 + 1] == s2 && trace[2 + 1] == s3 && trace[3 + 1] == s4;
  }

  /** The guard is needed: a start call during a stop lets a health answer of the process that
      was just let go publish a runtime without a child. */
  lemma StartDuringStopPublishesADeadRuntime()
    ensures exists trace: seq<Supervisor> ::
              IsHistory(Options(true, 1), trace) && PublishedWithoutChild(trace[|trace| - 1])
  {
    var o := Options(true, 1);
    var before := StartDuringStop(o);
    var last := Moved(o, before[4], HealthMove(0, Healthy));
    var trace := before + [last];
    assert MovesTo(o, before[4], last);
    forall i | 0 <= i < |trace| - 1 ensures MovesTo(o, trace[i], trace[i + 1]) {
      assert i < 4 ==> MovesTo(o, before[i], before[i + 1]);
    }
    assert IsHistory(o, trace) && PublishedWithoutChild(trace[|trace| - 1]);
  }
}
