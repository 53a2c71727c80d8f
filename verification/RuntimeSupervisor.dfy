/** The supervisor object. Each method is one stretch of the code between two waits and performs
    the matching function of the supervisor machine; the calls that are waiting, and the
    processes of the operating system, are kept beside the fields. */
module RuntimeSupervisorObjects {
  import opened Contracts
  import opened SupervisorMachine

  class RuntimeSupervisor {
    const options: Options
    var child: Option<nat>
    var runtime: Option<nat>
    var startPromise: Option<nat>
    var unexpectedExit: bool
    var restarts: nat
    var stopped: bool
    var generation: nat
    var processes: seq<Process>
    var nextStart: nat
    var starts: map<nat, StartPhase>
    var stops: seq<Stopper>

    ghost function State(): Supervisor
      reads this
    {
      Supervisor(child, runtime, startPromise, unexpectedExit, restarts, stopped, generation, processes,
                 starts, nextStart, stops)
    }

    ghost predicate Valid()
      reads this
    {
      Inv(options, State())
    }

    constructor (options: Options)
      ensures Valid() && this.options == options && State() == Idle()
    {
      this.options := options;
      child, runtime, startPromise := None, None, None;
      unexpectedExit, restarts, stopped, generation := false, 0, false, 0;
      processes, nextStart, starts, stops := [], 0, map[], [];
    }

    /** Lets the current child go, up to the wait for its exit. */
    method DisposeCurrentChild() returns (leave: Leave)
      requires NoStrays(State())
      modifies this`child, this`generation, this`processes
      ensures State() == Disposed(old(State())) && leave == LeaveOf(old(State()))
    {
      var was := child;
      child := None;
      generation := generation + 1;
      if was.None? || processes[was.value].exited {
        return Done(None);
      }
      processes := processes[was.value := processes[was.value].(signalled := true)];
      leave := Terminating(was.value);
    }

    /** The wait is over: a process that has not exited is killed and waited for once more. */
    method DisposeOn(leave: Leave) returns (next: Leave)
      requires LeaveAgrees(processes, leave)
      modifies this`processes
      ensures (State(), next) == LeaveOn(old(State()), leave)
    {
      match leave {
        case Terminating(process) =>
          if processes[process].exited {
            return Done(Some(process));
          }
          processes := processes[process := processes[process].(killed := true)];
          next := Killing(process);
        case Killing(process) =>
          next := Done(Some(process));
        case Done(_) =>
          next := leave;
      }
    }

    /** The disposal a start waits for goes on. */
    method StartLeaves(id: nat)
      requires Valid() && CanMove(State(), StartLeavesMove(id))
      modifies this`processes, this`starts
      ensures Valid() && State() == Moved(options, old(State()), StartLeavesMove(id))
    {
      MovedKeeps(options, State(), StartLeavesMove(id));
      var next := DisposeOn(starts[id].leave);
      starts := starts[id := if starts[id].Disposing? then Disposing(next) else Closing(next)];
    }

    /** The disposal a stop waits for goes on. */
    method StopLeaves(index: nat)
      requires Valid() && CanMove(State(), StopLeavesMove(index))
      modifies this`processes, this`stops
      ensures Valid() && State() == Moved(options, old(State()), StopLeavesMove(index))
    {
      MovedKeeps(options, State(), StopLeavesMove(index));
      var next := DisposeOn(stops[index].leave);
      stops := stops[index := stops[index].(leave := next)];
    }

    /** A new start up to its first wait; one that may not start waits for nothing. */
    method StartOnce(id: nat)
      requires NoStrays(State())
      modifies this
      ensures State() == SupervisorMachine.StartOnce(options, old(State()), id)
    {
      if stopped {
        return;
      }
      if unexpectedExit {
        if !options.spawns || restarts >= options.maxRestarts {
          return;
        }
        restarts := restarts + 1;
      }
      var leave := DisposeCurrentChild();
      starts := starts[id := Disposing(leave)];
    }

    method EnsureStarted()
      requires NoStrays(State())
      modifies this
      ensures State() == SupervisorMachine.EnsureStarted(options, old(State()))
    {
      if runtime.Some? && !unexpectedExit {
        return;
      }
      if startPromise.Some? {
        return;
      }
      var start := nextStart;
      StartOnce(start);
      nextStart := start + 1;
      startPromise := Some(start);
    }

    /** A client asks for the runtime. */
    method Client()
      requires Valid()
      modifies this
      ensures Valid() && State() == Moved(options, old(State()), ClientMove)
    {
      MovedKeeps(options, State(), ClientMove);
      if stopped || (runtime.Some? && !unexpectedExit) {
        return;
      }
      EnsureStarted();
    }

    method Start()
      requires Valid()
      modifies this
      ensures Valid() && State() == Moved(options, old(State()), StartMove)
    {
      MovedKeeps(options, State(), StartMove);
      if stopped {
        stopped := false;
        restarts := 0;
        unexpectedExit := false;
      }
      stops := Disturbed(stops);
      EnsureStarted();
    }

    /** The head of the loop that waits for a healthy runtime; `late` when the deadline is over. */
    method WaitForHealth(id: nat, spawned: Option<nat>, late: bool)
      requires NoStrays(State())
      modifies this
      ensures State() == LoopHead(old(State()), id, spawned, late)
    {
      if !late && !stopped
         && !(spawned.Some?
              && (generation != spawned.value || child.None? || processes[child.value].exited || unexpectedExit)) {
        starts := starts[id := Checking(spawned)];
        return;
      }
      var leave := DisposeCurrentChild();
      starts := starts[id := Closing(leave)];
    }

    /** The new process becomes the child, in a generation of its own. */
    method Spawn() returns (spawned: nat)
      requires NoStrays(State()) && child.None?
      modifies this`generation, this`child, this`processes
      ensures spawned == old(generation) + 1 && NoStrays(State())
      ensures State() == Spawned(old(State()))
    {
      spawned := generation + 1;
      generation := spawned;
      child := Some(|processes|);
      processes := processes + [Process(spawned, false, false, false)];
    }

    /** The old child is gone; spawn the new one, or connect. */
    method Launch(id: nat, launches: bool, late: bool)
      requires Valid() && CanMove(State(), LaunchMove(id, launches, late))
      modifies this
      ensures Valid() && State() == Moved(options, old(State()), LaunchMove(id, launches, late))
    {
      MovedKeeps(options, State(), LaunchMove(id, launches, late));
      assert PhaseAgrees(State(), starts[id]);
      LaunchOn(id, launches, late);
    }

    method LaunchOn(id: nat, launches: bool, late: bool)
      requires NoStrays(State()) && child.None?
      modifies this
      ensures State() == Launched(options, old(State()), id, launches, late)
    {
      unexpectedExit := false;
      if !launches {
        starts := starts - {id};
        return;
      }
      if options.spawns {
        var spawned := Spawn();
        WaitForHealth(id, Some(spawned), late);
      } else {
        WaitForHealth(id, None, late);
      }
    }

    /** A health check was answered, or failed. */
    method TakeHealth(id: nat, spawned: Option<nat>, health: Health)
      requires Valid() && CanMove(State(), HealthMove(id, health)) && spawned == starts[id].spawned
      modifies this
      ensures Valid() && State() == Moved(options, old(State()), HealthMove(id, health))
    {
      MovedKeeps(options, State(), HealthMove(id, health));
      match health {
        case Healthy =>
          if stopped {
            var leave := DisposeCurrentChild();
            starts := starts[id := Closing(leave)];
          } else {
            runtime := Some(id);
            starts := starts - {id};
          }
        case Incompatible =>
          var leave := DisposeCurrentChild();
          starts := starts[id := Closing(leave)];
        case HostRefusal =>
          starts := starts - {id};
        case Unreachable =>
          starts := starts[id := Pausing(spawned)];
      }
    }

    /** A child has exited: the handler looks whether it is still the current one. */
    method ChildExits(process: nat)
      requires Valid() && process < |processes|
      modifies this`processes, this`runtime, this`unexpectedExit
      ensures Valid() && State() == Moved(options, old(State()), ExitMove(process))
    {
      MovedKeeps(options, State(), ExitMove(process));
      processes := processes[process := processes[process].(exited := true)];
      if child == Some(process) && generation == processes[process].generation && !stopped {
        runtime := None;
        unexpectedExit := true;
      }
    }

    /** Stops the supervisor: lets the child go, and then waits for the start under way, if any. */
    method Stop()
      requires Valid()
      modifies this
      ensures Valid() && State() == Moved(options, old(State()), StopMove)
    {
      MovedKeeps(options, State(), StopMove);
      StopOn();
    }

    method StopOn()
      requires NoStrays(State())
      modifies this
      ensures State() == StopCalls(old(State()))
    {
      stopped := true;
      runtime := None;
      unexpectedExit := false;
      var pendingStart := startPromise;
      var leave := DisposeCurrentChild();
      stops := stops + [Stopper(pendingStart, true, leave)];
    }
  }
}
