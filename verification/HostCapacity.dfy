/** Room in the coordinator: places are reserved before the first wait of a start and given
    back, or taken by the new session, after its last one. Starts overlap freely. */
module HostCapacity {
  import opened Contracts

  datatype Rooms = Rooms(stored: set<string>, pending: nat)

  /** `Begin` is a start up to its first wait, `Publish` and `Abandon` are its two ends, and
      `Forget` drops sessions whose time is over. */
  datatype RoomStep =
    | Begin(expired: set<string>)
    | Publish(id: string)
    | Abandon
    | Forget(expired: set<string>)

  predicate CanMove(rooms: Rooms, step: RoomStep) {
    match step
    case Begin(_) => true
    case Publish(id) => rooms.pending > 0 && id !in rooms.stored
    case Abandon => rooms.pending > 0
    case Forget(_) => true
  }

  function Moved(max: nat, rooms: Rooms, step: RoomStep): Rooms
    requires CanMove(rooms, step)
  {
    match step
    case Begin(expired) =>
      var kept := rooms.stored - expired;
      Rooms(kept, if |kept| + rooms.pending >= max then rooms.pending else rooms.pending + 1)
    case Publish(id) => Rooms(rooms.stored + {id}, rooms.pending - 1)
    case Abandon => rooms.(pending := rooms.pending - 1)
    case Forget(expired) => rooms.(stored := rooms.stored - expired)
  }

  predicate Within(max: nat, rooms: Rooms) { |rooms.stored| + rooms.pending <= max }

  lemma DroppingShrinks(a: set<string>, b: set<string>)
    ensures |a - b| <= |a|
  {
    assert |a| == |a - b| + |a * b| by { assert a == (a - b) + (a * b); }
  }

  lemma MovedKeeps(max: nat, rooms: Rooms, step: RoomStep)
    requires Within(max, rooms) && CanMove(rooms, step)
    ensures Within(max, Moved(max, rooms, step))
  {
    match step
    case Begin(expired) => DroppingShrinks(rooms.stored, expired);
    case Publish(id) =>
    case Abandon =>
    case Forget(expired) => DroppingShrinks(rooms.stored, expired);
  }

  ghost predicate MovesTo(max: nat, rooms: Rooms, next: Rooms) {
    exists step :: CanMove(rooms, step) && next == Moved(max, rooms, step)
  }

  /** However starts, ends and expiries interleave, stored and starting sessions together stay
      within the bound. */
  lemma {:induction false} CapacityHolds(max: nat, trace: seq<Rooms>, n: nat)
    requires trace != [] && trace[0] == Rooms({}, 0) && n < |trace|
    requires forall i | 0 <= i < |trace| - 1 :: MovesTo(max, trace[i], trace[i + 1])
    ensures Within(max, trace[n])
  {
    if n > 0 {
      CapacityHolds(max, trace, n - 1);
      assert MovesTo(max, trace[n - 1], trace[n - 1 + 1]);
      var step :| CanMove(trace[n - 1], step) && trace[n] == Moved(max, trace[n - 1], step);
      MovedKeeps(max, trace[n - 1], step);
    }
  }
}

module SessionCoordinatorObjects {
  import opened Contracts
  import opened HostCapacity
  import opened HostSessionObjects

  class SessionCoordinator {
    const maxSessions: nat
    var sessions: map<string, HostSession>
    var pendingStarts: nat

    function Occupied(): Rooms
      reads this
    {
      Rooms(sessions.Keys, pendingStarts)
    }

    ghost predicate Valid()
      reads this
    {
      Within(maxSessions, Occupied())
    }

    constructor (maxSessions: nat)
      ensures Valid() && this.maxSessions == maxSessions && Occupied() == Rooms({}, 0)
    {
      this.maxSessions := maxSessions;
      sessions, pendingStarts := map[], 0;
    }

    /** Forgets the sessions whose time is over. */
    method RemoveExpired(expired: set<string>)
      requires Valid()
      modifies this`sessions
      ensures Valid() && Occupied() == Moved(maxSessions, old(Occupied()), HostCapacity.Forget(expired))
    {
      MovedKeeps(maxSessions, Occupied(), HostCapacity.Forget(expired));
      var todo := sessions.Keys;
      ghost var all := sessions.Keys;
      while todo != {}
        invariant todo <= all
        invariant forall id :: id in sessions <==> id in all && (id in todo || id !in expired)
        decreases todo
      {
        var id :| id in todo;
        if id in expired {
          sessions := sessions - {id};
        }
        todo := todo - {id};
      }
      assert sessions.Keys == all - expired;
    }

    /** Reserves a place for a start, or refuses it. */
    method BeginStart(expired: set<string>) returns (reserved: bool)
      requires Valid()
      modifies this
      ensures Valid() && Occupied() == Moved(maxSessions, old(Occupied()), Begin(expired))
      ensures reserved <==> pendingStarts == old(pendingStarts) + 1
    {
      RemoveExpired(expired);
      assert |sessions| == |sessions.Keys|;
      if |sessions| + pendingStarts >= maxSessions {
        return false;
      }
      pendingStarts := pendingStarts + 1;
      reserved := true;
    }

    /** The runtime has created the session: it takes the reserved place. */
    method PublishStart(id: string, session: HostSession)
      requires Valid() && CanMove(Occupied(), Publish(id))
      modifies this
      ensures Valid() && Occupied() == Moved(maxSessions, old(Occupied()), Publish(id))
              && sessions == old(sessions)[id := session]
    {
      MovedKeeps(maxSessions, Occupied(), Publish(id));
      sessions := sessions[id := session];
      pendingStarts := pendingStarts - 1;
      assert sessions.Keys == old(sessions).Keys + {id};
    }

    /** The start failed: the place is given back. */
    method AbandonStart()
      requires Valid() && CanMove(Occupied(), Abandon)
      modifies this`pendingStarts
      ensures Valid() && Occupied() == Moved(maxSessions, old(Occupied()), Abandon)
    {
      pendingStarts := pendingStarts - 1;
    }
  }
}
