/** All sessions of one runtime: creation, expiry, and the steps of each session, interleaved. */
module SessionStore {
  import opened Contracts
  import opened ContextPlanner
  import opened SessionEvents
  import opened SessionMachine
  import opened SessionInvariants
  import opened Traces

  const MAX_SESSIONS: nat := 128

  datatype Entry = Entry(profile: Profile, session: Session)

  type Store = map<string, Entry>

  function ActiveIds(store: Store): set<string> {
    set id | id in store && store[id].session.status.Running?
  }

  function WithSession(store: Store, id: string, session: Session): Store
    requires id in store
  {
    store[id := store[id].(session := session)]
  }

  function Active(store: Store): nat { |ActiveIds(store)| }

  /** Sessions past their time, which are dropped unless the provider is at work on them. */
  function Dropped(store: Store, expired: set<string>): Store {
    map id | id in store && (id !in expired || store[id].session.status.Running?) :: store[id]
  }

  datatype StoreStep =
    | Create(id: string, profile: Profile, instructions: Option<string>, prompt: string,
             measured: nat, expired: set<string>)
    | Drop(expired: set<string>)
    | Move(id: string, step: Step)

  /** Identifiers are fresh, and a consumer's request sees the number of active sessions. */
  ghost predicate CanStep(store: Store, step: StoreStep) {
    match step
    case Create(id, _, _, _, _, _) => id !in store
    case Drop(_) => true
    case Move(id, inner) =>
      && id in store
      && Enabled(store[id].profile, store[id].session, inner)
      && (inner.SubmitStep? ==> inner.active == Active(store))
      && (inner.ContinueStep? ==> inner.active == Active(store))
  }

  /** A new session is stored only when it starts: within the input limit, with room in the
      store and a free provider slot. `measured` is the opening turn's size as a request. */
  function Admitted(store: Store, id: string, profile: Profile, instructions: Option<string>, prompt: string,
                   measured: nat, expired: set<string>): (Store, Option<Refusal>)
  {
    if profile.blank(prompt) || (instructions.Some? && profile.blank(instructions.value))
       || |prompt| > profile.limits.maxInputChars then (store, Some(InvalidRequest))
    else AdmittedTo(Dropped(store, expired), id, profile, Opening(instructions, prompt), measured)
  }

  function AdmittedTo(kept: Store, id: string, profile: Profile, messages: seq<Message>, measured: nat)
    : (Store, Option<Refusal>)
  {
    if |kept| >= MAX_SESSIONS then (kept, Some(CapacityExceeded))
    else if measured > profile.limits.maxInputChars then (kept, Some(InputTooLong))
    else Started(kept, id, profile, messages)
  }

  /** A new record joins the store together with its first provider call. */
  function Started(store: Store, id: string, profile: Profile, messages: seq<Message>): (Store, Option<Refusal>) {
    var (session, refusal) := Scheduled(NewSession(messages), Active(store));
    if refusal.Some? then (store, refusal) else (store[id := Entry(profile, session)], None)
  }

  // Requests of the consumer, addressed by identifier.

  function SubmitTo(store: Store, id: string, results: seq<ToolResult>): (Store, Option<Refusal>) {
    if id !in store then (store, Some(NotFound))
    else
      var (after, refusal) := Submit(store[id].session, results, Active(store));
      (WithSession(store, id, after), refusal)
  }

  function ContinueIn(store: Store, id: string, prompt: string, effortSupported: bool): (Store, Option<Refusal>) {
    if id !in store then (store, Some(NotFound))
    else
      var (after, refusal) := Continue(store[id].profile, store[id].session, prompt, effortSupported, Active(store));
      (WithSession(store, id, after), refusal)
  }

  function CancelIn(store: Store, id: string): (Store, Option<Refusal>) {
    if id !in store then (store, Some(NotFound))
    else (WithSession(store, id, Cancel(store[id].session)), None)
  }

  /** A cancel request up to its wait: a session with a provider task is left to its task. */
  function CancelBegun(store: Store, id: string): (Store, Option<Refusal>) {
    if id !in store then (store, Some(NotFound))
    else if store[id].session.phase.Idle? then CancelIn(store, id)
    else (store, None)
  }

  function EventsOf(store: Store, id: string, expired: bool, after: int): (Store, Result<seq<Event>, Refusal>) {
    if after < 0 then (store, Err(InvalidRequest))
    else
      var kept := Dropped(store, if expired then {id} else {});
      if id !in kept then (kept, Err(NotFound))
      else if after > |kept[id].session.events| then (kept, Err(InvalidRequest))
      else (kept, Ok(Later(kept[id].session.events, after)))
  }

  ghost function Stepped(store: Store, step: StoreStep): Store
    requires CanStep(store, step)
  {
    match step
    case Create(id, profile, instructions, prompt, measured, expired) =>
      Admitted(store, id, profile, instructions, prompt, measured, expired).0
    case Drop(expired) => Dropped(store, expired)
    case Move(id, inner) => WithSession(store, id, Next(store[id].profile, store[id].session, inner))
  }

  ghost predicate IsSound(store: Store, id: string)
    requires id in store
  {
    Inv(store[id].profile, store[id].session)
  }

  /** Every stored session is sound; at most eight are with a provider, at most 128 are kept. */
  ghost predicate StoreInv(store: Store) {
    && (forall id {:trigger IsSound(store, id)} | id in store :: IsSound(store, id))
    && Active(store) <= MAX_ACTIVE
    && |store| <= MAX_SESSIONS
  }

  lemma DroppedKeeps(store: Store, expired: set<string>)
    requires StoreInv(store)
    ensures StoreInv(Dropped(store, expired))
    ensures ActiveIds(Dropped(store, expired)) == ActiveIds(store)
  {
    var kept := Dropped(store, expired);
    assert ActiveIds(kept) == ActiveIds(store);
    assert kept.Keys <= store.Keys;
    CardinalityBound(kept.Keys, store.Keys);
    assert |kept| == |kept.Keys| && |store| == |store.Keys|;
    forall id | id in kept ensures IsSound(kept, id) {
      assert IsSound(store, id);
    }
  }

  lemma CardinalityBound<T>(a: set<T>, b: set<T>)
    requires a <= b
    ensures |a| <= |b|
  {
    if a != {} {
      var x :| x in a;
      CardinalityBound(a - {x}, b - {x});
    }
  }

  /** Changing one session changes the number of active ones by at most that session. */
  lemma OneChange(store: Store, id: string, entry: Entry)
    ensures ActiveIds(store[id := entry])
         == if entry.session.status.Running? then ActiveIds(store) + {id} else ActiveIds(store) - {id}
  {
  }

  lemma OneChangeCounts(store: Store, id: string, entry: Entry)
    ensures Active(store[id := entry]) <= Active(store) + 1
    ensures (id in ActiveIds(store) || !entry.session.status.Running?) ==> Active(store[id := entry]) <= Active(store)
  {
    OneChange(store, id, entry);
    var after := ActiveIds(store[id := entry]);
    CardinalityBound(after, ActiveIds(store) + {id});
    if id in ActiveIds(store) || !entry.session.status.Running? {
      CardinalityBound(after, ActiveIds(store));
    }
  }

  lemma SizeAfter(store: Store, id: string, entry: Entry)
    ensures |store[id := entry]| == if id in store then |store| else |store| + 1
  {
    var after := store[id := entry];
    assert after.Keys == store.Keys + {id};
    assert |after| == |after.Keys| && |store| == |store.Keys|;
  }

  /** Putting a sound entry in keeps the store sound when a slot and room are free for it. */
  lemma PutKeeps(store: Store, id: string, entry: Entry)
    requires StoreInv(store) && Inv(entry.profile, entry.session)
    requires entry.session.status.Running? ==> id in ActiveIds(store) || Active(store) < MAX_ACTIVE
    requires id in store || |store| < MAX_SESSIONS
    ensures StoreInv(store[id := entry])
  {
    OneChangeCounts(store, id, entry);
    SizeAfter(store, id, entry);
    var after := store[id := entry];
    forall other | other in after ensures IsSound(after, other) {
      if other != id {
        assert IsSound(store, other);
      }
    }
  }

  /** A session that starts running held a free slot. */
  lemma StartsNeedASlot(p: Profile, s: Session, step: Step, active: nat)
    requires Inv(p, s) && Enabled(p, s, step)
    requires !s.status.Running? && Next(p, s, step).status.Running?
    requires step.SubmitStep? || step.ContinueStep? ==> step.active == active
    ensures active < MAX_ACTIVE
  {
  }

  lemma MoveKeeps(store: Store, id: string, step: Step)
    requires StoreInv(store) && CanStep(store, Move(id, step))
    ensures StoreInv(WithSession(store, id, Next(store[id].profile, store[id].session, step)))
  {
    var p, s := store[id].profile, store[id].session;
    assert IsSound(store, id);
    var t := Next(p, s, step);
    NextKeeps(p, s, step);
    if !s.status.Running? && t.status.Running? {
      StartsNeedASlot(p, s, step, Active(store));
    }
    PutKeeps(store, id, Entry(p, t));
  }

  lemma CreateKeeps(store: Store, id: string, profile: Profile, instructions: Option<string>, prompt: string,
                    measured: nat, expired: set<string>)
    requires StoreInv(store) && id !in store
    ensures StoreInv(Admitted(store, id, profile, instructions, prompt, measured, expired).0)
  {
    DroppedKeeps(store, expired);
    AdmittedToKeeps(Dropped(store, expired), id, profile, instructions, prompt, measured);
  }

  lemma AdmittedToKeeps(kept: Store, id: string, profile: Profile, instructions: Option<string>, prompt: string,
                        measured: nat)
    requires StoreInv(kept) && id !in kept
    ensures StoreInv(AdmittedTo(kept, id, profile, Opening(instructions, prompt), measured).0)
  {
    if |kept| < MAX_SESSIONS {
      StartedKeeps(kept, id, profile, instructions, prompt);
    }
  }

  lemma StartedKeeps(kept: Store, id: string, profile: Profile, instructions: Option<string>, prompt: string)
    requires StoreInv(kept) && id !in kept && |kept| < MAX_SESSIONS
    ensures StoreInv(Started(kept, id, profile, Opening(instructions, prompt)).0)
  {
    var start := NewSession(Opening(instructions, prompt));
    var (session, refusal) := Scheduled(start, Active(kept));
    if refusal.None? {
      NewSessionIsReady(profile, instructions, prompt);
      ScheduledKeeps(profile, start, Active(kept));
      PutKeeps(kept, id, Entry(profile, session));
    }
  }

  /** The limits hold under every interleaving of all sessions' steps. */
  lemma SteppedKeeps(store: Store, step: StoreStep)
    requires StoreInv(store) && CanStep(store, step)
    ensures StoreInv(Stepped(store, step))
  {
    match step
    case Create(id, profile, instructions, prompt, measured, expired) =>
      CreateKeeps(store, id, profile, instructions, prompt, measured, expired);
    case Drop(expired) => DroppedKeeps(store, expired);
    case Move(id, inner) => MoveKeeps(store, id, inner);
  }

  ghost predicate StoreFollows(store: Store, next: Store) {
    exists step :: CanStep(store, step) && next == Stepped(store, step)
  }

  ghost predicate IsStoreRun(trace: seq<Store>) {
    trace != [] && trace[0] == map[] && Linked(trace, (s, t) => StoreFollows(s, t))
  }

  lemma StoreFollowsKeeps(store: Store, next: Store)
    requires StoreInv(store) && StoreFollows(store, next)
    ensures StoreInv(next)
  {
    var step :| CanStep(store, step) && next == Stepped(store, step);
    SteppedKeeps(store, step);
  }

  lemma StoreRunKeeps(trace: seq<Store>, n: nat)
    requires IsStoreRun(trace) && n < |trace|
    ensures StoreInv(trace[n])
  {
    assert ActiveIds(trace[0]) == {};
    var next, good := (s: Store, t: Store) => StoreFollows(s, t), (s: Store) => StoreInv(s);
    forall s, t | good(s) && next(s, t) ensures good(t) {
      StoreFollowsKeeps(s, t);
    }
    EverAfter(trace, next, good, 0, n);
  }

  /** A step of one session leaves every other session as it was. */
  lemma OthersUntouched(store: Store, id: string, step: Step, other: string)
    requires CanStep(store, Move(id, step)) && other != id
    ensures other in Stepped(store, Move(id, step)) <==> other in store
    ensures other in store ==> Stepped(store, Move(id, step))[other] == store[other]
  {
  }

  /** Requests by identifier are steps of the store, so they keep it sound. */
  lemma RequestsAreSteps(store: Store, id: string, results: seq<ToolResult>, prompt: string, effortSupported: bool)
    requires id in store
    ensures SubmitTo(store, id, results).0 == Stepped(store, Move(id, SubmitStep(results, Active(store))))
    ensures ContinueIn(store, id, prompt, effortSupported).0
         == Stepped(store, Move(id, ContinueStep(prompt, effortSupported, Active(store))))
    ensures CancelIn(store, id).0 == Stepped(store, Move(id, CancelStep))
  {
  }

  /** From a reachable store a consumer reads exactly the rest of a log. */
  lemma EventsAreTheRest(store: Store, id: string, after: nat)
    requires StoreInv(store) && id in store && after <= |store[id].session.events|
    ensures EventsOf(store, id, false, after) == (store, Ok(store[id].session.events[after..]))
  {
    assert IsSound(store, id);
    LaterIsSuffix(store[id].session.events, after);
    assert Dropped(store, {}) == store;
  }

  lemma EventsOfKeeps(store: Store, id: string, expired: bool, after: int)
    requires StoreInv(store)
    ensures StoreInv(EventsOf(store, id, expired, after).0)
  {
    DroppedKeeps(store, if expired then {id} else {});
  }

  lemma SubmitToKeeps(store: Store, id: string, results: seq<ToolResult>)
    requires StoreInv(store)
    ensures StoreInv(SubmitTo(store, id, results).0)
  {
    if id in store {
      MoveKeeps(store, id, SubmitStep(results, Active(store)));
    }
  }

  lemma ContinueInKeeps(store: Store, id: string, prompt: string, effortSupported: bool)
    requires StoreInv(store)
    ensures StoreInv(ContinueIn(store, id, prompt, effortSupported).0)
  {
    if id in store {
      MoveKeeps(store, id, ContinueStep(prompt, effortSupported, Active(store)));
    }
  }

  lemma CancelInKeeps(store: Store, id: string)
    requires StoreInv(store)
    ensures StoreInv(CancelIn(store, id).0)
  {
    if id in store {
      MoveKeeps(store, id, CancelStep);
    }
  }

  lemma CancelBegunKeeps(store: Store, id: string)
    requires StoreInv(store)
    ensures StoreInv(CancelBegun(store, id).0)
  {
    CancelInKeeps(store, id);
  }

  lemma TerminalIsIdle(store: Store, id: string)
    requires StoreInv(store) && id in store
    ensures Terminal(store[id].session.status) ==> store[id].session.phase.Idle?
  {
    assert IsSound(store, id);
  }

  /** A cancellation ends every session, and what comes after it in the same request changes
      nothing more. */
  lemma CancelEnds(p: Profile, s: Session)
    requires Inv(p, s)
    ensures Terminal(Cancel(s).status) && Cancel(Cancel(s)) == Cancel(s)
  {
    CancelKeeps(p, s);
  }

  // The provider task of one session, where the task is at that step.

  ghost function EnterIn(store: Store, id: string, window: ContextWindow, measure: seq<Message> -> nat): Store {
    if id !in store || !store[id].session.phase.Probing? then store
    else
      var (p, s) := (store[id].profile, store[id].session);
      WithSession(store, id, Enter(p, s, PlanOf(RequestFor(p, s, window, measure))))
  }

  function PushIn(store: Store, id: string, delta: string): Store {
    if id !in store || !store[id].session.phase.Calling? || store[id].session.phase.emitter.None? then store
    else WithSession(store, id, SessionMachine.Push(store[id].profile, store[id].session, delta))
  }

  function FinishIn(store: Store, id: string, answer: Answer): Store {
    if id !in store || !store[id].session.phase.Calling? then store
    else WithSession(store, id, Finish(store[id].profile, store[id].session, answer))
  }

  function FailIn(store: Store, id: string, code: Code): Store {
    if id !in store || store[id].session.phase.Idle? then store
    else WithSession(store, id, Fail(store[id].session, code))
  }

  /** Every step of a provider task keeps the store sound. */
  lemma TaskStepsKeep(store: Store, id: string)
    requires StoreInv(store)
    ensures forall window, measure: seq<Message> -> nat :: StoreInv(EnterIn(store, id, window, measure))
    ensures forall delta :: StoreInv(PushIn(store, id, delta))
    ensures forall answer :: StoreInv(FinishIn(store, id, answer))
    ensures forall code :: StoreInv(FailIn(store, id, code))
  {
    if id in store {
      var p, s := store[id].profile, store[id].session;
      forall window, measure: seq<Message> -> nat | s.phase.Probing?
        ensures StoreInv(EnterIn(store, id, window, measure))
      {
        MoveKeeps(store, id, PlanStep(PlanOf(RequestFor(p, s, window, measure))));
      }
      forall delta | s.phase.Calling? && s.phase.emitter.Some? ensures StoreInv(PushIn(store, id, delta)) {
        MoveKeeps(store, id, PushStep(delta));
      }
      forall answer | s.phase.Calling? ensures StoreInv(FinishIn(store, id, answer)) {
        MoveKeeps(store, id, FinishStep(answer));
      }
      forall code | !s.phase.Idle? ensures StoreInv(FailIn(store, id, code)) {
        MoveKeeps(store, id, FailStep(code));
      }
    }
  }
}
