/** The lifecycle of all chats over every run, with any number of sessions and tasks. */
module LifecycleRuns {
  import opened Lifecycle
  import opened LifecycleInvariant
  import opened Occupancy
  import opened Supersession
  import opened Wrappers

  ghost predicate Sound(st: State) {
    Structure(st) && Turns(st) && WithinLimit(st)
  }

  lemma InitIsSound(maxLive: nat)
    ensures Sound(Init(maxLive))
  {
    assert Occupied(Init(maxLive)) == {};
  }

  lemma NextKeepsSound(st: State, event: Event)
    requires Sound(st)
    ensures Sound(Next(st, event))
  {
    match event
    case Arrival(task) =>
      if Arrives(st, task) {
        ArrivalKeepsSound(st, task);
      }
    case Death(proc) =>
      DeathKeepsSound(st, proc);
    case Progress(t, choice) =>
      if Enabled(st, t) {
        AdvanceKeepsStructure(st, t, choice);
        AdvanceKeepsTurns(st, t, choice);
        AdvanceKeepsLimit(st, t, choice);
      }
    case Vanish(t) =>
      if t in st.tasks && MayVanish(st.tasks[t]) {
        VanishingKeepsSound(st, t);
      }
  }

  lemma DeathKeepsSound(st: State, proc: nat)
    requires Sound(st)
    ensures Sound(st.(alive := st.alive - {proc}))
  {
    var st' := st.(alive := st.alive - {proc});
    assert Structure(st');
    UntouchedKeepsTurns(st, st');
    DeathKeepsLimit(st, proc);
  }

  lemma DeathKeepsLimit(st: State, proc: nat)
    requires Typed(st) && WithinLimit(st)
    ensures WithinLimit(st.(alive := st.alive - {proc}))
  {
    NobodyAddedKeepsLimit(st, st.(alive := st.alive - {proc}));
  }

  lemma VanishingKeepsSound(st: State, t: nat)
    requires Sound(st) && t in st.tasks && MayVanish(st.tasks[t])
    ensures Sound(Finish(st, t))
  {
    MoveKeepsStructure(st, t, Finish(st, t));
    UntouchedKeepsTurns(st, Finish(st, t));
    NobodyAddedKeepsLimit(st, Finish(st, t));
  }

  lemma ArrivalKeepsSound(st: State, task: Task)
    requires Sound(st) && Arrives(st, task)
    ensures Sound(Joined(st, task))
  {
    ArrivalKeepsStructure(st, task);
    ArrivalKeepsTurns(st, task);
    ArrivalKeepsLimit(st, task);
  }

  lemma ArrivalKeepsTurns(st: State, task: Task)
    requires Typed(st) && Turns(st) && Arrives(st, task)
    ensures Turns(Joined(st, task))
  {
    UntouchedKeepsTurns(st, Joined(st, task));
  }

  lemma ArrivalKeepsLimit(st: State, task: Task)
    requires Typed(st) && WithinLimit(st) && Arrives(st, task)
    ensures WithinLimit(Joined(st, task))
  {
    NobodyAddedKeepsLimit(st, Joined(st, task));
  }

  lemma ArrivalKeepsStructure(st: State, task: Task)
    requires Structure(st) && Arrives(st, task)
    ensures Structure(Joined(st, task))
  {
    var st' := Joined(st, task);
    assert Typed(st') && Exclusive(st');
    forall u | u in st.tasks
      ensures Relies(st', st'.tasks[u])
    {
      assert Relies(st, st.tasks[u]) && Refers(st, st.tasks[u]);
    }
  }

  ghost function After(st: State, events: seq<Event>): (st': State)
    requires Sound(st)
    ensures Sound(st')
    decreases |events|
  {
    if events == [] then st
    else
      NextKeepsSound(st, events[0]);
      After(Next(st, events[0]), events[1..])
  }

  ghost function AfterStart(maxLive: nat, events: seq<Event>): State {
    InitIsSound(maxLive);
    After(Init(maxLive), events)
  }

  ghost predicate Reachable(st: State, maxLive: nat) {
    exists events :: AfterStart(maxLive, events) == st
  }

  // ---- What holds in every reachable state

  /** Each chat has at most one session object that is not removed, and the map holds it. Only such an object owns a
      process, and then the directory of the chat exists. */
  lemma OneSessionPerChat(st: State, maxLive: nat, sid: nat, other: nat)
    requires Reachable(st, maxLive) && sid in st.sessions && other in st.sessions
    ensures !st.sessions[sid].removed ==> IsCurrent(st, sid)
    ensures !st.sessions[sid].removed && !st.sessions[other].removed && st.sessions[sid].key == st.sessions[other].key
            ==> sid == other
    ensures st.sessions[sid].slot.Some? ==> !st.sessions[sid].removed && st.sessions[sid].key in st.dirs
  {
    assert Sound(st);
  }

  lemma {:induction false} RunsKeepTheLimit(st: State, events: seq<Event>)
    requires Sound(st)
    ensures |Occupied(After(st, events))| <= st.maxLive
    decreases |events|
  {
    if events != [] {
      NextKeepsSound(st, events[0]);
      RunsKeepTheLimit(Next(st, events[0]), events[1..]);
    }
  }

  /** The sessions with a live process and those admitted to start one never exceed `max_live`. */
  lemma NeverMoreThanMaxLive(st: State, maxLive: nat)
    requires Reachable(st, maxLive)
    ensures |Occupied(st)| <= maxLive
  {
    InitIsSound(maxLive);
    var events :| AfterStart(maxLive, events) == st;
    RunsKeepTheLimit(Init(maxLive), events);
  }

  /** The supersession protocol in every reachable state. */
  lemma TurnsOfAChat(st: State, maxLive: nat, sid: nat)
    requires Reachable(st, maxLive) && sid in st.sessions
    ensures st.sessions[sid].busy <==> exists t: nat :: Current(st, t, sid)
    ensures forall t: nat, u: nat :: t != u && DrivesTurnOf(st, t, sid) && DrivesTurnOf(st, u, sid) ==>
              TurnAt(st, t).value.generation != TurnAt(st, u).value.generation
    ensures forall t: nat, u: nat :: Current(st, t, sid) && Current(st, u, sid) ==> t == u
    ensures forall t: nat :: DrivesTurnOf(st, t, sid) ==>
              (TurnAt(st, t).value.token in st.cancelled <==> !Current(st, t, sid) || st.sessions[sid].removed)
  {
    assert Sound(st);
    SupersessionProtocol(st, sid);
  }

  // ---- Deletion

  /** A directory is deleted only by a task that holds the state lock of the chat's session, which is removed by then and
      still the one in the map: so no other session object of the chat can own a process or start one. */
  lemma DeletionIsExclusive(st: State, t: nat, c: Choice, key: Key)
    requires Sound(st) && Enabled(st, t)
    requires key in st.dirs && key !in Advance(st, t, c).dirs
    ensures var st' := Advance(st, t, c);
            && key in st'.table
            && t in st'.tasks && st'.tasks[t] == Inside(st'.table[key], Unindex)
            && forall sid :: sid in st'.sessions && st'.sessions[sid].key == key ==>
                 st'.sessions[sid].removed && st'.sessions[sid].slot.None?
  {
    AdvanceKeepsStructure(st, t, c);
    var st' := Advance(st, t, c);
    DeletingSteps(st, t, c, key);
    assert Relies(st', st'.tasks[t]);
  }

  lemma DeletingSteps(st: State, t: nat, c: Choice, key: Key)
    requires Structure(st) && Enabled(st, t)
    requires key in st.dirs && key !in Advance(st, t, c).dirs
    ensures var st' := Advance(st, t, c);
            exists sid :: sid in st'.sessions && st'.sessions[sid].key == key && t in st'.tasks && st'.tasks[t] == Inside(sid, Unindex)
  {
    var st' := Advance(st, t, c);
    match st.tasks[t]
    case Trying(sid, chore) =>
      assert st' == Try(st, t, sid, chore, c);
      assert st'.sessions[sid].key == key;
    case Inside(sid, work) =>
      assert st' == Perform(st, t, sid, work, c);
      assert work.Check? && st'.sessions[sid].key == key;
    case _ => assert false;
  }

  /** Until the map entry is gone, the chat stays deleted: whoever finds it there finds a removed session. */
  lemma DeletedUntilUnlisted(st: State, t: nat)
    requires Sound(st) && t in st.tasks && st.tasks[t].Inside?
    requires st.tasks[t].work.Unindex? || st.tasks[t].work.Unsave? || st.tasks[t].work.Unlist?
    ensures var key := st.sessions[st.tasks[t].sid].key;
            && key in st.table && st.table[key] == st.tasks[t].sid
            && forall sid :: sid in st.sessions && st.sessions[sid].key == key ==> st.sessions[sid].removed
  {
    assert Relies(st, st.tasks[t]);
  }

  // ---- Eviction and idle stop

  /** Making room and stopping idle processes take the process of a session only if that session is unlocked and not busy;
      making room takes it from the least recently used one of those. */
  lemma OnlyIdleProcessesAreTaken(st: State, t: nat, c: Choice, sid: nat)
    requires Sound(st) && Enabled(st, t) && sid in st.sessions && st.sessions[sid].slot.Some?
    requires sid in Advance(st, t, c).sessions && Advance(st, t, c).sessions[sid].slot.None?
    requires st.tasks[t].Trying? || (st.tasks[t].Inside? && st.tasks[t].work.Room?)
    ensures !st.sessions[sid].busy && Free(st, SessionLock(sid))
    ensures st.tasks[t].Inside? ==> LeastRecentlyUsed(st, st.tasks[t].sid, sid) && |Counted(st, st.tasks[t].sid)| >= st.maxLive
  {
    var st' := Advance(st, t, c);
    if st.tasks[t].Trying? {
      assert st' == Try(st, t, st.tasks[t].sid, st.tasks[t].chore, c);
    } else {
      assert st' == MakeRoom(st, t, st.tasks[t].sid, c);
    }
  }

  // ---- Locks

  function Rank(lock: Lock): nat {
    match lock
    case SessionLock(_) => 0
    case MapLock => 1
    case IndexLock => 2
  }

  /** Every wait is for a lock ranked above all locks the task holds; in particular nobody waits for a second session. */
  lemma WaitsGoUp(task: Task, held: Lock)
    requires Holds(task, held) && Waits(task).Some?
    ensures Rank(held) < Rank(Waits(task).value)
  {
  }

  /** No deadlock: as long as there is a task, some task can take a step. */
  lemma SomeTaskCanStep(st: State)
    requires st.tasks != map[]
    ensures exists t: nat :: Enabled(st, t)
  {
    if t :| t in st.tasks && Holds(st.tasks[t], IndexLock) {
      assert Enabled(st, t);
    } else if t :| t in st.tasks && Holds(st.tasks[t], MapLock) {
      assert Enabled(st, t);
    } else if t :| t in st.tasks && st.tasks[t].Inside? {
      assert Enabled(st, t);
    } else {
      assert forall sid: nat :: Free(st, SessionLock(sid));
      var t :| t in st.tasks;
      assert Enabled(st, t);
    }
  }
}
