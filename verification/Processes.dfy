/** Processes and directories of all chats: none is leaked, and exactly when a step ends or makes one. */
module Processes {
  import opened Lifecycle
  import opened LifecycleInvariant
  import opened LifecycleRuns
  import opened Occupancy
  import opened Ownership
  import opened Wrappers

  // ---- No process without a session

  ghost predicate HasSession(st: State, proc: nat) {
    exists sid: nat :: InSlot(st, sid, proc)
  }

  ghost predicate NoLeaks(st: State) {
    forall proc: nat :: proc in st.alive ==> HasSession(st, proc)
  }

  /** A step that starts no process and takes live ones out of their slots only with their end. */
  ghost predicate LeaksNothing(st: State, st': State) {
    && st'.alive <= st.alive
    && forall sid: nat, proc: nat :: InSlot(st, sid, proc) && proc in st'.alive ==> InSlot(st', sid, proc)
  }

  lemma LeakingNothing(st: State, st': State)
    requires NoLeaks(st) && LeaksNothing(st, st')
    ensures NoLeaks(st')
  {
    forall proc: nat | proc in st'.alive
      ensures HasSession(st', proc)
    {
      var sid: nat :| InSlot(st, sid, proc);
      assert InSlot(st', sid, proc);
    }
  }

  lemma LeaksAddUp(st: State, mid: State, st': State)
    requires LeaksNothing(st, mid) && LeaksNothing(mid, st')
    ensures LeaksNothing(st, st')
  {
    forall sid: nat, proc: nat | InSlot(st, sid, proc) && proc in st'.alive
      ensures InSlot(st', sid, proc)
    {
      assert InSlot(mid, sid, proc);
    }
  }

  lemma EmptyLeaksNothing(st: State, sid: nat)
    requires sid in st.sessions
    ensures LeaksNothing(st, Empty(st, sid))
  {
  }

  lemma DeleteLeaksNothing(st: State, sid: nat)
    requires sid in st.sessions
    ensures LeaksNothing(st, Delete(st, sid))
  {
  }

  lemma SupersedeLeaksNothing(st: State, sid: nat, stopped: bool)
    requires sid in st.sessions
    ensures LeaksNothing(st, Supersede(st, sid, stopped))
  {
  }

  lemma ProceedLeaksNothing(st: State, t: nat, sid: nat)
    requires sid in st.sessions
    ensures LeaksNothing(st, Proceed(st, t, sid))
  {
  }

  lemma AddLeaksNothing(st: State, key: Key, placeholder: bool, now: nat)
    requires Typed(st)
    ensures LeaksNothing(st, AddSession(st, key, placeholder, now))
  {
  }

  lemma ArriveLeaksNothing(st: State, t: nat, sid: nat, visit: Visit, c: Choice)
    requires sid in st.sessions
    ensures LeaksNothing(st, Arrive(st, t, sid, visit, c))
  {
    if visit == Enter && !st.sessions[sid].removed {
      SupersedeLeaksNothing(st, sid, c.ok);
      ProceedLeaksNothing(Supersede(st, sid, c.ok), t, sid);
      LeaksAddUp(st, Supersede(st, sid, c.ok), Arrive(st, t, sid, visit, c));
    } else if visit == TakeProcess {
      EmptyLeaksNothing(st, sid);
    }
  }

  lemma TryLeaksNothing(st: State, t: nat, sid: nat, chore: Chore, c: Choice)
    requires sid in st.sessions
    ensures LeaksNothing(st, Try(st, t, sid, chore, c))
  {
    EmptyLeaksNothing(st, sid);
    DeleteLeaksNothing(st, sid);
  }

  lemma LookLeaksNothing(st: State, t: nat, key: Key, goal: Goal, c: Choice)
    requires Typed(st)
    ensures LeaksNothing(st, Look(st, t, key, goal, c))
  {
    AddLeaksNothing(st, key, true, c.now);
  }

  lemma SyncLeaksNothing(st: State, t: nat, sid: nat, proc: nat, c: Choice)
    requires sid in st.sessions
    ensures LeaksNothing(st, SyncAndRelease(st, t, sid, proc, c))
  {
  }

  lemma AskLeaksNothing(st: State, t: nat, sid: nat, proc: nat, c: Choice)
    requires sid in st.sessions
    ensures LeaksNothing(st, Prompt(st, t, sid, proc, c))
  {
    EmptyLeaksNothing(st, sid);
  }

  lemma RoomLeaksNothing(st: State, t: nat, sid: nat, c: Choice)
    requires sid in st.sessions
    ensures LeaksNothing(st, MakeRoom(st, t, sid, c))
  {
    if LeastRecentlyUsed(st, sid, c.victim) {
      EmptyLeaksNothing(st, c.victim);
    }
  }

  lemma SpawnKeepsNoLeaks(st: State, t: nat, sid: nat, c: Choice)
    requires Structure(st) && NoLeaks(st) && t in st.tasks && st.tasks[t] == Inside(sid, Spawn)
    ensures NoLeaks(SpawnProcess(st, t, sid, c))
  {
    var st' := SpawnProcess(st, t, sid, c);
    assert Relies(st, st.tasks[t]);
    forall proc: nat | proc in st'.alive
      ensures HasSession(st', proc)
    {
      if proc in st.alive {
        var other: nat :| InSlot(st, other, proc);
        assert InSlot(st', other, proc);
      } else {
        assert InSlot(st', sid, proc);
      }
    }
  }

  lemma WorkKeepsNoLeaks(st: State, t: nat, sid: nat, work: Work, c: Choice)
    requires Structure(st) && NoLeaks(st) && t in st.tasks && st.tasks[t] == Inside(sid, work)
    ensures NoLeaks(Perform(st, t, sid, work, c))
  {
    match work
    case Spawn => SpawnKeepsNoLeaks(st, t, sid, c);
    case Room => RoomLeaksNothing(st, t, sid, c); LeakingNothing(st, Perform(st, t, sid, work, c));
    case Ask(proc) => AskLeaksNothing(st, t, sid, proc, c); LeakingNothing(st, Perform(st, t, sid, work, c));
    case Sync(turn) => SyncLeaksNothing(st, t, sid, turn.proc, c); LeakingNothing(st, Perform(st, t, sid, work, c));
    case _ => DeleteLeaksNothing(st, sid); LeakingNothing(st, Perform(st, t, sid, work, c));
  }

  lemma AdvanceKeepsNoLeaks(st: State, t: nat, c: Choice)
    requires Structure(st) && NoLeaks(st) && Enabled(st, t)
    ensures NoLeaks(Advance(st, t, c))
  {
    match st.tasks[t]
    case Inside(sid, work) => WorkKeepsNoLeaks(st, t, sid, work, c);
    case Waiting(sid, visit) => ArriveLeaksNothing(st, t, sid, visit, c); LeakingNothing(st, Advance(st, t, c));
    case Trying(sid, chore) => TryLeaksNothing(st, t, sid, chore, c); LeakingNothing(st, Advance(st, t, c));
    case Looking(key, goal) => LookLeaksNothing(st, t, key, goal, c); LeakingNothing(st, Advance(st, t, c));
    case Loading(key, again) => AddLeaksNothing(st, key, false, c.now); LeakingNothing(st, Advance(st, t, c));
    case _ => LeakingNothing(st, Advance(st, t, c));
  }

  lemma NextKeepsNoLeaks(st: State, event: Event)
    requires Sound(st) && NoLeaks(st)
    ensures NoLeaks(Next(st, event))
  {
    match event
    case Progress(t, choice) =>
      if Enabled(st, t) {
        AdvanceKeepsNoLeaks(st, t, choice);
      }
    case _ => LeakingNothing(st, Next(st, event));
  }

  lemma {:induction false} RunsKeepNoLeaks(st: State, events: seq<Event>)
    requires Sound(st) && NoLeaks(st)
    ensures NoLeaks(After(st, events))
    decreases |events|
  {
    if events != [] {
      NextKeepsSound(st, events[0]);
      NextKeepsNoLeaks(st, events[0]);
      RunsKeepNoLeaks(Next(st, events[0]), events[1..]);
    }
  }

  // ---- How many there are

  lemma {:induction false} OneSessionEach(st: State, procs: set<nat>)
    requires Owned(st) && procs <= st.alive && NoLeaks(st)
    ensures |procs| <= |LiveWith(st, procs)|
  {
    if procs != {} {
      var proc: nat :| proc in procs;
      var fewer := procs - {proc};
      OneSessionEach(st, fewer);
      var sid: nat :| InSlot(st, sid, proc);
      assert sid in LiveWith(st, procs) && sid !in LiveWith(st, fewer);
      SubsetIsNoLarger(LiveWith(st, fewer) + {sid}, LiveWith(st, procs));
    }
  }

  /** The sessions whose process is one of these. */
  ghost function LiveWith(st: State, procs: set<nat>): set<nat> {
    set sid | sid in st.sessions && st.sessions[sid].slot.Some? && st.sessions[sid].slot.value in procs
  }

  /** No process is ever leaked: in every reachable state each live process is in the slot of exactly one session, and so the
      number of live processes is at most `max_live`. */
  lemma ProcessesWithinLimit(st: State, maxLive: nat)
    requires Reachable(st, maxLive)
    ensures forall proc: nat :: proc in st.alive ==> HasSession(st, proc)
    ensures forall proc: nat, a: nat, b: nat :: InSlot(st, a, proc) && InSlot(st, b, proc) ==> a == b
    ensures |st.alive| <= maxLive
  {
    InitIsSound(maxLive);
    var events :| AfterStart(maxLive, events) == st;
    RunsKeepNoLeaks(Init(maxLive), events);
    ReachableIsOwned(st, maxLive);
    NeverMoreThanMaxLive(st, maxLive);
    OneSessionEach(st, st.alive);
    SubsetIsNoLarger(LiveWith(st, st.alive), Occupied(st));
    forall proc: nat, a: nat, b: nat | InSlot(st, a, proc) && InSlot(st, b, proc)
      ensures a == b
    {
      assert Own(st, a, proc);
    }
  }
}
