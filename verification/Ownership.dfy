/** A process belongs to one session: no step of any task, also not the end of a turn that was taken over, touches the process of
    another session, and no turn runs on a session while an older one is still being reconciled. */
module Ownership {
  import opened Lifecycle
  import opened LifecycleInvariant
  import opened LifecycleRuns
  import opened Supersession
  import opened Wrappers

  datatype Claim = Claim(sid: nat, proc: nat)

  /** The session and process of the turn that a task drives or ends. */
  function ClaimOf(task: Task): Option<Claim> {
    match task
    case Running(turn, _) => Some(Claim(turn.sid, turn.proc))
    case Inside(sid, Sync(turn)) => Some(Claim(sid, turn.proc))
    case _ => None
  }

  predicate InSlot(st: State, sid: nat, proc: nat) {
    sid in st.sessions && st.sessions[sid].slot == Some(proc)
  }

  /** Nobody but this session has the process in its slot, and it is not one that is still to be started. */
  ghost predicate Own(st: State, sid: nat, proc: nat) {
    proc < st.nextProc && forall other: nat :: InSlot(st, other, proc) ==> other == sid
  }

  ghost predicate Owned(st: State) {
    && (forall sid: nat, proc: nat :: InSlot(st, sid, proc) ==> Own(st, sid, proc))
    && (forall t: nat :: t in st.tasks && ClaimOf(st.tasks[t]).Some? ==>
          Own(st, ClaimOf(st.tasks[t]).value.sid, ClaimOf(st.tasks[t]).value.proc))
  }

  // ---- Every step keeps this

  /** A step that fills no slot and lets no task claim what it did not claim before. */
  ghost predicate Inherits(st: State, st': State) {
    && st.nextProc <= st'.nextProc
    && (forall sid: nat, proc: nat :: InSlot(st', sid, proc) ==> InSlot(st, sid, proc))
    && (forall t: nat :: t in st'.tasks && ClaimOf(st'.tasks[t]).Some? ==>
          t in st.tasks && ClaimOf(st'.tasks[t]) == ClaimOf(st.tasks[t]))
  }

  lemma InheritingKeepsOwned(st: State, st': State)
    requires Owned(st) && Inherits(st, st')
    ensures Owned(st')
  {
    forall sid: nat, proc: nat | InSlot(st', sid, proc)
      ensures Own(st', sid, proc)
    {
      assert InSlot(st, sid, proc) && Own(st, sid, proc);
    }
    forall t: nat | t in st'.tasks && ClaimOf(st'.tasks[t]).Some?
      ensures Own(st', ClaimOf(st'.tasks[t]).value.sid, ClaimOf(st'.tasks[t]).value.proc)
    {
      assert Own(st, ClaimOf(st.tasks[t]).value.sid, ClaimOf(st.tasks[t]).value.proc);
    }
  }

  lemma SpawnKeepsOwned(st: State, t: nat, sid: nat, c: Choice)
    requires Typed(st) && Owned(st) && t in st.tasks && st.tasks[t] == Inside(sid, Spawn)
    ensures Owned(SpawnProcess(st, t, sid, c))
  {
    var st' := SpawnProcess(st, t, sid, c);
    if c.ok {
      forall other: nat, proc: nat | InSlot(st', other, proc)
        ensures Own(st', other, proc)
      {
        assert forall third: nat :: third != sid && InSlot(st', third, proc) ==> InSlot(st, third, proc);
        assert InSlot(st, sid, proc) ==> proc < st.nextProc;
        if other != sid {
          assert Own(st, other, proc);
        }
      }
      forall u: nat | u in st'.tasks && ClaimOf(st'.tasks[u]).Some?
        ensures Own(st', ClaimOf(st'.tasks[u]).value.sid, ClaimOf(st'.tasks[u]).value.proc)
      {
        var claim := ClaimOf(st'.tasks[u]).value;
        assert u != t && Own(st, claim.sid, claim.proc);
        assert forall other: nat :: other != sid && InSlot(st', other, claim.proc) ==> InSlot(st, other, claim.proc);
      }
    } else {
      InheritingKeepsOwned(st, st');
    }
  }

  /** The turn that starts claims the process that is in the slot of its session. */
  lemma PromptKeepsOwned(st: State, t: nat, sid: nat, proc: nat, c: Choice)
    requires Structure(st) && Owned(st) && t in st.tasks && st.tasks[t] == Inside(sid, Ask(proc))
    ensures Owned(Prompt(st, t, sid, proc, c))
  {
    var st' := Prompt(st, t, sid, proc, c);
    if c.ok {
      assert Relies(st, st.tasks[t]);
      assert InSlot(st, sid, proc);
      SameSlots(st, st');
      forall u: nat | u in st'.tasks && ClaimOf(st'.tasks[u]).Some?
        ensures Own(st', ClaimOf(st'.tasks[u]).value.sid, ClaimOf(st'.tasks[u]).value.proc)
      {
        assert u != t ==> st'.tasks[u] == st.tasks[u];
      }
    } else {
      InheritingKeepsOwned(st, st');
    }
  }

  lemma SameSlots(st: State, st': State)
    requires st'.nextProc == st.nextProc && st'.sessions.Keys == st.sessions.Keys
    requires forall sid :: sid in st.sessions ==> st'.sessions[sid].slot == st.sessions[sid].slot
    ensures forall sid: nat, proc: nat :: Own(st', sid, proc) <==> Own(st, sid, proc)
    ensures forall sid: nat, proc: nat :: InSlot(st', sid, proc) <==> InSlot(st, sid, proc)
  {
    assert forall sid: nat, proc: nat :: InSlot(st', sid, proc) <==> InSlot(st, sid, proc);
  }

  lemma MakeRoomKeepsOwned(st: State, t: nat, sid: nat, c: Choice)
    requires Structure(st) && Owned(st) && t in st.tasks && st.tasks[t] == Inside(sid, Room)
    ensures Owned(MakeRoom(st, t, sid, c))
  {
    InheritingKeepsOwned(st, MakeRoom(st, t, sid, c));
  }

  lemma SyncKeepsOwned(st: State, t: nat, sid: nat, turn: Turn, c: Choice)
    requires Structure(st) && Owned(st) && t in st.tasks && st.tasks[t] == Inside(sid, Sync(turn))
    ensures Owned(SyncAndRelease(st, t, sid, turn.proc, c))
  {
    InheritingKeepsOwned(st, SyncAndRelease(st, t, sid, turn.proc, c));
  }

  lemma PerformKeepsOwned(st: State, t: nat, sid: nat, work: Work, c: Choice)
    requires Structure(st) && Owned(st) && t in st.tasks && st.tasks[t] == Inside(sid, work)
    ensures Owned(Perform(st, t, sid, work, c))
  {
    var st' := Perform(st, t, sid, work, c);
    match work
    case Room => MakeRoomKeepsOwned(st, t, sid, c);
    case Spawn => SpawnKeepsOwned(st, t, sid, c);
    case Sync(turn) => SyncKeepsOwned(st, t, sid, turn, c);
    case Ask(proc) => PromptKeepsOwned(st, t, sid, proc, c);
    case _ => InheritingKeepsOwned(st, st');
  }

  lemma SupersedeKeepsOwned(st: State, sid: nat, stopped: bool)
    requires Owned(st) && sid in st.sessions
    ensures Owned(Supersede(st, sid, stopped))
  {
    InheritingKeepsOwned(st, Supersede(st, sid, stopped));
  }

  lemma ProceedKeepsOwned(st: State, t: nat, sid: nat)
    requires Owned(st) && t in st.tasks && sid in st.sessions
    ensures Owned(Proceed(st, t, sid))
  {
    InheritingKeepsOwned(st, Proceed(st, t, sid));
  }

  lemma ArriveKeepsOwned(st: State, t: nat, sid: nat, visit: Visit, c: Choice)
    requires Structure(st) && Owned(st) && t in st.tasks && st.tasks[t] == Waiting(sid, visit)
    ensures Owned(Arrive(st, t, sid, visit, c))
  {
    if visit == Enter && !st.sessions[sid].removed {
      SupersedeKeepsOwned(st, sid, c.ok);
      ProceedKeepsOwned(Supersede(st, sid, c.ok), t, sid);
    } else {
      InheritingKeepsOwned(st, Arrive(st, t, sid, visit, c));
    }
  }

  lemma AdvanceKeepsOwned(st: State, t: nat, c: Choice)
    requires Structure(st) && Owned(st) && Enabled(st, t)
    ensures Owned(Advance(st, t, c))
  {
    match st.tasks[t]
    case Inside(sid, work) => PerformKeepsOwned(st, t, sid, work, c);
    case Waiting(sid, visit) => ArriveKeepsOwned(st, t, sid, visit, c);
    case Looking(key, goal) => LookKeepsOwned(st, t, key, goal, c);
    case Trying(sid, chore) => TryKeepsOwned(st, t, sid, chore, c);
    case Running(turn, ending) => EndKeepsOwned(st, t, turn, ending, c);
    case _ => InheritingKeepsOwned(st, Advance(st, t, c));
  }

  lemma LookKeepsOwned(st: State, t: nat, key: Key, goal: Goal, c: Choice)
    requires Structure(st) && Owned(st) && t in st.tasks && st.tasks[t] == Looking(key, goal)
    ensures Owned(Look(st, t, key, goal, c))
  {
    InheritingKeepsOwned(st, Look(st, t, key, goal, c));
  }

  lemma TryKeepsOwned(st: State, t: nat, sid: nat, chore: Chore, c: Choice)
    requires Structure(st) && Owned(st) && t in st.tasks && st.tasks[t] == Trying(sid, chore)
    ensures Owned(Try(st, t, sid, chore, c))
  {
    InheritingKeepsOwned(st, Try(st, t, sid, chore, c));
  }

  lemma EndKeepsOwned(st: State, t: nat, turn: Turn, ending: bool, c: Choice)
    requires Structure(st) && Owned(st) && Enabled(st, t) && st.tasks[t] == Running(turn, ending)
    ensures Owned(Advance(st, t, c))
  {
    InheritingKeepsOwned(st, Advance(st, t, c));
  }

  lemma NextKeepsOwned(st: State, event: Event)
    requires Sound(st) && Owned(st)
    ensures Owned(Next(st, event))
  {
    match event
    case Progress(t, choice) =>
      if Enabled(st, t) {
        AdvanceKeepsOwned(st, t, choice);
      }
    case _ => InheritingKeepsOwned(st, Next(st, event));
  }

  lemma {:induction false} RunsKeepOwned(st: State, events: seq<Event>)
    requires Sound(st) && Owned(st)
    ensures Owned(After(st, events))
    decreases |events|
  {
    if events != [] {
      NextKeepsSound(st, events[0]);
      NextKeepsOwned(st, events[0]);
      RunsKeepOwned(Next(st, events[0]), events[1..]);
    }
  }

  lemma ReachableIsOwned(st: State, maxLive: nat)
    requires Reachable(st, maxLive)
    ensures Sound(st) && Owned(st)
  {
    InitIsSound(maxLive);
    var events :| AfterStart(maxLive, events) == st;
    RunsKeepOwned(Init(maxLive), events);
  }

  // ---- What it means

  /** No two sessions have the same process, and the process of a turn, the latest or not, is in no other session's slot. */
  lemma ProcessesAreNotShared(st: State, maxLive: nat, sid: nat, other: nat)
    requires Reachable(st, maxLive) && sid in st.sessions && other in st.sessions && sid != other
    ensures st.sessions[sid].slot.Some? ==> st.sessions[sid].slot != st.sessions[other].slot
    ensures forall t: nat :: t in st.tasks && ClaimOf(st.tasks[t]).Some? && ClaimOf(st.tasks[t]).value.sid == sid ==>
              st.sessions[other].slot != Some(ClaimOf(st.tasks[t]).value.proc)
  {
    ReachableIsOwned(st, maxLive);
    if st.sessions[sid].slot.Some? {
      assert InSlot(st, sid, st.sessions[sid].slot.value);
      assert InSlot(st, other, st.sessions[sid].slot.value) ==> other == sid;
    }
    forall t: nat | t in st.tasks && ClaimOf(st.tasks[t]).Some? && ClaimOf(st.tasks[t]).value.sid == sid
      ensures st.sessions[other].slot != Some(ClaimOf(st.tasks[t]).value.proc)
    {
      assert InSlot(st, other, ClaimOf(st.tasks[t]).value.proc) ==> other == sid;
    }
  }

  /** While a turn is reconciled, and so possibly aborted, no turn runs on its session: those that came before were taken over,
      and one that comes after waits. */
  lemma NobodyRunsDuringSync(st: State, maxLive: nat, t: nat, sid: nat, turn: Turn)
    requires Reachable(st, maxLive) && t in st.tasks && st.tasks[t] == Inside(sid, Sync(turn))
    ensures forall u: nat :: !Current(st, u, sid)
  {
    ReachableIsOwned(st, maxLive);
    assert Relies(st, st.tasks[t]);
    forall u: nat
      ensures !Current(st, u, sid)
    {
      if TurnAt(st, u).Some? {
        assert TurnFits(st, TurnAt(st, u).value);
      }
    }
  }

  /** Whatever a turn does when it ends, the latest or an older one, every other session keeps its live process and everything
      else; ending an older turn changes nothing at all. */
  lemma EndingReachesNoOther(st: State, maxLive: nat, t: nat, c: Choice, turn: Turn)
    requires Reachable(st, maxLive) && Enabled(st, t)
    requires st.tasks[t] == Running(turn, true) || st.tasks[t] == Inside(turn.sid, Sync(turn))
    ensures var st' := Advance(st, t, c);
            forall other :: other in st.sessions && other != turn.sid ==>
              st'.sessions[other] == st.sessions[other] && (Live(st', other) <==> Live(st, other))
    ensures st.tasks[t].Running? && !Current(st, t, turn.sid) ==> Advance(st, t, c) == st.(tasks := st.tasks - {t})
  {
    ReachableIsOwned(st, maxLive);
    if st.tasks[t].Running? {
      OlderEndIsSilent(st, t, turn, c);
    } else {
      var st' := SyncAndRelease(st, t, turn.sid, turn.proc, c);
      forall other | other in st.sessions && other != turn.sid
        ensures Live(st', other) <==> Live(st, other)
      {
        ProcessesAreNotShared(st, maxLive, turn.sid, other);
      }
    }
  }
}
