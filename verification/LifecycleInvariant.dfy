/** What every step of every task keeps, for any number of sessions and tasks. */
module LifecycleInvariant {
  import opened Lifecycle
  import opened Wrappers

  /** Two tasks at places that hold the same lock. */
  predicate Clash(a: Task, b: Task) {
    || (a.Inside? && b.Inside? && a.sid == b.sid)
    || (a.Loading? && b.Loading?)
    || (Holds(a, IndexLock) && Holds(b, IndexLock))
  }

  /** No two tasks hold the same lock. */
  ghost predicate Exclusive(st: State) {
    forall t, u :: t in st.tasks && u in st.tasks && t != u ==> !Clash(st.tasks[t], st.tasks[u])
  }

  /** What a task may rely on while it keeps a lock. */
  ghost predicate Relies(st: State, task: Task) {
    match task
    case Loading(key, _) => key !in st.table
    case Inside(sid, work) => sid in st.sessions && ReliesInside(st, sid, work)
    case _ => true
  }

  ghost predicate ReliesInside(st: State, sid: nat, work: Work)
    requires sid in st.sessions
  {
    var s := st.sessions[sid];
    match work
    case Room => !s.removed && !s.busy && s.slot.None?
    case Spawn => !s.removed && !s.busy && s.slot.None?
    case Ask(proc) => !s.removed && !s.busy && s.slot == Some(proc)
    case Sync(turn) => !s.removed && !s.busy
    case Unindex => s.removed && IsCurrent(st, sid)
    case Unsave => s.removed && IsCurrent(st, sid)
    case Unlist => s.removed && IsCurrent(st, sid)
    case _ => true
  }

  /** A session that is not removed is the one the map holds for its key; only such a session owns a process, and then
      its directory exists. */
  ghost predicate Filed(st: State) {
    && (forall sid :: sid in st.sessions && !st.sessions[sid].removed ==> IsCurrent(st, sid))
    && (forall sid :: sid in st.sessions && st.sessions[sid].slot.Some? ==>
          !st.sessions[sid].removed && st.sessions[sid].key in st.dirs)
    && (forall t :: t in st.tasks ==> Relies(st, st.tasks[t]))
  }

  ghost predicate Structure(st: State) {
    Typed(st) && Exclusive(st) && Filed(st)
  }

  // ---- Steps that move a task and change at most one session

  function Moved(st: State, t: nat, after: Option<Task>): map<nat, Task> {
    if after.Some? then st.tasks[t := after.value] else st.tasks - {t}
  }

  /** The task may be at `after`: no other task is at a place that holds the same lock. */
  ghost predicate MayBeAt(st: State, t: nat, after: Task) {
    forall u :: u in st.tasks && u != t ==> !Clash(after, st.tasks[u])
  }

  ghost predicate OnlyOneInside(st: State, t: nat, sid: nat) {
    forall u :: u in st.tasks && u != t && st.tasks[u].Inside? ==> st.tasks[u].sid != sid
  }

  /** A step of `t` that leaves the session map alone, changes the session `sid` only, which no other task has locked,
      and keeps the directories of the sessions that own a process. */
  ghost predicate Updates(st: State, t: nat, sid: nat, s: Session, after: Option<Task>, st': State) {
    && t in st.tasks
    && sid in st.sessions
    && OnlyOneInside(st, t, sid)
    && st'.sessions == st.sessions[sid := s]
    && s.key == st.sessions[sid].key
    && (st.sessions[sid].removed ==> s.removed)
    && (s.slot.Some? ==> !s.removed && s.key in st'.dirs && s.slot.value < st'.nextProc)
    && (st.dirs <= st'.dirs || (IsCurrent(st, sid) && st'.dirs == st.dirs - {s.key} && s.removed))
    && st'.table == st.table
    && st'.tasks == Moved(st, t, after)
    && (after.Some? ==> Refers(st, after.value) && MayBeAt(st, t, after.value) && Relies(st', after.value))
    && st'.nextTask == st.nextTask
    && st'.nextSession == st.nextSession
    && st'.nextProc >= st.nextProc
  }

  lemma UpdateKeepsExclusive(st: State, t: nat, sid: nat, s: Session, after: Option<Task>, st': State)
    requires Typed(st) && Exclusive(st) && Updates(st, t, sid, s, after, st')
    ensures Typed(st') && Exclusive(st')
  {
  }

  lemma UpdateKeepsFiled(st: State, t: nat, sid: nat, s: Session, after: Option<Task>, st': State)
    requires Structure(st) && Updates(st, t, sid, s, after, st')
    ensures Filed(st')
  {
    if st'.dirs == st.dirs - {s.key} && IsCurrent(st, sid) && s.removed {
      forall other | other in st'.sessions && st'.sessions[other].slot.Some?
        ensures st'.sessions[other].key in st'.dirs
      {
        assert other != sid ==> IsCurrent(st, other);
      }
    }
  }

  lemma UpdateKeeps(st: State, t: nat, sid: nat, after: Option<Task>, st': State)
    requires sid in st'.sessions
    requires Structure(st) && Updates(st, t, sid, st'.sessions[sid], after, st')
    ensures Structure(st')
  {
    UpdateKeepsExclusive(st, t, sid, st'.sessions[sid], after, st');
    UpdateKeepsFiled(st, t, sid, st'.sessions[sid], after, st');
  }

  /** The task a step leaves behind. */
  function TaskAfter(st': State, t: nat): Option<Task> {
    if t in st'.tasks then Some(st'.tasks[t]) else None
  }

  lemma SupersedeKeepsStructure(st: State, t: nat, sid: nat, stopped: bool)
    requires Structure(st) && t in st.tasks && st.tasks[t] == Waiting(sid, Enter) && Free(st, SessionLock(sid))
    requires !st.sessions[sid].removed
    ensures var calm := Supersede(st, sid, stopped);
            && Structure(calm)
            && calm.tasks == st.tasks
            && sid in calm.sessions
            && !calm.sessions[sid].removed
            && !calm.sessions[sid].busy
  {
    var calm := Supersede(st, sid, stopped);
    assert st.tasks[t := st.tasks[t]] == st.tasks;
    if st.sessions[sid].busy {
      UpdateKeeps(st, t, sid, Some(st.tasks[t]), calm);
    }
  }

  lemma ProceedKeepsStructure(st: State, t: nat, sid: nat)
    requires Structure(st) && t in st.tasks && st.tasks[t] == Waiting(sid, Enter) && Free(st, SessionLock(sid))
    requires !st.sessions[sid].removed && !st.sessions[sid].busy
    ensures Structure(Proceed(st, t, sid))
  {
    var st' := Proceed(st, t, sid);
    UpdateKeeps(st, t, sid, TaskAfter(st', t), st');
  }

  lemma ArriveKeepsStructure(st: State, t: nat, sid: nat, visit: Visit, c: Choice)
    requires Structure(st) && t in st.tasks && st.tasks[t] == Waiting(sid, visit) && Free(st, SessionLock(sid))
    ensures Structure(Arrive(st, t, sid, visit, c))
  {
    if visit == Enter && !st.sessions[sid].removed {
      SupersedeKeepsStructure(st, t, sid, c.ok);
      ProceedKeepsStructure(Supersede(st, sid, c.ok), t, sid);
    } else {
      var st' := Arrive(st, t, sid, visit, c);
      UpdateKeeps(st, t, sid, TaskAfter(st', t), st');
    }
  }

  /** A step that only moves its task. */
  lemma MoveKeepsStructure(st: State, t: nat, st': State)
    requires Structure(st) && t in st.tasks
    requires st' == st.(tasks := Moved(st, t, TaskAfter(st', t)))
    requires t in st'.tasks ==>
               Refers(st, st'.tasks[t]) && MayBeAt(st, t, st'.tasks[t]) && Relies(st', st'.tasks[t])
    ensures Structure(st')
  {
  }

  lemma TryKeepsStructure(st: State, t: nat, sid: nat, chore: Chore, c: Choice)
    requires Structure(st) && t in st.tasks && st.tasks[t] == Trying(sid, chore)
    ensures Structure(Try(st, t, sid, chore, c))
  {
    var st' := Try(st, t, sid, chore, c);
    if Free(st, SessionLock(sid)) {
      UpdateKeeps(st, t, sid, TaskAfter(st', t), st');
    } else {
      MoveKeepsStructure(st, t, st');
    }
  }

  lemma MakeRoomKeepsStructure(st: State, t: nat, sid: nat, c: Choice)
    requires Structure(st) && t in st.tasks && st.tasks[t] == Inside(sid, Room)
    ensures Structure(MakeRoom(st, t, sid, c))
  {
    var st' := MakeRoom(st, t, sid, c);
    if |Counted(st, sid)| >= st.maxLive && LeastRecentlyUsed(st, sid, c.victim) {
      UpdateKeeps(st, t, c.victim, Some(Inside(sid, Spawn)), st');
    } else {
      MoveKeepsStructure(st, t, st');
    }
  }

  lemma SpawnKeepsStructure(st: State, t: nat, sid: nat, c: Choice)
    requires Structure(st) && t in st.tasks && st.tasks[t] == Inside(sid, Spawn)
    ensures Structure(SpawnProcess(st, t, sid, c))
  {
    var st' := SpawnProcess(st, t, sid, c);
    UpdateKeeps(st, t, sid, TaskAfter(st', t), st');
  }

  lemma PromptKeepsStructure(st: State, t: nat, sid: nat, proc: nat, c: Choice)
    requires Structure(st) && t in st.tasks && st.tasks[t] == Inside(sid, Ask(proc))
    ensures Structure(Prompt(st, t, sid, proc, c))
  {
    var st' := Prompt(st, t, sid, proc, c);
    UpdateKeeps(st, t, sid, TaskAfter(st', t), st');
  }

  lemma SyncKeepsStructure(st: State, t: nat, sid: nat, turn: Turn, c: Choice)
    requires Structure(st) && t in st.tasks && st.tasks[t] == Inside(sid, Sync(turn))
    ensures Structure(SyncAndRelease(st, t, sid, turn.proc, c))
  {
    var st' := SyncAndRelease(st, t, sid, turn.proc, c);
    UpdateKeeps(st, t, sid, TaskAfter(st', t), st');
  }

  lemma EndKeepsStructure(st: State, t: nat, turn: Turn, c: Choice)
    requires Structure(st) && t in st.tasks && st.tasks[t] == Running(turn, true) && Free(st, SessionLock(turn.sid))
    ensures Structure(EndTurn(st, t, turn, c))
  {
    var st' := EndTurn(st, t, turn, c);
    UpdateKeeps(st, t, turn.sid, TaskAfter(st', t), st');
  }

  lemma CheckKeepsStructure(st: State, t: nat, sid: nat, c: Choice)
    requires Structure(st) && t in st.tasks && st.tasks[t] == Inside(sid, Check)
    ensures Structure(Perform(st, t, sid, Check, c))
  {
    var st' := Perform(st, t, sid, Check, c);
    UpdateKeeps(st, t, sid, TaskAfter(st', t), st');
  }

  /** A new session object for a key the map does not hold, made while no other task holds the map. */
  lemma AddKeepsStructure(st: State, t: nat, key: Key, placeholder: bool, now: nat, visit: Visit)
    requires Structure(st) && t in st.tasks && key !in st.table
    requires forall u :: u in st.tasks && u != t ==> !st.tasks[u].Loading?
    ensures Structure(Go(AddSession(st, key, placeholder, now), t, Waiting(st.nextSession, visit)))
  {
    var added := AddSession(st, key, placeholder, now);
    var st' := Go(added, t, Waiting(st.nextSession, visit));
    assert Typed(st') && Exclusive(st');
    forall u | u in st.tasks && u != t
      ensures Relies(st', st.tasks[u])
    {
      assert Relies(st, st.tasks[u]) && Refers(st, st.tasks[u]);
    }
  }

  lemma LookKeepsStructure(st: State, t: nat, key: Key, goal: Goal, c: Choice)
    requires Structure(st) && t in st.tasks && st.tasks[t] == Looking(key, goal) && Free(st, MapLock)
    ensures Structure(Look(st, t, key, goal, c))
  {
    if goal == ToRemove && key !in st.table {
      assert forall u :: u in st.tasks ==> !Holds(st.tasks[u], MapLock);
      AddKeepsStructure(st, t, key, true, c.now, Removal);
    } else {
      MoveKeepsStructure(st, t, Look(st, t, key, goal, c));
    }
  }

  lemma UnlistKeepsStructure(st: State, t: nat, sid: nat, c: Choice)
    requires Structure(st) && t in st.tasks && st.tasks[t] == Inside(sid, Unlist)
    ensures Structure(Perform(st, t, sid, Unlist, c))
  {
  }

  lemma PerformKeepsStructure(st: State, t: nat, sid: nat, work: Work, c: Choice)
    requires Structure(st) && Enabled(st, t) && st.tasks[t] == Inside(sid, work)
    ensures Structure(Perform(st, t, sid, work, c))
  {
    match work
    case Room => MakeRoomKeepsStructure(st, t, sid, c);
    case Spawn => SpawnKeepsStructure(st, t, sid, c);
    case Ask(proc) => PromptKeepsStructure(st, t, sid, proc, c);
    case Sync(turn) => SyncKeepsStructure(st, t, sid, turn, c);
    case Check => CheckKeepsStructure(st, t, sid, c);
    case Unlist => UnlistKeepsStructure(st, t, sid, c);
    case _ => MoveKeepsStructure(st, t, Perform(st, t, sid, work, c));
  }

  lemma AdvanceKeepsStructure(st: State, t: nat, c: Choice)
    requires Structure(st) && Enabled(st, t)
    ensures Structure(Advance(st, t, c))
  {
    match st.tasks[t]
    case Looking(key, goal) => LookKeepsStructure(st, t, key, goal, c);
    case Loading(key, again) =>
      assert forall u :: u in st.tasks && u != t ==> !Clash(st.tasks[t], st.tasks[u]);
      AddKeepsStructure(st, t, key, false, c.now, if again then Enter else Peek);
    case Waiting(sid, visit) => ArriveKeepsStructure(st, t, sid, visit, c);
    case Trying(sid, chore) => TryKeepsStructure(st, t, sid, chore, c);
    case Inside(sid, work) => PerformKeepsStructure(st, t, sid, work, c);
    case Running(turn, ending) =>
      if ending {
        EndKeepsStructure(st, t, turn, c);
      } else {
        MoveKeepsStructure(st, t, Advance(st, t, c));
      }
    case Saving(_) => MoveKeepsStructure(st, t, Advance(st, t, c));
  }
}
