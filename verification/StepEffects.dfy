/** Exactly which steps, of all tasks together, stop a process, delete a chat, and make or delete a directory. */
module StepEffects {
  import opened Lifecycle
  import opened LifecycleInvariant
  import opened LifecycleRuns
  import opened Ownership
  import opened Removals
  import opened Supersession
  import opened Wrappers

  // ---- Processes

  /** Why a step of `t` stops the live process of this session: a request takes over a turn that does not stop; a control command
      fails; another chat needs the room and this one was used least recently; its turn ends without an answer, or idle
      processes are not kept; it has been idle for too long; its chat is deleted; or the proxy shuts down. */
  ghost predicate StopsProcess(st: State, t: nat, c: Choice, sid: nat)
    requires sid in st.sessions && t in st.tasks
  {
    match st.tasks[t]
    case Waiting(at, Enter) => at == sid && st.sessions[sid].busy && !c.ok
    case Waiting(at, TakeProcess) => at == sid
    case Trying(at, StopIdle) => at == sid && Free(st, SessionLock(sid)) && !st.sessions[sid].busy && c.ok
    case Inside(at, Room) =>
      at in st.sessions && |Counted(st, at)| >= st.maxLive && c.victim == sid && LeastRecentlyUsed(st, at, sid)
    case Inside(at, Ask(_)) => at == sid && !c.ok && c.alt
    case Inside(at, Sync(turn)) => at == sid && st.sessions[sid].slot == Some(turn.proc) && (!c.ok || c.alt)
    case Inside(at, Check) => at == sid
    case _ => false
  }

  lemma EnterStopsExactly(st: State, t: nat, at: nat, c: Choice, sid: nat)
    requires Structure(st) && Owned(st) && t in st.tasks && st.tasks[t] == Waiting(at, Enter) && Live(st, sid)
    ensures !Live(EnterTurn(st, t, at, c), sid) <==> StopsProcess(st, t, c, sid)
  {
    assert InSlot(st, sid, st.sessions[sid].slot.value) && Own(st, sid, st.sessions[sid].slot.value);
    if !st.sessions[at].removed {
      SupersedeStopsExactly(st, at, c.ok, sid);
      ProceedStopsNothing(Supersede(st, at, c.ok), t, at, sid);
    }
  }

  lemma SupersedeStopsExactly(st: State, at: nat, stopped: bool, sid: nat)
    requires Owned(st) && at in st.sessions && Live(st, sid)
    ensures !Live(Supersede(st, at, stopped), sid) <==> at == sid && st.sessions[sid].busy && !stopped
  {
    EmptyStopsOne(st, at, sid);
  }

  lemma ProceedStopsNothing(st: State, t: nat, at: nat, sid: nat)
    requires at in st.sessions
    ensures Live(Proceed(st, t, at), sid) <==> Live(st, sid)
  {
  }

  lemma EmptyStopsOne(st: State, at: nat, sid: nat)
    requires Owned(st) && at in st.sessions && Live(st, sid)
    ensures Live(Empty(st, at), sid) <==> at != sid
    ensures Live(Delete(st, at), sid) <==> at != sid
  {
    var proc := st.sessions[sid].slot.value;
    assert InSlot(st, sid, proc) && Own(st, sid, proc);
    assert InSlot(st, at, proc) ==> at == sid;
  }

  lemma TryStopsExactly(st: State, t: nat, at: nat, chore: Chore, c: Choice, sid: nat)
    requires Structure(st) && Owned(st) && t in st.tasks && st.tasks[t] == Trying(at, chore) && Live(st, sid)
    ensures !Live(Try(st, t, at, chore, c), sid) <==> StopsProcess(st, t, c, sid)
  {
    EmptyStopsOne(st, at, sid);
  }

  lemma SyncStopsExactly(st: State, t: nat, at: nat, turn: Turn, c: Choice, sid: nat)
    requires Structure(st) && Owned(st) && t in st.tasks && st.tasks[t] == Inside(at, Sync(turn)) && Live(st, sid)
    ensures !Live(SyncAndRelease(st, t, at, turn.proc, c), sid) <==> StopsProcess(st, t, c, sid)
  {
    var claim := ClaimOf(st.tasks[t]).value;
    assert claim == Claim(at, turn.proc) && Own(st, at, turn.proc);
    assert InSlot(st, sid, turn.proc) ==> sid == at;
  }

  lemma RoomStopsExactly(st: State, t: nat, at: nat, c: Choice, sid: nat)
    requires Structure(st) && Owned(st) && t in st.tasks && st.tasks[t] == Inside(at, Room) && Live(st, sid)
    ensures !Live(MakeRoom(st, t, at, c), sid) <==> StopsProcess(st, t, c, sid)
  {
    if LeastRecentlyUsed(st, at, c.victim) {
      EmptyStopsOne(st, c.victim, sid);
    }
  }

  lemma SpawnStopsNothing(st: State, t: nat, at: nat, c: Choice, sid: nat)
    requires Structure(st) && t in st.tasks && st.tasks[t] == Inside(at, Spawn) && Live(st, sid)
    ensures Live(SpawnProcess(st, t, at, c), sid)
  {
    assert Relies(st, st.tasks[t]);
  }

  lemma AskStopsExactly(st: State, t: nat, at: nat, proc: nat, c: Choice, sid: nat)
    requires Structure(st) && Owned(st) && t in st.tasks && st.tasks[t] == Inside(at, Ask(proc)) && Live(st, sid)
    ensures !Live(Prompt(st, t, at, proc, c), sid) <==> StopsProcess(st, t, c, sid)
  {
    EmptyStopsOne(st, at, sid);
  }

  lemma WorkStopsExactly(st: State, t: nat, at: nat, work: Work, c: Choice, sid: nat)
    requires Structure(st) && Owned(st) && t in st.tasks && st.tasks[t] == Inside(at, work) && Live(st, sid)
    ensures !Live(Perform(st, t, at, work, c), sid) <==> StopsProcess(st, t, c, sid)
  {
    match work
    case Room => RoomStopsExactly(st, t, at, c, sid);
    case Spawn => SpawnStopsNothing(st, t, at, c, sid);
    case Ask(proc) => AskStopsExactly(st, t, at, proc, c, sid);
    case Sync(turn) => SyncStopsExactly(st, t, at, turn, c, sid);
    case _ =>
      EmptyStopsOne(st, at, sid);
      assert !st.sessions[sid].removed && IsCurrent(st, sid);
  }

  /** A live process is stopped by a step exactly for one of these reasons. */
  lemma ProcessStopsExactly(st: State, t: nat, c: Choice, sid: nat)
    requires Structure(st) && Owned(st) && Enabled(st, t) && Live(st, sid)
    ensures !Live(Advance(st, t, c), sid) <==> StopsProcess(st, t, c, sid)
  {
    match st.tasks[t]
    case Waiting(at, Enter) => EnterStopsExactly(st, t, at, c, sid);
    case Waiting(at, visit) => EmptyStopsOne(st, at, sid);
    case Trying(at, chore) => TryStopsExactly(st, t, at, chore, c, sid);
    case Inside(at, work) => WorkStopsExactly(st, t, at, work, c, sid);
    case Looking(key, goal) => LookStopsNothing(st, t, key, goal, c, sid);
    case _ =>
  }

  lemma LookStopsNothing(st: State, t: nat, key: Key, goal: Goal, c: Choice, sid: nat)
    requires Typed(st) && Live(st, sid)
    ensures Live(Look(st, t, key, goal, c), sid)
  {
  }

  /** A failed request never leaves a dead process in the slot of its session, and the end of a turn never leaves its own there;
      it takes no other process out of the slot. */
  lemma SlotsAreSettled(st: State, t: nat, c: Choice)
    requires Structure(st) && Enabled(st, t) && st.tasks[t].Inside? && (st.tasks[t].work.Ask? || st.tasks[t].work.Sync?)
    ensures var st', sid, work := Advance(st, t, c), st.tasks[t].sid, st.tasks[t].work;
            && sid in st'.sessions
            && (work.Ask? && !c.ok && st'.sessions[sid].slot.Some? ==> Live(st', sid))
            && (work.Sync? && st.sessions[sid].slot == Some(work.turn.proc) && st'.sessions[sid].slot.Some? ==> Live(st', sid))
            && (work.Sync? && st.sessions[sid].slot != Some(work.turn.proc) ==> st'.sessions[sid].slot == st.sessions[sid].slot)
  {
  }

  // ---- Deletions

  /** A deletion that found its session in the map, or an expired chat that has no process and no turn. */
  predicate Deletes(st: State, t: nat, sid: nat)
    requires t in st.tasks && sid in st.sessions
  {
    match st.tasks[t]
    case Inside(at, Check) => at == sid && IsCurrent(st, sid)
    case Trying(at, RemoveExpired) =>
      at == sid && Free(st, SessionLock(sid)) && st.sessions[sid].slot.None? && !st.sessions[sid].busy && !st.sessions[sid].removed
    case _ => false
  }

  /** What a deletion does at once. */
  predicate Deleted(st: State, st': State, sid: nat)
    requires sid in st.sessions
  {
    && sid in st'.sessions
    && st'.sessions[sid].removed && st'.sessions[sid].slot.None?
    && st'.dirs == st.dirs - {st.sessions[sid].key}
    && st.sessions[sid].token in st'.cancelled
    && (st.sessions[sid].slot.Some? ==> st.sessions[sid].slot.value !in st'.alive)
  }

  lemma DeletionsDelete(st: State, t: nat, c: Choice, sid: nat)
    requires Structure(st) && Enabled(st, t) && sid in st.sessions && Deletes(st, t, sid)
    ensures Deleted(st, Advance(st, t, c), sid) && Advance(st, t, c).tasks == st.tasks[t := Inside(sid, Unindex)]
  {
  }

  lemma OthersRemoveNothing(st: State, t: nat, c: Choice, sid: nat)
    requires Structure(st) && Enabled(st, t) && sid in st.sessions && !st.sessions[sid].removed && !Deletes(st, t, sid)
    ensures sid in Advance(st, t, c).sessions && !Advance(st, t, c).sessions[sid].removed
  {
    match st.tasks[t]
    case Inside(at, work) => WorkRemovesNothing(st, t, at, work, c, sid);
    case Waiting(at, visit) => ArriveRemovesNothing(st, t, at, visit, c, sid);
    case _ =>
  }

  lemma WorkRemovesNothing(st: State, t: nat, at: nat, work: Work, c: Choice, sid: nat)
    requires Structure(st) && t in st.tasks && st.tasks[t] == Inside(at, work)
    requires sid in st.sessions && !st.sessions[sid].removed && !Deletes(st, t, sid)
    ensures sid in Perform(st, t, at, work, c).sessions && !Perform(st, t, at, work, c).sessions[sid].removed
  {
  }

  lemma ArriveRemovesNothing(st: State, t: nat, at: nat, visit: Visit, c: Choice, sid: nat)
    requires Structure(st) && t in st.tasks && st.tasks[t] == Waiting(at, visit)
    requires sid in st.sessions && !st.sessions[sid].removed
    ensures sid in Arrive(st, t, at, visit, c).sessions && !Arrive(st, t, at, visit, c).sessions[sid].removed
  {
    if visit == Enter && !st.sessions[at].removed {
      SupersedeSameChats(st, at, c.ok);
      ProceedSameChats(Supersede(st, at, c.ok), t, at);
    }
  }

  /** A chat is removed by a step exactly if the step deletes it, and then its process, its turn and its directory go with it. */
  lemma ChatsAreRemovedExactly(st: State, t: nat, c: Choice, sid: nat)
    requires Structure(st) && Enabled(st, t) && sid in st.sessions && !st.sessions[sid].removed
    ensures var st' := Advance(st, t, c);
            && sid in st'.sessions
            && (st'.sessions[sid].removed <==> Deletes(st, t, sid))
            && (Deletes(st, t, sid) ==> Deleted(st, st', sid))
  {
    if Deletes(st, t, sid) {
      DeletionsDelete(st, t, c, sid);
    } else {
      OthersRemoveNothing(st, t, c, sid);
    }
  }

  /** Directories are made only for a process that starts, and deleted only with their chat. */
  lemma DirectoriesExactly(st: State, t: nat, c: Choice, key: Key)
    requires Structure(st) && Enabled(st, t)
    ensures key in Advance(st, t, c).dirs <==>
              || (key in st.dirs && !exists sid: nat :: sid in st.sessions && st.sessions[sid].key == key && Deletes(st, t, sid))
              || (st.tasks[t].Inside? && st.tasks[t].work.Spawn? && st.sessions[st.tasks[t].sid].key == key)
  {
    if sid: nat :| sid in st.sessions && Deletes(st, t, sid) {
      DeletionsDelete(st, t, c, sid);
      DeletesOne(st, t, sid);
    } else {
      OthersKeepDirectories(st, t, c);
    }
  }

  lemma DeletesOne(st: State, t: nat, sid: nat)
    requires t in st.tasks && sid in st.sessions && Deletes(st, t, sid)
    ensures forall other: nat :: other in st.sessions && Deletes(st, t, other) ==> other == sid
    ensures !(st.tasks[t].Inside? && st.tasks[t].work.Spawn?)
  {
  }

  lemma OthersKeepDirectories(st: State, t: nat, c: Choice)
    requires Structure(st) && Enabled(st, t) && forall sid: nat :: sid in st.sessions ==> !Deletes(st, t, sid)
    ensures Advance(st, t, c).dirs == st.dirs + (if st.tasks[t].Inside? && st.tasks[t].work.Spawn? then {st.sessions[st.tasks[t].sid].key} else {})
  {
    match st.tasks[t]
    case Inside(at, work) =>
      assert !Deletes(st, t, at);
      WorkKeepsDirectories(st, t, at, work, c);
    case Trying(at, chore) => assert !Deletes(st, t, at);
    case Waiting(at, visit) => ArriveKeepsDirectories(st, t, at, visit, c);
    case _ =>
  }

  lemma WorkKeepsDirectories(st: State, t: nat, at: nat, work: Work, c: Choice)
    requires Structure(st) && t in st.tasks && st.tasks[t] == Inside(at, work) && !Deletes(st, t, at)
    ensures Perform(st, t, at, work, c).dirs == st.dirs + (if work.Spawn? then {st.sessions[at].key} else {})
  {
  }

  lemma ArriveKeepsDirectories(st: State, t: nat, at: nat, visit: Visit, c: Choice)
    requires at in st.sessions
    ensures Arrive(st, t, at, visit, c).dirs == st.dirs
  {
  }

  // ---- The end of a turn

  /** Only the latest turn of a chat that was not deleted is reconciled and saved; any other ends at once. */
  lemma OnlyCurrentTurnsAreSaved(st: State, t: nat, turn: Turn, c: Choice)
    requires Structure(st) && Enabled(st, t) && st.tasks[t] == Running(turn, true)
    ensures var st' := Advance(st, t, c);
            && (t in st'.tasks <==> Current(st, t, turn.sid) && !st.sessions[turn.sid].removed)
            && (t in st'.tasks ==> st'.tasks[t] == Inside(turn.sid, Sync(turn)))
            && (Current(st, t, turn.sid) ==> !st'.sessions[turn.sid].busy)
  {
    assert TurnAt(st, t) == Some(turn);
  }

  /** A turn that was saved and a deletion that took its entry out had the index to themselves: neither gets past the index without
      holding its lock, which no other task then holds. */
  lemma IndexIsWrittenUnderItsLock(st: State, t: nat, c: Choice)
    requires Structure(st) && Enabled(st, t)
    requires || (st.tasks[t].Saving? && t !in Advance(st, t, c).tasks)
             || (t in Advance(st, t, c).tasks && Advance(st, t, c).tasks[t].Inside? && Advance(st, t, c).tasks[t].work.Unlist?)
    ensures Holds(st.tasks[t], IndexLock)
    ensures forall u :: u in st.tasks && u != t ==> !Holds(st.tasks[u], IndexLock)
  {
    assert forall u :: u in st.tasks && u != t ==> !Clash(st.tasks[t], st.tasks[u]);
    match st.tasks[t]
    case Waiting(at, visit) => ArriveNeverUnlists(st, t, at, visit, c);
    case Inside(at, work) => WorkUnlistsAfterSaving(st, t, at, work, c);
    case _ =>
  }

  lemma ArriveNeverUnlists(st: State, t: nat, at: nat, visit: Visit, c: Choice)
    requires at in st.sessions && t in st.tasks && st.tasks[t] == Waiting(at, visit)
    ensures var after := Arrive(st, t, at, visit, c).tasks;
            t in after && after[t].Inside? ==> !after[t].work.Unlist?
  {
  }

  lemma WorkUnlistsAfterSaving(st: State, t: nat, at: nat, work: Work, c: Choice)
    requires at in st.sessions && t in st.tasks && st.tasks[t] == Inside(at, work)
    ensures var after := Perform(st, t, at, work, c).tasks;
            t in after && after[t].Inside? && after[t].work.Unlist? ==> work.Unsave?
  {
  }
}
