/** Chats on their way out: a removed session that the map still holds, and what becomes of it when the request that removes
    it is dropped. */
module Removals {
  import opened Lifecycle
  import opened LifecycleInvariant
  import opened LifecycleRuns
  import opened Supersession
  import opened Wrappers

  /** A task that will take this session out of the map, or finds that someone else has. */
  predicate Removes(task: Task, sid: nat) {
    || task == Waiting(sid, Removal)
    || (task.Inside? && task.sid == sid
        && (task.work.Check? || task.work.Unindex? || task.work.Unsave? || task.work.Unlist?))
  }

  ghost predicate OnItsWay(st: State, sid: nat) {
    exists t :: t in st.tasks && Removes(st.tasks[t], sid)
  }

  /** In the map, but removed: whoever asks for the chat finds it gone. */
  predicate InTheWay(st: State, sid: nat) {
    IsCurrent(st, sid) && st.sessions[sid].removed
  }

  ghost predicate NobodyStuck(st: State) {
    forall sid :: InTheWay(st, sid) ==> OnItsWay(st, sid)
  }

  /** A removed session in the map that nobody takes out. */
  ghost predicate Stuck(st: State, sid: nat) {
    InTheWay(st, sid) && !OnItsWay(st, sid)
  }

  // ---- As long as nobody's request is dropped

  /** Only the task that takes the step moves. */
  ghost predicate OnlyMoves(st: State, t: nat, st': State) {
    forall u :: u != t ==> (u in st'.tasks <==> u in st.tasks) && (u in st.tasks ==> st'.tasks[u] == st.tasks[u])
  }

  /** Sessions that are in the way after a step were in the way before, or the step's task is what removes them; and those
      that were in the way before stay unless the task takes them out. A task begins to remove a session that is in the way
      only when it finds it in the map to delete the chat. */
  ghost predicate Obstructs(st: State, t: nat, st': State, sid: nat)
    requires t in st.tasks
  {
    var removed := t in st'.tasks && Removes(st'.tasks[t], sid);
    && OnlyMoves(st, t, st')
    && (InTheWay(st', sid) ==> removed || (InTheWay(st, sid) && !Removes(st.tasks[t], sid)))
    && (InTheWay(st, sid) && !Removes(st.tasks[t], sid) ==>
          InTheWay(st', sid) && (removed <==> st.tasks[t] == Looking(st.sessions[sid].key, ToRemove)))
  }

  lemma LookObstructs(st: State, t: nat, key: Key, goal: Goal, c: Choice, sid: nat)
    requires Structure(st) && t in st.tasks && st.tasks[t] == Looking(key, goal)
    ensures Obstructs(st, t, Look(st, t, key, goal, c), sid)
  {
  }

  lemma LoadObstructs(st: State, t: nat, key: Key, again: bool, now: nat, visit: Visit, sid: nat)
    requires Structure(st) && t in st.tasks && st.tasks[t] == Loading(key, again) && visit != Removal
    ensures Obstructs(st, t, Go(AddSession(st, key, false, now), t, Waiting(st.nextSession, visit)), sid)
  {
    assert Relies(st, st.tasks[t]);
  }

  /** The same chats are in the map, and nobody is removed. */
  ghost predicate SameChats(st: State, st': State) {
    && st'.table == st.table
    && st'.sessions.Keys == st.sessions.Keys
    && forall sid :: sid in st.sessions ==>
         st'.sessions[sid].removed == st.sessions[sid].removed && st'.sessions[sid].key == st.sessions[sid].key
  }

  lemma SameChatsObstruct(st: State, t: nat, st': State, sid: nat)
    requires t in st.tasks && SameChats(st, st') && OnlyMoves(st, t, st')
    requires !st.tasks[t].Looking? && !Removes(st.tasks[t], sid) && (t in st'.tasks ==> !Removes(st'.tasks[t], sid))
    ensures Obstructs(st, t, st', sid)
  {
  }

  lemma SupersedeSameChats(st: State, sid: nat, stopped: bool)
    requires sid in st.sessions
    ensures SameChats(st, Supersede(st, sid, stopped)) && Supersede(st, sid, stopped).tasks == st.tasks
  {
  }

  lemma ProceedSameChats(st: State, t: nat, sid: nat)
    requires sid in st.sessions
    ensures SameChats(st, Proceed(st, t, sid)) && OnlyMoves(st, t, Proceed(st, t, sid))
    ensures t in Proceed(st, t, sid).tasks && Proceed(st, t, sid).tasks[t].Inside?
    ensures Proceed(st, t, sid).tasks[t].work.Ask? || Proceed(st, t, sid).tasks[t].work.Room?
  {
  }

  lemma EnterObstructs(st: State, t: nat, at: nat, c: Choice, sid: nat)
    requires Structure(st) && t in st.tasks && st.tasks[t] == Waiting(at, Enter)
    ensures Obstructs(st, t, EnterTurn(st, t, at, c), sid)
  {
    if !st.sessions[at].removed {
      SupersedeSameChats(st, at, c.ok);
      ProceedSameChats(Supersede(st, at, c.ok), t, at);
    }
    SameChatsObstruct(st, t, EnterTurn(st, t, at, c), sid);
  }

  lemma ArriveObstructs(st: State, t: nat, at: nat, visit: Visit, c: Choice, sid: nat)
    requires Structure(st) && t in st.tasks && st.tasks[t] == Waiting(at, visit)
    ensures Obstructs(st, t, Arrive(st, t, at, visit, c), sid)
  {
    if visit == Enter {
      EnterObstructs(st, t, at, c, sid);
    }
  }

  lemma TryObstructs(st: State, t: nat, at: nat, chore: Chore, c: Choice, sid: nat)
    requires Structure(st) && t in st.tasks && st.tasks[t] == Trying(at, chore)
    ensures Obstructs(st, t, Try(st, t, at, chore, c), sid)
  {
  }

  lemma BeginObstructs(st: State, t: nat, at: nat, work: Work, c: Choice, sid: nat)
    requires Structure(st) && t in st.tasks && st.tasks[t] == Inside(at, work) && (work.Room? || work.Spawn? || work.Ask?)
    ensures Obstructs(st, t, Perform(st, t, at, work, c), sid)
  {
    match work
    case Room => RoomObstructs(st, t, at, c, sid);
    case Spawn => SpawnObstructs(st, t, at, c, sid);
    case Ask(proc) => AskObstructs(st, t, at, proc, c, sid);
  }

  lemma RoomObstructs(st: State, t: nat, at: nat, c: Choice, sid: nat)
    requires Structure(st) && t in st.tasks && st.tasks[t] == Inside(at, Room)
    ensures Obstructs(st, t, MakeRoom(st, t, at, c), sid)
  {
    SameChatsObstruct(st, t, MakeRoom(st, t, at, c), sid);
  }

  lemma SpawnObstructs(st: State, t: nat, at: nat, c: Choice, sid: nat)
    requires Structure(st) && t in st.tasks && st.tasks[t] == Inside(at, Spawn)
    ensures Obstructs(st, t, SpawnProcess(st, t, at, c), sid)
  {
    SameChatsObstruct(st, t, SpawnProcess(st, t, at, c), sid);
  }

  lemma AskObstructs(st: State, t: nat, at: nat, proc: nat, c: Choice, sid: nat)
    requires Structure(st) && t in st.tasks && st.tasks[t] == Inside(at, Ask(proc))
    ensures Obstructs(st, t, Prompt(st, t, at, proc, c), sid)
  {
    SameChatsObstruct(st, t, Prompt(st, t, at, proc, c), sid);
  }

  lemma WorkObstructs(st: State, t: nat, at: nat, work: Work, c: Choice, sid: nat)
    requires Structure(st) && t in st.tasks && st.tasks[t] == Inside(at, work)
    ensures Obstructs(st, t, Perform(st, t, at, work, c), sid)
  {
    if work.Room? || work.Spawn? || work.Ask? {
      BeginObstructs(st, t, at, work, c, sid);
    } else {
      assert Relies(st, st.tasks[t]);
    }
  }

  lemma EndObstructs(st: State, t: nat, turn: Turn, c: Choice, sid: nat)
    requires Structure(st) && t in st.tasks && st.tasks[t] == Running(turn, true)
    ensures Obstructs(st, t, EndTurn(st, t, turn, c), sid)
  {
  }

  lemma AdvanceObstructs(st: State, t: nat, c: Choice, sid: nat)
    requires Structure(st) && Enabled(st, t)
    ensures Obstructs(st, t, Advance(st, t, c), sid)
  {
    match st.tasks[t]
    case Looking(key, goal) => LookObstructs(st, t, key, goal, c, sid);
    case Loading(key, again) => LoadObstructs(st, t, key, again, c.now, if again then Enter else Peek, sid);
    case Waiting(at, visit) => ArriveObstructs(st, t, at, visit, c, sid);
    case Trying(at, chore) => TryObstructs(st, t, at, chore, c, sid);
    case Inside(at, work) => WorkObstructs(st, t, at, work, c, sid);
    case Running(turn, ending) =>
      if ending {
        EndObstructs(st, t, turn, c, sid);
      }
    case _ =>
  }

  lemma AdvanceKeepsNobodyStuck(st: State, t: nat, c: Choice)
    requires Structure(st) && Enabled(st, t) && NobodyStuck(st)
    ensures NobodyStuck(Advance(st, t, c))
  {
    var st' := Advance(st, t, c);
    forall sid | InTheWay(st', sid)
      ensures OnItsWay(st', sid)
    {
      AdvanceObstructs(st, t, c, sid);
      if !(t in st'.tasks && Removes(st'.tasks[t], sid)) {
        var u :| u in st.tasks && Removes(st.tasks[u], sid);
        assert u in st'.tasks && st'.tasks[u] == st.tasks[u];
      }
    }
  }

  lemma ArrivalKeepsNobodyStuck(st: State, task: Task)
    requires Structure(st) && NobodyStuck(st) && Arrives(st, task)
    ensures NobodyStuck(Next(st, Arrival(task)))
  {
    var st' := Next(st, Arrival(task));
    forall sid | InTheWay(st', sid)
      ensures OnItsWay(st', sid)
    {
      assert InTheWay(st, sid);
      var u :| u in st.tasks && Removes(st.tasks[u], sid);
      assert st'.tasks[u] == st.tasks[u];
    }
  }

  lemma {:induction false} RunsLeaveNobodyStuck(st: State, events: seq<Event>)
    requires Sound(st) && NobodyStuck(st) && forall i :: 0 <= i < |events| ==> !events[i].Vanish?
    ensures NobodyStuck(After(st, events))
    decreases |events|
  {
    if events != [] {
      match events[0] {
        case Arrival(task) =>
          if Arrives(st, task) {
            ArrivalKeepsNobodyStuck(st, task);
          }
        case Death(_) =>
          assert forall sid :: InTheWay(Next(st, events[0]), sid) ==> InTheWay(st, sid);
        case Progress(t, choice) =>
          if Enabled(st, t) {
            AdvanceKeepsNobodyStuck(st, t, choice);
          }
        case Vanish(_) =>
      }
      NextKeepsSound(st, events[0]);
      RunsLeaveNobodyStuck(Next(st, events[0]), events[1..]);
    }
  }

  /** In every run in which no request is dropped, a removed session that the map still holds is on its way out. */
  lemma RemovedSessionsLeave(maxLive: nat, events: seq<Event>, sid: nat)
    requires forall i :: 0 <= i < |events| ==> !events[i].Vanish?
    ensures var st := AfterStart(maxLive, events); InTheWay(st, sid) ==> OnItsWay(st, sid)
  {
    InitIsSound(maxLive);
    RunsLeaveNobodyStuck(Init(maxLive), events);
  }

  // ---- When a request is dropped

  /** Dropping a request leaves a session stuck exactly if it was the only one removing it and had already removed it, or
      found it removed. */
  lemma VanishingLeavesStuckExactly(st: State, t: nat)
    requires Sound(st) && NobodyStuck(st) && t in st.tasks && MayVanish(st.tasks[t])
    ensures NobodyStuck(Next(st, Vanish(t))) <==>
              forall sid :: InTheWay(st, sid) && Removes(st.tasks[t], sid) ==>
                exists u :: u in st.tasks && u != t && Removes(st.tasks[u], sid)
  {
    var st' := Next(st, Vanish(t));
    forall sid | InTheWay(st, sid)
      ensures OnItsWay(st', sid) <==> !Removes(st.tasks[t], sid) || exists u :: u in st.tasks && u != t && Removes(st.tasks[u], sid)
    {
      var w :| w in st.tasks && Removes(st.tasks[w], sid);
      if u :| u in st.tasks && u != t && Removes(st.tasks[u], sid) {
        assert u in st'.tasks && st'.tasks[u] == st.tasks[u];
      }
    }
    assert forall sid :: InTheWay(st', sid) <==> InTheWay(st, sid);
  }

  /** A stuck session stays stuck through every step but one: the chat is deleted again. */
  lemma StuckUntilDeletedAgain(st: State, event: Event, sid: nat)
    requires Sound(st) && Stuck(st, sid)
    ensures Stuck(Next(st, event), sid) <==>
              !(event.Progress? && Enabled(st, event.t) && st.tasks[event.t] == Looking(st.sessions[sid].key, ToRemove))
  {
    match event
    case Arrival(task) =>
    case Death(_) =>
    case Vanish(_) =>
    case Progress(t, c) =>
      if Enabled(st, t) {
        StuckThroughSteps(st, t, c, sid);
      }
  }

  lemma StuckThroughSteps(st: State, t: nat, c: Choice, sid: nat)
    requires Structure(st) && Stuck(st, sid) && Enabled(st, t)
    ensures Stuck(Advance(st, t, c), sid) <==> st.tasks[t] != Looking(st.sessions[sid].key, ToRemove)
  {
    var st' := Advance(st, t, c);
    AdvanceObstructs(st, t, c, sid);
    if t in st'.tasks && Removes(st'.tasks[t], sid) {
      assert OnItsWay(st', sid);
    }
  }

  // ---- Nothing starts while a chat is stuck

  /** Nobody is about to delete the chat. */
  ghost predicate NotDeletedAgain(st: State, key: Key) {
    forall t :: t in st.tasks ==> st.tasks[t] != Looking(key, ToRemove)
  }

  predicate DrivesTurnFor(st: State, t: nat, key: Key) {
    && TurnAt(st, t).Some?
    && TurnAt(st, t).value.sid in st.sessions
    && st.sessions[TurnAt(st, t).value.sid].key == key
  }

  /** Sessions stay under their keys. */
  ghost predicate KeysStay(st: State, st': State) {
    forall sid :: sid in st.sessions ==> sid in st'.sessions && st'.sessions[sid].key == st.sessions[sid].key
  }

  /** Turns for the chat after a step were there before it, and nobody has begun to delete the chat. */
  ghost predicate NothingStarts(st: State, st': State, key: Key) {
    && KeysStay(st, st')
    && (NotDeletedAgain(st, key) ==> NotDeletedAgain(st', key))
    && forall u: nat :: DrivesTurnFor(st', u, key) ==> DrivesTurnFor(st, u, key) && TurnAt(st', u) == TurnAt(st, u)
  }

  /** A step that moves only its task, and to no place where a turn or a deletion begins. */
  lemma MovingStartsNothing(st: State, t: nat, st': State, key: Key)
    requires Typed(st) && t in st.tasks && OnlyMoves(st, t, st') && KeysStay(st, st')
    requires t in st'.tasks && st'.tasks[t].Running? ==> TurnAt(st', t) == TurnAt(st, t)
    requires t in st'.tasks ==> st'.tasks[t] != Looking(key, ToRemove)
    ensures NothingStarts(st, st', key)
  {
  }

  lemma LookStartsNothing(st: State, t: nat, at: Key, goal: Goal, c: Choice, key: Key)
    requires Structure(st) && t in st.tasks && st.tasks[t] == Looking(at, goal) && key in st.table
    ensures NothingStarts(st, Look(st, t, at, goal, c), key)
  {
    MovingStartsNothing(st, t, Look(st, t, at, goal, c), key);
  }

  lemma ArriveStartsNothing(st: State, t: nat, at: nat, visit: Visit, c: Choice, key: Key)
    requires Structure(st) && t in st.tasks && st.tasks[t] == Waiting(at, visit)
    ensures NothingStarts(st, Arrive(st, t, at, visit, c), key)
  {
    if visit == Enter && !st.sessions[at].removed {
      SupersedeSameChats(st, at, c.ok);
      ProceedSameChats(Supersede(st, at, c.ok), t, at);
    }
    MovingStartsNothing(st, t, Arrive(st, t, at, visit, c), key);
  }

  lemma TryStartsNothing(st: State, t: nat, at: nat, chore: Chore, c: Choice, key: Key)
    requires Structure(st) && t in st.tasks && st.tasks[t] == Trying(at, chore)
    ensures NothingStarts(st, Try(st, t, at, chore, c), key)
  {
    MovingStartsNothing(st, t, Try(st, t, at, chore, c), key);
  }

  /** A turn begins only on a session that is not removed, and that is not the one the map holds for this chat. */
  lemma AskStartsNothing(st: State, t: nat, at: nat, proc: nat, c: Choice, sid: nat)
    requires Structure(st) && InTheWay(st, sid) && t in st.tasks && st.tasks[t] == Inside(at, Ask(proc))
    ensures NothingStarts(st, Prompt(st, t, at, proc, c), st.sessions[sid].key)
  {
    assert Relies(st, st.tasks[t]) && IsCurrent(st, at);
    assert st.sessions[at].key != st.sessions[sid].key;
  }

  lemma RoomStartsNothing(st: State, t: nat, at: nat, c: Choice, key: Key)
    requires Structure(st) && t in st.tasks && st.tasks[t] == Inside(at, Room)
    ensures NothingStarts(st, MakeRoom(st, t, at, c), key)
  {
    MovingStartsNothing(st, t, MakeRoom(st, t, at, c), key);
  }

  lemma SpawnStartsNothing(st: State, t: nat, at: nat, c: Choice, key: Key)
    requires Structure(st) && t in st.tasks && st.tasks[t] == Inside(at, Spawn)
    ensures NothingStarts(st, SpawnProcess(st, t, at, c), key)
  {
    MovingStartsNothing(st, t, SpawnProcess(st, t, at, c), key);
  }

  lemma SyncStartsNothing(st: State, t: nat, at: nat, turn: Turn, c: Choice, key: Key)
    requires Structure(st) && t in st.tasks && st.tasks[t] == Inside(at, Sync(turn))
    ensures NothingStarts(st, SyncAndRelease(st, t, at, turn.proc, c), key)
  {
    MovingStartsNothing(st, t, SyncAndRelease(st, t, at, turn.proc, c), key);
  }

  lemma WorkStartsNothing(st: State, t: nat, at: nat, work: Work, c: Choice, sid: nat)
    requires Structure(st) && InTheWay(st, sid) && t in st.tasks && st.tasks[t] == Inside(at, work)
    ensures NothingStarts(st, Perform(st, t, at, work, c), st.sessions[sid].key)
  {
    if work.Ask? {
      AskStartsNothing(st, t, at, work.proc, c, sid);
    } else if work.Room? {
      RoomStartsNothing(st, t, at, c, st.sessions[sid].key);
    } else if work.Spawn? {
      SpawnStartsNothing(st, t, at, c, st.sessions[sid].key);
    } else if work.Sync? {
      SyncStartsNothing(st, t, at, work.turn, c, st.sessions[sid].key);
    } else {
      MovingStartsNothing(st, t, Perform(st, t, at, work, c), st.sessions[sid].key);
    }
  }

  lemma EndStartsNothing(st: State, t: nat, turn: Turn, ending: bool, c: Choice, key: Key)
    requires Structure(st) && Enabled(st, t) && st.tasks[t] == Running(turn, ending)
    ensures NothingStarts(st, Advance(st, t, c), key)
  {
    MovingStartsNothing(st, t, Advance(st, t, c), key);
  }

  lemma AdvanceStartsNothing(st: State, t: nat, c: Choice, sid: nat)
    requires Structure(st) && InTheWay(st, sid) && Enabled(st, t)
    ensures NothingStarts(st, Advance(st, t, c), st.sessions[sid].key)
  {
    var key := st.sessions[sid].key;
    match st.tasks[t]
    case Looking(at, goal) => LookStartsNothing(st, t, at, goal, c, key);
    case Waiting(at, visit) => ArriveStartsNothing(st, t, at, visit, c, key);
    case Trying(at, chore) => TryStartsNothing(st, t, at, chore, c, key);
    case Inside(at, work) => WorkStartsNothing(st, t, at, work, c, sid);
    case Running(turn, ending) => EndStartsNothing(st, t, turn, ending, c, key);
    case _ => MovingStartsNothing(st, t, Advance(st, t, c), key);
  }

  lemma NextStartsNothing(st: State, event: Event, sid: nat)
    requires Structure(st) && InTheWay(st, sid) && event != Arrival(Looking(st.sessions[sid].key, ToRemove))
    ensures NothingStarts(st, Next(st, event), st.sessions[sid].key)
  {
    match event
    case Progress(t, c) =>
      if Enabled(st, t) {
        AdvanceStartsNothing(st, t, c, sid);
      }
    case _ =>
  }

  /** As long as nobody deletes the chat again, in every run from a state in which it is stuck: it stays stuck, all its session
      objects are removed and own no process, and whatever turn of the chat still runs was running before. */
  lemma {:induction false} StuckChatsStartNothing(st: State, events: seq<Event>, sid: nat)
    requires Sound(st) && Stuck(st, sid) && NotDeletedAgain(st, st.sessions[sid].key)
    requires forall i :: 0 <= i < |events| ==> events[i] != Arrival(Looking(st.sessions[sid].key, ToRemove))
    ensures var key, after := st.sessions[sid].key, After(st, events);
            && Stuck(after, sid) && after.sessions[sid].key == key
            && (forall other :: other in after.sessions && after.sessions[other].key == key ==>
                  after.sessions[other].removed && after.sessions[other].slot.None?)
            && (forall u: nat :: DrivesTurnFor(after, u, key) ==> DrivesTurnFor(st, u, key) && TurnAt(after, u) == TurnAt(st, u))
    decreases |events|
  {
    if events != [] {
      StuckUntilDeletedAgain(st, events[0], sid);
      NextStartsNothing(st, events[0], sid);
      NextKeepsSound(st, events[0]);
      StuckChatsStartNothing(Next(st, events[0]), events[1..], sid);
    } else {
      StuckChatsAreIdle(st, sid);
    }
  }

  lemma StuckChatsAreIdle(st: State, sid: nat)
    requires Structure(st) && InTheWay(st, sid)
    ensures forall other :: other in st.sessions && st.sessions[other].key == st.sessions[sid].key ==>
              st.sessions[other].removed && st.sessions[other].slot.None?
  {
  }

  /** It does happen: the deletion of a chat that has no session is dropped while it waits for the lock of the placeholder. */
  lemma DroppedDeletionSticks(maxLive: nat, key: Key, c: Choice)
    ensures exists st, sid :: Reachable(st, maxLive) && Stuck(st, sid) && st.sessions[sid].key == key
  {
    var events := [Arrival(Looking(key, ToRemove)), Progress(0, c), Vanish(0)];
    var s1 := Init(maxLive).(tasks := map[0 := Looking(key, ToRemove)], nextTask := 1);
    assert Next(Init(maxLive), events[0]) == s1;
    InitIsSound(maxLive);
    NextKeepsSound(Init(maxLive), events[0]);
    assert events[1..] == [events[1], events[2]];
    DroppedWhileWaiting(s1, key, c);
    assert AfterStart(maxLive, events) == After(s1, [events[1], events[2]]);
    assert Reachable(AfterStart(maxLive, events), maxLive);
  }

  lemma DroppedWhileWaiting(st: State, key: Key, c: Choice)
    requires Sound(st) && st.tasks == map[0 := Looking(key, ToRemove)] && key !in st.table
    ensures var after := After(st, [Progress(0, c), Vanish(0)]);
            exists sid :: Stuck(after, sid) && after.sessions[sid].key == key
  {
    PlaceholderStuck(st, key, c);
    AfterTwo(st, Progress(0, c), Vanish(0));
    assert Stuck(After(st, [Progress(0, c), Vanish(0)]), st.nextSession);
  }

  lemma AfterTwo(st: State, a: Event, b: Event)
    requires Sound(st)
    ensures Sound(Next(st, a)) && After(st, [a, b]) == Next(Next(st, a), b)
  {
    NextKeepsSound(st, a);
    NextKeepsSound(Next(st, a), b);
    assert [a, b][1..] == [b] && [b][1..] == [];
    assert After(Next(Next(st, a), b), []) == Next(Next(st, a), b);
    assert After(Next(st, a), [b]) == Next(Next(st, a), b);
  }

  lemma PlaceholderStuck(st: State, key: Key, c: Choice)
    requires Typed(st) && st.tasks == map[0 := Looking(key, ToRemove)] && key !in st.table
    ensures var placed := Next(st, Progress(0, c));
            Typed(placed) ==>
              var dropped := Next(placed, Vanish(0));
              Stuck(dropped, st.nextSession) && dropped.sessions[st.nextSession].key == key
  {
    assert Enabled(st, 0);
    var placed := Look(st, 0, key, ToRemove, c);
    assert Next(st, Progress(0, c)) == placed;
    assert Finish(placed, 0).tasks == map[];
  }
}
