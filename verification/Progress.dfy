/** What requests and deletions come to when no other task keeps a lock: they never get stuck, and end the way they should. */
module Progress {
  import opened Lifecycle
  import opened LifecycleInvariant
  import opened LifecycleRuns
  import opened Removals
  import opened Supersession
  import opened Wrappers

  /** No other task holds a lock. */
  predicate Unhindered(st: State, t: nat) {
    forall u :: u in st.tasks && u != t ==>
      !st.tasks[u].Inside? && !st.tasks[u].Loading? && !(st.tasks[u].Saving? && st.tasks[u].started)
  }

  ghost function StepOf(st: State, t: nat, c: Choice): State {
    if Typed(st) then Next(st, Event.Progress(t, c)) else st
  }

  /** The steps of one task, as a value: where a series of steps leads does not depend on what each of them looks at. */
  ghost predicate IsStep(f: State -> State, t: nat, c: Choice) {
    forall st: State {:trigger StepOf(st, t, c)} :: f(st) == StepOf(st, t, c)
  }

  function Iterate(f: State -> State, st: State, n: nat): State
    decreases n
  {
    if n == 0 then st else Iterate(f, f(st), n - 1)
  }

  /** A series of steps of one task is a run. */
  lemma {:induction false} IterateIsARun(f: State -> State, st: State, t: nat, c: Choice, n: nat)
    requires IsStep(f, t, c) && Sound(st)
    ensures Iterate(f, st, n) == After(st, seq(n, _ => Event.Progress(t, c)))
    decreases n
  {
    if n > 0 {
      var next := FirstOfRun(f, st, t, c, seq(n, _ => Event.Progress(t, c)));
      RepeatedTail(t, c, n);
      IterateIsARun(f, next, t, c, n - 1);
    }
  }

  lemma RepeatedTail(t: nat, c: Choice, n: nat)
    requires n > 0
    ensures seq(n, _ => Event.Progress(t, c))[1..] == seq(n - 1, _ => Event.Progress(t, c))
  {
  }

  lemma FirstOfRun(f: State -> State, st: State, t: nat, c: Choice, events: seq<Event>) returns (next: State)
    requires IsStep(f, t, c) && Sound(st) && events != [] && events[0] == Event.Progress(t, c)
    ensures Sound(next) && f(st) == next && After(st, events) == After(next, events[1..])
  {
    NextKeepsSound(st, events[0]);
    next := StepOf(st, t, c);
  }

  /** Where an unhindered task is after a step. */
  ghost predicate MovesTo(f: State -> State, st: State, t: nat, next: State) {
    f(st) == next && Sound(next) && Unhindered(next, t)
  }

  lemma StepMoves(f: State -> State, st: State, t: nat, c: Choice) returns (next: State)
    requires IsStep(f, t, c) && Sound(st) && Unhindered(st, t) && t in st.tasks
    requires Waits(st.tasks[t]).Some? ==> !Holds(st.tasks[t], Waits(st.tasks[t]).value)
    ensures Enabled(st, t) && next == Advance(st, t, c) && f(st) == next && Sound(next)
  {
    assert forall u :: u in st.tasks && u != t ==> forall lock: Lock :: !Holds(st.tasks[u], lock);
    NextKeepsSound(st, Event.Progress(t, c));
    next := Advance(st, t, c);
    assert StepOf(st, t, c) == next;
  }

  lemma StillUnhindered(st: State, t: nat, st': State)
    requires Unhindered(st, t) && OnlyMoves(st, t, st')
    ensures Unhindered(st', t)
  {
  }

  // ---- Requests

  /** The request has its turn, the latest one of a session of the chat. */
  predicate Served(st: State, t: nat, key: Key) {
    && TurnAt(st, t).Some?
    && Current(st, t, TurnAt(st, t).value.sid)
    && st.sessions[TurnAt(st, t).value.sid].key == key
    && !st.sessions[TurnAt(st, t).value.sid].removed
  }

  /** There is no room for another process, and this is not the one to evict. */
  ghost predicate FullHouse(st: State, t: nat, key: Key, victim: nat) {
    && t in st.tasks && st.tasks[t].Inside? && st.tasks[t].work.Room?
    && st.tasks[t].sid in st.sessions && st.sessions[st.tasks[t].sid].key == key
    && |Counted(st, st.tasks[t].sid)| >= st.maxLive
    && !LeastRecentlyUsed(st, st.tasks[t].sid, victim)
  }

  ghost predicate EndsServed(f: State -> State, st: State, t: nat, c: Choice, key: Key, n: nat) {
    Served(Iterate(f, st, n), t, key) || FullHouse(Iterate(f, st, n), t, key, c.victim)
  }

  lemma OneMore(f: State -> State, st: State, next: State, t: nat, c: Choice, key: Key, n: nat)
    requires f(st) == next && EndsServed(f, next, t, c, key, n)
    ensures EndsServed(f, st, t, c, key, n + 1)
  {
    assert Iterate(f, st, n + 1) == Iterate(f, f(st), n);
  }

  /** Nothing fails: omp starts and answers. */
  predicate GoesWell(c: Choice) {
    c.ok && !c.alt
  }

  lemma AskIsServed(f: State -> State, st: State, t: nat, c: Choice, sid: nat)
    requires IsStep(f, t, c) && Sound(st) && Unhindered(st, t) && GoesWell(c)
    requires t in st.tasks && st.tasks[t].Inside? && st.tasks[t].sid == sid && st.tasks[t].work.Ask?
    requires sid in st.sessions
    ensures EndsServed(f, st, t, c, st.sessions[sid].key, 1)
  {
    var next := StepMoves(f, st, t, c);
    PromptServes(st, t, sid, st.tasks[t].work.proc, c);
    assert Iterate(f, next, 0) == next;
    OneMore(f, st, next, t, c, st.sessions[sid].key, 0);
  }

  lemma PromptServes(st: State, t: nat, sid: nat, proc: nat, c: Choice)
    requires Structure(st) && t in st.tasks && st.tasks[t] == Inside(sid, Ask(proc)) && c.ok
    ensures Served(Prompt(st, t, sid, proc, c), t, st.sessions[sid].key)
  {
    assert Relies(st, st.tasks[t]);
    assert TurnAt(Prompt(st, t, sid, proc, c), t).Some?;
  }

  lemma SpawnMoves(f: State -> State, st: State, t: nat, c: Choice, sid: nat) returns (next: State)
    requires IsStep(f, t, c) && Sound(st) && Unhindered(st, t) && GoesWell(c) && t in st.tasks && st.tasks[t] == Inside(sid, Spawn)
    requires sid in st.sessions
    ensures MovesTo(f, st, t, next) && sid in next.sessions && next.sessions[sid].key == st.sessions[sid].key
    ensures t in next.tasks && next.tasks[t].Inside? && next.tasks[t].sid == sid && next.tasks[t].work.Ask?
  {
    next := StepMoves(f, st, t, c);
    assert next == SpawnProcess(st, t, sid, c);
    StillUnhindered(st, t, next);
  }

  lemma SpawnIsServed(f: State -> State, st: State, t: nat, c: Choice, sid: nat)
    requires IsStep(f, t, c) && Sound(st) && Unhindered(st, t) && GoesWell(c) && t in st.tasks && st.tasks[t] == Inside(sid, Spawn)
    requires sid in st.sessions
    ensures EndsServed(f, st, t, c, st.sessions[sid].key, 2)
  {
    var next := SpawnMoves(f, st, t, c, sid);
    AskIsServed(f, next, t, c, sid);
    OneMore(f, st, next, t, c, st.sessions[sid].key, 1);
  }

  lemma RoomMoves(f: State -> State, st: State, t: nat, c: Choice, sid: nat) returns (next: State)
    requires IsStep(f, t, c) && Sound(st) && Unhindered(st, t) && t in st.tasks && st.tasks[t] == Inside(sid, Room)
    requires sid in st.sessions && (|Counted(st, sid)| < st.maxLive || LeastRecentlyUsed(st, sid, c.victim))
    ensures MovesTo(f, st, t, next) && sid in next.sessions && next.sessions[sid].key == st.sessions[sid].key
    ensures t in next.tasks && next.tasks[t] == Inside(sid, Spawn)
  {
    next := StepMoves(f, st, t, c);
    assert next == MakeRoom(st, t, sid, c);
    StillUnhindered(st, t, next);
  }

  lemma RoomIsServed(f: State -> State, st: State, t: nat, c: Choice, sid: nat) returns (n: nat)
    requires IsStep(f, t, c) && Sound(st) && Unhindered(st, t) && GoesWell(c) && t in st.tasks && st.tasks[t] == Inside(sid, Room)
    requires sid in st.sessions
    ensures n <= 3 && EndsServed(f, st, t, c, st.sessions[sid].key, n)
  {
    if |Counted(st, sid)| >= st.maxLive && !LeastRecentlyUsed(st, sid, c.victim) {
      n := 0;
      assert Iterate(f, st, 0) == st;
    } else {
      n := 3;
      var next := RoomMoves(f, st, t, c, sid);
      SpawnIsServed(f, next, t, c, sid);
      OneMore(f, st, next, t, c, st.sessions[sid].key, 2);
    }
  }

  lemma EnterMoves(f: State -> State, st: State, t: nat, c: Choice, sid: nat) returns (next: State)
    requires IsStep(f, t, c) && Sound(st) && Unhindered(st, t) && t in st.tasks && st.tasks[t] == Waiting(sid, Enter)
    requires sid in st.sessions && !st.sessions[sid].removed
    ensures MovesTo(f, st, t, next) && sid in next.sessions && next.sessions[sid].key == st.sessions[sid].key
    ensures t in next.tasks && next.tasks[t].Inside? && next.tasks[t].sid == sid
    ensures next.tasks[t].work.Room? || next.tasks[t].work.Ask?
  {
    next := StepMoves(f, st, t, c);
    SupersedeSameChats(st, sid, c.ok);
    ProceedSameChats(Supersede(st, sid, c.ok), t, sid);
    EnteredAt(st, t, c, sid);
    assert next == EnterTurn(st, t, sid, c);
    StillUnhindered(st, t, next);
  }

  lemma EnteredAt(st: State, t: nat, c: Choice, sid: nat)
    requires t in st.tasks && sid in st.sessions && !st.sessions[sid].removed
    ensures var next := EnterTurn(st, t, sid, c);
            && t in next.tasks && next.tasks[t].Inside? && next.tasks[t].sid == sid
            && (next.tasks[t].work.Room? || next.tasks[t].work.Ask?)
  {
  }

  lemma EnterIsServed(f: State -> State, st: State, t: nat, c: Choice, sid: nat) returns (n: nat)
    requires IsStep(f, t, c) && Sound(st) && Unhindered(st, t) && GoesWell(c) && t in st.tasks && st.tasks[t] == Waiting(sid, Enter)
    requires sid in st.sessions && !st.sessions[sid].removed
    ensures n <= 4 && EndsServed(f, st, t, c, st.sessions[sid].key, n)
  {
    var next := EnterMoves(f, st, t, c, sid);
    if next.tasks[t].work.Room? {
      n := RoomIsServed(f, next, t, c, sid);
    } else {
      n := 1;
      AskIsServed(f, next, t, c, sid);
    }
    OneMore(f, st, next, t, c, st.sessions[sid].key, n);
    n := n + 1;
  }

  lemma LoadMoves(f: State -> State, st: State, t: nat, c: Choice, key: Key, again: bool) returns (next: State)
    requires IsStep(f, t, c) && Sound(st) && Unhindered(st, t) && t in st.tasks && st.tasks[t] == Loading(key, again)
    ensures MovesTo(f, st, t, next) && st.nextSession in next.sessions
    ensures next.sessions[st.nextSession].key == key && !next.sessions[st.nextSession].removed
    ensures t in next.tasks && next.tasks[t] == Waiting(st.nextSession, if again then Enter else Peek)
  {
    next := StepMoves(f, st, t, c);
    StillUnhindered(st, t, next);
  }

  lemma LookMoves(f: State -> State, st: State, t: nat, c: Choice, key: Key, again: bool) returns (next: State)
    requires IsStep(f, t, c) && Sound(st) && Unhindered(st, t) && t in st.tasks && st.tasks[t] == Looking(key, ToBegin(again))
    ensures MovesTo(f, st, t, next)
    ensures next == Go(st, t, if key in st.table then Waiting(st.table[key], if again then Enter else Peek) else Loading(key, again))
  {
    next := StepMoves(f, st, t, c);
    assert next == Look(st, t, key, ToBegin(again), c);
    StillUnhindered(st, t, next);
  }

  lemma PeekMoves(f: State -> State, st: State, t: nat, c: Choice, sid: nat) returns (next: State)
    requires IsStep(f, t, c) && Sound(st) && Unhindered(st, t) && t in st.tasks && st.tasks[t] == Waiting(sid, Peek)
    requires sid in st.sessions
    ensures MovesTo(f, st, t, next)
    ensures next == Go(st, t, if st.sessions[sid].removed then Looking(st.sessions[sid].key, ToBegin(true)) else Waiting(sid, Enter))
  {
    next := StepMoves(f, st, t, c);
    assert next == Arrive(st, t, sid, Peek, c);
    StillUnhindered(st, t, next);
  }

  lemma LoadIsServed(f: State -> State, st: State, t: nat, c: Choice, key: Key) returns (n: nat)
    requires IsStep(f, t, c) && Sound(st) && Unhindered(st, t) && GoesWell(c) && t in st.tasks && st.tasks[t] == Loading(key, true)
    ensures n <= 5 && EndsServed(f, st, t, c, key, n)
  {
    var next := LoadMoves(f, st, t, c, key, true);
    n := EnterIsServed(f, next, t, c, st.nextSession);
    OneMore(f, st, next, t, c, key, n);
    n := n + 1;
  }

  /** The map holds no removed session of the chat. */
  predicate NotInTheWay(st: State, key: Key) {
    key in st.table ==> st.table[key] in st.sessions && !st.sessions[st.table[key]].removed
  }

  /** The second look at the map, after the session that was found turned out to be removed. */
  lemma AgainIsServed(f: State -> State, st: State, t: nat, c: Choice, key: Key) returns (n: nat)
    requires IsStep(f, t, c) && Sound(st) && Unhindered(st, t) && GoesWell(c)
    requires t in st.tasks && st.tasks[t] == Looking(key, ToBegin(true)) && NotInTheWay(st, key)
    ensures n <= 6 && EndsServed(f, st, t, c, key, n)
  {
    var next := LookMoves(f, st, t, c, key, true);
    if key in st.table {
      n := EnterIsServed(f, next, t, c, st.table[key]);
    } else {
      n := LoadIsServed(f, next, t, c, key);
    }
    OneMore(f, st, next, t, c, key, n);
    n := n + 1;
  }

  lemma PeekIsServed(f: State -> State, st: State, t: nat, c: Choice, sid: nat) returns (n: nat)
    requires IsStep(f, t, c) && Sound(st) && Unhindered(st, t) && GoesWell(c) && t in st.tasks && st.tasks[t] == Waiting(sid, Peek)
    requires sid in st.sessions && NotInTheWay(st, st.sessions[sid].key)
    ensures n <= 7 && EndsServed(f, st, t, c, st.sessions[sid].key, n)
  {
    var next := PeekMoves(f, st, t, c, sid);
    if st.sessions[sid].removed {
      n := AgainIsServed(f, next, t, c, st.sessions[sid].key);
    } else {
      n := EnterIsServed(f, next, t, c, sid);
    }
    OneMore(f, st, next, t, c, st.sessions[sid].key, n);
    n := n + 1;
  }

  lemma NewChatIsServed(f: State -> State, st: State, t: nat, c: Choice, key: Key) returns (n: nat)
    requires IsStep(f, t, c) && Sound(st) && Unhindered(st, t) && GoesWell(c) && t in st.tasks && st.tasks[t] == Loading(key, false)
    ensures n <= 8 && EndsServed(f, st, t, c, key, n)
  {
    var next := LoadMoves(f, st, t, c, key, false);
    FiledOnce(next, st.nextSession);
    n := PeekIsServed(f, next, t, c, st.nextSession);
    OneMore(f, st, next, t, c, key, n);
    n := n + 1;
  }

  lemma FiledOnce(st: State, sid: nat)
    requires Structure(st) && sid in st.sessions && !st.sessions[sid].removed
    ensures NotInTheWay(st, st.sessions[sid].key)
  {
  }

  /** A request that nobody hinders gets its turn within nine steps, also for a chat that was deleted, as long as the map does not
      hold a removed session for it; it can only find that there is no room. */
  lemma RequestsAreServed(f: State -> State, st: State, t: nat, c: Choice, key: Key) returns (n: nat)
    requires IsStep(f, t, c) && Sound(st) && Unhindered(st, t) && GoesWell(c)
    requires t in st.tasks && st.tasks[t] == Looking(key, ToBegin(false)) && NotInTheWay(st, key)
    ensures n <= 9 && EndsServed(f, st, t, c, key, n)
  {
    var next := LookMoves(f, st, t, c, key, false);
    if key in st.table {
      n := PeekIsServed(f, next, t, c, st.table[key]);
    } else {
      n := NewChatIsServed(f, next, t, c, key);
    }
    OneMore(f, st, next, t, c, key, n);
    n := n + 1;
  }

  /** If the map does hold a removed session, and nobody takes it out, the request is turned away after four steps, and nothing has
      changed. */
  lemma RemovedTurnsAway(f: State -> State, st: State, t: nat, c: Choice, key: Key)
    requires IsStep(f, t, c) && Sound(st) && Unhindered(st, t)
    requires t in st.tasks && st.tasks[t] == Looking(key, ToBegin(false)) && !NotInTheWay(st, key)
    ensures Iterate(f, st, 4) == st.(tasks := st.tasks - {t})
  {
    var sid := st.table[key];
    var peeks, again, enters := Go(st, t, Waiting(sid, Peek)), Go(st, t, Looking(key, ToBegin(true))), Go(st, t, Waiting(sid, Enter));
    var first := LookMoves(f, st, t, c, key, false);
    var second := PeekMoves(f, peeks, t, c, sid);
    GoTwice(st, t, Waiting(sid, Peek), Looking(key, ToBegin(true)));
    var third := LookMoves(f, again, t, c, key, true);
    GoTwice(st, t, Looking(key, ToBegin(true)), Waiting(sid, Enter));
    LastTurnAwayStep(f, st, enters, t, c, sid);
    FourSteps(f, st, peeks, again, enters, st.(tasks := st.tasks - {t}));
  }

  lemma GoTwice(st: State, t: nat, first: Task, second: Task)
    ensures Go(Go(st, t, first), t, second) == Go(st, t, second)
  {
    assert st.tasks[t := first][t := second] == st.tasks[t := second];
  }

  lemma FourSteps(f: State -> State, a: State, b: State, d: State, e: State, last: State)
    requires f(a) == b && f(b) == d && f(d) == e && f(e) == last
    ensures Iterate(f, a, 4) == last
  {
    assert Iterate(f, last, 0) == last && Iterate(f, e, 1) == last && Iterate(f, d, 2) == last && Iterate(f, b, 3) == last;
  }

  lemma LastTurnAwayStep(f: State -> State, start: State, st: State, t: nat, c: Choice, sid: nat)
    requires IsStep(f, t, c) && Sound(st) && Unhindered(st, t) && t in st.tasks && st.tasks[t] == Waiting(sid, Enter)
    requires t in start.tasks && st == start.(tasks := start.tasks[t := Waiting(sid, Enter)])
    requires sid in st.sessions && st.sessions[sid].removed
    ensures f(st) == start.(tasks := start.tasks - {t})
  {
    var next := StepMoves(f, st, t, c);
    assert next == Finish(st, t);
    assert st.tasks - {t} == start.tasks - {t};
  }

  // ---- Deletions

  /** The chat is gone: from the map, and with its directory, its process and its turns. */
  ghost predicate GoneFor(st: State, t: nat, key: Key) {
    && t !in st.tasks
    && key !in st.table
    && key !in st.dirs
    && forall sid :: sid in st.sessions && st.sessions[sid].key == key ==>
         st.sessions[sid].removed && st.sessions[sid].slot.None?
  }

  lemma OneMoreGone(f: State -> State, st: State, next: State, t: nat, key: Key, n: nat)
    requires f(st) == next && GoneFor(Iterate(f, next, n), t, key)
    ensures GoneFor(Iterate(f, st, n + 1), t, key)
  {
    assert Iterate(f, st, n + 1) == Iterate(f, f(st), n);
  }

  lemma UnlistedIsGone(f: State -> State, st: State, t: nat, c: Choice, sid: nat)
    requires IsStep(f, t, c) && Sound(st) && Unhindered(st, t) && t in st.tasks && st.tasks[t] == Inside(sid, Unlist)
    requires sid in st.sessions && st.sessions[sid].key !in st.dirs
    ensures GoneFor(Iterate(f, st, 1), t, st.sessions[sid].key)
  {
    var next := StepMoves(f, st, t, c);
    UnlistingLeavesNothing(st, t, sid, c);
    assert Iterate(f, next, 0) == next;
    OneMoreGone(f, st, next, t, st.sessions[sid].key, 0);
  }

  lemma UnlistingLeavesNothing(st: State, t: nat, sid: nat, c: Choice)
    requires Structure(st) && t in st.tasks && st.tasks[t] == Inside(sid, Unlist) && st.sessions[sid].key !in st.dirs
    ensures GoneFor(Perform(st, t, sid, Unlist, c), t, st.sessions[sid].key)
  {
    assert Relies(st, st.tasks[t]);
  }

  /** The steps between the start of a deletion and its end. */
  lemma RemovalMoves(f: State -> State, st: State, t: nat, c: Choice, sid: nat, work: Work, after: Work) returns (next: State)
    requires IsStep(f, t, c) && Sound(st) && Unhindered(st, t) && t in st.tasks && st.tasks[t] == Inside(sid, work)
    requires (work, after) in {(Unindex, Unsave), (Unsave, Unlist)}
    requires sid in st.sessions
    ensures MovesTo(f, st, t, next) && next.sessions == st.sessions && next.dirs == st.dirs
    ensures t in next.tasks && next.tasks[t] == Inside(sid, after)
  {
    next := StepMoves(f, st, t, c);
    assert next == Go(st, t, Inside(sid, after));
    StillUnhindered(st, t, next);
  }

  lemma UnindexedIsGone(f: State -> State, st: State, t: nat, c: Choice, sid: nat)
    requires IsStep(f, t, c) && Sound(st) && Unhindered(st, t) && t in st.tasks && st.tasks[t] == Inside(sid, Unindex)
    requires sid in st.sessions && st.sessions[sid].key !in st.dirs
    ensures GoneFor(Iterate(f, st, 3), t, st.sessions[sid].key)
  {
    var saving := RemovalMoves(f, st, t, c, sid, Unindex, Unsave);
    var saved := RemovalMoves(f, saving, t, c, sid, Unsave, Unlist);
    UnlistedIsGone(f, saved, t, c, sid);
    OneMoreGone(f, saving, saved, t, st.sessions[sid].key, 1);
    OneMoreGone(f, st, saving, t, st.sessions[sid].key, 2);
  }

  /** A deletion can start: it found its session in the map, or the expired chat is not in use. */
  predicate MayDelete(st: State, t: nat, sid: nat)
    requires t in st.tasks && sid in st.sessions
  {
    || (st.tasks[t] == Inside(sid, Check) && IsCurrent(st, sid))
    || (st.tasks[t] == Trying(sid, RemoveExpired)
        && st.sessions[sid].slot.None? && !st.sessions[sid].busy && !st.sessions[sid].removed)
  }

  lemma DeleteMoves(f: State -> State, st: State, t: nat, c: Choice, sid: nat) returns (next: State)
    requires IsStep(f, t, c) && Sound(st) && Unhindered(st, t) && t in st.tasks && sid in st.sessions && MayDelete(st, t, sid)
    ensures MovesTo(f, st, t, next) && sid in next.sessions && next.sessions[sid].key == st.sessions[sid].key
    ensures t in next.tasks && next.tasks[t] == Inside(sid, Unindex) && st.sessions[sid].key !in next.dirs
  {
    next := StepMoves(f, st, t, c);
    DeleteStep(st, t, c, sid);
    StillUnhindered(st, t, next);
  }

  lemma DeleteStep(st: State, t: nat, c: Choice, sid: nat)
    requires Typed(st) && Enabled(st, t) && Unhindered(st, t) && sid in st.sessions && MayDelete(st, t, sid)
    ensures Advance(st, t, c) == Go(Delete(st, sid), t, Inside(sid, Unindex))
  {
    assert st.tasks[t].Trying? ==> Free(st, SessionLock(sid));
  }

  lemma DeletedIsGone(f: State -> State, st: State, t: nat, c: Choice, sid: nat)
    requires IsStep(f, t, c) && Sound(st) && Unhindered(st, t) && t in st.tasks && sid in st.sessions && MayDelete(st, t, sid)
    ensures GoneFor(Iterate(f, st, 4), t, st.sessions[sid].key)
  {
    var next := DeleteMoves(f, st, t, c, sid);
    UnindexedIsGone(f, next, t, c, sid);
    OneMoreGone(f, st, next, t, st.sessions[sid].key, 3);
  }

  lemma LockMoves(f: State -> State, st: State, t: nat, c: Choice, sid: nat) returns (next: State)
    requires IsStep(f, t, c) && Sound(st) && Unhindered(st, t) && t in st.tasks && st.tasks[t] == Waiting(sid, Removal)
    ensures MovesTo(f, st, t, next) && next.sessions == st.sessions && next.table == st.table
    ensures t in next.tasks && next.tasks[t] == Inside(sid, Check)
  {
    next := StepMoves(f, st, t, c);
    assert next == Go(st, t, Inside(sid, Check));
    StillUnhindered(st, t, next);
  }

  lemma FindMoves(f: State -> State, st: State, t: nat, c: Choice, key: Key) returns (next: State, sid: nat)
    requires IsStep(f, t, c) && Sound(st) && Unhindered(st, t) && t in st.tasks && st.tasks[t] == Looking(key, ToRemove)
    ensures MovesTo(f, st, t, next) && IsCurrent(next, sid) && next.sessions[sid].key == key
    ensures t in next.tasks && next.tasks[t] == Waiting(sid, Removal)
  {
    next := StepMoves(f, st, t, c);
    assert next == Look(st, t, key, ToRemove, c);
    StillUnhindered(st, t, next);
    sid := if key in st.table then st.table[key] else st.nextSession;
  }

  /** A deletion that nobody hinders is complete within six steps, whatever it finds. */
  lemma DeletionsComplete(f: State -> State, st: State, t: nat, c: Choice, key: Key)
    requires IsStep(f, t, c) && Sound(st) && Unhindered(st, t) && t in st.tasks && st.tasks[t] == Looking(key, ToRemove)
    ensures GoneFor(Iterate(f, st, 6), t, key)
  {
    var found, sid := FindMoves(f, st, t, c, key);
    var locked := LockMoves(f, found, t, c, sid);
    DeletedIsGone(f, locked, t, c, sid);
    OneMoreGone(f, found, locked, t, key, 4);
    OneMoreGone(f, st, found, t, key, 5);
  }

  /** There is something in the way of deleting an expired chat: a process, a turn or a deletion. */
  predicate InUse(st: State, key: Key) {
    && key in st.table && st.table[key] in st.sessions
    && var s := st.sessions[st.table[key]];
       s.slot.Some? || s.busy || s.removed
  }

  lemma ExpireMoves(f: State -> State, st: State, t: nat, c: Choice, key: Key) returns (next: State)
    requires IsStep(f, t, c) && Sound(st) && Unhindered(st, t) && t in st.tasks && st.tasks[t] == Looking(key, ToExpire)
    ensures MovesTo(f, st, t, next) && next.sessions == st.sessions && next.table == st.table
    ensures next == st.(tasks := st.tasks[t := if key in st.table then Trying(st.table[key], RemoveExpired) else Looking(key, ToRemove)])
  {
    next := StepMoves(f, st, t, c);
    assert next == Look(st, t, key, ToExpire, c);
    StillUnhindered(st, t, next);
  }

  lemma SkipMoves(f: State -> State, st: State, t: nat, c: Choice, sid: nat)
    requires IsStep(f, t, c) && Sound(st) && Unhindered(st, t) && t in st.tasks && st.tasks[t] == Trying(sid, RemoveExpired)
    requires sid in st.sessions && (st.sessions[sid].slot.Some? || st.sessions[sid].busy || st.sessions[sid].removed)
    ensures f(st) == st.(tasks := st.tasks - {t})
  {
    var next := StepMoves(f, st, t, c);
    assert next == Finish(st, t);
  }

  /** An expired chat that nobody hinders is deleted within seven steps exactly unless it is in use; then nothing happens to it. */
  lemma ExpiryCompletes(f: State -> State, st: State, t: nat, c: Choice, key: Key) returns (n: nat)
    requires IsStep(f, t, c) && Sound(st) && Unhindered(st, t) && t in st.tasks && st.tasks[t] == Looking(key, ToExpire)
    ensures n <= 7
    ensures if InUse(st, key) then Iterate(f, st, n) == st.(tasks := st.tasks - {t}) else GoneFor(Iterate(f, st, n), t, key)
  {
    var next := ExpireMoves(f, st, t, c, key);
    if key !in st.table {
      n := 7;
      DeletionsComplete(f, next, t, c, key);
      OneMoreGone(f, st, next, t, key, 6);
    } else if InUse(st, key) {
      n := 2;
      SkipMoves(f, next, t, c, st.table[key]);
      TwoSteps(f, st, next, next.(tasks := next.tasks - {t}));
      assert next.tasks - {t} == st.tasks - {t};
    } else {
      n := 5;
      DeletedIsGone(f, next, t, c, st.table[key]);
      OneMoreGone(f, st, next, t, key, 4);
    }
  }

  lemma TwoSteps(f: State -> State, a: State, b: State, last: State)
    requires f(a) == b && f(b) == last
    ensures Iterate(f, a, 2) == last
  {
    assert Iterate(f, last, 0) == last && Iterate(f, b, 1) == last;
  }
}
