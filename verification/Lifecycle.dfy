/** All chats of the proxy at once: session objects, the session map, the three kinds of locks and any number of
    concurrent tasks. One step is one await-free block, or one section that is entirely under a lock. A lock that is kept
    across an await is held by the task that is at a place inside that section; it is free when no task is. */
module Lifecycle {
  import opened Wrappers

  type Key = string

  /** A session object. `slot` is the process it owns, `token` the cancellation token of its latest turn. */
  datatype Session = Session(
    key: Key, removed: bool, busy: bool, generation: nat, token: nat, slot: Option<nat>, lastUsed: nat)

  /** A running turn, held by the request that drives it until its `end_turn` has run. */
  datatype Turn = Turn(sid: nat, generation: nat, token: nat, proc: nat)

  /** Where a task is, and so which locks it holds and which one it waits for. */
  datatype Task =
    | Looking(key: Key, goal: Goal)        // waits for the map
    | Loading(key: Key, again: bool)       // holds the map, waits for the index
    | Waiting(sid: nat, visit: Visit)      // waits for the session
    | Trying(sid: nat, chore: Chore)       // tries the session, never waits
    | Inside(sid: nat, work: Work)         // holds the session
    | Running(turn: Turn, ending: bool)    // when ending, waits for the session
    | Saving(started: bool)                // waits for the index, then holds it

  datatype Goal = ToBegin(again: bool) | ToRemove | ToExpire

  datatype Visit = Peek | Enter | Removal | TakeProcess

  datatype Chore = StopIdle | RemoveExpired

  /** What a task does under the state lock of a session. */
  datatype Work =
    | Room                 // begin_turn: waits for the map to count the running processes
    | Spawn                // begin_turn: admitted, starts omp
    | Ask(proc: nat)       // begin_turn: prepares and prompts
    | Sync(turn: Turn)     // end_turn: reconciles with omp
    | Check                // remove: waits for the map
    | Unindex              // remove_locked: waits for the index
    | Unsave               // remove_locked: holds the index
    | Unlist               // remove_locked: waits for the map
    | Stopping             // maintain: the idle process shuts down

  datatype Lock = SessionLock(sid: nat) | MapLock | IndexLock

  datatype State = State(
    maxLive: nat,
    sessions: map<nat, Session>,
    table: map<Key, nat>,
    tasks: map<nat, Task>,
    alive: set<nat>,
    cancelled: set<nat>,
    dirs: set<Key>,
    nextTask: nat,
    nextSession: nat,
    nextProc: nat,
    nextToken: nat)

  function Init(maxLive: nat): State {
    State(maxLive, map[], map[], map[], {}, {}, {}, 0, 0, 0, 0)
  }

  // ---- Locks

  function Waits(task: Task): Option<Lock> {
    match task
    case Looking(_, _) => Some(MapLock)
    case Loading(_, _) => Some(IndexLock)
    case Waiting(sid, _) => Some(SessionLock(sid))
    case Trying(_, _) => None
    case Inside(_, work) =>
      if work.Room? || work.Check? || work.Unlist? then Some(MapLock)
      else if work.Unindex? then Some(IndexLock)
      else None
    case Running(turn, ending) => if ending then Some(SessionLock(turn.sid)) else None
    case Saving(started) => if started then None else Some(IndexLock)
  }

  predicate Holds(task: Task, lock: Lock) {
    match lock
    case SessionLock(sid) => task.Inside? && task.sid == sid
    case MapLock => task.Loading?
    case IndexLock => (task.Saving? && task.started) || (task.Inside? && task.work.Unsave?)
  }

  predicate Free(st: State, lock: Lock) {
    forall t :: t in st.tasks ==> !Holds(st.tasks[t], lock)
  }

  predicate Enabled(st: State, t: nat) {
    t in st.tasks && (Waits(st.tasks[t]).Some? ==> Free(st, Waits(st.tasks[t]).value))
  }

  // ---- Sessions and processes

  predicate Live(st: State, sid: nat) {
    && sid in st.sessions
    && st.sessions[sid].slot.Some?
    && st.sessions[sid].slot.value in st.alive
  }

  predicate IsCurrent(st: State, sid: nat) {
    && sid in st.sessions
    && st.sessions[sid].key in st.table
    && st.table[st.sessions[sid].key] == sid
  }

  predicate Refers(st: State, task: Task) {
    match task
    case Looking(_, _) => true
    case Loading(_, _) => true
    case Waiting(sid, _) => sid in st.sessions
    case Trying(sid, _) => sid in st.sessions
    case Inside(sid, work) => sid in st.sessions && (work.Sync? ==> work.turn.sid == sid)
    case Running(turn, _) => turn.sid in st.sessions
    case Saving(_) => true
  }

  /** Every session a task or the map refers to exists, sessions are filed under their own key, and numbers that have not
      been given out are not in use. */
  ghost predicate Typed(st: State) {
    && (forall t :: t in st.tasks ==> t < st.nextTask && Refers(st, st.tasks[t]))
    && (forall key :: key in st.table ==> st.table[key] in st.sessions && st.sessions[st.table[key]].key == key)
    && (forall sid :: sid in st.sessions ==> sid < st.nextSession)
    && (forall sid :: sid in st.sessions && st.sessions[sid].slot.Some? ==> st.sessions[sid].slot.value < st.nextProc)
  }

  // ---- Building blocks of a step

  function Put(st: State, sid: nat, s: Session): State {
    st.(sessions := st.sessions[sid := s])
  }

  function Go(st: State, t: nat, task: Task): State {
    st.(tasks := st.tasks[t := task])
  }

  function Finish(st: State, t: nat): State {
    st.(tasks := st.tasks - {t})
  }

  /** Takes the process out of the slot and stops it. */
  function Empty(st: State, sid: nat): State
    requires sid in st.sessions
  {
    var s := st.sessions[sid];
    Put(st, sid, s.(slot := None)).(alive := if s.slot.Some? then st.alive - {s.slot.value} else st.alive)
  }

  /** A session object for a key that the map does not hold yet; a placeholder is removed from the start. */
  function AddSession(st: State, key: Key, placeholder: bool, now: nat): State {
    var s := Session(key, placeholder, false, 0, st.nextToken, None, now);
    Put(st, st.nextSession, s).(
      table := st.table[key := st.nextSession], nextSession := st.nextSession + 1, nextToken := st.nextToken + 1)
  }

  /** The start of `remove_locked`: no turn can start on this session any more, its turn is cancelled, its process
      stopped and its directory deleted. */
  function Delete(st: State, sid: nat): State
    requires sid in st.sessions
  {
    var s := st.sessions[sid];
    Put(st, sid, s.(removed := true, slot := None)).(
      alive := if s.slot.Some? then st.alive - {s.slot.value} else st.alive,
      cancelled := st.cancelled + {s.token},
      dirs := st.dirs - {s.key})
  }

  // ---- make_room

  /** A session of another chat that counts as running: locked, or with a live process. */
  predicate Counts(st: State, own: nat, sid: nat)
    requires own in st.sessions
  {
    && IsCurrent(st, sid)
    && st.sessions[sid].key != st.sessions[own].key
    && (!Free(st, SessionLock(sid)) || Live(st, sid))
  }

  function Counted(st: State, own: nat): set<nat>
    requires own in st.sessions
  {
    set sid | sid in st.sessions && Counts(st, own, sid)
  }

  /** The sessions of other chats whose process may be stopped: unlocked, live and idle. */
  predicate Evictable(st: State, own: nat, sid: nat)
    requires own in st.sessions
  {
    && IsCurrent(st, sid)
    && st.sessions[sid].key != st.sessions[own].key
    && Free(st, SessionLock(sid))
    && Live(st, sid)
    && !st.sessions[sid].busy
  }

  ghost predicate LeastRecentlyUsed(st: State, own: nat, victim: nat)
    requires own in st.sessions
  {
    && Evictable(st, own, victim)
    && forall other: nat :: Evictable(st, own, other) ==> st.sessions[victim].lastUsed <= st.sessions[other].lastUsed
  }

  // ---- Steps

  /** How the awaited work of a step ends: `ok` and `alt` are explained where they are used, `victim` is the session the
      scan of `make_room` settles on, `now` the clock. */
  datatype Choice = Choice(ok: bool, alt: bool, victim: nat, now: nat)

  ghost function Advance(st: State, t: nat, c: Choice): (st': State)
    requires Typed(st) && Enabled(st, t)
    ensures st'.maxLive == st.maxLive
  {
    match st.tasks[t]
    case Looking(key, goal) => Look(st, t, key, goal, c)
    case Loading(key, again) =>
      Go(AddSession(st, key, false, c.now), t, Waiting(st.nextSession, if again then Enter else Peek))
    case Waiting(sid, visit) => Arrive(st, t, sid, visit, c)
    case Trying(sid, chore) => Try(st, t, sid, chore, c)
    case Inside(sid, work) => Perform(st, t, sid, work, c)
    case Running(turn, ending) => if ending then EndTurn(st, t, turn, c) else Go(st, t, Running(turn, true))
    case Saving(started) => if started then Finish(st, t) else Go(st, t, Saving(true))
  }

  /** At the session map. */
  function Look(st: State, t: nat, key: Key, goal: Goal, c: Choice): (st': State)
    ensures st'.maxLive == st.maxLive && st.dirs <= st'.dirs
  {
    match goal
    case ToBegin(again) =>
      Go(st, t, if key in st.table then Waiting(st.table[key], if again then Enter else Peek) else Loading(key, again))
    case ToRemove =>
      if key in st.table then Go(st, t, Waiting(st.table[key], Removal))
      else Go(AddSession(st, key, true, c.now), t, Waiting(st.nextSession, Removal))
    case ToExpire =>
      Go(st, t, if key in st.table then Trying(st.table[key], RemoveExpired) else Looking(key, ToRemove))
  }

  /** A session lock has become free. */
  function Arrive(st: State, t: nat, sid: nat, visit: Visit, c: Choice): (st': State)
    requires sid in st.sessions
    ensures st'.maxLive == st.maxLive && st.dirs <= st'.dirs
  {
    match visit
    case Peek =>
      Go(st, t, if st.sessions[sid].removed then Looking(st.sessions[sid].key, ToBegin(true)) else Waiting(sid, Enter))
    case Enter => EnterTurn(st, t, sid, c)
    case Removal => Go(st, t, Inside(sid, Check))
    case TakeProcess => Finish(Empty(st, sid), t)
  }

  /** A newer request takes over a busy session; `stopped`: the superseded turn stops in time. */
  function Supersede(st: State, sid: nat, stopped: bool): (st': State)
    requires sid in st.sessions
    ensures st'.maxLive == st.maxLive && st.dirs <= st'.dirs
  {
    var s := st.sessions[sid];
    if !s.busy then st
    else
      var taken := Put(st, sid, s.(busy := false, generation := s.generation + 1)).(cancelled := st.cancelled + {s.token});
      if Live(st, sid) && !stopped then Empty(taken, sid) else taken
  }

  /** ok: a superseded turn stops in time. */
  function EnterTurn(st: State, t: nat, sid: nat, c: Choice): (st': State)
    requires sid in st.sessions
    ensures st'.maxLive == st.maxLive && st.dirs <= st'.dirs
  {
    if st.sessions[sid].removed then Finish(st, t)
    else Proceed(Supersede(st, sid, c.ok), t, sid)
  }

  /** With the session to itself, a turn goes on with the live process or makes room for a new one. */
  function Proceed(st: State, t: nat, sid: nat): (st': State)
    requires sid in st.sessions
    ensures st'.maxLive == st.maxLive && st.dirs <= st'.dirs
  {
    var s := st.sessions[sid];
    if Live(st, sid) then Go(st, t, Inside(sid, Ask(s.slot.value)))
    else Go(Put(st, sid, s.(slot := None)), t, Inside(sid, Room))
  }

  /** ok, for an idle process: it has been idle for long enough. */
  function Try(st: State, t: nat, sid: nat, chore: Chore, c: Choice): (st': State)
    requires sid in st.sessions
    ensures st'.maxLive == st.maxLive
  {
    var s := st.sessions[sid];
    if !Free(st, SessionLock(sid)) then Finish(st, t)
    else
      match chore
      case StopIdle =>
        if !s.busy && c.ok && s.slot.Some? then Go(Empty(st, sid), t, Inside(sid, Stopping)) else Finish(st, t)
      case RemoveExpired =>
        if s.slot.Some? || s.busy || s.removed then Finish(st, t)
        else Go(Delete(st, sid), t, Inside(sid, Unindex))
  }

  ghost function Perform(st: State, t: nat, sid: nat, work: Work, c: Choice): (st': State)
    requires sid in st.sessions
    ensures st'.maxLive == st.maxLive
  {
    match work
    case Room => MakeRoom(st, t, sid, c)
    case Spawn => SpawnProcess(st, t, sid, c)
    case Ask(proc) => Prompt(st, t, sid, proc, c)
    case Sync(turn) => SyncAndRelease(st, t, sid, turn.proc, c)
    case Check => if IsCurrent(st, sid) then Go(Delete(st, sid), t, Inside(sid, Unindex)) else Finish(st, t)
    case Unindex => Go(st, t, Inside(sid, Unsave))
    case Unsave => Go(st, t, Inside(sid, Unlist))
    case Unlist => Finish(if IsCurrent(st, sid) then st.(table := st.table - {st.sessions[sid].key}) else st, t)
    case Stopping => Finish(st, t)
  }

  /** The scan and, if needed, the eviction. Without a suitable victim the request is turned away. */
  ghost function MakeRoom(st: State, t: nat, sid: nat, c: Choice): (st': State)
    requires sid in st.sessions
    ensures st'.maxLive == st.maxLive && st.dirs <= st'.dirs
  {
    if |Counted(st, sid)| < st.maxLive then Go(st, t, Inside(sid, Spawn))
    else if LeastRecentlyUsed(st, sid, c.victim) then Go(Empty(st, c.victim), t, Inside(sid, Spawn))
    else Finish(st, t)
  }

  /** ok: omp starts. */
  function SpawnProcess(st: State, t: nat, sid: nat, c: Choice): (st': State)
    requires sid in st.sessions
    ensures st'.maxLive == st.maxLive && st.dirs <= st'.dirs
  {
    var s := st.sessions[sid];
    var made := st.(dirs := st.dirs + {s.key});
    if c.ok then
      Go(Put(made, sid, s.(slot := Some(st.nextProc))), t, Inside(sid, Ask(st.nextProc))).(
        alive := st.alive + {st.nextProc}, nextProc := st.nextProc + 1)
    else Finish(made, t)
  }

  /** ok: the prompt is acknowledged. Otherwise alt: a control command failed, so the process is given up. */
  function Prompt(st: State, t: nat, sid: nat, proc: nat, c: Choice): (st': State)
    requires sid in st.sessions
    ensures st'.maxLive == st.maxLive && st.dirs <= st'.dirs
  {
    var s := st.sessions[sid];
    if c.ok then
      var started := s.(generation := s.generation + 1, busy := true, lastUsed := c.now, token := st.nextToken);
      Go(Put(st, sid, started), t, Running(Turn(sid, s.generation + 1, st.nextToken, proc), false)).(
        nextToken := st.nextToken + 1)
    else if c.alt then Finish(Empty(st, sid), t)
    else Finish(if Live(st, sid) then st else Put(st, sid, s.(slot := None)), t)
  }

  function EndTurn(st: State, t: nat, turn: Turn, c: Choice): (st': State)
    requires turn.sid in st.sessions
    ensures st'.maxLive == st.maxLive && st.dirs <= st'.dirs
  {
    var s := st.sessions[turn.sid];
    if s.generation != turn.generation then Finish(st, t)
    else
      var ended := Put(st, turn.sid, s.(busy := false, lastUsed := c.now));
      if s.removed then Finish(ended, t) else Go(ended, t, Inside(turn.sid, Sync(turn)))
  }

  /** ok: omp responds. alt: idle processes are stopped at once. */
  function SyncAndRelease(st: State, t: nat, sid: nat, proc: nat, c: Choice): (st': State)
    requires sid in st.sessions
    ensures st'.maxLive == st.maxLive && st.dirs <= st'.dirs
  {
    var s := st.sessions[sid];
    var current := s.slot == Some(proc);
    var alive := if c.ok && !(c.alt && current) then st.alive else st.alive - {proc};
    var slot := if current && proc !in alive then None else s.slot;
    Go(Put(st, sid, s.(slot := slot)).(alive := alive), t, Saving(false))
  }

  // ---- Runs

  /** A request, a deletion, a pass of the maintenance over one session or key, or a shutdown. */
  predicate Arrives(st: State, task: Task) {
    match task
    case Looking(_, goal) => goal != ToBegin(true)
    case Trying(sid, chore) => sid in st.sessions && chore == StopIdle
    case Waiting(sid, visit) => sid in st.sessions && visit == TakeProcess
    case _ => false
  }

  /** A request whose client goes away is dropped wherever it waits, and with it go its locks. Turns are driven and ended, and
      chats maintained, by tasks of their own. */
  predicate MayVanish(task: Task) {
    match task
    case Looking(_, _) => true
    case Loading(_, _) => true
    case Waiting(_, visit) => visit != TakeProcess
    case Inside(_, work) => !work.Sync? && !work.Stopping?
    case _ => false
  }

  function Joined(st: State, task: Task): State {
    Go(st, st.nextTask, task).(nextTask := st.nextTask + 1)
  }

  datatype Event = Arrival(task: Task) | Death(proc: nat) | Progress(t: nat, choice: Choice) | Vanish(t: nat)

  ghost function Next(st: State, event: Event): (st': State)
    requires Typed(st)
    ensures st'.maxLive == st.maxLive
  {
    match event
    case Arrival(task) => if Arrives(st, task) then Joined(st, task) else st
    case Death(proc) => st.(alive := st.alive - {proc})
    case Progress(t, choice) => if Enabled(st, t) then Advance(st, t, choice) else st
    case Vanish(t) => if t in st.tasks && MayVanish(st.tasks[t]) then Finish(st, t) else st
  }
}
