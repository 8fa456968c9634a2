/** What `lastUsed` says, over every run, and so in which order idle processes are evicted. */
module LastUse {
  import opened Lifecycle
  import opened LifecycleInvariant
  import opened LifecycleRuns
  import opened Supersession
  import opened Wrappers

  /** The event makes the session object, or begins or ends its latest turn. */
  ghost predicate Touches(st: State, event: Event, sid: nat)
    requires Typed(st)
  {
    && event.Progress?
    && Enabled(st, event.t)
    && sid in Next(st, event).sessions
    && (sid !in st.sessions || (Current(st, event.t, sid) <==> !Current(Next(st, event), event.t, sid)))
  }

  /** `lastUsed` after a step. */
  ghost predicate UsedAsTouched(st: State, t: nat, c: Choice, st': State, sid: nat) {
    sid in st'.sessions ==>
      if sid !in st.sessions || (Current(st, t, sid) <==> !Current(st', t, sid)) then st'.sessions[sid].lastUsed == c.now
      else st'.sessions[sid].lastUsed == st.sessions[sid].lastUsed
  }

  /** A step that begins and ends no turn and makes no session. */
  lemma UnusedIsUntouched(st: State, t: nat, c: Choice, st': State, sid: nat)
    requires st'.sessions.Keys == st.sessions.Keys
    requires sid in st.sessions ==> st'.sessions[sid].lastUsed == st.sessions[sid].lastUsed
    requires TurnAt(st, t).None? && TurnAt(st', t).None?
    ensures UsedAsTouched(st, t, c, st', sid)
  {
  }

  lemma LookUses(st: State, t: nat, key: Key, goal: Goal, c: Choice, sid: nat)
    requires Typed(st) && t in st.tasks && st.tasks[t] == Looking(key, goal)
    ensures UsedAsTouched(st, t, c, Look(st, t, key, goal, c), sid)
  {
  }

  lemma ArriveUses(st: State, t: nat, at: nat, visit: Visit, c: Choice, sid: nat)
    requires Typed(st) && t in st.tasks && st.tasks[t] == Waiting(at, visit)
    ensures UsedAsTouched(st, t, c, Arrive(st, t, at, visit, c), sid)
  {
    UnusedIsUntouched(st, t, c, Arrive(st, t, at, visit, c), sid);
  }

  lemma TryUses(st: State, t: nat, at: nat, chore: Chore, c: Choice, sid: nat)
    requires Typed(st) && t in st.tasks && st.tasks[t] == Trying(at, chore)
    ensures UsedAsTouched(st, t, c, Try(st, t, at, chore, c), sid)
  {
    UnusedIsUntouched(st, t, c, Try(st, t, at, chore, c), sid);
  }

  lemma PromptUses(st: State, t: nat, at: nat, proc: nat, c: Choice, sid: nat)
    requires Typed(st) && t in st.tasks && st.tasks[t] == Inside(at, Ask(proc))
    ensures UsedAsTouched(st, t, c, Prompt(st, t, at, proc, c), sid)
  {
  }

  lemma PerformUses(st: State, t: nat, at: nat, work: Work, c: Choice, sid: nat)
    requires Typed(st) && t in st.tasks && st.tasks[t] == Inside(at, work)
    ensures UsedAsTouched(st, t, c, Perform(st, t, at, work, c), sid)
  {
    match work
    case Ask(proc) => PromptUses(st, t, at, proc, c, sid);
    case Sync(turn) => UnusedIsUntouched(st, t, c, SyncAndRelease(st, t, at, turn.proc, c), sid);
    case Room => UnusedIsUntouched(st, t, c, MakeRoom(st, t, at, c), sid);
    case _ => UnusedIsUntouched(st, t, c, Perform(st, t, at, work, c), sid);
  }

  lemma EndUses(st: State, t: nat, turn: Turn, ending: bool, c: Choice, sid: nat)
    requires Typed(st) && Enabled(st, t) && st.tasks[t] == Running(turn, ending)
    ensures UsedAsTouched(st, t, c, Advance(st, t, c), sid)
  {
    assert TurnAt(st, t) == Some(turn);
  }

  lemma AdvanceUses(st: State, t: nat, c: Choice, sid: nat)
    requires Typed(st) && Enabled(st, t)
    ensures UsedAsTouched(st, t, c, Advance(st, t, c), sid)
  {
    match st.tasks[t]
    case Looking(key, goal) => LookUses(st, t, key, goal, c, sid);
    case Waiting(at, visit) => ArriveUses(st, t, at, visit, c, sid);
    case Trying(at, chore) => TryUses(st, t, at, chore, c, sid);
    case Inside(at, work) => PerformUses(st, t, at, work, c, sid);
    case Running(turn, ending) => EndUses(st, t, turn, ending, c, sid);
    case _ =>
  }

  lemma NextUses(st: State, event: Event, sid: nat)
    requires Typed(st) && sid in Next(st, event).sessions
    ensures Touches(st, event, sid) ==> Next(st, event).sessions[sid].lastUsed == event.choice.now
    ensures !Touches(st, event, sid) ==>
              sid in st.sessions && Next(st, event).sessions[sid].lastUsed == st.sessions[sid].lastUsed
  {
    if event.Progress? && Enabled(st, event.t) {
      AdvanceUses(st, event.t, event.choice, sid);
    }
  }

  // ---- Over runs

  ghost predicate TouchedAt(st: State, events: seq<Event>, i: nat, sid: nat)
    requires Sound(st) && i < |events|
  {
    Touches(After(st, events[..i]), events[i], sid)
  }

  /** This event is the last one that touches the session. */
  ghost predicate LastTouch(st: State, events: seq<Event>, i: nat, sid: nat)
    requires Sound(st)
  {
    && i < |events|
    && TouchedAt(st, events, i, sid)
    && forall j :: i < j < |events| ==> !TouchedAt(st, events, j, sid)
  }

  ghost function UseAt(st: State, events: seq<Event>, i: nat, sid: nat): Option<nat>
    requires Sound(st) && i < |events|
  {
    if TouchedAt(st, events, i, sid) then Some(events[i].choice.now) else None
  }

  /** The times of the events that touch the session. */
  ghost function Uses(st: State, events: seq<Event>, sid: nat): seq<Option<nat>>
    requires Sound(st)
  {
    seq(|events|, i requires 0 <= i < |events| => UseAt(st, events, i, sid))
  }

  lemma LaterPoint(st: State, events: seq<Event>, i: nat, sid: nat)
    requires Sound(st) && 0 < i < |events| && Sound(Next(st, events[0]))
    ensures TouchedAt(st, events, i, sid) <==> TouchedAt(Next(st, events[0]), events[1..], i - 1, sid)
  {
    assert events[..i][1..] == events[1..][..i - 1] && events[..i][0] == events[0];
  }

  lemma FirstPoint(st: State, events: seq<Event>, sid: nat)
    requires Sound(st) && events != []
    ensures TouchedAt(st, events, 0, sid) <==> Touches(st, events[0], sid)
  {
    assert events[..0] == [];
  }

  lemma UsesLater(st: State, events: seq<Event>, sid: nat)
    requires Sound(st) && events != [] && Sound(Next(st, events[0]))
    ensures var uses := Uses(st, events, sid);
            && uses[0] == (if Touches(st, events[0], sid) then Some(events[0].choice.now) else None)
            && uses[1..] == Uses(Next(st, events[0]), events[1..], sid)
  {
    FirstPoint(st, events, sid);
    forall i | 1 <= i < |events|
      ensures UseAt(st, events, i, sid) == UseAt(Next(st, events[0]), events[1..], i - 1, sid)
    {
      LaterPoint(st, events, i, sid);
    }
  }

  /** The last time there is, or the one from before. */
  function Latest(before: Option<nat>, uses: seq<Option<nat>>): Option<nat>
    decreases |uses|
  {
    if uses == [] then before
    else Latest(if uses[0].Some? then uses[0] else before, uses[1..])
  }

  function UsedIn(st: State, sid: nat): Option<nat> {
    if sid in st.sessions then Some(st.sessions[sid].lastUsed) else None
  }

  lemma NextUsedIn(st: State, event: Event, sid: nat)
    requires Typed(st)
    ensures UsedIn(Next(st, event), sid) == if Touches(st, event, sid) then Some(event.choice.now) else UsedIn(st, sid)
  {
    if sid in Next(st, event).sessions {
      NextUses(st, event, sid);
    } else if sid in st.sessions {
      SessionsStay(st, event, sid);
    }
  }

  lemma SessionsStay(st: State, event: Event, sid: nat)
    requires Typed(st) && sid in st.sessions
    ensures sid in Next(st, event).sessions
  {
    if event.Progress? && Enabled(st, event.t) && st.tasks[event.t].Inside? {
      WorkKeepsSessions(st, event.t, st.tasks[event.t].sid, st.tasks[event.t].work, event.choice, sid);
    }
  }

  lemma WorkKeepsSessions(st: State, t: nat, at: nat, work: Work, c: Choice, sid: nat)
    requires at in st.sessions && sid in st.sessions
    ensures sid in Perform(st, t, at, work, c).sessions
  {
  }

  lemma {:induction false} UsedOverRuns(st: State, events: seq<Event>, sid: nat)
    requires Sound(st)
    ensures UsedIn(After(st, events), sid) == Latest(UsedIn(st, sid), Uses(st, events, sid))
    decreases |events|
  {
    if events != [] {
      NextKeepsSound(st, events[0]);
      NextUsedIn(st, events[0], sid);
      UsesLater(st, events, sid);
      UsedOverRuns(Next(st, events[0]), events[1..], sid);
    }
  }

  lemma {:induction false} LatestIsLast(before: Option<nat>, uses: seq<Option<nat>>) returns (i: nat)
    requires Latest(before, uses).Some?
    ensures i < |uses| || before == Latest(before, uses)
    ensures i < |uses| ==> uses[i] == Latest(before, uses) && forall j :: i < j < |uses| ==> uses[j].None?
    ensures i >= |uses| ==> forall j :: 0 <= j < |uses| ==> uses[j].None?
    decreases |uses|
  {
    i := 0;
    if uses != [] {
      var first := if uses[0].Some? then uses[0] else before;
      var k := LatestIsLast(first, uses[1..]);
      assert forall j :: 1 <= j < |uses| ==> uses[j] == uses[1..][j - 1];
      i := if k < |uses| - 1 then k + 1 else if uses[0].Some? then 0 else |uses|;
    }
  }

  lemma UsesTouch(st: State, events: seq<Event>, i: nat, sid: nat)
    requires Sound(st) && i < |events| && Uses(st, events, sid)[i].Some?
    requires forall j :: i < j < |events| ==> Uses(st, events, sid)[j].None?
    ensures LastTouch(st, events, i, sid) && events[i].Progress? && Uses(st, events, sid)[i] == Some(events[i].choice.now)
  {
    forall j | i <= j < |events|
      ensures TouchedAt(st, events, j, sid) <==> Uses(st, events, sid)[j].Some?
    {
      assert Uses(st, events, sid)[j] == UseAt(st, events, j, sid);
    }
  }

  /** In every run from the start, `lastUsed` of a session is the time of the last event that made it or that began or ended its
      latest turn; the end of a turn that was taken over does not count. */
  lemma LastUsedIsLastTouch(maxLive: nat, events: seq<Event>, sid: nat) returns (i: nat)
    requires sid in AfterStart(maxLive, events).sessions
    ensures Sound(Init(maxLive)) && LastTouch(Init(maxLive), events, i, sid)
    ensures AfterStart(maxLive, events).sessions[sid].lastUsed == events[i].choice.now
  {
    InitIsSound(maxLive);
    var st := Init(maxLive);
    UsedOverRuns(st, events, sid);
    i := LatestIsLast(None, Uses(st, events, sid));
    UsesTouch(st, events, i, sid);
  }

  /** So when a process is evicted, no other idle one belongs to a chat whose latest turn began or ended earlier. */
  lemma EvictionFollowsUse(maxLive: nat, events: seq<Event>, t: nat, c: Choice, victim: nat, other: nat)
    returns (i: nat, j: nat)
    requires var st := AfterStart(maxLive, events);
             && Enabled(st, t) && st.tasks[t].Inside? && st.tasks[t].work.Room? && st.tasks[t].sid in st.sessions
             && victim in st.sessions && st.sessions[victim].slot.Some? && Typed(st)
             && victim in Advance(st, t, c).sessions && Advance(st, t, c).sessions[victim].slot.None?
             && Evictable(st, st.tasks[t].sid, other)
    ensures Sound(Init(maxLive)) && LastTouch(Init(maxLive), events, i, victim) && LastTouch(Init(maxLive), events, j, other)
    ensures events[i].choice.now <= events[j].choice.now
  {
    var st := AfterStart(maxLive, events);
    InitIsSound(maxLive);
    OnlyIdleProcessesAreTaken(st, t, c, victim);
    i := LastUsedIsLastTouch(maxLive, events, victim);
    j := LastUsedIsLastTouch(maxLive, events, other);
  }
}
