/** The bound on running processes: the scan of `make_room`, the eviction, and what they keep over all steps. */
module Occupancy {
  import opened Lifecycle
  import opened LifecycleInvariant
  import opened Wrappers

  // ---- The scan

  datatype Scan = Admits | Evicts(victim: nat) | Refuses

  /** One pass over the sessions in the map, in any order, counting the running ones and remembering the idle one that was
      used least recently. `all` is a snapshot of the map's sessions. */
  method ScanForRoom(st: State, own: nat, all: seq<nat>) returns (scan: Scan)
    requires own in st.sessions
    requires forall i, j :: 0 <= i < j < |all| ==> all[i] != all[j]
    requires forall sid: nat :: sid in all <==> IsCurrent(st, sid)
    ensures scan.Admits? <==> |Counted(st, own)| < st.maxLive
    ensures scan.Evicts? ==> LeastRecentlyUsed(st, own, scan.victim)
    ensures scan.Refuses? ==> forall sid: nat :: !Evictable(st, own, sid)
  {
    var live := 0;
    var candidate: Option<nat> := None;
    for i := 0 to |all|
      invariant live == Tally(st, own, all[..i])
      invariant BestOf(st, own, all[..i], candidate)
    {
      var sid := all[i];
      assert DropLast(all[..i + 1]) == all[..i] && all[..i + 1] == all[..i] + [sid];
      assert IsCurrent(st, sid);
      ghost var before := candidate;
      if st.sessions[sid].key != st.sessions[own].key {
        if !Free(st, SessionLock(sid)) {
          live := live + 1;
        } else if Live(st, sid) {
          live := live + 1;
          if !st.sessions[sid].busy
             && (candidate.None? || st.sessions[sid].lastUsed < st.sessions[candidate.value].lastUsed) {
            candidate := Some(sid);
          }
        }
      }
      BestOfGrows(st, own, all[..i], before, sid, candidate);
    }
    assert all[..|all|] == all;
    AllTallied(st, own, all);
    if live < st.maxLive {
      return Admits;
    }
    if candidate.None? {
      return Refuses;
    }
    return Evicts(candidate.value);
  }

  function Tally(st: State, own: nat, seen: seq<nat>): nat
    requires own in st.sessions
  {
    if seen == [] then 0
    else Tally(st, own, DropLast(seen)) + (if Counts(st, own, Last(seen)) then 1 else 0)
  }

  /** The sessions that were counted. */
  function Tallied(st: State, own: nat, seen: seq<nat>): set<nat>
    requires own in st.sessions
  {
    if seen == [] then {}
    else Tallied(st, own, DropLast(seen)) + (if Counts(st, own, Last(seen)) then {Last(seen)} else {})
  }

  lemma {:induction false} TalliedMembers(st: State, own: nat, seen: seq<nat>, sid: nat)
    requires own in st.sessions
    ensures sid in Tallied(st, own, seen) <==> sid in seen && Counts(st, own, sid)
  {
    if seen != [] {
      TalliedMembers(st, own, DropLast(seen), sid);
      assert seen == DropLast(seen) + [Last(seen)];
    }
  }

  lemma {:induction false} TallyIsCounted(st: State, own: nat, seen: seq<nat>)
    requires own in st.sessions
    requires forall i, j :: 0 <= i < j < |seen| ==> seen[i] != seen[j]
    ensures Tally(st, own, seen) == |Tallied(st, own, seen)|
  {
    if seen != [] {
      TallyIsCounted(st, own, DropLast(seen));
      TalliedMembers(st, own, DropLast(seen), Last(seen));
    }
  }

  /** A pass over all sessions in the map counts those that count. */
  lemma AllTallied(st: State, own: nat, all: seq<nat>)
    requires own in st.sessions
    requires forall i, j :: 0 <= i < j < |all| ==> all[i] != all[j]
    requires forall sid: nat :: sid in all <==> IsCurrent(st, sid)
    ensures Tally(st, own, all) == |Counted(st, own)|
  {
    TallyIsCounted(st, own, all);
    forall sid: nat
      ensures sid in Tallied(st, own, all) <==> sid in Counted(st, own)
    {
      TalliedMembers(st, own, all, sid);
    }
    assert Tallied(st, own, all) == Counted(st, own);
  }

  /** The candidate is the least recently used evictable session among those seen, if there is one. */
  ghost predicate BestOf(st: State, own: nat, seen: seq<nat>, candidate: Option<nat>)
    requires own in st.sessions
  {
    && (candidate.Some? ==> candidate.value in st.sessions && Evictable(st, own, candidate.value))
    && forall sid: nat :: sid in seen && Evictable(st, own, sid) ==>
         candidate.Some? && st.sessions[candidate.value].lastUsed <= st.sessions[sid].lastUsed
  }

  lemma BestOfGrows(
    st: State, own: nat, seen: seq<nat>, before: Option<nat>, sid: nat, after: Option<nat>)
    requires own in st.sessions && BestOf(st, own, seen, before)
    requires if Evictable(st, own, sid)
                && (before.None? || st.sessions[sid].lastUsed < st.sessions[before.value].lastUsed)
             then after == Some(sid) else after == before
    ensures BestOf(st, own, seen + [sid], after)
  {
  }

  /** The step of the lifecycle does what the scan decides. */
  lemma ScanDecidesTheStep(st: State, t: nat, own: nat, scan: Scan, c: Choice)
    requires Structure(st) && t in st.tasks && st.tasks[t] == Inside(own, Room)
    requires scan.Admits? <==> |Counted(st, own)| < st.maxLive
    requires scan.Evicts? ==> scan.victim == c.victim && LeastRecentlyUsed(st, own, scan.victim)
    requires scan.Refuses? ==> forall sid: nat :: !Evictable(st, own, sid)
    ensures var st' := MakeRoom(st, t, own, c);
            match scan
            case Admits => st'.sessions == st.sessions && st'.tasks[t] == Inside(own, Spawn)
            case Evicts(victim) =>
              && st'.tasks[t] == Inside(own, Spawn)
              && st.sessions[victim].slot.Some? && st'.sessions[victim].slot.None?
              && !st.sessions[victim].busy && Free(st, SessionLock(victim))
              && forall sid :: sid in st.sessions && sid != victim ==> st'.sessions[sid] == st.sessions[sid]
            case Refuses => st'.sessions == st.sessions && t !in st'.tasks
  {
  }

  // ---- The bound

  ghost predicate IsAdmitted(st: State, sid: nat) {
    exists t :: t in st.tasks && st.tasks[t] == Inside(sid, Spawn)
  }

  /** The sessions that own a live process or were admitted to start one. */
  ghost function Occupied(st: State): set<nat> {
    set sid | sid in st.sessions && (Live(st, sid) || IsAdmitted(st, sid))
  }

  ghost predicate WithinLimit(st: State) {
    |Occupied(st)| <= st.maxLive
  }

  lemma SubsetIsNoLarger(a: set<nat>, b: set<nat>)
    requires a <= b
    ensures |a| <= |b|
  {
    if a != {} {
      var x :| x in a;
      SubsetIsNoLarger(a - {x}, b - {x});
    }
  }

  /** Whoever occupies a place is counted by a scan for another chat. */
  lemma OccupantsAreCounted(st: State, t: nat, own: nat)
    requires Structure(st) && t in st.tasks && st.tasks[t] == Inside(own, Room)
    ensures Occupied(st) <= Counted(st, own)
    ensures own !in Counted(st, own)
  {
    assert Relies(st, st.tasks[t]) && IsCurrent(st, own);
    forall sid | sid in Occupied(st)
      ensures sid in Counted(st, own)
    {
      if !Live(st, sid) {
        var u :| u in st.tasks && st.tasks[u] == Inside(sid, Spawn);
        assert Relies(st, st.tasks[u]) && Holds(st.tasks[u], SessionLock(sid));
        assert !Clash(st.tasks[t], st.tasks[u]);
      }
      assert IsCurrent(st, sid);
    }
  }

  lemma MakeRoomKeepsLimit(st: State, t: nat, own: nat, c: Choice)
    requires Structure(st) && WithinLimit(st) && t in st.tasks && st.tasks[t] == Inside(own, Room)
    ensures WithinLimit(MakeRoom(st, t, own, c))
  {
    var st' := MakeRoom(st, t, own, c);
    OccupantsAreCounted(st, t, own);
    if |Counted(st, own)| < st.maxLive {
      OthersStayAdmitted(st, t, own, st');
      SubsetIsNoLarger(Occupied(st'), Counted(st, own) + {own});
    } else if LeastRecentlyUsed(st, own, c.victim) {
      OthersStayAdmitted(st, t, own, st');
      assert c.victim in Occupied(st) && c.victim !in Occupied(st') by {
        assert !Live(st', c.victim);
        VictimIsNotAdmitted(st, t, own, c.victim, st');
      }
      SubsetIsNoLarger(Occupied(st'), Occupied(st) - {c.victim} + {own});
    } else {
      assert Occupied(st') <= Occupied(st);
      SubsetIsNoLarger(Occupied(st'), Occupied(st));
    }
  }

  lemma OthersStayAdmitted(st: State, t: nat, own: nat, st': State)
    requires t in st.tasks && st'.tasks == st.tasks[t := Inside(own, Spawn)]
    ensures forall sid: nat :: sid != own && IsAdmitted(st', sid) ==> IsAdmitted(st, sid)
  {
  }

  lemma VictimIsNotAdmitted(st: State, t: nat, own: nat, victim: nat, st': State)
    requires own in st.sessions && Evictable(st, own, victim) && t in st.tasks
    requires st'.tasks == st.tasks[t := Inside(own, Spawn)]
    ensures !IsAdmitted(st', victim)
  {
    OthersStayAdmitted(st, t, own, st');
    assert forall u :: u in st.tasks ==> !Holds(st.tasks[u], SessionLock(victim));
  }

  /** A step that starts no process and admits nobody. */
  ghost predicate AddsNobody(st: State, st': State) {
    && st'.maxLive == st.maxLive
    && st'.alive <= st.alive
    && (forall sid :: sid in st'.sessions && st'.sessions[sid].slot.Some? ==>
          sid in st.sessions && st'.sessions[sid].slot == st.sessions[sid].slot)
    && (forall u :: u in st'.tasks && st'.tasks[u].Inside? && st'.tasks[u].work.Spawn? ==>
          u in st.tasks && st'.tasks[u] == st.tasks[u])
  }

  lemma NobodyAddedKeepsLimit(st: State, st': State)
    requires WithinLimit(st) && AddsNobody(st, st')
    requires st.sessions.Keys <= st'.sessions.Keys
    requires forall u :: u in st.tasks && st.tasks[u].Inside? ==> st.tasks[u].sid in st.sessions
    ensures WithinLimit(st')
  {
    SubsetIsNoLarger(Occupied(st'), Occupied(st));
  }

  lemma SpawnKeepsLimit(st: State, t: nat, sid: nat, c: Choice)
    requires Structure(st) && WithinLimit(st) && t in st.tasks && st.tasks[t] == Inside(sid, Spawn)
    ensures WithinLimit(SpawnProcess(st, t, sid, c))
  {
    var st' := SpawnProcess(st, t, sid, c);
    assert IsAdmitted(st, sid);
    forall other: nat | other in Occupied(st')
      ensures other in Occupied(st)
    {
      if IsAdmitted(st', other) {
        var u :| u in st'.tasks && st'.tasks[u] == Inside(other, Spawn);
        assert u in st.tasks && st.tasks[u] == Inside(other, Spawn);
      }
    }
    SubsetIsNoLarger(Occupied(st'), Occupied(st));
  }

  lemma EnterKeepsLimit(st: State, t: nat, sid: nat, c: Choice)
    requires Structure(st) && WithinLimit(st) && t in st.tasks && st.tasks[t] == Waiting(sid, Enter)
    requires !st.sessions[sid].removed
    ensures WithinLimit(EnterTurn(st, t, sid, c))
  {
    SupersedeKeepsLimit(st, sid, c.ok);
    ProceedKeepsLimit(Supersede(st, sid, c.ok), t, sid);
  }

  lemma SupersedeKeepsLimit(st: State, sid: nat, stopped: bool)
    requires Typed(st) && WithinLimit(st) && sid in st.sessions
    ensures var calm := Supersede(st, sid, stopped);
            WithinLimit(calm) && calm.tasks == st.tasks && calm.sessions.Keys == st.sessions.Keys
  {
    NobodyAddedKeepsLimit(st, Supersede(st, sid, stopped));
  }

  lemma ProceedKeepsLimit(st: State, t: nat, sid: nat)
    requires WithinLimit(st) && t in st.tasks && !st.tasks[t].Inside? && sid in st.sessions
    requires forall u :: u in st.tasks && st.tasks[u].Inside? ==> st.tasks[u].sid in st.sessions
    ensures WithinLimit(Proceed(st, t, sid))
  {
    NobodyAddedKeepsLimit(st, Proceed(st, t, sid));
  }

  lemma ArriveKeepsLimit(st: State, t: nat, sid: nat, visit: Visit, c: Choice)
    requires Structure(st) && WithinLimit(st) && t in st.tasks && st.tasks[t] == Waiting(sid, visit)
    ensures WithinLimit(Arrive(st, t, sid, visit, c))
  {
    if visit == Enter && !st.sessions[sid].removed {
      EnterKeepsLimit(st, t, sid, c);
    } else {
      NobodyAddedKeepsLimit(st, Arrive(st, t, sid, visit, c));
    }
  }

  lemma TryKeepsLimit(st: State, t: nat, sid: nat, chore: Chore, c: Choice)
    requires Structure(st) && WithinLimit(st) && t in st.tasks && st.tasks[t] == Trying(sid, chore)
    ensures WithinLimit(Try(st, t, sid, chore, c))
  {
    NobodyAddedKeepsLimit(st, Try(st, t, sid, chore, c));
  }

  lemma LookKeepsLimit(st: State, t: nat, key: Key, goal: Goal, c: Choice)
    requires Structure(st) && WithinLimit(st) && t in st.tasks && st.tasks[t] == Looking(key, goal)
    ensures WithinLimit(Look(st, t, key, goal, c))
  {
    NobodyAddedKeepsLimit(st, Look(st, t, key, goal, c));
  }

  lemma EndKeepsLimit(st: State, t: nat, turn: Turn, c: Choice)
    requires Structure(st) && WithinLimit(st) && t in st.tasks && st.tasks[t] == Running(turn, true)
    ensures WithinLimit(EndTurn(st, t, turn, c))
  {
    NobodyAddedKeepsLimit(st, EndTurn(st, t, turn, c));
  }

  lemma PerformKeepsLimit(st: State, t: nat, sid: nat, work: Work, c: Choice)
    requires Structure(st) && WithinLimit(st) && t in st.tasks && st.tasks[t] == Inside(sid, work)
    ensures WithinLimit(Perform(st, t, sid, work, c))
  {
    if work.Room? {
      MakeRoomKeepsLimit(st, t, sid, c);
    } else if work.Spawn? {
      SpawnKeepsLimit(st, t, sid, c);
    } else if work.Ask? {
      NobodyAddedKeepsLimit(st, Prompt(st, t, sid, work.proc, c));
    } else {
      OtherWorkKeepsLimit(st, t, sid, work, c);
    }
  }

  lemma OtherWorkKeepsLimit(st: State, t: nat, sid: nat, work: Work, c: Choice)
    requires Structure(st) && WithinLimit(st) && t in st.tasks && st.tasks[t] == Inside(sid, work)
    requires !work.Room? && !work.Spawn? && !work.Ask?
    ensures WithinLimit(Perform(st, t, sid, work, c))
  {
    if work.Sync? {
      NobodyAddedKeepsLimit(st, SyncAndRelease(st, t, sid, work.turn.proc, c));
    } else if work.Check? {
      NobodyAddedKeepsLimit(st, Perform(st, t, sid, Check, c));
    } else {
      MovingOnKeepsLimit(st, t, sid, work, c);
    }
  }

  lemma MovingOnKeepsLimit(st: State, t: nat, sid: nat, work: Work, c: Choice)
    requires Structure(st) && WithinLimit(st) && t in st.tasks && st.tasks[t] == Inside(sid, work)
    requires work.Unindex? || work.Unsave? || work.Unlist? || work.Stopping?
    ensures WithinLimit(Perform(st, t, sid, work, c))
  {
    NobodyAddedKeepsLimit(st, Perform(st, t, sid, work, c));
  }

  /** Only an admission makes a session occupy a place it did not occupy before, so the limit holds after every step. */
  lemma AdvanceKeepsLimit(st: State, t: nat, c: Choice)
    requires Structure(st) && WithinLimit(st) && Enabled(st, t)
    ensures WithinLimit(Advance(st, t, c))
  {
    match st.tasks[t]
    case Looking(key, goal) => LookKeepsLimit(st, t, key, goal, c);
    case Loading(key, again) => NobodyAddedKeepsLimit(st, Advance(st, t, c));
    case Waiting(sid, visit) => ArriveKeepsLimit(st, t, sid, visit, c);
    case Trying(sid, chore) => TryKeepsLimit(st, t, sid, chore, c);
    case Inside(sid, work) => PerformKeepsLimit(st, t, sid, work, c);
    case Running(turn, ending) =>
      if ending {
        EndKeepsLimit(st, t, turn, c);
      } else {
        NobodyAddedKeepsLimit(st, Advance(st, t, c));
      }
    case Saving(_) => NobodyAddedKeepsLimit(st, Advance(st, t, c));
  }
}
