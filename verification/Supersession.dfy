/** Turns of one chat that overlap: a newer turn takes the session over, and what an older one still does is harmless. */
module Supersession {
  import opened Lifecycle
  import opened LifecycleInvariant
  import opened Wrappers

  /** The outstanding turn a task drives: it has begun and its `end_turn` has not run yet. */
  function TurnAt(st: State, t: nat): Option<Turn> {
    if t in st.tasks && st.tasks[t].Running? then Some(st.tasks[t].turn) else None
  }

  /** The outstanding turn of `t` is the latest one of the session. */
  predicate Current(st: State, t: nat, sid: nat) {
    && sid in st.sessions
    && TurnAt(st, t).Some?
    && TurnAt(st, t).value.sid == sid
    && TurnAt(st, t).value.generation == st.sessions[sid].generation
  }

  /** A turn is the latest one of its session or it has been cancelled. */
  ghost predicate TurnFits(st: State, turn: Turn) {
    && turn.sid in st.sessions
    && var s := st.sessions[turn.sid];
       && turn.generation <= s.generation
       && (turn.generation < s.generation ==> turn.token in st.cancelled)
       && (turn.generation == s.generation ==> s.busy && turn.token == s.token)
  }

  ghost predicate SessionFits(st: State, sid: nat)
    requires sid in st.sessions
  {
    var s := st.sessions[sid];
    && s.token < st.nextToken
    && (s.busy ==> exists t: nat :: Current(st, t, sid))
    && (s.busy ==> (s.token in st.cancelled <==> s.removed))
  }

  ghost predicate Turns(st: State) {
    && (forall t: nat :: TurnAt(st, t).Some? ==> TurnFits(st, TurnAt(st, t).value))
    && (forall t: nat, u: nat :: t != u && TurnAt(st, t).Some? && TurnAt(st, u).Some? ==>
          !(TurnAt(st, t).value.sid == TurnAt(st, u).value.sid
            && TurnAt(st, t).value.generation == TurnAt(st, u).value.generation))
    && (forall sid :: sid in st.sessions ==> SessionFits(st, sid))
    && (forall sid, other :: sid in st.sessions && other in st.sessions && sid != other ==>
          st.sessions[sid].token != st.sessions[other].token)
    && (forall token :: token in st.cancelled ==> token < st.nextToken)
  }

  // ---- Every step keeps this

  /** What `Turns` looks at in a session. */
  function Face(s: Session): (bool, bool, nat, nat) {
    (s.removed, s.busy, s.generation, s.token)
  }

  lemma UntouchedKeepsTurns(st: State, st': State)
    requires Turns(st)
    requires st'.sessions.Keys == st.sessions.Keys
    requires forall sid :: sid in st.sessions ==> Face(st'.sessions[sid]) == Face(st.sessions[sid])
    requires forall t: nat :: TurnAt(st', t) == TurnAt(st, t)
    requires st'.cancelled == st.cancelled && st'.nextToken == st.nextToken
    ensures Turns(st')
  {
    forall sid | sid in st'.sessions
      ensures SessionFits(st', sid)
    {
      assert SessionFits(st, sid);
      if st.sessions[sid].busy {
        var t: nat :| Current(st, t, sid);
        assert Current(st', t, sid);
      }
    }
  }

  /** A step that moves a task that drives no turn, and at most fills or empties the slot of one session. */
  lemma SlotKeepsTurns(st: State, t: nat, sid: nat, st': State)
    requires Turns(st) && t in st.tasks && sid in st.sessions && sid in st'.sessions
    requires st'.tasks == Moved(st, t, TaskAfter(st', t)) && TurnAt(st, t) == TurnAt(st', t)
    requires st'.sessions == st.sessions[sid := st'.sessions[sid]]
    requires Face(st'.sessions[sid]) == Face(st.sessions[sid])
    requires st'.cancelled == st.cancelled && st'.nextToken == st.nextToken
    ensures Turns(st')
  {
    UntouchedKeepsTurns(st, st');
  }

  lemma AddKeepsTurns(st: State, key: Key, placeholder: bool, now: nat)
    requires Turns(st) && Typed(st)
    ensures Turns(AddSession(st, key, placeholder, now))
  {
    var st' := AddSession(st, key, placeholder, now);
    forall sid | sid in st'.sessions
      ensures SessionFits(st', sid)
    {
      if sid != st.nextSession {
        assert SessionFits(st, sid);
        if st.sessions[sid].busy {
          var t: nat :| Current(st, t, sid);
          assert Current(st', t, sid);
        }
      }
    }
    forall sid | sid in st.sessions
      ensures st.sessions[sid].token != st.nextToken && sid != st.nextSession
    {
      assert SessionFits(st, sid);
    }
    assert forall t: nat :: TurnAt(st', t) == TurnAt(st, t);
    assert forall t: nat :: TurnAt(st, t).Some? ==> TurnFits(st, TurnAt(st, t).value);
  }

  lemma SupersedeKeepsTurns(st: State, sid: nat, stopped: bool)
    requires Turns(st) && sid in st.sessions && !st.sessions[sid].removed
    ensures Turns(Supersede(st, sid, stopped))
  {
    var st' := Supersede(st, sid, stopped);
    assert forall t: nat :: TurnAt(st', t) == TurnAt(st, t);
    forall other | other in st'.sessions
      ensures SessionFits(st', other)
    {
      assert SessionFits(st, other) && SessionFits(st, sid);
      if other != sid && st.sessions[other].busy {
        var t: nat :| Current(st, t, other);
        assert Current(st', t, other);
      }
    }
  }

  lemma PromptKeepsTurns(st: State, t: nat, sid: nat, proc: nat, c: Choice)
    requires Turns(st) && sid in st.sessions && !st.sessions[sid].busy && !st.sessions[sid].removed
    requires t in st.tasks && !st.tasks[t].Running? && c.ok
    ensures Turns(Prompt(st, t, sid, proc, c))
  {
    var st' := Prompt(st, t, sid, proc, c);
    assert forall u: nat :: u != t ==> TurnAt(st', u) == TurnAt(st, u);
    assert Current(st', t, sid);
    assert SessionFits(st, sid);
    forall other | other in st'.sessions
      ensures SessionFits(st', other) && (other != sid ==> st'.sessions[other].token != st.nextToken)
    {
      assert SessionFits(st, other);
      if other != sid && st.sessions[other].busy {
        var u: nat :| Current(st, u, other);
        assert Current(st', u, other);
      }
    }
  }

  lemma EndKeepsTurns(st: State, t: nat, turn: Turn, c: Choice)
    requires Turns(st) && t in st.tasks && st.tasks[t] == Running(turn, true) && turn.sid in st.sessions
    ensures Turns(EndTurn(st, t, turn, c))
  {
    var st' := EndTurn(st, t, turn, c);
    assert TurnAt(st, t) == Some(turn) && TurnAt(st', t) == None;
    assert forall u: nat :: u != t ==> TurnAt(st', u) == TurnAt(st, u);
    forall other | other in st'.sessions
      ensures SessionFits(st', other)
    {
      assert SessionFits(st, other);
      if st'.sessions[other].busy {
        var u: nat :| Current(st, u, other);
        assert Current(st', u, other);
      }
    }
  }

  lemma DeleteKeepsTurns(st: State, sid: nat)
    requires Turns(st) && sid in st.sessions
    ensures Turns(Delete(st, sid))
  {
    var st' := Delete(st, sid);
    assert forall u: nat :: TurnAt(st', u) == TurnAt(st, u);
    forall other | other in st'.sessions
      ensures SessionFits(st', other)
    {
      assert SessionFits(st, other) && SessionFits(st, sid);
      if st.sessions[other].busy {
        var u: nat :| Current(st, u, other);
        assert Current(st', u, other);
      }
    }
  }

  lemma ProceedKeepsTurns(st: State, t: nat, sid: nat)
    requires Turns(st) && t in st.tasks && TurnAt(st, t) == None && sid in st.sessions
    ensures Turns(Proceed(st, t, sid))
  {
    SlotKeepsTurns(st, t, sid, Proceed(st, t, sid));
  }

  lemma ArriveKeepsTurns(st: State, t: nat, sid: nat, visit: Visit, c: Choice)
    requires Structure(st) && Turns(st) && t in st.tasks && st.tasks[t] == Waiting(sid, visit)
    ensures Turns(Arrive(st, t, sid, visit, c))
  {
    var st' := Arrive(st, t, sid, visit, c);
    if visit == Enter && !st.sessions[sid].removed {
      var stopped := Supersede(st, sid, c.ok);
      SupersedeKeepsTurns(st, sid, c.ok);
      ProceedKeepsTurns(stopped, t, sid);
    } else {
      SlotKeepsTurns(st, t, sid, st');
    }
  }

  lemma TryKeepsTurns(st: State, t: nat, sid: nat, chore: Chore, c: Choice)
    requires Structure(st) && Turns(st) && t in st.tasks && st.tasks[t] == Trying(sid, chore)
    ensures Turns(Try(st, t, sid, chore, c))
  {
    var st' := Try(st, t, sid, chore, c);
    if t in st'.tasks && chore == RemoveExpired {
      DeleteKeepsTurns(st, sid);
      SlotKeepsTurns(Delete(st, sid), t, sid, st');
    } else {
      SlotKeepsTurns(st, t, sid, st');
    }
  }

  lemma PerformKeepsTurns(st: State, t: nat, sid: nat, work: Work, c: Choice)
    requires Structure(st) && Turns(st) && t in st.tasks && st.tasks[t] == Inside(sid, work)
    ensures Turns(Perform(st, t, sid, work, c))
  {
    var st' := Perform(st, t, sid, work, c);
    assert Relies(st, st.tasks[t]);
    if work.Ask? && c.ok {
      PromptKeepsTurns(st, t, sid, work.proc, c);
    } else if work.Check? && IsCurrent(st, sid) {
      DeleteKeepsTurns(st, sid);
      SlotKeepsTurns(Delete(st, sid), t, sid, st');
    } else if work.Room? {
      MakeRoomKeepsTurns(st, t, sid, c);
    } else {
      SlotKeepsTurns(st, t, sid, st');
    }
  }

  lemma MakeRoomKeepsTurns(st: State, t: nat, sid: nat, c: Choice)
    requires Structure(st) && Turns(st) && t in st.tasks && st.tasks[t] == Inside(sid, Room)
    ensures Turns(MakeRoom(st, t, sid, c))
  {
    var st' := MakeRoom(st, t, sid, c);
    if |Counted(st, sid)| >= st.maxLive && LeastRecentlyUsed(st, sid, c.victim) {
      SlotKeepsTurns(st, t, c.victim, st');
    } else {
      SlotKeepsTurns(st, t, sid, st');
    }
  }

  lemma LookKeepsTurns(st: State, t: nat, key: Key, goal: Goal, c: Choice)
    requires Structure(st) && Turns(st) && t in st.tasks && st.tasks[t] == Looking(key, goal)
    ensures Turns(Look(st, t, key, goal, c))
  {
    if goal == ToRemove && key !in st.table {
      AddKeepsTurns(st, key, true, c.now);
      UntouchedKeepsTurns(AddSession(st, key, true, c.now), Look(st, t, key, goal, c));
    } else {
      UntouchedKeepsTurns(st, Look(st, t, key, goal, c));
    }
  }

  lemma AdvanceKeepsTurns(st: State, t: nat, c: Choice)
    requires Structure(st) && Turns(st) && Enabled(st, t)
    ensures Turns(Advance(st, t, c))
  {
    match st.tasks[t]
    case Looking(key, goal) => LookKeepsTurns(st, t, key, goal, c);
    case Loading(key, again) =>
      AddKeepsTurns(st, key, false, c.now);
      UntouchedKeepsTurns(AddSession(st, key, false, c.now), Advance(st, t, c));
    case Waiting(sid, visit) => ArriveKeepsTurns(st, t, sid, visit, c);
    case Trying(sid, chore) => TryKeepsTurns(st, t, sid, chore, c);
    case Inside(sid, work) => PerformKeepsTurns(st, t, sid, work, c);
    case Running(turn, ending) =>
      if ending {
        EndKeepsTurns(st, t, turn, c);
      } else {
        UntouchedKeepsTurns(st, Advance(st, t, c));
      }
    case Saving(_) => UntouchedKeepsTurns(st, Advance(st, t, c));
  }

  // ---- What it means

  /** The outstanding turn of `t` is one of this session, the latest or an older one. */
  predicate DrivesTurnOf(st: State, t: nat, sid: nat) {
    TurnAt(st, t).Some? && TurnAt(st, t).value.sid == sid
  }

  /** The supersession protocol: the outstanding turns of a session have distinct generations; the session is busy exactly
      when one of them is the latest; and a turn is cancelled exactly when a newer one took over or its chat was deleted. */
  lemma SupersessionProtocol(st: State, sid: nat)
    requires Turns(st) && sid in st.sessions
    ensures st.sessions[sid].busy <==> exists t: nat :: Current(st, t, sid)
    ensures forall t: nat, u: nat :: t != u && DrivesTurnOf(st, t, sid) && DrivesTurnOf(st, u, sid) ==>
              TurnAt(st, t).value.generation != TurnAt(st, u).value.generation
    ensures forall t: nat, u: nat :: Current(st, t, sid) && Current(st, u, sid) ==> t == u
    ensures forall t: nat :: DrivesTurnOf(st, t, sid) ==>
              (TurnAt(st, t).value.token in st.cancelled <==> !Current(st, t, sid) || st.sessions[sid].removed)
  {
    assert SessionFits(st, sid);
    forall t: nat | DrivesTurnOf(st, t, sid)
      ensures TurnAt(st, t).value.token in st.cancelled <==> !Current(st, t, sid) || st.sessions[sid].removed
    {
      assert TurnFits(st, TurnAt(st, t).value);
    }
  }

  /** The guard of `end_turn`: ending a turn that a newer one took over changes nothing but its own task. What the end of the
      latest turn can reach is the subject of module Ownership. */
  lemma OlderEndIsSilent(st: State, t: nat, turn: Turn, c: Choice)
    requires Structure(st) && Enabled(st, t) && st.tasks[t] == Running(turn, true)
    ensures !Current(st, t, turn.sid) ==> Advance(st, t, c) == st.(tasks := st.tasks - {t})
    ensures Current(st, t, turn.sid) ==>
              && Advance(st, t, c).alive == st.alive
              && !Advance(st, t, c).sessions[turn.sid].busy
              && forall sid :: sid in st.sessions && sid != turn.sid ==> Advance(st, t, c).sessions[sid] == st.sessions[sid]
  {
    assert TurnAt(st, t) == Some(turn);
  }
}
