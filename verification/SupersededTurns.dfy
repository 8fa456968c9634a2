/** Exactly when a request that takes over a running turn leaves the two records in agreement. The turn it takes over is
    never reconciled; if omp lost its prompt, the record is one message ahead while the new request is carried out. */
module SupersededTurns {
  import opened Agreement
  import opened AgreementLimits
  import opened Conversation
  import opened History
  import opened Omp
  import opened Wrappers

  /** A chat whose record ends with a prompt that omp acknowledged and lost, in a turn that is over. */
  ghost predicate Ahead(chat: Chat) {
    && OnDisk(chat)
    && RootedChat(chat)
    && !chat.busy
    && chat.omp.Some?
    && DistinctIds(chat.omp.value.entries)
    && LacksLast(chat.omp.value.entries, chat.forwarded)
  }

  /** Branching before the lost turn finds what omp holds; the lost turn itself is not found, so the chat starts over. Only a
      follow-up prompts omp without repairing the record. */
  lemma AheadPrepares(chat: Chat, turns: seq<UserTurn>, rebuilt: string, fate: BeginFate)
    requires Ahead(chat) && turns != []
    ensures var prepared := Prepare(chat, turns, rebuilt, fate);
            if prepared.GivenUp? then prepared.synced == chat.forwarded
            else if PlanFor(chat.forwarded, turns).Prompt? then prepared.forwarded == chat.forwarded == prepared.synced
            else
              && Agrees(prepared.forwarded, prepared.agent.entries)
              && Agrees(prepared.synced, prepared.agent.entries)
              && prepared.agent.file == |chat.disk|
    ensures EntryOf(chat.forwarded, |chat.forwarded| - 1, chat.omp.value.entries).None?
  {
    LostTurnIsNotFound(chat);
    AheadStartsOver(chat, turns, rebuilt, fate);
    match PlanFor(chat.forwarded, turns)
    case Prompt =>
    case Rebuild =>
    case BranchAt(index) =>
      AheadBranches(chat, index);
      var found := EntryOf(chat.forwarded, index, chat.omp.value.entries);
      if found.None? {
        assert !fate.fetch.Failed? ==> Prepare(chat, turns, rebuilt, fate) == StartOver(chat, turns, rebuilt, fate);
      }
  }

  lemma LostTurnIsNotFound(chat: Chat)
    requires Ahead(chat)
    ensures EntryOf(chat.forwarded, |chat.forwarded| - 1, chat.omp.value.entries).None?
  {
    var known := chat.forwarded;
    assert DropLast(known) + [Last(known)] == known && known[..|known|] == known;
    SentPush(DropLast(known), Last(known));
    TooManyTexts(known, |known| - 1, chat.omp.value.entries);
  }

  lemma AheadStartsOver(chat: Chat, turns: seq<UserTurn>, rebuilt: string, fate: BeginFate)
    requires Ahead(chat) && turns != []
    ensures var prepared := StartOver(chat, turns, rebuilt, fate);
            if prepared.GivenUp? then prepared.synced == chat.forwarded
            else
              && Agrees(prepared.forwarded, prepared.agent.entries)
              && Agrees(prepared.synced, prepared.agent.entries)
              && prepared.agent.file == |chat.disk|
  {
    SentOfPlaceholders(Placeholders(DropLast(turns)));
  }

  lemma AheadBranches(chat: Chat, index: nat)
    requires Ahead(chat) && index < |chat.forwarded|
    ensures var agent := chat.omp.value;
            var found := EntryOf(chat.forwarded, index, agent.entries);
            found.Some? ==> Agrees(chat.forwarded[..index], Branch(agent, chat.disk, found.value).0.entries)
  {
    var known, agent := chat.forwarded, chat.omp.value;
    var kept := DropLast(known);
    assert kept + [Last(known)] == known;
    SentPush(kept, Last(known));
    if index == |known| - 1 {
      assert known[..index + 1] == known;
      TooManyTexts(known, index, agent.entries);
    } else if Branchable(known, index) {
      assert known[..index + 1] == kept[..index + 1];
      SentPrefix(kept, index + 1);
      PrefixRank(known, index, agent.entries);
      BranchKeepsRank(agent, chat.disk, |Sent(known[..index])|);
    }
  }

  /** Follow-up after a lost prompt: the record stays ahead, unless omp then holds nothing at all and the record is cleared. */
  lemma FollowUpAgreesExactly(known: seq<ForwardedTurn>, turn: ForwardedTurn, before: seq<Entry>, kept: Option<Entry>)
    requires LacksLast(before, known) && turn.sentText.Some?
    requires kept.Some? ==> kept.value.text == turn.sentText.value
    ensures var stored := before + (if kept.Some? then [kept.value] else []);
            Agrees(Reconcile(known + [turn], stored), stored) <==> kept.None? && before == []
  {
    var stored := before + (if kept.Some? then [kept.value] else []);
    assert DropLast(known) + [Last(known)] == known && DropLast(known + [turn]) == known;
    SentPush(DropLast(known), Last(known));
    SentPush(known, turn);
    assert kept.None? ==> stored == before;
    assert |Texts(stored)| == |stored| && |Sent(known)| == |before| + 1;
  }

  /** A turn that takes over and then ends undisturbed leaves agreement exactly as any other turn does, except as a follow-up
      to a lost prompt: then only if omp loses this prompt as well and holds nothing. */
  lemma SupersedingTurnAgreesExactly(chat: Chat, turns: seq<UserTurn>, rebuilt: string, fate: BeginFate, aborted: bool)
    requires InStep(chat) && chat.busy && turns != [] && (fate.stopped || FileIsCurrent(chat))
    requires BeginTurn(chat, turns, rebuilt, fate).1.Started?
    ensures var (begun, outcome) := BeginTurn(chat, turns, rebuilt, fate);
            var ended := EndTurn(begun, begun.generation, aborted, ENDS_WELL, false);
            var ready := Launch(Supersede(chat, fate.stopped), fate).0;
            var held := Prepare(ready, turns, rebuilt, fate).agent.entries;
            Agrees(ended.forwarded, Held(ended)) <==>
              if Lost(chat) && PlanFor(chat.forwarded, turns).Prompt? then !fate.kept && held == []
              else fate.kept || held == [] || Last(held).text != outcome.message
  {
    var stopped := Supersede(chat, fate.stopped);
    if Lost(chat) {
      var ready := TakenOver(chat, fate);
      AheadPrepares(ready, turns, rebuilt, fate);
      PrepareStaysOnDisk(ready, turns, rebuilt, fate);
      PrepareKeepsRooted(ready, turns, rebuilt, fate);
      var prepared := Prepare(ready, turns, rebuilt, fate);
      if PlanFor(chat.forwarded, turns).Prompt? {
        FollowUpTurnAgreesExactly(ready, prepared, Last(turns), fate, aborted);
      } else {
        SentTurnAgreesExactly(ready, prepared, Last(turns), fate, aborted);
      }
    } else {
      TakeoverStaysInStep(chat, fate);
      TurnAgreesExactly(stopped, turns, rebuilt, fate, aborted);
    }
  }

  lemma TakeoverStaysInStep(chat: Chat, fate: BeginFate)
    requires InStep(chat) && chat.busy && !Lost(chat) && (fate.stopped || FileIsCurrent(chat))
    ensures InStep(Supersede(chat, fate.stopped))
  {
  }

  /** The chat as the new request finds it: with the old process, or with one resumed from its file. */
  lemma TakenOver(chat: Chat, fate: BeginFate) returns (ready: Chat)
    requires InStep(chat) && Lost(chat) && (fate.stopped || FileIsCurrent(chat))
    requires Launch(Supersede(chat, fate.stopped), fate).1.None?
    ensures ready == Launch(Supersede(chat, fate.stopped), fate).0
    ensures Ahead(ready) && ready.forwarded == chat.forwarded && ready.disk == chat.disk
    ensures ready.omp.value.entries == chat.omp.value.entries && ready.omp.value.file == chat.omp.value.file
    ensures ready.sessionFile == chat.sessionFile
  {
    ready := Launch(Supersede(chat, fate.stopped), fate).0;
  }

  lemma FollowUpTurnAgreesExactly(chat: Chat, prepared: Prepared, last: UserTurn, fate: BeginFate, aborted: bool)
    requires prepared.Ready? && fate.prompt.Answered? && prepared.agent.file < |prepared.disk|
    requires LacksLast(prepared.agent.entries, prepared.forwarded)
    ensures var begun := Send(chat, prepared, last, fate).0;
            var ended := EndTurn(begun, begun.generation, aborted, ENDS_WELL, false);
            Agrees(ended.forwarded, Held(ended)) <==> !fate.kept && prepared.agent.entries == []
  {
    var turn := ForwardedTurn(last.digest, Some(prepared.message));
    var kept := if fate.kept then Some(Entry(prepared.agent.nextEntry, prepared.message)) else None;
    FollowUpAgreesExactly(prepared.forwarded, turn, prepared.agent.entries, kept);
    SentTurnReconciles(chat, prepared, last, fate, aborted, kept);
  }

  // ---- A takeover that fails

  /** A takeover that fails before or at its prompt. If the turn it takes over had not lost its prompt, the condition is that
      of any failed begin. If it had, agreement needs the record to be repaired on the way: by a new session or branch whose
      prompt is not carried out, or that is lost again with nothing dropped from the file the chat would be resumed from; or
      by a follow-up with the very text that was lost, carried out although it was reported as failed. */
  lemma FailedTakeoverAgreesExactly(chat: Chat, turns: seq<UserTurn>, rebuilt: string, fate: BeginFate)
    requires InStep(chat) && chat.busy && FileIsCurrent(chat) && turns != []
    requires !BeginTurn(chat, turns, rebuilt, fate).1.Started?
    ensures var after := BeginTurn(chat, turns, rebuilt, fate).0;
            var (ready, error) := Launch(Supersede(chat, fate.stopped), fate);
            Agrees(after.forwarded, Held(after)) <==>
              if error.Some? then !Lost(chat)
              else
                var prepared := Prepare(ready, turns, rebuilt, fate);
                if prepared.GivenUp? then !Lost(chat)
                else if !Lost(chat) then
                  !fate.prompt.applied && (fate.prompt.exited ==> prepared.agent.file == ready.omp.value.file)
                else if PlanFor(chat.forwarded, turns).Prompt? then
                  fate.prompt.applied && Some(prepared.message) == Last(chat.forwarded).sentText
                else if fate.prompt.exited then |prepared.agent.entries| == |ready.omp.value.entries|
                else !fate.prompt.applied
  {
    LostMeansFewer(chat);
    var stopped := Supersede(chat, fate.stopped);
    var (ready, error) := Launch(stopped, fate);
    if !Lost(chat) {
      TakeoverStaysInStep(chat, fate);
      FailedBeginAgreesExactly(stopped, turns, rebuilt, fate);
    } else if error.None? {
      var taken := TakenOver(chat, fate);
      PrepareStaysOnDisk(ready, turns, rebuilt, fate);
      FailedSendAgreesExactly(ready, turns, rebuilt, fate);
    }
  }

  lemma FailedSendAgreesExactly(chat: Chat, turns: seq<UserTurn>, rebuilt: string, fate: BeginFate)
    requires Ahead(chat) && chat.sessionFile == Some(chat.omp.value.file) && turns != []
    requires var prepared := Prepare(chat, turns, rebuilt, fate);
             && (prepared.Ready? ==> Saved(prepared.agent, prepared.disk) && fate.prompt.Failed?)
             && chat.disk <= prepared.disk
    ensures var prepared := Prepare(chat, turns, rebuilt, fate);
            var after := Send(chat, prepared, Last(turns), fate).0;
            Agrees(after.forwarded, Held(after)) <==>
              if prepared.GivenUp? then false
              else if PlanFor(chat.forwarded, turns).Prompt? then
                fate.prompt.applied && Some(prepared.message) == Last(chat.forwarded).sentText
              else if fate.prompt.exited then |prepared.agent.entries| == |chat.omp.value.entries|
              else !fate.prompt.applied
  {
    AheadPrepares(chat, turns, rebuilt, fate);
    var prepared := Prepare(chat, turns, rebuilt, fate);
    if prepared.GivenUp? {
      AheadMeansMore(chat);
    } else if PlanFor(chat.forwarded, turns).Prompt? {
      FailedFollowUpAgreesExactly(chat, prepared, Last(turns), fate);
    } else {
      FailedRepairAgreesExactly(chat, prepared, Last(turns), fate);
    }
  }

  lemma AheadMeansMore(chat: Chat)
    requires Ahead(chat)
    ensures |Sent(chat.forwarded)| == |chat.omp.value.entries| + 1
  {
    SentPush(DropLast(chat.forwarded), Last(chat.forwarded));
    assert DropLast(chat.forwarded) + [Last(chat.forwarded)] == chat.forwarded;
  }

  lemma FailedFollowUpAgreesExactly(chat: Chat, prepared: Prepared, last: UserTurn, fate: BeginFate)
    requires Ahead(chat) && chat.sessionFile == Some(chat.omp.value.file)
    requires prepared.Ready? && fate.prompt.Failed? && prepared.synced == chat.forwarded
    requires prepared.agent == chat.omp.value && prepared.disk == chat.disk
    ensures var after := Send(chat, prepared, last, fate).0;
            Agrees(after.forwarded, Held(after)) <==>
              fate.prompt.applied && Some(prepared.message) == Last(chat.forwarded).sentText
  {
    var (keeping, stored) := Store(prepared.agent, prepared.disk, prepared.message);
    var texts, lost := Texts(prepared.agent.entries), Last(chat.forwarded).sentText.value;
    assert Texts(keeping.entries) == texts + [prepared.message];
    assert Sent(chat.forwarded) == texts + [lost] by {
      assert DropLast(chat.forwarded) + [Last(chat.forwarded)] == chat.forwarded;
      SentPush(DropLast(chat.forwarded), Last(chat.forwarded));
    }
    assert (texts + [prepared.message])[|texts|] == prepared.message && (texts + [lost])[|texts|] == lost;
    var after := Send(chat, prepared, last, fate).0;
    assert Held(after) == if fate.prompt.applied then keeping.entries else prepared.agent.entries;
  }

  lemma FailedRepairAgreesExactly(chat: Chat, prepared: Prepared, last: UserTurn, fate: BeginFate)
    requires Ahead(chat) && chat.sessionFile == Some(chat.omp.value.file)
    requires prepared.Ready? && fate.prompt.Failed? && chat.disk <= prepared.disk
    requires prepared.agent.file == |chat.disk| && Saved(prepared.agent, prepared.disk)
    requires Agrees(prepared.synced, prepared.agent.entries)
    requires Texts(prepared.agent.entries) <= Texts(chat.omp.value.entries)
    ensures var after := Send(chat, prepared, last, fate).0;
            Agrees(after.forwarded, Held(after)) <==>
              if fate.prompt.exited then |prepared.agent.entries| == |chat.omp.value.entries| else !fate.prompt.applied
  {
    var (keeping, stored) := Store(prepared.agent, prepared.disk, prepared.message);
    assert |Texts(keeping.entries)| == |prepared.agent.entries| + 1;
    assert Stored(stored, chat.sessionFile) == chat.omp.value.entries;
    assert |Texts(prepared.agent.entries)| == |prepared.agent.entries|;
  }
}
