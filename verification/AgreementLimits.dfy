/** Exactly when a turn leaves the two records in agreement, and runs that show why the excluded cases are excluded. */
module AgreementLimits {
  import opened Agreement
  import opened Conversation
  import opened History
  import opened Omp
  import opened Wrappers

  const WELL := BeginFate(true, true, Answered, Answered, Answered, Answered, Answered, true)
  const ENDS_WELL := EndFate(Answered, Answered, Answered)

  /** Only the last stored text is compared: a lost prompt is dropped unless it repeats the message before it. */
  lemma ReconcileIsExact(known: seq<ForwardedTurn>, turn: ForwardedTurn, before: seq<Entry>, kept: Option<Entry>)
    requires Rooted(known + [turn]) && turn.sentText.Some? && Agrees(known, before)
    requires kept.Some? ==> kept.value.text == turn.sentText.value
    ensures var stored := before + (if kept.Some? then [kept.value] else []);
            Agrees(Reconcile(known + [turn], stored), stored) <==>
              kept.Some? || before == [] || Last(before).text != turn.sentText.value
  {
    var stored := before + (if kept.Some? then [kept.value] else []);
    SentPush(known, turn);
    assert DropLast(known + [turn]) == known;
    if kept.Some? {
      assert Texts(stored) == Texts(before) + [turn.sentText.value];
    } else {
      assert stored == before;
    }
    ReconcileAgrees(known + [turn], stored);
  }

  /** A turn that begins and ends undisturbed leaves the records in agreement exactly when omp kept the prompt or the
      lost prompt differs from the last message omp held when it was sent. */
  lemma TurnAgreesExactly(chat: Chat, turns: seq<UserTurn>, rebuilt: string, fate: BeginFate, aborted: bool)
    requires InStep(chat) && !chat.busy && turns != []
    requires BeginTurn(chat, turns, rebuilt, fate).1.Started?
    ensures var (begun, outcome) := BeginTurn(chat, turns, rebuilt, fate);
            var ended := EndTurn(begun, begun.generation, aborted, ENDS_WELL, false);
            var held := Prepare(Launch(chat, fate).0, turns, rebuilt, fate).agent.entries;
            Agrees(ended.forwarded, Held(ended)) <==> fate.kept || held == [] || Last(held).text != outcome.message
  {
    var ready, error := LaunchStaysOnDisk(chat, fate);
    PrepareStaysInStep(ready, turns, rebuilt, fate);
    PrepareKeepsRooted(ready, turns, rebuilt, fate);
    SentTurnAgreesExactly(ready, Prepare(ready, turns, rebuilt, fate), Last(turns), fate, aborted);
  }

  lemma SentTurnAgreesExactly(chat: Chat, prepared: Prepared, last: UserTurn, fate: BeginFate, aborted: bool)
    requires prepared.Ready? && fate.prompt.Answered? && prepared.agent.file < |prepared.disk|
    requires Agrees(prepared.forwarded, prepared.agent.entries)
    requires Rooted(prepared.forwarded + [ForwardedTurn(last.digest, Some(prepared.message))])
    ensures var begun := Send(chat, prepared, last, fate).0;
            var ended := EndTurn(begun, begun.generation, aborted, ENDS_WELL, false);
            var held := prepared.agent.entries;
            Agrees(ended.forwarded, Held(ended)) <==> fate.kept || held == [] || Last(held).text != prepared.message
  {
    var turn := ForwardedTurn(last.digest, Some(prepared.message));
    var kept := if fate.kept then Some(Entry(prepared.agent.nextEntry, prepared.message)) else None;
    ReconcileIsExact(prepared.forwarded, turn, prepared.agent.entries, kept);
    SentTurnReconciles(chat, prepared, last, fate, aborted, kept);
  }

  lemma SentTurnReconciles(
    chat: Chat, prepared: Prepared, last: UserTurn, fate: BeginFate, aborted: bool, kept: Option<Entry>)
    requires prepared.Ready? && fate.prompt.Answered? && prepared.agent.file < |prepared.disk|
    requires kept == if fate.kept then Some(Entry(prepared.agent.nextEntry, prepared.message)) else None
    ensures var begun := Send(chat, prepared, last, fate).0;
            var ended := EndTurn(begun, begun.generation, aborted, ENDS_WELL, false);
            var stored := prepared.agent.entries + (if kept.Some? then [kept.value] else []);
            && Held(ended) == stored
            && ended.forwarded
               == Reconcile(prepared.forwarded + [ForwardedTurn(last.digest, Some(prepared.message))], stored)
  {
    assert prepared.agent.entries + [] == prepared.agent.entries;
  }

  /** A `begin_turn` that fails leaves the records in agreement exactly when the prompt was not carried out after all and
      the process was not lost after omp had been moved to a new session file. */
  lemma FailedBeginAgreesExactly(chat: Chat, turns: seq<UserTurn>, rebuilt: string, fate: BeginFate)
    requires InStep(chat) && !chat.busy && FileIsCurrent(chat) && turns != []
    requires !BeginTurn(chat, turns, rebuilt, fate).1.Started?
    ensures var after := BeginTurn(chat, turns, rebuilt, fate).0;
            var (ready, error) := Launch(chat, fate);
            Agrees(after.forwarded, Held(after)) <==>
              error.Some? ||
              var prepared := Prepare(ready, turns, rebuilt, fate);
              prepared.Ready? ==>
                !fate.prompt.applied && (fate.prompt.exited ==> prepared.agent.file == ready.omp.value.file)
  {
    LostMeansFewer(chat);
    var ready, error := LaunchStaysOnDisk(chat, fate);
    if error.None? {
      PrepareStaysInStep(ready, turns, rebuilt, fate);
      var prepared := Prepare(ready, turns, rebuilt, fate);
      if prepared.Ready? {
        NewFileMeansFewer(ready, turns, rebuilt, fate);
        FailedPromptAgreesExactly(ready, prepared, Last(turns), fate);
      }
    }
  }

  lemma FailedPromptAgreesExactly(chat: Chat, prepared: Prepared, last: UserTurn, fate: BeginFate)
    requires chat.omp.Some? && chat.sessionFile == Some(chat.omp.value.file) && OnDisk(chat)
    requires prepared.Ready? && fate.prompt.Failed? && chat.disk <= prepared.disk
    requires Saved(prepared.agent, prepared.disk) && Agrees(prepared.synced, prepared.agent.entries)
    requires if prepared.agent.file == chat.omp.value.file then prepared.agent == chat.omp.value
             else |prepared.agent.entries| < |chat.omp.value.entries|
    ensures var after := Send(chat, prepared, last, fate).0;
            Agrees(after.forwarded, Held(after)) <==>
              !fate.prompt.applied && (fate.prompt.exited ==> prepared.agent.file == chat.omp.value.file)
  {
    var (keeping, stored) := Store(prepared.agent, prepared.disk, prepared.message);
    assert |Texts(keeping.entries)| == |prepared.agent.entries| + 1;
    assert |Sent(prepared.synced)| == |prepared.agent.entries|;
  }

  /** Moving omp to a new session file always drops at least one message from the conversation. */
  lemma NewFileMeansFewer(chat: Chat, turns: seq<UserTurn>, rebuilt: string, fate: BeginFate)
    requires InStep(chat) && chat.omp.Some? && !chat.busy && turns != []
    requires Prepare(chat, turns, rebuilt, fate).Ready?
    ensures var agent := Prepare(chat, turns, rebuilt, fate).agent;
            if agent.file == chat.omp.value.file then agent == chat.omp.value
            else |agent.entries| < |chat.omp.value.entries|
  {
    ResetMeansFewer(chat, turns, rebuilt, fate);
    if PlanFor(chat.forwarded, turns).BranchAt? {
      var index := PlanFor(chat.forwarded, turns).index;
      if Branchable(chat.forwarded, index) {
        BranchMeansFewer(chat, index);
      }
    }
  }

  lemma BranchMeansFewer(chat: Chat, index: nat)
    requires InStep(chat) && chat.omp.Some? && !chat.busy && Branchable(chat.forwarded, index)
    ensures var found := EntryOf(chat.forwarded, index, chat.omp.value.entries);
            && found.Some?
            && var kept := Branch(chat.omp.value, chat.disk, found.value).0;
               |kept.entries| < |chat.omp.value.entries| && kept.file != chat.omp.value.file
  {
    var rank := |Sent(chat.forwarded[..index])|;
    ExactRank(chat.forwarded, index, chat.omp.value.entries);
    BranchKeepsRank(chat.omp.value, chat.disk, rank);
  }

  lemma ResetMeansFewer(chat: Chat, turns: seq<UserTurn>, rebuilt: string, fate: BeginFate)
    requires InStep(chat) && chat.omp.Some? && !chat.busy && turns != []
    ensures var prepared := StartOver(chat, turns, rebuilt, fate);
            prepared.Ready? ==>
              if prepared.agent.file == chat.omp.value.file then prepared.agent == chat.omp.value
              else |prepared.agent.entries| < |chat.omp.value.entries|
  {
    if chat.forwarded != [] {
      SentPush(DropLast(chat.forwarded), Last(chat.forwarded));
      assert DropLast(chat.forwarded) + [Last(chat.forwarded)] == chat.forwarded;
    }
  }

  /** Losing the process while the known session file is the current one leaves agreement exactly if no prompt is lost at
      that moment, that is, if omp holds as many messages as were sent; stopping it, and a restart of the proxy from a current
      index, do the same. */
  lemma LosingTheProcessAgreesExactly(chat: Chat)
    requires InStep(chat) && FileIsCurrent(chat)
    ensures var after := Step(chat, Exit); Agrees(after.forwarded, Held(after)) <==> CountsMatch(chat)
    ensures var after := Step(chat, Stop); Agrees(after.forwarded, Held(after)) <==> CountsMatch(chat)
    ensures IndexIsCurrent(chat) ==>
              var after := Step(chat, Restart); Agrees(after.forwarded, Held(after)) <==> CountsMatch(chat)
  {
    LostMeansFewer(chat);
    assert |Texts(Held(chat))| == |Held(chat)|;
  }

  /** The same for a turn that ends without an answer from omp, whose process is then given up. */
  lemma UnansweredEndAgreesExactly(chat: Chat, aborted: bool, fate: EndFate, stopIdle: bool)
    requires InStep(chat) && FileIsCurrent(chat) && chat.omp.Some?
    requires (aborted && fate.abort.Failed?) || fate.fetch.Failed?
    ensures var after := EndTurn(chat, chat.generation, aborted, fate, stopIdle);
            Agrees(after.forwarded, Held(after)) <==> CountsMatch(chat)
  {
    LosingTheProcessAgreesExactly(chat);
  }

  /** The chat after one undisturbed turn. */
  function AfterOneTurn(a: UserTurn): Chat {
    var forwarded := [ForwardedTurn(a.digest, Some(a.text))];
    Chat(Some(Agent([Entry(1, a.text)], 2, 0)), [[Entry(1, a.text)]], forwarded, Some(0), false, 1,
         Some(IndexEntry(Some(0), forwarded)))
  }

  /** That chat is where a new chat gets with its first turn. */
  lemma FirstTurn(a: UserTurn)
    ensures Step(Step(NEW_CHAT, Begin([a], a.text, WELL)), End(1, false, ENDS_WELL, false)) == AfterOneTurn(a)
  {
    var begun := Step(NEW_CHAT, Begin([a], a.text, WELL));
    assert begun.omp.value.entries == [Entry(1, a.text)];
    assert begun.disk == [[Entry(1, a.text)]];
    assert begun.forwarded == [ForwardedTurn(a.digest, Some(a.text))];
  }

  /** Why a repeated prompt is excluded: after one undisturbed turn the same message is sent again and lost, and it is still
      recorded as sent when its turn has ended. */
  lemma RepeatedLostPromptIsKept(a: UserTurn)
    ensures var two := Step(
                      Step(AfterOneTurn(a), Begin([a, a], a.text, WELL.(kept := false))), End(2, false, ENDS_WELL, false));
            !two.busy && two.omp.Some? && Texts(two.omp.value.entries) == [a.text] && Sent(two.forwarded) == [a.text, a.text]
  {
    RepeatLost(a);
    var first := ForwardedTurn(a.digest, Some(a.text));
    assert Sent([first, first]) == [a.text, a.text] by {
      SentPush([first], first);
      SentPush([], first);
    }
    assert Last([first, first]) == first && Last([Entry(1, a.text)]).text == a.text;
  }

  lemma RepeatLost(a: UserTurn)
    ensures var first := ForwardedTurn(a.digest, Some(a.text));
            Step(AfterOneTurn(a), Begin([a, a], a.text, WELL.(kept := false)))
            == AfterOneTurn(a).(forwarded := [first, first], busy := true, generation := 2)
  {
    assert DropLast([a, a]) == [a] && PlanFor(AfterOneTurn(a).forwarded, [a, a]) == Prompt;
  }

  /** A chat whose first prompt was acknowledged and lost, with its turn still running. */
  function AfterLostPrompt(a: UserTurn): Chat {
    Chat(Some(Agent([], 1, 0)), [[]], [ForwardedTurn(a.digest, Some(a.text))], Some(0), true, 1, None)
  }

  lemma LostPrompt(a: UserTurn)
    ensures Step(NEW_CHAT, Begin([a], a.text, WELL.(kept := false))) == AfterLostPrompt(a)
  {
    var lost := Step(NEW_CHAT, Begin([a], a.text, WELL.(kept := false)));
    assert lost.forwarded == [ForwardedTurn(a.digest, Some(a.text))];
    assert lost.disk == [[]];
  }

  /** Why superseding a turn whose prompt was lost is excluded: it is never reconciled, so the record stays ahead. */
  lemma SupersededLostPromptIsKept(a: UserTurn, b: UserTurn)
    ensures var lost := Step(NEW_CHAT, Begin([a], a.text, WELL.(kept := false)));
            var over := Step(lost, Begin([a, b], b.text, WELL));
            var ended := Step(over, End(3, false, ENDS_WELL, false));
            !ended.busy && ended.omp.Some? && Texts(ended.omp.value.entries) == [b.text] && Sent(ended.forwarded) == [a.text, b.text]
  {
    LostPrompt(a);
    var lost := AfterLostPrompt(a);
    var first, second := ForwardedTurn(a.digest, Some(a.text)), ForwardedTurn(b.digest, Some(b.text));
    var over := Step(lost, Begin([a, b], b.text, WELL));
    assert over.forwarded == [first, second];
    assert over.omp.value.entries == [Entry(1, b.text)];
    assert Sent([first]) == [a.text];
    assert Sent([first, second]) == [a.text, b.text] by { SentPush([first], second); }
  }

  /** Why losing the process before the session file is refreshed is excluded: after one undisturbed turn the chat starts
      over, but it would be resumed from the file of the conversation it left. */
  lemma ProcessLostAfterNewSession(a: UserTurn, x: UserTurn, y: UserTurn, rebuilt: string)
    requires a.digest != x.digest
    ensures var lost := Step(AfterOneTurn(a), Begin([x, y], rebuilt, WELL.(prompt := Failed(false, true))));
            !lost.busy && lost.omp.None? && Sent(lost.forwarded) == [] && Texts(Held(lost)) == [a.text]
  {
    assert DropLast([x, y]) == [x];
    assert AfterOneTurn(a).forwarded[0].digest != [x][0].digest;
    LostAfterReset(AfterOneTurn(a), [x, y], rebuilt);
  }

  lemma LostAfterReset(chat: Chat, turns: seq<UserTurn>, rebuilt: string)
    requires OnDisk(chat) && chat.omp.Some? && !chat.busy && chat.sessionFile == Some(chat.omp.value.file)
    requires chat.forwarded != [] && turns != [] && PlanFor(chat.forwarded, turns) == Rebuild
    ensures var lost := Step(chat, Begin(turns, rebuilt, WELL.(prompt := Failed(false, true))));
            !lost.busy && lost.omp.None? && lost.forwarded == [] && Held(lost) == chat.omp.value.entries
  {
  }
}
