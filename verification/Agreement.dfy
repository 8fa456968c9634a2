/** The proxy's record of a chat and omp's own record of it agree: what holds after every step, over every run, and
    exactly where it stops to hold. */
module Agreement {
  import opened Conversation
  import opened History
  import opened Omp
  import opened Wrappers

  // ---- The recorded history is the requested one

  /** After an acknowledged prompt, whichever plan ran, the proxy has recorded exactly the user turns of the request. On
      every error it keeps a prefix of what it had recorded. */
  lemma BeginRecordsRequest(chat: Chat, turns: seq<UserTurn>, rebuilt: string, fate: BeginFate)
    requires OnDisk(chat)
    ensures var (after, outcome) := BeginTurn(chat, turns, rebuilt, fate);
            if outcome.Started? then
              && Digests(after.forwarded) == TurnDigests(turns)
              && Last(after.forwarded).sentText == Some(outcome.message)
              && after.busy
            else
              after.forwarded <= chat.forwarded && !(after.busy && turns != [])
  {
    if turns != [] {
      var ready, error := LaunchStaysOnDisk(Supersede(chat, fate.stopped), fate);
      if error.None? {
        PrepareStaysOnDisk(ready, turns, rebuilt, fate);
        PrepareRecords(ready, turns, rebuilt, fate);
        SendRecords(ready, Prepare(ready, turns, rebuilt, fate), turns, fate);
      }
    }
  }

  lemma SendRecords(chat: Chat, prepared: Prepared, turns: seq<UserTurn>, fate: BeginFate)
    requires turns != [] && !chat.busy && prepared.synced <= chat.forwarded
    requires prepared.Ready? ==>
               prepared.agent.file < |prepared.disk| && Digests(prepared.forwarded) == DropLast(TurnDigests(turns))
    ensures var (after, outcome) := Send(chat, prepared, Last(turns), fate);
            if outcome.Started? then
              && Digests(after.forwarded) == TurnDigests(turns)
              && after.forwarded != []
              && Last(after.forwarded).sentText == Some(outcome.message)
              && after.busy
            else
              after.forwarded <= chat.forwarded && !after.busy
  {
    if prepared.Ready? {
      DigestsPush(prepared.forwarded, ForwardedTurn(Last(turns).digest, Some(prepared.message)));
      assert TurnDigests(turns) == DropLast(TurnDigests(turns)) + [Last(turns).digest];
    }
  }

  lemma PrepareRecords(chat: Chat, turns: seq<UserTurn>, rebuilt: string, fate: BeginFate)
    requires chat.omp.Some? && turns != []
    ensures var prepared := Prepare(chat, turns, rebuilt, fate);
            && prepared.synced <= chat.forwarded
            && (prepared.Ready? ==> Digests(prepared.forwarded) == DropLast(TurnDigests(turns)))
  {
    PlanMeaning(chat.forwarded, turns);
    assert Digests(Placeholders(DropLast(turns))) == DropLast(TurnDigests(turns));
  }

  lemma DigestsPush(known: seq<ForwardedTurn>, turn: ForwardedTurn)
    ensures Digests(known + [turn]) == Digests(known) + [turn.digest]
  {
  }

  // ---- The transcript is never orphaned

  ghost predicate RootedChat(chat: Chat) {
    Rooted(chat.forwarded) && (chat.index.Some? ==> Rooted(chat.index.value.forwarded))
  }

  /** No step, whatever omp answers, cuts away the turn that carried a rebuild transcript and keeps its placeholders. */
  lemma StepKeepsRooted(chat: Chat, action: Action)
    requires OnDisk(chat) && RootedChat(chat)
    ensures RootedChat(Step(chat, action))
  {
    match action
    case Begin(turns, rebuilt, fate) =>
      BeginKeepsRooted(chat, turns, rebuilt, fate);
    case End(generation, aborted, fate, stopIdle) =>
      if chat.omp.Some? {
        ReconcileKeepsRooted(chat.forwarded, chat.omp.value.entries);
      }
    case _ =>
  }

  lemma BeginKeepsRooted(chat: Chat, turns: seq<UserTurn>, rebuilt: string, fate: BeginFate)
    requires OnDisk(chat) && RootedChat(chat)
    ensures RootedChat(BeginTurn(chat, turns, rebuilt, fate).0)
  {
    if turns != [] {
      var ready, error := LaunchStaysOnDisk(Supersede(chat, fate.stopped), fate);
      if error.None? {
        PrepareStaysOnDisk(ready, turns, rebuilt, fate);
        PrepareKeepsRooted(ready, turns, rebuilt, fate);
        SendKeepsRooted(ready, Prepare(ready, turns, rebuilt, fate), Last(turns), fate);
      }
    }
  }

  lemma SendKeepsRooted(chat: Chat, prepared: Prepared, last: UserTurn, fate: BeginFate)
    requires RootedChat(chat) && Rooted(prepared.synced)
    requires prepared.Ready? ==>
               && prepared.agent.file < |prepared.disk|
               && forall turn: ForwardedTurn :: turn.sentText.Some? ==> Rooted(prepared.forwarded + [turn])
    ensures RootedChat(Send(chat, prepared, last, fate).0)
  {
  }

  lemma PrepareKeepsRooted(chat: Chat, turns: seq<UserTurn>, rebuilt: string, fate: BeginFate)
    requires chat.omp.Some? && turns != [] && Rooted(chat.forwarded)
    ensures var prepared := Prepare(chat, turns, rebuilt, fate);
            && Rooted(prepared.synced)
            && (prepared.Ready? ==>
                  forall turn: ForwardedTurn :: turn.sentText.Some? ==> Rooted(prepared.forwarded + [turn]))
  {
    if PlanFor(chat.forwarded, turns).BranchAt? {
      var index := PlanFor(chat.forwarded, turns).index;
      assert Branchable(chat.forwarded, index) ==> Rooted(chat.forwarded[..index]);
    }
  }

  lemma ReconcileKeepsRooted(forwarded: seq<ForwardedTurn>, stored: seq<Entry>)
    requires Rooted(forwarded)
    ensures Rooted(Reconcile(forwarded, stored))
  {
  }

  /** In every state of every run from a new chat the record is empty or a block of placeholders followed by at least
      one turn that omp received on its own. */
  lemma {:induction false} RunsStayRooted(chat: Chat, run: seq<Action>)
    requires OnDisk(chat) && RootedChat(chat)
    ensures RootedChat(After(chat, run))
    ensures var forwarded := After(chat, run).forwarded; forwarded == [] || exists k: nat :: Block(forwarded, k)
    decreases |run|
  {
    if run != [] {
      StepKeepsRooted(chat, run[0]);
      StepStaysOnDisk(chat, run[0]);
      RunsStayRooted(Step(chat, run[0]), run[1..]);
    } else {
      RootedIsABlock(chat.forwarded);
    }
  }

  // ---- Agreement over runs

  /** The texts the proxy sent are, in order, the texts omp stores. */
  ghost predicate Agrees(forwarded: seq<ForwardedTurn>, entries: seq<Entry>) {
    Texts(entries) == Sent(forwarded)
  }

  /** What the next turn will find: the live conversation, or the file it would be resumed from. */
  function Held(chat: Chat): seq<Entry> {
    if chat.omp.Some? then chat.omp.value.entries else Stored(chat.disk, chat.sessionFile)
  }

  /** omp acknowledged the running turn's prompt and then lost it; the last message it does store is another one. */
  ghost predicate Lost(chat: Chat) {
    chat.busy && chat.omp.Some? && LacksLast(chat.omp.value.entries, chat.forwarded)
  }

  ghost predicate LacksLast(entries: seq<Entry>, forwarded: seq<ForwardedTurn>) {
    && forwarded != []
    && Last(forwarded).sentText.Some?
    && Agrees(DropLast(forwarded), entries)
    && (entries != [] ==> Last(entries).text != Last(forwarded).sentText.value)
  }

  ghost predicate InStep(chat: Chat) {
    && OnDisk(chat)
    && RootedChat(chat)
    && (forall file :: 0 <= file < |chat.disk| ==> DistinctIds(chat.disk[file]))
    && (Agrees(chat.forwarded, Held(chat)) || Lost(chat))
  }

  /** The session file the proxy knows is the one omp writes to. It is not between a branch or a new session and the
      end of the turn. */
  predicate FileIsCurrent(chat: Chat) {
    chat.omp.Some? ==> chat.sessionFile == Some(chat.omp.value.file)
  }

  /** omp stores as many messages as the proxy sent. */
  predicate CountsMatch(chat: Chat) {
    chat.omp.Some? ==> |chat.omp.value.entries| == |Sent(chat.forwarded)|
  }

  predicate MayLoseProcess(chat: Chat) {
    FileIsCurrent(chat) && CountsMatch(chat)
  }

  predicate IndexIsCurrent(chat: Chat) {
    if chat.index.Some? then chat.index.value == IndexEntry(chat.sessionFile, chat.forwarded)
    else chat.forwarded == [] && chat.sessionFile.None?
  }

  /** When a step is covered by the agreement theorem. The excluded cases are: losing the process or the proxy while the
      known session file or index entry is older than the conversation, replacing a turn whose prompt was lost before it
      was reconciled, a lost prompt with the same text as the last stored message, a prompt that was carried out although
      it was reported as failed, and an entry id that omp hands out twice. */
  ghost predicate Safe(chat: Chat, action: Action)
    requires OnDisk(chat)
  {
    match action
    case Begin(turns, rebuilt, fate) => turns == [] || SafeBegin(chat, turns, rebuilt, fate)
    case End(generation, aborted, fate, stopIdle) => chat.generation != generation || SafeEnd(chat, aborted, fate)
    case Exit => MayLoseProcess(chat)
    case Stop => chat.busy || MayLoseProcess(chat)
    case Restart => MayLoseProcess(chat) && IndexIsCurrent(chat)
  }

  ghost predicate SafeBegin(chat: Chat, turns: seq<UserTurn>, rebuilt: string, fate: BeginFate)
    requires OnDisk(chat) && turns != []
  {
    && (chat.busy ==> CountsMatch(chat))
    && (chat.busy && !fate.stopped ==> FileIsCurrent(chat))
    && var (ready, error) := Launch(Supersede(chat, fate.stopped), fate);
       (error.None? ==> SafeSend(ready, Prepare(ready, turns, rebuilt, fate), fate))
  }

  predicate SafeSend(chat: Chat, prepared: Prepared, fate: BeginFate) {
    match prepared
    case GivenUp(_, _) => FileIsCurrent(chat)
    case Ready(agent, _, _, _, message) =>
      if fate.prompt.Failed? then !fate.prompt.applied && (fate.prompt.exited ==> chat.sessionFile == Some(agent.file))
      else if fate.kept then forall i :: 0 <= i < |agent.entries| ==> agent.entries[i].id != agent.nextEntry
      else agent.entries != [] ==> Last(agent.entries).text != message
  }

  predicate SafeEnd(chat: Chat, aborted: bool, fate: EndFate) {
    if chat.omp.None? then true
    else if (aborted && fate.abort.Failed?) || fate.fetch.Failed? then MayLoseProcess(chat)
    else fate.state.Failed? ==> FileIsCurrent(chat)
  }

  lemma StepStaysInStep(chat: Chat, action: Action)
    requires InStep(chat) && Safe(chat, action)
    ensures InStep(Step(chat, action))
  {
    StepStaysOnDisk(chat, action);
    StepKeepsRooted(chat, action);
    LostMeansFewer(chat);
    match action
    case Begin(turns, rebuilt, fate) =>
      if turns != [] {
        BeginStaysInStep(chat, turns, rebuilt, fate);
      }
    case End(generation, aborted, fate, stopIdle) =>
      EndStaysInStep(chat, generation, aborted, fate, stopIdle);
    case _ =>
  }

  lemma LostMeansFewer(chat: Chat)
    ensures Lost(chat) ==> |chat.omp.value.entries| + 1 == |Sent(chat.forwarded)|
  {
    if Lost(chat) {
      SentPush(DropLast(chat.forwarded), Last(chat.forwarded));
      assert DropLast(chat.forwarded) + [Last(chat.forwarded)] == chat.forwarded;
    }
  }

  lemma EndStaysInStep(chat: Chat, generation: nat, aborted: bool, fate: EndFate, stopIdle: bool)
    requires InStep(chat)
    requires chat.generation == generation ==> SafeEnd(chat, aborted, fate)
    ensures InStep(EndTurn(chat, generation, aborted, fate, stopIdle))
  {
    LostMeansFewer(chat);
    if chat.omp.Some? && chat.generation == generation {
      SyncStaysInStep(chat.(busy := false), aborted, fate);
    }
  }

  lemma SyncStaysInStep(chat: Chat, aborted: bool, fate: EndFate)
    requires chat.omp.Some? && RootedChat(chat)
    requires Agrees(chat.forwarded, chat.omp.value.entries) || LacksLast(chat.omp.value.entries, chat.forwarded)
    ensures var (synced, ok) := SyncAfterTurn(chat, aborted, fate);
            && RootedChat(synced)
            && (fate.fetch.Answered? && !(aborted && fate.abort.Failed?) ==> Agrees(synced.forwarded, chat.omp.value.entries))
  {
    ReconcileKeepsRooted(chat.forwarded, chat.omp.value.entries);
    ReconcileAgrees(chat.forwarded, chat.omp.value.entries);
  }

  /** Reconciling a record that agrees changes nothing; reconciling one that is a lost prompt ahead drops that prompt. */
  lemma ReconcileAgrees(forwarded: seq<ForwardedTurn>, stored: seq<Entry>)
    requires Rooted(forwarded)
    ensures Agrees(forwarded, stored) ==> Agrees(Reconcile(forwarded, stored), stored)
    ensures LacksLast(stored, forwarded) ==> Agrees(Reconcile(forwarded, stored), stored)
  {
    if forwarded != [] {
      var kept := DropLast(forwarded);
      assert kept + [Last(forwarded)] == forwarded;
      SentPush(kept, Last(forwarded));
      if !exists i :: 0 <= i < |kept| && kept[i].sentText.Some? {
        SentOfPlaceholders(kept);
      }
      assert Texts(stored) != [] ==> Last(Texts(stored)) == Last(stored).text;
    }
  }

  /** A request finds the records in step, whether it takes over a running turn and starts a process or not. */
  lemma LaunchStaysInStep(chat: Chat, fate: BeginFate) returns (ready: Chat, error: Option<Outcome>)
    requires InStep(chat) && (chat.busy ==> CountsMatch(chat) && (fate.stopped || FileIsCurrent(chat)))
    ensures (ready, error) == Launch(Supersede(chat, fate.stopped), fate)
    ensures InStep(ready) && !ready.busy && (error.None? <==> ready.omp.Some?)
  {
    LostMeansFewer(chat);
    var stopped := Supersede(chat, fate.stopped);
    assert InStep(stopped);
    ready, error := LaunchStaysOnDisk(stopped, fate);
  }

  lemma BeginStaysInStep(chat: Chat, turns: seq<UserTurn>, rebuilt: string, fate: BeginFate)
    requires InStep(chat) && turns != [] && SafeBegin(chat, turns, rebuilt, fate)
    ensures InStep(BeginTurn(chat, turns, rebuilt, fate).0)
  {
    BeginStaysOnDisk(chat, turns, rebuilt, fate);
    BeginKeepsRooted(chat, turns, rebuilt, fate);
    LostMeansFewer(chat);
    var ready, error := LaunchStaysInStep(chat, fate);
    if error.None? {
      PrepareStaysInStep(ready, turns, rebuilt, fate);
      SendStaysInStep(ready, Prepare(ready, turns, rebuilt, fate), Last(turns), fate);
    }
  }

  /** What preparing establishes for the prompt that follows. */
  ghost predicate InStepToSend(chat: Chat, prepared: Prepared) {
    && chat.disk <= prepared.disk
    && (forall file :: 0 <= file < |prepared.disk| ==> DistinctIds(prepared.disk[file]))
    && match prepared
       case GivenUp(_, synced) => synced == chat.forwarded
       case Ready(agent, disk, synced, forwarded, _) =>
         && Saved(agent, disk)
         && Agrees(synced, agent.entries)
         && Agrees(forwarded, agent.entries)
  }

  lemma PrepareStaysInStep(chat: Chat, turns: seq<UserTurn>, rebuilt: string, fate: BeginFate)
    requires InStep(chat) && chat.omp.Some? && !chat.busy && turns != []
    ensures InStepToSend(chat, Prepare(chat, turns, rebuilt, fate))
  {
    StartOverStaysInStep(chat, turns, rebuilt, fate);
    if PlanFor(chat.forwarded, turns).BranchAt? {
      var index := PlanFor(chat.forwarded, turns).index;
      if Branchable(chat.forwarded, index) {
        BranchStaysInStep(chat, index);
      }
    }
  }

  lemma BranchStaysInStep(chat: Chat, index: nat)
    requires InStep(chat) && chat.omp.Some? && !chat.busy && Branchable(chat.forwarded, index)
    ensures var agent, disk := chat.omp.value, chat.disk;
            var found := EntryOf(chat.forwarded, index, agent.entries);
            && found.Some?
            && var (kept, grown) := Branch(agent, disk, found.value);
               && disk <= grown
               && (forall file :: 0 <= file < |grown| ==> DistinctIds(grown[file]))
               && Saved(kept, grown)
               && Agrees(chat.forwarded[..index], kept.entries)
  {
    var agent := chat.omp.value;
    ExactRank(chat.forwarded, index, agent.entries);
    BranchKeepsRank(agent, chat.disk, |Sent(chat.forwarded[..index])|);
  }

  lemma StartOverStaysInStep(chat: Chat, turns: seq<UserTurn>, rebuilt: string, fate: BeginFate)
    requires InStep(chat) && chat.omp.Some? && !chat.busy && turns != []
    ensures InStepToSend(chat, StartOver(chat, turns, rebuilt, fate))
  {
    SentOfPlaceholders(Placeholders(DropLast(turns)));
  }

  lemma SendStaysInStep(chat: Chat, prepared: Prepared, last: UserTurn, fate: BeginFate)
    requires InStep(chat) && chat.omp.Some? && !chat.busy
    requires InStepToSend(chat, prepared) && SafeSend(chat, prepared, fate)
    requires RootedChat(Send(chat, prepared, last, fate).0)
    ensures InStep(Send(chat, prepared, last, fate).0)
  {
    SendStaysOnDisk(chat, prepared, last, fate);
    if prepared.Ready? && fate.prompt.Answered? {
      PromptStaysInStep(chat, prepared, last, fate);
    }
  }

  lemma PromptStaysInStep(chat: Chat, prepared: Prepared, last: UserTurn, fate: BeginFate)
    requires prepared.Ready? && fate.prompt.Answered?
    requires InStepToSend(chat, prepared) && SafeSend(chat, prepared, fate)
    requires OnDisk(Send(chat, prepared, last, fate).0) && RootedChat(Send(chat, prepared, last, fate).0)
    ensures InStep(Send(chat, prepared, last, fate).0)
  {
    var turn := ForwardedTurn(last.digest, Some(prepared.message));
    SentPush(prepared.forwarded, turn);
    assert DropLast(prepared.forwarded + [turn]) == prepared.forwarded;
    var (keeping, stored) := Store(prepared.agent, prepared.disk, prepared.message);
    assert Texts(keeping.entries) == Texts(prepared.agent.entries) + [prepared.message];
    if fate.kept {
      assert DistinctIds(keeping.entries);
    }
  }

  ghost predicate SafeRun(chat: Chat, run: seq<Action>)
    requires OnDisk(chat)
    decreases |run|
  {
    run == [] || (
      && Safe(chat, run[0])
      && (StepStaysOnDisk(chat, run[0]); SafeRun(Step(chat, run[0]), run[1..])))
  }

  lemma {:induction false} RunsStayInStep(chat: Chat, run: seq<Action>)
    requires InStep(chat) && SafeRun(chat, run)
    ensures InStep(After(chat, run))
    decreases |run|
  {
    if run != [] {
      StepStaysInStep(chat, run[0]);
      RunsStayInStep(Step(chat, run[0]), run[1..]);
    }
  }

  /** The main result. Over every run of follow-ups, regenerations, edits, rebuilds, supersessions, lost prompts, failed
      commands, stops, resumes and restarts from a new chat: whenever no turn is running, the texts the proxy sent are
      exactly the texts omp holds, or would hold after resuming. */
  lemma ProxyAndOmpAgree(run: seq<Action>)
    requires SafeRun(NEW_CHAT, run)
    ensures var chat := After(NEW_CHAT, run);
            !chat.busy ==> Texts(Held(chat)) == Sent(chat.forwarded) && DistinctIds(Held(chat))
  {
    RunsStayInStep(NEW_CHAT, run);
  }
}
