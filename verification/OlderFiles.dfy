/** Exactly when the two records agree, whatever they were before: also while the session file the proxy knows, or its index
    entry, is older than the conversation. The file is refreshed when a process starts and when a turn ends, the entry only
    when a turn ends; a branch or a new session in between moves omp to another file. */
module OlderFiles {
  import opened Agreement
  import opened AgreementLimits
  import opened Branching
  import opened Conversation
  import opened History
  import opened Omp
  import opened Wrappers

  /** What there is right before a prompt is sent: the texts the proxy has on record for what omp is to hold by then, the texts
      omp does hold, those in the session file the proxy knows, whether that is the file omp writes to, and the message. */
  datatype Outlook =
    Outlook(record: seq<string>, live: seq<string>, known: seq<string>, current: bool, message: string)

  function OutlookOf(chat: Chat, prepared: Prepared): Outlook
    requires prepared.Ready?
  {
    Outlook(
      Sent(prepared.forwarded), Texts(prepared.agent.entries), Texts(Stored(prepared.disk, chat.sessionFile)),
      chat.sessionFile == Some(prepared.agent.file), prepared.message)
  }

  /** The chat when a request has taken it over and has a process for it. */
  function ReadyChat(chat: Chat, fate: BeginFate): Chat {
    Launch(Supersede(chat, fate.stopped), fate).0
  }

  ghost function Before(chat: Chat, turns: seq<UserTurn>, rebuilt: string, fate: BeginFate): Outlook
    requires turns != [] && ReadyChat(chat, fate).omp.Some?
    requires Prepare(ReadyChat(chat, fate), turns, rebuilt, fate).Ready?
  {
    OutlookOf(ReadyChat(chat, fate), Prepare(ReadyChat(chat, fate), turns, rebuilt, fate))
  }

  /** The prompt is sent: the process is live and no command before it failed. */
  ghost predicate Prompts(chat: Chat, turns: seq<UserTurn>, rebuilt: string, fate: BeginFate)
    requires turns != []
  {
    && Launch(Supersede(chat, fate.stopped), fate).1.None?
    && ReadyChat(chat, fate).omp.Some?
    && Prepare(ReadyChat(chat, fate), turns, rebuilt, fate).Ready?
  }

  /** The chat after a request, whether its turn starts or not. */
  ghost function Begun(chat: Chat, turns: seq<UserTurn>, rebuilt: string, fate: BeginFate): (begun: Chat)
    requires OnDisk(chat)
    ensures OnDisk(begun)
  {
    BeginStaysOnDisk(chat, turns, rebuilt, fate);
    BeginTurn(chat, turns, rebuilt, fate).0
  }

  // ---- The prompt

  function LiveAfter(o: Outlook, stored: bool): seq<string> {
    if stored then o.live + [o.message] else o.live
  }

  function KnownAfter(o: Outlook, stored: bool): seq<string> {
    if o.current then LiveAfter(o, stored) else o.known
  }

  /** Whether omp stores the message, also when it reports a failure. */
  predicate Stores(fate: BeginFate) {
    if fate.prompt.Answered? then fate.kept else fate.prompt.applied
  }

  lemma SyncedIsRecord(chat: Chat, turns: seq<UserTurn>, rebuilt: string, fate: BeginFate)
    requires chat.omp.Some? && turns != [] && Prepare(chat, turns, rebuilt, fate).Ready?
    ensures Sent(Prepare(chat, turns, rebuilt, fate).synced) == Sent(Prepare(chat, turns, rebuilt, fate).forwarded)
  {
    SentOfPlaceholders(Placeholders(DropLast(turns)));
  }

  lemma SendOutlook(chat: Chat, prepared: Prepared, last: UserTurn, fate: BeginFate)
    requires prepared.Ready? && Saved(prepared.agent, prepared.disk)
    requires Sent(prepared.synced) == Sent(prepared.forwarded)
    ensures var o := OutlookOf(chat, prepared);
            var after := Send(chat, prepared, last, fate).0;
            && Sent(after.forwarded) == o.record + (if fate.prompt.Answered? then [o.message] else [])
            && (after.omp.Some? ==> Texts(after.omp.value.entries) == LiveAfter(o, Stores(fate)))
            && Texts(Stored(after.disk, chat.sessionFile)) == KnownAfter(o, Stores(fate))
            && (after.sessionFile, after.index) == (chat.sessionFile, chat.index)
  {
    SendRecord(chat, prepared, last, fate);
    StoreOutlook(prepared.agent, prepared.disk, prepared.message, chat.sessionFile);
  }

  lemma SendRecord(chat: Chat, prepared: Prepared, last: UserTurn, fate: BeginFate)
    requires prepared.Ready? && Saved(prepared.agent, prepared.disk)
    requires Sent(prepared.synced) == Sent(prepared.forwarded)
    ensures Sent(Send(chat, prepared, last, fate).0.forwarded)
            == Sent(prepared.forwarded) + (if fate.prompt.Answered? then [prepared.message] else [])
  {
    SentPush(prepared.forwarded, ForwardedTurn(last.digest, Some(prepared.message)));
    assert Sent(prepared.forwarded) + [] == Sent(prepared.forwarded);
  }

  lemma StoreOutlook(agent: Agent, disk: Disk, message: string, file: Option<nat>)
    requires Saved(agent, disk)
    ensures var (keeping, stored) := Store(agent, disk, message);
            && Texts(keeping.entries) == Texts(agent.entries) + [message]
            && Stored(stored, file) == (if file == Some(agent.file) then keeping.entries else Stored(disk, file))
  {
    var (keeping, stored) := Store(agent, disk, message);
    assert Texts(keeping.entries) == Texts(agent.entries) + [message];
  }

  /** Right after the prompt, for every chat and every way a request can take it over. */
  lemma BeginOutlook(chat: Chat, turns: seq<UserTurn>, rebuilt: string, fate: BeginFate)
    requires OnDisk(chat) && turns != [] && Prompts(chat, turns, rebuilt, fate)
    ensures var o := Before(chat, turns, rebuilt, fate);
            var begun, outcome := Begun(chat, turns, rebuilt, fate), BeginTurn(chat, turns, rebuilt, fate).1;
            && (outcome.Started? <==> fate.prompt.Answered?)
            && (outcome.Started? ==> begun.omp.Some? && begun.busy && outcome.message == o.message)
            && (!outcome.Started? ==> !begun.busy && (begun.omp.Some? <==> !fate.prompt.exited))
            && Sent(begun.forwarded) == o.record + (if outcome.Started? then [o.message] else [])
            && (begun.omp.Some? ==> Texts(begun.omp.value.entries) == LiveAfter(o, Stores(fate)))
            && Texts(Stored(begun.disk, begun.sessionFile)) == KnownAfter(o, Stores(fate))
  {
    BeginStaysOnDisk(chat, turns, rebuilt, fate);
    var ready, error := LaunchStaysOnDisk(Supersede(chat, fate.stopped), fate);
    PrepareStaysOnDisk(ready, turns, rebuilt, fate);
    SyncedIsRecord(ready, turns, rebuilt, fate);
    SendOutlook(ready, Prepare(ready, turns, rebuilt, fate), Last(turns), fate);
  }

  /** A turn starts exactly when its prompt is sent and acknowledged. */
  ghost predicate Starts(chat: Chat, turns: seq<UserTurn>, rebuilt: string, fate: BeginFate)
    requires turns != []
  {
    Prompts(chat, turns, rebuilt, fate) && fate.prompt.Answered?
  }

  lemma StartsExactly(chat: Chat, turns: seq<UserTurn>, rebuilt: string, fate: BeginFate)
    requires OnDisk(chat) && turns != []
    ensures BeginTurn(chat, turns, rebuilt, fate).1.Started? <==> Starts(chat, turns, rebuilt, fate)
  {
    var ready, error := LaunchStaysOnDisk(Supersede(chat, fate.stopped), fate);
    if error.None? {
      PrepareStaysOnDisk(ready, turns, rebuilt, fate);
    }
  }

  // ---- Turns that start, from any state

  /** The last message omp stored is the one that was sent, or cannot be told from it. */
  predicate LooksKept(o: Outlook, kept: bool) {
    kept || (o.live != [] && Last(o.live) == o.message)
  }

  lemma ReconciledTexts(known: seq<ForwardedTurn>, turn: ForwardedTurn, stored: seq<Entry>)
    requires turn.sentText.Some?
    ensures Sent(Reconcile(known + [turn], stored))
            == if stored == [] then []
               else if Last(stored).text == turn.sentText.value then Sent(known) + [turn.sentText.value]
               else Sent(known)
  {
    SentPush(known, turn);
    assert DropLast(known + [turn]) == known;
    if !exists i :: 0 <= i < |known| && known[i].sentText.Some? {
      SentOfPlaceholders(known);
    }
  }

  /** The record after the stored messages were fetched at the end of the turn. */
  function RecordAfter(o: Outlook, kept: bool): seq<string> {
    if LooksKept(o, kept) then o.record + [o.message] else if o.live == [] then [] else o.record
  }

  lemma SendReconciles(chat: Chat, prepared: Prepared, last: UserTurn, fate: BeginFate)
    requires prepared.Ready? && Saved(prepared.agent, prepared.disk) && fate.prompt.Answered?
    ensures var begun := Send(chat, prepared, last, fate).0;
            begun.omp.Some? && Sent(Reconcile(begun.forwarded, begun.omp.value.entries))
                               == RecordAfter(OutlookOf(chat, prepared), fate.kept)
  {
    var turn := ForwardedTurn(last.digest, Some(prepared.message));
    var begun := Send(chat, prepared, last, fate).0;
    ReconciledTexts(prepared.forwarded, turn, begun.omp.value.entries);
    var live := Texts(prepared.agent.entries);
    assert live != [] ==> Last(live) == Last(prepared.agent.entries).text;
  }

  lemma EndOutlook(chat: Chat, turns: seq<UserTurn>, rebuilt: string, fate: BeginFate)
    requires OnDisk(chat) && turns != [] && Starts(chat, turns, rebuilt, fate)
    ensures var begun := BeginTurn(chat, turns, rebuilt, fate).0;
            begun.omp.Some? && Sent(Reconcile(begun.forwarded, begun.omp.value.entries))
                               == RecordAfter(Before(chat, turns, rebuilt, fate), fate.kept)
  {
    var ready, error := LaunchStaysOnDisk(Supersede(chat, fate.stopped), fate);
    PrepareStaysOnDisk(ready, turns, rebuilt, fate);
    SendReconciles(ready, Prepare(ready, turns, rebuilt, fate), Last(turns), fate);
  }

  lemma UndisturbedEnd(begun: Chat, aborted: bool)
    requires begun.omp.Some?
    ensures var ended := EndTurn(begun, begun.generation, aborted, ENDS_WELL, false);
            && Held(ended) == begun.omp.value.entries
            && ended.forwarded == Reconcile(begun.forwarded, begun.omp.value.entries)
  {
  }

  lemma UnansweredEnd(begun: Chat, aborted: bool, end: EndFate, stopIdle: bool)
    requires begun.omp.Some? && ((aborted && end.abort.Failed?) || end.fetch.Failed?)
    ensures var ended := EndTurn(begun, begun.generation, aborted, end, stopIdle);
            Held(ended) == Stored(begun.disk, begun.sessionFile) && ended.forwarded == begun.forwarded
  {
  }

  lemma HalfAnsweredEnd(begun: Chat, aborted: bool, end: EndFate, stopIdle: bool)
    requires begun.omp.Some? && (aborted ==> end.abort.Answered?) && end.fetch.Answered? && end.state.Failed?
    ensures var ended := EndTurn(begun, begun.generation, aborted, end, stopIdle);
            && Held(ended) == Stored(begun.disk, begun.sessionFile)
            && ended.forwarded == Reconcile(begun.forwarded, begun.omp.value.entries)
  {
  }

  /** From any state whatever: a turn that ends undisturbed leaves agreement exactly if the plan brought it about before the
      prompt and the prompt was kept or visibly lost; or omp held and kept nothing; or omp already held this message, and this
      one only, beyond the record, and lost the new one. */
  lemma AnyTurnAgreesExactly(chat: Chat, turns: seq<UserTurn>, rebuilt: string, fate: BeginFate, aborted: bool)
    requires OnDisk(chat) && turns != [] && Starts(chat, turns, rebuilt, fate)
    ensures var o := Before(chat, turns, rebuilt, fate);
            var begun := Begun(chat, turns, rebuilt, fate);
            var ended := EndTurn(begun, begun.generation, aborted, ENDS_WELL, false);
            Agrees(ended.forwarded, Held(ended)) <==>
              if fate.kept then o.record == o.live
              else if o.live == [] then true
              else if Last(o.live) == o.message then o.record + [o.message] == o.live
              else o.record == o.live
  {
    BeginOutlook(chat, turns, rebuilt, fate);
    EndOutlook(chat, turns, rebuilt, fate);
    UndisturbedEnd(Begun(chat, turns, rebuilt, fate), aborted);
    var o := Before(chat, turns, rebuilt, fate);
    SameEnd(o.record, o.live, o.message);
  }

  /** For a turn that omp kept, the plan alone decides: a follow-up needs agreement before, a rebuild needs nothing unless the
      record is empty, and a branch needs its entry to be where the record has it. */
  lemma KeptTurnAgreesExactly(chat: Chat, turns: seq<UserTurn>, rebuilt: string, fate: BeginFate, aborted: bool)
    requires OnDisk(chat) && turns != [] && Starts(chat, turns, rebuilt, fate) && fate.kept
    requires var ready := ReadyChat(chat, fate);
             Agrees(ready.forwarded, ready.omp.value.entries) || DistinctIds(ready.omp.value.entries)
    ensures var begun := Begun(chat, turns, rebuilt, fate);
            var ended := EndTurn(begun, begun.generation, aborted, ENDS_WELL, false);
            Agrees(ended.forwarded, Held(ended)) <==> Restores(ReadyChat(chat, fate), turns)
  {
    AnyTurnAgreesExactly(chat, turns, rebuilt, fate, aborted);
    PlanAgreesExactly(ReadyChat(chat, fate), turns, rebuilt, fate);
  }

  lemma SameEnd(a: seq<string>, b: seq<string>, x: string)
    ensures a + [x] == b + [x] <==> a == b
  {
    assert (a + [x])[..|a|] == a && (b + [x])[..|b|] == b;
  }

  /** The process of a running turn is lost: it exits, it does not answer when the turn ends, or it does not stop for a newer
      request. What counts then is the file the proxy knows. */
  lemma AnyLossWhileRunningAgreesExactly(
    chat: Chat, turns: seq<UserTurn>, rebuilt: string, fate: BeginFate, aborted: bool, end: EndFate, stopIdle: bool)
    requires OnDisk(chat) && turns != [] && Starts(chat, turns, rebuilt, fate)
    requires (aborted && end.abort.Failed?) || end.fetch.Failed?
    ensures var o := Before(chat, turns, rebuilt, fate);
            var begun := Begun(chat, turns, rebuilt, fate);
            var exited, ended := Step(begun, Exit), EndTurn(begun, begun.generation, aborted, end, stopIdle);
            var replaced := Supersede(begun, false);
            var agree := if !o.current then o.known == o.record + [o.message]
                         else if fate.kept then o.record == o.live
                         else o.live == o.record + [o.message];
            && (Agrees(exited.forwarded, Held(exited)) <==> agree)
            && (Agrees(ended.forwarded, Held(ended)) <==> agree)
            && (Agrees(replaced.forwarded, Held(replaced)) <==> agree)
  {
    BeginOutlook(chat, turns, rebuilt, fate);
    ProcessGone(Begun(chat, turns, rebuilt, fate));
    UnansweredEnd(Begun(chat, turns, rebuilt, fate), aborted, end, stopIdle);
    GoneAgreesExactly(Before(chat, turns, rebuilt, fate), fate.kept);
  }

  lemma ProcessGone(begun: Chat)
    requires OnDisk(begun)
    ensures var exited := Step(begun, Exit);
            Held(exited) == Stored(begun.disk, begun.sessionFile) && exited.forwarded == begun.forwarded
    ensures var replaced := Supersede(begun, false);
            begun.busy ==> Held(replaced) == Stored(begun.disk, begun.sessionFile) && replaced.forwarded == begun.forwarded
  {
  }

  lemma GoneAgreesExactly(o: Outlook, kept: bool)
    ensures KnownAfter(o, kept) == o.record + [o.message] <==>
              if !o.current then o.known == o.record + [o.message]
              else if kept then o.record == o.live
              else o.live == o.record + [o.message]
  {
    SameEnd(o.record, o.live, o.message);
  }

  /** The turn ends and is reconciled, but omp does not tell its session file any more and is given up. */
  lemma AnyHalfAnsweredEndAgreesExactly(
    chat: Chat, turns: seq<UserTurn>, rebuilt: string, fate: BeginFate, aborted: bool, end: EndFate, stopIdle: bool)
    requires OnDisk(chat) && turns != [] && Starts(chat, turns, rebuilt, fate)
    requires (aborted ==> end.abort.Answered?) && end.fetch.Answered? && end.state.Failed?
    ensures var o := Before(chat, turns, rebuilt, fate);
            var begun := Begun(chat, turns, rebuilt, fate);
            var ended := EndTurn(begun, begun.generation, aborted, end, stopIdle);
            Agrees(ended.forwarded, Held(ended)) <==>
              KnownAfter(o, fate.kept) == RecordAfter(o, fate.kept)
  {
    BeginOutlook(chat, turns, rebuilt, fate);
    EndOutlook(chat, turns, rebuilt, fate);
    HalfAnsweredEnd(Begun(chat, turns, rebuilt, fate), aborted, end, stopIdle);
  }

  /** The proxy restarts after a prompt was sent, while the turn runs or after it failed: it finds the index entry from before
      the turn, and the prompt may have changed the file named there. */
  lemma AnyRestartAfterPromptAgreesExactly(chat: Chat, turns: seq<UserTurn>, rebuilt: string, fate: BeginFate)
    requires OnDisk(chat) && turns != [] && Prompts(chat, turns, rebuilt, fate)
    ensures var o := Before(chat, turns, rebuilt, fate);
            var agent := Prepare(ReadyChat(chat, fate), turns, rebuilt, fate).agent;
            var restarted, resumed := Step(Begun(chat, turns, rebuilt, fate), Restart), Step(chat, Restart);
            Agrees(restarted.forwarded, Held(restarted)) <==>
              if resumed.sessionFile == Some(agent.file) then Sent(resumed.forwarded) == LiveAfter(o, Stores(fate))
              else Agrees(resumed.forwarded, Held(resumed))
  {
    OtherFilesStay(chat, turns, rebuilt, fate, Step(chat, Restart).sessionFile);
    RestartReadsTheIndex(chat);
    RestartReadsTheIndex(Begun(chat, turns, rebuilt, fate));
  }

  lemma RestartReadsTheIndex(chat: Chat)
    requires OnDisk(chat)
    ensures var restarted := Step(chat, Restart);
            && Held(restarted) == Stored(chat.disk, SavedEntry(chat).sessionFile)
            && restarted.sessionFile == SavedEntry(chat).sessionFile && restarted.forwarded == SavedEntry(chat).forwarded
  {
  }

  /** The prompt changes at most the file omp writes to, and what it stores is there. */
  lemma OtherFilesStay(chat: Chat, turns: seq<UserTurn>, rebuilt: string, fate: BeginFate, file: Option<nat>)
    requires OnDisk(chat) && turns != [] && Prompts(chat, turns, rebuilt, fate)
    requires file.Some? ==> file.value < |chat.disk|
    ensures var begun := Begun(chat, turns, rebuilt, fate);
            var agent := Prepare(ReadyChat(chat, fate), turns, rebuilt, fate).agent;
            && begun.index == chat.index
            && Texts(Stored(begun.disk, file))
               == if file == Some(agent.file) then LiveAfter(Before(chat, turns, rebuilt, fate), Stores(fate))
                  else Texts(Stored(chat.disk, file))
  {
    var ready, error := LaunchStaysOnDisk(Supersede(chat, fate.stopped), fate);
    LaunchKeepsFiles(Supersede(chat, fate.stopped), fate, file);
    PrepareStaysOnDisk(ready, turns, rebuilt, fate);
    SendKeepsFiles(ready, Prepare(ready, turns, rebuilt, fate), Last(turns), fate, file);
  }

  lemma LaunchKeepsFiles(chat: Chat, fate: BeginFate, file: Option<nat>)
    requires file.Some? ==> file.value < |chat.disk|
    ensures var ready := Launch(chat, fate).0;
            Stored(ready.disk, file) == Stored(chat.disk, file) && ready.index == chat.index && chat.disk <= ready.disk
  {
  }

  lemma SendKeepsFiles(chat: Chat, prepared: Prepared, last: UserTurn, fate: BeginFate, file: Option<nat>)
    requires prepared.Ready? && Saved(prepared.agent, prepared.disk) && chat.disk <= prepared.disk
    requires file.Some? ==> file.value < |chat.disk|
    ensures var after := Send(chat, prepared, last, fate).0;
            && after.index == chat.index
            && Texts(Stored(after.disk, file))
               == if file == Some(prepared.agent.file) then LiveAfter(OutlookOf(chat, prepared), Stores(fate))
                  else Texts(Stored(chat.disk, file))
  {
    StoreOutlook(prepared.agent, prepared.disk, prepared.message, file);
  }

  /** A restart after a request that gave up before its prompt is like one before the request. */
  lemma AnyRestartAfterAbandonedBegin(chat: Chat, turns: seq<UserTurn>, rebuilt: string, fate: BeginFate)
    requires OnDisk(chat) && turns != [] && !Prompts(chat, turns, rebuilt, fate)
    ensures var restarted, resumed := Step(Begun(chat, turns, rebuilt, fate), Restart), Step(chat, Restart);
            restarted.forwarded == resumed.forwarded && Held(restarted) == Held(resumed)
  {
    var ready, error := LaunchStaysOnDisk(Supersede(chat, fate.stopped), fate);
    LaunchKeepsFiles(Supersede(chat, fate.stopped), fate, SavedEntry(chat).sessionFile);
    if error.None? {
      PrepareStaysOnDisk(ready, turns, rebuilt, fate);
    }
    RestartReadsTheIndex(chat);
    RestartReadsTheIndex(Begun(chat, turns, rebuilt, fate));
  }

  // ---- Turns that do not start, from any state

  /** The prompt failed. As long as the process lives, its conversation counts; when it is lost, at once or later, the file the
      proxy knows. */
  lemma AnyFailedPromptAgreesExactly(chat: Chat, turns: seq<UserTurn>, rebuilt: string, fate: BeginFate)
    requires OnDisk(chat) && turns != [] && Prompts(chat, turns, rebuilt, fate) && fate.prompt.Failed?
    ensures var o := Before(chat, turns, rebuilt, fate);
            var after := Begun(chat, turns, rebuilt, fate);
            var stopped := Step(after, Stop);
            && (!fate.prompt.exited ==> (Agrees(after.forwarded, Held(after)) <==> o.record == LiveAfter(o, fate.prompt.applied)))
            && (fate.prompt.exited ==> (Agrees(after.forwarded, Held(after)) <==> o.record == KnownAfter(o, fate.prompt.applied)))
            && (Agrees(stopped.forwarded, Held(stopped)) <==> o.record == KnownAfter(o, fate.prompt.applied))
  {
    BeginOutlook(chat, turns, rebuilt, fate);
    ProcessStopped(Begun(chat, turns, rebuilt, fate));
    assert Before(chat, turns, rebuilt, fate).record + [] == Before(chat, turns, rebuilt, fate).record;
  }

  lemma ProcessStopped(after: Chat)
    requires OnDisk(after) && !after.busy
    ensures var stopped := Step(after, Stop);
            Held(stopped) == Stored(after.disk, after.sessionFile) && stopped.forwarded == after.forwarded
  {
  }

  /** No process could be had, or a command before the prompt failed and the process was given up: the record stays as it is,
      and what counts is the file the proxy knows, which is as it was. */
  lemma AnyAbandonedBeginAgreesExactly(chat: Chat, turns: seq<UserTurn>, rebuilt: string, fate: BeginFate)
    requires OnDisk(chat) && turns != [] && !Prompts(chat, turns, rebuilt, fate)
    ensures var (after, outcome) := BeginTurn(chat, turns, rebuilt, fate);
            var ready := ReadyChat(chat, fate);
            && !outcome.Started? && after.omp.None? && after.forwarded == chat.forwarded
            && (Agrees(after.forwarded, Held(after)) <==>
                  Sent(chat.forwarded) == Texts(Stored(ready.disk, ready.sessionFile)))
  {
    var ready, error := LaunchStaysOnDisk(Supersede(chat, fate.stopped), fate);
    if error.None? {
      PrepareStaysOnDisk(ready, turns, rebuilt, fate);
      PrepareRecords(ready, turns, rebuilt, fate);
      AbandonedRecord(ready, turns, rebuilt, fate);
    }
  }

  lemma AbandonedRecord(chat: Chat, turns: seq<UserTurn>, rebuilt: string, fate: BeginFate)
    requires chat.omp.Some? && turns != [] && Prepare(chat, turns, rebuilt, fate).GivenUp?
    ensures Prepare(chat, turns, rebuilt, fate).synced == chat.forwarded
  {
  }

  // ---- From a state in step

  /** Then the plan brings record and conversation to the same texts, and unless omp writes to it the file the proxy knows, if
      it was current before, still holds the whole conversation the plan left. */
  lemma OutlookInStep(chat: Chat, turns: seq<UserTurn>, rebuilt: string, fate: BeginFate)
    requires InStep(chat) && !chat.busy && turns != [] && Prompts(chat, turns, rebuilt, fate)
    ensures var o := Before(chat, turns, rebuilt, fate);
            && o.record == o.live
            && (FileIsCurrent(chat) ==> o.known == Sent(chat.forwarded) && (o.current ==> o.live == o.known))
            && (FileIsCurrent(chat) && !o.current ==> |o.live| < |o.known|)
  {
    var ready, error := LaunchStaysInStep(chat, fate);
    PrepareStaysInStep(ready, turns, rebuilt, fate);
    PrepareStaysOnDisk(ready, turns, rebuilt, fate);
    NewFileMeansFewer(ready, turns, rebuilt, fate);
  }

  /** The process of a running turn is lost: if omp still writes to the known file, agreement is kept exactly if the prompt was
      kept; otherwise exactly if that file happens to hold the conversation the turn made, as it does when the last message
      was regenerated unchanged. */
  lemma LossWhileRunningAgreesExactly(
    chat: Chat, turns: seq<UserTurn>, rebuilt: string, fate: BeginFate, aborted: bool, end: EndFate, stopIdle: bool)
    requires InStep(chat) && !chat.busy && turns != [] && Starts(chat, turns, rebuilt, fate)
    requires (aborted && end.abort.Failed?) || end.fetch.Failed?
    ensures var o := Before(chat, turns, rebuilt, fate);
            var begun := Begun(chat, turns, rebuilt, fate);
            var exited, ended := Step(begun, Exit), EndTurn(begun, begun.generation, aborted, end, stopIdle);
            var replaced := Supersede(begun, false);
            var agree := if o.current then fate.kept else o.known == o.live + [o.message];
            && (Agrees(exited.forwarded, Held(exited)) <==> agree)
            && (Agrees(ended.forwarded, Held(ended)) <==> agree)
            && (Agrees(replaced.forwarded, Held(replaced)) <==> agree)
  {
    OutlookInStep(chat, turns, rebuilt, fate);
    AnyLossWhileRunningAgreesExactly(chat, turns, rebuilt, fate, aborted, end, stopIdle);
    var o := Before(chat, turns, rebuilt, fate);
    assert |o.record + [o.message]| == |o.live| + 1;
  }

  /** A turn that is reconciled but does not learn omp's session file. */
  lemma HalfAnsweredEndAgreesExactly(
    chat: Chat, turns: seq<UserTurn>, rebuilt: string, fate: BeginFate, aborted: bool, end: EndFate, stopIdle: bool)
    requires InStep(chat) && !chat.busy && turns != [] && Starts(chat, turns, rebuilt, fate)
    requires (aborted ==> end.abort.Answered?) && end.fetch.Answered? && end.state.Failed?
    ensures var o := Before(chat, turns, rebuilt, fate);
            var begun := Begun(chat, turns, rebuilt, fate);
            var ended := EndTurn(begun, begun.generation, aborted, end, stopIdle);
            Agrees(ended.forwarded, Held(ended)) <==>
              if o.current then fate.kept || o.live == [] || Last(o.live) != o.message
              else o.known == if LooksKept(o, fate.kept) then o.live + [o.message] else o.live
  {
    OutlookInStep(chat, turns, rebuilt, fate);
    AnyHalfAnsweredEndAgreesExactly(chat, turns, rebuilt, fate, aborted, end, stopIdle);
    var o := Before(chat, turns, rebuilt, fate);
    assert |o.record + [o.message]| == |o.live| + 1;
  }

  /** A restart while a turn runs leaves agreement exactly unless the turn was kept in the file the index entry names. */
  lemma RestartWhileRunningAgreesExactly(chat: Chat, turns: seq<UserTurn>, rebuilt: string, fate: BeginFate)
    requires InStep(chat) && !chat.busy && FileIsCurrent(chat) && IndexIsCurrent(chat) && turns != []
    requires Starts(chat, turns, rebuilt, fate)
    ensures var agent := Prepare(ReadyChat(chat, fate), turns, rebuilt, fate).agent;
            var restarted := Step(Begun(chat, turns, rebuilt, fate), Restart);
            Agrees(restarted.forwarded, Held(restarted)) <==> !(fate.kept && chat.sessionFile == Some(agent.file))
  {
    OutlookInStep(chat, turns, rebuilt, fate);
    AnyRestartAfterPromptAgreesExactly(chat, turns, rebuilt, fate);
    LosingTheProcessAgreesExactly(chat);
    var o := Before(chat, turns, rebuilt, fate);
    assert |o.live + [o.message]| == |o.live| + 1;
    RestartFinds(chat, turns, rebuilt, fate);
  }

  lemma RestartFinds(chat: Chat, turns: seq<UserTurn>, rebuilt: string, fate: BeginFate)
    requires InStep(chat) && !chat.busy && FileIsCurrent(chat) && IndexIsCurrent(chat) && turns != []
    requires Prompts(chat, turns, rebuilt, fate)
    ensures var agent := Prepare(ReadyChat(chat, fate), turns, rebuilt, fate).agent;
            && Step(chat, Restart).sessionFile == chat.sessionFile && Step(chat, Restart).forwarded == chat.forwarded
            && (chat.sessionFile == Some(agent.file) ==> Before(chat, turns, rebuilt, fate).current)
            && CountsMatch(chat)
  {
    assert |Texts(Held(chat))| == |Held(chat)|;
  }

  /** A prompt failed and the process lives on; then it is stopped for being idle, or exits. */
  lemma StopAfterFailedPromptAgreesExactly(chat: Chat, turns: seq<UserTurn>, rebuilt: string, fate: BeginFate)
    requires InStep(chat) && !chat.busy && turns != [] && Prompts(chat, turns, rebuilt, fate) && fate.prompt.Failed?
    ensures var o := Before(chat, turns, rebuilt, fate);
            var stopped := Step(Begun(chat, turns, rebuilt, fate), Stop);
            Agrees(stopped.forwarded, Held(stopped)) <==>
              if o.current then !fate.prompt.applied else o.known == o.live
  {
    OutlookInStep(chat, turns, rebuilt, fate);
    AnyFailedPromptAgreesExactly(chat, turns, rebuilt, fate);
    var o := Before(chat, turns, rebuilt, fate);
    assert |o.live + [o.message]| == |o.live| + 1;
  }

  // ---- Runs that show it

  /** After one turn, a follow-up: the known file is the current one. */
  lemma FollowUpOutlook(a: UserTurn, b: UserTurn, fate: BeginFate)
    ensures Prompts(AfterOneTurn(a), [a, b], b.text, fate)
    ensures Before(AfterOneTurn(a), [a, b], b.text, fate) == Outlook([a.text], [a.text], [a.text], true, b.text)
    ensures Prepare(ReadyChat(AfterOneTurn(a), fate), [a, b], b.text, fate).agent.file == 0
  {
    var chat := AfterOneTurn(a);
    assert DropLast([a, b]) == [a] && PlanFor(chat.forwarded, [a, b]) == Prompt;
    SentPush([], chat.forwarded[0]);
    assert [] + [chat.forwarded[0]] == chat.forwarded && [] + [a.text] == [a.text];
    assert Texts([Entry(1, a.text)]) == [a.text];
  }

  /** After one turn, an edit or regeneration of its message: omp moves to a new, empty file. */
  lemma EditOutlook(a: UserTurn, x: UserTurn, rebuilt: string, fate: BeginFate)
    requires fate.fetch.Answered? && fate.branch.Answered?
    ensures Prompts(AfterOneTurn(a), [x], rebuilt, fate)
    ensures Before(AfterOneTurn(a), [x], rebuilt, fate) == Outlook([], [], [a.text], false, x.text)
  {
    var chat := AfterOneTurn(a);
    EditFinds(a, x);
    assert ReadyChat(chat, fate) == chat;
    var moved := [[Entry(1, a.text)]] + [[]];
    assert Branch(chat.omp.value, chat.disk, 1) == (Agent([], 2, 1), moved);
    assert chat.forwarded[..0] == [];
    assert Prepare(chat, [x], rebuilt, fate) == Ready(Agent([], 2, 1), moved, [], [], x.text);
    assert Stored(moved, Some(0)) == [Entry(1, a.text)] && Texts([Entry(1, a.text)]) == [a.text];
  }

  /** A restart while a follow-up runs: omp will resume with the follow-up, and the record does not have it. */
  lemma RestartForgetsTheTurn(a: UserTurn, b: UserTurn)
    ensures var restarted := Step(Begun(AfterOneTurn(a), [a, b], b.text, WELL), Restart);
            Texts(Held(restarted)) == [a.text, b.text] && Sent(restarted.forwarded) == [a.text]
  {
    FollowUpOutlook(a, b, WELL);
    BeginOutlook(AfterOneTurn(a), [a, b], b.text, WELL);
    OtherFilesStay(AfterOneTurn(a), [a, b], b.text, WELL, Some(0));
    assert [a.text] + [b.text] == [a.text, b.text];
    RestartFindsEntry(Begun(AfterOneTurn(a), [a, b], b.text, WELL), a);
  }

  lemma RestartFindsEntry(begun: Chat, a: UserTurn)
    requires OnDisk(begun) && begun.index == AfterOneTurn(a).index
    ensures var restarted := Step(begun, Restart);
            Held(restarted) == Stored(begun.disk, Some(0)) && Sent(restarted.forwarded) == [a.text]
  {
    SentPush([], ForwardedTurn(a.digest, Some(a.text)));
    assert [] + [ForwardedTurn(a.digest, Some(a.text))] == [ForwardedTurn(a.digest, Some(a.text))];
    assert [] + [a.text] == [a.text];
  }

  /** The process exits while the edited message is answered: agreement is kept exactly if the text is what it was. */
  lemma ExitUndoesTheEdit(a: UserTurn, x: UserTurn, rebuilt: string)
    ensures var exited := Step(Begun(AfterOneTurn(a), [x], rebuilt, WELL), Exit);
            && Texts(Held(exited)) == [a.text] && Sent(exited.forwarded) == [x.text]
            && (Agrees(exited.forwarded, Held(exited)) <==> a.text == x.text)
  {
    EditOutlook(a, x, rebuilt, WELL);
    BeginOutlook(AfterOneTurn(a), [x], rebuilt, WELL);
    assert [] + [x.text] == [x.text];
    assert [a.text][0] == a.text && [x.text][0] == x.text;
  }

  /** The prompt of an edit fails, and the process is stopped for being idle: the message is back in the file that will be
      resumed. */
  lemma StopAfterFailedEdit(a: UserTurn, x: UserTurn, rebuilt: string)
    ensures var stopped := Step(Begun(AfterOneTurn(a), [x], rebuilt, WELL.(prompt := Failed(false, false))), Stop);
            Texts(Held(stopped)) == [a.text] && Sent(stopped.forwarded) == []
  {
    var fate := WELL.(prompt := Failed(false, false));
    EditOutlook(a, x, rebuilt, fate);
    BeginOutlook(AfterOneTurn(a), [x], rebuilt, fate);
  }

  /** The turn of an edit ends, and omp does not tell its session file. */
  lemma HalfAnsweredEdit(a: UserTurn, x: UserTurn, rebuilt: string)
    ensures var begun := Begun(AfterOneTurn(a), [x], rebuilt, WELL);
            var ended := EndTurn(begun, begun.generation, false, ENDS_WELL.(state := Failed(false, true)), false);
            Agrees(ended.forwarded, Held(ended)) <==> a.text == x.text
  {
    EditOutlook(a, x, rebuilt, WELL);
    AnyHalfAnsweredEndAgreesExactly(
      AfterOneTurn(a), [x], rebuilt, WELL, false, ENDS_WELL.(state := Failed(false, true)), false);
    assert [] + [x.text] == [x.text];
    assert [a.text][0] == a.text && [x.text][0] == x.text;
  }
}
