# Verification model of the omp proxy

The proxy gives every chat its own omp process and keeps its own record of what it sent to it (`forwarded`). Users edit
and regenerate messages, write again while an answer is running, and delete chats; processes are evicted, stopped, resumed
and die. This project models the parts that must stay consistent through all of that and proves that they do.

- **Conversation synchronisation** (`History`, `Omp`, `Conversation`, `ChatSession`, `Agreement`, `AgreementLimits`,
  `SupersededTurns`, `Branching`, `OlderFiles`, `RequestText`, `TurnStarts`).
  `Omp.Process` is the agent with the semantics of the test double; `ChatSession.Session` is the session object with
  `begin_turn` and `end_turn` in the form of the code; both are proved against functions on values, and runs of those
  functions are what the agreement theorems talk about.
- **Session lifecycle** (`Lifecycle`, `LifecycleInvariant`, `Supersession`, `Occupancy`, `LifecycleRuns`,
  `Removals`, `Ownership`, `Processes`, `StepEffects`, `LastUse`, `Progress`). A transition
  system with any number of chats, session objects and tasks. A step is one await-free block or one section under a lock;
  which locks a task holds follows from where it is.
- **Frames and requests** (`FrameDecoder`, `FrameStream`, `FrameGrammar`, `RpcProcess`, `RpcEnds`). The chunk reassembler with its inverse, and the
  race between requests and the reader of a dying process.
- **Turns** (`Translator`, `Translation`, `TurnDriver`, `TurnEnds`). The event translator in its three reasoning modes against what
  the events alone say, and the driver that ends a turn exactly once.
- **Checkouts** (`RefNames`, `Checkout`, `RepoTool`, `CheckoutRuns`). Directory names that can be read back, a transition system of
  concurrent checkouts that can be interrupted after every step, and the uninterrupted operation on its files.

`dafny verify dfyconfig.toml` checks everything.

## What turned out to need a condition

Some statements one would like to make are false of the code. Each is stated here with its exact condition, as an if and
only if over all inputs, and for most of them there is also an input that shows it is needed.

- A lost prompt is dropped from the record only if its text differs from the last message omp holds:
  `AgreementLimits.TurnAgreesExactly`, `AgreementLimits.RepeatedLostPromptIsKept`; from any state whatever,
  `OlderFiles.AnyTurnAgreesExactly`.
- A superseded turn is never reconciled. If its prompt was lost, a follow-up leaves the record ahead of omp, while a branch
  or a rebuild repairs it: `SupersededTurns.SupersedingTurnAgreesExactly`, `AgreementLimits.SupersededLostPromptIsKept`.
- A failed `begin_turn` can leave the record wrong in several ways: `AgreementLimits.FailedBeginAgreesExactly`,
  `SupersededTurns.FailedTakeoverAgreesExactly`, `AgreementLimits.ProcessLostAfterNewSession`; from any state
  `OlderFiles.AnyFailedPromptAgreesExactly` and `OlderFiles.AnyAbandonedBeginAgreesExactly`.
- Losing or stopping the process, a restart and a turn that ends without an answer keep agreement unless a prompt is lost at
  that moment, provided that the known session file and the index entry are current:
  `AgreementLimits.LosingTheProcessAgreesExactly`, `AgreementLimits.UnansweredEndAgreesExactly`. While a turn runs they need
  not be, and then it depends on what the older file holds: `OlderFiles.LossWhileRunningAgreesExactly`,
  `OlderFiles.HalfAnsweredEndAgreesExactly`, `OlderFiles.RestartWhileRunningAgreesExactly` and
  `OlderFiles.StopAfterFailedPromptAgreesExactly`, each with an input that breaks agreement, and from any state the lemmas
  of that module whose names begin with `Any`.
- A resumed process counts its entries on from 100 above their number, so it can hand out an id twice; then a branch can cut
  away too much: `Branching.BranchAgreesExactly`, `Branching.RepeatedIdLosesMessages`.
- Two messages can be digested from the same bytes: exactly those without images and without NUL have a digest input of
  their own: `History.DigestIsUniqueExactly`, `History.NulConfusesDigests`.
- A deleted chat leaves the map unless the request that deletes it is dropped; then it is in the way until it is deleted
  again: `Removals.VanishingLeavesStuckExactly`, `Removals.StuckUntilDeletedAgain`, `Removals.StuckChatsStartNothing`,
  `Removals.DroppedDeletionSticks`.
- A decoder error leaves a fresh decoder unless the line was not JSON while a sequence was pending:
  `FrameStream.ErrorsStartAfresh`.
- A turn that was not aborted need not have shown its `Done` to the client: `TurnDriver.HearingDoneExactly`,
  `TurnDriver.LeavingWhileEnding`.
- A terminal output that the driver makes itself leaves a think block open if one was open:
  `TurnDriver.TerminalsAndThinkBlocks`.
- A checkout that finds its directory and marker names the commit unless the marker was torn, and has all files unless a
  deletion of the chat was interrupted: `Checkout.ReportIsExact`, `CheckoutRuns.TornMarkerNamesNoCommit`,
  `RepoTool.CheckOutSucceedsExactly`, `CheckoutRuns.HalfDeletedIsTaken`. A directory that someone deleted in can be trusted
  again once it was left empty while nobody was filling it: `Checkout.IntactExactly`, `CheckoutRuns.EmptiedWhileFilling`.
- A response to a request is lost if and only if the request was given up, by its own limits or because its caller was
  dropped, before it received it: `RpcProcess.MatchedIsLostExactly`, `RpcProcess.AbandonedSwallowsItsResponse`.

## Model

| member | source | states |
|---|---|---|
| History.PlanMeaning | src/history.rs:143-154 | The three plans in terms of histories: prompt exactly when the known digests are the incoming ones without the last, branch exactly when they properly extend them (and then the first dropped turn is the branch index), rebuild in every other case. |
| History.FindEntry | src/history.rs:161-175 | The greedy search with one shared iterator computes the entry specified for a turn, and nothing exactly when there is none. |
| History.EntryOfMeaning | src/history.rs:156-175 | That entry exists exactly when the turn may be branched to and the sent texts up to it embed in order into omp's entries, and it is where every leftmost embedding ends. |
| History.ExactRank | src/session.rs:164-178 | When the texts agree, duplicates allowed, the entry found for a turn is the one of the same rank, and the entries before it are exactly the texts sent before that turn. |
| History.RootedIsABlock | src/history.rs:82-89 | A rooted record is either empty or a block of placeholders followed by at least one turn that was sent on its own, and nothing else. |
| History.UserTurns | src/history.rs:95-124 | One turn per user message, in order, with digest, images and text as specified step by step. |
| History.TurnTextsAreNotBlank | src/history.rs:73-80 | The text sent to omp is never blank, whatever the message is made of. |
| History.DigestsTellMessagesApart | src/history.rs:101-106 | Among messages without NUL characters, two are digested from the same bytes if and only if they have the same text and the same image URLs. |
| History.DigestIsUniqueExactly | src/history.rs:101-106 | No other message at all is digested from the same bytes if and only if the message has no image and its text no NUL. |
| History.NulConfusesDigests | src/history.rs:101-106 | A message with an image and a text that spells the image out after a NUL are digested from the same bytes. |
| History.RebuildPrompt | src/history.rs:178-199 | The loop builds the specified transcript of user and assistant messages before the last user message. |
| History.RebuildSplit | src/session.rs:188-192 | The user turns inside the transcript are exactly the turns that become placeholders, and the turn at the split is the one that is sent. |
| History.RebuildKeepsContext | src/history.rs:178-199 | Context is left out only if nobody said anything before the last user message, and the prompt always ends with the current request. |
| RequestText.ContentGrows | src/history.rs:43-69 | Part by part: a text goes on a new line unless it is the first, an image adds its URL, anything else adds nothing. |
| RequestText.DataUrlExactly | src/history.rs:126-130 | A URL is loaded as an image if and only if it is `data:`, a type that begins with `image/`, the first `;base64,` and the data, and then as exactly these. |
| RequestText.ImagesInOrder | src/history.rs:107 | The images of a message are those its URLs spell, in order; what spells none is left out. |
| RequestText.TurnSaysTheMessage | src/history.rs:108-122 | The text sent for a message is its own text, with a note if not all images could be loaded; only a message without visible text gets a stand-in, and which one. |
| RequestText.SameDigestExactly | src/history.rs:99-106 | If the digest does not collide, two messages without NUL have the same digest if and only if they have the same text and the same image URLs. |
| RequestText.TurnsGrow | src/history.rs:95-98 | Each user message adds its turn at the end, other messages add none. |
| RequestText.TranscriptGrows | src/history.rs:182-191 | Each message adds its line to the transcript, by role and text. |
| RequestText.RebuildReads | src/history.rs:180-198 | A rebuild prompt is the transcript of what comes before the last user message, in its frame, and then the request. |
| Omp.BranchKeepsRank | src/bin/fake_omp.rs:139-146 | With distinct ids, branching at the entry of rank k keeps exactly the k entries before it. |
| Omp.Process.HandleBranch | src/bin/fake_omp.rs:139-146 | Cuts the entries just before the named one, moves to a new file that holds the rest, and leaves all other files as they are. |
| Omp.Process.HandleNewSession | src/bin/fake_omp.rs:147-151 | Empties the conversation and moves to a new file. |
| Omp.Process.HandlePrompt | src/bin/fake_omp.rs:159-171 | Acknowledges the message and appends it under the next id to the conversation and its file, or, failing late, acknowledges it, reports the failure and changes nothing. |
| ChatSession.Session.CancelRunning | src/session.rs:130-144 | A newer request ends the running turn of a busy session, raises the generation, and gives up a process that does not stop. |
| ChatSession.Session.EnsureProcess | src/session.rs:146-155 | A dead process is replaced by one resumed from the known session file, whose name is then recorded; errors leave no process. |
| ChatSession.Session.PrepareOmp | src/session.rs:160-196 | Brings omp into the state of the plan that was chosen, with the fallback from branch to rebuild and what was synchronised when a command fails. |
| ChatSession.Session.BeginTurn | src/session.rs:115-241 | The whole operation is the specified change of the session, for every way its commands can end. |
| ChatSession.Session.SendPrompt | src/session.rs:208-229 | The prompt is recorded only once it is acknowledged; otherwise the record is what omp was known to hold before it. |
| ChatSession.Session.SyncWithOmp | src/session.rs:594-620 | Reconciles the record with the last message omp stored and refreshes the session file. |
| ChatSession.Session.EndTurn | src/session.rs:244-283 | Ends the turn of its own generation, reconciles, and writes the index entry; for an older generation nothing changes. |
| TurnStarts.OutcomeExactly | src/session.rs:115-241 | From any state, told from the record, the messages omp holds and the fate of the commands alone: a request is bad, unavailable or broken, or its turn starts, and then omp is sent the last message with its images if its conversation goes on, and the rebuild prompt if it starts over. |
| TurnStarts.OmpIsSent | src/session.rs:183-206 | The same in terms of the messages of the request: when omp starts over it is sent the transcript of everything before the last user message, which is what the placeholders stand for. |
| TurnStarts.EndIsSaved | src/session.rs:244-283 | However a turn ends, aborted or not, answered or not: the chat is free, the index entry is current, so that a restart finds the same record and file, and the process lives on if and only if everything was answered and idle processes are kept. |
| TurnStarts.TakenOverEndDoesNothing | src/session.rs:134-136 | The end of a turn that was taken over does nothing, whatever became of the request that took over. |
| Agreement.BeginRecordsRequest | src/session.rs:160-224 | After every acknowledged begin the digests in the record are exactly those of the request's user turns, under all three plans; after an error the record is a prefix of what it was. |
| Agreement.StepKeepsRooted | src/session.rs:160-224 | No step cuts away the turn that carried a rebuild transcript while it keeps the placeholders. |
| Agreement.RunsStayRooted | src/session.rs:601-613 | In every state of every run the record is empty or placeholders followed by at least one turn sent on its own. |
| Agreement.ReconcileAgrees | src/session.rs:601-614 | Reconciling keeps a record that agrees and repairs one that is a lost prompt ahead. |
| Agreement.StepStaysInStep | src/session.rs:160-231 | Every covered step keeps agreement, up to a prompt that was lost in the turn still running. |
| Agreement.RunsStayInStep | src/session.rs:594-620 | The same for every run of covered steps. |
| Agreement.ProxyAndOmpAgree | src/session.rs:594-620 | Over every covered run from a new chat, whenever no turn is running, the sent texts of the record are, in order, exactly the texts omp holds or would resume with. |
| AgreementLimits.ReconcileIsExact | src/session.rs:601-614 | Reconciliation repairs a turn if and only if omp kept its prompt or the text differs from the last stored one. |
| AgreementLimits.TurnAgreesExactly | src/session.rs:603-607 | The same for a whole undisturbed turn from any state in step. |
| AgreementLimits.FailedBeginAgreesExactly | src/session.rs:208-222 | With a current session file, a begin that fails leaves agreement if and only if the prompt was not carried out and no process was lost after omp moved to a new file. Any other state: `OlderFiles.AnyFailedPromptAgreesExactly` and `AnyAbandonedBeginAgreesExactly`. |
| AgreementLimits.LosingTheProcessAgreesExactly | src/session.rs:286-297 | From any state in step with a current session file, an exit, a stop or a restart from a current index keeps agreement if and only if omp holds as many messages as were sent. With an older file or entry: `OlderFiles.AnyLossWhileRunningAgreesExactly`, `AnyFailedPromptAgreesExactly`, `AnyRestartAfterPromptAgreesExactly` and `AnyRestartAfterAbandonedBegin`. |
| AgreementLimits.UnansweredEndAgreesExactly | src/session.rs:255-261 | The same for a turn that ends without an answer, whose process is given up; with an older file `OlderFiles.AnyLossWhileRunningAgreesExactly`. |
| SupersededTurns.AheadPrepares | src/session.rs:160-196 | After a lost prompt, a branch or a rebuild brings the record back to what omp holds before the new prompt is sent; the lost turn itself is never branched to. |
| SupersededTurns.SupersedingTurnAgreesExactly | src/session.rs:130-144 | A turn that takes over and ends undisturbed leaves agreement if and only if: as a follow-up to a lost prompt, omp loses it too and holds nothing; otherwise, omp keeps it or its text is not the last stored one. A turn that does not stop in time is taken over from a current session file here; with any file it is `OlderFiles.AnyTurnAgreesExactly`. |
| SupersededTurns.FailedTakeoverAgreesExactly | src/session.rs:130-222 | The exact condition for a takeover that fails, at every point where it can, from a current session file; with any file it is `OlderFiles.AnyFailedPromptAgreesExactly` and `AnyAbandonedBeginAgreesExactly`. |
| Branching.FoundAt | src/session.rs:164-178 | In any conversation the entry found for a turn is never before its rank, and at its rank if and only if the texts before it are those sent before the turn. |
| Branching.BranchAgreesExactly | src/bin/fake_omp.rs:139-146 | A branch leaves agreement if and only if the first entry with the id found is the one of the turn's rank; also when ids repeat, and with distinct ids also from a record that does not agree. |
| Branching.PlanAgreesExactly | src/session.rs:160-196 | From any state with distinct ids, what a plan makes of the two records: a follow-up leaves them as they are, a rebuild brings them together unless nothing is on record and omp holds something, a branch brings them together if and only if its entry is at the turn's rank. |
| Branching.RepeatedIdLosesMessages | src/bin/fake_omp.rs:139-146 | A run from one turn on, with two resumes and two edits and no failure, after which omp lacks the first message because id 101 was handed out twice. |
| Branching.OnlyResumesRepeatIds | src/bin/fake_omp.rs:139-171 | The commands of one process keep its ids distinct and never hand one out again; a resumed process starts like that if and only if the stored ids are below 100 above their number. |
| OlderFiles.AnyTurnAgreesExactly | src/session.rs:594-620 | From any state, in step or not, the exact condition for agreement after a turn that ends undisturbed, also one that takes over, in terms of the texts on record and held when it was prompted. |
| OlderFiles.KeptTurnAgreesExactly | src/session.rs:160-224 | For a turn that omp kept, the plan alone decides, as in `Branching.PlanAgreesExactly`. |
| OlderFiles.AnyLossWhileRunningAgreesExactly | src/session.rs:133-144 | From any state, when the process of a running turn exits, does not answer when the turn ends, or does not stop for a newer request: the exact condition, in terms of the known file. |
| OlderFiles.LossWhileRunningAgreesExactly | src/session.rs:255-261 | The same for a turn begun in step: if omp still writes to the known file, if and only if the prompt was kept; otherwise if and only if that file happens to hold the conversation the turn made. |
| OlderFiles.ExitUndoesTheEdit | src/session.rs:146-155 | The process exits while an edited message is answered: agreement is kept if and only if the text is what it was. |
| OlderFiles.AnyHalfAnsweredEndAgreesExactly | src/session.rs:615-619 | From any state, a turn that is reconciled but does not learn omp's session file. |
| OlderFiles.HalfAnsweredEndAgreesExactly | src/session.rs:615-619 | The same for a turn begun in step, where the two cases of the known file are told apart. |
| OlderFiles.HalfAnsweredEdit | src/session.rs:615-619 | An edit whose end is only half answered keeps agreement if and only if the text is what it was. |
| OlderFiles.AnyRestartAfterPromptAgreesExactly | src/session.rs:272-281 | From any state, a restart after a prompt, while its turn runs or after it failed: either the prompt went to the file of the index entry, and then the entry must record what that file now holds, or it is as if the proxy had restarted before the request. |
| OlderFiles.AnyRestartAfterAbandonedBegin | src/session.rs:146-205 | From any state, a restart after a request that gave up before its prompt finds what it would have found before the request. |
| OlderFiles.RestartWhileRunningAgreesExactly | src/session.rs:272-281 | From a state in step with current file and entry, if and only if the turn was not kept in the file that the entry names. |
| OlderFiles.RestartForgetsTheTurn | src/session.rs:272-281 | A restart while a follow-up runs: omp resumes with the follow-up, the record does not have it. |
| OlderFiles.AnyFailedPromptAgreesExactly | src/session.rs:213-222 | From any state, a prompt that fails, with the process alive, lost at once, or stopped later. |
| OlderFiles.StopAfterFailedPromptAgreesExactly | src/session.rs:286-297 | From a state in step, stopping the process after a failed prompt: if and only if the prompt was not carried out after all and the known file is current or holds the same texts. |
| OlderFiles.StopAfterFailedEdit | src/session.rs:286-297 | The prompt of an edit fails and the idle process is stopped: the message is back in the file that will be resumed. |
| OlderFiles.AnyAbandonedBeginAgreesExactly | src/session.rs:146-205 | From any state, a request that gets no process or gives it up before the prompt leaves the record alone, and agrees if and only if the record was what the known file holds. |
| AgreementLimits.FirstTurn | src/session.rs:115-283 | The state from which two of the following runs start is where a new chat gets with its first turn. |
| AgreementLimits.RepeatedLostPromptIsKept | src/session.rs:603-607 | A run on from one undisturbed turn after which a lost prompt that repeats the last message stays recorded. |
| AgreementLimits.SupersededLostPromptIsKept | src/session.rs:244-249 | A run in which a lost prompt stays recorded because its turn was superseded. |
| AgreementLimits.ProcessLostAfterNewSession | src/session.rs:146-155 | A run after which the chat would be resumed from the file of the conversation it left. |
| LifecycleInvariant.AdvanceKeepsStructure | src/session.rs:356-429 | Every step of every task keeps the structure: each session that is not removed is the one in the map, locks are exclusive, and tasks can rely on what they saw under their lock. |
| Supersession.AdvanceKeepsTurns | src/session.rs:130-144 | Every step keeps the bookkeeping of turns, generations and tokens, for any number of outstanding turns. |
| Supersession.SupersessionProtocol | src/session.rs:223-230 | All outstanding turns of a session have different generations, at most one is the latest, the session is busy exactly when one is, and a turn is cancelled exactly when it is older or its chat was deleted. |
| Occupancy.ScanForRoom | src/session.rs:437-458 | The scan counts the sessions that are locked or have a live process and settles on a least recently used one among the unlocked, live and idle ones, if there is one. |
| Occupancy.ScanDecidesTheStep | src/session.rs:456-475 | What the scan found decides the step of the model: admit, evict exactly the victim, or turn the request away. |
| Occupancy.AdvanceKeepsLimit | src/session.rs:146-155 | Every step keeps the sessions with a live process or an admission within the limit. |
| LifecycleRuns.OneSessionPerChat | src/session.rs:400-429 | In every reachable state a chat has at most one session object that is not removed, the map holds it, and only such an object owns a process. |
| LifecycleRuns.NeverMoreThanMaxLive | src/session.rs:437-475 | In every reachable state the sessions with a live process and those admitted but not started are at most `max_live`. |
| LifecycleRuns.TurnsOfAChat | src/session.rs:223-254 | The same in every reachable state: all outstanding turns of a session have different generations, the session is busy exactly when one of them is the latest, and a turn is cancelled exactly when it is older or its chat was deleted. |
| LifecycleRuns.DeletionIsExclusive | src/session.rs:375-394 | A chat directory disappears only in a step that holds the lock of the removed session in the map, when no session object of that chat owns a process. |
| LifecycleRuns.DeletedUntilUnlisted | src/session.rs:356-394 | Until the map entry is gone, every session object of the chat is removed and the entry stays. |
| LifecycleRuns.OnlyIdleProcessesAreTaken | src/session.rs:286-297 | Idle stop and eviction take a process only from a session that is unlocked and not busy, and eviction only at the limit and from a least recently used one. |
| LifecycleRuns.WaitsGoUp | src/session.rs:356-409 | Every wait is for a lock ranked above all locks held; a second session lock is never waited for. |
| LifecycleRuns.SomeTaskCanStep | src/session.rs:356-409 | As long as there are tasks, one of them can step. |
| Ownership.NextKeepsOwned | src/session.rs:146-156 | Every step of every task keeps it that a process is in the slot of one session only, and that the process of a turn, the latest or an older one, is in no other session's slot. |
| Ownership.ProcessesAreNotShared | src/session.rs:146-156 | The same in every reachable state. |
| Ownership.NobodyRunsDuringSync | src/session.rs:250-261 | In every reachable state, while a turn is reconciled, and possibly aborted, no turn is the latest one of its session: no abort reaches a newer run. |
| Ownership.EndingReachesNoOther | src/session.rs:244-270 | In every reachable state, whatever a turn does to its process when it ends, every other session keeps its live process; ending an older turn changes nothing at all. |
| Processes.ProcessesWithinLimit | src/session.rs:437-475 | No process is leaked: in every reachable state each live process is in the slot of exactly one session, and there are at most `max_live` of them. |
| StepEffects.ProcessStopsExactly | src/session.rs:130-475 | Over all steps of all tasks, a live process is stopped if and only if: its running turn is taken over and does not stop, a control command fails, it is evicted, its turn ends unanswered or idle processes are not kept, it is idle for too long, its chat is deleted, or the proxy shuts down. |
| StepEffects.SlotsAreSettled | src/session.rs:261-271 | A failed request leaves no dead process in its slot, and the end of a turn not its own; it takes no other process out. |
| StepEffects.ChatsAreRemovedExactly | src/session.rs:304-394 | A chat is removed if and only if a deletion found its session in the map, or it expired without a process and without a turn; then its process, its turn and its directory go at once. |
| StepEffects.DirectoriesExactly | src/session.rs:375-485 | A directory is made only for a process that starts, and deleted only with its chat. |
| StepEffects.OnlyCurrentTurnsAreSaved | src/session.rs:244-254 | The end of a turn goes on to be reconciled and saved if and only if it is the latest one of a chat that was not deleted. |
| StepEffects.IndexIsWrittenUnderItsLock | src/session.rs:278-387 | The end of a turn and a deletion get past the index only while they hold its lock, and nobody else does. |
| LastUse.LastUsedIsLastTouch | src/session.rs:226-251 | Over every run, `last_used` of a session is the time of the last event that made it or that began or ended its latest turn. |
| LastUse.EvictionFollowsUse | src/session.rs:452-468 | When a process is evicted, no other idle one belongs to a chat whose latest turn began or ended earlier. |
| Progress.RequestsAreServed | src/session.rs:115-240 | A request that no lock hinders gets its turn within nine steps, also for a chat that was deleted meanwhile, unless there is no room, or the map holds a removed session for the chat. |
| Progress.RemovedTurnsAway | src/session.rs:120-128 | In that case it is turned away after four steps, and nothing has changed. |
| Progress.DeletionsComplete | src/session.rs:356-394 | A deletion that no lock hinders is complete within six steps, whatever it finds: entry, directory, process and every session of the chat. |
| Progress.ExpiryCompletes | src/session.rs:304-320 | The same for an expired chat, if and only if it has no process, runs no turn and is not being deleted; otherwise nothing happens to it. |
| Progress.IterateIsARun | src/session.rs:115-394 | These series of steps are runs of the model. |
| Removals.RemovedSessionsLeave | src/session.rs:356-394 | In every run in which no request is dropped, a removed session that the map still holds has a task that is about to take it out. |
| Removals.VanishingLeavesStuckExactly | src/api.rs:97-108 | Dropping a request leaves a removed session in the map for good if and only if it was the only one removing it. |
| Removals.StuckUntilDeletedAgain | src/session.rs:356-372 | Such a session stays through every step of every task but one: a task that deletes the chat again finds it. |
| Removals.StuckChatsStartNothing | src/session.rs:120-128 | Over every run from such a state in which nobody deletes the chat again, it stays stuck, all its session objects are removed and own no process, and every turn of the chat that still runs was running before: no request for it ever gets a turn. |
| Removals.DroppedDeletionSticks | src/session.rs:356-366 | A reachable state in which a chat is stuck like that. |
| FrameDecoder.Decoder.Push | src/rpc/frame.rs:40-63 | One line changes the pending sequence and returns a frame, nothing or an error as specified, for every line. |
| FrameDecoder.Decoder.PushOneChunk | src/rpc/frame.rs:65-118 | The same for one chunk, with every bound and every error. |
| FrameStream.StreamRoundTrip | src/rpc/frame.rs:40-118 | Any sequence of frames, each sent plain or split in any way within the limits, with blank lines anywhere, decodes to exactly that sequence with no error and nothing pending. |
| FrameStream.BlankLinesAreIgnored | src/rpc/frame.rs:41-44 | Blank lines, wherever they are and whatever came before, change nothing. |
| FrameStream.PiecesFit | src/bin/fake_omp.rs:218-225 | The chunks the test double cuts are a split of the frame into non-empty pieces, and no more of them than needed. |
| FrameStream.CutFramesFit | src/bin/fake_omp.rs:218-225 | A frame cut into pieces of one size may be sent if and only if it fits the number of chunks and the size the decoder accepts. |
| FrameStream.CutFramesComeThrough | src/bin/fake_omp.rs:218-225 | Then its chunks decode to exactly that frame. |
| FrameStream.OnlyGenuineFrames | src/rpc/frame.rs:65-118 | Over any history, also a corrupt one, a frame is returned for a chunk only if the latest values read are all its chunks in order and make exactly its bytes; what is pending stays within the bounds. |
| FrameStream.ErrorsStartAfresh | src/rpc/frame.rs:45-63 | An error leaves a fresh decoder if and only if the line parsed or nothing was pending. |
| FrameGrammar.AcceptedExactly | src/rpc/frame.rs:40-118 | A stream is read without an error and with nothing pending, as certain frames, if and only if every line that is not blank parses and the values are, in order, these frames, each plain or as all the chunks of one sequence within the limits. |
| FrameGrammar.NothingIsSwallowed | src/rpc/frame.rs:45-63 | A line that yields neither a frame nor an error is blank or the next chunk of a sequence; a plain frame inside a sequence is an error. |
| FrameGrammar.ErrorsSayWhy | src/rpc/frame.rs:45-118 | The error of a refused line: no JSON, no object, or chunks out of order, told from the text that had to be an object. |
| RpcProcess.RunIsSound | src/rpc/process.rs:183-212 | Every interleaving of requesters, reader and tool calls keeps the three invariants of senders, deliveries and death. |
| RpcProcess.NoRequestWaitsOnDeadProcess | src/rpc/process.rs:183-212 | Once the reader has cleared the map, no request past its alive check is still in it or waits in vain, and every later one fails its check. |
| RpcProcess.ResponsesReachTheirRequest | src/rpc/process.rs:278-299 | A request is answered only by a response that was read and names its id, no id is matched twice, and every response read was matched or became an event: none is invented. |
| RpcProcess.MatchedIsLostExactly | src/rpc/process.rs:183-212 | In every interleaving a matched response still reaches its request in some continuation, unless and only unless the request has failed, was dropped, or will fail its alive check. |
| RpcProcess.ReadIsLostExactly | src/rpc/process.rs:278-299 | A response is lost where it is read, instead of reaching a request or the events, if and only if its sender is still filed and its request was given up. |
| RpcProcess.AbandonedSwallowsItsResponse | src/rpc/process.rs:198-206 | A run in which the caller of a request is dropped and the answer goes nowhere. |
| RpcEnds.LateResponsesBecomeEvents | src/rpc/process.rs:198-205 | In every interleaving, a response that comes after its request has failed becomes an event. |
| RpcEnds.RequestsEndOnTheirOwn | src/rpc/process.rs:183-212 | Whatever the process does, a request ends within six steps of its own. |
| RpcEnds.AliveExactly | src/rpc/process.rs:219-270 | A process counts as alive if and only if its output has not ended and it was not shut down. |
| RpcEnds.CallsCancelledExactly | src/rpc/process.rs:300-343 | A host tool call is registered from when it is read until it is done, and cancelled if and only if omp asked for it meanwhile or the reader is gone. |
| RpcProcess.CallsAreCancelled | src/rpc/process.rs:270-276 | Every host call still registered when the reader is gone has been cancelled. |
| Translator.EventTranslator.OnEvent | src/translate.rs:42-116 | Each event produces the specified outputs and state. |
| Translator.EventTranslator.Thinking | src/translate.rs:118-130 | Reasoning goes where the mode says and opens a block at most once. |
| Translator.EventTranslator.CloseThink | src/translate.rs:132-137 | Afterwards no block is open, and a tag was put out exactly if one was. |
| Translator.ModesAgree | src/translate.rs:42-137 | Over every event sequence the three modes agree on usage, open tool calls, terminals and everything that is not reasoning, in order. |
| Translator.ReasoningStaysInPlace | src/translate.rs:118-130 | Field mode never writes reasoning into the answer, tag mode never into the field, and the third mode nowhere. |
| Translator.ThinkBlocksAreBracketed | src/translate.rs:42-137 | Over every event sequence tags alternate, thoughts are inside, everything else and every terminal output is outside. |
| Translation.TranslatorAnswers | src/translate.rs:42-116 | In every mode the outputs that are no reasoning are exactly the answer told from the events alone: texts, notices, tool results under the summary of the latest start of their call, and terminal outputs, in order. |
| Translation.TranslatorReasons | src/translate.rs:118-130 | In every mode the reasoning shown is exactly the thinking deltas and, in field mode, the tool summaries, none lost, repeated or reordered. |
| Translation.UsageAddsUp | src/translate.rs:60-70 | Usage is the sum over all finished assistant messages, and the total is the sum of both kinds. |
| TurnDriver.TurnRun.Advance | src/api.rs:156-191 | Up to the point where `next` returns or awaits `end_turn`: hands out the outputs one by one; a terminal output is taken, the rest is dropped, and the turn is ended with `aborted` exactly for an error. |
| TurnDriver.TurnRun.HandOut | src/api.rs:164-167 | After that await the terminal output is handed out, and nothing is ended again. |
| TurnDriver.TurnRun.Next | src/api.rs:156-191 | Both together; after a terminal output there is nothing more. |
| TurnDriver.TurnRun.Drop | src/api.rs:198-207 | Whenever the client goes away: a turn that is still open is ended once, as aborted; one that was ended is not ended again, even if its terminal output was not handed out. |
| TurnDriver.StreamResponse | src/api.rs:230-247 | However long the client reads and wherever it leaves, also while `end_turn` is awaited, what it reads and the one `end_turn` are determined by the outputs of the turn. |
| TurnDriver.FullResponse | src/api.rs:251-274 | The same for a reply in one piece: it is determined by the outputs up to the first terminal one, an error becomes a bad gateway, and the turn is ended exactly once. |
| TurnDriver.StreamedEndsOnce | src/api.rs:158-167 | The turn is ended exactly once, and not as aborted if and only if its first terminal output is `Done` and the client was there until it was taken. |
| TurnDriver.HearingDoneExactly | src/api.rs:158-167 | Hearing `Done` means not aborted; the converse fails if and only if the client leaves while the turn is ended after `Done`. |
| TurnDriver.LeavingWhileEnding | src/api.rs:158-167 | A superseded turn whose client leaves at that point. |
| TurnDriver.ThroughEndsOnce | src/api.rs:156-167 | What a turn hands out has at most one terminal output, and that one is last. |
| TurnDriver.TerminalsAndThinkBlocks | src/api.rs:178-188 | A terminal output made by the driver breaks the bracketing if and only if a block was open; translated ones never do. |
| TurnEnds.TerminalExactly | src/translate.rs:42-116 | Translated outputs contain a terminal one if and only if an event says that the agent is done, did nothing, refused the prompt or exited. |
| TurnEnds.EndsAreTold | src/api.rs:158-189 | For every turn and whatever comes after its first end: the client hears everything before and then this end, and the turn is ended as aborted if and only if it is lag, a closed channel, the time limit, a refused prompt or an exit. |
| TurnEnds.HearsWhatItWaitsFor | src/api.rs:156-191 | A client hears as many outputs as it waits for, up to the first end. |
| TurnEnds.LocalTurnsDrain | src/api.rs:171-177 | A turn without an agent run says what all the events say that are there, and is done. |
| TurnEnds.ReplyGrows | src/api.rs:251-259 | A reply in one piece holds the pieces of the answer and the reasoning of the field, in order and nothing else; an error takes the place of all of it. |
| TurnEnds.FieldHoldsReasoning | src/api.rs:255-263 | The reasoning field is exactly the reasoning the events tell of, and empty in the other modes. |
| TurnEnds.RepliesTellTheEnd | src/api.rs:251-274 | What a waiting client gets in one piece: everything said before the first end, or the error that ended the turn. |
| RefNames.RefRoundTrip | src/repo.rs:377-380 | The encoding of refs can be undone on every string. |
| RefNames.EncodedForm | src/repo.rs:377-380 | The encodings are exactly the strings without a slash in which every underscore begins one of the two codes. |
| RefNames.CheckoutNames | src/repo.rs:214-219 | For valid repository names different checkouts have different directories and markers, no marker is a directory of any checkout, and each name is a single path component. |
| RefNames.MirrorNames | src/repo.rs:275-283 | Repositories share neither mirrors nor unfinished clones, and no mirror is an unfinished clone of another repository. |
| Checkout.RunIsSound | src/repo.rs:206-261 | Every interleaving of checkouts and deletions of chats, interrupted anywhere, keeps the mirror, the markers and the lock sound and never undoes a complete checkout in a chat that is not deleted; a directory that was left empty starts anew. |
| Checkout.CheckoutsSurviveInterruption | src/repo.rs:219-254 | From a fresh directory, in a chat nobody began to delete or whose directory was left empty since, marker and directory together always mean a complete worktree; a mirror that exists is a complete clone; and forced twice, git is never stopped by a leftover. |
| Checkout.IntactExactly | src/session.rs:375-394 | Over every run a working directory is to be trusted if and only if every step of a deletion in it was followed by one that left it empty while nobody was filling it. |
| Checkout.CompletedStays | src/repo.rs:222-231 | In a working directory to be trusted, a complete checkout keeps its directory and commit whatever else happens, until someone deletes in that working directory. |
| Checkout.SomeoneCanGoOn | src/repo.rs:221-222 | As long as a checkout is not finished, some checkout can go on. |
| Checkout.OnlyInterruptionsFail | src/repo.rs:206-305 | Whatever was left behind and whatever others do, a checkout of a ref that can be resolved and filled fails only if it is interrupted itself. |
| Checkout.UninterruptedCheckoutCompletes | src/repo.rs:243-255 | From every reachable leftover state a checkout of a ref the origin offers ends complete within 17 steps. |
| Checkout.ReportIsExact | src/repo.rs:222-231 | The commit reported for an existing checkout is that of the directory if and only if the marker was not cut short too early. |
| CheckoutRuns.FewerForcesBlock | src/repo.rs:251-254 | From a fresh directory, a checkout interrupted in `worktree add` stops the next one of its ref when git is forced less than twice. |
| CheckoutRuns.ForcingTwiceIsNeeded | src/repo.rs:251-254 | Over all runs, no checkout is ever stopped by a leftover if and only if git is forced at least twice. |
| CheckoutRuns.TornMarkerNamesNoCommit | src/repo.rs:255 | A whole run from a fresh directory in which a checkout succeeds without naming a commit. |
| CheckoutRuns.HalfDeletedIsTaken | src/session.rs:375-394 | A whole run in which a half-deleted checkout is taken for complete. |
| CheckoutRuns.EmptiedWhileFilling | src/session.rs:375-394 | A whole run in which a directory is emptied between filling it and writing the marker: the checkout is reported as done, and is not there. |
| RepoTool.Files.SyncMirror | src/repo.rs:269-305 | Clone, rename and fetch in sequence are the steps of the model, and no checkout is touched. |
| RepoTool.Files.AddWorktree | src/repo.rs:251-255 | `worktree add` and the marker in sequence are the steps of the model, with both ways git can fail. |
| RepoTool.Files.CheckOut | src/repo.rs:206-261 | The whole operation on the files is the model's run of one checkout that nothing interrupts. |
| RepoTool.CheckOutSucceedsExactly | src/repo.rs:206-261 | An uninterrupted checkout succeeds if and only if there is a mirror afterwards and directory and marker were there before, or the mirror has the ref and git gets the blobs; its worktree is then whole if and only if no half-deleted one was found; what it leaves of the target is given in every case, and no other checkout loses anything. |
| RepoTool.FinishIsARun | src/repo.rs:206-261 | The uninterrupted operation is one of the runs of the concurrent model. |

## Left out

- Agreement.ProxyAndOmpAgree: covers the runs whose steps are `Safe`. Excluded are losing the process or the proxy while the known session file or index entry is older than the conversation, superseding a turn whose prompt was lost, a lost prompt that repeats the last stored text, a prompt that was carried out although it was reported as failed, and an entry id handed out twice. For single steps `AgreementLimits`, `SupersededTurns`, `Branching` and `OlderFiles` say exactly when they are needed, from any state; over whole runs the condition is sufficient only, since one deviation can undo another.
- Omp.Process.HandlePrompt: what omp answers to the model is not part of it, only which messages it stores, without their images; entry numbers follow the test double, which starts above the resumed entries.
- LifecycleRuns.NeverMoreThanMaxLive: the scan of the sessions and the taking of the victim are one step, as there is no await between them; threads that interleave between the single `try_lock`s are not modelled. A process that is being shut down counts as gone, although it may take a grace period.
- LifecycleRuns.DeletionIsExclusive: stopping the process, deleting the directory and marking the session removed are one step under the session's lock.
- Checkout.CheckoutsSurviveInterruption: files change only through checkouts and the deletion of chats; an agent that damages its own checkout is not modelled, and a git process that is killed stops at once. That a directory is left empty is one step.
- RefNames.CheckoutNames: limits on the length of file names are not modelled; the encoding can triple the length of a ref.
- FrameStream.StreamRoundTrip: JSON, UTF-8 and base64 (section 4 of RFC 4648) are parameters with their inverse laws; 64-bit sizes are assumed, so every announced length fits.
- RpcProcess.ResponsesReachTheirRequest: what a response says about success, and the ready and dialog frames, are not modelled.
- Translator.EventTranslator.OnEvent: the formatting of tool summaries and tool details is left to parameters of the events; usage counters are natural numbers.
- TurnDriver.FullResponse: the pieces of the answer are kept apart instead of being joined to one string, and the usage in the reply is not modelled.
- History.RebuildPrompt: removing tool details and trimming is a parameter, and so is the digest of a message.
- What the index holds in the lifecycle model: a deletion can come between the release of the session lock at the end of a turn and the insertion of its index entry, so nothing is claimed about the index there. `Conversation` writes it together with the end of the turn.
- A session file that is missing when a process is resumed: the files of a chat are never deleted while it is in use.
- Which keys belong to a chat id. When chats expire and in which order maintenance and chat deletion visit their keys: each visit is a task that can start at any time.
- What omp and the record come to when a request is dropped between two commands of `begin_turn`; in the lifecycle it can be dropped at any point. Of the time limits only that they can run out at any step.
- The list of tags and branches, the limits on it, and the messages of errors and warnings.
- HTTP routing, event-stream encoding, authentication, configuration, secrets and the check of the git environment.
