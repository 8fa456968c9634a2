/** One chat as the proxy runs it: its record of the conversation, the process it drives and the session directory,
    with every step the session manager takes on them. A step is given the fate of the commands it sends, so a run of
    steps covers every reply, refusal, timeout and crash. */
module Conversation {
  import opened History
  import opened Omp
  import opened Wrappers

  datatype IndexEntry = IndexEntry(sessionFile: Option<nat>, forwarded: seq<ForwardedTurn>)

  /** `omp` is the live process in the slot, if there is one. */
  datatype Chat = Chat(
    omp: Option<Agent>,
    disk: Disk,
    forwarded: seq<ForwardedTurn>,
    sessionFile: Option<nat>,
    busy: bool,
    generation: nat,
    index: Option<IndexEntry>)

  const NEW_CHAT := Chat(None, [], [], None, false, 0, None)

  /** How omp reacts to a command. A failed command may still have been carried out (its answer came too late), and the
      process may be gone afterwards. */
  datatype Reply = Answered | Failed(applied: bool, exited: bool)

  /** What happens around one `begin_turn`: does the superseded turn stop in time, is there room for a process, how do
      the commands end, and does omp keep the prompt it acknowledged? */
  datatype BeginFate = BeginFate(
    stopped: bool, admitted: bool, spawn: Reply, fetch: Reply, branch: Reply, reset: Reply, prompt: Reply, kept: bool)

  datatype EndFate = EndFate(abort: Reply, fetch: Reply, state: Reply)

  datatype Outcome = BadRequest | Unavailable | Broken | Started(message: string, images: seq<Image>)

  // ---- begin_turn

  /** A newer request cancels the running turn first. */
  function Supersede(chat: Chat, stopped: bool): Chat {
    if !chat.busy then chat
    else
      chat.(busy := false, generation := chat.generation + 1, omp := if stopped then chat.omp else None)
  }

  /** Starts or resumes a process when none is live; the second value is the error, if any. */
  function Launch(chat: Chat, fate: BeginFate): (Chat, Option<Outcome>) {
    if chat.omp.Some? then (chat, None)
    else if !fate.admitted then (chat, Some(Unavailable))
    else
      var (agent, disk) := Start(chat.disk, chat.sessionFile);
      if fate.spawn.Answered? then
        (chat.(omp := Some(agent), disk := disk, sessionFile := Some(agent.file)), None)
      else
        (chat.(disk := if fate.spawn.applied then disk else chat.disk), Some(Broken))
  }

  /** Either everything is in place to prompt, or a control command failed and the process is given up. `synced` is what
      omp is known to hold, `forwarded` what the chat becomes once the prompt is accepted. */
  datatype Prepared =
    | Ready(agent: Agent, disk: Disk, synced: seq<ForwardedTurn>, forwarded: seq<ForwardedTurn>, message: string)
    | GivenUp(disk: Disk, synced: seq<ForwardedTurn>)

  function Placeholders(turns: seq<UserTurn>): seq<ForwardedTurn> {
    seq(|turns|, i requires 0 <= i < |turns| => ForwardedTurn(turns[i].digest, None))
  }

  function StartOver(chat: Chat, turns: seq<UserTurn>, rebuilt: string, fate: BeginFate): Prepared
    requires chat.omp.Some? && turns != []
  {
    var placeholders := Placeholders(DropLast(turns));
    if chat.forwarded == [] then Ready(chat.omp.value, chat.disk, [], placeholders, rebuilt)
    else
      var (agent, disk) := NewSession(chat.omp.value, chat.disk);
      if fate.reset.Answered? then Ready(agent, disk, [], placeholders, rebuilt)
      else GivenUp(if fate.reset.applied then disk else chat.disk, chat.forwarded)
  }

  ghost function Prepare(chat: Chat, turns: seq<UserTurn>, rebuilt: string, fate: BeginFate): Prepared
    requires chat.omp.Some? && turns != []
  {
    match PlanFor(chat.forwarded, turns)
    case Prompt => Ready(chat.omp.value, chat.disk, chat.forwarded, chat.forwarded, Last(turns).text)
    case Rebuild => StartOver(chat, turns, rebuilt, fate)
    case BranchAt(index) =>
      if fate.fetch.Failed? then GivenUp(chat.disk, chat.forwarded)
      else
        match EntryOf(chat.forwarded, index, chat.omp.value.entries)
        case None => StartOver(chat, turns, rebuilt, fate)
        case Some(id) =>
          var (agent, disk) := Branch(chat.omp.value, chat.disk, id);
          if fate.branch.Answered? then
            Ready(agent, disk, chat.forwarded[..index], chat.forwarded[..index], Last(turns).text)
          else
            GivenUp(if fate.branch.applied then disk else chat.disk, chat.forwarded)
  }

  function Send(chat: Chat, prepared: Prepared, last: UserTurn, fate: BeginFate): (Chat, Outcome)
    requires prepared.Ready? ==> prepared.agent.file < |prepared.disk|
  {
    match prepared
    case GivenUp(disk, synced) => (chat.(omp := None, disk := disk, forwarded := synced), Broken)
    case Ready(agent, disk, synced, forwarded, message) =>
      var (keeping, stored) := Store(agent, disk, message);
      if fate.prompt.Answered? then
        (chat.(omp := Some(if fate.kept then keeping else agent),
               disk := if fate.kept then stored else disk,
               forwarded := forwarded + [ForwardedTurn(last.digest, Some(message))],
               busy := true,
               generation := chat.generation + 1),
         Started(message, last.images))
      else
        (chat.(omp := if fate.prompt.exited then None else Some(if fate.prompt.applied then keeping else agent),
               disk := if fate.prompt.applied then stored else disk,
               forwarded := synced),
         Broken)
  }

  ghost function BeginTurn(chat: Chat, turns: seq<UserTurn>, rebuilt: string, fate: BeginFate): (Chat, Outcome)
    requires OnDisk(chat)
  {
    if turns == [] then (chat, BadRequest)
    else
      var (ready, error) := Launch(Supersede(chat, fate.stopped), fate);
      if error.Some? then (ready, error.value)
      else Send(ready, Prepare(ready, turns, rebuilt, fate), Last(turns), fate)
  }

  /** A live process keeps its session file up to date, and the files it is known by exist. */
  ghost predicate OnDisk(chat: Chat) {
    && (chat.omp.Some? ==> Saved(chat.omp.value, chat.disk))
    && (chat.sessionFile.Some? ==> chat.sessionFile.value < |chat.disk|)
    && (chat.index.Some? && chat.index.value.sessionFile.Some? ==> chat.index.value.sessionFile.value < |chat.disk|)
  }

  // ---- end_turn

  /** Drops the last turn when the last message omp stored is not the one that was sent. */
  function Reconcile(forwarded: seq<ForwardedTurn>, stored: seq<Entry>): seq<ForwardedTurn> {
    if stored == [] then []
    else if forwarded != [] && Last(forwarded).sentText.Some? && Last(stored).text != Last(forwarded).sentText.value then
      var kept := DropLast(forwarded);
      if exists i :: 0 <= i < |kept| && kept[i].sentText.Some? then kept else []
    else forwarded
  }

  /** Compares the last recorded message with the last one omp stored, and only that one, and then asks for the session file;
      the second value is false when omp did not respond to one of these. */
  function SyncAfterTurn(chat: Chat, aborted: bool, fate: EndFate): (Chat, bool)
    requires chat.omp.Some?
  {
    if aborted && fate.abort.Failed? then (chat, false)
    else if fate.fetch.Failed? then (chat, false)
    else
      var reconciled := chat.(forwarded := Reconcile(chat.forwarded, chat.omp.value.entries));
      if fate.state.Failed? then (reconciled, false)
      else (reconciled.(sessionFile := Some(chat.omp.value.file)), true)
  }

  function EndTurn(chat: Chat, generation: nat, aborted: bool, fate: EndFate, stopIdle: bool): Chat {
    if chat.generation != generation then chat
    else
      var ended := chat.(busy := false);
      var synced :=
        if ended.omp.None? then ended
        else
          var (answer, ok) := SyncAfterTurn(ended, aborted, fate);
          if ok && !stopIdle then answer else answer.(omp := None);
      synced.(index := Some(IndexEntry(synced.sessionFile, synced.forwarded)))
  }

  // ---- Runs

  /** Everything that can happen to a chat, in any order: turns begin (also while another one runs) and end, the process
      exits, it is stopped when idle or evicted, and the proxy restarts from its index. */
  datatype Action =
    | Begin(turns: seq<UserTurn>, rebuilt: string, begin: BeginFate)
    | End(generation: nat, aborted: bool, end: EndFate, stopIdle: bool)
    | Exit
    | Stop
    | Restart

  /** What a proxy that starts finds about the chat. */
  function SavedEntry(chat: Chat): IndexEntry {
    if chat.index.Some? then chat.index.value else IndexEntry(None, [])
  }

  ghost function Step(chat: Chat, action: Action): Chat
    requires OnDisk(chat)
  {
    match action
    case Begin(turns, rebuilt, fate) => BeginTurn(chat, turns, rebuilt, fate).0
    case End(generation, aborted, fate, stopIdle) => EndTurn(chat, generation, aborted, fate, stopIdle)
    case Exit => chat.(omp := None)
    case Stop => if chat.busy then chat else chat.(omp := None)
    case Restart =>
      var saved := SavedEntry(chat);
      Chat(None, chat.disk, saved.forwarded, saved.sessionFile, false, 0, chat.index)
  }

  lemma StepStaysOnDisk(chat: Chat, action: Action)
    requires OnDisk(chat)
    ensures OnDisk(Step(chat, action))
    ensures |chat.disk| <= |Step(chat, action).disk|
  {
    match action
    case Begin(turns, rebuilt, fate) =>
      BeginStaysOnDisk(chat, turns, rebuilt, fate);
    case _ =>
  }

  lemma BeginStaysOnDisk(chat: Chat, turns: seq<UserTurn>, rebuilt: string, fate: BeginFate)
    requires OnDisk(chat)
    ensures OnDisk(BeginTurn(chat, turns, rebuilt, fate).0)
    ensures |chat.disk| <= |BeginTurn(chat, turns, rebuilt, fate).0.disk|
  {
    if turns != [] {
      var ready, error := LaunchStaysOnDisk(Supersede(chat, fate.stopped), fate);
      if error.None? {
        PrepareStaysOnDisk(ready, turns, rebuilt, fate);
        SendStaysOnDisk(ready, Prepare(ready, turns, rebuilt, fate), Last(turns), fate);
      }
    }
  }

  lemma SendStaysOnDisk(chat: Chat, prepared: Prepared, last: UserTurn, fate: BeginFate)
    requires OnDisk(chat) && |chat.disk| <= |prepared.disk|
    requires prepared.Ready? ==> Saved(prepared.agent, prepared.disk)
    ensures OnDisk(Send(chat, prepared, last, fate).0)
    ensures |prepared.disk| == |Send(chat, prepared, last, fate).0.disk|
  {
  }

  lemma LaunchStaysOnDisk(chat: Chat, fate: BeginFate) returns (ready: Chat, error: Option<Outcome>)
    requires OnDisk(chat)
    ensures (ready, error) == Launch(chat, fate)
    ensures OnDisk(ready) && |chat.disk| <= |ready.disk|
    ensures error.None? <==> ready.omp.Some?
  {
    ready, error := Launch(chat, fate).0, Launch(chat, fate).1;
  }

  lemma PrepareStaysOnDisk(chat: Chat, turns: seq<UserTurn>, rebuilt: string, fate: BeginFate)
    requires OnDisk(chat) && chat.omp.Some? && turns != []
    ensures var prepared := Prepare(chat, turns, rebuilt, fate);
            && |chat.disk| <= |prepared.disk|
            && chat.disk <= prepared.disk
            && (prepared.Ready? ==> Saved(prepared.agent, prepared.disk))
  {
  }

  ghost function After(chat: Chat, run: seq<Action>): Chat
    requires OnDisk(chat)
    ensures OnDisk(After(chat, run))
    decreases |run|
  {
    if run == [] then chat
    else
      StepStaysOnDisk(chat, run[0]);
      After(Step(chat, run[0]), run[1..])
  }
}
