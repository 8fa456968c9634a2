/** What a request comes to, told before it is made: whether its turn starts, what omp is sent, and what the end of the turn
    leaves for the next request, another process and another proxy. */
module TurnStarts {
  import opened Agreement
  import opened Conversation
  import opened History
  import opened OlderFiles
  import opened Omp
  import opened RequestText
  import opened Wrappers

  // ---- Whether a turn starts

  /** A request finds a live process, unless it takes over a turn that does not stop. */
  predicate FindsLive(chat: Chat, fate: BeginFate) {
    chat.omp.Some? && (chat.busy ==> fate.stopped)
  }

  /** The messages omp holds when the request is prepared: those of the live process, or those it is resumed with. */
  function Found(chat: Chat, fate: BeginFate): seq<Entry> {
    if FindsLive(chat, fate) then chat.omp.value.entries else Stored(chat.disk, chat.sessionFile)
  }

  /** The digests of all turns of the request but the last. */
  function Earlier(turns: seq<UserTurn>): seq<string>
    requires turns != []
  {
    DropLast(TurnDigests(turns))
  }

  /** The request drops turns that the chat has on record. */
  predicate Drops(chat: Chat, turns: seq<UserTurn>)
    requires turns != []
  {
    Earlier(turns) < Digests(chat.forwarded)
  }

  /** The entry to branch at, when the request drops turns. */
  ghost function Target(chat: Chat, turns: seq<UserTurn>, fate: BeginFate): Option<nat>
    requires turns != []
  {
    EntryOf(chat.forwarded, |turns| - 1, Found(chat, fate))
  }

  /** omp goes on with its conversation: nothing is dropped, or what is dropped can be branched away. */
  ghost predicate GoesOn(chat: Chat, turns: seq<UserTurn>, fate: BeginFate)
    requires turns != []
  {
    Earlier(turns) == Digests(chat.forwarded) || (Drops(chat, turns) && Target(chat, turns, fate).Some?)
  }

  /** Every control command that the request needs is answered: the list of entries if turns are dropped, then the branch if
      there is an entry, and a new session if omp does not go on and anything is on record. */
  ghost predicate Controlled(chat: Chat, turns: seq<UserTurn>, fate: BeginFate)
    requires turns != []
  {
    && (Drops(chat, turns) ==> fate.fetch.Answered?)
    && (Drops(chat, turns) && GoesOn(chat, turns, fate) ==> fate.branch.Answered?)
    && (!GoesOn(chat, turns, fate) && chat.forwarded != [] ==> fate.reset.Answered?)
  }

  lemma LaunchFinds(chat: Chat, fate: BeginFate)
    requires OnDisk(chat)
    ensures var (ready, error) := Launch(Supersede(chat, fate.stopped), fate);
            && error == (if FindsLive(chat, fate) then None
                         else if !fate.admitted then Some(Unavailable)
                         else if fate.spawn.Failed? then Some(Broken)
                         else None)
            && ready.forwarded == chat.forwarded
            && (error.None? ==> ready.omp.Some? && ready.omp.value.entries == Found(chat, fate))
  {
  }

  lemma PlanFinds(chat: Chat, turns: seq<UserTurn>)
    requires turns != []
    ensures match PlanFor(chat.forwarded, turns)
            case Prompt => Earlier(turns) == Digests(chat.forwarded)
            case BranchAt(index) => Drops(chat, turns) && index == |turns| - 1 && chat.forwarded != []
            case Rebuild => Earlier(turns) != Digests(chat.forwarded) && !Drops(chat, turns)
  {
    PlanMeaning(chat.forwarded, turns);
  }

  lemma PreparedExactly(chat: Chat, ready: Chat, turns: seq<UserTurn>, rebuilt: string, fate: BeginFate)
    requires turns != [] && ready.forwarded == chat.forwarded
    requires ready.omp.Some? && ready.omp.value.entries == Found(chat, fate)
    ensures var prepared := Prepare(ready, turns, rebuilt, fate);
            && (prepared.Ready? <==> Controlled(chat, turns, fate))
            && (prepared.Ready? ==> prepared.message == if GoesOn(chat, turns, fate) then Last(turns).text else rebuilt)
  {
    PlanFinds(chat, turns);
  }

  /** What a request comes to, exactly: bad without a user message; unavailable if there is no live process and no room for one;
      otherwise its turn starts if and only if a process can be had and every command it needs is answered. Then omp is sent the
      last message of the request if it goes on, with the images, and the rebuild prompt if it starts over. */
  lemma OutcomeExactly(chat: Chat, turns: seq<UserTurn>, rebuilt: string, fate: BeginFate)
    requires OnDisk(chat)
    ensures BeginTurn(chat, turns, rebuilt, fate).1 ==
              if turns == [] then BadRequest
              else if !FindsLive(chat, fate) && !fate.admitted then Unavailable
              else if (!FindsLive(chat, fate) && fate.spawn.Failed?) || !Controlled(chat, turns, fate) || fate.prompt.Failed? then
                Broken
              else
                Started(if GoesOn(chat, turns, fate) then Last(turns).text else rebuilt, Last(turns).images)
  {
    if turns != [] {
      LaunchFinds(chat, fate);
      var ready, error := LaunchStaysOnDisk(Supersede(chat, fate.stopped), fate);
      if error.None? {
        PrepareStaysOnDisk(ready, turns, rebuilt, fate);
        PreparedExactly(chat, ready, turns, rebuilt, fate);
      }
    }
  }

  /** What omp is sent, in terms of the messages of the request: their last user message if omp goes on; otherwise the transcript of
      what was said before it, which covers exactly the turns that stay as placeholders, and then the message. */
  lemma OmpIsSent(
    chat: Chat, before: seq<Message>, request: Message, after: seq<Message>, sha: string -> string, tidy: string -> string,
    fate: BeginFate)
    requires OnDisk(chat) && request.role == "user" && forall i :: 0 <= i < |after| ==> after[i].role != "user"
    ensures var messages := before + [request] + after;
            var turns, turn := Turns(messages, sha), TurnOf(request, sha);
            && turns == Turns(before, sha) + [turn]
            && var (begun, outcome) := BeginTurn(chat, turns, RebuildText(messages, turn.text, tidy), fate);
               outcome.Started? ==>
                 && outcome.images == turn.images
                 && Digests(begun.forwarded) == TurnDigests(turns)
                 && outcome.message ==
                      if GoesOn(chat, turns, fate) || Transcript(before, tidy) == "" then turn.text
                      else CONTEXT_HEAD + Transcript(before, tidy) + CONTEXT_TAIL + turn.text
  {
    var messages, turn := before + [request] + after, TurnOf(request, sha);
    TurnsGrow(before, request, sha);
    NoMoreTurns(before + [request], after, sha);
    RebuildReads(before, request, after, turn.text, tidy);
    OutcomeExactly(chat, Turns(messages, sha), RebuildText(messages, turn.text, tidy), fate);
    BeginRecordsRequest(chat, Turns(messages, sha), RebuildText(messages, turn.text, tidy), fate);
  }

  lemma {:induction false} NoMoreTurns(messages: seq<Message>, after: seq<Message>, sha: string -> string)
    requires forall i :: 0 <= i < |after| ==> after[i].role != "user"
    ensures Turns(messages + after, sha) == Turns(messages, sha)
  {
    if after == [] {
      assert messages + after == messages;
    } else {
      NoMoreTurns(messages, DropLast(after), sha);
      var fewer, all := messages + DropLast(after), messages + after;
      assert DropLast(all) == fewer && Last(all) == Last(after) == after[|after| - 1];
      assert Turns(all, sha) == Turns(fewer, sha) + [];
      SameTurns(Turns(all, sha), Turns(fewer, sha));
    }
  }

  lemma SameTurns(a: seq<UserTurn>, b: seq<UserTurn>)
    requires a == b + []
    ensures a == b
  {
  }

  // ---- What the end of a turn leaves

  predicate AllAnswered(aborted: bool, fate: EndFate) {
    (aborted ==> fate.abort.Answered?) && fate.fetch.Answered? && fate.state.Answered?
  }

  /** However its turn ends, aborted or not, answered or not: the chat is free, its index entry is current, so that a proxy that
      starts now, and any after it, finds it as it is, and its process lives on exactly if omp answered everything and idle processes are kept. */
  lemma EndIsSaved(chat: Chat, aborted: bool, fate: EndFate, stopIdle: bool)
    requires OnDisk(chat)
    ensures var ended := EndTurn(chat, chat.generation, aborted, fate, stopIdle);
            && !ended.busy && ended.generation == chat.generation && ended.disk == chat.disk
            && ended.index.Some? && IndexIsCurrent(ended)
            && (ended.omp == if AllAnswered(aborted, fate) && !stopIdle then chat.omp else None)
            && OnDisk(ended)
            && var restarted := Step(ended, Restart);
               && (restarted.forwarded, restarted.sessionFile) == (ended.forwarded, ended.sessionFile)
               && restarted.omp.None? && !restarted.busy && OnDisk(restarted) && Step(restarted, Restart) == restarted
  {
  }

  /** The end of a turn that was taken over does nothing, whatever became of the request that took over: by then the generation is
      another one. */
  lemma TakenOverEndDoesNothing(
    chat: Chat, turns: seq<UserTurn>, rebuilt: string, begin: BeginFate, aborted: bool, end: EndFate, stopIdle: bool)
    requires OnDisk(chat) && chat.busy && turns != []
    ensures var begun := BeginTurn(chat, turns, rebuilt, begin).0;
            EndTurn(begun, chat.generation, aborted, end, stopIdle) == begun
  {
    var ready, error := LaunchStaysOnDisk(Supersede(chat, begin.stopped), begin);
    if error.None? {
      PrepareStaysOnDisk(ready, turns, rebuilt, begin);
    }
  }

  /** Stopping idle processes takes the process of a chat exactly if no turn runs, and nothing else. */
  lemma StopTakesIdleOnly(chat: Chat)
    requires OnDisk(chat)
    ensures Step(chat, Stop) == chat.(omp := if chat.busy then chat.omp else None)
  {
  }
}
