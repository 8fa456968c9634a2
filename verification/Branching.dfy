/** What a plan makes of the two records, whether they agreed before or not, and what becomes of a branch when omp hands out an
    entry id twice. A resumed process counts on from 100 above the number of its entries, so that can happen after an edit. */
module Branching {
  import opened Agreement
  import opened AgreementLimits
  import opened Conversation
  import opened History
  import opened Omp
  import opened Wrappers

  // ---- Where a branch cuts

  lemma PrefixPush(known: seq<ForwardedTurn>, index: nat)
    requires Branchable(known, index)
    ensures |SentThrough(known, index)| == |Sent(known[..index])| + 1
    ensures DropLast(SentThrough(known, index)) == Sent(known[..index])
  {
    SentThroughTurn(known, index);
  }

  /** An entry is found in a position no lower than the rank of its turn, and at the rank exactly if the entries before it are
      the texts sent before. */
  lemma FoundAt(known: seq<ForwardedTurn>, index: nat, entries: seq<Entry>) returns (pos: nat)
    requires EntryOf(known, index, entries).Some?
    ensures |Sent(known[..index])| <= pos < |entries| && EntryOf(known, index, entries) == Some(entries[pos].id)
    ensures pos == |Sent(known[..index])| <==> Texts(entries[..pos]) == Sent(known[..index])
  {
    var texts, rank := SentThrough(known, index), |Sent(known[..index])|;
    EntryOfMeaning(known, index, entries);
    PrefixPush(known, index);
    var at: seq<nat> :| Leftmost(texts, entries, at);
    pos := Last(at);
    EmbeddingsGrow(texts, entries, at, rank);
    if pos == rank {
      forall i | 0 <= i < rank
        ensures entries[i].text == Sent(known[..index])[i]
      {
        Packed(texts, entries, at, i);
        assert texts[i] == DropLast(texts)[i];
      }
    }
  }

  /** An embedding that ends at its own length leaves nothing out. */
  lemma {:induction false} Packed(texts: seq<string>, entries: seq<Entry>, at: seq<nat>, i: nat)
    requires Embeds(texts, entries, at) && i < |at| && Last(at) == |at| - 1
    ensures at[i] == i
  {
    EmbeddingsGrow(texts, entries, at, i);
    if i < |at| - 1 {
      RoomAbove(texts, entries, at, i);
    }
  }

  lemma {:induction false} RoomAbove(texts: seq<string>, entries: seq<Entry>, at: seq<nat>, i: nat)
    requires Embeds(texts, entries, at) && i < |at|
    ensures at[i] + (|at| - 1 - i) <= Last(at)
    decreases |at| - i
  {
    if i < |at| - 1 {
      RoomAbove(texts, entries, at, i + 1);
    }
  }

  /** A branch leaves agreement exactly if the first entry with the id that was found is the one of the turn's own rank: from
      a record that agrees, also if ids were handed out twice, and with distinct ids also from one that does not. */
  lemma BranchAgreesExactly(known: seq<ForwardedTurn>, index: nat, agent: Agent, disk: Disk)
    requires Agrees(known, agent.entries) || DistinctIds(agent.entries)
    ensures var found := EntryOf(known, index, agent.entries);
            found.Some? ==>
              && index < |known|
              && (Agrees(known[..index], Branch(agent, disk, found.value).0.entries) <==>
                    PositionOf(agent.entries, found.value) == |Sent(known[..index])|)
  {
    var entries, found := agent.entries, EntryOf(known, index, agent.entries);
    if found.Some? {
      var cut := PositionOf(entries, found.value);
      assert |Texts(entries[..cut])| == cut;
      if Agrees(known, entries) {
        ExactRank(known, index, entries);
      } else {
        var pos := FoundAt(known, index, entries);
        assert cut == pos;
      }
    }
  }

  /** Whether carrying out the plan makes omp hold what the record will say before the new prompt. */
  ghost predicate Restores(chat: Chat, turns: seq<UserTurn>)
    requires chat.omp.Some? && turns != []
  {
    var known, entries := chat.forwarded, chat.omp.value.entries;
    match PlanFor(known, turns)
    case Prompt => Agrees(known, entries)
    case Rebuild => known == [] ==> entries == []
    case BranchAt(index) =>
      match EntryOf(known, index, entries)
      case None => true
      case Some(id) => PositionOf(entries, id) == |Sent(known[..index])|
  }

  /** A follow-up leaves the two records as they are. A rebuild, also as the fallback of a branch, always brings them together,
      except that a chat with nothing on record keeps whatever omp holds. A branch does if its entry is where it should be. */
  lemma PlanAgreesExactly(chat: Chat, turns: seq<UserTurn>, rebuilt: string, fate: BeginFate)
    requires chat.omp.Some? && turns != [] && Prepare(chat, turns, rebuilt, fate).Ready?
    requires Agrees(chat.forwarded, chat.omp.value.entries) || DistinctIds(chat.omp.value.entries)
    ensures var prepared := Prepare(chat, turns, rebuilt, fate);
            Agrees(prepared.forwarded, prepared.agent.entries) <==> Restores(chat, turns)
  {
    StartOverAgreesExactly(chat, turns, rebuilt, fate);
    if PlanFor(chat.forwarded, turns).BranchAt? {
      var index := PlanFor(chat.forwarded, turns).index;
      if EntryOf(chat.forwarded, index, chat.omp.value.entries).Some? {
        BranchAgreesExactly(chat.forwarded, index, chat.omp.value, chat.disk);
      }
    }
  }

  lemma StartOverAgreesExactly(chat: Chat, turns: seq<UserTurn>, rebuilt: string, fate: BeginFate)
    requires chat.omp.Some? && turns != []
    ensures var prepared := StartOver(chat, turns, rebuilt, fate);
            prepared.Ready? ==>
              (Agrees(prepared.forwarded, prepared.agent.entries) <==> (chat.forwarded == [] ==> chat.omp.value.entries == []))
  {
    SentOfPlaceholders(Placeholders(DropLast(turns)));
    assert |Texts(chat.omp.value.entries)| == |chat.omp.value.entries|;
  }

  // ---- Ids

  /** No entry has an id that is still to be handed out. */
  predicate IdsGivenOut(agent: Agent) {
    forall i :: 0 <= i < |agent.entries| ==> agent.entries[i].id < agent.nextEntry
  }

  /** Only a resume can make an id repeat: the commands of one process keep its ids distinct and never hand out one again, whereas a
      process that is resumed starts like that exactly if the stored ids are below 100 above their number. */
  lemma OnlyResumesRepeatIds(agent: Agent, disk: Disk, id: nat, message: string, file: Option<nat>)
    requires DistinctIds(agent.entries) && IdsGivenOut(agent) && agent.file < |disk|
    ensures forall after | after in {Branch(agent, disk, id).0, NewSession(agent, disk).0, Store(agent, disk, message).0} ::
              DistinctIds(after.entries) && IdsGivenOut(after) && agent.nextEntry <= after.nextEntry
    ensures Store(agent, disk, message).0.nextEntry > Last(Store(agent, disk, message).0.entries).id >= agent.nextEntry
    ensures var stored := Stored(disk, file);
            IdsGivenOut(Start(disk, file).0) <==> forall i :: 0 <= i < |stored| ==> stored[i].id < |stored| + 100
  {
    var started, stored := Start(disk, file).0, Stored(disk, file);
    assert started.entries == stored && (stored == [] || started.nextEntry == |stored| + 100);
    assert DistinctIds(Branch(agent, disk, id).0.entries) && IdsGivenOut(Branch(agent, disk, id).0);
    assert DistinctIds(Store(agent, disk, message).0.entries) && IdsGivenOut(Store(agent, disk, message).0);
  }

  // ---- A run that hands out an id twice

  function Record(turn: UserTurn): ForwardedTurn {
    ForwardedTurn(turn.digest, Some(turn.text))
  }

  /** A chat with these turns whose agent holds these entries in the latest file, and no turn running. */
  function Settled(entries: seq<Entry>, nextEntry: nat, older: Disk, forwarded: seq<ForwardedTurn>, generation: nat): Chat {
    Chat(Some(Agent(entries, nextEntry, |older|)), older + [entries], forwarded, Some(|older|), false, generation,
         Some(IndexEntry(Some(|older|), forwarded)))
  }

  /** One undisturbed turn. */
  ghost function Turn(chat: Chat, turns: seq<UserTurn>, rebuilt: string): (ended: Chat)
    requires OnDisk(chat)
    ensures OnDisk(ended)
  {
    StepStaysOnDisk(chat, Begin(turns, rebuilt, WELL));
    var begun := Step(chat, Begin(turns, rebuilt, WELL));
    StepStaysOnDisk(begun, End(begun.generation, false, ENDS_WELL, false));
    Step(begun, End(begun.generation, false, ENDS_WELL, false))
  }

  /** A turn that finds its place prepared settles with its message as the last one in both records. */
  lemma TurnSettles(chat: Chat, turns: seq<UserTurn>, rebuilt: string, prepared: Prepared, older: Disk)
    requires OnDisk(chat) && !chat.busy && turns != [] && Launch(chat, WELL).1.None?
    requires prepared.Ready? && Prepare(Launch(chat, WELL).0, turns, rebuilt, WELL) == prepared
    requires prepared.agent.file == |older| && prepared.disk == older + [prepared.agent.entries]
    ensures var agent := prepared.agent;
            Turn(chat, turns, rebuilt)
            == Settled(agent.entries + [Entry(agent.nextEntry, prepared.message)], agent.nextEntry + 1, older,
                       prepared.forwarded + [ForwardedTurn(Last(turns).digest, Some(prepared.message))], chat.generation + 1)
  {
    var agent, entry := prepared.agent, Entry(prepared.agent.nextEntry, prepared.message);
    assert prepared.disk[|older| := agent.entries + [entry]] == older + [agent.entries + [entry]];
    SettlesWhenDone(
      Step(chat, Begin(turns, rebuilt, WELL)), agent.entries + [entry], agent.nextEntry + 1, older,
      prepared.forwarded + [ForwardedTurn(Last(turns).digest, Some(prepared.message))]);
  }

  lemma SettlesWhenDone(begun: Chat, entries: seq<Entry>, nextEntry: nat, older: Disk, forwarded: seq<ForwardedTurn>)
    requires begun.omp == Some(Agent(entries, nextEntry, |older|)) && begun.disk == older + [entries]
    requires begun.forwarded == forwarded && entries != [] && forwarded != []
    requires Last(forwarded).sentText == Some(Last(entries).text)
    ensures EndTurn(begun, begun.generation, false, ENDS_WELL, false)
            == Settled(entries, nextEntry, older, forwarded, begun.generation)
  {
  }

  /** The first message is edited after a resume: its entry gets id 101. */
  lemma EditAfterResume(a: UserTurn, x: UserTurn, rebuilt: string)
    ensures Turn(Step(AfterOneTurn(a), Stop), [x], rebuilt)
            == Settled([Entry(101, x.text)], 102, [[Entry(1, a.text)]], [Record(x)], 2)
  {
    var chat, entries := AfterOneTurn(a), [Entry(1, a.text)];
    EditFinds(a, x);
    var ready := chat.(omp := Some(Agent(entries, 101, 0)));
    assert Launch(Step(chat, Stop), WELL) == (ready, None);
    assert entries[..0] == [];
    var prepared := Prepare(ready, [x], rebuilt, WELL);
    assert prepared == Ready(Agent([], 101, 1), [entries] + [[]], [], [], x.text);
    TurnSettles(Step(chat, Stop), [x], rebuilt, prepared, [entries]);
    assert [] + [Entry(101, x.text)] == [Entry(101, x.text)] && [] + [Record(x)] == [Record(x)];
  }

  lemma EditFinds(a: UserTurn, x: UserTurn)
    ensures var chat := AfterOneTurn(a);
            && PlanFor(chat.forwarded, [x]) == BranchAt(0)
            && EntryOf(chat.forwarded, 0, chat.omp.value.entries) == Some(1)
            && Branch(chat.omp.value, chat.disk, 1).0.entries == []
  {
    var chat := AfterOneTurn(a);
    var entries := chat.omp.value.entries;
    assert DropLast([x]) == [];
    SentPush([], chat.forwarded[0]);
    assert [] + [chat.forwarded[0]] == chat.forwarded && [] + [a.text] == [a.text] == Texts(entries);
    assert chat.forwarded[..0] == [];
    ExactRank(chat.forwarded, 0, entries);
    BranchKeepsRank(chat.omp.value, chat.disk, 0);
    assert entries[..0] == [];
  }

  /** After another resume the next message gets the same id. */
  lemma SameIdAgain(a: UserTurn, x: UserTurn, b: UserTurn)
    ensures var older := [[Entry(1, a.text)]];
            Turn(Step(Settled([Entry(101, x.text)], 102, older, [Record(x)], 2), Stop), [x, b], b.text)
            == Settled([Entry(101, x.text), Entry(101, b.text)], 102, older, [Record(x), Record(b)], 3)
  {
    var older := [[Entry(1, a.text)]];
    var chat := Settled([Entry(101, x.text)], 102, older, [Record(x)], 2);
    assert DropLast([x, b]) == [x] && PlanFor(chat.forwarded, [x, b]) == Prompt;
    var ready := chat.(omp := Some(Agent([Entry(101, x.text)], 101, 1)));
    assert Launch(Step(chat, Stop), WELL) == (ready, None);
    TurnSettles(Step(chat, Stop), [x, b], b.text, Prepare(ready, [x, b], b.text, WELL), older);
    assert [Entry(101, x.text)] + [Entry(101, b.text)] == [Entry(101, x.text), Entry(101, b.text)];
    assert [Record(x)] + [Record(b)] == [Record(x), Record(b)];
  }

  /** Then an edit of the second message cuts away the first as well. */
  lemma EditCutsTooMuch(a: UserTurn, x: UserTurn, b: UserTurn, y: UserTurn, rebuilt: string)
    ensures var entries := [Entry(101, x.text), Entry(101, b.text)];
            var twice := Settled(entries, 102, [[Entry(1, a.text)]], [Record(x), Record(b)], 3);
            Turn(twice, [x, y], rebuilt)
            == Settled([Entry(102, y.text)], 103, [[Entry(1, a.text)], entries], [Record(x), Record(y)], 4)
  {
    var entries, known := [Entry(101, x.text), Entry(101, b.text)], [Record(x), Record(b)];
    var older := [[Entry(1, a.text)]];
    var twice := Settled(entries, 102, older, known, 3);
    SecondFound(x, b, y);
    assert Launch(twice, WELL) == (twice, None);
    assert entries[..0] == [] && known[..1] == [Record(x)];
    var prepared := Prepare(twice, [x, y], rebuilt, WELL);
    assert prepared == Ready(Agent([], 102, 2), older + [entries] + [[]], [Record(x)], [Record(x)], y.text);
    assert older + [entries] == [[Entry(1, a.text)], entries];
    TurnSettles(twice, [x, y], rebuilt, prepared, [[Entry(1, a.text)], entries]);
    assert [] + [Entry(102, y.text)] == [Entry(102, y.text)] && [Record(x)] + [Record(y)] == [Record(x), Record(y)];
  }

  lemma SecondFound(x: UserTurn, b: UserTurn, y: UserTurn)
    ensures var entries, known := [Entry(101, x.text), Entry(101, b.text)], [Record(x), Record(b)];
            && PlanFor(known, [x, y]) == BranchAt(1)
            && EntryOf(known, 1, entries) == Some(101) && PositionOf(entries, 101) == 0
  {
    var entries, known := [Entry(101, x.text), Entry(101, b.text)], [Record(x), Record(b)];
    assert DropLast([x, y]) == [x];
    TwoSent(x, b);
    assert Texts(entries) == [x.text, b.text];
    ExactRank(known, 1, entries);
    assert known[..1] == [Record(x)];
    TwoSent(x, x);
  }

  lemma TwoSent(x: UserTurn, y: UserTurn)
    ensures Sent([Record(x)]) == [x.text] && Sent([Record(x), Record(y)]) == [x.text, y.text]
  {
    SentPush([], Record(x));
    SentPush([Record(x)], Record(y));
    assert [] + [Record(x)] == [Record(x)] && [Record(x)] + [Record(y)] == [Record(x), Record(y)];
    assert [] + [x.text] == [x.text] && [x.text] + [y.text] == [x.text, y.text];
  }

  /** The run as a whole: a turn, a resume, an edit of it, a resume, a second turn and an edit of that. Nothing goes wrong on
      the way, and omp is left without the first message. */
  lemma RepeatedIdLosesMessages(a: UserTurn, x: UserTurn, b: UserTurn, y: UserTurn, rebuilt: string)
    ensures var edited := Turn(Step(AfterOneTurn(a), Stop), [x], rebuilt);
            var twice := Turn(Step(edited, Stop), [x, b], b.text);
            var ended := Turn(twice, [x, y], rebuilt);
            && Texts(Held(twice)) == Sent(twice.forwarded) == [x.text, b.text]
            && Texts(Held(ended)) == [y.text] && Sent(ended.forwarded) == [x.text, y.text]
  {
    EditAfterResume(a, x, rebuilt);
    SameIdAgain(a, x, b);
    EditCutsTooMuch(a, x, b, y, rebuilt);
    TwiceHolds([[Entry(1, a.text)]], x, b);
    OneHeld([[Entry(1, a.text)], [Entry(101, x.text), Entry(101, b.text)]], x, y);
  }

  lemma TwiceHolds(older: Disk, x: UserTurn, b: UserTurn)
    ensures var twice := Settled([Entry(101, x.text), Entry(101, b.text)], 102, older, [Record(x), Record(b)], 3);
            Texts(Held(twice)) == Sent(twice.forwarded) == [x.text, b.text]
  {
    TwoSent(x, b);
    assert Texts([Entry(101, x.text), Entry(101, b.text)]) == [x.text, b.text];
  }

  lemma OneHeld(older: Disk, x: UserTurn, y: UserTurn)
    ensures var ended := Settled([Entry(102, y.text)], 103, older, [Record(x), Record(y)], 4);
            Texts(Held(ended)) == [y.text] && Sent(ended.forwarded) == [x.text, y.text]
  {
    TwoSent(x, y);
    assert Texts([Entry(102, y.text)]) == [y.text];
  }
}
