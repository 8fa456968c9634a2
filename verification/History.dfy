/** How an incoming chat history maps onto what omp already holds: the user turns of a request, the plan (prompt, branch
    or rebuild), and the search for the entry to branch at. */
module History {
  import opened Omp
  import opened Wrappers

  datatype Part = TextPart(text: string) | ImagePart(url: string) | OtherPart

  datatype Content = Missing | Plain(text: string) | Parts(parts: seq<Part>)

  datatype Message = Message(role: string, content: Content)

  datatype Image = Image(mimeType: string, data: string)

  /** `digest` labels the text and image URLs of the message; digests are only ever compared for equality. */
  datatype UserTurn = UserTurn(digest: string, text: string, images: seq<Image>)

  /** An element of the proxy's record. A turn without `sentText` is a placeholder: it is covered by the transcript that a
      later turn carried. */
  datatype ForwardedTurn = ForwardedTurn(digest: string, sentText: Option<string>)

  datatype Plan = Prompt | BranchAt(index: nat) | Rebuild

  // ---- What the proxy remembers

  /** The texts omp received on their own, in order. */
  function Sent(known: seq<ForwardedTurn>): seq<string> {
    if known == [] then []
    else
      Sent(DropLast(known)) +
      (match Last(known).sentText
       case Some(text) => [text]
       case None => [])
  }

  /** The texts sent up to and including turn `index`. */
  function SentThrough(known: seq<ForwardedTurn>, index: nat): seq<string>
    requires index < |known|
  {
    Sent(known[..index + 1])
  }

  function Digests(known: seq<ForwardedTurn>): seq<string> {
    seq(|known|, i requires 0 <= i < |known| => known[i].digest)
  }

  function TurnDigests(turns: seq<UserTurn>): seq<string> {
    seq(|turns|, i requires 0 <= i < |turns| => turns[i].digest)
  }

  /** Turns that reached omp only inside a rebuild transcript are always followed by the turn that carried it. */
  ghost predicate Rooted(known: seq<ForwardedTurn>) {
    && (forall i, j :: 0 <= i < j < |known| && known[i].sentText.Some? ==> known[j].sentText.Some?)
    && (known != [] ==> Last(known).sentText.Some?)
  }

  /** `Rooted` in block form: nothing at all, or placeholders followed by at least one turn sent on its own. */
  lemma RootedIsABlock(known: seq<ForwardedTurn>)
    ensures Rooted(known) <==> known == [] || exists k: nat :: Block(known, k)
  {
    if Rooted(known) && known != [] {
      var k: nat := |known| - 1;
      while 0 < k && known[k - 1].sentText.Some?
        invariant k < |known|
        invariant known[k].sentText.Some?
      {
        k := k - 1;
      }
      assert Block(known, k);
    } else if k: nat :| Block(known, k) {
      assert forall i :: 0 <= i < |known| ==> (known[i].sentText.Some? <==> k <= i);
    }
  }

  /** `k` placeholders followed by at least one turn, all of them sent on their own. */
  ghost predicate Block(known: seq<ForwardedTurn>, k: nat) {
    k < |known| && forall i :: 0 <= i < |known| ==> (known[i].sentText.Some? <==> k <= i)
  }

  lemma {:induction false} SentPush(known: seq<ForwardedTurn>, turn: ForwardedTurn)
    ensures Sent(known + [turn]) == Sent(known) + (if turn.sentText.Some? then [turn.sentText.value] else [])
  {
    assert DropLast(known + [turn]) == known;
  }

  lemma {:induction false} SentPrefix(known: seq<ForwardedTurn>, n: nat)
    requires n <= |known|
    ensures Sent(known[..n]) <= Sent(known)
    decreases |known|
  {
    if n == |known| {
      assert known[..n] == known;
    } else {
      SentPrefix(DropLast(known), n);
      assert DropLast(known)[..n] == known[..n];
    }
  }

  lemma {:induction false} SentOfPlaceholders(known: seq<ForwardedTurn>)
    requires forall i :: 0 <= i < |known| ==> known[i].sentText.None?
    ensures Sent(known) == []
  {
    if known != [] {
      SentOfPlaceholders(DropLast(known));
    }
  }

  // ---- Planning

  function PlanFor(known: seq<ForwardedTurn>, incoming: seq<UserTurn>): (plan: Plan)
    ensures plan.BranchAt? ==> plan.index < |known| && plan.index < |incoming|
  {
    if incoming == [] then Rebuild
    else
      var prefix := DropLast(incoming);
      if |known| == |prefix| && PrefixMatches(known, prefix) then Prompt
      else if |known| > |prefix| && PrefixMatches(known, prefix) then BranchAt(|prefix|)
      else Rebuild
  }

  predicate PrefixMatches(known: seq<ForwardedTurn>, prefix: seq<UserTurn>) {
    |known| >= |prefix| && forall i :: 0 <= i < |prefix| ==> known[i].digest == prefix[i].digest
  }

  /** The plan in terms of histories: prompt exactly when the known history is the incoming one without its last
      message, branch exactly when it properly extends it, rebuild in every other case. */
  lemma PlanMeaning(known: seq<ForwardedTurn>, incoming: seq<UserTurn>)
    requires incoming != []
    ensures PlanFor(known, incoming).Prompt? <==> Digests(known) == DropLast(TurnDigests(incoming))
    ensures PlanFor(known, incoming).BranchAt? <==> DropLast(TurnDigests(incoming)) < Digests(known)
    ensures PlanFor(known, incoming).BranchAt? ==>
              var index := PlanFor(known, incoming).index;
              && index == |incoming| - 1 < |known|
              && Digests(known[..index]) == DropLast(TurnDigests(incoming))
    ensures PlanFor(known, incoming).Rebuild? <==> !(DropLast(TurnDigests(incoming)) <= Digests(known))
  {
    var prefix := DropLast(incoming);
    var earlier := DropLast(TurnDigests(incoming));
    assert |earlier| == |prefix| && forall i :: 0 <= i < |prefix| ==> earlier[i] == prefix[i].digest;
    assert PrefixMatches(known, prefix) <==> earlier <= Digests(known) by {
      if PrefixMatches(known, prefix) {
        assert earlier == Digests(known)[..|prefix|];
      } else if |known| >= |prefix| {
        var i :| 0 <= i < |prefix| && known[i].digest != prefix[i].digest;
        assert earlier[i] != Digests(known)[i];
      }
    }
  }

  // ---- Finding the entry to branch at

  /** `at` places the texts, in order, at entries with exactly these texts. */
  ghost predicate Embeds(texts: seq<string>, entries: seq<Entry>, at: seq<nat>) {
    && |at| == |texts|
    && (forall i :: 0 <= i < |at| ==> at[i] < |entries| && entries[at[i]].text == texts[i])
    && (forall i, j :: 0 <= i < j < |at| ==> at[i] < at[j])
  }

  /** An embedding that ends no later than any other. */
  ghost predicate Leftmost(texts: seq<string>, entries: seq<Entry>, at: seq<nat>) {
    && texts != []
    && Embeds(texts, entries, at)
    && forall other: seq<nat> :: Embeds(texts, entries, other) ==> Last(at) <= Last(other)
  }

  /** A turn can be branched to when it was sent on its own and did not carry a rebuild transcript. */
  predicate Branchable(known: seq<ForwardedTurn>, index: nat) {
    && index < |known|
    && known[index].sentText.Some?
    && (index > 0 ==> known[index - 1].sentText.Some?)
  }

  /** The entry where the leftmost embedding of the texts sent up to turn `index` ends. */
  ghost function EntryOf(known: seq<ForwardedTurn>, index: nat, entries: seq<Entry>): Option<nat> {
    if Branchable(known, index) && exists at: seq<nat> :: Leftmost(SentThrough(known, index), entries, at) then
      var at: seq<nat> :| Leftmost(SentThrough(known, index), entries, at);
      Some(entries[Last(at)].id)
    else
      None
  }

  /** The first entry with this text from `start` on. */
  function NextWith(entries: seq<Entry>, start: nat, text: string): (found: Option<nat>)
    ensures found.Some? ==> start <= found.value < |entries| && entries[found.value].text == text
    ensures forall k :: start <= k < (if found.Some? then found.value else |entries|) ==> entries[k].text != text
    decreases |entries| - start
  {
    if start >= |entries| then None
    else if entries[start].text == text then Some(start)
    else NextWith(entries, start + 1, text)
  }

  /** Where an iterator over the entries is after it looked for each of the texts in turn. */
  function GreedyEnd(texts: seq<string>, entries: seq<Entry>): Option<nat> {
    if texts == [] then Some(0)
    else Further(GreedyEnd(DropLast(texts), entries), Last(texts), entries)
  }

  function Further(start: Option<nat>, text: string, entries: seq<Entry>): Option<nat> {
    match start
    case None => None
    case Some(next) =>
      match NextWith(entries, next, text)
      case None => None
      case Some(found) => Some(found + 1)
  }

  /** The same for the texts of the first `i` turns. */
  function GreedyAt(known: seq<ForwardedTurn>, i: nat, entries: seq<Entry>): Option<nat>
    requires i <= |known|
  {
    if i == 0 then Some(0)
    else
      match known[i - 1].sentText
      case None => GreedyAt(known, i - 1, entries)
      case Some(text) => Further(GreedyAt(known, i - 1, entries), text, entries)
  }

  /** The iterator moves on to the next entry with this text. */
  method Advance(entries: seq<Entry>, start: nat, text: string) returns (found: Option<nat>)
    ensures found == NextWith(entries, start, text)
  {
    var next := start;
    while next < |entries|
      invariant NextWith(entries, start, text) == NextWith(entries, next, text)
      decreases |entries| - next
    {
      if entries[next].text == text {
        return Some(next);
      }
      next := next + 1;
    }
    return None;
  }

  /** Greedy search with one shared iterator over the entries. */
  method FindEntry(known: seq<ForwardedTurn>, index: nat, entries: seq<Entry>) returns (id: Option<nat>)
    ensures id == EntryOf(known, index, entries)
  {
    if index >= |known| || known[index].sentText.None? {
      return None;
    }
    if index > 0 && known[index - 1].sentText.None? {
      return None;
    }
    var next := 0;
    for i := 0 to |known|
      invariant i <= index
      invariant GreedyAt(known, i, entries) == Some(next)
    {
      if known[i].sentText.None? {
        continue;
      }
      var found := Advance(entries, next, known[i].sentText.value);
      if found.None? {
        GreedyFails(known, i, index, entries);
        return None;
      }
      next := found.value + 1;
      if i == index {
        GreedyFinds(known, index, entries, next);
        return Some(entries[found.value].id);
      }
    }
    assert false;
  }

  // ---- What the search finds

  /** An entry is found exactly when the turn can be branched to and the texts sent up to it embed in order, and then it is
      the one where every leftmost embedding ends. */
  lemma EntryOfMeaning(known: seq<ForwardedTurn>, index: nat, entries: seq<Entry>)
    ensures EntryOf(known, index, entries).Some? <==>
              Branchable(known, index) && exists at: seq<nat> :: Embeds(SentThrough(known, index), entries, at)
    ensures Branchable(known, index) ==>
              forall at: seq<nat> :: Leftmost(SentThrough(known, index), entries, at) ==>
                EntryOf(known, index, entries) == Some(entries[Last(at)].id)
  {
    if Branchable(known, index) {
      var texts := SentThrough(known, index);
      SentThroughTurn(known, index);
      var least := GreedyIsLeftmost(texts, entries);
      if GreedyEnd(texts, entries).Some? {
        SoFarIsLeftmost(texts, entries, least, GreedyEnd(texts, entries).value);
      }
      forall at: seq<nat> | Leftmost(texts, entries, at)
        ensures EntryOf(known, index, entries) == Some(entries[Last(at)].id)
      {
        EntryIs(known, index, entries, at);
      }
    }
  }

  lemma EntryIs(known: seq<ForwardedTurn>, index: nat, entries: seq<Entry>, at: seq<nat>)
    requires Branchable(known, index) && Leftmost(SentThrough(known, index), entries, at)
    ensures EntryOf(known, index, entries) == Some(entries[Last(at)].id)
  {
    LeftmostEndIsUnique(SentThrough(known, index), entries, at);
  }

  /** `at` is an embedding that ends as early as possible, and `next` is the entry after its end. */
  ghost predicate LeftmostSoFar(texts: seq<string>, entries: seq<Entry>, at: seq<nat>, next: nat) {
    && Embeds(texts, entries, at)
    && next == (if at == [] then 0 else Last(at) + 1)
    && forall other: seq<nat> :: Embeds(texts, entries, other) && other != [] ==> next <= Last(other) + 1
  }

  lemma SentThroughTurn(known: seq<ForwardedTurn>, i: nat)
    requires i < |known|
    ensures SentThrough(known, i)
            == Sent(known[..i]) + (if known[i].sentText.Some? then [known[i].sentText.value] else [])
  {
    assert known[..i + 1] == known[..i] + [known[i]];
    SentPush(known[..i], known[i]);
  }

  lemma ExtendLeftmost(
    texts: seq<string>, text: string, entries: seq<Entry>, at: seq<nat>, start: nat, next: nat)
    requires LeftmostSoFar(texts, entries, at, start)
    requires start <= next <= |entries| && forall k :: start <= k < next ==> entries[k].text != text
    ensures forall other: seq<nat> :: Embeds(texts + [text], entries, other) ==> next <= Last(other) < |entries|
    ensures next < |entries| && entries[next].text == text ==>
              LeftmostSoFar(texts + [text], entries, at + [next], next + 1)
  {
    forall other: seq<nat> | Embeds(texts + [text], entries, other)
      ensures next <= Last(other) < |entries|
    {
      EmbedsPrefix(texts + [text], |texts|, entries, other);
      assert (texts + [text])[..|texts|] == texts;
      assert Embeds(texts, entries, DropLast(other));
      assert entries[Last(other)].text == text;
    }
  }

  lemma EmbedsPrefix(texts: seq<string>, n: nat, entries: seq<Entry>, at: seq<nat>)
    requires n <= |texts| && Embeds(texts, entries, at)
    ensures Embeds(texts[..n], entries, at[..n])
  {
  }

  /** Turn by turn or text by text, the iterator ends at the same place. */
  lemma {:induction false} TurnsAreTexts(known: seq<ForwardedTurn>, i: nat, entries: seq<Entry>)
    requires i <= |known|
    ensures GreedyAt(known, i, entries) == GreedyEnd(Sent(known[..i]), entries)
  {
    if i > 0 {
      TurnsAreTexts(known, i - 1, entries);
      SentThroughTurn(known, i - 1);
      if known[i - 1].sentText.Some? {
        GreedyOneMore(Sent(known[..i - 1]), known[i - 1].sentText.value, entries);
      } else {
        assert Sent(known[..i - 1]) + [] == Sent(known[..i - 1]);
      }
    }
  }

  lemma GreedyOneMore(texts: seq<string>, text: string, entries: seq<Entry>)
    ensures GreedyEnd(texts + [text], entries) == Further(GreedyEnd(texts, entries), text, entries)
  {
    assert DropLast(texts + [text]) == texts;
  }

  /** The iterator stops exactly behind the leftmost embedding, and fails exactly if there is none. */
  lemma {:induction false} GreedyIsLeftmost(texts: seq<string>, entries: seq<Entry>) returns (at: seq<nat>)
    ensures match GreedyEnd(texts, entries)
            case None => forall other: seq<nat> :: !Embeds(texts, entries, other)
            case Some(next) => LeftmostSoFar(texts, entries, at, next)
  {
    at := [];
    if texts != [] {
      var before := DropLast(texts);
      at := GreedyIsLeftmost(before, entries);
      assert before + [Last(texts)] == texts;
      match GreedyEnd(before, entries) {
        case None => NoLongerEmbedding(before, Last(texts), entries);
        case Some(start) => at := FurtherIsLeftmost(before, Last(texts), entries, at, start);
      }
    }
  }

  lemma FurtherIsLeftmost(texts: seq<string>, text: string, entries: seq<Entry>, at: seq<nat>, start: nat)
    returns (further: seq<nat>)
    requires LeftmostSoFar(texts, entries, at, start)
    ensures match NextWith(entries, start, text)
            case None => forall other: seq<nat> :: !Embeds(texts + [text], entries, other)
            case Some(found) => LeftmostSoFar(texts + [text], entries, further, found + 1)
  {
    var found := NextWith(entries, start, text);
    StartIsWithin(texts, entries, at, start);
    ExtendLeftmost(texts, text, entries, at, start, if found.Some? then found.value else |entries|);
    further := if found.Some? then at + [found.value] else [];
  }

  lemma StartIsWithin(texts: seq<string>, entries: seq<Entry>, at: seq<nat>, start: nat)
    requires LeftmostSoFar(texts, entries, at, start)
    ensures start <= |entries|
  {
  }

  lemma NoLongerEmbedding(texts: seq<string>, text: string, entries: seq<Entry>)
    requires forall other: seq<nat> :: !Embeds(texts, entries, other)
    ensures forall other: seq<nat> :: !Embeds(texts + [text], entries, other)
  {
    assert (texts + [text])[..|texts|] == texts;
    NonePrefixed(texts + [text], |texts|, entries);
  }

  lemma NonePrefixed(texts: seq<string>, n: nat, entries: seq<Entry>)
    requires n <= |texts| && forall other: seq<nat> :: !Embeds(texts[..n], entries, other)
    ensures forall other: seq<nat> :: !Embeds(texts, entries, other)
  {
    forall other: seq<nat> | Embeds(texts, entries, other)
      ensures false
    {
      EmbedsPrefix(texts, n, entries, other);
    }
  }

  lemma GreedyFinds(known: seq<ForwardedTurn>, index: nat, entries: seq<Entry>, next: nat)
    requires Branchable(known, index) && GreedyAt(known, index + 1, entries) == Some(next)
    ensures 0 < next <= |entries| && EntryOf(known, index, entries) == Some(entries[next - 1].id)
  {
    var texts := SentThrough(known, index);
    SentThroughTurn(known, index);
    TurnsAreTexts(known, index + 1, entries);
    var at := GreedyIsLeftmost(texts, entries);
    SoFarIsLeftmost(texts, entries, at, next);
    EntryIs(known, index, entries, at);
  }

  lemma SoFarIsLeftmost(texts: seq<string>, entries: seq<Entry>, at: seq<nat>, next: nat)
    requires texts != [] && LeftmostSoFar(texts, entries, at, next)
    ensures Leftmost(texts, entries, at) && Last(at) == next - 1
  {
  }

  lemma GreedyFails(known: seq<ForwardedTurn>, i: nat, index: nat, entries: seq<Entry>)
    requires i <= index < |known| && GreedyAt(known, i + 1, entries) == None
    ensures EntryOf(known, index, entries) == None
  {
    TurnsAreTexts(known, i + 1, entries);
    ThroughGrows(known, i, index);
    NoneEmbeds(SentThrough(known, i), SentThrough(known, index), entries);
  }

  lemma ThroughGrows(known: seq<ForwardedTurn>, i: nat, index: nat)
    requires i <= index < |known|
    ensures SentThrough(known, i) <= SentThrough(known, index)
  {
    SentPrefix(known[..index + 1], i + 1);
    assert known[..index + 1][..i + 1] == known[..i + 1];
  }

  lemma NoneEmbeds(first: seq<string>, texts: seq<string>, entries: seq<Entry>)
    requires first <= texts && GreedyEnd(first, entries) == None
    ensures forall other: seq<nat> :: !Embeds(texts, entries, other)
  {
    var _ := GreedyIsLeftmost(first, entries);
    assert texts[..|first|] == first;
    NonePrefixed(texts, |first|, entries);
  }

  lemma LeftmostEndIsUnique(texts: seq<string>, entries: seq<Entry>, at: seq<nat>)
    requires Leftmost(texts, entries, at)
    ensures forall other: seq<nat> :: Leftmost(texts, entries, other) ==> Last(other) == Last(at)
  {
  }

  lemma {:induction false} EmbeddingsGrow(texts: seq<string>, entries: seq<Entry>, at: seq<nat>, i: nat)
    requires Embeds(texts, entries, at) && i < |at|
    ensures i <= at[i]
  {
    if i > 0 {
      EmbeddingsGrow(texts, entries, at, i - 1);
    }
  }

  /** When omp holds exactly the texts the proxy sent (duplicates allowed), the entry found for a branchable turn is the
      one of the same rank: what precedes it is exactly what the proxy sent before that turn. */
  lemma ExactRank(known: seq<ForwardedTurn>, index: nat, entries: seq<Entry>)
    requires Branchable(known, index) && Texts(entries) == Sent(known)
    ensures var rank := |Sent(known[..index])|;
            && rank < |entries|
            && EntryOf(known, index, entries) == Some(entries[rank].id)
            && Texts(entries[..rank]) == Sent(known[..index])
  {
    SentPrefix(known, index + 1);
    PrefixRank(known, index, entries);
  }

  /** The same when omp has stored at least the texts up to that turn. */
  lemma PrefixRank(known: seq<ForwardedTurn>, index: nat, entries: seq<Entry>)
    requires Branchable(known, index) && SentThrough(known, index) <= Texts(entries)
    ensures var rank := |Sent(known[..index])|;
            && rank < |entries|
            && EntryOf(known, index, entries) == Some(entries[rank].id)
            && Texts(entries[..rank]) == Sent(known[..index])
  {
    var rank := |Sent(known[..index])|;
    assert known[..index + 1] == known[..index] + [known[index]];
    SentPush(known[..index], known[index]);
    assert SentThrough(known, index) == Texts(entries)[..rank + 1];
    RankIsLeftmost(SentThrough(known, index), entries, rank);
    assert Texts(entries[..rank]) == Sent(known[..index]);
  }

  /** More texts than entries do not embed, so no entry is found. */
  lemma TooManyTexts(known: seq<ForwardedTurn>, index: nat, entries: seq<Entry>)
    requires index < |known| && |SentThrough(known, index)| > |entries|
    ensures EntryOf(known, index, entries) == None
  {
    var texts := SentThrough(known, index);
    forall at: seq<nat> | Embeds(texts, entries, at)
      ensures false
    {
      EmbeddingsGrow(texts, entries, at, |entries|);
    }
  }

  lemma RankIsLeftmost(texts: seq<string>, entries: seq<Entry>, rank: nat)
    requires rank < |entries| && texts == Texts(entries)[..rank + 1]
    ensures exists at: seq<nat> :: Leftmost(texts, entries, at)
    ensures forall at: seq<nat> :: Leftmost(texts, entries, at) ==> Last(at) == rank
  {
    var at: seq<nat> := seq(rank + 1, i => i);
    assert Embeds(texts, entries, at);
    forall other: seq<nat> | Embeds(texts, entries, other)
      ensures Last(at) <= Last(other)
    {
      EmbeddingsGrow(texts, entries, other, rank);
    }
    assert Leftmost(texts, entries, at);
    LeftmostEndIsUnique(texts, entries, at);
  }

  // ---- The user turns of a request

  predicate IsBlank(text: string) {
    forall i :: 0 <= i < |text| ==> IsSpace(text[i])
  }

  const IMAGE_NOT_LOADED := "(An attached image could not be loaded.)"
  const SEE_ATTACHED := "(see attached image)"
  const EMPTY_MESSAGE := "(empty message)"

  function JoinTexts(parts: seq<Part>): seq<string> {
    if parts == [] then []
    else (if parts[0].TextPart? then [parts[0].text] else []) + JoinTexts(parts[1..])
  }

  function Join(texts: seq<string>, separator: string): string {
    if texts == [] then "" else if |texts| == 1 then texts[0] else texts[0] + separator + Join(texts[1..], separator)
  }

  function TextOf(content: Content): string {
    match content
    case Missing => ""
    case Plain(text) => text
    case Parts(parts) => Join(JoinTexts(parts), "\n")
  }

  function ImageUrls(parts: seq<Part>): seq<string> {
    if parts == [] then []
    else (if parts[0].ImagePart? then [parts[0].url] else []) + ImageUrls(parts[1..])
  }

  function UrlsOf(content: Content): seq<string> {
    if content.Parts? then ImageUrls(content.parts) else []
  }

  /** Position of the first occurrence of `needle`, if any. */
  function Find(text: string, needle: string): Option<nat> {
    if needle <= text then Some(0)
    else if text == "" then None
    else
      match Find(text[1..], needle)
      case Some(i) => Some(i + 1)
      case None => None
  }

  lemma {:induction false} FindFits(text: string, needle: string)
    ensures Find(text, needle).Some? ==> Find(text, needle).value + |needle| <= |text|
  {
    if !(needle <= text) && text != "" {
      FindFits(text[1..], needle);
    }
  }

  /** Only `data:image/…;base64,` URLs can be handed to omp. */
  function DataUrlImage(url: string): Option<Image> {
    if "data:" <= url then
      var rest := url[5..];
      FindFits(rest, ";base64,");
      match Find(rest, ";base64,")
      case None => None
      case Some(i) =>
        if "image/" <= rest[..i] then Some(Image(rest[..i], rest[i + 8..])) else None
    else
      None
  }

  function LoadImages(urls: seq<string>): (images: seq<Image>)
    ensures |images| <= |urls|
  {
    if urls == [] then []
    else
      (match DataUrlImage(urls[0])
       case Some(image) => [image]
       case None => [])
      + LoadImages(urls[1..])
  }

  /** The bytes a message is digested from. */
  function DigestInput(text: string, urls: seq<string>): string {
    if urls == [] then text else DigestInput(text, DropLast(urls)) + "\0" + Last(urls)
  }

  function PromptText(text: string, loaded: nat, urls: nat): string {
    var shown := if IsBlank(text) && loaded > 0 then SEE_ATTACHED else text;
    var noted := if loaded < urls then (if IsBlank(shown) then shown else shown + "\n\n") + IMAGE_NOT_LOADED else shown;
    if IsBlank(noted) then EMPTY_MESSAGE else noted
  }

  function TurnOf(message: Message, sha: string -> string): UserTurn {
    var text, urls := TextOf(message.content), UrlsOf(message.content);
    var images := LoadImages(urls);
    UserTurn(sha(DigestInput(text, urls)), PromptText(text, |images|, |urls|), images)
  }

  function Turns(messages: seq<Message>, sha: string -> string): seq<UserTurn> {
    if messages == [] then []
    else
      Turns(DropLast(messages), sha) + (if Last(messages).role == "user" then [TurnOf(Last(messages), sha)] else [])
  }

  /** Feeds the hasher. */
  method Hashed(text: string, urls: seq<string>) returns (hashed: string)
    ensures hashed == DigestInput(text, urls)
  {
    hashed := text;
    for u := 0 to |urls|
      invariant hashed == DigestInput(text, urls[..u])
    {
      hashed := hashed + "\0" + urls[u];
      assert DropLast(urls[..u + 1]) == urls[..u];
    }
    assert urls[..|urls|] == urls;
  }

  /** One turn per user message, in order; the digest and the text are built up step by step. */
  method UserTurns(messages: seq<Message>, sha: string -> string) returns (turns: seq<UserTurn>)
    ensures turns == Turns(messages, sha)
  {
    turns := [];
    for m := 0 to |messages|
      invariant turns == Turns(messages[..m], sha)
    {
      assert DropLast(messages[..m + 1]) == messages[..m];
      if messages[m].role != "user" {
        continue;
      }
      var urls := UrlsOf(messages[m].content);
      var hashed := Hashed(TextOf(messages[m].content), urls);
      var images := LoadImages(urls);
      var text := TextOf(messages[m].content);
      if IsBlank(text) && images != [] {
        text := SEE_ATTACHED;
      }
      if |images| < |urls| {
        if !IsBlank(text) {
          text := text + "\n\n";
        }
        text := text + IMAGE_NOT_LOADED;
      }
      if IsBlank(text) {
        text := EMPTY_MESSAGE;
      }
      turns := turns + [UserTurn(sha(hashed), text, images)];
    }
    assert messages[..|messages|] == messages;
  }

  /** The text sent to omp is never blank. */
  lemma {:induction false} TurnTextsAreNotBlank(messages: seq<Message>, sha: string -> string)
    ensures forall i :: 0 <= i < |Turns(messages, sha)| ==> !IsBlank(Turns(messages, sha)[i].text)
  {
    if messages != [] {
      TurnTextsAreNotBlank(DropLast(messages), sha);
      assert !IsBlank(EMPTY_MESSAGE) by { assert EMPTY_MESSAGE[0] == '('; }
      assert !IsBlank(SEE_ATTACHED) by { assert SEE_ATTACHED[0] == '('; }
      var m := Last(messages).content;
      var text, loaded, urls := TextOf(m), |LoadImages(UrlsOf(m))|, |UrlsOf(m)|;
      PromptTextIsNotBlank(text, loaded, urls);
    }
  }

  lemma PromptTextIsNotBlank(text: string, loaded: nat, urls: nat)
    ensures !IsBlank(PromptText(text, loaded, urls))
  {
    assert EMPTY_MESSAGE[0] == '(';
  }

  /** Digests compare messages by text and images: as long as neither contains a NUL, two messages are digested from the
      same bytes exactly when they have the same text and the same image URLs. */
  lemma {:induction false} DigestsTellMessagesApart(text: string, urls: seq<string>, text2: string, urls2: seq<string>)
    requires '\0' !in text && '\0' !in text2
    requires forall i :: 0 <= i < |urls| ==> '\0' !in urls[i]
    requires forall i :: 0 <= i < |urls2| ==> '\0' !in urls2[i]
    ensures DigestInput(text, urls) == DigestInput(text2, urls2) <==> text == text2 && urls == urls2
  {
    if urls == [] && urls2 != [] {
      NulComesLast(DigestInput(text2, DropLast(urls2)), Last(urls2));
    } else if urls != [] && urls2 == [] {
      NulComesLast(DigestInput(text, DropLast(urls)), Last(urls));
    } else if urls != [] && urls2 != [] {
      DigestsTellMessagesApart(text, DropLast(urls), text2, DropLast(urls2));
      SplitAtLastNul(DigestInput(text, DropLast(urls)), Last(urls), DigestInput(text2, DropLast(urls2)), Last(urls2));
      assert urls == DropLast(urls) + [Last(urls)] && urls2 == DropLast(urls2) + [Last(urls2)];
    }
  }

  lemma NulComesLast(head: string, tail: string)
    ensures '\0' in head + "\0" + tail
  {
    assert (head + "\0" + tail)[|head|] == '\0';
  }

  lemma SplitAtLastNul(head: string, tail: string, head2: string, tail2: string)
    requires '\0' !in tail && '\0' !in tail2
    ensures head + "\0" + tail == head2 + "\0" + tail2 <==> head == head2 && tail == tail2
  {
    var s, s2 := head + "\0" + tail, head2 + "\0" + tail2;
    assert s[|head|] == '\0' && s2[|head2|] == '\0';
    assert |head| < |head2| < |s| ==> s[|head2|] == tail[|head2| - |head| - 1];
    assert |head2| < |head| < |s2| ==> s2[|head|] == tail2[|head| - |head2| - 1];
    assert s[..|head|] == head && s2[..|head2|] == head2;
    assert s[|head| + 1..] == tail && s2[|head2| + 1..] == tail2;
  }

  /** A NUL in the text is taken for the start of an image URL, and an image for a part of the text. So no other message is
      digested from the same bytes exactly if the message has no image and its text no NUL. */
  lemma DigestIsUniqueExactly(text: string, urls: seq<string>)
    ensures (forall text2: string, urls2: seq<string> ::
              DigestInput(text2, urls2) == DigestInput(text, urls) ==> text2 == text && urls2 == urls)
            <==> urls == [] && '\0' !in text
  {
    if urls != [] {
      SpelledOut(text, urls);
    } else if '\0' in text {
      var i :| 0 <= i < |text| && text[i] == '\0';
      NulConfusesDigests(text[..i], text[i + 1..]);
      assert text[..i] + "\0" + text[i + 1..] == text;
      assert DigestInput(text[..i], [text[i + 1..]]) == DigestInput(text, urls);
    } else {
      forall text2: string, urls2: seq<string> | DigestInput(text2, urls2) == text
        ensures text2 == text && urls2 == []
      {
        if urls2 != [] {
          NulComesLast(DigestInput(text2, DropLast(urls2)), Last(urls2));
        }
      }
    }
  }

  lemma SpelledOut(text: string, urls: seq<string>)
    ensures DigestInput(DigestInput(text, urls), []) == DigestInput(text, urls)
  {
  }

  lemma NulConfusesDigests(text: string, url: string)
    ensures DigestInput(text, [url]) == DigestInput(text + "\0" + url, [])
  {
    assert DropLast([url]) == [];
  }

  // ---- Starting over with a transcript

  /** Position of the last user message, or 0 when there is none. */
  function LastUser(messages: seq<Message>): (pos: nat)
    ensures messages != [] ==> pos < |messages|
    ensures messages == [] ==> pos == 0
  {
    if messages == [] then 0
    else if Last(messages).role == "user" then |messages| - 1
    else LastUser(DropLast(messages))
  }

  function Speaker(role: string): Option<string> {
    if role == "user" then Some("User")
    else if role == "assistant" then Some("Assistant")
    else None
  }

  /** `tidy` removes tool details and surrounding white space. */
  function Transcript(messages: seq<Message>, tidy: string -> string): string {
    if messages == [] then ""
    else
      Transcript(DropLast(messages), tidy) +
      (match Speaker(Last(messages).role)
       case Some(who) => who + ": " + tidy(TextOf(Last(messages).content)) + "\n\n"
       case None => "")
  }

  const CONTEXT_HEAD := "Earlier conversation, for context only:\n<conversation>\n"
  const CONTEXT_TAIL := "</conversation>\n\nCurrent request:\n"

  function RebuildText(messages: seq<Message>, last: string, tidy: string -> string): string {
    var transcript := Transcript(messages[..LastUser(messages)], tidy);
    if transcript == "" then last else CONTEXT_HEAD + transcript + CONTEXT_TAIL + last
  }

  method RebuildPrompt(messages: seq<Message>, last: UserTurn, tidy: string -> string) returns (prompt: string)
    ensures prompt == RebuildText(messages, last.text, tidy)
  {
    var lastUser := LastUser(messages);
    var transcript := "";
    for m := 0 to lastUser
      invariant transcript == Transcript(messages[..m], tidy)
    {
      assert DropLast(messages[..m + 1]) == messages[..m];
      var who;
      if messages[m].role == "user" {
        who := "User";
      } else if messages[m].role == "assistant" {
        who := "Assistant";
      } else {
        continue;
      }
      transcript := transcript + (who + ": " + tidy(TextOf(messages[m].content)) + "\n\n");
    }
    if transcript == "" {
      return last.text;
    }
    return CONTEXT_HEAD + transcript + CONTEXT_TAIL + last.text;
  }

  /** The split at the last user message: the turns left as placeholders by a rebuild are exactly the user turns of the
      messages the transcript is made from, and the turn that is sent is the one at the split. */
  lemma {:induction false} RebuildSplit(messages: seq<Message>, sha: string -> string)
    requires Turns(messages, sha) != []
    ensures var split := LastUser(messages);
            && split < |messages|
            && messages[split].role == "user"
            && Turns(messages[..split], sha) == DropLast(Turns(messages, sha))
            && TurnOf(messages[split], sha) == Last(Turns(messages, sha))
  {
    if Last(messages).role == "user" {
      assert messages[..LastUser(messages)] == DropLast(messages);
      var turn := TurnOf(Last(messages), sha);
      assert Turns(messages, sha) == Turns(DropLast(messages), sha) + [turn];
    } else {
      RebuildSplit(DropLast(messages), sha);
      assert DropLast(messages)[..LastUser(messages)] == messages[..LastUser(messages)];
    }
  }

  /** The earlier conversation is left out only when nobody said anything before the last user message, and the request
      always ends with the text of the current turn. */
  lemma {:induction false} RebuildKeepsContext(messages: seq<Message>, last: string, tidy: string -> string)
    ensures RebuildText(messages, last, tidy) == last <==>
              forall i :: 0 <= i < LastUser(messages) ==> Speaker(messages[i].role).None?
    ensures var text := RebuildText(messages, last, tidy); |last| <= |text| && text[|text| - |last|..] == last
  {
    TranscriptIsEmpty(messages[..LastUser(messages)], tidy);
  }

  lemma {:induction false} TranscriptIsEmpty(messages: seq<Message>, tidy: string -> string)
    ensures Transcript(messages, tidy) == "" <==>
              forall i :: 0 <= i < |messages| ==> Speaker(messages[i].role).None?
  {
    if messages != [] {
      TranscriptIsEmpty(DropLast(messages), tidy);
      assert Speaker(Last(messages).role).None? <==> Speaker(messages[|messages| - 1].role).None?;
    }
  }
}
