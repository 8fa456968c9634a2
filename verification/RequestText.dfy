/** What the turns of a request and the transcript of a rebuild say, told from the messages: part by part, URL by URL, line by
    line. */
module RequestText {
  import opened History
  import opened Wrappers

  // ---- The text and the images of a message

  function TextIn(part: Part): seq<string> {
    if part.TextPart? then [part.text] else []
  }

  function UrlIn(part: Part): seq<string> {
    if part.ImagePart? then [part.url] else []
  }

  lemma {:induction false} TextsGrow(parts: seq<Part>, part: Part)
    ensures JoinTexts(parts + [part]) == JoinTexts(parts) + TextIn(part)
  {
    var longer := parts + [part];
    if parts == [] {
      assert longer == [part] && longer[1..] == [];
    } else {
      assert longer[0] == parts[0] && longer[1..] == parts[1..] + [part];
      TextsGrow(parts[1..], part);
      assert JoinTexts(longer) == TextIn(parts[0]) + JoinTexts(longer[1..]);
      assert JoinTexts(parts) == TextIn(parts[0]) + JoinTexts(parts[1..]);
    }
  }

  lemma {:induction false} UrlsGrow(parts: seq<Part>, part: Part)
    ensures ImageUrls(parts + [part]) == ImageUrls(parts) + UrlIn(part)
  {
    var longer := parts + [part];
    if parts == [] {
      assert longer == [part] && longer[1..] == [];
    } else {
      assert longer[0] == parts[0] && longer[1..] == parts[1..] + [part];
      UrlsGrow(parts[1..], part);
      assert ImageUrls(longer) == UrlIn(parts[0]) + ImageUrls(longer[1..]);
      assert ImageUrls(parts) == UrlIn(parts[0]) + ImageUrls(parts[1..]);
    }
  }

  lemma {:induction false} JoinGrows(texts: seq<string>, text: string, separator: string)
    ensures Join(texts + [text], separator) == if texts == [] then text else Join(texts, separator) + separator + text
  {
    if texts == [] {
      assert texts + [text] == [text];
    } else {
      var longer := texts + [text];
      assert longer[0] == texts[0] && longer[1..] == texts[1..] + [text];
      JoinGrows(texts[1..], text, separator);
      if |texts| == 1 {
        assert texts[1..] == [];
      } else {
        JoinLonger(texts[0], separator, Join(texts[1..], separator), text);
      }
    }
  }

  lemma JoinLonger(first: string, separator: string, rest: string, text: string)
    ensures first + separator + (rest + separator + text) == (first + separator + rest) + separator + text
  {
  }

  lemma {:induction false} TextsOfParts(parts: seq<Part>)
    ensures JoinTexts(parts) == [] <==> forall i :: 0 <= i < |parts| ==> !parts[i].TextPart?
  {
    if parts != [] {
      TextsOfParts(parts[1..]);
      assert forall i :: 1 <= i < |parts| ==> parts[i] == parts[1..][i - 1];
    }
  }

  /** One more part: a text goes on a new line, unless it is the first; an image adds its URL; anything else adds nothing. */
  lemma ContentGrows(parts: seq<Part>, part: Part)
    ensures var before, after := Content.Parts(parts), Content.Parts(parts + [part]);
            match part
            case TextPart(text) =>
              && UrlsOf(after) == UrlsOf(before)
              && TextOf(after) == if exists i :: 0 <= i < |parts| && parts[i].TextPart? then TextOf(before) + "\n" + text else text
            case ImagePart(url) => TextOf(after) == TextOf(before) && UrlsOf(after) == UrlsOf(before) + [url]
            case OtherPart => TextOf(after) == TextOf(before) && UrlsOf(after) == UrlsOf(before)
  {
    TextsGrow(parts, part);
    UrlsGrow(parts, part);
    TextsOfParts(parts);
    assert JoinTexts(parts) + [] == JoinTexts(parts) && ImageUrls(parts) + [] == ImageUrls(parts);
    if part.TextPart? {
      JoinGrows(JoinTexts(parts), part.text, "\n");
    }
  }

  lemma ContentStarts(text: string)
    ensures TextOf(Missing) == "" && UrlsOf(Missing) == []
    ensures TextOf(Plain(text)) == text && UrlsOf(Plain(text)) == []
    ensures TextOf(Content.Parts([])) == "" && UrlsOf(Content.Parts([])) == []
  {
  }

  // ---- Images

  predicate StartsAt(text: string, i: nat, needle: string)
    requires i <= |text|
  {
    needle <= text[i..]
  }

  predicate FirstAt(text: string, i: nat, needle: string) {
    i <= |text| && StartsAt(text, i, needle) && forall j: nat :: j < i ==> !StartsAt(text, j, needle)
  }

  lemma {:induction false} FindIsFirst(text: string, needle: string)
    ensures match Find(text, needle)
            case Some(i) => FirstAt(text, i, needle)
            case None => forall j: nat :: j <= |text| ==> !StartsAt(text, j, needle)
  {
    assert text[0..] == text;
    if !(needle <= text) && text != "" {
      FindIsFirst(text[1..], needle);
      forall j: nat | 1 <= j <= |text|
        ensures StartsAt(text, j, needle) <==> StartsAt(text[1..], j - 1, needle)
      {
        assert text[1..][j - 1..] == text[j..];
      }
    }
  }

  lemma FirstIsUnique(text: string, i: nat, j: nat, needle: string)
    requires FirstAt(text, i, needle) && FirstAt(text, j, needle)
    ensures i == j
  {
  }

  /** A `data:` URL of an image: its type, up to the first `;base64,`, and its data. */
  ghost predicate Spells(url: string, mime: string, data: string) {
    && url == "data:" + mime + ";base64," + data
    && "image/" <= mime
    && forall j: nat :: j < |mime| ==> !StartsAt(mime + ";base64," + data, j, ";base64,")
  }

  lemma SplitsAt(text: string, i: nat, needle: string)
    requires FirstAt(text, i, needle)
    ensures i + |needle| <= |text| && text == text[..i] + needle + text[i + |needle|..]
  {
    assert text[i..][..|needle|] == needle;
  }

  lemma PutTogether(mime: string, needle: string, data: string)
    ensures var text := mime + needle + data;
            StartsAt(text, |mime|, needle) && text[..|mime|] == mime && text[|mime| + |needle|..] == data
  {
    var text := mime + needle + data;
    assert text[|mime|..] == needle + data;
  }

  lemma AfterPrefix(prefix: string, mime: string, needle: string, data: string)
    ensures prefix + mime + needle + data == prefix + (mime + needle + data)
    ensures (prefix + (mime + needle + data))[|prefix|..] == mime + needle + data
  {
  }

  lemma WithPrefix(url: string, prefix: string)
    requires prefix <= url
    ensures url == prefix + url[|prefix|..]
  {
  }

  lemma LoadedIsSpelled(url: string, image: Image)
    requires DataUrlImage(url) == Some(image)
    ensures Spells(url, image.mimeType, image.data)
  {
    var rest := url[5..];
    WithPrefix(url, "data:");
    FindFits(rest, ";base64,");
    FindIsFirst(rest, ";base64,");
    SplitsAt(rest, Find(rest, ";base64,").value, ";base64,");
    AfterPrefix("data:", image.mimeType, ";base64,", image.data);
  }

  lemma SpelledIsLoaded(url: string, mime: string, data: string)
    requires Spells(url, mime, data)
    ensures DataUrlImage(url) == Some(Image(mime, data))
  {
    var rest := mime + ";base64," + data;
    AfterPrefix("data:", mime, ";base64,", data);
    PutTogether(mime, ";base64,", data);
    FoundBetween(mime, ";base64,", data);
    assert rest[|mime| + 8..] == data;
  }

  lemma FoundBetween(mime: string, needle: string, data: string)
    requires forall j: nat :: j < |mime| ==> !StartsAt(mime + needle + data, j, needle)
    ensures Find(mime + needle + data, needle) == Some(|mime|)
  {
    var text := mime + needle + data;
    PutTogether(mime, needle, data);
    FindFits(text, needle);
    FindIsFirst(text, needle);
    FirstIsUnique(text, Find(text, needle).value, |mime|, needle);
  }

  /** A URL is loaded as an image exactly if it spells that image. */
  lemma DataUrlExactly(url: string, image: Image)
    ensures DataUrlImage(url) == Some(image) <==> Spells(url, image.mimeType, image.data)
  {
    if DataUrlImage(url) == Some(image) {
      LoadedIsSpelled(url, image);
    }
    if Spells(url, image.mimeType, image.data) {
      SpelledIsLoaded(url, image.mimeType, image.data);
    }
  }

  function ImageIn(url: string): seq<Image> {
    match DataUrlImage(url)
    case Some(image) => [image]
    case None => []
  }

  lemma {:induction false} ImagesGrow(urls: seq<string>, url: string)
    ensures LoadImages(urls + [url]) == LoadImages(urls) + ImageIn(url)
  {
    var longer := urls + [url];
    if urls == [] {
      assert longer == [url] && longer[1..] == [];
    } else {
      assert longer[0] == urls[0] && longer[1..] == urls[1..] + [url];
      ImagesGrow(urls[1..], url);
      assert LoadImages(longer) == ImageIn(urls[0]) + LoadImages(longer[1..]);
      assert LoadImages(urls) == ImageIn(urls[0]) + LoadImages(urls[1..]);
    }
  }

  /** The images of a message are those its URLs spell, in order; what spells none is left out. */
  lemma ImagesInOrder(urls: seq<string>, url: string, image: Image)
    ensures Spells(url, image.mimeType, image.data) ==> LoadImages(urls + [url]) == LoadImages(urls) + [image]
    ensures (forall mime, data :: !Spells(url, mime, data)) ==> LoadImages(urls + [url]) == LoadImages(urls)
  {
    ImagesGrow(urls, url);
    DataUrlExactly(url, image);
    if DataUrlImage(url).Some? {
      DataUrlExactly(url, DataUrlImage(url).value);
    }
  }

  predicate AllLoaded(urls: seq<string>) {
    forall i :: 0 <= i < |urls| ==> DataUrlImage(urls[i]).Some?
  }

  lemma {:induction false} LoadedExactly(urls: seq<string>)
    ensures |LoadImages(urls)| == |urls| <==> AllLoaded(urls)
  {
    if urls != [] {
      LoadedExactly(urls[1..]);
      assert AllLoaded(urls) <==> DataUrlImage(urls[0]).Some? && AllLoaded(urls[1..]) by {
        assert forall i :: 1 <= i < |urls| ==> urls[i] == urls[1..][i - 1];
      }
    }
  }

  // ---- Turns

  lemma Notes()
    ensures IMAGE_NOT_LOADED == "(An attached image could not be loaded.)"
    ensures SEE_ATTACHED == "(see attached image)" && EMPTY_MESSAGE == "(empty message)"
  {
  }

  /** The text sent for a message is its own text. Only a message without visible text gets a stand-in, and a note tells of
      images that could not be loaded. */
  lemma TurnSaysTheMessage(m: Message, sha: string -> string)
    ensures var text, urls := TextOf(m.content), UrlsOf(m.content);
            var note := if AllLoaded(urls) then "" else "\n\n" + IMAGE_NOT_LOADED;
            var turn := TurnOf(m, sha);
            && turn.images == LoadImages(urls)
            && turn.text ==
                 if !IsBlank(text) then text + note
                 else if turn.images != [] then SEE_ATTACHED + note
                 else if !AllLoaded(urls) then text + IMAGE_NOT_LOADED
                 else EMPTY_MESSAGE
  {
    LoadedExactly(UrlsOf(m.content));
    PromptTextSays(TextOf(m.content), |LoadImages(UrlsOf(m.content))|, |UrlsOf(m.content)|);
  }

  lemma PromptTextSays(text: string, loaded: nat, urls: nat)
    requires loaded <= urls
    ensures PromptText(text, loaded, urls) ==
              if !IsBlank(text) then text + (if loaded == urls then "" else "\n\n" + IMAGE_NOT_LOADED)
              else if loaded > 0 then SEE_ATTACHED + (if loaded == urls then "" else "\n\n" + IMAGE_NOT_LOADED)
              else if loaded < urls then text + IMAGE_NOT_LOADED
              else EMPTY_MESSAGE
  {
    if IsBlank(text) {
      assert SEE_ATTACHED[0] == '(';
      Noted(SEE_ATTACHED, loaded == urls);
      NoteIsVisible(text);
    } else {
      Noted(text, loaded == urls);
    }
  }

  lemma Noted(shown: string, complete: bool)
    requires !IsBlank(shown)
    ensures shown + (if complete then "" else "\n\n" + IMAGE_NOT_LOADED)
            == if complete then shown else (shown + "\n\n") + IMAGE_NOT_LOADED
    ensures !IsBlank((shown + "\n\n") + IMAGE_NOT_LOADED)
  {
    NoteIsVisible(shown + "\n\n");
    if complete {
      assert shown + "" == shown;
    } else {
      Regroup(shown, "\n\n", IMAGE_NOT_LOADED);
    }
  }

  lemma Regroup(a: string, b: string, c: string)
    ensures (a + b) + c == a + (b + c)
  {
  }

  lemma NoteIsVisible(shown: string)
    ensures !IsBlank(shown + IMAGE_NOT_LOADED)
  {
    FirstIsVisible(shown, IMAGE_NOT_LOADED);
  }

  lemma FirstIsVisible(shown: string, note: string)
    requires note != "" && !IsSpace(note[0])
    ensures !IsBlank(shown + note)
  {
    assert (shown + note)[|shown|] == note[0];
  }

  /** With a digest that does not collide, two messages without NUL characters have the same digest exactly if they have the same
      text and the same image URLs. */
  lemma SameDigestExactly(a: Message, b: Message, sha: string -> string)
    requires forall s: string, t: string :: sha(s) == sha(t) ==> s == t
    requires '\0' !in TextOf(a.content) && forall i :: 0 <= i < |UrlsOf(a.content)| ==> '\0' !in UrlsOf(a.content)[i]
    requires '\0' !in TextOf(b.content) && forall i :: 0 <= i < |UrlsOf(b.content)| ==> '\0' !in UrlsOf(b.content)[i]
    ensures TurnOf(a, sha).digest == TurnOf(b, sha).digest <==>
              TextOf(a.content) == TextOf(b.content) && UrlsOf(a.content) == UrlsOf(b.content)
  {
    DigestsTellMessagesApart(TextOf(a.content), UrlsOf(a.content), TextOf(b.content), UrlsOf(b.content));
    DigestOfTurn(a, sha);
    DigestOfTurn(b, sha);
  }

  lemma DigestOfTurn(m: Message, sha: string -> string)
    ensures TurnOf(m, sha).digest == sha(DigestInput(TextOf(m.content), UrlsOf(m.content)))
  {
  }

  /** The turns of a request are those of its user messages, in order. */
  lemma TurnsGrow(messages: seq<Message>, m: Message, sha: string -> string)
    ensures Turns([], sha) == []
    ensures Turns(messages + [m], sha) == Turns(messages, sha) + (if m.role == "user" then [TurnOf(m, sha)] else [])
  {
    assert DropLast(messages + [m]) == messages && Last(messages + [m]) == m;
  }

  // ---- The transcript

  /** One more message adds its line, by role and text; messages of other roles add nothing. */
  lemma TranscriptGrows(messages: seq<Message>, m: Message, tidy: string -> string)
    ensures Transcript([], tidy) == ""
    ensures Transcript(messages + [m], tidy) == Transcript(messages, tidy) +
              if m.role == "user" then "User: " + tidy(TextOf(m.content)) + "\n\n"
              else if m.role == "assistant" then "Assistant: " + tidy(TextOf(m.content)) + "\n\n"
              else ""
  {
    assert DropLast(messages + [m]) == messages;
    assert "User" + ": " == "User: " && "Assistant" + ": " == "Assistant: ";
  }

  lemma {:induction false} LastUserAt(before: seq<Message>, request: Message, after: seq<Message>)
    requires request.role == "user" && forall i :: 0 <= i < |after| ==> after[i].role != "user"
    ensures LastUser(before + [request] + after) == |before|
  {
    var all := before + [request] + after;
    if after == [] {
      assert Last(all) == request;
    } else {
      assert Last(all) == after[|after| - 1] && DropLast(all) == before + [request] + DropLast(after);
      LastUserAt(before, request, DropLast(after));
    }
  }

  /** A rebuild prompt carries the transcript of everything before the current request, and then the request. */
  lemma RebuildReads(before: seq<Message>, request: Message, after: seq<Message>, last: string, tidy: string -> string)
    requires request.role == "user" && forall i :: 0 <= i < |after| ==> after[i].role != "user"
    ensures var transcript := Transcript(before, tidy);
            RebuildText(before + [request] + after, last, tidy) ==
              if transcript == "" then last else CONTEXT_HEAD + transcript + CONTEXT_TAIL + last
  {
    LastUserAt(before, request, after);
    assert (before + [request] + after)[..|before|] == before;
    Framed(before + [request] + after, last, tidy);
  }

  lemma Framed(messages: seq<Message>, last: string, tidy: string -> string)
    ensures var transcript := Transcript(messages[..LastUser(messages)], tidy);
            RebuildText(messages, last, tidy) ==
              if transcript == "" then last else CONTEXT_HEAD + transcript + CONTEXT_TAIL + last
    ensures CONTEXT_HEAD == "Earlier conversation, for context only:\n<conversation>\n"
    ensures CONTEXT_TAIL == "</conversation>\n\nCurrent request:\n"
  {
  }
}
