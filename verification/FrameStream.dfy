/** Whole streams through the frame decoder: what was sent is what comes out, and what comes out was sent. */
module FrameStream {
  import opened FrameDecoder
  import opened Wrappers

  // ---- A decoder at work

  /** A decoder with everything it has returned so far. */
  datatype Log = Log(pending: Option<Pending>, frames: seq<Json>, failures: nat)

  const FRESH := Log(None, [], 0)

  function Push(log: Log, line: string, maxBytes: nat, codec: Codec): Log {
    var (pending, pushed) := PushLine(log.pending, line, maxBytes, codec);
    match pushed
    case Nothing => log.(pending := pending)
    case Complete(frame) => log.(pending := pending, frames := log.frames + [frame])
    case Failure(_) => log.(pending := pending, failures := log.failures + 1)
  }

  function Pusher(maxBytes: nat, codec: Codec): (Log, string) -> Log {
    (log, line) => Push(log, line, maxBytes, codec)
  }

  function Decode(log: Log, lines: seq<string>, maxBytes: nat, codec: Codec): Log {
    Fold(Pusher(maxBytes, codec), log, lines)
  }

  predicate IsBlankLine(line: string) {
    Trim(line) == ""
  }

  function WithoutBlanks(lines: seq<string>): seq<string> {
    if lines == [] then []
    else WithoutBlanks(DropLast(lines)) + (if IsBlankLine(Last(lines)) then [] else [Last(lines)])
  }

  /** Blank lines, wherever they are, change nothing. */
  lemma {:induction false} BlankLinesAreIgnored(log: Log, lines: seq<string>, maxBytes: nat, codec: Codec)
    ensures Decode(log, lines, maxBytes, codec) == Decode(log, WithoutBlanks(lines), maxBytes, codec)
  {
    if lines != [] {
      BlankLinesAreIgnored(log, DropLast(lines), maxBytes, codec);
      if !IsBlankLine(Last(lines)) {
        assert DropLast(WithoutBlanks(lines)) == WithoutBlanks(DropLast(lines));
      } else {
        assert WithoutBlanks(lines) == WithoutBlanks(DropLast(lines));
      }
    }
  }

  // ---- The sender

  /** The codings are inverse to each other; a printed value has no surrounding white space, and the coding of some bytes
      is not empty (section 4 of RFC 4648). */
  ghost predicate Lawful(codec: Codec) {
    && (forall json: Json :: !json.NonObject? ==> codec.parse(codec.unparse(json)) == Some(json))
    && (forall json: Json :: !json.NonObject? ==> Trim(codec.unparse(json)) == codec.unparse(json) != "")
    && (forall text: string :: codec.fromUtf8(codec.toUtf8(text)) == Some(text))
    && (forall bytes: seq<byte> :: codec.fromBase64(codec.toBase64(bytes)) == Some(bytes))
    && (forall bytes: seq<byte> :: bytes != [] ==> codec.toBase64(bytes) != "")
  }

  function Concat(parts: seq<seq<byte>>): seq<byte> {
    if parts == [] then [] else Concat(DropLast(parts)) + Last(parts)
  }

  /** A frame is sent as one line or split into parts; a split may fall inside a character. */
  datatype Sending = Whole(frame: Json) | Split(frame: Json, chunkId: string, parts: seq<seq<byte>>)

  predicate Fits(sending: Sending, maxBytes: nat, codec: Codec) {
    && sending.frame.Frame?
    && (sending.Split? ==>
          && 1 <= |sending.parts| <= MAX_CHUNKS
          && (forall i :: 0 <= i < |sending.parts| ==> sending.parts[i] != [])
          && Concat(sending.parts) == codec.toUtf8(codec.unparse(sending.frame))
          && |Concat(sending.parts)| <= maxBytes)
  }

  function ChunkLine(chunkId: string, parts: seq<seq<byte>>, i: nat, codec: Codec): string
    requires i < |parts|
  {
    codec.unparse(
      Chunk(Some(chunkId), Some(i), Some(|parts|), Some(|Concat(parts)|), Some(codec.toBase64(parts[i]))))
  }

  function Lines(sending: Sending, codec: Codec): seq<string> {
    match sending
    case Whole(frame) => [codec.unparse(frame)]
    case Split(_, chunkId, parts) =>
      seq(|parts|, i requires 0 <= i < |parts| => ChunkLine(chunkId, parts, i, codec))
  }

  function Encode(sendings: seq<Sending>, codec: Codec): seq<string> {
    if sendings == [] then [] else Encode(DropLast(sendings), codec) + Lines(Last(sendings), codec)
  }

  function FramesOf(sendings: seq<Sending>): seq<Json> {
    seq(|sendings|, i requires 0 <= i < |sendings| => sendings[i].frame)
  }

  lemma {:induction false} ConcatPrefix(parts: seq<seq<byte>>, i: nat)
    requires i <= |parts|
    ensures Concat(parts[..i]) <= Concat(parts)
    decreases |parts|
  {
    if i == |parts| {
      assert parts[..i] == parts;
    } else {
      ConcatPrefix(DropLast(parts), i);
      assert DropLast(parts)[..i] == parts[..i];
    }
  }

  /** The decoder when it has read the first `i` chunks of a split frame. */
  function AfterChunks(log: Log, sending: Sending, i: nat): Log
    requires sending.Split? && i <= |sending.parts|
  {
    var parts := sending.parts;
    if i == 0 then log
    else if i == |parts| then log.(frames := log.frames + [sending.frame])
    else log.(pending := Some(Pending(sending.chunkId, |parts|, i, |Concat(parts)|, Concat(parts[..i]))))
  }

  lemma NextChunk(log: Log, sending: Sending, i: nat, maxBytes: nat, codec: Codec)
    requires Lawful(codec) && Fits(sending, maxBytes, codec) && sending.Split? && log.pending == None
    requires i < |sending.parts|
    ensures Push(AfterChunks(log, sending, i), ChunkLine(sending.chunkId, sending.parts, i, codec), maxBytes, codec)
            == AfterChunks(log, sending, i + 1)
  {
    var parts := sending.parts;
    ConcatPrefix(parts, i + 1);
    assert DropLast(parts[..i + 1]) == parts[..i] && Last(parts[..i + 1]) == parts[i];
    assert Concat(parts[..i + 1]) == Concat(parts[..i]) + parts[i];
    if i == 0 {
      assert parts[..0] == [];
      assert [] + parts[0] == parts[0];
    }
    if i + 1 == |parts| {
      assert parts[..i + 1] == parts;
    }
  }

  lemma {:induction false} ChunksAreCollected(log: Log, sending: Sending, i: nat, maxBytes: nat, codec: Codec)
    requires Lawful(codec) && Fits(sending, maxBytes, codec) && sending.Split? && log.pending == None
    requires i <= |sending.parts|
    ensures Decode(log, Lines(sending, codec)[..i], maxBytes, codec) == AfterChunks(log, sending, i)
  {
    if i > 0 {
      var lines := Lines(sending, codec);
      ChunksAreCollected(log, sending, i - 1, maxBytes, codec);
      NextChunk(log, sending, i - 1, maxBytes, codec);
      assert DropLast(lines[..i]) == lines[..i - 1];
      assert Last(lines[..i]) == ChunkLine(sending.chunkId, sending.parts, i - 1, codec);
    }
  }

  /** A frame that fits is decoded from its lines, and nothing stays pending. */
  lemma SendingIsDecoded(log: Log, sending: Sending, maxBytes: nat, codec: Codec)
    requires Lawful(codec) && Fits(sending, maxBytes, codec) && log.pending == None
    ensures Decode(log, Lines(sending, codec), maxBytes, codec) == log.(frames := log.frames + [sending.frame])
  {
    var lines := Lines(sending, codec);
    if sending.Whole? {
      assert DropLast(lines) == [];
      assert Decode(log, [], maxBytes, codec) == log;
    } else {
      ChunksAreCollected(log, sending, |lines|, maxBytes, codec);
      assert lines[..|lines|] == lines;
    }
  }

  /** Whole-stream round trip: any sequence of frames, each sent plain or split in any way within the limits, with blank
      lines anywhere, decodes to exactly that sequence, without an error and with nothing pending at the end. */
  lemma {:induction false} StreamRoundTrip(sendings: seq<Sending>, lines: seq<string>, maxBytes: nat, codec: Codec)
    requires Lawful(codec)
    requires forall i :: 0 <= i < |sendings| ==> Fits(sendings[i], maxBytes, codec)
    requires WithoutBlanks(lines) == Encode(sendings, codec)
    ensures Decode(FRESH, lines, maxBytes, codec) == Log(None, FramesOf(sendings), 0)
  {
    BlankLinesAreIgnored(FRESH, lines, maxBytes, codec);
    EncodedStreamIsDecoded(sendings, maxBytes, codec);
  }

  lemma {:induction false} EncodedStreamIsDecoded(sendings: seq<Sending>, maxBytes: nat, codec: Codec)
    requires Lawful(codec)
    requires forall i :: 0 <= i < |sendings| ==> Fits(sendings[i], maxBytes, codec)
    ensures Decode(FRESH, Encode(sendings, codec), maxBytes, codec) == Log(None, FramesOf(sendings), 0)
  {
    if sendings != [] {
      EncodedStreamIsDecoded(DropLast(sendings), maxBytes, codec);
      SendingIsDecoded(Log(None, FramesOf(DropLast(sendings)), 0), Last(sendings), maxBytes, codec);
      OneMoreSending(
        Pusher(maxBytes, codec), sendings, Encode(DropLast(sendings), codec), Lines(Last(sendings), codec));
    }
  }

  /** For any way to read lines: reading all but the last sending, then the last one. */
  lemma OneMoreSending(step: (Log, string) -> Log, sendings: seq<Sending>, before: seq<string>, last: seq<string>)
    requires sendings != []
    requires var log := Log(None, FramesOf(DropLast(sendings)), 0);
             && Fold(step, FRESH, before) == log
             && Fold(step, log, last) == log.(frames := log.frames + [Last(sendings).frame])
    ensures Fold(step, FRESH, before + last) == Log(None, FramesOf(sendings), 0)
  {
    FoldInParts(step, FRESH, before, last);
    assert FramesOf(sendings) == FramesOf(DropLast(sendings)) + [Last(sendings).frame];
  }

  /** The way the test double splits: pieces of `size` bytes, the last one possibly shorter. */
  function PiecesOf(bytes: seq<byte>, size: nat): seq<seq<byte>>
    requires size > 0
  {
    if bytes == [] then []
    else if |bytes| <= size then [bytes]
    else [bytes[..size]] + PiecesOf(bytes[size..], size)
  }

  lemma {:induction false} ConcatFront(first: seq<byte>, rest: seq<seq<byte>>)
    ensures Concat([first] + rest) == first + Concat(rest)
  {
    if rest == [] {
      assert DropLast([first] + rest) == [];
    } else {
      ConcatFront(first, DropLast(rest));
      assert DropLast([first] + rest) == [first] + DropLast(rest);
    }
  }

  /** Pieces of one size are a split of the bytes, and there are no more of them than needed. */
  lemma {:induction false} PiecesFit(bytes: seq<byte>, size: nat)
    requires size > 0
    ensures Concat(PiecesOf(bytes, size)) == bytes
    ensures forall i :: 0 <= i < |PiecesOf(bytes, size)| ==> PiecesOf(bytes, size)[i] != []
    ensures (|PiecesOf(bytes, size)| - 1) * size < |bytes| || bytes == []
    decreases |bytes|
  {
    if bytes == [] {
    } else if |bytes| <= size {
      assert DropLast([bytes]) == [];
    } else {
      PiecesFit(bytes[size..], size);
      ConcatFront(bytes[..size], PiecesOf(bytes[size..], size));
      var pieces := |PiecesOf(bytes[size..], size)|;
      assert |PiecesOf(bytes, size)| == 1 + pieces;
      assert (1 + pieces - 1) * size == (pieces - 1) * size + size;
    }
  }

  lemma {:induction false} PiecesAreNoLarger(bytes: seq<byte>, size: nat)
    requires size > 0
    ensures |bytes| <= |PiecesOf(bytes, size)| * size
    ensures bytes != [] ==> PiecesOf(bytes, size) != []
    decreases |bytes|
  {
    if |bytes| > size {
      PiecesAreNoLarger(bytes[size..], size);
      var pieces := |PiecesOf(bytes[size..], size)|;
      assert |PiecesOf(bytes, size)| == 1 + pieces && (1 + pieces) * size == size + pieces * size;
    }
  }

  /** A frame cut into pieces of one size may be sent, and so comes through, exactly if it is not too long for the chunks there
      may be nor for the decoder. */
  lemma CutFramesFit(frame: Json, chunkId: string, size: nat, maxBytes: nat, codec: Codec)
    requires size > 0 && frame.Frame?
    ensures var bytes := codec.toUtf8(codec.unparse(frame));
            Fits(Split(frame, chunkId, PiecesOf(bytes, size)), maxBytes, codec)
            <==> 0 < |bytes| <= size * MAX_CHUNKS && |bytes| <= maxBytes
  {
    var bytes := codec.toUtf8(codec.unparse(frame));
    PiecesFit(bytes, size);
    PiecesAreNoLarger(bytes, size);
    CountsFit(|bytes|, |PiecesOf(bytes, size)|, size, MAX_CHUNKS);
  }

  /** Then the decoder gives it back. */
  lemma CutFramesComeThrough(frame: Json, chunkId: string, size: nat, maxBytes: nat, codec: Codec)
    requires Lawful(codec) && size > 0 && frame.Frame?
    requires var bytes := codec.toUtf8(codec.unparse(frame)); 0 < |bytes| <= size * MAX_CHUNKS && |bytes| <= maxBytes
    ensures var sending := Split(frame, chunkId, PiecesOf(codec.toUtf8(codec.unparse(frame)), size));
            Decode(FRESH, Lines(sending, codec), maxBytes, codec) == Log(None, [frame], 0)
  {
    CutFramesFit(frame, chunkId, size, maxBytes, codec);
    SendingIsDecoded(FRESH, Split(frame, chunkId, PiecesOf(codec.toUtf8(codec.unparse(frame)), size)), maxBytes, codec);
  }

  lemma CountsFit(length: nat, pieces: nat, size: nat, most: nat)
    requires length <= pieces * size && size > 0 && ((pieces - 1) * size < length || length == 0)
    ensures 0 < length ==> (pieces <= most <==> length <= size * most)
  {
    if 0 < length {
      if pieces <= most {
        assert pieces * size <= most * size;
      } else {
        assert most * size <= (pieces - 1) * size;
      }
    }
  }

  // ---- Arbitrary, also corrupt, input

  /** The values of the lines that are not blank and parse. */
  function Values(lines: seq<string>, codec: Codec): seq<Json> {
    if lines == [] then []
    else
      Values(DropLast(lines), codec) + ValueOf(Last(lines), codec)
  }

  function ValueOf(line: string, codec: Codec): seq<Json> {
    var text := Trim(line);
    if text == "" || codec.parse(text).None? then [] else [codec.parse(text).value]
  }

  /** These values are chunks 0, 1, … of one sequence, with these bytes. */
  ghost predicate Sequence(values: seq<Json>, id: string, count: nat, length: nat, parts: seq<seq<byte>>, codec: Codec) {
    && |values| == |parts|
    && forall i :: 0 <= i < |values| ==>
         && values[i].Chunk?
         && values[i].chunkId == Some(id)
         && values[i].index == Some(i)
         && values[i].count == Some(count)
         && values[i].byteLength == Some(length)
         && values[i].data.Some?
         && codec.fromBase64(values[i].data.value) == Some(parts[i])
  }

  function Latest(values: seq<Json>, n: nat): seq<Json> {
    if n <= |values| then values[|values| - n..] else values
  }

  /** What is pending is the start of a sequence: within the bounds, and exactly the bytes of the latest values. */
  ghost predicate Collected(pending: Option<Pending>, values: seq<Json>, maxBytes: nat, codec: Codec) {
    pending.Some? ==>
      var p := pending.value;
      && 1 <= p.next < p.count <= MAX_CHUNKS
      && |p.buf| <= p.byteLength <= maxBytes
      && p.next <= |values|
      && exists parts :: Concat(parts) == p.buf && Sequence(Latest(values, p.next), p.chunkId, p.count, p.byteLength, parts, codec)
  }

  /** A frame put together from chunks: the latest values are all the chunks of one sequence, in order, and their bytes
      are exactly the announced length and read as that frame. */
  ghost predicate Genuine(frame: Json, values: seq<Json>, maxBytes: nat, codec: Codec) {
    exists id, count: nat, parts :: IsSplitOf(frame, values, id, count, parts, maxBytes, codec)
  }

  ghost predicate IsSplitOf(
    frame: Json, values: seq<Json>, id: string, count: nat, parts: seq<seq<byte>>, maxBytes: nat, codec: Codec)
  {
    && frame.Frame?
    && 1 <= count <= MAX_CHUNKS
    && count <= |values|
    && |Concat(parts)| <= maxBytes
    && Sequence(Latest(values, count), id, count, |Concat(parts)|, parts, codec)
    && Reassembled(Concat(parts), codec) == Complete(frame)
  }

  lemma SequenceGrows(
    values: seq<Json>, v: Json, id: string, count: nat, length: nat, parts: seq<seq<byte>>, bytes: seq<byte>, codec: Codec)
    requires Sequence(values, id, count, length, parts, codec)
    requires v.Chunk? && v.data.Some? && codec.fromBase64(v.data.value) == Some(bytes)
    requires v.chunkId == Some(id) && v.index == Some(|values|) && v.count == Some(count) && v.byteLength == Some(length)
    ensures Sequence(values + [v], id, count, length, parts + [bytes], codec)
    ensures Concat(parts + [bytes]) == Concat(parts) + bytes
  {
    assert DropLast(parts + [bytes]) == parts;
  }

  lemma ChunkKeepsCollected(pending: Option<Pending>, values: seq<Json>, v: Json, maxBytes: nat, codec: Codec)
    requires Collected(pending, values, maxBytes, codec) && v.Chunk?
    ensures var (after, pushed) := PushChunk(pending, v, maxBytes, codec);
            && Collected(after, values + [v], maxBytes, codec)
            && (pushed.Complete? ==> Genuine(pushed.frame, values + [v], maxBytes, codec))
  {
    var (after, pushed) := PushChunk(pending, v, maxBytes, codec);
    if after.Some? || pushed.Complete? {
      if v.index.value == 0 {
        var start := Pending(v.chunkId.value, v.count.value, 0, v.byteLength.value, []);
        assert Latest(values, 0) == [] && Concat([]) == [];
        assert Sequence([], start.chunkId, start.count, start.byteLength, [], codec);
        ExtendKeepsCollected(start, [], values, v, maxBytes, codec);
      } else {
        var p := pending.value;
        var parts :| Concat(parts) == p.buf
                     && Sequence(Latest(values, p.next), p.chunkId, p.count, p.byteLength, parts, codec);
        ExtendKeepsCollected(p, parts, values, v, maxBytes, codec);
      }
    }
  }

  lemma ExtendKeepsCollected(
    p: Pending, parts: seq<seq<byte>>, values: seq<Json>, v: Json, maxBytes: nat, codec: Codec)
    requires v.Chunk? && v.chunkId.Some? && v.index.Some? && v.count.Some? && v.byteLength.Some? && v.data.Some?
    requires p.next < p.count <= MAX_CHUNKS && p.byteLength <= maxBytes && p.next <= |values| && Concat(parts) == p.buf
    requires Sequence(Latest(values, p.next), p.chunkId, p.count, p.byteLength, parts, codec)
    ensures var (after, pushed) := Extend(p, v, codec);
            && Collected(after, values + [v], maxBytes, codec)
            && (pushed.Complete? ==> Genuine(pushed.frame, values + [v], maxBytes, codec))
  {
    var (after, pushed) := Extend(p, v, codec);
    if after.Some? || pushed.Complete? {
      ExtendCases(p, v, codec);
      var bytes := codec.fromBase64(v.data.value).value;
      LatestGrows(p, parts, values, v, bytes, codec);
      Grown(p, values + [v], parts + [bytes], after, pushed, maxBytes, codec);
    }
  }

  lemma ExtendCases(p: Pending, v: Json, codec: Codec)
    requires v.Chunk? && v.chunkId.Some? && v.index.Some? && v.count.Some? && v.byteLength.Some? && v.data.Some?
    requires p.next < p.count
    ensures var (after, pushed) := Extend(p, v, codec);
            after.Some? || pushed.Complete? ==>
              && codec.fromBase64(v.data.value).Some?
              && var grown := p.buf + codec.fromBase64(v.data.value).value;
                 && v.chunkId.value == p.chunkId && v.index.value == p.next
                 && v.count.value == p.count && v.byteLength.value == p.byteLength
                 && |grown| <= p.byteLength
                 && (after.Some? ==>
                       p.next + 1 < p.count && after.value == p.(next := p.next + 1, buf := grown) && !pushed.Complete?)
                 && (pushed.Complete? ==>
                       p.next + 1 == p.count && |grown| == p.byteLength && pushed == Reassembled(grown, codec))
  {
  }

  lemma LatestGrows(p: Pending, parts: seq<seq<byte>>, values: seq<Json>, v: Json, bytes: seq<byte>, codec: Codec)
    requires p.next <= |values| && Concat(parts) == p.buf
    requires Sequence(Latest(values, p.next), p.chunkId, p.count, p.byteLength, parts, codec)
    requires v.Chunk? && v.data.Some? && codec.fromBase64(v.data.value) == Some(bytes)
    requires v.chunkId == Some(p.chunkId) && v.index == Some(p.next) && v.count == Some(p.count)
    requires v.byteLength == Some(p.byteLength)
    ensures Sequence(Latest(values + [v], p.next + 1), p.chunkId, p.count, p.byteLength, parts + [bytes], codec)
    ensures Concat(parts + [bytes]) == p.buf + bytes
  {
    SequenceGrows(Latest(values, p.next), v, p.chunkId, p.count, p.byteLength, parts, bytes, codec);
    LatestOneMore(values, v, p.next);
  }

  lemma LatestOneMore(values: seq<Json>, v: Json, n: nat)
    requires n <= |values|
    ensures Latest(values + [v], n + 1) == Latest(values, n) + [v]
  {
  }

  lemma Grown(
    p: Pending, values: seq<Json>, parts: seq<seq<byte>>, after: Option<Pending>, pushed: Pushed, maxBytes: nat,
    codec: Codec)
    requires p.next < p.count <= MAX_CHUNKS && |Concat(parts)| <= p.byteLength <= maxBytes && p.next < |values|
    requires Sequence(Latest(values, p.next + 1), p.chunkId, p.count, p.byteLength, parts, codec)
    requires after.Some? ==> p.next + 1 < p.count && after.value == p.(next := p.next + 1, buf := Concat(parts)) && !pushed.Complete?
    requires pushed.Complete? ==>
               p.next + 1 == p.count && |Concat(parts)| == p.byteLength && pushed == Reassembled(Concat(parts), codec)
    ensures Collected(after, values, maxBytes, codec)
    ensures pushed.Complete? ==> Genuine(pushed.frame, values, maxBytes, codec)
  {
    if pushed.Complete? {
      assert IsSplitOf(pushed.frame, values, p.chunkId, p.count, parts, maxBytes, codec);
    }
  }

  lemma {:induction false} HistoryIsCollected(lines: seq<string>, maxBytes: nat, codec: Codec)
    ensures Collected(Decode(FRESH, lines, maxBytes, codec).pending, Values(lines, codec), maxBytes, codec)
  {
    if lines != [] {
      HistoryIsCollected(DropLast(lines), maxBytes, codec);
      DecodeLast(FRESH, lines, maxBytes, codec);
      LineKeepsCollected(Decode(FRESH, DropLast(lines), maxBytes, codec).pending, lines, maxBytes, codec);
    }
  }

  lemma DecodeLast(log: Log, lines: seq<string>, maxBytes: nat, codec: Codec)
    requires lines != []
    ensures Decode(log, lines, maxBytes, codec).pending
            == PushLine(Decode(log, DropLast(lines), maxBytes, codec).pending, Last(lines), maxBytes, codec).0
  {
  }

  lemma LineKeepsCollected(pending: Option<Pending>, lines: seq<string>, maxBytes: nat, codec: Codec)
    requires lines != [] && Collected(pending, Values(DropLast(lines), codec), maxBytes, codec)
    ensures Collected(PushLine(pending, Last(lines), maxBytes, codec).0, Values(lines, codec), maxBytes, codec)
  {
    ValueKeepsCollected(pending, Values(DropLast(lines), codec), Last(lines), maxBytes, codec);
  }

  lemma ValueKeepsCollected(pending: Option<Pending>, values: seq<Json>, line: string, maxBytes: nat, codec: Codec)
    requires Collected(pending, values, maxBytes, codec)
    ensures Collected(PushLine(pending, line, maxBytes, codec).0, values + ValueOf(line, codec), maxBytes, codec)
  {
    var text := Trim(line);
    if text == "" || codec.parse(text).None? {
      assert values + [] == values;
    } else if codec.parse(text).value.Chunk? {
      ChunkKeepsCollected(pending, values, codec.parse(text).value, maxBytes, codec);
    }
  }

  /** Soundness over every history: a frame is returned for a chunk line only if the latest lines that are not blank and
      parse are exactly the chunks it was split into. What is pending stays within the bounds. */
  lemma OnlyGenuineFrames(lines: seq<string>, line: string, maxBytes: nat, codec: Codec)
    ensures var pending := Decode(FRESH, lines, maxBytes, codec).pending;
            var value := codec.parse(Trim(line));
            var pushed := PushLine(pending, line, maxBytes, codec).1;
            && Collected(pending, Values(lines, codec), maxBytes, codec)
            && (pushed.Complete? ==>
                  && Trim(line) != ""
                  && value.Some?
                  && if value.value.Chunk? then Genuine(pushed.frame, Values(lines + [line], codec), maxBytes, codec)
                     else value.value == pushed.frame && pushed.frame.Frame? && pending.None?)
  {
    HistoryIsCollected(lines, maxBytes, codec);
    assert DropLast(lines + [line]) == lines;
    GenuinePush(Decode(FRESH, lines, maxBytes, codec).pending, Values(lines, codec), line, maxBytes, codec);
  }

  lemma GenuinePush(pending: Option<Pending>, values: seq<Json>, line: string, maxBytes: nat, codec: Codec)
    requires Collected(pending, values, maxBytes, codec)
    ensures var value := codec.parse(Trim(line));
            var pushed := PushLine(pending, line, maxBytes, codec).1;
            pushed.Complete? ==>
              && Trim(line) != ""
              && value.Some?
              && if value.value.Chunk? then Genuine(pushed.frame, values + ValueOf(line, codec), maxBytes, codec)
                 else value.value == pushed.frame && pushed.frame.Frame? && pending.None?
  {
    var text := Trim(line);
    if text != "" && codec.parse(text).Some? && codec.parse(text).value.Chunk? {
      ChunkKeepsCollected(pending, values, codec.parse(text).value, maxBytes, codec);
    }
  }

  /** After an error the decoder is as good as new, exactly unless the line itself was not JSON while a sequence was
      pending: that sequence then stays pending. */
  lemma ErrorsStartAfresh(pending: Option<Pending>, line: string, maxBytes: nat, codec: Codec)
    requires PushLine(pending, line, maxBytes, codec).1.Failure?
    ensures PushLine(pending, line, maxBytes, codec).0 == None <==> pending.None? || codec.parse(Trim(line)).Some?
    ensures codec.parse(Trim(line)).None? ==> PushLine(pending, line, maxBytes, codec).0 == pending
  {
  }
}
