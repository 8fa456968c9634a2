/** Exactly which streams the decoder accepts, and as what; and which lines it refuses, and why. */
module FrameGrammar {
  import opened FrameDecoder
  import opened FrameStream
  import opened Wrappers

  // ---- The streams that are sound

  /** All chunks of one sequence, in order, with no data missing, within the limits, whose bytes read as this frame. */
  ghost predicate IsWhole(
    values: seq<Json>, frame: Json, id: string, parts: seq<seq<byte>>, text: string, maxBytes: nat, codec: Codec)
  {
    && 1 <= |parts| <= MAX_CHUNKS
    && |Concat(parts)| <= maxBytes
    && Sequence(values, id, |parts|, |Concat(parts)|, parts, codec)
    && AllWithData(values)
    && codec.fromUtf8(Concat(parts)) == Some(text)
    && codec.parse(text) == Some(frame)
    && frame.Frame?
  }

  predicate AllWithData(values: seq<Json>) {
    forall i :: 0 <= i < |values| ==> values[i].Chunk? && values[i].data.Some? && values[i].data.value != ""
  }

  /** The values make up one frame: the frame itself, or the chunks it was split into. */
  ghost predicate Unit(values: seq<Json>, frame: Json, maxBytes: nat, codec: Codec) {
    || (values == [frame] && frame.Frame?)
    || exists id, parts, text :: IsWhole(values, frame, id, parts, text, maxBytes, codec)
  }

  /** The values make up these frames, one after the other. */
  ghost predicate Frames(values: seq<Json>, frames: seq<Json>, maxBytes: nat, codec: Codec)
    decreases |frames|
  {
    if frames == [] then values == []
    else
      exists n: nat :: n <= |values|
        && Frames(values[..n], DropLast(frames), maxBytes, codec) && Unit(values[n..], Last(frames), maxBytes, codec)
  }

  predicate Parses(line: string, codec: Codec) {
    IsBlankLine(line) || codec.parse(Trim(line)).Some?
  }

  predicate AllParse(lines: seq<string>, codec: Codec) {
    forall i :: 0 <= i < |lines| ==> Parses(lines[i], codec)
  }

  // ---- Whatever is accepted is sound

  /** What is pending is the beginning of a sequence: exactly the values since the last frame. */
  ghost predicate Begun(rest: seq<Json>, pending: Option<Pending>, maxBytes: nat, codec: Codec) {
    match pending
    case None => rest == []
    case Some(p) =>
      && 1 <= p.next == |rest| < p.count <= MAX_CHUNKS
      && |p.buf| <= p.byteLength <= maxBytes
      && AllWithData(rest)
      && exists parts :: Concat(parts) == p.buf && Sequence(rest, p.chunkId, p.count, p.byteLength, parts, codec)
  }

  ghost predicate SoundAt(values: seq<Json>, log: Log, n: nat, maxBytes: nat, codec: Codec) {
    n <= |values| && Frames(values[..n], log.frames, maxBytes, codec) && Begun(values[n..], log.pending, maxBytes, codec)
  }

  ghost predicate SoundLog(values: seq<Json>, log: Log, maxBytes: nat, codec: Codec) {
    exists n: nat :: SoundAt(values, log, n, maxBytes, codec)
  }

  lemma FramesGrow(values: seq<Json>, frames: seq<Json>, unit: seq<Json>, frame: Json, maxBytes: nat, codec: Codec)
    requires Frames(values, frames, maxBytes, codec) && Unit(unit, frame, maxBytes, codec)
    ensures Frames(values + unit, frames + [frame], maxBytes, codec)
  {
    var all := values + unit;
    assert all[..|values|] == values && all[|values|..] == unit;
    assert DropLast(frames + [frame]) == frames;
  }

  lemma ChunkExtends(p: Pending, parts: seq<seq<byte>>, rest: seq<Json>, v: Json, maxBytes: nat, codec: Codec)
    requires v.Chunk? && v.chunkId.Some? && v.index.Some? && v.count.Some? && v.byteLength.Some? && v.data.Some?
    requires v.data.value != "" && AllWithData(rest)
    requires p.next == |rest| < p.count <= MAX_CHUNKS && p.byteLength <= maxBytes && Concat(parts) == p.buf
    requires Sequence(rest, p.chunkId, p.count, p.byteLength, parts, codec)
    ensures var (after, pushed) := Extend(p, v, codec);
            && (pushed.Nothing? ==> after.Some? && Begun(rest + [v], after, maxBytes, codec))
            && (pushed.Complete? ==> after.None? && Unit(rest + [v], pushed.frame, maxBytes, codec))
  {
    var (after, pushed) := Extend(p, v, codec);
    if !pushed.Failure? {
      var bytes := codec.fromBase64(v.data.value).value;
      SequenceGrows(rest, v, p.chunkId, p.count, p.byteLength, parts, bytes, codec);
      assert AllWithData(rest + [v]);
      if pushed.Complete? {
        WholeAtLast(p, parts + [bytes], rest + [v], pushed.frame, maxBytes, codec);
      }
    }
  }

  lemma WholeAtLast(p: Pending, parts: seq<seq<byte>>, values: seq<Json>, frame: Json, maxBytes: nat, codec: Codec)
    requires |values| == p.count <= MAX_CHUNKS && values != [] && p.byteLength == |Concat(parts)| <= maxBytes
    requires Sequence(values, p.chunkId, p.count, p.byteLength, parts, codec) && AllWithData(values)
    requires Reassembled(Concat(parts), codec) == Complete(frame)
    ensures Unit(values, frame, maxBytes, codec)
  {
    var text := codec.fromUtf8(Concat(parts)).value;
    assert IsWhole(values, frame, p.chunkId, parts, text, maxBytes, codec);
  }

  lemma ChunkIsSound(rest: seq<Json>, pending: Option<Pending>, v: Json, maxBytes: nat, codec: Codec)
    requires v.Chunk? && Begun(rest, pending, maxBytes, codec)
    ensures var (after, pushed) := PushChunk(pending, v, maxBytes, codec);
            && (pushed.Nothing? ==> after.Some? && Begun(rest + [v], after, maxBytes, codec))
            && (pushed.Complete? ==> after.None? && Unit(rest + [v], pushed.frame, maxBytes, codec))
  {
    var (after, pushed) := PushChunk(pending, v, maxBytes, codec);
    if !pushed.Failure? {
      if v.index.value == 0 {
        var start := Pending(v.chunkId.value, v.count.value, 0, v.byteLength.value, []);
        assert rest == [] && Sequence([], start.chunkId, start.count, start.byteLength, [], codec);
        ChunkExtends(start, [], [], v, maxBytes, codec);
      } else {
        var p := pending.value;
        var parts :| Concat(parts) == p.buf && Sequence(rest, p.chunkId, p.count, p.byteLength, parts, codec);
        ChunkExtends(p, parts, rest, v, maxBytes, codec);
      }
    }
  }

  lemma ValueIsSound(values: seq<Json>, log: Log, line: string, maxBytes: nat, codec: Codec)
    requires SoundLog(values, log, maxBytes, codec)
    requires Push(log, line, maxBytes, codec).failures == log.failures
    ensures Parses(line, codec) && SoundLog(values + ValueOf(line, codec), Push(log, line, maxBytes, codec), maxBytes, codec)
  {
    var n: nat :| SoundAt(values, log, n, maxBytes, codec);
    var after := Push(log, line, maxBytes, codec);
    if IsBlankLine(line) {
      assert values + [] == values;
      assert SoundAt(values, after, n, maxBytes, codec);
    } else {
      ReadIsSound(values[n..], log, line, maxBytes, codec);
      OneMoreValue(values, n, log, after, codec.parse(Trim(line)).value, maxBytes, codec);
    }
  }

  lemma ReadIsSound(rest: seq<Json>, log: Log, line: string, maxBytes: nat, codec: Codec)
    requires Begun(rest, log.pending, maxBytes, codec) && !IsBlankLine(line)
    requires Push(log, line, maxBytes, codec).failures == log.failures
    ensures var after, v := Push(log, line, maxBytes, codec), codec.parse(Trim(line));
            && v.Some?
            && ((after.frames == log.frames && Begun(rest + [v.value], after.pending, maxBytes, codec))
                || (after.pending.None? && after.frames != [] && DropLast(after.frames) == log.frames
                    && Unit(rest + [v.value], Last(after.frames), maxBytes, codec)))
  {
    var v := codec.parse(Trim(line)).value;
    if v.Chunk? {
      ChunkIsSound(rest, log.pending, v, maxBytes, codec);
    } else {
      assert rest + [v] == [v];
    }
    var after := Push(log, line, maxBytes, codec);
    assert after.frames != log.frames ==> DropLast(after.frames) == log.frames;
  }

  lemma OneMoreValue(values: seq<Json>, n: nat, log: Log, after: Log, v: Json, maxBytes: nat, codec: Codec)
    requires SoundAt(values, log, n, maxBytes, codec)
    requires || (after.frames == log.frames && Begun(values[n..] + [v], after.pending, maxBytes, codec))
             || (after.pending.None? && after.frames != [] && DropLast(after.frames) == log.frames
                 && Unit(values[n..] + [v], Last(after.frames), maxBytes, codec))
    ensures SoundLog(values + [v], after, maxBytes, codec)
  {
    var rest := values[n..] + [v];
    JoinedBack(values, n, v);
    if after.frames == log.frames && Begun(rest, after.pending, maxBytes, codec) {
      SoundAfter(values[..n], rest, after, maxBytes, codec);
    } else {
      FramesGrow(values[..n], log.frames, rest, Last(after.frames), maxBytes, codec);
      PutBack(after.frames);
      SoundAfter(values[..n] + rest, [], after, maxBytes, codec);
      PutBack(values + [v]);
    }
  }

  lemma JoinedBack(values: seq<Json>, n: nat, v: Json)
    requires n <= |values|
    ensures values[..n] + (values[n..] + [v]) == values + [v]
  {
  }

  lemma PutBack(values: seq<Json>)
    requires values != []
    ensures DropLast(values) + [Last(values)] == values && values + [] == values
  {
  }

  lemma SoundAfter(before: seq<Json>, rest: seq<Json>, log: Log, maxBytes: nat, codec: Codec)
    requires Frames(before, log.frames, maxBytes, codec) && Begun(rest, log.pending, maxBytes, codec)
    ensures SoundLog(before + rest, log, maxBytes, codec)
  {
    var all := before + rest;
    assert all[..|before|] == before && all[|before|..] == rest;
    assert SoundAt(all, log, |before|, maxBytes, codec);
  }

  lemma {:induction false} AcceptedIsSound(lines: seq<string>, maxBytes: nat, codec: Codec)
    requires Decode(FRESH, lines, maxBytes, codec).failures == 0
    ensures AllParse(lines, codec) && SoundLog(Values(lines, codec), Decode(FRESH, lines, maxBytes, codec), maxBytes, codec)
  {
    if lines == [] {
      assert SoundAt([], FRESH, 0, maxBytes, codec);
    } else {
      var before := Decode(FRESH, DropLast(lines), maxBytes, codec);
      OneMoreLine(FRESH, lines, maxBytes, codec);
      PushCounts(before, Last(lines), maxBytes, codec);
      AcceptedIsSound(DropLast(lines), maxBytes, codec);
      ValueIsSound(Values(DropLast(lines), codec), before, Last(lines), maxBytes, codec);
      OneMoreParses(lines, codec);
    }
  }

  lemma OneMoreLine(log: Log, lines: seq<string>, maxBytes: nat, codec: Codec)
    requires lines != []
    ensures Decode(log, lines, maxBytes, codec) == Push(Decode(log, DropLast(lines), maxBytes, codec), Last(lines), maxBytes, codec)
  {
  }

  lemma PushCounts(log: Log, line: string, maxBytes: nat, codec: Codec)
    ensures log.failures <= Push(log, line, maxBytes, codec).failures
  {
  }

  lemma OneMoreParses(lines: seq<string>, codec: Codec)
    requires lines != []
    ensures AllParse(lines, codec) <==> AllParse(DropLast(lines), codec) && Parses(Last(lines), codec)
    ensures Values(lines, codec) == Values(DropLast(lines), codec) + ValueOf(Last(lines), codec)
  {
    assert forall i :: 0 <= i < |lines| - 1 ==> DropLast(lines)[i] == lines[i];
    assert Last(lines) == lines[|lines| - 1];
  }

  // ---- Whatever is sound is accepted

  lemma {:induction false} SilentLines(log: Log, lines: seq<string>, maxBytes: nat, codec: Codec)
    requires AllParse(lines, codec) && Values(lines, codec) == []
    ensures Decode(log, lines, maxBytes, codec) == log
  {
    if lines != [] {
      assert Parses(lines[|lines| - 1], codec);
      SilentLines(log, DropLast(lines), maxBytes, codec);
    }
  }

  lemma {:induction false} PlainIsDecoded(log: Log, lines: seq<string>, frame: Json, maxBytes: nat, codec: Codec)
    requires AllParse(lines, codec) && Values(lines, codec) == [frame] && frame.Frame? && log.pending.None?
    ensures Decode(log, lines, maxBytes, codec) == log.(frames := log.frames + [frame])
  {
    assert Parses(lines[|lines| - 1], codec);
    if IsBlankLine(Last(lines)) {
      assert Values(DropLast(lines), codec) == [frame];
      PlainIsDecoded(log, DropLast(lines), frame, maxBytes, codec);
    } else {
      LastValue(lines, codec);
      assert Values(DropLast(lines), codec) == [] && codec.parse(Trim(Last(lines))).value == frame;
      SilentLines(log, DropLast(lines), maxBytes, codec);
    }
  }

  lemma LastValue(lines: seq<string>, codec: Codec)
    requires lines != [] && !IsBlankLine(Last(lines)) && Parses(Last(lines), codec)
    ensures Values(lines, codec) != [] && Last(Values(lines, codec)) == codec.parse(Trim(Last(lines))).value
    ensures DropLast(Values(lines, codec)) == Values(DropLast(lines), codec)
  {
  }

  /** The decoder when it has read the first `i` values of a whole sequence. */
  function AfterValues(log: Log, frame: Json, id: string, parts: seq<seq<byte>>, i: nat): Log
    requires i <= |parts|
  {
    if i == 0 then log
    else if i == |parts| then log.(frames := log.frames + [frame])
    else log.(pending := Some(Pending(id, |parts|, i, |Concat(parts)|, Concat(parts[..i]))))
  }

  lemma NextValue(
    log: Log, values: seq<Json>, frame: Json, id: string, parts: seq<seq<byte>>, text: string, i: nat, line: string,
    maxBytes: nat, codec: Codec)
    requires IsWhole(values, frame, id, parts, text, maxBytes, codec) && log.pending.None? && i < |parts|
    requires !IsBlankLine(line) && codec.parse(Trim(line)) == Some(values[i])
    ensures Push(AfterValues(log, frame, id, parts, i), line, maxBytes, codec) == AfterValues(log, frame, id, parts, i + 1)
  {
    ConcatPrefix(parts, i + 1);
    assert DropLast(parts[..i + 1]) == parts[..i] && Last(parts[..i + 1]) == parts[i];
    assert Concat(parts[..i + 1]) == Concat(parts[..i]) + parts[i];
    assert values[i].Chunk? && values[i].data.value != "";
    if i == 0 {
      assert parts[..0] == [] && [] + parts[0] == parts[0];
    }
    if i + 1 == |parts| {
      assert parts[..i + 1] == parts;
    }
  }

  lemma BlankChangesNothing(log: Log, line: string, maxBytes: nat, codec: Codec)
    requires IsBlankLine(line)
    ensures Push(log, line, maxBytes, codec) == log
  {
  }

  lemma {:induction false} WholeIsDecoded(
    log: Log, lines: seq<string>, values: seq<Json>, frame: Json, id: string, parts: seq<seq<byte>>, text: string, i: nat,
    maxBytes: nat, codec: Codec)
    requires IsWhole(values, frame, id, parts, text, maxBytes, codec) && log.pending.None? && i <= |parts|
    requires AllParse(lines, codec) && Values(lines, codec) == values[..i]
    ensures Decode(log, lines, maxBytes, codec) == AfterValues(log, frame, id, parts, i)
    decreases |lines|
  {
    if lines != [] {
      OneMoreParses(lines, codec);
      OneMoreLine(log, lines, maxBytes, codec);
      if IsBlankLine(Last(lines)) {
        BlankChangesNothing(Decode(log, DropLast(lines), maxBytes, codec), Last(lines), maxBytes, codec);
        WholeIsDecoded(log, DropLast(lines), values, frame, id, parts, text, i, maxBytes, codec);
      } else {
        LastValue(lines, codec);
        assert DropLast(values[..i]) == values[..i - 1] && Last(values[..i]) == values[i - 1];
        WholeIsDecoded(log, DropLast(lines), values, frame, id, parts, text, i - 1, maxBytes, codec);
        NextValue(log, values, frame, id, parts, text, i - 1, Last(lines), maxBytes, codec);
      }
    }
  }

  lemma UnitIsDecoded(log: Log, lines: seq<string>, frame: Json, maxBytes: nat, codec: Codec)
    requires AllParse(lines, codec) && Unit(Values(lines, codec), frame, maxBytes, codec) && log.pending.None?
    ensures Decode(log, lines, maxBytes, codec) == log.(frames := log.frames + [frame])
  {
    var values := Values(lines, codec);
    if values == [frame] && frame.Frame? {
      PlainIsDecoded(log, lines, frame, maxBytes, codec);
    } else {
      var id, parts, text :| IsWhole(values, frame, id, parts, text, maxBytes, codec);
      assert values[..|parts|] == values;
      WholeIsDecoded(log, lines, values, frame, id, parts, text, |parts|, maxBytes, codec);
    }
  }

  /** The lines can be cut where their values can. */
  lemma {:induction false} CutAt(lines: seq<string>, n: nat, codec: Codec) returns (m: nat)
    requires n <= |Values(lines, codec)|
    ensures m <= |lines|
    ensures Values(lines[..m], codec) == Values(lines, codec)[..n] && Values(lines[m..], codec) == Values(lines, codec)[n..]
  {
    var values := Values(lines, codec);
    if n == |values| {
      m := |lines|;
      assert lines[..m] == lines && lines[m..] == [] && values[..n] == values && values[n..] == [];
    } else {
      var fewer := DropLast(lines);
      m := CutAt(fewer, n, codec);
      assert fewer[..m] == lines[..m];
      CutLast(lines, m);
      SlicedBefore(Values(fewer, codec), ValueOf(Last(lines), codec), n);
    }
  }

  lemma CutLast(lines: seq<string>, m: nat)
    requires m < |lines|
    ensures DropLast(lines[m..]) == DropLast(lines)[m..] && Last(lines[m..]) == Last(lines)
  {
  }

  lemma SlicedBefore(values: seq<Json>, more: seq<Json>, n: nat)
    requires n <= |values|
    ensures (values + more)[..n] == values[..n] && (values + more)[n..] == values[n..] + more
  {
  }

  lemma CutBeforeLast(lines: seq<string>, frames: seq<Json>, maxBytes: nat, codec: Codec) returns (m: nat)
    requires frames != [] && Frames(Values(lines, codec), frames, maxBytes, codec) && AllParse(lines, codec)
    ensures m <= |lines| && AllParse(lines[..m], codec) && AllParse(lines[m..], codec)
    ensures Frames(Values(lines[..m], codec), DropLast(frames), maxBytes, codec)
    ensures Unit(Values(lines[m..], codec), Last(frames), maxBytes, codec)
  {
    var values := Values(lines, codec);
    var n: nat :| n <= |values|
      && Frames(values[..n], DropLast(frames), maxBytes, codec) && Unit(values[n..], Last(frames), maxBytes, codec);
    m := CutAt(lines, n, codec);
  }

  lemma {:induction false} SoundIsAccepted(lines: seq<string>, frames: seq<Json>, maxBytes: nat, codec: Codec)
    requires AllParse(lines, codec) && Frames(Values(lines, codec), frames, maxBytes, codec)
    ensures Decode(FRESH, lines, maxBytes, codec) == Log(None, frames, 0)
    decreases |frames|
  {
    if frames == [] {
      SilentLines(FRESH, lines, maxBytes, codec);
    } else {
      var m := CutBeforeLast(lines, frames, maxBytes, codec);
      SoundIsAccepted(lines[..m], DropLast(frames), maxBytes, codec);
      UnitIsDecoded(Log(None, DropLast(frames), 0), lines[m..], Last(frames), maxBytes, codec);
      InTwoParts(Pusher(maxBytes, codec), lines, m, frames);
    }
  }

  /** For any way to read lines. */
  lemma InTwoParts(step: (Log, string) -> Log, lines: seq<string>, m: nat, frames: seq<Json>)
    requires m <= |lines| && frames != []
    requires var mid := Log(None, DropLast(frames), 0);
             && Fold(step, FRESH, lines[..m]) == mid
             && Fold(step, mid, lines[m..]) == mid.(frames := DropLast(frames) + [Last(frames)])
    ensures Fold(step, FRESH, lines) == Log(None, frames, 0)
  {
    FoldInParts(step, FRESH, lines[..m], lines[m..]);
    TwoParts(lines, m);
    PutBack(frames);
  }

  lemma TwoParts(lines: seq<string>, m: nat)
    requires m <= |lines|
    ensures lines[..m] + lines[m..] == lines
  {
  }

  /** The decoder reads a stream without an error and with nothing pending, as these frames, if and only if every line that is not
      blank parses and the values are, in order, these frames, each plain or as all the chunks of one sequence within the
      limits. */
  lemma AcceptedExactly(lines: seq<string>, frames: seq<Json>, maxBytes: nat, codec: Codec)
    ensures Decode(FRESH, lines, maxBytes, codec) == Log(None, frames, 0) <==>
              AllParse(lines, codec) && Frames(Values(lines, codec), frames, maxBytes, codec)
  {
    var log, values := Decode(FRESH, lines, maxBytes, codec), Values(lines, codec);
    if log == Log(None, frames, 0) {
      AcceptedIsSound(lines, maxBytes, codec);
      var n: nat :| SoundAt(values, log, n, maxBytes, codec);
      assert values[n..] == [] && values[..n] == values;
    }
    if AllParse(lines, codec) && Frames(values, frames, maxBytes, codec) {
      SoundIsAccepted(lines, frames, maxBytes, codec);
    }
  }

  // ---- One line

  /** A line that yields neither a frame nor an error is blank or the next chunk of a sequence: nothing is swallowed. A plain frame in
      the middle of a sequence is an error. */
  lemma NothingIsSwallowed(pending: Option<Pending>, line: string, maxBytes: nat, codec: Codec)
    ensures var (after, pushed) := PushLine(pending, line, maxBytes, codec);
            && (pushed.Nothing? ==>
                  if IsBlankLine(line) then after == pending
                  else after.Some? && after.value.next == (if pending.Some? then pending.value.next else 0) + 1)
            && (pushed.Complete? ==> after.None?)
            && (!IsBlankLine(line) && codec.parse(Trim(line)).Some? && codec.parse(Trim(line)).value.Frame? && pending.Some? ==>
                  pushed == Failure(BadChunk))
  {
  }

  /** The bytes of a frame of which this is the last chunk. */
  function Gathered(pending: Option<Pending>, v: Json, maxBytes: nat, codec: Codec): Option<seq<byte>>
    requires v.Chunk?
  {
    if v.chunkId.None? || v.index.None? || v.count != Some(v.index.value + 1) || v.byteLength.None? then None
    else if v.data.None? || v.data.value == "" || codec.fromBase64(v.data.value).None? then None
    else
      var bytes := codec.fromBase64(v.data.value).value;
      if pending.None? then
        if v.index.value == 0 && |bytes| == v.byteLength.value <= maxBytes then Some(bytes) else None
      else
        var p := pending.value;
        if v.index.value == p.next > 0 && (Some(p.chunkId), Some(p.count), Some(p.byteLength)) == (v.chunkId, v.count, v.byteLength)
           && |p.buf + bytes| == p.byteLength then Some(p.buf + bytes)
        else None
  }

  /** The text that has to be a JSON object: the line itself, or what its sequence comes to. */
  function Read(pending: Option<Pending>, line: string, maxBytes: nat, codec: Codec): Option<string> {
    match codec.parse(Trim(line))
    case Some(Chunk(id, index, count, length, data)) =>
      (match Gathered(pending, Chunk(id, index, count, length, data), maxBytes, codec)
       case Some(bytes) => codec.fromUtf8(bytes)
       case None => None)
    case _ => Some(Trim(line))
  }

  /** Why a line is refused: the text is no JSON, or no object, or else the chunks are not in order. */
  lemma ErrorsSayWhy(pending: Option<Pending>, line: string, maxBytes: nat, codec: Codec)
    requires pending.Some? ==> 0 < pending.value.next < pending.value.count <= MAX_CHUNKS
    requires PushLine(pending, line, maxBytes, codec).1.Failure?
    ensures var error, text := PushLine(pending, line, maxBytes, codec).1.error, Read(pending, line, maxBytes, codec);
            error == if text.Some? && codec.parse(text.value).None? then BadJson
                     else if text.Some? && codec.parse(text.value).value.NonObject? then NotObject
                     else BadChunk
  {
    var value := codec.parse(Trim(line));
    if value.Some? && value.value.Chunk? && value.value.data.Some? {
      var bytes := codec.fromBase64(value.value.data.value);
      assert bytes.Some? ==> [] + bytes.value == bytes.value;
    }
  }
}
