/** Decoder for the lines a process writes: plain JSON objects, or one object split over several `rpc_chunk` lines. */
module FrameDecoder {
  import opened Wrappers

  type byte = x: int | 0 <= x < 256 witness 0

  /** A parsed JSON value, as far as the decoder looks at it: any value that is not an object, an object of another type
      than `rpc_chunk`, or an `rpc_chunk` object, whose fields may be missing or of the wrong type. */
  datatype Json =
    | NonObject(text: string)
    | Frame(body: string)
    | Chunk(chunkId: Option<string>, index: Option<nat>, count: Option<nat>, byteLength: Option<nat>, data: Option<string>)

  /** The text codings the decoder relies on. */
  datatype Codec = Codec(
    parse: string -> Option<Json>,
    unparse: Json -> string,
    fromUtf8: seq<byte> -> Option<string>,
    toUtf8: string -> seq<byte>,
    fromBase64: string -> Option<seq<byte>>,
    toBase64: seq<byte> -> string)

  datatype FrameError = BadJson | BadChunk | NotObject

  datatype Pushed = Nothing | Complete(frame: Json) | Failure(error: FrameError)

  datatype Pending = Pending(chunkId: string, count: nat, next: nat, byteLength: nat, buf: seq<byte>)

  const MAX_CHUNKS: nat := 4096

  /** The text without leading and trailing white space. */
  function Trim(text: string): string {
    if text == "" then ""
    else if IsSpace(text[0]) then Trim(text[1..])
    else if IsSpace(Last(text)) then Trim(DropLast(text))
    else text
  }

  // ---- One line

  function PushLine(pending: Option<Pending>, line: string, maxBytes: nat, codec: Codec): (Option<Pending>, Pushed) {
    var text := Trim(line);
    if text == "" then (pending, Nothing)
    else
      match codec.parse(text)
      case None => (pending, Failure(BadJson))
      case Some(NonObject(_)) => (None, Failure(NotObject))
      case Some(Frame(body)) => (None, if pending.Some? then Failure(BadChunk) else Complete(Frame(body)))
      case Some(Chunk(chunkId, index, count, byteLength, data)) =>
        PushChunk(pending, Chunk(chunkId, index, count, byteLength, data), maxBytes, codec)
  }

  function PushChunk(pending: Option<Pending>, v: Json, maxBytes: nat, codec: Codec): (Option<Pending>, Pushed)
    requires v.Chunk?
  {
    if v.chunkId.None? || v.index.None? || v.count.None? || v.byteLength.None? || v.data.None? || v.data.value == "" then
      (None, Failure(BadChunk))
    else if v.index.value == 0
            && (pending.Some? || v.count.value == 0 || v.count.value > MAX_CHUNKS || v.byteLength.value > maxBytes) then
      (None, Failure(BadChunk))
    else
      var started :=
        if v.index.value == 0 then Some(Pending(v.chunkId.value, v.count.value, 0, v.byteLength.value, [])) else pending;
      if started.None? then (None, Failure(BadChunk)) else Extend(started.value, v, codec)
  }

  function Extend(p: Pending, v: Json, codec: Codec): (Option<Pending>, Pushed)
    requires v.Chunk? && v.chunkId.Some? && v.index.Some? && v.count.Some? && v.byteLength.Some? && v.data.Some?
  {
    if p.chunkId != v.chunkId.value || p.next != v.index.value || p.count != v.count.value
       || p.byteLength != v.byteLength.value then (None, Failure(BadChunk))
    else
      match codec.fromBase64(v.data.value)
      case None => (None, Failure(BadChunk))
      case Some(bytes) =>
        var buf := p.buf + bytes;
        if |buf| > p.byteLength then (None, Failure(BadChunk))
        else if p.next + 1 < p.count then (Some(p.(next := p.next + 1, buf := buf)), Nothing)
        else if |buf| != p.byteLength then (None, Failure(BadChunk))
        else (None, Reassembled(buf, codec))
  }

  function Reassembled(buf: seq<byte>, codec: Codec): Pushed {
    match codec.fromUtf8(buf)
    case None => Failure(BadChunk)
    case Some(text) =>
      match codec.parse(text)
      case None => Failure(BadJson)
      case Some(NonObject(_)) => Failure(NotObject)
      case Some(Frame(body)) => Complete(Frame(body))
      case Some(Chunk(_, _, _, _, _)) => Failure(BadChunk)
  }

  // ---- The decoder object

  class Decoder {
    const maxBytes: nat
    const codec: Codec
    var pending: Option<Pending>

    constructor (maxBytes: nat, codec: Codec)
      ensures this.maxBytes == maxBytes && this.codec == codec && pending == None
    {
      this.maxBytes, this.codec, pending := maxBytes, codec, None;
    }

    /** Feeds one line. */
    method Push(line: string) returns (pushed: Pushed)
      modifies this
      ensures (pending, pushed) == PushLine(old(pending), line, maxBytes, codec)
    {
      var text := Trim(line);
      if text == "" {
        return Nothing;
      }
      var value := codec.parse(text);
      if value.None? {
        return Failure(BadJson);
      }
      if value.value.NonObject? {
        pending := None;
        return Failure(NotObject);
      }
      if value.value.Frame? {
        if pending.Some? {
          pending := None;
          return Failure(BadChunk);
        }
        return Complete(value.value);
      }
      pushed := PushOneChunk(value.value);
      if pushed.Failure? {
        pending := None;
      }
    }

    /** Adds a chunk; after a failure the caller drops what was collected. */
    method PushOneChunk(v: Json) returns (pushed: Pushed)
      requires v.Chunk?
      modifies this
      ensures pushed == PushChunk(old(pending), v, maxBytes, codec).1
      ensures !pushed.Failure? ==> pending == PushChunk(old(pending), v, maxBytes, codec).0
      ensures pushed.Failure? ==> PushChunk(old(pending), v, maxBytes, codec).0 == None
    {
      if v.chunkId.None? || v.index.None? || v.count.None? || v.byteLength.None? || v.data.None? {
        return Failure(BadChunk);
      }
      if v.data.value == "" {
        return Failure(BadChunk);
      }
      if v.index.value == 0 {
        if pending.Some? {
          return Failure(BadChunk);
        }
        if v.count.value == 0 || v.count.value > MAX_CHUNKS || v.byteLength.value > maxBytes {
          return Failure(BadChunk);
        }
        pending := Some(Pending(v.chunkId.value, v.count.value, 0, v.byteLength.value, []));
      }
      if pending.None? {
        return Failure(BadChunk);
      }
      var p := pending.value;
      if p.chunkId != v.chunkId.value || p.next != v.index.value || p.count != v.count.value
         || p.byteLength != v.byteLength.value {
        return Failure(BadChunk);
      }
      var bytes := codec.fromBase64(v.data.value);
      if bytes.None? {
        return Failure(BadChunk);
      }
      p := p.(buf := p.buf + bytes.value);
      if |p.buf| > p.byteLength {
        return Failure(BadChunk);
      }
      p := p.(next := p.next + 1);
      pending := Some(p);
      if p.next < p.count {
        return Nothing;
      }
      pending := None;
      if |p.buf| != p.byteLength {
        return Failure(BadChunk);
      }
      return Reassembled(p.buf, codec);
    }
  }
}
