/** The byte stream between two nodes: newline-terminated messages mixed with
    runs of raw bytes whose length the message before them declares. */
module Wires {
  import opened Options
  import opened FileIndexes
  import opened Decisions

  const NEWLINE: Byte := 10
  const CHUNK: nat := 0x10_0000
  const STREAM_THRESHOLD: nat := 64 * 1024 * 1024
  const READER_LIMIT: nat := 96 * 1024 * 1024

  /** What one JSON line can say: a message, or the header of a raw run. */
  datatype Packet = Plain(msg: Message) | StreamHeader(path: Path, size: nat, entry: Entry)

  /** The JSON text of a packet, left abstract. */
  datatype Codec = Codec(encode: Packet -> seq<Byte>, decode: seq<Byte> -> Option<Packet>)

  ghost predicate ValidCodec(codec: Codec) {
    forall packet :: codec.decode(codec.encode(packet)) == Some(packet) && NEWLINE !in codec.encode(packet)
  }

  /** What is sent as one unit: a message, or a file in raw bytes. */
  datatype Frame = Whole(msg: Message) | Raw(path: Path, content: Content, entry: Entry)

  /** How a file is framed, by its size. */
  function FileFrame(path: Path, content: Content, entry: Entry): Frame {
    if |content| < STREAM_THRESHOLD then Whole(FileData(path, content, entry)) else Raw(path, content, entry)
  }

  function Written(codec: Codec, frame: Frame): seq<Byte> {
    match frame
    case Whole(msg) => codec.encode(Plain(msg)) + [NEWLINE]
    case Raw(path, content, entry) => codec.encode(StreamHeader(path, |content|, entry)) + [NEWLINE] + content
  }

  function AllWritten(codec: Codec, frames: seq<Frame>): seq<Byte> {
    if frames == [] then [] else Written(codec, frames[0]) + AllWritten(codec, frames[1..])
  }

  lemma {:induction false} WrittenAppend(codec: Codec, x: seq<Frame>, y: seq<Frame>)
    ensures AllWritten(codec, x + y) == AllWritten(codec, x) + AllWritten(codec, y)
  {
    if x == [] {
      assert x + y == y;
    } else {
      var both := x + y;
      assert both[0] == x[0] && both[1..] == x[1..] + y;
      WrittenAppend(codec, x[1..], y);
      BytesAssociate(Written(codec, x[0]), AllWritten(codec, x[1..]), AllWritten(codec, y));
    }
  }

  lemma BytesAssociate(x: seq<Byte>, y: seq<Byte>, z: seq<Byte>)
    ensures x + (y + z) == (x + y) + z
  {
  }

  /** The bytes before the first newline. */
  function FirstLine(bytes: seq<Byte>): (line: seq<Byte>)
    ensures |line| <= |bytes| && line == bytes[..|line|] && NEWLINE !in line
    ensures |line| < |bytes| ==> bytes[|line|] == NEWLINE
  {
    if bytes == [] || bytes[0] == NEWLINE then []
    else
      var rest := FirstLine(bytes[1..]);
      assert bytes == [bytes[0]] + bytes[1..];
      [bytes[0]] + rest
  }

  /** One frame off the front of the stream, and what remains. */
  function ReadFrame(codec: Codec, bytes: seq<Byte>): Option<(Frame, seq<Byte>)> {
    var line := FirstLine(bytes);
    if |line| == |bytes| then None
    else
      var rest := bytes[|line| + 1..];
      match codec.decode(line)
      case None => None
      case Some(Plain(msg)) => Some((Whole(msg), rest))
      case Some(StreamHeader(path, size, entry)) =>
        if size <= |rest| then Some((Raw(path, rest[..size], entry), rest[size..])) else None
  }

  function ReadFrames(codec: Codec, bytes: seq<Byte>): (frames: Option<seq<Frame>>)
    decreases |bytes|
  {
    if bytes == [] then Some([])
    else
      match ReadFrame(codec, bytes)
      case None => None
      case Some((frame, rest)) =>
        if |rest| < |bytes| then
          match ReadFrames(codec, rest)
          case None => None
          case Some(frames) => Some([frame] + frames)
        else None
  }

  lemma FirstLineOf(line: seq<Byte>, rest: seq<Byte>)
    requires NEWLINE !in line
    ensures FirstLine(line + [NEWLINE] + rest) == line
  {
    var bytes := line + [NEWLINE] + rest;
    var found := FirstLine(bytes);
    assert bytes[|line|] == NEWLINE;
  }

  /** A written frame is read back, and the stream continues right after it. */
  lemma FrameRoundTrip(codec: Codec, frame: Frame, rest: seq<Byte>)
    requires ValidCodec(codec)
    ensures ReadFrame(codec, Written(codec, frame) + rest) == Some((frame, rest))
  {
    var bytes := Written(codec, frame) + rest;
    match frame {
      case Whole(msg) =>
        var line := codec.encode(Plain(msg));
        FirstLineOf(line, rest);
        assert bytes == line + [NEWLINE] + rest;
        assert bytes[|line| + 1..] == rest;
      case Raw(path, content, entry) =>
        var line := codec.encode(StreamHeader(path, |content|, entry));
        FirstLineOf(line, content + rest);
        assert bytes == line + [NEWLINE] + (content + rest);
        assert bytes[|line| + 1..] == content + rest;
    }
  }

  /** Any sequence of messages and raw files, newlines in them or not, is
      recovered exactly. */
  lemma {:induction false} StreamRoundTrip(codec: Codec, frames: seq<Frame>)
    requires ValidCodec(codec)
    ensures ReadFrames(codec, AllWritten(codec, frames)) == Some(frames)
  {
    if frames != [] {
      var rest := AllWritten(codec, frames[1..]);
      FrameRoundTrip(codec, frames[0], rest);
      StreamRoundTrip(codec, frames[1..]);
      assert frames == [frames[0]] + frames[1..];
    }
  }

  class StreamWriter {
    var sent: seq<Byte>

    constructor ()
      ensures sent == []
    {
      sent := [];
    }

    method Write(bytes: seq<Byte>)
      modifies this
      ensures sent == old(sent) + bytes
    {
      sent := sent + bytes;
    }

    method SendMessage(codec: Codec, msg: Message)
      modifies this
      ensures sent == old(sent) + Written(codec, Whole(msg))
    {
      Write(codec.encode(Plain(msg)) + [NEWLINE]);
    }

    /** Small files travel inside a message, large ones in chunks after a header. */
    method SendFileData(codec: Codec, path: Path, content: Content, entry: Entry)
      modifies this
      ensures sent == old(sent) + Written(codec, FileFrame(path, content, entry))
    {
      var size := |content|;
      if size < STREAM_THRESHOLD {
        SendMessage(codec, FileData(path, content, entry));
      } else {
        Write(codec.encode(StreamHeader(path, size, entry)) + [NEWLINE]);
        ghost var header := sent;
        var at := 0;
        while at < size
          invariant 0 <= at <= size
          invariant sent == header + content[..at]
        {
          var upTo := if at + CHUNK < size then at + CHUNK else size;
          Write(content[at..upTo]);
          assert content[..at] + content[at..upTo] == content[..upTo];
          at := upTo;
        }
        assert content[..size] == content;
        assert sent == old(sent) + (codec.encode(StreamHeader(path, size, entry)) + [NEWLINE] + content);
      }
    }
  }

  class StreamReader {
    var buffer: seq<Byte>

    constructor (bytes: seq<Byte>)
      ensures buffer == bytes
    {
      buffer := bytes;
    }

    /** The next line; none at the end of the stream or when it does not parse. */
    method ReadMessage(codec: Codec) returns (packet: Option<Packet>)
      modifies this
      ensures var line := FirstLine(old(buffer));
              && packet == (if old(buffer) == [] then None else codec.decode(line))
              && buffer == old(buffer)[if |line| < |old(buffer)| then |line| + 1 else |line|..]
    {
      if buffer == [] {
        return None;
      }
      ghost var whole := FirstLine(buffer);
      var n := 0;
      while n < |buffer| && buffer[n] != NEWLINE
        invariant 0 <= n <= |whole|
        decreases |buffer| - n
      {
        n := n + 1;
      }
      var line := buffer[..n];
      buffer := buffer[if n < |buffer| then n + 1 else n..];
      return codec.decode(line);
    }

    /** Exactly `n` bytes, or failure with the stream used up. */
    method ReadExactly(n: nat) returns (bytes: Option<seq<Byte>>)
      modifies this
      ensures n <= |old(buffer)| ==> bytes == Some(old(buffer)[..n]) && buffer == old(buffer)[n..]
      ensures n > |old(buffer)| ==> bytes == None && buffer == []
    {
      if n <= |buffer| {
        bytes := Some(buffer[..n]);
        buffer := buffer[n..];
      } else {
        bytes := None;
        buffer := [];
      }
    }

    /** A raw run read in chunks; with `keep` false it is only drained. */
    method ReadRaw(size: nat, keep: bool) returns (ok: bool, content: Content)
      modifies this
      ensures ok <==> size <= |old(buffer)|
      ensures ok ==> buffer == old(buffer)[size..]
      ensures ok ==> content == if keep then old(buffer)[..size] else []
      ensures !ok ==> buffer == []
    {
      ghost var start := buffer;
      content := [];
      var remaining := size;
      while remaining > 0
        invariant 0 <= remaining <= size
        invariant size - remaining <= |start|
        invariant buffer == start[size - remaining..]
        invariant content == if keep then start[..size - remaining] else []
      {
        var want := if remaining < CHUNK then remaining else CHUNK;
        ghost var done := size - remaining;
        var chunk := ReadExactly(want);
        if chunk == None {
          return false, content;
        }
        assert start[done..][..want] == start[done..done + want];
        if keep {
          content := content + chunk.value;
          assert start[..done] + start[done..done + want] == start[..done + want];
        }
        assert start[done..][want..] == start[done + want..];
        remaining := remaining - |chunk.value|;
      }
      return true, content;
    }
  }

  /** One direction of a connection: what has been written can be read at the
      other end once it is flushed. */
  class Channel {
    const writer: StreamWriter
    const reader: StreamReader

    constructor ()
      ensures fresh(writer) && fresh(reader) && Empty()
    {
      writer := new StreamWriter();
      reader := new StreamReader([]);
    }

    predicate Empty()
      reads writer, reader
    {
      writer.sent == [] && reader.buffer == []
    }

    method Flush()
      modifies writer, reader
      ensures reader.buffer == old(reader.buffer) + old(writer.sent) && writer.sent == []
    {
      reader.buffer := reader.buffer + writer.sent;
      writer.sent := [];
    }
  }

  /* ---- Base64 text and the line limit ---- */

  /** A symbol of the base64 alphabet by value; 64 is the padding sign. */
  type Symbol = s: int | 0 <= s <= 64

  const PAD: Symbol := 64

  /** Section 4 of RFC 4648: three bytes to four symbols. */
  function EncodeContent(data: Content): (text: seq<Symbol>)
    ensures |text| == 4 * ((|data| + 2) / 3)
  {
    if |data| == 0 then []
    else if |data| == 1 then [data[0] / 4, data[0] % 4 * 16, PAD, PAD]
    else if |data| == 2 then [data[0] / 4, data[0] % 4 * 16 + data[1] / 16, data[1] % 16 * 4, PAD]
    else [data[0] / 4, data[0] % 4 * 16 + data[1] / 16, data[1] % 16 * 4 + data[2] / 64,
        data[2] % 64] + EncodeContent(data[3..])
  }

  function DecodeQuad(x: Symbol, y: Symbol, z: Symbol, w: Symbol): Content {
    if x == PAD || y == PAD then []
    else
      var first := (x * 4 + y / 16) % 256;
      if z == PAD then [first]
      else if w == PAD then [first, (y % 16 * 16 + z / 4) % 256]
      else [first, (y % 16 * 16 + z / 4) % 256, (z % 4 * 64 + w) % 256]
  }

  function DecodeContent(text: seq<Symbol>): Content {
    if |text| < 4 then [] else DecodeQuad(text[0], text[1], text[2], text[3]) + DecodeContent(text[4..])
  }

  lemma QuadRoundTrip(a: Byte, b: Byte, c: Byte)
    ensures DecodeQuad(a / 4, a % 4 * 16 + b / 16, b % 16 * 4 + c / 64, c % 64) == [a, b, c]
    ensures DecodeQuad(a / 4, a % 4 * 16 + b / 16, b % 16 * 4, PAD) == [a, b]
    ensures DecodeQuad(a / 4, a % 4 * 16, PAD, PAD) == [a]
  {
    SplitByte(a, 4);
    SplitByte(b, 16);
    SplitByte(c, 64);
    Joined(a % 4, b / 16, 16);
    Joined(b % 16, c / 64, 4);
  }

  lemma SplitByte(a: Byte, n: int)
    requires n == 4 || n == 16 || n == 64
    ensures a == a / n * n + a % n && 0 <= a / n < 256 / n && 0 <= a % n < n
  {
  }

  lemma Joined(high: int, low: int, n: int)
    requires (n == 4 || n == 16) && 0 <= low < n
    ensures (high * n + low) / n == high && (high * n + low) % n == low
  {
  }

  lemma {:induction false} ContentRoundTrip(data: Content)
    ensures DecodeContent(EncodeContent(data)) == data
  {
    var text := EncodeContent(data);
    if |data| >= 3 {
      ContentRoundTrip(data[3..]);
      QuadRoundTrip(data[0], data[1], data[2]);
      assert text[4..] == EncodeContent(data[3..]);
      assert data == [data[0], data[1], data[2]] + data[3..];
    } else if |data| == 2 {
      QuadRoundTrip(data[0], data[1], 0);
      assert text[4..] == [] && data == [data[0], data[1]];
    } else if |data| == 1 {
      QuadRoundTrip(data[0], 0, 0);
      assert text[4..] == [] && data == [data[0]];
    }
  }

  /** The number written by symbols of six bits and by bytes of eight. */
  function BySymbols(x: int, y: int, z: int, w: int): int {
    x * 0x4_0000 + y * 0x1000 + z * 0x40 + w
  }

  function ByBytes(a: int, b: int, c: int): int {
    a * 0x1_0000 + b * 0x100 + c
  }

  /** Section 4 of RFC 4648: four symbols are the 24 bits of three bytes, the first
      the most significant; one or two bytes at the end are filled up with zero
      bits and padding signs. */
  lemma GroupsAreBigEndian(data: Content)
    requires data != []
    ensures var text := EncodeContent(data);
            && |text| >= 4 && text[0] < 64 && text[1] < 64
            && (|data| == 1 ==> text[2] == PAD && text[3] == PAD
                                && BySymbols(text[0], text[1], 0, 0) == ByBytes(data[0], 0, 0))
            && (|data| == 2 ==> text[2] < 64 && text[3] == PAD
                                && BySymbols(text[0], text[1], text[2], 0) == ByBytes(data[0], data[1], 0))
            && (|data| >= 3 ==> text[2] < 64 && text[3] < 64
                                && BySymbols(text[0], text[1], text[2], text[3]) == ByBytes(data[0], data[1], data[2]))
            && text[4..] == EncodeContent(if |data| >= 3 then data[3..] else [])
  {
    SplitByte(data[0], 4);
    if |data| >= 2 { SplitByte(data[1], 16); }
    if |data| >= 3 { SplitByte(data[2], 64); }
  }

  /** Every file below the streaming threshold fits the reader's line limit
      exactly when the rest of its line takes at most 11184812 bytes. */
  lemma InlineFitsIff(others: nat)
    ensures (forall data: Content :: |data| < STREAM_THRESHOLD ==> |EncodeContent(data)| + others <= READER_LIMIT)
            <==> others <= 11_184_812
  {
    if others <= 11_184_812 {
      forall data: Content | |data| < STREAM_THRESHOLD ensures |EncodeContent(data)| + others <= READER_LIMIT {
        assert (|data| + 2) / 3 <= 22_369_621;
      }
    } else {
      var largest: Content := seq(STREAM_THRESHOLD - 1, _ => 0);
      assert |EncodeContent(largest)| == 4 * 22_369_621;
      assert |EncodeContent(largest)| + others > READER_LIMIT;
    }
  }
}
