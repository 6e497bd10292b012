/** That packets can be written as lines at all: a text for every packet, with no
    newline in it, from which the packet is read back. */
module Codecs {
  import opened Options
  import opened VectorClocks
  import opened FileIndexes
  import opened Decisions
  import opened Orders
  import opened Wires

  /** What a line carries: numbers, and lists of such values. */
  datatype Value = Number(n: nat) | List(items: seq<Value>)

  /* ---- Values as bytes ---- */

  function Digits(n: nat): seq<Byte> {
    if n == 0 then [0] else [1] + Digits(n - 1)
  }

  function Text(v: Value): seq<Byte> {
    match v
    case Number(n) => [2] + Digits(n)
    case List(items) => [3] + TextAll(items)
  }

  function TextAll(items: seq<Value>): seq<Byte> {
    if items == [] then [4] else Text(items[0]) + TextAll(items[1..])
  }

  lemma {:induction false} DigitsUnique(n: nat, m: nat, r: seq<Byte>, s: seq<Byte>)
    requires Digits(n) + r == Digits(m) + s
    ensures n == m && r == s
  {
    var x, y := Digits(n) + r, Digits(m) + s;
    assert x[0] == y[0];
    assert x[1..] == (if n == 0 then r else Digits(n - 1) + r);
    assert y[1..] == (if m == 0 then s else Digits(m - 1) + s);
    if n > 0 {
      DigitsUnique(n - 1, m - 1, r, s);
    }
  }

  /** A text ends where it ends, whatever follows. */
  lemma {:induction false} TextUnique(v: Value, w: Value, r: seq<Byte>, s: seq<Byte>)
    requires Text(v) + r == Text(w) + s
    ensures v == w && r == s
    decreases v
  {
    var x, y := Text(v) + r, Text(w) + s;
    assert x[0] == y[0];
    match v {
      case Number(n) =>
        assert x[1..] == Digits(n) + r && y[1..] == Digits(w.n) + s;
        DigitsUnique(n, w.n, r, s);
      case List(items) =>
        assert x[1..] == TextAll(items) + r && y[1..] == TextAll(w.items) + s;
        TextAllUnique(items, w.items, r, s);
    }
  }

  lemma {:induction false} TextAllUnique(v: seq<Value>, w: seq<Value>, r: seq<Byte>, s: seq<Byte>)
    requires TextAll(v) + r == TextAll(w) + s
    ensures v == w && r == s
    decreases v
  {
    var x, y := TextAll(v) + r, TextAll(w) + s;
    assert x[0] == y[0];
    if v == [] {
      assert w == [];
      assert x[1..] == r && y[1..] == s;
    } else {
      assert x == Text(v[0]) + (TextAll(v[1..]) + r) && y == Text(w[0]) + (TextAll(w[1..]) + s);
      TextUnique(v[0], w[0], TextAll(v[1..]) + r, TextAll(w[1..]) + s);
      TextAllUnique(v[1..], w[1..], r, s);
      assert v == [v[0]] + v[1..] && w == [w[0]] + w[1..];
    }
  }

  lemma DigitsAreSmall(n: nat)
    ensures forall b :: b in Digits(n) ==> b < 5
  {
  }

  lemma {:induction false} TextIsSmall(v: Value)
    ensures forall b :: b in Text(v) ==> b < 5
    decreases v
  {
    match v {
      case Number(n) => DigitsAreSmall(n);
      case List(items) => TextAllIsSmall(items);
    }
  }

  lemma {:induction false} TextAllIsSmall(items: seq<Value>)
    ensures forall b :: b in TextAll(items) ==> b < 5
    decreases items
  {
    if items != [] {
      TextIsSmall(items[0]);
      TextAllIsSmall(items[1..]);
    }
  }

  /* ---- Packets as values ---- */

  ghost predicate Injective<T(!new)>(f: T -> Value) {
    forall x, y :: f(x) == f(y) ==> x == y
  }

  function OfSeq<T>(xs: seq<T>, f: T -> Value): Value {
    List(seq(|xs|, i requires 0 <= i < |xs| => f(xs[i])))
  }

  lemma SeqUnique<T(!new)>(xs: seq<T>, ys: seq<T>, f: T -> Value)
    requires Injective(f) && OfSeq(xs, f) == OfSeq(ys, f)
    ensures xs == ys
  {
    var vs, ws := OfSeq(xs, f).items, OfSeq(ys, f).items;
    assert |xs| == |vs| == |ws| == |ys|;
    forall i | 0 <= i < |xs| ensures xs[i] == ys[i] {
      assert vs[i] == f(xs[i]) && ws[i] == f(ys[i]);
    }
  }

  ghost function OfMap<K, V>(m: map<K, V>, key: K -> Value, value: V -> Value): Value {
    var order := OrderOf(m.Keys);
    List([OfSeq(order, key), OfSeq(order, k => if k in m then value(m[k]) else List([]))])
  }

  lemma MapUnique<K(!new), V(!new)>(m: map<K, V>, n: map<K, V>, key: K -> Value, value: V -> Value)
    requires Injective(key) && Injective(value) && OfMap(m, key, value) == OfMap(n, key, value)
    ensures m == n
  {
    var order := OrderOf(m.Keys);
    assert OfMap(m, key, value).items[0] == OfMap(n, key, value).items[0];
    SeqUnique(order, OrderOf(n.Keys), key);
    OrderVisits(m.Keys);
    OrderVisits(n.Keys);
    assert m.Keys == n.Keys;
    var vs, ws := OfMap(m, key, value).items[1], OfMap(n, key, value).items[1];
    assert vs == ws;
    forall k | k in m ensures m[k] == n[k] {
      var i :| 0 <= i < |order| && order[i] == k;
      assert vs.items[i] == value(m[k]) && ws.items[i] == value(n[k]);
    }
  }

  function OfChar(c: char): Value {
    Number(c as int)
  }

  function OfString(s: string): Value {
    OfSeq(s, OfChar)
  }

  function OfPath(p: Path): Value {
    OfString(p)
  }

  function OfByte(b: Byte): Value {
    Number(b)
  }

  function OfContent(content: Content): Value {
    OfSeq(content, OfByte)
  }

  function OfChecksum(c: Checksum): Value {
    match c
    case Blank => List([])
    case Digest(content) => List([OfContent(content)])
  }

  function OfTime(t: Time): Value {
    if t < 0 then List([Number(-t)]) else Number(t)
  }

  function OfCount(n: nat): Value {
    Number(n)
  }

  ghost function OfClock(c: Clock): Value {
    OfMap(c, OfString, OfCount)
  }

  ghost function OfEntry(e: Entry): Value {
    List([OfChecksum(e.checksum), OfTime(e.mtime), OfClock(e.clock), Number(if e.deleted then 1 else 0)])
  }

  ghost function OfIndex(ix: Index): Value {
    OfMap(ix, OfPath, OfEntry)
  }

  ghost function OfMessage(msg: Message): Value {
    match msg
    case Hello(index) => List([Number(0), OfIndex(index)])
    case GetFile(path) => List([Number(1), OfPath(path)])
    case FileData(path, content, entry) => List([Number(2), OfPath(path), OfContent(content), OfEntry(entry)])
    case SyncDone => List([Number(3)])
    case RenameFile(source, target, entry) => List([Number(4), OfPath(source), OfPath(target), OfEntry(entry)])
    case Ack => List([Number(5)])
  }

  ghost function OfPacket(packet: Packet): Value {
    match packet
    case Plain(msg) => List([OfMessage(msg)])
    case StreamHeader(path, size, entry) => List([OfPath(path), Number(size), OfEntry(entry)])
  }

  lemma StringsUnique()
    ensures Injective(OfString) && Injective(OfPath)
  {
    forall s: string, t: string | OfString(s) == OfString(t) ensures s == t {
      assert Injective(OfChar);
      SeqUnique(s, t, OfChar);
    }
  }

  lemma ContentsUnique()
    ensures Injective(OfContent) && Injective(OfChecksum)
  {
    forall x: Content, y: Content | OfContent(x) == OfContent(y) ensures x == y {
      assert Injective(OfByte);
      SeqUnique(x, y, OfByte);
    }
    forall x: Checksum, y: Checksum | OfChecksum(x) == OfChecksum(y) ensures x == y {
      if x.Digest? && y.Digest? {
        assert OfChecksum(x).items[0] == OfChecksum(y).items[0];
      }
    }
  }

  lemma EntriesUnique()
    ensures Injective(OfClock) && Injective(OfEntry)
  {
    StringsUnique();
    ContentsUnique();
    forall x: Clock, y: Clock | OfClock(x) == OfClock(y) ensures x == y {
      assert Injective(OfCount);
      MapUnique(x, y, OfString, OfCount);
    }
    forall x: Entry, y: Entry | OfEntry(x) == OfEntry(y) ensures x == y {
      forall k | 0 <= k < 4 ensures OfEntry(x).items[k] == OfEntry(y).items[k] { }
      assert OfTime(x.mtime) == OfEntry(x).items[1] == OfEntry(y).items[1] == OfTime(y.mtime);
      assert OfChecksum(x.checksum) == OfEntry(x).items[0] == OfEntry(y).items[0] == OfChecksum(y.checksum);
      assert OfClock(x.clock) == OfEntry(x).items[2] == OfEntry(y).items[2] == OfClock(y.clock);
      assert OfEntry(x).items[3] == OfEntry(y).items[3];
    }
  }

  lemma IndexesUnique(x: Index, y: Index)
    requires OfIndex(x) == OfIndex(y)
    ensures x == y
  {
    StringsUnique();
    EntriesUnique();
    MapUnique(x, y, OfPath, OfEntry);
  }

  lemma MessagesUnique(x: Message, y: Message)
    requires OfMessage(x) == OfMessage(y)
    ensures x == y
  {
    var v, w := OfMessage(x).items, OfMessage(y).items;
    assert v[0] == w[0];
    StringsUnique();
    ContentsUnique();
    EntriesUnique();
    match x {
      case Hello(index) =>
        assert v[1] == w[1];
        IndexesUnique(index, y.index);
      case GetFile(_) => assert v[1] == w[1];
      case FileData(_, _, _) => assert v[1] == w[1] && v[2] == w[2] && v[3] == w[3];
      case RenameFile(_, _, _) => assert v[1] == w[1] && v[2] == w[2] && v[3] == w[3];
      case _ =>
    }
  }

  lemma PacketsUnique(x: Packet, y: Packet)
    requires OfPacket(x) == OfPacket(y)
    ensures x == y
  {
    var v, w := OfPacket(x).items, OfPacket(y).items;
    assert v[0] == w[0];
    match x {
      case Plain(msg) => MessagesUnique(msg, y.msg);
      case StreamHeader(_, _, _) =>
        assert v[1] == w[1] && v[2] == w[2];
        StringsUnique();
        EntriesUnique();
    }
  }

  /* ---- A codec ---- */

  ghost function LineOf(packet: Packet): seq<Byte> {
    Text(OfPacket(packet))
  }

  ghost function PacketOf(line: seq<Byte>): Option<Packet> {
    if exists packet :: LineOf(packet) == line then
      var packet :| LineOf(packet) == line; Some(packet)
    else None
  }

  lemma LinesUnique(x: Packet, y: Packet)
    requires LineOf(x) == LineOf(y)
    ensures x == y
  {
    TextUnique(OfPacket(x), OfPacket(y), [], []);
    PacketsUnique(x, y);
  }

  /** Every packet the engine can send has a line of its own. */
  lemma CodecExists() returns (codec: Codec)
    ensures ValidCodec(codec)
  {
    codec := Codec(packet => LineOf(packet), line => PacketOf(line));
    forall packet ensures PacketOf(LineOf(packet)) == Some(packet) && NEWLINE !in LineOf(packet) {
      TextIsSmall(OfPacket(packet));
      var read := PacketOf(LineOf(packet));
      LinesUnique(read.value, packet);
    }
  }
}
