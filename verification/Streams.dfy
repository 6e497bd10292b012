/** Receiving a large file in raw bytes: written to a temporary name first, then
    moved over the final one. */
module Streams {
  import opened Options
  import opened FileIndexes
  import opened SyncEngines
  import opened Decisions
  import opened Sessions
  import opened StepFacts
  import opened Wires

  function TempName(p: Path): Path {
    p + ".synak.tmp"
  }

  /** The disk once the temporary file has replaced the final one. */
  function Replaced(files: Disk, p: Path, content: Content, stamp: Time): Disk {
    (files - {TempName(p)})[p := File(content, stamp)]
  }

  /** A streamed file recorded after it is on disk. */
  function StoredFromStream(me: Peer, p: Path, entry: Entry, content: Content, stamp: Time): Peer {
    me.(rep := Applied(me.rep.(files := Replaced(me.rep.files, p, content, stamp)), p, entry, None, stamp))
  }

  predicate StreamAccepted(me: Peer, p: Path, entry: Entry) {
    p in me.rep.entries ==>
      match Verdict(me.rep.entries[p], entry)
      case KeepLocal => false
      case AcceptRemote => true
      case Conflict => Concedes(me.cfg, me.rep.entries[p], entry)
  }

  /** The peer when the bytes start to arrive: a conflict copy may be made. */
  function BeforeStream(me: Peer, p: Path, entry: Entry): Peer {
    if p in me.rep.entries && Verdict(me.rep.entries[p], entry) == Conflict
       && me.rep.entries[p].checksum != entry.checksum && me.cfg.keepBoth
    then WithCopy(me, p) else me
  }

  function AfterIncomingStream(me: Peer, p: Path, entry: Entry, content: Content, stamp: Time): Peer {
    if StreamAccepted(me, p, entry) then StoredFromStream(BeforeStream(me, p, entry), p, entry, content, stamp)
    else BeforeStream(me, p, entry)
  }

  lemma StreamedStoreIff(me: Peer, p: Path, entry: Entry, content: Content, stamp: Time)
    requires !entry.deleted
    ensures StoredFromStream(me, p, entry, content, stamp) == Stored(me, p, entry, content, stamp)
            <==> TempName(p) !in me.rep.files
  {
    var s, t := StoredFromStream(me, p, entry, content, stamp).rep, Stored(me, p, entry, content, stamp).rep;
    assert TempName(p) != p;
    if TempName(p) !in me.rep.files {
      assert me.rep.files - {TempName(p)} == me.rep.files;
    } else {
      assert TempName(p) in t.files && TempName(p) !in s.files;
    }
  }

  /** Streamed receive refines in-memory receive: the two reach the same state
      exactly when the file is rejected or no file has its temporary name. */
  lemma StreamIsInMemoryIff(me: Peer, p: Path, entry: Entry, content: Content, stamp: Time)
    requires !entry.deleted
    ensures AfterIncomingStream(me, p, entry, content, stamp) == AfterIncoming(me, p, entry, content, stamp)
            <==> !StreamAccepted(me, p, entry) || TempName(p) !in BeforeStream(me, p, entry).rep.files
  {
    StreamedStoreIff(BeforeStream(me, p, entry), p, entry, content, stamp);
  }

  /** In every case they agree on everything but the temporary file. */
  lemma StreamDiffersOnlyInTemp(me: Peer, p: Path, entry: Entry, content: Content, stamp: Time)
    requires !entry.deleted
    ensures var s, t := AfterIncomingStream(me, p, entry, content, stamp), AfterIncoming(me, p, entry, content, stamp);
            && s.cfg == t.cfg && s.pending == t.pending
            && s.rep.entries == t.rep.entries && s.rep.corrupted == t.rep.corrupted
            && s.rep.files - {TempName(p)} == t.rep.files - {TempName(p)}
  {
    assert TempName(p) != p;
  }

  /* ---- A whole push phase of mixed frames ---- */

  function ReceivedFrame(me: Peer, frame: Frame, stamp: Path -> Time): Peer {
    match frame
    case Whole(msg) => Received(me, msg, stamp)
    case Raw(p, content, entry) => AfterIncomingStream(me, p, entry, content, stamp(p))
  }

  function ReceivedFrames(me: Peer, frames: seq<Frame>, stamp: Path -> Time): Peer {
    if frames == [] then me
    else
      var last := |frames| - 1;
      ReceivedFrame(ReceivedFrames(me, frames[..last], stamp), frames[last], stamp)
  }

  /** How a message of the session is framed on the wire. */
  function Framed(msg: Message): Frame {
    match msg
    case FileData(p, content, entry) => FileFrame(p, content, entry)
    case _ => Whole(msg)
  }

  function AllFramed(msgs: seq<Message>): seq<Frame> {
    if msgs == [] then [] else AllFramed(msgs[..|msgs| - 1]) + [Framed(msgs[|msgs| - 1])]
  }

  /* ---- Which files are streamed ---- */

  /** Files of 64 MiB or more travel in raw bytes, all others inside a line. */
  lemma FileIsStreamedIff(path: Path, content: Content, entry: Entry)
    ensures FileFrame(path, content, entry)
            == if |content| >= 67_108_864 then Raw(path, content, entry) else Whole(FileData(path, content, entry))
  {
  }

  /** A file frame fits: what is inline stays within the reader's 96 MiB of base64
      text and 11184812 other bytes, and only what is large is streamed. */
  predicate FrameFits(frame: Frame) {
    match frame
    case Whole(FileData(_, content, _)) =>
      |EncodeContent(content)| + 11_184_812 <= 100_663_296
    case Raw(_, content, _) => |content| >= 67_108_864
    case _ => true
  }

  lemma FramedFits(msg: Message)
    ensures FrameFits(Framed(msg))
    ensures msg.FileData? && |msg.content| >= 67_108_864 ==> Framed(msg).Raw?
  {
    if msg.FileData? {
      FileIsStreamedIff(msg.path, msg.content, msg.entry);
      if |msg.content| < 67_108_864 {
        assert (|msg.content| + 2) / 3 <= 22_369_621;
      }
    }
  }

  /** Every reply and every push of a session fits. */
  lemma SessionFramesFit(a: Peer, b: Peer, env: Env)
    ensures forall frame :: frame in AllFramed(Pushes(a, b, env)) ==> FrameFits(frame)
    ensures forall p :: Served(Greeted(b, a.rep.entries, env), p).Some? ==>
              FrameFits(Framed(Served(Greeted(b, a.rep.entries, env), p).value))
  {
    AllFramedFit(Pushes(a, b, env));
    forall p | Served(Greeted(b, a.rep.entries, env), p).Some?
      ensures FrameFits(Framed(Served(Greeted(b, a.rep.entries, env), p).value))
    {
      FramedFits(Served(Greeted(b, a.rep.entries, env), p).value);
    }
  }

  lemma {:induction false} AllFramedFit(msgs: seq<Message>)
    ensures |AllFramed(msgs)| == |msgs|
    ensures forall i :: 0 <= i < |msgs| ==> AllFramed(msgs)[i] == Framed(msgs[i]) && FrameFits(AllFramed(msgs)[i])
  {
    if msgs != [] {
      AllFramedFit(msgs[..|msgs| - 1]);
      FramedFits(msgs[|msgs| - 1]);
    }
  }

  /** The temporary name, spelled out. */
  lemma TempNameSpelled()
    ensures TempName("big.iso") == "big.iso.synak.tmp"
  {
  }

  predicate IsTemp(p: Path) {
    |p| > 10 && p[|p| - 10..] == ".synak.tmp"
  }

  /** No temporary file lies about, and none is made by other means. */
  ghost predicate NoTemps(me: Peer) {
    && (forall p :: p in me.rep.files ==> !IsTemp(p))
    && (me.cfg.keepBoth ==> forall p :: !IsTemp(ConflictName(p, me.cfg.id)))
  }

  ghost predicate AvoidsTemps(msg: Message) {
    match msg
    case FileData(p, _, entry) => !IsTemp(p) && !entry.deleted
    case RenameFile(_, target, entry) => !IsTemp(target)
    case _ => true
  }

  lemma ReceivedKeepsNoTemps(me: Peer, msg: Message, stamp: Path -> Time)
    requires NoTemps(me) && AvoidsTemps(msg)
    ensures NoTemps(Received(me, msg, stamp))
  {
  }

  /** One message: framed or not, the peer ends the same. */
  lemma FrameIsInvisible(me: Peer, msg: Message, stamp: Path -> Time)
    requires NoTemps(me) && AvoidsTemps(msg)
    ensures ReceivedFrame(me, Framed(msg), stamp) == Received(me, msg, stamp)
  {
    if Framed(msg).Raw? {
      var p := msg.path;
      assert IsTemp(TempName(p));
      assert TempName(p) !in BeforeStream(me, p, msg.entry).rep.files;
      StreamIsInMemoryIff(me, p, msg.entry, msg.content, stamp(p));
    }
  }

  lemma FramedLast(msgs: seq<Message>)
    requires msgs != []
    ensures var last := |msgs| - 1; AllFramed(msgs) == AllFramed(msgs[..last]) + [Framed(msgs[last])]
  {
  }

  lemma ReceivedFramesLast(me: Peer, frames: seq<Frame>, frame: Frame, stamp: Path -> Time)
    ensures ReceivedFrames(me, frames + [frame], stamp)
            == ReceivedFrame(ReceivedFrames(me, frames, stamp), frame, stamp)
  {
    assert (frames + [frame])[..|frames|] == frames;
  }

  /** However files are framed, a push phase leaves the listener the same. */
  lemma {:induction false} FramingIsInvisible(me: Peer, msgs: seq<Message>, stamp: Path -> Time)
    requires NoTemps(me) && forall msg :: msg in msgs ==> AvoidsTemps(msg)
    ensures ReceivedFrames(me, AllFramed(msgs), stamp) == ReceivedAll(me, msgs, stamp)
    ensures NoTemps(ReceivedAll(me, msgs, stamp))
  {
    if msgs != [] {
      var earlier, msg := msgs[..|msgs| - 1], msgs[|msgs| - 1];
      var before := ReceivedAll(me, earlier, stamp);
      FramingIsInvisible(me, earlier, stamp);
      FramedLast(msgs);
      ReceivedFramesLast(me, AllFramed(earlier), Framed(msg), stamp);
      FrameIsInvisible(before, msg, stamp);
      ReceivedKeepsNoTemps(before, msg, stamp);
    }
  }

  /* ---- A whole session of mixed frames ---- */

  /** A reply in the pull phase is stored without being reconciled. */
  function StoredFrame(me: Peer, frame: Frame, stamp: Path -> Time): Peer {
    match frame
    case Whole(FileData(p, content, entry)) => Stored(me, p, entry, content, stamp(p))
    case Raw(p, content, entry) => StoredFromStream(me, p, entry, content, stamp(p))
    case _ => me
  }

  function StoredReply(me: Peer, reply: Option<Message>, stamp: Path -> Time): Peer {
    match reply
    case Some(msg) => StoredFrame(me, Framed(msg), stamp)
    case None => me
  }

  function PulledFrames(me: Peer, server: Peer, needed: seq<Path>, stamp: Path -> Time): Peer {
    if needed == [] then me
    else
      var last := |needed| - 1;
      StoredReply(PulledFrames(me, server, needed[..last], stamp), Served(server, needed[last]), stamp)
  }

  function FramedRefreshed(a: Peer, b: Peer, env: Env): Peer {
    PulledFrames(Ready(a, b.rep.entries, env), Greeted(b, a.rep.entries, env), Wants(a, b.rep.entries, env),
                 env.initiatorStamp)
  }

  function FramedSupplied(a: Peer, b: Peer, env: Env): Peer {
    ReceivedFrames(Greeted(b, a.rep.entries, env),
                   AllFramed(Offered(FramedRefreshed(a, b, env), b.rep.entries, env)), env.listenerStamp)
  }

  /** Both sides at the end, every file framed by its size. */
  function FramedSession(a: Peer, b: Peer, env: Env): (Peer, Peer) {
    (FramedRefreshed(a, b, env), FramedSupplied(a, b, env))
  }

  lemma StoredKeepsNoTemps(me: Peer, p: Path, entry: Entry, content: Content, stamp: Time)
    requires NoTemps(me) && !IsTemp(p) && !entry.deleted
    ensures NoTemps(Stored(me, p, entry, content, stamp))
    ensures StoredFromStream(me, p, entry, content, stamp) == Stored(me, p, entry, content, stamp)
  {
    assert IsTemp(TempName(p));
    StreamedStoreIff(me, p, entry, content, stamp);
  }

  /** However the replies are framed, the pull phase leaves the initiator the same. */
  lemma {:induction false} PullFramingIsInvisible(me: Peer, server: Peer, needed: seq<Path>, stamp: Path -> Time)
    requires NoTemps(me) && forall p :: p in server.rep.files ==> !IsTemp(p)
    ensures PulledFrames(me, server, needed, stamp) == Pulled(me, server, needed, stamp)
    ensures NoTemps(Pulled(me, server, needed, stamp))
  {
    if needed != [] {
      var last := |needed| - 1;
      var before, p := Pulled(me, server, needed[..last], stamp), needed[last];
      PullFramingIsInvisible(me, server, needed[..last], stamp);
      if Served(server, p).Some? {
        StoredKeepsNoTemps(before, p, server.rep.entries[p], server.rep.files[p].content, stamp(p));
      }
    }
  }

  lemma DeletionsKeepNoTemps(me: Peer, remote: Index, names: Names)
    requires NoTemps(me)
    ensures NoTemps(AfterDeletions(me, remote, names))
  {
  }

  lemma LocalRenamesKeepNoTemps(me: Peer, mine: Index, remote: Index, names: Names, order: seq<Path>)
    requires NoTemps(me) && SoundNames(names, remote) && forall p :: Live(remote, p) ==> !IsTemp(p)
    ensures NoTemps(AfterLocalRenames(me, mine, remote, names, order))
  {
    if order != [] {
      LocalRenamesKeepNoTemps(me, mine, remote, names, order[..|order| - 1]);
    }
  }

  lemma NeededKeepsNoTemps(me: Peer, remote: Index, order: seq<Path>)
    requires NoTemps(me)
    ensures NoTemps(AfterNeeded(me, remote, order)) && AfterNeeded(me, remote, order).cfg == me.cfg
  {
    if order != [] {
      NeededKeepsNoTemps(me, remote, order[..|order| - 1]);
    }
  }

  lemma ReadyHasNoTemps(a: Peer, remote: Index, env: Env)
    requires NoTemps(a) && forall p :: Live(remote, p) ==> !IsTemp(p)
    ensures NoTemps(Ready(a, remote, env))
  {
    var names := ListenerNames(remote, env);
    var a1 := AfterDeletions(a, remote, names);
    DeletionsKeepNoTemps(a, remote, names);
    LocalRenamesKeepNoTemps(a1, a1.rep.entries, remote, names, env.initiatorOrder(a1.rep.entries.Keys));
    NeededKeepsNoTemps(Informed(a, remote, env), remote, env.listenerOrder(remote.Keys));
  }

  lemma PushesAvoidTemps(a4: Peer, remote: Index, env: Env)
    requires Backed(a4.rep) && NoTemps(a4)
    ensures forall msg :: msg in Offered(a4, remote, env) ==> AvoidsTemps(msg)
  {
    PushesAreHonest(a4, remote, ListenerNames(remote, env), env.initiatorOrder(a4.rep.entries.Keys));
    forall msg | msg in Offered(a4, remote, env) ensures AvoidsTemps(msg) {
      assert HonestPush(msg);
    }
  }

  /** A whole session, streamed replies and streamed pushes included, leaves both
      sides as the session of single messages does. */
  lemma FramedSessionIsSession(a: Peer, b: Peer, env: Env)
    requires Backed(a.rep) && Backed(b.rep) && NoTemps(a) && NoTemps(b)
    ensures FramedSession(a, b, env) == Session(a, b, env)
  {
    var remote, b1 := b.rep.entries, Greeted(b, a.rep.entries, env);
    ReadyHasNoTemps(a, remote, env);
    DeletionsKeepNoTemps(b, a.rep.entries, InitiatorNames(a.rep.entries, env));
    PullFramingIsInvisible(Ready(a, remote, env), b1, Wants(a, remote, env), env.initiatorStamp);
    SessionKeepsBacked(a, b, env);
    PushesAvoidTemps(Refreshed(a, b, env), remote, env);
    FramingIsInvisible(b1, Pushes(a, b, env), env.listenerStamp);
  }
}
