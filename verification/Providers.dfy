/** The provider's shared methods and both ends of a session, working in place
    on one index, its disk and the set of put-off deletions. */
module Providers {
  import opened Options
  import opened VectorClocks
  import opened FileIndexes
  import opened ScanTheorems
  import opened SyncEngines
  import opened Decisions
  import opened Sessions
  import opened StepFacts
  import opened Wires
  import opened Streams

  /** The table of live checksums; a later path in the order wins. */
  method LiveByChecksum(ix: Index, order: seq<Path>) returns (names: Names)
    ensures names == NamesOf(order, ix)
  {
    names := map[];
    for k := 0 to |order|
      invariant names == NamesOf(order[..k], ix)
    {
      var p := order[k];
      assert order[..k + 1][..k] == order[..k];
      if p in ix && !ix[p].deleted && ix[p].checksum != Blank {
        names := names[ix[p].checksum := p];
      }
    }
    assert order[..|order|] == order;
  }

  /** The deletion pass after the tombstones among `done` are visited. */
  ghost predicate DeletedSoFar(me: Peer, now: Peer, remote: Index, names: Names, done: seq<Path>, p: Path) {
    var gone := p in done && p in me.pending && Doomed(me, remote, names, p);
    && Lookup(now.rep.entries, p) == (if gone then Some(remote[p]) else Lookup(me.rep.entries, p))
    && (p in now.rep.corrupted <==> p in me.rep.corrupted && !gone)
    && (p in now.rep.files <==> p in me.rep.files && !gone)
    && (p in now.rep.files ==> now.rep.files[p] == me.rep.files[p])
    && (p in now.pending <==>
          if p in done && Doomed(me, remote, names, p) then p !in me.pending
          else p in me.pending && !(p in done && Settled(me, remote, names, p)))
  }

  lemma DeletedInFull(me: Peer, now: Peer, remote: Index, names: Names, order: seq<Path>)
    requires me.cfg.syncDeletes && now.cfg == me.cfg && Enumerates(order, remote.Keys)
    requires forall p :: DeletedSoFar(me, now, remote, names, order, p)
    ensures now == AfterDeletions(me, remote, names)
  {
    var after := AfterDeletions(me, remote, names);
    forall p
      ensures Lookup(now.rep.entries, p) == Lookup(after.rep.entries, p)
      ensures p in now.rep.corrupted <==> p in after.rep.corrupted
      ensures p in now.rep.files <==> p in after.rep.files
      ensures p in now.rep.files ==> now.rep.files[p] == after.rep.files[p]
      ensures p in now.pending <==> p in after.pending
    {
      DeletionsAt(me, remote, names, p);
      assert DeletedSoFar(me, now, remote, names, order, p);
    }
    SameLookups(now.rep.entries, after.rep.entries);
    assert now.rep.files == after.rep.files && now.rep.corrupted == after.rep.corrupted;
  }

  /** The conflict copies made so far do not bear on the next decision. */
  lemma CopiesChangeNoDecision(me: Peer, remote: Index, own: Names, order: seq<Path>, p: Path)
    requires p in remote
    ensures var now := AfterNeeded(me, remote, order);
            && (Wanted(now, remote, own, p) <==> Wanted(me, remote, own, p))
            && (CopiesFirst(now, remote, p) <==> CopiesFirst(me, remote, p))
  {
    NeededKeeps(me, remote, order);
  }

  /** The deletion pass at one tombstone. */
  function DeletionHeard(me: Peer, path: Path, theirs: Entry, names: Names): Peer {
    if !Live(me.rep.entries, path) || KnownElsewhere(names, me.rep.entries[path].checksum, path) then
      me.(pending := me.pending - {path})
    else if Verdict(me.rep.entries[path], theirs) != AcceptRemote then me
    else if path !in me.pending then me.(pending := me.pending + {path})
    else me.(rep := Applied(me.rep, path, theirs, None, 0), pending := me.pending - {path})
  }

  lemma OneMoreDeletion(me: Peer, now: Peer, remote: Index, names: Names, done: seq<Path>, path: Path)
    requires path in remote && path !in done
    requires forall p :: DeletedSoFar(me, now, remote, names, done, p)
    ensures var next := if remote[path].deleted then DeletionHeard(now, path, remote[path], names) else now;
            forall p :: DeletedSoFar(me, next, remote, names, done + [path], p)
  {
    var next := if remote[path].deleted then DeletionHeard(now, path, remote[path], names) else now;
    assert DeletedSoFar(me, now, remote, names, done, path);
    forall p ensures DeletedSoFar(me, next, remote, names, done + [path], p) {
      assert DeletedSoFar(me, now, remote, names, done, p);
    }
  }

  lemma ScanOneLocal(now: Replica, start: Replica, id: Node, excluded: Path -> bool, q: Path)
    requires now.files == start.files && Lookup(now.entries, q) == Lookup(start.entries, q)
    ensures Lookup(ScannedOne(now, id, excluded, q).entries, q) == Lookup(ScannedOne(start, id, excluded, q).entries, q)
    ensures forall p :: p != q ==> Lookup(ScannedOne(now, id, excluded, q).entries, p) == Lookup(now.entries, p)
  {
  }

  /* ---- Bytes ---- */

  /** The bytes of a reply. */
  function Answer(codec: Codec, reply: Option<Message>): seq<Byte> {
    match reply
    case Some(msg) => Written(codec, Framed(msg))
    case None => []
  }

  lemma OnePushMore(me: Peer, remote: Index, names: Names, order: seq<Path>, k: nat)
    requires k < |order|
    ensures PushList(me, remote, names, order[..k + 1])
            == PushList(me, remote, names, order[..k]) + PushOf(me, remote, names, order[k])
    ensures |PushOf(me, remote, names, order[k])| <= 1
  {
    assert order[..k + 1][..k] == order[..k];
  }

  lemma FramedAppend(msgs: seq<Message>, msg: Message)
    ensures AllFramed(msgs + [msg]) == AllFramed(msgs) + [Framed(msg)]
  {
    assert (msgs + [msg])[..|msgs|] == msgs;
  }

  lemma OneWritten(codec: Codec, frame: Frame)
    ensures AllWritten(codec, [frame]) == Written(codec, frame)
  {
    assert AllWritten(codec, [frame][1..]) == [];
  }

  /** The bytes of one path's push, if there is one. */
  function PushBytes(codec: Codec, msgs: seq<Message>): seq<Byte> {
    if msgs == [] then [] else Written(codec, Framed(msgs[0]))
  }

  lemma PushWritten(codec: Codec, msgs: seq<Message>, more: seq<Message>, before: seq<Byte>)
    requires |more| <= 1
    ensures before + AllWritten(codec, AllFramed(msgs + more))
            == before + AllWritten(codec, AllFramed(msgs)) + PushBytes(codec, more)
  {
    if more == [] {
      assert msgs + more == msgs;
    } else {
      assert more == [more[0]];
      FramedAppend(msgs, more[0]);
      WrittenAppend(codec, AllFramed(msgs), [Framed(more[0])]);
      OneWritten(codec, Framed(more[0]));
      BytesAssociate(before, AllWritten(codec, AllFramed(msgs)), Written(codec, Framed(more[0])));
    }
  }

  lemma AckWritten(codec: Codec, frames: seq<Frame>, before: seq<Byte>)
    ensures before + Unread(codec, frames, 0, []) == before + AllWritten(codec, frames) + Written(codec, Whole(Ack))
  {
    WrittenAppend(codec, frames, [Whole(Ack)]);
    OneWritten(codec, Whole(Ack));
    assert frames[0..] == frames;
    BytesAssociate(before, AllWritten(codec, frames), Written(codec, Whole(Ack)));
  }

  lemma {:induction false} NoAckFramed(msgs: seq<Message>)
    requires Ack !in msgs
    ensures Whole(Ack) !in AllFramed(msgs)
  {
    if msgs != [] {
      NoAckFramed(msgs[..|msgs| - 1]);
    }
  }

  lemma NoAckOffered(me: Peer, remote: Index, env: Env)
    ensures Whole(Ack) !in AllFramed(Offered(me, remote, env))
  {
    forall msg | msg in Offered(me, remote, env) ensures msg != Ack {
      PushedFrom(me, remote, ListenerNames(remote, env), env.initiatorOrder(me.rep.entries.Keys), msg);
    }
    NoAckFramed(Offered(me, remote, env));
  }

  /** The peer once it has applied the first `k` frames. */
  function ReceivedTo(me: Peer, frames: seq<Frame>, k: nat, stamp: Path -> Time): Peer
    requires k <= |frames|
  {
    if k == 0 then me else ReceivedFrame(ReceivedTo(me, frames, k - 1, stamp), frames[k - 1], stamp)
  }

  lemma {:induction false} ReceivedToPrefix(me: Peer, frames: seq<Frame>, k: nat, stamp: Path -> Time)
    requires k <= |frames|
    ensures ReceivedTo(me, frames, k, stamp) == ReceivedFrames(me, frames[..k], stamp)
  {
    if k > 0 {
      ReceivedToPrefix(me, frames, k - 1, stamp);
      assert frames[..k] == frames[..k - 1] + [frames[k - 1]];
      ReceivedFramesLast(me, frames[..k - 1], frames[k - 1], stamp);
    }
  }

  lemma ReceivedToEnd(me: Peer, frames: seq<Frame>, stamp: Path -> Time)
    ensures ReceivedTo(me, frames, |frames|, stamp) == ReceivedFrames(me, frames, stamp)
  {
    ReceivedToPrefix(me, frames, |frames|, stamp);
    assert frames[..|frames|] == frames;
  }

  lemma OneFrameLess(frames: seq<Frame>, end: Frame, k: nat)
    requires k < |frames|
    ensures var left := frames[k..] + [end]; left[0] == frames[k] && left[1..] == frames[k + 1..] + [end]
  {
  }

  /** The bytes of a push phase once `k` frames are read, and what follows it. */
  function Unread(codec: Codec, frames: seq<Frame>, k: nat, rest: seq<Byte>): seq<Byte>
    requires k <= |frames|
  {
    AllWritten(codec, frames[k..] + [Whole(Ack)]) + rest
  }

  /** What the reader finds there. */
  lemma UnreadPacket(codec: Codec, frames: seq<Frame>, k: nat, rest: seq<Byte>)
    requires ValidCodec(codec) && Whole(Ack) !in frames && k <= |frames|
    ensures var bytes := Unread(codec, frames, k, rest);
            var line := FirstLine(bytes);
            && bytes != [] && |line| < |bytes|
            && if k == |frames| then codec.decode(line) == Some(Plain(Ack)) && bytes[|line| + 1..] == rest
               else
                 var after := Unread(codec, frames, k + 1, rest);
                 match frames[k]
                 case Whole(msg) => codec.decode(line) == Some(Plain(msg)) && msg != Ack && bytes[|line| + 1..] == after
                 case Raw(p, content, entry) =>
                   && codec.decode(line) == Some(StreamHeader(p, |content|, entry))
                   && bytes[|line| + 1..] == content + after
  {
    var left := frames[k..] + [Whole(Ack)];
    NextPacket(codec, left, rest);
    if k < |frames| {
      OneFrameLess(frames, Whole(Ack), k);
      assert frames[k] in frames;
    } else {
      assert left == [Whole(Ack)] && left[1..] == [];
      assert AllWritten(codec, []) + rest == rest;
    }
  }

  lemma AfterLine(line: seq<Byte>, after: seq<Byte>)
    requires NEWLINE !in line
    ensures var bytes := line + [NEWLINE] + after;
            FirstLine(bytes) == line && bytes[|line| + 1..] == after && |line| < |bytes|
  {
    FirstLineOf(line, after);
  }

  lemma FirstFrame(codec: Codec, frames: seq<Frame>, rest: seq<Byte>)
    requires frames != []
    ensures var after := AllWritten(codec, frames[1..]) + rest;
            AllWritten(codec, frames) + rest == Written(codec, frames[0]) + after
  {
  }

  /** What the reader finds at the front of a written stream. */
  lemma NextPacket(codec: Codec, frames: seq<Frame>, rest: seq<Byte>)
    requires ValidCodec(codec) && frames != []
    ensures var bytes := AllWritten(codec, frames) + rest;
            var line := FirstLine(bytes);
            var after := AllWritten(codec, frames[1..]) + rest;
            && bytes != [] && |line| < |bytes|
            && match frames[0]
               case Whole(msg) => codec.decode(line) == Some(Plain(msg)) && bytes[|line| + 1..] == after
               case Raw(p, content, entry) =>
                 && codec.decode(line) == Some(StreamHeader(p, |content|, entry))
                 && bytes[|line| + 1..] == content + after
  {
    var after := AllWritten(codec, frames[1..]) + rest;
    FirstFrame(codec, frames, rest);
    match frames[0] {
      case Whole(msg) =>
        AfterLine(codec.encode(Plain(msg)), after);
      case Raw(p, content, entry) =>
        var line := codec.encode(StreamHeader(p, |content|, entry));
        AfterLine(line, content + after);
        assert line + [NEWLINE] + (content + after) == line + [NEWLINE] + content + after;
    }
  }

  /** The same of a single frame with nothing behind it. */
  lemma FirstPacket(codec: Codec, frame: Frame)
    requires ValidCodec(codec)
    ensures var bytes := Written(codec, frame);
            var line := FirstLine(bytes);
            && bytes != [] && |line| < |bytes|
            && match frame
               case Whole(msg) => codec.decode(line) == Some(Plain(msg)) && bytes[|line| + 1..] == []
               case Raw(p, content, entry) =>
                 && codec.decode(line) == Some(StreamHeader(p, |content|, entry))
                 && bytes[|line| + 1..] == content
  {
    OneWritten(codec, frame);
    NextPacket(codec, [frame], []);
    assert [frame][1..] == [];
    assert AllWritten(codec, []) + [] == [];
    assert Written(codec, frame) + [] == Written(codec, frame);
  }

  /* ---- The provider ---- */

  class Provider {
    const cfg: Config
    const index: FileIndex
    var pendingDeletes: set<Path>

    constructor (cfg: Config, index: FileIndex, pending: set<Path>)
      requires index.nodeId == cfg.id
      ensures this.cfg == cfg && this.index == index && Valid()
      ensures State() == Peer(cfg, index.State(), pending)
    {
      this.cfg := cfg;
      this.index := index;
      this.pendingDeletes := pending;
    }

    ghost predicate Valid() {
      index.nodeId == cfg.id
    }

    function State(): Peer
      reads this, index
    {
      Peer(cfg, index.State(), pendingDeletes)
    }

    method ResolveConflict(p: Path, local: Entry, remote: Entry) returns (action: Action)
      modifies index`files
      ensures action == if Concedes(cfg, local, remote) then AcceptRemote else KeepLocal
      ensures State() == if local.checksum != remote.checksum && cfg.keepBoth then WithCopy(old(State()), p)
          else old(State())
    {
      if local.checksum == remote.checksum {
        return KeepLocal;
      }
      if cfg.keepBoth {
        action := ResolveKeepBoth(index, p, cfg.id);
      } else {
        action := LastWriteWins(local, remote);
      }
    }

    /** Whether to ask for one path; a conflict copy may be made first. */
    method NeedsPath(remote: Index, own: Names, path: Path) returns (need: bool)
      requires path in remote
      modifies index`files
      ensures need == Wanted(old(State()), remote, own, path)
      ensures State() == if CopiesFirst(old(State()), remote, path) then WithCopy(old(State()), path) else old(State())
    {
      var theirs := remote[path];
      if theirs.deleted {
        return false;
      }
      if path !in index.entries || index.entries[path].deleted {
        if theirs.checksum in own && own[theirs.checksum] != path {
          return false;
        }
        if path !in index.entries {
          return true;
        }
        var action := Reconcile(index.entries[path], theirs, cfg.id);
        return action == AcceptRemote;
      }
      var mine := index.entries[path];
      var action := Reconcile(mine, theirs, cfg.id);
      if action == AcceptRemote {
        return true;
      }
      if action == Conflict {
        var resolved := ResolveConflict(path, mine, theirs);
        return resolved == AcceptRemote;
      }
      return path in index.corrupted;
    }

    /** The paths to ask for, in the order of the remote index. */
    method ComputeNeeded(remote: Index, remoteOrder: seq<Path>, ownOrder: seq<Path>) returns (needed: seq<Path>)
      requires Enumerates(remoteOrder, remote.Keys)
      modifies index`files
      ensures needed == Needed(old(State()), remote, NamesOf(ownOrder, old(index.entries)), remoteOrder)
      ensures State() == AfterNeeded(old(State()), remote, remoteOrder)
    {
      ghost var me := State();
      var own := LiveByChecksum(index.entries, ownOrder);
      needed := [];
      for k := 0 to |remoteOrder|
        invariant needed == Needed(me, remote, own, remoteOrder[..k])
        invariant State() == AfterNeeded(me, remote, remoteOrder[..k])
      {
        assert remoteOrder[..k + 1][..k] == remoteOrder[..k];
        var path := remoteOrder[k];
        CopiesChangeNoDecision(me, remote, own, remoteOrder[..k], path);
        var need := NeedsPath(remote, own, path);
        if need {
          needed := needed + [path];
        }
      }
      assert remoteOrder[..|remoteOrder|] == remoteOrder;
    }

    method HearDeletion(path: Path, theirs: Entry, names: Names)
      requires Valid() && theirs.deleted
      modifies this`pendingDeletes, index
      ensures State() == DeletionHeard(old(State()), path, theirs, names)
    {
      if path !in index.entries || index.entries[path].deleted {
        pendingDeletes := pendingDeletes - {path};
      } else {
        var mine := index.entries[path];
        if mine.checksum in names && names[mine.checksum] != path {
          pendingDeletes := pendingDeletes - {path};
        } else {
          var action := Reconcile(mine, theirs, cfg.id);
          if action == AcceptRemote {
            if path !in pendingDeletes {
              pendingDeletes := pendingDeletes + {path};
            } else {
              pendingDeletes := pendingDeletes - {path};
              index.ApplyRemote(path, theirs, None, 0);
            }
          }
        }
      }
    }

    method ApplyRemoteDeletions(remote: Index, order: seq<Path>)
      requires Valid() && Enumerates(order, remote.Keys)
      modifies this`pendingDeletes, index
      ensures State() == AfterDeletions(old(State()), remote, NamesOf(order, remote))
    {
      if !cfg.syncDeletes {
        return;
      }
      ghost var me := State();
      var names := LiveByChecksum(remote, order);
      for k := 0 to |order|
        invariant forall p :: DeletedSoFar(me, State(), remote, names, order[..k], p)
      {
        var path := order[k];
        OneMoreDeletion(me, State(), remote, names, order[..k], path);
        assert order[..k + 1] == order[..k] + [path];
        if remote[path].deleted {
          HearDeletion(path, remote[path], names);
        }
      }
      assert order[..|order|] == order;
      DeletedInFull(me, State(), remote, names, order);
    }

    /** Replay a rename on disk and in the index, if its source is still there. */
    method ApplyRename(source: Path, target: Path, entry: Entry)
      requires Valid()
      modifies index
      ensures State() == Renamed(old(State()), source, target, entry)
    {
      if source in index.files && source in index.entries && index.entries[source].checksum == entry.checksum {
        var existing := index.entries[source];
        index.files := (index.files - {source})[target := index.files[source]];
        var clock := new VectorClock(cfg.id, existing.clock);
        clock.Increment();
        index.ApplyRemote(source, Entry(Blank, 0, clock.clock, true), None, 0);
        index.ApplyRemote(target, entry, None, 0);
      }
    }

    method ApplyLocalRenames(remote: Index, remoteOrder: seq<Path>, ownOrder: seq<Path>)
      requires Valid() && Enumerates(ownOrder, index.entries.Keys)
      modifies index
      ensures State() ==
              AfterLocalRenames(old(State()), old(index.entries), remote, NamesOf(remoteOrder, remote), ownOrder)
    {
      ghost var me := State();
      var names := LiveByChecksum(remote, remoteOrder);
      var mine := index.entries;
      for k := 0 to |ownOrder|
        invariant State() == AfterLocalRenames(me, mine, remote, names, ownOrder[..k])
      {
        assert ownOrder[..k + 1][..k] == ownOrder[..k];
        var path := ownOrder[k];
        var local := mine[path];
        if !local.deleted && local.checksum != Blank && path in remote && remote[path].deleted {
          if local.checksum in names && names[local.checksum] != path {
            var target := names[local.checksum];
            ApplyRename(path, target, remote[target]);
          }
        }
      }
      assert ownOrder[..|ownOrder|] == ownOrder;
    }

    method ApplyIncomingFile(p: Path, entry: Entry, content: Content, stamp: Time)
      requires Valid()
      modifies index
      ensures State() == AfterIncoming(old(State()), p, entry, content, stamp)
    {
      if p !in index.entries {
        index.ApplyRemote(p, entry, Some(content), stamp);
      } else {
        var local := index.entries[p];
        var action := Reconcile(local, entry, cfg.id);
        if action == AcceptRemote {
          index.ApplyRemote(p, entry, Some(content), stamp);
        } else if action == Conflict {
          var resolved := ResolveConflict(p, local, entry);
          if resolved == AcceptRemote {
            index.ApplyRemote(p, entry, Some(content), stamp);
          }
        }
      }
    }

    /** Write a raw run to disk through a temporary name. */
    method RecvStreamToDisk(reader: StreamReader, size: nat, p: Path, stamp: Time) returns (ok: bool)
      modifies reader, index`files
      ensures ok <==> size <= |old(reader.buffer)|
      ensures ok ==> reader.buffer == old(reader.buffer)[size..]
      ensures ok ==>
                var files := Replaced(old(index.files), p, old(reader.buffer)[..size], stamp);
                State() == old(State()).(rep := old(index.State()).(files := files))
      ensures !ok ==> reader.buffer == [] && index.files - {TempName(p)} == old(index.files) - {TempName(p)}
    {
      var temp := TempName(p);
      assert temp != p;
      var content;
      ok, content := reader.ReadRaw(size, true);
      index.files := index.files[temp := File(content, stamp)];
      if ok {
        var file := index.files[temp];
        index.files := (index.files - {temp})[p := file];
      }
    }

    /** Receive a raw run, keeping it only if reconciliation lets it in; either
        way exactly `size` bytes leave the stream. */
    method ApplyIncomingStream(reader: StreamReader, p: Path, entry: Entry, size: nat, stamp: Time) returns (ok: bool)
      requires Valid()
      modifies reader, index
      ensures ok <==> size <= |old(reader.buffer)|
      ensures ok ==> reader.buffer == old(reader.buffer)[size..]
      ensures ok ==> State() == AfterIncomingStream(old(State()), p, entry, old(reader.buffer)[..size], stamp)
    {
      var accept := true;
      if p in index.entries {
        var local := index.entries[p];
        var action := Reconcile(local, entry, cfg.id);
        accept := action == AcceptRemote;
        if action == Conflict {
          var resolved := ResolveConflict(p, local, entry);
          accept := resolved == AcceptRemote;
        }
      }
      if accept {
        ok := RecvStreamToDisk(reader, size, p, stamp);
        if ok {
          index.ApplyRemote(p, entry, None, stamp);
        }
      } else {
        var drained;
        ok, drained := reader.ReadRaw(size, false);
      }
    }

    /** The reply to a request is written to the wire, if there is one. */
    method ServeFile(writer: StreamWriter, codec: Codec, p: Path)
      modifies writer
      ensures writer.sent == old(writer.sent) + Answer(codec, Served(State(), p))
    {
      if p !in index.entries || index.entries[p].deleted {
        return;
      }
      if p !in index.files {
        return;
      }
      writer.SendFileData(codec, p, index.files[p].content, index.entries[p]);
    }

    /** The listener while it serves: one request read and answered; it goes on
        until SYNC_DONE. */
    method ServeNext(reader: StreamReader, writer: StreamWriter, codec: Codec, ghost request: Message)
      returns (more: bool)
      requires ValidCodec(codec) && reader.buffer == Written(codec, Whole(request))
      modifies reader, writer
      ensures reader.buffer == [] && (more <==> request != SyncDone)
      ensures writer.sent == old(writer.sent)
              + if request.GetFile? then Answer(codec, Served(State(), request.path)) else []
    {
      FirstPacket(codec, Whole(request));
      var packet := reader.ReadMessage(codec);
      match packet {
        case Some(Plain(GetFile(p))) => ServeFile(writer, codec, p);
        case Some(Plain(SyncDone)) => return false;
        case _ =>
      }
      return true;
    }

    /** One reply read off the wire and stored, in memory or as it streams in. */
    method AcceptReply(reader: StreamReader, codec: Codec, ghost reply: Message, stamp: Path -> Time)
      requires Valid() && ValidCodec(codec) && reader.buffer == Written(codec, Framed(reply))
      modifies reader, index
      ensures State() == StoredFrame(old(State()), Framed(reply), stamp)
      ensures reader.buffer == []
    {
      FirstPacket(codec, Framed(reply));
      var packet := reader.ReadMessage(codec);
      match packet {
        case Some(Plain(FileData(p, content, entry))) =>
          index.ApplyRemote(p, entry, Some(content), stamp(p));
        case Some(StreamHeader(p, size, entry)) =>
          assert reader.buffer[..size] == reader.buffer;
          var ok := RecvStreamToDisk(reader, size, p, stamp(p));
          index.ApplyRemote(p, entry, None, stamp(p));
        case _ =>
      }
    }

    /** The pull phase over the two directions of a connection: for each path a
        request goes out, the server answers it, and the reply is stored.  The
        server must have the files: a request it drops is waited for forever. */
    method PullFrom(server: Provider, up: Channel, down: Channel, codec: Codec, needed: seq<Path>,
        stamp: Path -> Time)
      requires Valid() && server.Valid() && server.index != index && server != this && ValidCodec(codec)
      requires up.writer != down.writer && up.reader != down.reader && up.Empty() && down.Empty()
      requires forall p :: p in needed ==> Served(server.State(), p).Some?
      modifies index, up.writer, up.reader, down.writer, down.reader
      ensures State() == PulledFrames(old(State()), server.State(), needed, stamp)
      ensures server.State() == old(server.State()) && up.Empty() && down.Empty()
    {
      ghost var me := State();
      for k := 0 to |needed|
        invariant State() == PulledFrames(me, server.State(), needed[..k], stamp)
        invariant server.State() == old(server.State()) && up.Empty() && down.Empty()
      {
        assert needed[..k + 1][..k] == needed[..k];
        assert needed[k] in needed;
        up.writer.SendMessage(codec, GetFile(needed[k]));
        up.Flush();
        var more := server.ServeNext(up.reader, down.writer, codec, GetFile(needed[k]));
        down.Flush();
        AcceptReply(down.reader, codec, Served(server.State(), needed[k]).value, stamp);
      }
      assert needed[..|needed|] == needed;
    }

    /** Paths that can travel as renames, each with the name the peer has. */
    method FindRenames(names: Names, ownOrder: seq<Path>) returns (renames: map<Path, Path>)
      requires Enumerates(ownOrder, index.entries.Keys)
      ensures forall p :: p in renames <==> Live(index.entries, p) && PushedAsRename(State(), names, p)
      ensures forall p :: p in renames && p in index.entries && index.entries[p].checksum in names
                          ==> renames[p] == names[index.entries[p].checksum]
    {
      renames := map[];
      for k := 0 to |ownOrder|
        invariant forall p :: p in renames <==>
                              p in ownOrder[..k] && Live(index.entries, p) && PushedAsRename(State(), names, p)
        invariant forall p :: p in renames ==> renames[p] == names[index.entries[p].checksum]
      {
        var path := ownOrder[k];
        var entry := index.entries[path];
        assert ownOrder[..k + 1] == ownOrder[..k] + [path];
        if !entry.deleted && entry.checksum != Blank {
          if entry.checksum in names && names[entry.checksum] != path {
            var was := names[entry.checksum];
            if was in index.entries && index.entries[was].deleted {
              renames := renames[path := was];
            }
          }
        }
      }
      assert ownOrder[..|ownOrder|] == ownOrder;
    }

    /** Push one path: as a rename if the table has it, else with its content. */
    method PushPath(writer: StreamWriter, codec: Codec, remote: Index, names: Names, renames: map<Path, Path>,
        path: Path)
      requires path in index.entries
      requires path in renames <==> Live(index.entries, path) && PushedAsRename(State(), names, path)
      requires path in renames && index.entries[path].checksum in names ==>
                 renames[path] == names[index.entries[path].checksum]
      modifies writer
      ensures writer.sent == old(writer.sent) + PushBytes(codec, PushOf(State(), remote, names, path))
    {
      var local := index.entries[path];
      if local.deleted {
        return;
      }
      var push := path !in remote || remote[path].deleted;
      if !push {
        var action := Reconcile(remote[path], local, cfg.id);
        push := action == AcceptRemote;
      }
      if push {
        if path in renames {
          writer.SendMessage(codec, RenameFile(renames[path], path, local));
        } else if path in index.files {
          writer.SendFileData(codec, path, index.files[path].content, local);
        }
      }
    }

    /** The push phase: a table of renames first, then one message per path. */
    method PushTo(writer: StreamWriter, codec: Codec, remote: Index, remoteOrder: seq<Path>, ownOrder: seq<Path>)
      requires Enumerates(ownOrder, index.entries.Keys)
      modifies writer
      ensures writer.sent == old(writer.sent)
              + AllWritten(codec, AllFramed(PushList(State(), remote, NamesOf(remoteOrder, remote), ownOrder)))
    {
      var names := LiveByChecksum(remote, remoteOrder);
      var renames := FindRenames(names, ownOrder);
      ghost var msgs: seq<Message> := [];
      for k := 0 to |ownOrder|
        invariant msgs == PushList(State(), remote, names, ownOrder[..k])
        invariant writer.sent == old(writer.sent) + AllWritten(codec, AllFramed(msgs))
      {
        ghost var more := PushOf(State(), remote, names, ownOrder[k]);
        OnePushMore(State(), remote, names, ownOrder, k);
        PushPath(writer, codec, remote, names, renames, ownOrder[k]);
        PushWritten(codec, msgs, more, old(writer.sent));
        msgs := msgs + more;
      }
      assert ownOrder[..|ownOrder|] == ownOrder;
    }

    /** Apply one pushed packet; the body of a raw run is still to be read. */
    method AcceptPush(reader: StreamReader, packet: Packet, stamp: Path -> Time) returns (ok: bool)
      requires Valid()
      modifies reader, index
      ensures packet.Plain? ==>
                ok && reader.buffer == old(reader.buffer) && State() == Received(old(State()), packet.msg, stamp)
      ensures packet.StreamHeader? ==> (ok <==> packet.size <= |old(reader.buffer)|)
      ensures packet.StreamHeader? && ok ==>
                && reader.buffer == old(reader.buffer)[packet.size..]
                && State() == AfterIncomingStream(old(State()), packet.path, packet.entry,
                                                  old(reader.buffer)[..packet.size], stamp(packet.path))
    {
      ok := true;
      match packet {
        case Plain(FileData(p, content, entry)) => ApplyIncomingFile(p, entry, content, stamp(p));
        case Plain(RenameFile(source, target, entry)) => ApplyRename(source, target, entry);
        case StreamHeader(p, size, entry) => ok := ApplyIncomingStream(reader, p, entry, size, stamp(p));
        case _ =>
      }
    }

    /** Read and apply the next pushed frame; stop after the ACK. */
    method AcceptNext(reader: StreamReader, codec: Codec, ghost frames: seq<Frame>, ghost k: nat,
        ghost rest: seq<Byte>, stamp: Path -> Time)
      returns (more: bool)
      requires Valid() && ValidCodec(codec) && Whole(Ack) !in frames && k <= |frames|
      requires reader.buffer == Unread(codec, frames, k, rest)
      modifies reader, index
      ensures more <==> k < |frames|
      ensures State() == if more then ReceivedFrame(old(State()), frames[k], stamp) else old(State())
      ensures reader.buffer == if more then Unread(codec, frames, k + 1, rest) else rest
    {
      UnreadPacket(codec, frames, k, rest);
      var packet := reader.ReadMessage(codec);
      if packet == None || packet == Some(Plain(Ack)) {
        return false;
      }
      var ok := AcceptPush(reader, packet.value, stamp);
      return true;
    }

    /** The push phase at the listener, off the wire: every frame up to the ACK
        is applied, and reading stops right after it. */
    method AcceptPushes(reader: StreamReader, codec: Codec, ghost frames: seq<Frame>, ghost rest: seq<Byte>,
        stamp: Path -> Time)
      requires Valid() && ValidCodec(codec) && Whole(Ack) !in frames
      requires reader.buffer == Unread(codec, frames, 0, rest)
      modifies reader, index
      ensures State() == ReceivedFrames(old(State()), frames, stamp)
      ensures reader.buffer == rest
    {
      ghost var me := State();
      ghost var k := 0;
      var more := true;
      while more
        invariant 0 <= k <= |frames| && (!more ==> k == |frames|)
        invariant State() == ReceivedTo(me, frames, k, stamp)
        invariant reader.buffer == if more then Unread(codec, frames, k, rest) else rest
        decreases |frames| - k, more
      {
        more := AcceptNext(reader, codec, frames, k, rest, stamp);
        if more {
          k := k + 1;
        }
      }
      ReceivedToEnd(me, frames, stamp);
    }

    /** One batch of watch events, in the order delivered. */
    method WatchBatch(changes: seq<Event>) returns (dirty: bool)
      requires Valid()
      modifies index`entries
      ensures index.State() == AfterBatch(old(index.State()), index.nodeId, index.excluded, changes)
      ensures dirty <==> index.entries != old(index.entries)
    {
      ghost var rep := index.State();
      dirty := false;
      for k := 0 to |changes|
        invariant index.State() == AfterBatch(rep, index.nodeId, index.excluded, changes[..k])
        invariant Grown(rep.entries, index.entries, index.nodeId)
        invariant dirty <==> index.entries != rep.entries
      {
        assert changes[..k + 1][..k] == changes[..k];
        ghost var before := index.State();
        EventGrows(before, index.nodeId, index.excluded, changes[k]);
        var changed: bool;
        match changes[k] {
          case Deleted(p) =>
            changed := index.MarkDeleted(p);
            if !changed {
              changed := index.MarkDirDeleted(p);
            }
          case Touched(p) =>
            if IsDir(index.files, p) {
              changed := ScanDirectory(p);
            } else {
              changed := index.ScanOne(p);
            }
        }
        GrowthAddsUp(rep.entries, before.entries, index.entries, index.nodeId);
        dirty := dirty || changed;
      }
      assert changes[..|changes|] == changes;
    }

    method ScanDirectory(dir: Path) returns (dirty: bool)
      modifies index`entries
      ensures index.State() == ScannedUnder(old(index.State()), index.nodeId, index.excluded, dir)
      ensures dirty <==> index.entries != old(index.entries)
    {
      ghost var rep := index.State();
      ghost var goal := ScannedUnder(rep, index.nodeId, index.excluded, dir);
      var walk := set q | q in index.files && Under(q, dir);
      var all := walk;
      dirty := false;
      while walk != {}
        invariant walk <= all
        invariant index.files == rep.files && index.corrupted == rep.corrupted
        invariant forall q :: Lookup(index.entries, q) ==
                              if q in all && q !in walk
                              then ScannedUnderEntry(rep, index.nodeId, index.excluded, dir, q)
                              else Lookup(rep.entries, q)
        invariant dirty <==> exists q :: q in all && q !in walk && Lookup(index.entries, q) != Lookup(rep.entries, q)
        decreases walk
      {
        var q :| q in walk;
        walk := walk - {q};
        assert Lookup(index.entries, q) == Lookup(rep.entries, q);
        ghost var before := index.State();
        var changed := index.ScanOne(q);
        ScanOneLocal(before, rep, index.nodeId, index.excluded, q);
        dirty := dirty || changed;
      }
      forall q ensures Lookup(index.entries, q) == Lookup(goal.entries, q) {
        assert Lookup(goal.entries, q) == ScannedUnderEntry(rep, index.nodeId, index.excluded, dir, q);
      }
      SameLookups(index.entries, goal.entries);
    }

    /** A verify pass flags exactly the live files that no longer match. */
    method VerifyPass()
      modifies index`corrupted
      ensures index.corrupted == old(index.corrupted)
              + set p | p in index.entries && Live(index.entries, p) && p in index.files
                        && Sha256(index.files[p].content) != index.entries[p].checksum
    {
      var todo := index.entries.Keys;
      while todo != {}
        invariant todo <= index.entries.Keys
        invariant index.corrupted == old(index.corrupted)
                  + set p | p in index.entries && p !in todo && Live(index.entries, p) && p in index.files
                            && Sha256(index.files[p].content) != index.entries[p].checksum
        decreases todo
      {
        var p :| p in todo;
        todo := todo - {p};
        var differs := index.VerifyOne(p);
        if differs {
          index.MarkCorrupted(p);
        }
      }
    }

    /* ---- The phases of a session ---- */

    method Greet(remote: Index, env: Env)
      requires Valid() && ValidEnv(env)
      modifies this`pendingDeletes, index
      ensures State() == Greeted(old(State()), remote, env)
    {
      var order := env.initiatorOrder(remote.Keys);
      assert Enumerates(order, remote.Keys);
      ApplyRemoteDeletions(remote, order);
    }

    method Inform(remote: Index, env: Env)
      requires Valid() && ValidEnv(env)
      modifies this`pendingDeletes, index
      ensures State() == Informed(old(State()), remote, env)
    {
      var remoteOrder := env.listenerOrder(remote.Keys);
      assert Enumerates(remoteOrder, remote.Keys);
      ApplyRemoteDeletions(remote, remoteOrder);
      var order := env.initiatorOrder(index.entries.Keys);
      assert Enumerates(order, index.entries.Keys);
      ApplyLocalRenames(remote, remoteOrder, order);
    }

    method Prepare(remote: Index, env: Env) returns (needed: seq<Path>)
      requires Valid() && ValidEnv(env)
      modifies this`pendingDeletes, index
      ensures State() == Ready(old(State()), remote, env)
      ensures needed == Wants(old(State()), remote, env)
    {
      Inform(remote, env);
      var remoteOrder := env.listenerOrder(remote.Keys);
      assert Enumerates(remoteOrder, remote.Keys);
      needed := ComputeNeeded(remote, remoteOrder, env.initiatorOrder(index.entries.Keys));
    }

    method Offer(writer: StreamWriter, codec: Codec, remote: Index, env: Env)
      requires ValidEnv(env)
      modifies writer
      ensures writer.sent == old(writer.sent) + Unread(codec, AllFramed(Offered(State(), remote, env)), 0, [])
    {
      var order := env.initiatorOrder(index.entries.Keys);
      assert Enumerates(order, index.entries.Keys);
      PushTo(writer, codec, remote, env.listenerOrder(remote.Keys), order);
      writer.SendMessage(codec, Ack);
      AckWritten(codec, AllFramed(Offered(State(), remote, env)), old(writer.sent));
    }

    /** The listener's part of the opening: read a HELLO, answer it with its own,
        then hear of deletions. */
    method AnswerHello(reader: StreamReader, writer: StreamWriter, codec: Codec, ghost theirs: Index, env: Env)
      requires Valid() && ValidEnv(env) && ValidCodec(codec) && reader.buffer == Written(codec, Whole(Hello(theirs)))
      modifies reader, writer, this`pendingDeletes, index
      ensures State() == Greeted(old(State()), theirs, env)
      ensures reader.buffer == []
      ensures writer.sent == old(writer.sent) + Written(codec, Whole(Hello(old(index.entries))))
    {
      FirstPacket(codec, Whole(Hello(theirs)));
      var packet := reader.ReadMessage(codec);
      match packet {
        case Some(Plain(Hello(remote))) =>
          writer.SendMessage(codec, Hello(index.entries));
          Greet(remote, env);
        case _ =>
      }
    }

    method ReadHello(reader: StreamReader, codec: Codec, ghost theirs: Index) returns (remote: Index)
      requires ValidCodec(codec) && reader.buffer == Written(codec, Whole(Hello(theirs)))
      modifies reader
      ensures remote == theirs && reader.buffer == []
    {
      FirstPacket(codec, Whole(Hello(theirs)));
      var packet := reader.ReadMessage(codec);
      match packet {
        case Some(Plain(Hello(index))) => return index;
        case _ => return map[];
      }
    }
  }

  /* ---- Both ends ---- */

  /** The opening: the two indexes are exchanged and the listener hears of
      deletions. */
  method OpenSession(initiator: Provider, listener: Provider, up: Channel, down: Channel, codec: Codec, env: Env)
    returns (remote: Index)
    requires listener.Valid() && ValidCodec(codec) && ValidEnv(env)
    requires initiator != listener && initiator.index != listener.index
    requires up.writer != down.writer && up.reader != down.reader && up.Empty() && down.Empty()
    modifies listener, listener.index, up.writer, up.reader, down.writer, down.reader
    ensures up.Empty() && down.Empty() && remote == old(listener.index.entries)
    ensures listener.State() == Greeted(old(listener.State()), initiator.index.entries, env)
    ensures initiator.State() == old(initiator.State())
  {
    ghost var theirs := listener.index.entries;
    up.writer.SendMessage(codec, Hello(initiator.index.entries));
    up.Flush();
    listener.AnswerHello(up.reader, down.writer, codec, initiator.index.entries, env);
    down.Flush();
    remote := initiator.ReadHello(down.reader, codec, theirs);
  }

  /** The end: everything the initiator offers is pushed and accepted. */
  method PushPhase(initiator: Provider, listener: Provider, up: Channel, codec: Codec, remote: Index, env: Env)
    requires listener.Valid() && ValidCodec(codec) && ValidEnv(env)
    requires initiator != listener && initiator.index != listener.index && up.Empty()
    modifies listener.index, up.writer, up.reader
    ensures up.Empty() && initiator.State() == old(initiator.State())
    ensures listener.State() == ReceivedFrames(old(listener.State()),
                AllFramed(Offered(initiator.State(), remote, env)), env.listenerStamp)
  {
    initiator.Offer(up.writer, codec, remote, env);
    up.Flush();
    NoAckOffered(initiator.State(), remote, env);
    listener.AcceptPushes(up.reader, codec, AllFramed(Offered(initiator.State(), remote, env)), [],
                          env.listenerStamp);
  }

  /** Both ends of a session, in place and over bytes: what is left on the two
      sides is the session function of what was there. */
  method RunSession(initiator: Provider, listener: Provider, codec: Codec, env: Env)
    requires initiator.Valid() && listener.Valid() && ValidCodec(codec) && ValidEnv(env)
    requires initiator != listener && initiator.index != listener.index
    requires Answerable(initiator.State(), listener.State(), env)
    modifies initiator, initiator.index, listener, listener.index
    ensures (initiator.State(), listener.State())
            == FramedSession(old(initiator.State()), old(listener.State()), env)
  {
    var up := new Channel();
    var down := new Channel();
    var remote := OpenSession(initiator, listener, up, down, codec, env);
    var needed := initiator.Prepare(remote, env);
    forall p | p in needed ensures Served(listener.State(), p).Some? {
      WantedIsServed(old(initiator.State()), old(listener.State()), env, p);
    }
    initiator.PullFrom(listener, up, down, codec, needed, env.initiatorStamp);
    up.writer.SendMessage(codec, SyncDone);
    up.Flush();
    var more := listener.ServeNext(up.reader, down.writer, codec, SyncDone);
    PushPhase(initiator, listener, up, codec, remote, env);
  }
}
