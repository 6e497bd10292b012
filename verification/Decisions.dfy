/** What one side of a session decides and does: the shared rules of the
    providers, as functions of a peer and of the index the other side sent. */
module Decisions {
  import opened Options
  import opened VectorClocks
  import opened FileIndexes
  import opened SyncEngines

  datatype Config = Config(id: Node, keepBoth: bool, syncDeletes: bool)

  /** One node: its configuration, its replica, and the paths whose remote
      deletion was seen once and awaits confirmation. */
  datatype Peer = Peer(cfg: Config, rep: Replica, pending: set<Path>)

  datatype Message =
    | Hello(index: Index)
    | GetFile(path: Path)
    | FileData(path: Path, content: Content, entry: Entry)
    | SyncDone
    | RenameFile(source: Path, target: Path, entry: Entry)
    | Ack

  /** A table from checksum to a live path that carries it. */
  type Names = map<Checksum, Path>

  ghost predicate Enumerates(order: seq<Path>, keys: set<Path>) {
    && (forall p :: p in order <==> p in keys)
    && (forall i, j :: 0 <= i < j < |order| ==> order[i] != order[j])
  }

  ghost predicate SoundNames(names: Names, ix: Index) {
    forall c :: c in names ==> c != Blank && Live(ix, names[c]) && ix[names[c]].checksum == c
  }

  ghost predicate IsNames(names: Names, ix: Index) {
    && SoundNames(names, ix)
    && (forall p :: Live(ix, p) && ix[p].checksum != Blank ==> ix[p].checksum in names)
  }

  /** The table built by visiting `order`: of several paths with one checksum,
      the last visited stays. */
  function NamesOf(order: seq<Path>, ix: Index): (names: Names)
    ensures SoundNames(names, ix)
    ensures forall p :: p in order && Live(ix, p) && ix[p].checksum != Blank ==> ix[p].checksum in names
  {
    if order == [] then map[]
    else
      var last := |order| - 1;
      assert order == order[..last] + [order[last]];
      var names := NamesOf(order[..last], ix);
      var p := order[last];
      if Live(ix, p) && ix[p].checksum != Blank then names[ix[p].checksum := p] else names
  }

  predicate Bears(ix: Index, p: Path, c: Checksum) {
    Live(ix, p) && c != Blank && ix[p].checksum == c
  }

  /** The table holds a checksum exactly when a visited path bears it, and then
      names the last such path. */
  lemma {:induction false} LastVisitedWins(order: seq<Path>, ix: Index, c: Checksum) returns (i: int)
    ensures -1 <= i < |order| && (forall j :: i < j < |order| ==> !Bears(ix, order[j], c))
    ensures c in NamesOf(order, ix) <==> i >= 0
    ensures i >= 0 ==> Bears(ix, order[i], c) && NamesOf(order, ix)[c] == order[i]
  {
    if order == [] {
      i := -1;
    } else {
      var last := |order| - 1;
      i := LastVisitedWins(order[..last], ix, c);
      if Bears(ix, order[last], c) {
        i := last;
      } else {
        forall j | i < j < |order| ensures !Bears(ix, order[j], c) {
          assert j < last ==> order[..last][j] == order[j];
        }
      }
    }
  }

  /** The content recorded for `p` is known under another name. */
  predicate KnownElsewhere(names: Names, checksum: Checksum, p: Path) {
    checksum in names && names[checksum] != p
  }

  /* ---- Deletions ---- */

  predicate Doomed(me: Peer, remote: Index, names: Names, p: Path) {
    && Dead(remote, p)
    && Live(me.rep.entries, p)
    && !KnownElsewhere(names, me.rep.entries[p].checksum, p)
    && Verdict(me.rep.entries[p], remote[p]) == AcceptRemote
  }

  predicate Settled(me: Peer, remote: Index, names: Names, p: Path) {
    && Dead(remote, p)
    && (Live(me.rep.entries, p) ==> KnownElsewhere(names, me.rep.entries[p].checksum, p))
  }

  /** A remote deletion is carried out the second time it is seen. */
  function AfterDeletions(me: Peer, remote: Index, names: Names): Peer {
    if !me.cfg.syncDeletes then me
    else
      var doomed := set p | p in remote && Doomed(me, remote, names, p);
      var settled := set p | p in remote && Settled(me, remote, names, p);
      var gone := doomed * me.pending;
      me.(rep := Buried(me.rep, remote, gone),
          pending := (me.pending - settled - gone) + (doomed - me.pending))
  }

  function Buried(rep: Replica, remote: Index, gone: set<Path>): Replica {
    Replica(map p | p in rep.entries :: if p in gone && p in remote then remote[p] else rep.entries[p],
            rep.corrupted - gone,
            rep.files - gone)
  }

  /* ---- Renames ---- */

  function Renamed(me: Peer, source: Path, target: Path, entry: Entry): Peer {
    var rep := me.rep;
    if source in rep.files && source in rep.entries && rep.entries[source].checksum == entry.checksum then
      var moved := rep.(files := (rep.files - {source})[target := rep.files[source]]);
      var buried := Applied(moved, source, Tombstone(rep.entries[source], me.cfg.id), None, 0);
      me.(rep := Applied(buried, target, entry, None, 0))
    else me
  }

  predicate RenameDue(mine: Index, remote: Index, names: Names, p: Path) {
    && Live(mine, p)
    && mine[p].checksum != Blank
    && Dead(remote, p)
    && KnownElsewhere(names, mine[p].checksum, p)
  }

  /** The renames the remote made, replayed in the given order. */
  function AfterLocalRenames(me: Peer, mine: Index, remote: Index, names: Names, order: seq<Path>): Peer
    requires SoundNames(names, remote)
  {
    if order == [] then me
    else
      var last := |order| - 1;
      var before := AfterLocalRenames(me, mine, remote, names, order[..last]);
      var p := order[last];
      if RenameDue(mine, remote, names, p) then
        var target := names[mine[p].checksum];
        Renamed(before, p, target, remote[target])
      else before
  }

  /* ---- Pulling ---- */

  /** Whether the conflict strategy lets the remote version in. */
  predicate Concedes(cfg: Config, local: Entry, remote: Entry) {
    local.checksum != remote.checksum && (cfg.keepBoth || LastWriteWins(local, remote) == AcceptRemote)
  }

  predicate Wanted(me: Peer, remote: Index, own: Names, p: Path)
    requires p in remote
  {
    var mine := me.rep.entries;
    && !remote[p].deleted
    && if !Live(mine, p) then
         && !KnownElsewhere(own, remote[p].checksum, p)
         && (p in mine ==> Verdict(mine[p], remote[p]) == AcceptRemote)
       else
         match Verdict(mine[p], remote[p])
         case AcceptRemote => true
         case Conflict => Concedes(me.cfg, mine[p], remote[p])
         case KeepLocal => p in me.rep.corrupted
  }

  /** Asking for `p` first saves a conflict copy of the local version. */
  predicate CopiesFirst(me: Peer, remote: Index, p: Path)
    requires p in remote
  {
    && !remote[p].deleted
    && Live(me.rep.entries, p)
    && Verdict(me.rep.entries[p], remote[p]) == Conflict
    && me.rep.entries[p].checksum != remote[p].checksum
    && me.cfg.keepBoth
  }

  function Needed(me: Peer, remote: Index, own: Names, order: seq<Path>): seq<Path> {
    if order == [] then []
    else
      var last := |order| - 1;
      var p := order[last];
      Needed(me, remote, own, order[..last]) + if p in remote && Wanted(me, remote, own, p) then [p] else []
  }

  function AfterNeeded(me: Peer, remote: Index, order: seq<Path>): Peer {
    if order == [] then me
    else
      var last := |order| - 1;
      var before := AfterNeeded(me, remote, order[..last]);
      var p := order[last];
      if p in remote && CopiesFirst(me, remote, p) then WithCopy(before, p) else before
  }

  function WithCopy(me: Peer, p: Path): Peer {
    me.(rep := me.rep.(files := WithConflictCopy(me.rep.files, p, me.cfg.id)))
  }

  /** The reply to a GET_FILE; none when the path is not live or has no file. */
  function Served(me: Peer, p: Path): Option<Message> {
    if Live(me.rep.entries, p) && p in me.rep.files
    then Some(FileData(p, me.rep.files[p].content, me.rep.entries[p]))
    else None
  }

  function Stored(me: Peer, p: Path, entry: Entry, content: Content, stamp: Time): Peer {
    me.(rep := Applied(me.rep, p, entry, Some(content), stamp))
  }

  /** Requested files are stored without being reconciled again. */
  function Pulled(me: Peer, server: Peer, needed: seq<Path>, stamp: Path -> Time): Peer {
    if needed == [] then me
    else
      var last := |needed| - 1;
      var before := Pulled(me, server, needed[..last], stamp);
      var p := needed[last];
      match Served(server, p)
      case Some(FileData(q, content, entry)) => Stored(before, q, entry, content, stamp(q))
      case _ => before
  }

  /* ---- Pushing ---- */

  predicate Pushed(me: Peer, remote: Index, p: Path) {
    && Live(me.rep.entries, p)
    && (p in remote && !remote[p].deleted ==> Verdict(remote[p], me.rep.entries[p]) == AcceptRemote)
  }

  /** The listener holds the content under a name this node has deleted. */
  predicate PushedAsRename(me: Peer, names: Names, p: Path)
    requires p in me.rep.entries
  {
    var checksum := me.rep.entries[p].checksum;
    && checksum != Blank
    && KnownElsewhere(names, checksum, p)
    && Dead(me.rep.entries, names[checksum])
  }

  function PushOf(me: Peer, remote: Index, names: Names, p: Path): seq<Message> {
    if !Pushed(me, remote, p) then []
    else if PushedAsRename(me, names, p) then
      [RenameFile(names[me.rep.entries[p].checksum], p, me.rep.entries[p])]
    else if p in me.rep.files then
      [FileData(p, me.rep.files[p].content, me.rep.entries[p])]
    else []
  }

  function PushList(me: Peer, remote: Index, names: Names, order: seq<Path>): seq<Message> {
    if order == [] then []
    else
      var last := |order| - 1;
      PushList(me, remote, names, order[..last]) + PushOf(me, remote, names, order[last])
  }

  /** A pushed file is reconciled before it is stored. */
  function AfterIncoming(me: Peer, p: Path, entry: Entry, content: Content, stamp: Time): Peer {
    if p !in me.rep.entries then Stored(me, p, entry, content, stamp)
    else
      var local := me.rep.entries[p];
      match Verdict(local, entry)
      case KeepLocal => me
      case AcceptRemote => Stored(me, p, entry, content, stamp)
      case Conflict =>
        if !Concedes(me.cfg, local, entry) then me
        else Stored(if me.cfg.keepBoth then WithCopy(me, p) else me, p, entry, content, stamp)
  }

  function Received(me: Peer, msg: Message, stamp: Path -> Time): Peer {
    match msg
    case FileData(p, content, entry) => AfterIncoming(me, p, entry, content, stamp(p))
    case RenameFile(source, target, entry) => Renamed(me, source, target, entry)
    case _ => me
  }

  function ReceivedAll(me: Peer, msgs: seq<Message>, stamp: Path -> Time): Peer {
    if msgs == [] then me
    else
      var last := |msgs| - 1;
      Received(ReceivedAll(me, msgs[..last], stamp), msgs[last], stamp)
  }
}
