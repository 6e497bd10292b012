/** The replica a node keeps of its watched directory: an index of entries with
    tombstones, a set of paths flagged as corrupted, and the files themselves.
    The functions say what each index operation makes of a replica; class
    `FileIndex` holds one replica and updates it in place. */
module FileIndexes {
  import opened Options
  import opened VectorClocks

  /** A path relative to the watched directory; it is never empty. */
  type Path = p: string | p != "" witness "f"
  /** A modification time, in nanoseconds. */
  type Time = int
  type Byte = b: int | 0 <= b < 256
  type Content = seq<Byte>

  /** A checksum as a collision-free digest; tombstones carry the blank one. */
  datatype Checksum = Blank | Digest(content: Content)

  function Sha256(content: Content): Checksum {
    Digest(content)
  }

  /** An index entry.  Its path is the key it is stored under. */
  datatype Entry = Entry(checksum: Checksum, mtime: Time, clock: Clock, deleted: bool)
  type Index = map<Path, Entry>

  datatype File = File(content: Content, mtime: Time)
  type Disk = map<Path, File>

  datatype Replica = Replica(entries: Index, corrupted: set<Path>, files: Disk)

  predicate Live(ix: Index, p: Path) {
    p in ix && !ix[p].deleted
  }

  predicate Dead(ix: Index, p: Path) {
    p in ix && ix[p].deleted
  }

  function Lookup(ix: Index, p: Path): Option<Entry> {
    if p in ix then Some(ix[p]) else None
  }

  /** How many of its own edits of a path a node's entry counts. */
  function OwnPart(ix: Index, n: Node, p: Path): nat {
    if p in ix then Component(ix[p].clock, n) else 0
  }

  /** What a user sees of an index: the live paths and their checksums. */
  function LiveView(ix: Index): map<Path, Checksum> {
    map p | p in ix && !ix[p].deleted :: ix[p].checksum
  }

  /** What a user sees of a directory, excluded files aside. */
  function DiskView(files: Disk, excluded: Path -> bool): map<Path, Checksum> {
    map p | p in files && !excluded(p) :: Sha256(files[p].content)
  }

  /** Tombstones carry no checksum and the time zero. */
  ghost predicate PlainTombstones(ix: Index) {
    forall p :: Dead(ix, p) ==> ix[p].checksum == Blank && ix[p].mtime == 0
  }

  /** Every live entry has its file on disk with the content it records. */
  ghost predicate Backed(rep: Replica) {
    && (forall p :: Live(rep.entries, p) ==> p in rep.files && rep.entries[p].checksum == Sha256(rep.files[p].content))
    && PlainTombstones(rep.entries)
  }

  /** The index tells the truth: the live paths are exactly the files that are
      not excluded, each with the checksum of its content. */
  ghost predicate InSync(rep: Replica, excluded: Path -> bool) {
    LiveView(rep.entries) == DiskView(rep.files, excluded)
  }

  predicate Under(p: Path, dir: Path) {
    dir + "/" <= p
  }

  predicate IsDir(files: Disk, p: Path) {
    exists q :: q in files && Under(q, p)
  }

  /** Whether a name exists on disk, as a file or as a directory holding one. */
  predicate Exists(files: Disk, p: Path) {
    p in files || IsDir(files, p)
  }

  function Tombstone(existing: Entry, id: Node): Entry {
    Entry(Blank, 0, Incremented(existing.clock, id), true)
  }

  const TOLERANCE: Time := 1_000_000

  /** The file's time differs from the recorded one by more than a millisecond. */
  predicate Drifted(existing: Entry, file: File) {
    var d := file.mtime - existing.mtime;
    (if d < 0 then -d else d) > TOLERANCE
  }

  /** The entry `scan` leaves at a path.  With `hashAll` the modification time
      is not trusted and every file is hashed. */
  function ScannedEntry(rep: Replica, id: Node, excluded: Path -> bool, hashAll: bool, p: Path): Option<Entry> {
    if p in rep.files && !excluded(p) then
      var file := rep.files[p];
      if !Live(rep.entries, p) then
        Some(Entry(Sha256(file.content), file.mtime, Incremented(map[], id), false))
      else if (hashAll || Drifted(rep.entries[p], file)) && Sha256(file.content) != rep.entries[p].checksum then
        Some(Entry(Sha256(file.content), file.mtime, Incremented(rep.entries[p].clock, id), false))
      else
        Some(rep.entries[p])
    else if Live(rep.entries, p) then
      Some(Tombstone(rep.entries[p], id))
    else
      Lookup(rep.entries, p)
  }

  function Scanned(rep: Replica, id: Node, excluded: Path -> bool, hashAll: bool): Replica {
    rep.(entries := map p | p in rep.entries.Keys + rep.files.Keys && ScannedEntry(rep, id, excluded, hashAll, p).Some?
                          :: ScannedEntry(rep, id, excluded, hashAll, p).value)
  }

  /** Reindex a single file; a path that reappears continues its old clock. */
  function ScannedOne(rep: Replica, id: Node, excluded: Path -> bool, p: Path): Replica {
    if excluded(p) || p !in rep.files then rep
    else
      var file := rep.files[p];
      if Live(rep.entries, p) && (!Drifted(rep.entries[p], file)
                                  || Sha256(file.content) == rep.entries[p].checksum) then rep
      else
        var clock := if p in rep.entries then rep.entries[p].clock else map[];
        rep.(entries := rep.entries[p := Entry(Sha256(file.content), file.mtime, Incremented(clock, id), false)])
  }

  function MarkedDeleted(rep: Replica, id: Node, p: Path): Replica {
    if Exists(rep.files, p) || !Live(rep.entries, p) then rep
    else rep.(entries := rep.entries[p := Tombstone(rep.entries[p], id)])
  }

  function MarkedDirDeleted(rep: Replica, id: Node, dir: Path): Replica {
    rep.(entries := map p | p in rep.entries ::
      if Under(p, dir) && !rep.entries[p].deleted then Tombstone(rep.entries[p], id) else rep.entries[p])
  }

  /** Record a remote entry, writing `content` at time `stamp` when given. */
  function Applied(rep: Replica, p: Path, entry: Entry, content: Option<Content>, stamp: Time): Replica {
    if entry.deleted then
      Replica(rep.entries[p := entry], rep.corrupted - {p}, rep.files - {p})
    else
      var files := if content.Some? then rep.files[p := File(content.value, stamp)] else rep.files;
      var mtime := if p in files then files[p].mtime else entry.mtime;
      Replica(rep.entries[p := entry.(mtime := mtime)], rep.corrupted - {p}, files)
  }

  class FileIndex {
    const nodeId: Node
    const excluded: Path -> bool
    var entries: Index
    var corrupted: set<Path>
    var files: Disk

    constructor (nodeId: Node, excluded: Path -> bool, rep: Replica)
      ensures this.nodeId == nodeId && this.excluded == excluded && State() == rep
    {
      this.nodeId := nodeId;
      this.excluded := excluded;
      entries, corrupted, files := rep.entries, rep.corrupted, rep.files;
    }

    function State(): Replica
      reads this
    {
      Replica(entries, corrupted, files)
    }

    /** Rescan the directory and return the paths whose entry changed. */
    method Scan() returns (dirty: set<Path>)
      modifies this`entries
      ensures State() == Scanned(old(State()), nodeId, excluded, false)
      ensures dirty == set p | p in entries && Lookup(entries, p) != Lookup(old(entries), p)
    {
      ghost var rep := State();
      var seen;
      seen, dirty := ScanPresent();
      var gone := BuryUnseen(seen);
      dirty := dirty + gone;
      ghost var scanned := Scanned(rep, nodeId, excluded, false).entries;
      forall p ensures Lookup(entries, p) == Lookup(scanned, p) {
        assert Lookup(scanned, p) == ScannedEntry(rep, nodeId, excluded, false, p);
      }
      SameLookups(entries, scanned);
    }

    /** The walk over the files: what is new or changed is hashed and recorded. */
    method ScanPresent() returns (seen: set<Path>, dirty: set<Path>)
      modifies this`entries
      ensures forall p :: p in seen <==> p in files && !excluded(p)
      ensures forall p :: Lookup(entries, p) ==
                          if p in seen then ScannedEntry(old(State()), nodeId, excluded, false, p)
                              else Lookup(old(entries), p)
      ensures forall p :: p in dirty <==> Lookup(entries, p) != Lookup(old(entries), p)
    {
      ghost var rep := State();
      seen, dirty := {}, {};
      var walk := files.Keys;
      while walk != {}
        invariant walk <= files.Keys
        invariant forall p :: p in seen <==> p in files && p !in walk && !excluded(p)
        invariant forall p :: Lookup(entries, p) ==
                              if p in seen then ScannedEntry(rep, nodeId, excluded, false, p)
                                  else Lookup(rep.entries, p)
        invariant forall p :: p in dirty <==> Lookup(entries, p) != Lookup(rep.entries, p)
        decreases walk
      {
        var p :| p in walk;
        walk := walk - {p};
        if !excluded(p) {
          seen := seen + {p};
          var file := files[p];
          assert Lookup(entries, p) == Lookup(rep.entries, p);
          if p !in entries || entries[p].deleted {
            entries := entries[p := Entry(Sha256(file.content), file.mtime, Incremented(map[], nodeId), false)];
            dirty := dirty + {p};
          } else if Drifted(entries[p], file) {
            var checksum := Sha256(file.content);
            if checksum != entries[p].checksum {
              entries := entries[p := Entry(checksum, file.mtime, Incremented(entries[p].clock, nodeId), false)];
              dirty := dirty + {p};
            }
          }
        }
      }
    }

    /** The pass over the entries: a live path that was not seen is deleted. */
    method BuryUnseen(seen: set<Path>) returns (dirty: set<Path>)
      modifies this`entries
      ensures forall p :: Lookup(entries, p) ==
                          if p !in seen && Live(old(entries), p) then Some(Tombstone(old(entries)[p], nodeId))
                          else Lookup(old(entries), p)
      ensures forall p :: p in dirty <==> p !in seen && Live(old(entries), p)
    {
      var known := entries;
      var todo := known.Keys;
      dirty := {};
      while todo != {}
        invariant todo <= known.Keys
        invariant forall p :: Lookup(entries, p) ==
                              if p !in seen && p !in todo && Live(known, p) then Some(Tombstone(known[p], nodeId))
                              else Lookup(known, p)
        invariant forall p :: p in dirty <==> p !in seen && p !in todo && Live(known, p)
        decreases todo
      {
        var p :| p in todo;
        todo := todo - {p};
        if p !in seen && !known[p].deleted {
          entries := entries[p := Tombstone(known[p], nodeId)];
          dirty := dirty + {p};
        }
      }
    }

    method ScanOne(p: Path) returns (changed: bool)
      modifies this`entries
      ensures State() == ScannedOne(old(State()), nodeId, excluded, p)
      ensures changed <==> entries != old(entries)
    {
      if excluded(p) || p !in files {
        return false;
      }
      var mtime := files[p].mtime;
      var stable := p in entries && !entries[p].deleted;
      if stable && !Drifted(entries[p], files[p]) {
        return false;
      }
      var checksum := Sha256(files[p].content);
      if stable && checksum == entries[p].checksum {
        return false;
      }
      var clock := new VectorClock(nodeId, if p in entries then entries[p].clock else map[]);
      clock.Increment();
      entries := entries[p := Entry(checksum, mtime, clock.clock, false)];
      assert entries[p] != Entry(checksum, mtime, map[], true);
      return true;
    }

    method MarkDirDeleted(dir: Path) returns (dirty: bool)
      modifies this`entries
      ensures State() == MarkedDirDeleted(old(State()), nodeId, dir)
      ensures dirty <==> entries != old(entries)
    {
      var start := entries;
      ghost var goal := MarkedDirDeleted(State(), nodeId, dir).entries;
      var todo := start.Keys;
      dirty := false;
      while todo != {}
        invariant todo <= start.Keys && entries.Keys == start.Keys
        invariant forall p :: p in entries ==> entries[p] == if p in todo then start[p] else goal[p]
        invariant dirty <==> exists p :: p in entries && entries[p].deleted != start[p].deleted
        decreases todo
      {
        var p :| p in todo;
        todo := todo - {p};
        if Under(p, dir) && !start[p].deleted {
          assert entries[p] == start[p];
          entries := entries[p := Tombstone(start[p], nodeId)];
          assert entries[p].deleted != start[p].deleted;
          dirty := true;
        }
      }
      assert dirty ==> entries != start;
    }

    method MarkDeleted(p: Path) returns (dirty: bool)
      modifies this`entries
      ensures State() == MarkedDeleted(old(State()), nodeId, p)
      ensures dirty <==> entries != old(entries)
    {
      if Exists(files, p) {
        return false;
      }
      if p !in entries || entries[p].deleted {
        return false;
      }
      entries := entries[p := Tombstone(entries[p], nodeId)];
      assert entries[p].deleted && !old(entries)[p].deleted;
      return true;
    }

    /** Corruption: a live entry whose file no longer hashes to its checksum. */
    method VerifyOne(p: Path) returns (differs: bool)
      ensures differs <==> Live(entries, p) && p in files && Sha256(files[p].content) != entries[p].checksum
    {
      if p !in entries || entries[p].deleted {
        return false;
      }
      if p !in files {
        return false;
      }
      return Sha256(files[p].content) != entries[p].checksum;
    }

    method MarkCorrupted(p: Path)
      modifies this`corrupted
      ensures corrupted == old(corrupted) + {p}
    {
      corrupted := corrupted + {p};
    }

    method ApplyRemote(p: Path, entry: Entry, content: Option<Content>, stamp: Time)
      modifies this
      ensures State() == Applied(old(State()), p, entry, content, stamp)
    {
      corrupted := corrupted - {p};
      if entry.deleted {
        if p in files {
          files := files - {p};
        }
        entries := entries[p := entry];
      } else {
        if content.Some? {
          files := files[p := File(content.value, stamp)];
        }
        var actual := if p in files then files[p].mtime else entry.mtime;
        entries := entries[p := Entry(entry.checksum, actual, entry.clock, entry.deleted)];
      }
    }
  }

  lemma SameLookups(a: Index, b: Index)
    requires forall p :: Lookup(a, p) == Lookup(b, p)
    ensures a == b
  {
    forall p ensures p in a <==> p in b { assert Lookup(a, p) == Lookup(b, p); }
    assert a.Keys == b.Keys;
    forall p | p in a ensures a[p] == b[p] { assert Lookup(a, p) == Lookup(b, p); }
  }
}
