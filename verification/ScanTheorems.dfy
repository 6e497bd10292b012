/** What a scan and a batch of watch events make of the index. */
module ScanTheorems {
  import opened Options
  import opened VectorClocks
  import opened FileIndexes

  ghost predicate Visible(rep: Replica, excluded: Path -> bool, p: Path) {
    p in rep.files && !excluded(p)
  }

  /** The index tells the truth about one path. */
  ghost predicate Truthful(rep: Replica, excluded: Path -> bool, p: Path) {
    && (Visible(rep, excluded, p) <==> Live(rep.entries, p))
    && (Live(rep.entries, p) && p in rep.files ==> rep.entries[p].checksum == Sha256(rep.files[p].content))
  }

  lemma InSyncPathwise(rep: Replica, excluded: Path -> bool)
    ensures InSync(rep, excluded) <==> forall p :: Truthful(rep, excluded, p)
  {
    var live, disk := LiveView(rep.entries), DiskView(rep.files, excluded);
    if InSync(rep, excluded) {
      forall p ensures Truthful(rep, excluded, p) {
        assert p in live <==> p in disk;
        if p in live { assert live[p] == disk[p]; }
      }
    }
    if forall p :: Truthful(rep, excluded, p) {
      forall p ensures (p in live <==> p in disk) && (p in live ==> live[p] == disk[p]) {
        assert Truthful(rep, excluded, p);
      }
      assert live == disk;
    }
  }

  /** The modification-time shortcut hides no change of content. */
  ghost predicate FastPathHonest(rep: Replica, excluded: Path -> bool) {
    forall p :: Visible(rep, excluded, p) && Live(rep.entries, p) && !Drifted(rep.entries[p], rep.files[p])
                ==> rep.entries[p].checksum == Sha256(rep.files[p].content)
  }

  lemma ScannedLookup(rep: Replica, id: Node, excluded: Path -> bool, hashAll: bool, p: Path)
    ensures Lookup(Scanned(rep, id, excluded, hashAll).entries, p) == ScannedEntry(rep, id, excluded, hashAll, p)
  {
  }

  /** Hashing every file always leaves a truthful index. */
  lemma FullRehashInSync(rep: Replica, id: Node, excluded: Path -> bool)
    ensures InSync(Scanned(rep, id, excluded, true), excluded)
  {
    var after := Scanned(rep, id, excluded, true);
    forall p ensures Truthful(after, excluded, p) { ScannedLookup(rep, id, excluded, true, p); }
    InSyncPathwise(after, excluded);
  }

  /** The incremental scan gives the index of a full rehash exactly when the
      modification-time shortcut hides nothing. */
  lemma IncrementalScanIsFullRehashIff(rep: Replica, id: Node, excluded: Path -> bool)
    ensures Scanned(rep, id, excluded, false) == Scanned(rep, id, excluded, true) <==> FastPathHonest(rep, excluded)
  {
    var fast, full := Scanned(rep, id, excluded, false), Scanned(rep, id, excluded, true);
    if FastPathHonest(rep, excluded) {
      forall p ensures Lookup(fast.entries, p) == Lookup(full.entries, p) {
        ScannedLookup(rep, id, excluded, false, p);
        ScannedLookup(rep, id, excluded, true, p);
      }
      SameLookups(fast.entries, full.entries);
    } else {
      var p :| Visible(rep, excluded, p) && Live(rep.entries, p) && !Drifted(rep.entries[p], rep.files[p])
               && rep.entries[p].checksum != Sha256(rep.files[p].content);
      ScannedLookup(rep, id, excluded, false, p);
      ScannedLookup(rep, id, excluded, true, p);
    }
  }

  /** ... and that is also exactly when it leaves a truthful index. */
  lemma IncrementalScanInSyncIff(rep: Replica, id: Node, excluded: Path -> bool)
    ensures InSync(Scanned(rep, id, excluded, false), excluded) <==> FastPathHonest(rep, excluded)
  {
    var fast := Scanned(rep, id, excluded, false);
    IncrementalScanIsFullRehashIff(rep, id, excluded);
    FullRehashInSync(rep, id, excluded);
    if !FastPathHonest(rep, excluded) {
      var p :| Visible(rep, excluded, p) && Live(rep.entries, p) && !Drifted(rep.entries[p], rep.files[p])
               && rep.entries[p].checksum != Sha256(rep.files[p].content);
      ScannedLookup(rep, id, excluded, false, p);
      InSyncPathwise(fast, excluded);
      assert !Truthful(fast, excluded, p);
    }
  }

  /** A second scan of the same disk changes nothing, however dishonest the
      modification times are. */
  lemma ScanIdempotent(rep: Replica, id: Node, excluded: Path -> bool, hashAll: bool)
    ensures var once := Scanned(rep, id, excluded, hashAll);
            Scanned(once, id, excluded, hashAll) == once
  {
    var once := Scanned(rep, id, excluded, hashAll);
    var twice := Scanned(once, id, excluded, hashAll);
    forall p ensures Lookup(twice.entries, p) == Lookup(once.entries, p) {
      ScannedLookup(rep, id, excluded, hashAll, p);
      ScannedLookup(once, id, excluded, hashAll, p);
    }
    SameLookups(twice.entries, once.entries);
  }

  /** No echo: scanning a truthful index changes no entry and no clock. */
  lemma ScanOfInSyncIsIdentity(rep: Replica, id: Node, excluded: Path -> bool, hashAll: bool)
    requires InSync(rep, excluded)
    ensures Scanned(rep, id, excluded, hashAll) == rep
  {
    InSyncPathwise(rep, excluded);
    forall p ensures Lookup(Scanned(rep, id, excluded, hashAll).entries, p) == Lookup(rep.entries, p) {
      ScannedLookup(rep, id, excluded, hashAll, p);
      assert Truthful(rep, excluded, p);
    }
    SameLookups(Scanned(rep, id, excluded, hashAll).entries, rep.entries);
  }

  /* ---- Watch events ---- */

  /** A file-system event: a name disappeared, or appeared or was modified. */
  datatype Event = Deleted(path: Path) | Touched(path: Path)

  /** Every file below a directory reindexed, each on its own path. */
  function ScannedUnder(rep: Replica, id: Node, excluded: Path -> bool, dir: Path): Replica {
    rep.(entries := map q | q in rep.entries.Keys + rep.files.Keys && ScannedUnderEntry(rep, id, excluded, dir, q).Some?
                          :: ScannedUnderEntry(rep, id, excluded, dir, q).value)
  }

  function ScannedUnderEntry(rep: Replica, id: Node, excluded: Path -> bool, dir: Path, q: Path): Option<Entry> {
    if Under(q, dir) then Lookup(ScannedOne(rep, id, excluded, q).entries, q) else Lookup(rep.entries, q)
  }

  function AfterEvent(rep: Replica, id: Node, excluded: Path -> bool, event: Event): Replica {
    match event
    case Deleted(p) =>
      if !Exists(rep.files, p) && Live(rep.entries, p) then MarkedDeleted(rep, id, p)
      else MarkedDirDeleted(rep, id, p)
    case Touched(p) =>
      if IsDir(rep.files, p) then ScannedUnder(rep, id, excluded, p)
      else ScannedOne(rep, id, excluded, p)
  }

  function AfterBatch(rep: Replica, id: Node, excluded: Path -> bool, batch: seq<Event>): Replica {
    if batch == [] then rep
    else AfterEvent(AfterBatch(rep, id, excluded, batch[..|batch| - 1]), id, excluded, batch[|batch| - 1])
  }

  /** No name is both a file and a directory, counting indexed and present files. */
  ghost predicate NoCollision(rep: Replica) {
    forall p, q | (Live(rep.entries, p) || p in rep.files) && (Live(rep.entries, q) || q in rep.files) :: !Under(q, p)
  }

  /** The event reports what happened to `p`: it is there, or it is gone. */
  ghost predicate Reports(files: Disk, event: Event, p: Path) {
    (p == event.path || Under(p, event.path)) && (event.Touched? <==> p in files)
  }

  ghost predicate Covers(rep: Replica, excluded: Path -> bool, batch: seq<Event>) {
    forall p :: !Truthful(rep, excluded, p) ==> exists e :: e in batch && Reports(rep.files, e, p)
  }

  /** A delete event names a directory that exists again. */
  ghost predicate Revived(files: Disk, excluded: Path -> bool, event: Event) {
    event.Deleted? && exists q :: q in files && !excluded(q) && Under(q, event.path)
  }

  /** What holds between any two events of a batch. */
  ghost predicate Watched(rep: Replica, excluded: Path -> bool) {
    && NoCollision(rep)
    && FastPathHonest(rep, excluded)
    && (forall p :: Live(rep.entries, p) ==> !excluded(p))
  }

  lemma EventLookup(rep: Replica, id: Node, excluded: Path -> bool, e: Event, p: Path)
    ensures var after := AfterEvent(rep, id, excluded, e);
            after.files == rep.files &&
            (Lookup(after.entries, p) == Lookup(rep.entries, p)
             || (Live(rep.entries, p) && Lookup(after.entries, p) == Some(Tombstone(rep.entries[p], id)) && e.Deleted?)
             || (Lookup(after.entries, p) == Lookup(ScannedOne(rep, id, excluded, p).entries, p) && e.Touched?))
  {
  }

  /** `y` is what reindexing makes of `x`: a changed entry counts more own steps. */
  ghost predicate Grown(x: Index, y: Index, id: Node) {
    forall p :: OwnPart(y, id, p) >= OwnPart(x, id, p) + if Lookup(x, p) == Lookup(y, p) then 0 else 1
  }

  lemma EventGrows(rep: Replica, id: Node, excluded: Path -> bool, e: Event)
    ensures Grown(rep.entries, AfterEvent(rep, id, excluded, e).entries, id)
  {
    var after := AfterEvent(rep, id, excluded, e).entries;
    forall p
      ensures OwnPart(after, id, p) >= OwnPart(rep.entries, id, p) + if Lookup(rep.entries, p) == Lookup(after,
          p) then 0 else 1
    {
      EventLookup(rep, id, excluded, e, p);
    }
  }

  /** Later reindexing never undoes a change. */
  lemma GrowthAddsUp(x: Index, y: Index, z: Index, id: Node)
    requires Grown(x, y, id) && Grown(y, z, id)
    ensures Grown(x, z, id) && (x == z <==> x == y && y == z)
  {
    if x == z {
      forall p ensures Lookup(x, p) == Lookup(y, p) {
        assert OwnPart(y, id, p) >= OwnPart(x, id, p) && OwnPart(z, id, p) >= OwnPart(y, id, p);
      }
      SameLookups(x, y);
    }
  }

  lemma EventKeepsWatched(rep: Replica, id: Node, excluded: Path -> bool, e: Event)
    requires Watched(rep, excluded)
    ensures Watched(AfterEvent(rep, id, excluded, e), excluded)
  {
    var after := AfterEvent(rep, id, excluded, e);
    forall p
      ensures Live(after.entries, p) ==> Live(rep.entries, p) || (p in rep.files && !excluded(p))
      ensures Live(after.entries, p) && after.entries[p] != (if p in rep.entries then rep.entries[p]
          else Entry(Blank, 0, map[], true))
              ==> p in rep.files && after.entries[p].checksum == Sha256(rep.files[p].content)
    {
      EventLookup(rep, id, excluded, e, p);
    }
    assert after.files == rep.files by { EventLookup(rep, id, excluded, e, e.path); }
    assert FastPathHonest(after, excluded) by {
      forall p | Visible(after, excluded, p) && Live(after.entries, p) && !Drifted(after.entries[p], after.files[p])
        ensures after.entries[p].checksum == Sha256(after.files[p].content)
      {
        if p in rep.entries && after.entries[p] == rep.entries[p] {
          assert Visible(rep, excluded, p);
        }
      }
    }
  }

  /** Events keep what is true, unless a delete event names a revived directory. */
  lemma EventKeepsTruth(rep: Replica, id: Node, excluded: Path -> bool, e: Event, p: Path)
    requires Watched(rep, excluded) && !Revived(rep.files, excluded, e)
    requires Truthful(rep, excluded, p)
    ensures Truthful(AfterEvent(rep, id, excluded, e), excluded, p)
  {
    EventLookup(rep, id, excluded, e, p);
    var after := AfterEvent(rep, id, excluded, e);
    if e.Deleted? && Live(rep.entries, p) {
      assert Visible(rep, excluded, p);
      assert Exists(rep.files, p);
    }
  }

  /** An event makes the index truthful about every path it reports. */
  lemma EventReports(rep: Replica, id: Node, excluded: Path -> bool, e: Event, p: Path)
    requires Watched(rep, excluded) && Reports(rep.files, e, p)
    ensures Truthful(AfterEvent(rep, id, excluded, e), excluded, p)
  {
    var after := AfterEvent(rep, id, excluded, e);
    EventLookup(rep, id, excluded, e, p);
    if e.Touched? {
      if p == e.path {
        assert !IsDir(rep.files, p);
      } else {
        assert IsDir(rep.files, e.path);
        assert ScannedUnderEntry(rep, id, excluded, e.path, p) == Lookup(ScannedOne(rep, id, excluded, p).entries, p);
      }
      assert Lookup(after.entries, p) == Lookup(ScannedOne(rep, id, excluded, p).entries, p);
    } else if Live(rep.entries, p) {
      assert !Exists(rep.files, p);
    }
  }

  lemma BatchKeepsFiles(rep: Replica, id: Node, excluded: Path -> bool, batch: seq<Event>)
    requires Watched(rep, excluded)
    ensures AfterBatch(rep, id, excluded, batch).files == rep.files
    ensures Watched(AfterBatch(rep, id, excluded, batch), excluded)
  {
    if batch != [] {
      var last := |batch| - 1;
      BatchKeepsFiles(rep, id, excluded, batch[..last]);
      EventKeepsWatched(AfterBatch(rep, id, excluded, batch[..last]), id, excluded, batch[last]);
      EventLookup(AfterBatch(rep, id, excluded, batch[..last]), id, excluded, batch[last], batch[last].path);
    }
  }

  lemma BatchTruth(rep: Replica, id: Node, excluded: Path -> bool, batch: seq<Event>, p: Path)
    requires Watched(rep, excluded)
    requires forall e :: e in batch ==> !Revived(rep.files, excluded, e)
    requires Truthful(rep, excluded, p) || exists e :: e in batch && Reports(rep.files, e, p)
    ensures Truthful(AfterBatch(rep, id, excluded, batch), excluded, p)
  {
    if batch != [] {
      var last := |batch| - 1;
      var before := AfterBatch(rep, id, excluded, batch[..last]);
      BatchKeepsFiles(rep, id, excluded, batch[..last]);
      assert batch == batch[..last] + [batch[last]];
      if Reports(rep.files, batch[last], p) {
        EventReports(before, id, excluded, batch[last], p);
      } else {
        BatchTruth(rep, id, excluded, batch[..last], p);
        EventKeepsTruth(before, id, excluded, batch[last], p);
      }
    }
  }

  /** A batch that names no revived directory leaves a truthful index. */
  lemma BatchInSync(rep: Replica, id: Node, excluded: Path -> bool, batch: seq<Event>)
    requires Watched(rep, excluded) && Covers(rep, excluded, batch)
    requires forall e :: e in batch ==> !Revived(rep.files, excluded, e)
    ensures InSync(AfterBatch(rep, id, excluded, batch), excluded)
  {
    forall p ensures Truthful(AfterBatch(rep, id, excluded, batch), excluded, p) {
      BatchTruth(rep, id, excluded, batch, p);
    }
    InSyncPathwise(AfterBatch(rep, id, excluded, batch), excluded);
  }

  /** Processed last, a delete event for a revived directory hides its files. */
  lemma RevivedLastLies(rep: Replica, id: Node, excluded: Path -> bool, batch: seq<Event>)
    requires Watched(rep, excluded) && batch != [] && Revived(rep.files, excluded, batch[|batch| - 1])
    ensures !InSync(AfterBatch(rep, id, excluded, batch), excluded)
  {
    var last := |batch| - 1;
    var before := AfterBatch(rep, id, excluded, batch[..last]);
    BatchKeepsFiles(rep, id, excluded, batch[..last]);
    var dir := batch[last].path;
    var q :| q in rep.files && !excluded(q) && Under(q, dir);
    assert Exists(before.files, dir);
    var after := MarkedDirDeleted(before, id, dir);
    assert AfterBatch(rep, id, excluded, batch) == after;
    assert !Live(after.entries, q) && Visible(after, excluded, q);
    InSyncPathwise(after, excluded);
    assert !Truthful(after, excluded, q);
  }

  lemma OrderIsScan(rep: Replica, id: Node, excluded: Path -> bool, batch: seq<Event>, order: seq<Event>)
    requires Watched(rep, excluded) && Covers(rep, excluded, batch)
    requires forall e :: e in batch ==> !Revived(rep.files, excluded, e)
    requires multiset(order) == multiset(batch)
    ensures LiveView(AfterBatch(rep, id, excluded, order).entries)
            == LiveView(Scanned(rep, id, excluded, false).entries)
  {
    IncrementalScanInSyncIff(rep, id, excluded);
    forall e ensures e in order <==> e in batch {
      assert e in multiset(order) <==> e in multiset(batch);
    }
    BatchInSync(rep, id, excluded, order);
    BatchKeepsFiles(rep, id, excluded, order);
  }

  lemma SomeOrderIsNotScan(rep: Replica, id: Node, excluded: Path -> bool, batch: seq<Event>, k: nat)
    returns (order: seq<Event>)
    requires Watched(rep, excluded) && k < |batch| && Revived(rep.files, excluded, batch[k])
    ensures multiset(order) == multiset(batch)
    ensures LiveView(AfterBatch(rep, id, excluded, order).entries)
            != LiveView(Scanned(rep, id, excluded, false).entries)
  {
    IncrementalScanInSyncIff(rep, id, excluded);
    order := batch[..k] + batch[k + 1..] + [batch[k]];
    assert batch == batch[..k] + [batch[k]] + batch[k + 1..];
    RevivedLastLies(rep, id, excluded, order);
    BatchKeepsFiles(rep, id, excluded, order);
  }

  /** A batch that covers every change gives, in every order, the live view of a
      full scan of the same disk, exactly when none of its delete events names a
      directory that exists again. */
  lemma WatchBatchIsScanIff(rep: Replica, id: Node, excluded: Path -> bool, batch: seq<Event>)
    requires Watched(rep, excluded) && Covers(rep, excluded, batch)
    ensures (forall order: seq<Event> | multiset(order) == multiset(batch) ::
               LiveView(AfterBatch(rep, id, excluded, order).entries)
               == LiveView(Scanned(rep, id, excluded, false).entries))
            <==> (forall e :: e in batch ==> !Revived(rep.files, excluded, e))
  {
    if e :| e in batch && Revived(rep.files, excluded, e) {
      var k :| 0 <= k < |batch| && batch[k] == e;
      var order := SomeOrderIsNotScan(rep, id, excluded, batch, k);
    } else {
      forall order: seq<Event> | multiset(order) == multiset(batch)
        ensures LiveView(AfterBatch(rep, id, excluded, order).entries)
                == LiveView(Scanned(rep, id, excluded, false).entries)
      {
        OrderIsScan(rep, id, excluded, batch, order);
      }
    }
  }
}
