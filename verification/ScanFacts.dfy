/** What reindexing records of a path, told from the file and the old entry alone. */
module ScanFacts {
  import opened VectorClocks
  import opened FileIndexes
  import opened ScanTheorems

  /* ---- Times and contents ---- */

  /** The two times are more than a millisecond apart, whichever is the later. */
  predicate FarApart(x: Time, y: Time) {
    x - y > 1_000_000 || y - x > 1_000_000
  }

  /** The entry is of the file as it is: its content and its time. */
  ghost predicate Recorded(rep: Replica, entry: Entry, p: Path) {
    && p in rep.files && !entry.deleted
    && entry.checksum == Digest(rep.files[p].content)
    && entry.mtime == rep.files[p].mtime
  }

  /** A scan changes the entry of a path exactly when it is live without a visible
      file, or has a visible file but no live entry, or the two have different
      contents and times far apart, in either direction; what it then records
      is the file, or a tombstone. */
  lemma ScanChangesIff(rep: Replica, id: Node, excluded: Path -> bool, p: Path)
    ensures var before, after := rep.entries, Scanned(rep, id, excluded, false).entries;
            var visible := p in rep.files && !excluded(p);
            && (Lookup(after, p) != Lookup(before, p) <==>
                  if visible && Live(before, p) then
                    FarApart(rep.files[p].mtime, before[p].mtime)
                    && before[p].checksum != Digest(rep.files[p].content)
                  else visible || Live(before, p))
            && (Lookup(after, p) != Lookup(before, p) ==>
                  && p in after
                  && if visible then Recorded(rep, after[p], p)
                     else after[p].deleted && after[p].checksum == Blank && after[p].mtime == 0)
  {
    ScannedLookup(rep, id, excluded, false, p);
    if Live(rep.entries, p) {
      IncrementIsLater(rep.entries[p].clock, id);
    }
  }

  /** So a replaced file is found even if it is older than the one before, */
  lemma ScanSeesOtherTimes(rep: Replica, id: Node, excluded: Path -> bool, p: Path)
    requires p in rep.files && !excluded(p) && Live(rep.entries, p)
    requires FarApart(rep.files[p].mtime, rep.entries[p].mtime)
    ensures var after := Scanned(rep, id, excluded, false).entries;
            Live(after, p) && after[p].checksum == Digest(rep.files[p].content)
  {
    ScanChangesIff(rep, id, excluded, p);
  }

  /** and within the tolerance, on either side, the entry stays. */
  lemma ScanTrustsCloseTimes(rep: Replica, id: Node, excluded: Path -> bool, p: Path)
    requires p in rep.files && !excluded(p) && Live(rep.entries, p)
    requires !FarApart(rep.files[p].mtime, rep.entries[p].mtime)
    ensures Lookup(Scanned(rep, id, excluded, false).entries, p) == Lookup(rep.entries, p)
  {
    ScanChangesIff(rep, id, excluded, p);
  }

  /** The same of a single file: it never buries, and it touches no other path. */
  lemma ReindexChangesIff(rep: Replica, id: Node, excluded: Path -> bool, p: Path, q: Path)
    ensures var before, after := rep.entries, ScannedOne(rep, id, excluded, p).entries;
            && (Lookup(after, q) != Lookup(before, q) <==>
                  && q == p && p in rep.files && !excluded(p)
                  && (Live(before, p) ==> FarApart(rep.files[p].mtime, before[p].mtime)
                                          && before[p].checksum != Digest(rep.files[p].content)))
            && (Lookup(after, q) != Lookup(before, q) ==> q in after && Recorded(rep, after[q], q))
  {
    if p in rep.entries {
      IncrementIsLater(rep.entries[p].clock, id);
    }
  }

  /** Whatever events a batch holds, a live entry it changes is of the file. */
  lemma {:induction false} BatchRecords(rep: Replica, id: Node, excluded: Path -> bool, batch: seq<Event>, p: Path)
    ensures var after := AfterBatch(rep, id, excluded, batch);
            && after.files == rep.files
            && (Lookup(after.entries, p) != Lookup(rep.entries, p) ==> p in after.entries)
            && (Lookup(after.entries, p) != Lookup(rep.entries, p) && Live(after.entries, p) ==>
                  !excluded(p) && Recorded(rep, after.entries[p], p))
  {
    if batch != [] {
      var last := |batch| - 1;
      var before := AfterBatch(rep, id, excluded, batch[..last]);
      BatchRecords(rep, id, excluded, batch[..last], p);
      EventLookup(before, id, excluded, batch[last], p);
      ReindexChangesIff(before, id, excluded, p, p);
    }
  }

  /* ---- Directories ---- */

  /** The path lies in the directory: it continues its name after a slash. */
  ghost predicate InDirectory(q: Path, dir: Path) {
    exists i :: 0 < i < |q| && q[..i] == dir && q[i] == '/'
  }

  lemma UnderIsInDirectory(q: Path, dir: Path)
    ensures Under(q, dir) <==> InDirectory(q, dir)
  {
    var prefix := dir + "/";
    if Under(q, dir) {
      assert prefix == q[..|prefix|];
      assert q[..|dir|] == prefix[..|dir|] == dir && q[|dir|] == prefix[|dir|];
    }
    if i :| 0 < i < |q| && q[..i] == dir && q[i] == '/' {
      assert q[..i + 1] == q[..i] + [q[i]] == prefix;
      assert prefix <= q;
    }
  }

  lemma IsDirIff(files: Disk, p: Path)
    ensures IsDir(files, p) <==> exists q :: q in files && InDirectory(q, p)
  {
    forall q ensures Under(q, p) <==> InDirectory(q, p) {
      UnderIsInDirectory(q, p);
    }
  }

  /** A deleted directory buries exactly the live paths that lie in it. */
  lemma DirDeletedIff(rep: Replica, id: Node, dir: Path, q: Path)
    ensures var before, after := rep.entries, MarkedDirDeleted(rep, id, dir).entries;
            && (Lookup(after, q) != Lookup(before, q) <==> Live(before, q) && InDirectory(q, dir))
            && (Lookup(after, q) != Lookup(before, q) ==> Dead(after, q))
  {
    UnderIsInDirectory(q, dir);
  }

  /** A deleted name buries its own path, exactly when it is live and the name is
      neither a file nor a directory any more. */
  lemma NameDeletedIff(rep: Replica, id: Node, p: Path, q: Path)
    ensures var before, after := rep.entries, MarkedDeleted(rep, id, p).entries;
            && (Lookup(after, q) != Lookup(before, q) <==>
                  && q == p && Live(before, p) && p !in rep.files
                  && !exists r :: r in rep.files && InDirectory(r, p))
            && (Lookup(after, q) != Lookup(before, q) ==> Dead(after, q))
  {
    IsDirIff(rep.files, p);
  }

  /** A touched directory reindexes exactly the files that lie in it. */
  lemma DirTouchedAt(rep: Replica, id: Node, excluded: Path -> bool, dir: Path, q: Path)
    ensures Lookup(ScannedUnder(rep, id, excluded, dir).entries, q)
            == if InDirectory(q, dir) then Lookup(ScannedOne(rep, id, excluded, q).entries, q)
               else Lookup(rep.entries, q)
  {
    UnderIsInDirectory(q, dir);
    assert Lookup(ScannedUnder(rep, id, excluded, dir).entries, q)
           == ScannedUnderEntry(rep, id, excluded, dir, q);
  }
}
