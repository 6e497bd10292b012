/** A session tells each index the truth about what it wrote, so a scan that
    follows sees no edit where there was none. */
module NoEcho {
  import opened FileIndexes
  import opened ScanTheorems
  import opened SyncEngines
  import opened Decisions
  import opened Sessions
  import opened StepFacts
  import opened KeepBoth

  /** The live paths are exactly the visible files, each with its checksum. */
  ghost predicate Quiet(me: Peer, excluded: Path -> bool) {
    && Backed(me.rep)
    && (forall p :: Live(me.rep.entries, p) <==> Visible(me.rep, excluded, p))
  }

  lemma QuietIsInSync(me: Peer, excluded: Path -> bool)
    ensures Quiet(me, excluded) <==> InSync(me.rep, excluded) && PlainTombstones(me.rep.entries)
  {
    InSyncPathwise(me.rep, excluded);
    if Quiet(me, excluded) {
      forall p ensures Truthful(me.rep, excluded, p) { }
    }
    if InSync(me.rep, excluded) && PlainTombstones(me.rep.entries) {
      forall p
        ensures Live(me.rep.entries, p) <==> Visible(me.rep, excluded, p)
        ensures Live(me.rep.entries, p) ==> me.rep.entries[p].checksum == Sha256(me.rep.files[p].content)
      {
        assert Truthful(me.rep, excluded, p);
      }
    }
  }

  lemma StoredKeepsQuiet(me: Peer, excluded: Path -> bool, p: Path, entry: Entry, content: Content, stamp: Time)
    requires Quiet(me, excluded) && !entry.deleted && entry.checksum == Sha256(content) && !excluded(p)
    ensures Quiet(Stored(me, p, entry, content, stamp), excluded)
  {
    var after := Stored(me, p, entry, content, stamp);
    StoredKeepsBacked(me, p, entry, content, stamp);
    forall q ensures Live(after.rep.entries, q) <==> Visible(after.rep, excluded, q) {
      assert Live(me.rep.entries, q) <==> Visible(me.rep, excluded, q);
    }
  }

  lemma RenamedKeepsQuiet(me: Peer, excluded: Path -> bool, source: Path, target: Path, entry: Entry)
    requires Quiet(me, excluded) && source != target && !entry.deleted && entry.checksum != Blank && !excluded(target)
    ensures Quiet(Renamed(me, source, target, entry), excluded)
  {
    var after := Renamed(me, source, target, entry);
    RenamedKeepsBacked(me, source, target, entry);
    forall q ensures Live(after.rep.entries, q) <==> Visible(after.rep, excluded, q) {
      assert Live(me.rep.entries, q) <==> Visible(me.rep, excluded, q);
    }
  }

  lemma DeletionsKeepQuiet(me: Peer, excluded: Path -> bool, remote: Index, names: Names)
    requires Quiet(me, excluded) && PlainTombstones(remote)
    ensures Quiet(AfterDeletions(me, remote, names), excluded)
  {
    var after := AfterDeletions(me, remote, names);
    DeletionsKeepBacked(me, remote, names);
    forall p ensures Live(after.rep.entries, p) <==> Visible(after.rep, excluded, p) {
      assert Live(me.rep.entries, p) <==> Visible(me.rep, excluded, p);
      DeletionsAt(me, remote, names, p);
    }
  }

  lemma LocalRenamesKeepQuiet(me: Peer, excluded: Path -> bool, mine: Index, remote: Index, names: Names,
      order: seq<Path>)
    requires Quiet(me, excluded) && SoundNames(names, remote)
    requires forall p :: Live(remote, p) ==> !excluded(p)
    ensures Quiet(AfterLocalRenames(me, mine, remote, names, order), excluded)
  {
    if order != [] {
      var last := |order| - 1;
      LocalRenamesKeepQuiet(me, excluded, mine, remote, names, order[..last]);
      var p := order[last];
      if RenameDue(mine, remote, names, p) {
        var target := names[mine[p].checksum];
        RenamedKeepsQuiet(AfterLocalRenames(me, mine, remote, names, order[..last]), excluded, p, target,
            remote[target]);
      }
    }
  }

  lemma InformedIsQuiet(a: Peer, remote: Index, env: Env, excluded: Path -> bool)
    requires Quiet(a, excluded) && PlainTombstones(remote)
    requires forall p :: Live(remote, p) ==> !excluded(p)
    ensures Quiet(Informed(a, remote, env), excluded)
  {
    var names := ListenerNames(remote, env);
    var a1 := AfterDeletions(a, remote, names);
    DeletionsKeepQuiet(a, excluded, remote, names);
    LocalRenamesKeepQuiet(a1, excluded, a1.rep.entries, remote, names, env.initiatorOrder(a1.rep.entries.Keys));
  }

  /* ---- The initiator ---- */

  /** The initiator saves a copy of `r` before it asks for it: the path clashes,
      and no replayed rename has settled the clash. */
  ghost predicate CopyMade(a: Peer, remote: Index, env: Env, r: Path) {
    && a.cfg.keepBoth && Clash(a.rep.entries, remote, r)
    && Lookup(Informed(a, remote, env).rep.entries, r) == Lookup(a.rep.entries, r)
  }

  lemma CopyMadeIff(a: Peer, remote: Index, env: Env, r: Path)
    ensures r in remote && CopiesFirst(Informed(a, remote, env), remote, r) <==> CopyMade(a, remote, env, r)
  {
    var names := ListenerNames(remote, env);
    var a1 := AfterDeletions(a, remote, names);
    DeletionsAt(a, remote, names, r);
    LocalRenamesAt(a1, a1.rep.entries, remote, names, env.initiatorOrder(a1.rep.entries.Keys), r);
  }

  /** A conflict copy that the session leaves on disk without an entry: its name
      was free and the listener has no version of it to offer. */
  ghost predicate NewCopy(a: Peer, remote: Index, env: Env, n: Path) {
    && n !in Informed(a, remote, env).rep.files
    && n !in Wants(a, remote, env)
    && exists r :: CopyMade(a, remote, env, r) && n == ConflictName(r, a.cfg.id)
  }

  lemma ReadyFiles(a: Peer, remote: Index, env: Env, n: Path)
    requires ValidEnv(env) && Backed(Informed(a, remote, env).rep)
    ensures n in Ready(a, remote, env).rep.files
            <==> n in Informed(a, remote, env).rep.files
                 || exists r :: CopyMade(a, remote, env, r) && n == ConflictName(r, a.cfg.id)
    ensures Ready(a, remote, env).rep.entries == Informed(a, remote, env).rep.entries
  {
    var a2, order := Informed(a, remote, env), env.listenerOrder(remote.Keys);
    assert Enumerates(order, remote.Keys);
    InformedKeepsConfig(a, remote, env);
    NeededKeeps(a2, remote, order);
    CopiedFiles(a2, remote, order, n);
    forall r
      ensures CopiedTo(a2, remote, r, n) <==> CopyMade(a, remote, env, r) && n == ConflictName(r, a.cfg.id)
    {
      CopyMadeIff(a, remote, env, r);
    }
  }

  /** The pull at one path: `got` when it was asked for, `copied` when it is the
      conflict name of a copy. */
  lemma PulledTruthfulIff(a2: Peer, ready: Peer, a4: Peer, got: bool, copied: bool, excluded: Path -> bool, n: Path)
    requires Quiet(a2, excluded) && Backed(a4.rep)
    requires n in ready.rep.files <==> n in a2.rep.files || copied
    requires n in a4.rep.files <==> n in ready.rep.files || got
    requires if got then Live(a4.rep.entries, n) && !excluded(n)
             else Lookup(a4.rep.entries, n) == Lookup(a2.rep.entries, n)
    ensures Truthful(a4.rep, excluded, n) <==> !(n !in a2.rep.files && !got && copied && !excluded(n))
    ensures !Truthful(a4.rep, excluded, n) ==> Visible(a4.rep, excluded, n) && !Live(a4.rep.entries, n)
  {
    assert Live(a2.rep.entries, n) <==> Visible(a2.rep, excluded, n);
  }

  /** After the session the initiator's index tells the truth about every path
      but the new conflict copies. */
  lemma InitiatorTruthfulIff(a: Peer, b: Peer, env: Env, excluded: Path -> bool, n: Path)
    requires ValidEnv(env) && Quiet(a, excluded) && Backed(b.rep)
    requires forall p :: Live(b.rep.entries, p) ==> !excluded(p)
    ensures Truthful(Refreshed(a, b, env).rep, excluded, n)
            <==> !(NewCopy(a, b.rep.entries, env, n) && !excluded(n))
    ensures var after := Refreshed(a, b, env).rep;
            !Truthful(after, excluded, n) ==> Visible(after, excluded, n) && !Live(after.entries, n)
  {
    var remote := b.rep.entries;
    InformedIsQuiet(a, remote, env, excluded);
    ReadyFiles(a, remote, env, n);
    PulledAt(Ready(a, remote, env), Greeted(b, a.rep.entries, env), Wants(a, remote, env), env.initiatorStamp, n);
    RefreshedAt(a, b, env, n);
    SessionKeepsBacked(a, b, env);
    PulledTruthfulIff(Informed(a, remote, env), Ready(a, remote, env), Refreshed(a, b, env),
                      n in Wants(a, remote, env),
                      exists r :: CopyMade(a, remote, env, r) && n == ConflictName(r, a.cfg.id), excluded, n);
  }

  /** The echo of a session at the initiator: a scan that follows changes the
      entry of a path exactly when that path is a new conflict copy which is not
      excluded. */
  lemma InitiatorEchoIff(a: Peer, b: Peer, env: Env, excluded: Path -> bool, hashAll: bool, n: Path)
    requires ValidEnv(env) && Backed(b.rep)
    requires InSync(a.rep, excluded) && PlainTombstones(a.rep.entries)
    requires forall p :: Live(b.rep.entries, p) ==> !excluded(p)
    ensures var after := Refreshed(a, b, env).rep;
            Lookup(Scanned(after, a.cfg.id, excluded, hashAll).entries, n) != Lookup(after.entries, n)
            <==> NewCopy(a, b.rep.entries, env, n) && !excluded(n)
  {
    QuietIsInSync(a, excluded);
    InitiatorTruthfulIff(a, b, env, excluded, n);
    ScannedLookup(Refreshed(a, b, env).rep, a.cfg.id, excluded, hashAll, n);
  }

  /** So without a new conflict copy there is no echo, whatever the strategy. */
  lemma InitiatorHasNoEchoIff(a: Peer, b: Peer, env: Env, excluded: Path -> bool, hashAll: bool)
    requires ValidEnv(env) && Backed(b.rep)
    requires InSync(a.rep, excluded) && PlainTombstones(a.rep.entries)
    requires forall p :: Live(b.rep.entries, p) ==> !excluded(p)
    ensures var after := Refreshed(a, b, env).rep;
            && (InSync(after, excluded) <==> forall n :: NewCopy(a, b.rep.entries, env, n) ==> excluded(n))
            && (Scanned(after, a.cfg.id, excluded, hashAll) == after
                <==> forall n :: NewCopy(a, b.rep.entries, env, n) ==> excluded(n))
  {
    var after := Refreshed(a, b, env).rep;
    var scanned := Scanned(after, a.cfg.id, excluded, hashAll);
    QuietIsInSync(a, excluded);
    forall n
      ensures Truthful(after, excluded, n) <==> !(NewCopy(a, b.rep.entries, env, n) && !excluded(n))
      ensures Lookup(scanned.entries, n) != Lookup(after.entries, n)
              <==> NewCopy(a, b.rep.entries, env, n) && !excluded(n)
    {
      InitiatorTruthfulIff(a, b, env, excluded, n);
      InitiatorEchoIff(a, b, env, excluded, hashAll, n);
    }
    InSyncPathwise(after, excluded);
    if forall n :: NewCopy(a, b.rep.entries, env, n) ==> excluded(n) {
      SameLookups(scanned.entries, after.entries);
    }
  }

  /* ---- The listener ---- */

  /** Nothing pushed earlier has touched a path when its own turn comes. */
  lemma OwnTurnUntouched(b1: Peer, a4: Peer, remote: Index, names: Names, earlier: seq<Path>, stamp: Path -> Time,
      p: Path)
    requires p !in earlier && Live(a4.rep.entries, p)
    ensures Lookup(ReceivedAll(b1, PushList(a4, remote, names, earlier), stamp).rep.entries, p)
            == Lookup(b1.rep.entries, p)
  {
    var msgs := PushList(a4, remote, names, earlier);
    forall msg | msg in msgs ensures !Touches(msg, p) {
      PushedFrom(a4, remote, names, earlier, msg);
      var q :| q in earlier && msg in PushOf(a4, remote, names, q);
    }
    UntouchedStays(b1, msgs, stamp, p);
  }

  /** A pushed file makes no conflict copy at a quiet listener: a live version
      in conflict is never pushed, and under a tombstone there is no file. */
  lemma IncomingKeepsQuiet(me: Peer, excluded: Path -> bool, p: Path, entry: Entry, content: Content, stamp: Time)
    requires Quiet(me, excluded) && !entry.deleted && entry.checksum == Sha256(content) && !excluded(p)
    requires Live(me.rep.entries, p) ==> Verdict(me.rep.entries[p], entry) != Conflict
    ensures Quiet(AfterIncoming(me, p, entry, content, stamp), excluded)
  {
    assert !Live(me.rep.entries, p) ==> WithCopy(me, p) == me;
    StoredKeepsQuiet(me, excluded, p, entry, content, stamp);
  }

  lemma {:induction false} PushesKeepQuiet(b1: Peer, a4: Peer, remote: Index, names: Names, order: seq<Path>,
      stamp: Path -> Time, excluded: Path -> bool)
    requires Quiet(b1, excluded) && Backed(a4.rep)
    requires forall p :: Live(b1.rep.entries, p) ==> Lookup(remote, p) == Lookup(b1.rep.entries, p)
    requires forall p :: Live(a4.rep.entries, p) ==> !excluded(p)
    requires forall i, j :: 0 <= i < j < |order| ==> order[i] != order[j]
    ensures Quiet(ReceivedAll(b1, PushList(a4, remote, names, order), stamp), excluded)
  {
    if order != [] {
      var last := |order| - 1;
      var p, earlier := order[last], PushList(a4, remote, names, order[..last]);
      PushesKeepQuiet(b1, a4, remote, names, order[..last], stamp, excluded);
      if PushOf(a4, remote, names, p) == [] {
        assert earlier + [] == earlier;
      } else {
        OwnTurnUntouched(b1, a4, remote, names, order[..last], stamp, p);
        PushKeepsQuiet(ReceivedAll(b1, earlier, stamp), a4, remote, names, p, stamp, excluded);
        ReceivedAppend(b1, earlier, PushOf(a4, remote, names, p), stamp);
      }
    }
  }

  lemma PushKeepsQuiet(me: Peer, a4: Peer, remote: Index, names: Names, p: Path, stamp: Path -> Time,
      excluded: Path -> bool)
    requires Quiet(me, excluded) && Backed(a4.rep) && Pushed(a4, remote, p) && !excluded(p)
    requires Live(me.rep.entries, p) ==> Lookup(remote, p) == Lookup(me.rep.entries, p)
    ensures Quiet(ReceivedAll(me, PushOf(a4, remote, names, p), stamp), excluded)
  {
    var entry := a4.rep.entries[p];
    if PushedAsRename(a4, names, p) {
      var source := names[entry.checksum];
      var msg := RenameFile(source, p, entry);
      assert ReceivedAll(me, [msg], stamp) == Received(ReceivedAll(me, [], stamp), msg, stamp);
      RenamedKeepsQuiet(me, excluded, source, p, entry);
    } else {
      var msg := FileData(p, a4.rep.files[p].content, entry);
      assert ReceivedAll(me, [msg], stamp) == Received(ReceivedAll(me, [], stamp), msg, stamp);
      IncomingKeepsQuiet(me, excluded, p, entry, a4.rep.files[p].content, stamp(p));
    }
  }

  lemma ListenerStaysQuiet(a: Peer, b: Peer, env: Env, excluded: Path -> bool)
    requires ValidEnv(env) && Backed(a.rep) && Quiet(b, excluded)
    requires forall p :: Live(a.rep.entries, p) ==> !excluded(p)
    ensures Quiet(Supplied(a, b, env), excluded)
  {
    var remote, a4, b1 := b.rep.entries, Refreshed(a, b, env), Greeted(b, a.rep.entries, env);
    var order := env.initiatorOrder(a4.rep.entries.Keys);
    assert Enumerates(order, a4.rep.entries.Keys);
    SessionKeepsBacked(a, b, env);
    DeletionsKeepQuiet(b, excluded, a.rep.entries, InitiatorNames(a.rep.entries, env));
    forall p | Live(b1.rep.entries, p) ensures Lookup(remote, p) == Lookup(b1.rep.entries, p) {
      DeletionsAt(b, a.rep.entries, InitiatorNames(a.rep.entries, env), p);
    }
    forall p | Live(a4.rep.entries, p) ensures !excluded(p) {
      RefreshedLiveOrigin(a, b, env, p);
    }
    PushesKeepQuiet(b1, a4, remote, ListenerNames(remote, env), order, env.listenerStamp, excluded);
  }

  /** The listener never echoes: under either strategy, renames or not, a scan
      that follows the session changes no entry and increments no clock. */
  lemma ListenerHasNoEcho(a: Peer, b: Peer, env: Env, excluded: Path -> bool, hashAll: bool)
    requires ValidEnv(env) && Backed(a.rep)
    requires InSync(b.rep, excluded) && PlainTombstones(b.rep.entries)
    requires forall p :: Live(a.rep.entries, p) ==> !excluded(p)
    ensures var after := Supplied(a, b, env).rep;
            InSync(after, excluded) && Scanned(after, b.cfg.id, excluded, hashAll) == after
  {
    QuietIsInSync(b, excluded);
    ListenerStaysQuiet(a, b, env, excluded);
    QuietIsInSync(Supplied(a, b, env), excluded);
    ScanOfInSyncIsIdentity(Supplied(a, b, env).rep, b.cfg.id, excluded, hashAll);
  }

  /** A pulled file is recorded with the time it has on disk, so a scan that
      follows does not hash it again. */
  lemma PulledIsNotRehashed(a: Peer, b: Peer, env: Env, p: Path)
    requires Backed(b.rep) && p in Wants(a, b.rep.entries, env)
    ensures var a' := Refreshed(a, b, env).rep;
            && Live(a'.entries, p) && p in a'.files
            && a'.entries[p].mtime == a'.files[p].mtime && !Drifted(a'.entries[p], a'.files[p])
  {
    WantedIsServed(a, b, env, p);
    PulledAt(Ready(a, b.rep.entries, env), Greeted(b, a.rep.entries, env), Wants(a, b.rep.entries, env),
        env.initiatorStamp, p);
  }

  /* ---- Times ---- */

  /** Every live entry records the very time its file has on disk. */
  ghost predicate Timed(rep: Replica) {
    && Backed(rep)
    && (forall p :: Live(rep.entries, p) ==> rep.entries[p].mtime == rep.files[p].mtime)
  }

  lemma StoredKeepsTimed(me: Peer, p: Path, entry: Entry, content: Content, stamp: Time)
    requires Timed(me.rep) && !entry.deleted && entry.checksum == Sha256(content)
    ensures Timed(Stored(me, p, entry, content, stamp).rep)
  {
    StoredKeepsBacked(me, p, entry, content, stamp);
  }

  lemma RenamedKeepsTimed(me: Peer, source: Path, target: Path, entry: Entry)
    requires Timed(me.rep) && source != target && !entry.deleted && entry.checksum != Blank
    ensures Timed(Renamed(me, source, target, entry).rep)
  {
    RenamedKeepsBacked(me, source, target, entry);
  }

  lemma CopyKeepsTimed(me: Peer, p: Path)
    requires Timed(me.rep)
    ensures Timed(WithCopy(me, p).rep)
  {
    CopyKeepsBacked(me, p);
  }

  lemma DeletionsKeepTimed(me: Peer, remote: Index, names: Names)
    requires Timed(me.rep) && PlainTombstones(remote)
    ensures Timed(AfterDeletions(me, remote, names).rep)
  {
    var after := AfterDeletions(me, remote, names);
    DeletionsKeepBacked(me, remote, names);
    forall p | Live(after.rep.entries, p) ensures after.rep.entries[p].mtime == after.rep.files[p].mtime {
      DeletionsAt(me, remote, names, p);
      assert Live(me.rep.entries, p);
    }
  }

  lemma LocalRenamesKeepTimed(me: Peer, mine: Index, remote: Index, names: Names, order: seq<Path>)
    requires Timed(me.rep) && SoundNames(names, remote)
    ensures Timed(AfterLocalRenames(me, mine, remote, names, order).rep)
  {
    if order != [] {
      var last := |order| - 1;
      LocalRenamesKeepTimed(me, mine, remote, names, order[..last]);
      var p := order[last];
      if RenameDue(mine, remote, names, p) {
        var target := names[mine[p].checksum];
        RenamedKeepsTimed(AfterLocalRenames(me, mine, remote, names, order[..last]), p, target, remote[target]);
      }
    }
  }

  lemma NeededKeepsTimed(me: Peer, remote: Index, order: seq<Path>)
    requires Timed(me.rep)
    ensures Timed(AfterNeeded(me, remote, order).rep)
  {
    if order != [] {
      var before := AfterNeeded(me, remote, order[..|order| - 1]);
      NeededKeepsTimed(me, remote, order[..|order| - 1]);
      CopyKeepsTimed(before, order[|order| - 1]);
    }
  }

  lemma PulledKeepsTimed(me: Peer, server: Peer, needed: seq<Path>, stamp: Path -> Time)
    requires Timed(me.rep) && Backed(server.rep)
    ensures Timed(Pulled(me, server, needed, stamp).rep)
  {
    if needed != [] {
      var last := |needed| - 1;
      var p := needed[last];
      PulledKeepsTimed(me, server, needed[..last], stamp);
      if Served(server, p).Some? {
        StoredKeepsTimed(Pulled(me, server, needed[..last], stamp), p, server.rep.entries[p],
                         server.rep.files[p].content, stamp(p));
      }
    }
  }

  lemma ReceivedKeepsTimed(me: Peer, msg: Message, stamp: Path -> Time)
    requires Timed(me.rep) && HonestPush(msg)
    ensures Timed(Received(me, msg, stamp).rep)
  {
    match msg {
      case FileData(p, content, entry) =>
        CopyKeepsTimed(me, p);
        StoredKeepsTimed(me, p, entry, content, stamp(p));
        StoredKeepsTimed(WithCopy(me, p), p, entry, content, stamp(p));
      case RenameFile(source, target, entry) => RenamedKeepsTimed(me, source, target, entry);
      case _ =>
    }
  }

  lemma {:induction false} AllReceivedKeepsTimed(me: Peer, msgs: seq<Message>, stamp: Path -> Time)
    requires Timed(me.rep) && forall msg :: msg in msgs ==> HonestPush(msg)
    ensures Timed(ReceivedAll(me, msgs, stamp).rep)
  {
    if msgs != [] {
      var last := |msgs| - 1;
      AllReceivedKeepsTimed(me, msgs[..last], stamp);
      assert HonestPush(msgs[last]);
      ReceivedKeepsTimed(ReceivedAll(me, msgs[..last], stamp), msgs[last], stamp);
    }
  }

  /** A whole session, pushes and renames included, records on both sides the
      times the files have on disk, so no later scan has to hash one of them. */
  lemma SessionKeepsTimed(a: Peer, b: Peer, env: Env)
    requires Timed(a.rep) && Timed(b.rep)
    ensures Timed(Session(a, b, env).0.rep) && Timed(Session(a, b, env).1.rep)
  {
    var remote := b.rep.entries;
    var names := ListenerNames(remote, env);
    var a1 := AfterDeletions(a, remote, names);
    SessionKeepsBacked(a, b, env);
    DeletionsKeepTimed(a, remote, names);
    DeletionsKeepTimed(b, a.rep.entries, InitiatorNames(a.rep.entries, env));
    LocalRenamesKeepTimed(a1, a1.rep.entries, remote, names, env.initiatorOrder(a1.rep.entries.Keys));
    NeededKeepsTimed(Informed(a, remote, env), remote, env.listenerOrder(remote.Keys));
    PulledKeepsTimed(Ready(a, remote, env), Greeted(b, a.rep.entries, env), Wants(a, remote, env), env.initiatorStamp);
    var a4 := Refreshed(a, b, env);
    PushesAreHonest(a4, remote, names, env.initiatorOrder(a4.rep.entries.Keys));
    AllReceivedKeepsTimed(Greeted(b, a.rep.entries, env), Pushes(a, b, env), env.listenerStamp);
  }
}
