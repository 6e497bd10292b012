/** Under keep-both, which contents a session can destroy. */
module KeepBoth {
  import opened VectorClocks
  import opened FileIndexes
  import opened ScanTheorems
  import opened SyncEngines
  import opened Decisions
  import opened Sessions
  import opened StepFacts
  import opened PlainSessions
  import opened Streams

  /** A path on which the two sides hold conflicting live contents. */
  predicate Clash(x: Index, y: Index, p: Path) {
    && Live(x, p) && Live(y, p)
    && Concurrent(x[p].clock, y[p].clock)
    && x[p].checksum != y[p].checksum
  }

  ghost predicate HasContent(files: Disk, content: Content) {
    exists p :: p in files && files[p].content == content
  }

  /** Where each file comes from once the conflict copies are made. */
  lemma NeededFiles(me: Peer, remote: Index, order: seq<Path>, q: Path)
    requires Backed(me.rep) && q in AfterNeeded(me, remote, order).rep.files && q !in me.rep.files
    ensures exists r :: r in order && r in remote && r in me.rep.files && CopiesFirst(me, remote, r)
                        && q == ConflictName(r, me.cfg.id)
                        && AfterNeeded(me, remote, order).rep.files[q] == me.rep.files[r]
  {
    var last := |order| - 1;
    var before := AfterNeeded(me, remote, order[..last]);
    NeededKeeps(me, remote, order[..last]);
    if q in before.rep.files {
      NeededFiles(me, remote, order[..last], q);
      var r :| r in order[..last] && r in remote && r in me.rep.files && CopiesFirst(me, remote, r)
               && q == ConflictName(r, me.cfg.id) && before.rep.files[q] == me.rep.files[r];
      assert r in order;
    } else {
      assert q == ConflictName(order[last], me.cfg.id);
    }
  }

  /** The local copy of a clashing path is on disk under its conflict name,
      unless that name was taken. */
  lemma {:induction false} NeededCopy(me: Peer, remote: Index, order: seq<Path>, p: Path)
    requires Backed(me.rep) && p in order && p in remote && CopiesFirst(me, remote, p)
    ensures var n, after := ConflictName(p, me.cfg.id), AfterNeeded(me, remote, order);
            n in after.rep.files && after.rep.files[n] == if n in me.rep.files then me.rep.files[n] else me.rep.files[p]
  {
    var last := |order| - 1;
    var before := AfterNeeded(me, remote, order[..last]);
    var n := ConflictName(p, me.cfg.id);
    NeededKeeps(me, remote, order[..last]);
    assert order == order[..last] + [order[last]];
    if n in before.rep.files {
      if n !in me.rep.files {
        NeededFiles(me, remote, order[..last], n);
        var r :| r in me.rep.files && n == ConflictName(r, me.cfg.id) && before.rep.files[n] == me.rep.files[r];
        ConflictNameInjective(p, r, me.cfg.id);
      }
    } else if p in order[..last] {
      NeededCopy(me, remote, order[..last], p);
    }
  }

  /** `q` is the conflict name of a path that the pass copies. */
  predicate CopiedTo(me: Peer, remote: Index, r: Path, q: Path) {
    r in remote && CopiesFirst(me, remote, r) && q == ConflictName(r, me.cfg.id)
  }

  /** A file appears in the pass exactly under the free conflict name of a path
      that is copied, and no file changes. */
  lemma CopiedFiles(me: Peer, remote: Index, order: seq<Path>, q: Path)
    requires Backed(me.rep) && Enumerates(order, remote.Keys)
    ensures var after := AfterNeeded(me, remote, order).rep.files;
            if q in me.rep.files then q in after && after[q] == me.rep.files[q]
            else
              && (q in after <==> exists r :: CopiedTo(me, remote, r, q))
              && forall r :: CopiedTo(me, remote, r, q) ==> r in me.rep.files && after[q] == me.rep.files[r]
  {
    var after := AfterNeeded(me, remote, order).rep.files;
    NeededKeeps(me, remote, order);
    if q in after && q !in me.rep.files {
      NeededFiles(me, remote, order, q);
      var r :| r in remote && CopiesFirst(me, remote, r) && q == ConflictName(r, me.cfg.id);
      assert CopiedTo(me, remote, r, q);
    }
    forall r | CopiedTo(me, remote, r, q) && q !in me.rep.files
      ensures q in after && r in me.rep.files && after[q] == me.rep.files[r]
    {
      NeededCopy(me, remote, order, r);
    }
  }

  /** Conflict copies are idempotent and independent of the visiting order: a
      second pass over the same remote index, in any order, changes no file. */
  lemma CopyPassIdempotent(me: Peer, remote: Index, order: seq<Path>, order': seq<Path>)
    requires Backed(me.rep) && Enumerates(order, remote.Keys) && Enumerates(order', remote.Keys)
    ensures var once := AfterNeeded(me, remote, order);
            AfterNeeded(once, remote, order') == once && AfterNeeded(me, remote, order') == once
  {
    var once, other := AfterNeeded(me, remote, order), AfterNeeded(me, remote, order');
    var twice := AfterNeeded(once, remote, order');
    NeededKeeps(me, remote, order);
    NeededKeeps(me, remote, order');
    NeededKeeps(once, remote, order');
    NeededKeepsBacked(me, remote, order);
    forall q
      ensures q in other.rep.files <==> q in once.rep.files
      ensures q in once.rep.files ==> other.rep.files[q] == once.rep.files[q]
      ensures q in twice.rep.files ==> q in once.rep.files
    {
      assert forall r :: CopiedTo(once, remote, r, q) <==> CopiedTo(me, remote, r, q);
      CopiedFiles(me, remote, order, q);
      CopiedFiles(me, remote, order', q);
      CopiedFiles(once, remote, order', q);
    }
    assert other.rep.files == once.rep.files && twice.rep.files == once.rep.files;
  }

  /** What the results about the initiator assume; those about the listener ask
      in addition that the initiator announces no rename. */
  ghost predicate Calm(a: Peer, b: Peer, env: Env) {
    && ValidEnv(env)
    && NoReplay(a, b.rep.entries, env)
    && Backed(a.rep) && Backed(b.rep)
  }

  /** A file the initiator neither deletes nor asks for stays as it is. */
  lemma InitiatorKeepsFile(a: Peer, b: Peer, env: Env, q: Path)
    requires Calm(a, b, env) && q in a.rep.files
    requires Live(a.rep.entries, q) && q in b.rep.entries ==> !Before(a.rep.entries[q].clock, b.rep.entries[q].clock)
    requires q !in Wants(a, b.rep.entries, env)
    ensures q in Refreshed(a, b, env).rep.files && Refreshed(a, b, env).rep.files[q] == a.rep.files[q]
  {
    DeletionsAt(a, b.rep.entries, ListenerNames(b.rep.entries, env), q);
    InformedByDeletions(a, b.rep.entries, env);
    RefreshedAt(a, b, env, q);
  }

  lemma WantedHere(a: Peer, b: Peer, env: Env, p: Path)
    requires Calm(a, b, env)
    ensures p in Wants(a, b.rep.entries, env) ==> Live(b.rep.entries, p)
    ensures p in Wants(a, b.rep.entries, env) && Live(a.rep.entries, p) && p !in a.rep.corrupted ==>
              Before(a.rep.entries[p].clock, b.rep.entries[p].clock) || Clash(a.rep.entries, b.rep.entries, p)
    ensures Clash(a.rep.entries, b.rep.entries, p) && a.cfg.keepBoth ==> p in Wants(a, b.rep.entries, env)
  {
    InformedByDeletions(a, b.rep.entries, env);
    WantsAt(a, b.rep.entries, env, p);
    DeletionsAt(a, b.rep.entries, ListenerNames(b.rep.entries, env), p);
  }

  /** What the session leaves under the conflict name of a clashing path: the
      listener's file if that name is asked for, else the copy, unless the name
      was taken. */
  lemma ConflictNameAt(a: Peer, b: Peer, env: Env, p: Path)
    requires Calm(a, b, env) && a.cfg.keepBoth && Clash(a.rep.entries, b.rep.entries, p)
    ensures var n, before, after := ConflictName(p, a.cfg.id), Informed(a, b.rep.entries, env).rep.files,
                Refreshed(a, b, env).rep.files;
            && n in after && p in a.rep.files
            && (if n in Wants(a, b.rep.entries, env) then n in b.rep.files && after[n].content == b.rep.files[n].content
                else after[n] == if n in before then before[n] else a.rep.files[p])
  {
    var n, remote := ConflictName(p, a.cfg.id), b.rep.entries;
    var a1 := Informed(a, remote, env);
    InformedByDeletions(a, remote, env);
    DeletionsAt(a, remote, ListenerNames(remote, env), p);
    SessionKeepsBacked(a, b, env);
    assert Enumerates(env.listenerOrder(remote.Keys), remote.Keys);
    NeededCopy(a1, remote, env.listenerOrder(remote.Keys), p);
    RefreshedAt(a, b, env, n);
    PulledAt(Ready(a, remote, env), Greeted(b, a.rep.entries, env), Wants(a, remote, env), env.initiatorStamp, n);
  }

  /** The conflict name of a clashing path after the session. */
  lemma ClashIsCopied(a: Peer, b: Peer, env: Env, p: Path)
    requires Calm(a, b, env) && a.cfg.keepBoth && Clash(a.rep.entries, b.rep.entries, p)
    requires ConflictName(p, a.cfg.id) !in b.rep.entries
    ensures var n, after := ConflictName(p, a.cfg.id), Refreshed(a, b, env).rep.files;
            n in after && after[n] == if n in a.rep.files then a.rep.files[n] else a.rep.files[p]
  {
    var n, remote := ConflictName(p, a.cfg.id), b.rep.entries;
    InformedByDeletions(a, remote, env);
    DeletionsAt(a, remote, ListenerNames(remote, env), n);
    WantedHere(a, b, env, n);
    ConflictNameAt(a, b, env, p);
  }

  /** Keep-both keeps the local content of a conflict under the conflict name
      exactly when the file pulled under that name holds it or, when none is
      pulled, the name is free or already holds it. */
  lemma ConflictContentKeptIff(a: Peer, b: Peer, env: Env, p: Path)
    requires Calm(a, b, env) && a.cfg.keepBoth && Clash(a.rep.entries, b.rep.entries, p)
    ensures var n, before, after := ConflictName(p, a.cfg.id), Informed(a, b.rep.entries, env).rep.files,
                Refreshed(a, b, env).rep.files;
            var content := a.rep.files[p].content;
            && p in after && after[p].content == b.rep.files[p].content
            && ((n in after && after[n].content == content)
                <==> if n in Wants(a, b.rep.entries, env) then n in b.rep.files && b.rep.files[n].content == content
                     else n !in before || before[n].content == content)
  {
    ConflictNameAt(a, b, env, p);
    WantedHere(a, b, env, p);
    RefreshedAt(a, b, env, p);
  }

  /** Conflict names are free: nobody indexes them and no file has them. */
  ghost predicate FreeNames(a: Peer, b: Peer) {
    forall p :: Clash(a.rep.entries, b.rep.entries, p) ==>
      ConflictName(p, a.cfg.id) !in a.rep.files && ConflictName(p, a.cfg.id) !in b.rep.entries
  }

  /** Nothing is lost at the initiator: every content on its disk is still there
      after the session, unless the listener's version of that path strictly
      dominated it. */
  lemma InitiatorLosesNothing(a: Peer, b: Peer, env: Env, excluded: Path -> bool, p: Path)
    requires Calm(a, b, env) && a.cfg.keepBoth && FreeNames(a, b)
    requires InSync(a.rep, excluded) && forall q :: Live(b.rep.entries, q) ==> !excluded(q)
    requires p in a.rep.files && p !in a.rep.corrupted
    ensures HasContent(Refreshed(a, b, env).rep.files, a.rep.files[p].content)
            || (Live(a.rep.entries, p) && p in b.rep.entries && Before(a.rep.entries[p].clock, b.rep.entries[p].clock))
  {
    var after := Refreshed(a, b, env).rep.files;
    InSyncPathwise(a.rep, excluded);
    assert Truthful(a.rep, excluded, p);
    WantedHere(a, b, env, p);
    if Live(a.rep.entries, p) && p in b.rep.entries && Before(a.rep.entries[p].clock, b.rep.entries[p].clock) {
    } else if Clash(a.rep.entries, b.rep.entries, p) {
      ClashIsCopied(a, b, env, p);
      assert after[ConflictName(p, a.cfg.id)].content == a.rep.files[p].content;
    } else {
      InitiatorKeepsFile(a, b, env, p);
      assert after[p].content == a.rep.files[p].content;
    }
  }

  /** No other file on either side has the initiator's content of `p`. */
  ghost predicate OnlyAt(a: Peer, b: Peer, p: Path) {
    && p in a.rep.files
    && (forall q :: q in a.rep.files && q != p ==> a.rep.files[q].content != a.rep.files[p].content)
    && (forall q :: q in b.rep.files ==> b.rep.files[q].content != a.rep.files[p].content)
  }

  /** A conflicting content that no other file holds is gone from the initiator's
      disk after the session exactly when its conflict name is taken or asked for. */
  lemma ConflictContentLostIff(a: Peer, b: Peer, env: Env, p: Path)
    requires Calm(a, b, env) && a.cfg.keepBoth && Clash(a.rep.entries, b.rep.entries, p) && OnlyAt(a, b, p)
    ensures var n := ConflictName(p, a.cfg.id);
            !HasContent(Refreshed(a, b, env).rep.files, a.rep.files[p].content)
            <==> n in Wants(a, b.rep.entries, env) || n in Informed(a, b.rep.entries, env).rep.files
  {
    var n, remote := ConflictName(p, a.cfg.id), b.rep.entries;
    var after := Refreshed(a, b, env).rep.files;
    ConflictNameAt(a, b, env, p);
    if n in Wants(a, remote, env) || n in Informed(a, remote, env).rep.files {
      forall q | q in after ensures after[q].content != a.rep.files[p].content {
        LeftHere(a, b, env, p, q);
      }
    } else {
      assert after[n].content == a.rep.files[p].content;
    }
  }

  /** Where the other files of the initiator come from. */
  lemma LeftHere(a: Peer, b: Peer, env: Env, p: Path, q: Path)
    requires Calm(a, b, env) && a.cfg.keepBoth && Clash(a.rep.entries, b.rep.entries, p) && OnlyAt(a, b, p)
    requires var n := ConflictName(p, a.cfg.id);
             n in Wants(a, b.rep.entries, env) || n in Informed(a, b.rep.entries, env).rep.files
    requires q in Refreshed(a, b, env).rep.files
    ensures Refreshed(a, b, env).rep.files[q].content != a.rep.files[p].content
  {
    var remote := b.rep.entries;
    var a1 := Informed(a, remote, env);
    InformedByDeletions(a, remote, env);
    SessionKeepsBacked(a, b, env);
    DeletionsAt(a, remote, ListenerNames(remote, env), q);
    WantedHere(a, b, env, p);
    RefreshedAt(a, b, env, q);
    PulledAt(Ready(a, remote, env), Greeted(b, a.rep.entries, env), Wants(a, remote, env), env.initiatorStamp, q);
    if q !in Wants(a, remote, env) {
      NeededKeeps(a1, remote, env.listenerOrder(remote.Keys));
      if q !in a1.rep.files {
        NeededFiles(a1, remote, env.listenerOrder(remote.Keys), q);
        var r :| r in a1.rep.files && q == ConflictName(r, a.cfg.id)
                 && Ready(a, remote, env).rep.files[q] == a1.rep.files[r];
        DeletionsAt(a, remote, ListenerNames(remote, env), r);
      }
    }
  }

  /** One way to lose it: the name is taken by another file. */
  lemma TakenNameLosesContent(a: Peer, b: Peer, env: Env, p: Path)
    requires Calm(a, b, env) && a.cfg.keepBoth && Clash(a.rep.entries, b.rep.entries, p) && OnlyAt(a, b, p)
    requires ConflictName(p, a.cfg.id) in a.rep.files && !Dead(b.rep.entries, ConflictName(p, a.cfg.id))
    ensures !HasContent(Refreshed(a, b, env).rep.files, a.rep.files[p].content)
  {
    InformedByDeletions(a, b.rep.entries, env);
    DeletionsAt(a, b.rep.entries, ListenerNames(b.rep.entries, env), ConflictName(p, a.cfg.id));
    ConflictContentLostIff(a, b, env, p);
  }

  /** The other: the name is free, so the copy is made, but the listener has a
      file of that name with a content new to the initiator, and the pull
      overwrites the copy. */
  lemma PulledNameLosesContent(a: Peer, b: Peer, env: Env, p: Path)
    requires Calm(a, b, env) && a.cfg.keepBoth && Clash(a.rep.entries, b.rep.entries, p) && OnlyAt(a, b, p)
    requires var n := ConflictName(p, a.cfg.id);
             && n !in a.rep.entries && Live(b.rep.entries, n)
             && forall r :: Live(a.rep.entries, r) ==> a.rep.entries[r].checksum != b.rep.entries[n].checksum
    ensures !HasContent(Refreshed(a, b, env).rep.files, a.rep.files[p].content)
  {
    var n, remote := ConflictName(p, a.cfg.id), b.rep.entries;
    var mine := Informed(a, remote, env).rep.entries;
    InformedByDeletions(a, remote, env);
    WantsAt(a, remote, env, n);
    DeletionsAt(a, remote, ListenerNames(remote, env), n);
    forall r | Live(mine, r) ensures mine[r].checksum != remote[n].checksum {
      DeletionsAt(a, remote, ListenerNames(remote, env), r);
    }
    ConflictContentLostIff(a, b, env, p);
  }

  /** A keep-both node that holds the given one-byte files in their first versions. */
  function HolderOf(id: Node, bytes: map<Path, Byte>): Peer {
    Peer(Config(id, true, true),
         Replica(map p | p in bytes :: Entry(Digest([bytes[p]]), 1, map[id := 1], false), {},
                 map p | p in bytes :: File([bytes[p]], 1)), {})
  }

  lemma HolderIsInSync(id: Node, bytes: map<Path, Byte>)
    ensures var rep := HolderOf(id, bytes).rep;
            Backed(rep) && (forall p :: !Dead(rep.entries, p)) && InSync(rep, _ => false)
  {
    var rep := HolderOf(id, bytes).rep;
    assert LiveView(rep.entries) == DiskView(rep.files, _ => false);
  }

  lemma TwoHolders(a: Peer, b: Peer, p: Path, n: Path)
    requires n != p && a == HolderOf("a", map[p := 1]) && b == HolderOf("b", map[p := 2, n := 3])
    ensures Clash(a.rep.entries, b.rep.entries, p) && OnlyAt(a, b, p) && a.rep.files[p].content == [1]
    ensures n !in a.rep.entries && Live(b.rep.entries, n)
    ensures forall r :: Live(a.rep.entries, r) ==> a.rep.entries[r].checksum != b.rep.entries[n].checksum
  {
    OtherBytes(1, 2);
    OtherBytes(1, 3);
    assert "a" in a.rep.entries[p].clock && "b" in b.rep.entries[p].clock;
  }

  /** A concrete pair of nodes, both truthful, to which this happens. */
  lemma ConflictCopyOverwritten(p: Path) returns (a: Peer, b: Peer)
    ensures a == HolderOf("a", map[p := 1]) && b == HolderOf("b", map[p := 2, ConflictName(p, "a") := 3])
    ensures ValidEnv(EnvAt(2)) && !HasContent(Refreshed(a, b, EnvAt(2)).rep.files, [1])
  {
    var n := ConflictName(p, "a");
    assert n != p;
    a, b := HolderOf("a", map[p := 1]), HolderOf("b", map[p := 2, n := 3]);
    EnvAtIsValid(2);
    HolderIsInSync("a", map[p := 1]);
    HolderIsInSync("b", map[p := 2, n := 3]);
    TwoHolders(a, b, p, n);
    OverwrittenHere(a, b, EnvAt(2), p);
  }

  lemma OverwrittenHere(a: Peer, b: Peer, env: Env, p: Path)
    requires ValidEnv(env) && Backed(a.rep) && Backed(b.rep) && forall q :: !Dead(b.rep.entries, q)
    requires a.cfg.keepBoth && Clash(a.rep.entries, b.rep.entries, p) && OnlyAt(a, b, p)
    requires var n := ConflictName(p, a.cfg.id);
             && n !in a.rep.entries && Live(b.rep.entries, n)
             && forall r :: Live(a.rep.entries, r) ==> a.rep.entries[r].checksum != b.rep.entries[n].checksum
    ensures !HasContent(Refreshed(a, b, env).rep.files, a.rep.files[p].content)
  {
    assert NoReplay(a, b.rep.entries, env);
    PulledNameLosesContent(a, b, env, p);
  }

  lemma OtherBytes(x: Byte, y: Byte)
    requires x != y
    ensures [x] != [y]
  {
    assert [x][0] != [y][0];
  }

  /* ---- A single pushed file ---- */

  /** A keep-both node that is pushed a conflicting version keeps its own file: a
      live one under the free conflict name, before the new one is written. */
  lemma IncomingKeepsConflict(me: Peer, p: Path, entry: Entry, content: Content, stamp: Time)
    requires me.cfg.keepBoth && Live(me.rep.entries, p) && p in me.rep.files && !entry.deleted
    requires Concurrent(me.rep.entries[p].clock, entry.clock) && me.rep.entries[p].checksum != entry.checksum
    requires ConflictName(p, me.cfg.id) !in me.rep.files
    ensures var n, after := ConflictName(p, me.cfg.id), AfterIncoming(me, p, entry, content, stamp).rep.files;
            && n in after && after[n] == me.rep.files[p]
            && p in after && after[p] == File(content, stamp)
    ensures var n, after := ConflictName(p, me.cfg.id), AfterIncomingStream(me, p, entry, content, stamp).rep.files;
            && n in after && after[n] == me.rep.files[p]
            && p in after && after[p] == File(content, stamp)
  {
    var n, temp := ConflictName(p, me.cfg.id), TempName(p);
    assert n != p && temp != p;
    assert n[|p| + 4] == 'c' && temp[|p| + 4] == 'a';
  }

  /** If the name is taken the copy is not made, and the file is overwritten. */
  lemma IncomingOverTakenName(me: Peer, p: Path, entry: Entry, content: Content, stamp: Time)
    requires me.cfg.keepBoth && Live(me.rep.entries, p) && p in me.rep.files && !entry.deleted
    requires Concurrent(me.rep.entries[p].clock, entry.clock) && me.rep.entries[p].checksum != entry.checksum
    requires ConflictName(p, me.cfg.id) in me.rep.files
    ensures AfterIncoming(me, p, entry, content, stamp).rep.files == me.rep.files[p := File(content, stamp)]
  {
  }

  /* ---- The listener ---- */

  /** Plain pushes leave every file of the listener alone that is not pushed. */
  lemma PlainPushKeepsFile(b: Peer, a: Peer, remote: Index, names: Names, order: seq<Path>, stamp: Path -> Time,
      q: Path)
    requires PlainPushes(a, names, order) && Backed(a.rep)
    requires q in b.rep.files && !(q in order && Pushed(a, remote, q))
    ensures var after := ReceivedAll(b, PushList(a, remote, names, order), stamp);
            q in after.rep.files && after.rep.files[q] == b.rep.files[q]
  {
    if order != [] {
      var last := |order| - 1;
      assert order == order[..last] + [order[last]];
      var msgs, more := PushList(a, remote, names, order[..last]), PushOf(a, remote, names, order[last]);
      PlainPushKeepsFile(b, a, remote, names, order[..last], stamp, q);
      ReceivedAppend(b, msgs, more, stamp);
      PlainPushOtherFile(ReceivedAll(b, msgs, stamp), a, remote, names, order[last], stamp, q);
    }
  }

  lemma PlainPushOtherFile(b: Peer, a: Peer, remote: Index, names: Names, p: Path, stamp: Path -> Time, q: Path)
    requires Backed(a.rep) && (Live(a.rep.entries, p) ==> !PushedAsRename(a, names, p))
    requires q in b.rep.files && !(q == p && Pushed(a, remote, q))
    ensures var after := ReceivedAll(b, PushOf(a, remote, names, p), stamp);
            q in after.rep.files && after.rep.files[q] == b.rep.files[q]
  {
    if Pushed(a, remote, p) {
      var msg := FileData(p, a.rep.files[p].content, a.rep.entries[p]);
      assert PushOf(a, remote, names, p) == [msg];
      assert ReceivedAll(b, [msg], stamp) == Received(ReceivedAll(b, [], stamp), msg, stamp);
    }
  }

  lemma GreetingKeepsFile(a: Peer, b: Peer, env: Env, p: Path)
    requires p in b.rep.files
    ensures var b1 := Greeted(b, a.rep.entries, env);
            (p in b1.rep.files && b1.rep.files[p] == b.rep.files[p])
            || (Live(b.rep.entries, p) && p in a.rep.entries && Before(b.rep.entries[p].clock, a.rep.entries[p].clock))
  {
    DeletionsAt(b, a.rep.entries, InitiatorNames(a.rep.entries, env), p);
  }

  /** What the initiator pushes over a live path of the listener dominates it. */
  lemma PushedDominates(a: Peer, b: Peer, env: Env, p: Path)
    requires Calm(a, b, env) && Live(b.rep.entries, p) && Pushed(Refreshed(a, b, env), b.rep.entries, p)
    ensures p in a.rep.entries && Before(b.rep.entries[p].clock, a.rep.entries[p].clock)
  {
    InformedByDeletions(a, b.rep.entries, env);
    DeletionsAt(a, b.rep.entries, ListenerNames(b.rep.entries, env), p);
    RefreshedAt(a, b, env, p);
  }

  lemma PushesKeepFile(a: Peer, b: Peer, env: Env, p: Path)
    requires Calm(a, b, env) && NoRename(a, b, env) && p in Greeted(b, a.rep.entries, env).rep.files
    requires !Pushed(Refreshed(a, b, env), b.rep.entries, p)
    ensures p in Supplied(a, b, env).rep.files
            && Supplied(a, b, env).rep.files[p] == Greeted(b, a.rep.entries, env).rep.files[p]
  {
    var remote, a4 := b.rep.entries, Refreshed(a, b, env);
    SessionKeepsBacked(a, b, env);
    PlainPushKeepsFile(Greeted(b, a.rep.entries, env), a4, remote, ListenerNames(remote, env),
                       env.initiatorOrder(a4.rep.entries.Keys), env.listenerStamp, p);
  }

  lemma OnlyVisiblePushed(a: Peer, b: Peer, env: Env, p: Path)
    requires Calm(a, b, env) && Pushed(Refreshed(a, b, env), b.rep.entries, p)
    ensures Live(a.rep.entries, p) || Live(b.rep.entries, p)
  {
    InformedByDeletions(a, b.rep.entries, env);
    DeletionsAt(a, b.rep.entries, ListenerNames(b.rep.entries, env), p);
    RefreshedAt(a, b, env, p);
  }

  /** Nothing is lost at the listener, whatever its strategy: every file stays
      as it is unless the initiator's version of that path strictly dominated. */
  lemma ListenerLosesNothing(a: Peer, b: Peer, env: Env, excluded: Path -> bool, p: Path)
    requires Calm(a, b, env) && NoRename(a, b, env)
    requires InSync(b.rep, excluded) && forall q :: Live(a.rep.entries, q) ==> !excluded(q)
    requires p in b.rep.files
    ensures (p in Supplied(a, b, env).rep.files && Supplied(a, b, env).rep.files[p] == b.rep.files[p])
            || (Live(b.rep.entries, p) && p in a.rep.entries && Before(b.rep.entries[p].clock, a.rep.entries[p].clock))
  {
    InSyncPathwise(b.rep, excluded);
    assert Truthful(b.rep, excluded, p);
    GreetingKeepsFile(a, b, env, p);
    if Pushed(Refreshed(a, b, env), b.rep.entries, p) {
      OnlyVisiblePushed(a, b, env, p);
      PushedDominates(a, b, env, p);
    } else if p in Greeted(b, a.rep.entries, env).rep.files {
      PushesKeepFile(a, b, env, p);
    }
  }
}
