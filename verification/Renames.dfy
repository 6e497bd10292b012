/** Renames travel without content. */
module Renames {
  import opened Options
  import opened VectorClocks
  import opened FileIndexes
  import opened Decisions
  import opened Sessions
  import opened StepFacts

  /* ---- The local rename pass ---- */

  /** Some due rename among `sources` ends at `p`. */
  ghost predicate Targeted(mine: Index, remote: Index, names: Names, sources: seq<Path>, p: Path) {
    exists s :: s in sources && RenameDue(mine, remote, names, s) && names[mine[s].checksum] == p
  }

  /** What the pass owes a path once `sources` are visited. */
  ghost predicate RenameOutcome(me: Peer, remote: Index, names: Names, sources: seq<Path>, after: Peer, p: Path) {
    var mine := me.rep.entries;
    if p in sources && RenameDue(mine, remote, names, p) then
      && Lookup(after.rep.entries, p) == Some(Tombstone(mine[p], me.cfg.id))
      && p !in after.rep.files && p !in after.rep.corrupted
    else if Targeted(mine, remote, names, sources, p) then
      && Live(remote, p) && p in after.rep.files && p in after.rep.entries && p !in after.rep.corrupted
      && after.rep.entries[p] == remote[p].(mtime := after.rep.files[p].mtime)
      && Sha256(after.rep.files[p].content) == remote[p].checksum
    else
      && Lookup(after.rep.entries, p) == Lookup(mine, p)
      && (p in after.rep.files <==> p in me.rep.files)
      && (p in me.rep.files ==> after.rep.files[p] == me.rep.files[p])
      && (p in after.rep.corrupted <==> p in me.rep.corrupted)
  }

  /** A due source not yet visited is untouched: it is no target. */
  lemma SourceWaits(me: Peer, remote: Index, names: Names, visited: seq<Path>, after: Peer, s: Path)
    requires SoundNames(names, remote) && RenameDue(me.rep.entries, remote, names, s) && s !in visited
    requires RenameOutcome(me, remote, names, visited, after, s)
    ensures Lookup(after.rep.entries, s) == Lookup(me.rep.entries, s)
    ensures s in me.rep.files ==> s in after.rep.files && after.rep.files[s] == me.rep.files[s]
  {
    assert !Targeted(me.rep.entries, remote, names, visited, s);
  }

  /** The pass acts on each path by the table alone: every due source becomes a
      tombstone, every target of one becomes the remote's entry with the moved
      content, and all else stays. */
  lemma {:induction false} LocalRenamesOutcome(me: Peer, remote: Index, names: Names, order: seq<Path>, p: Path)
    requires Backed(me.rep) && SoundNames(names, remote)
    requires forall i, j :: 0 <= i < j < |order| ==> order[i] != order[j]
    ensures RenameOutcome(me, remote, names, order, AfterLocalRenames(me, me.rep.entries, remote, names, order), p)
  {
    if order != [] {
      var mine := me.rep.entries;
      var last := |order| - 1;
      var s := order[last];
      var before := AfterLocalRenames(me, mine, remote, names, order[..last]);
      assert order == order[..last] + [s];
      LocalRenamesOutcome(me, remote, names, order[..last], p);
      if RenameDue(mine, remote, names, s) {
        LocalRenamesOutcome(me, remote, names, order[..last], s);
        LocalRenamesAt(me, mine, remote, names, order[..last], s);
        SourceWaits(me, remote, names, order[..last], before, s);
        RenameStep(me, remote, names, order, before, p);
      } else {
        assert Targeted(mine, remote, names, order, p) <==> Targeted(mine, remote, names, order[..last], p);
      }
    }
  }

  lemma RenameStep(me: Peer, remote: Index, names: Names, order: seq<Path>, before: Peer, p: Path)
    requires Backed(me.rep) && SoundNames(names, remote) && order != [] && before.cfg == me.cfg
    requires RenameDue(me.rep.entries, remote, names, order[|order| - 1])
    requires RenameOutcome(me, remote, names, order[..|order| - 1], before, p)
    requires var s := order[|order| - 1];
             && Lookup(before.rep.entries, s) == Lookup(me.rep.entries, s)
             && s in before.rep.files && before.rep.files[s] == me.rep.files[s]
    ensures var s := order[|order| - 1];
            var target := names[me.rep.entries[s].checksum];
            RenameOutcome(me, remote, names, order, Renamed(before, s, target, remote[target]), p)
  {
    var mine := me.rep.entries;
    var last := |order| - 1;
    var s := order[last];
    var target := names[mine[s].checksum];
    assert order == order[..last] + [s];
    assert s in order;
    assert Targeted(mine, remote, names, order, target);
    assert s != target;
    if p != target && p != s {
      assert Targeted(mine, remote, names, order, p) <==> Targeted(mine, remote, names, order[..last], p);
    }
  }

  /** Equal up to modification times. */
  ghost predicate SameButTimes(x: Peer, y: Peer, p: Path) {
    && (p in x.rep.entries <==> p in y.rep.entries)
    && (p in x.rep.entries ==> x.rep.entries[p] == y.rep.entries[p].(mtime := x.rep.entries[p].mtime))
    && (p in x.rep.files <==> p in y.rep.files)
    && (p in x.rep.files ==> x.rep.files[p].content == y.rep.files[p].content)
    && (p in x.rep.corrupted <==> p in y.rep.corrupted)
  }

  /** Modification times aside, the pass does not depend on the visiting order. */
  lemma RenameOrderIrrelevant(me: Peer, remote: Index, names: Names, order: seq<Path>, order': seq<Path>, p: Path)
    requires Backed(me.rep) && SoundNames(names, remote)
    requires Enumerates(order, me.rep.entries.Keys) && Enumerates(order', me.rep.entries.Keys)
    ensures SameButTimes(AfterLocalRenames(me, me.rep.entries, remote, names, order),
                         AfterLocalRenames(me, me.rep.entries, remote, names, order'), p)
  {
    LocalRenamesOutcome(me, remote, names, order, p);
    LocalRenamesOutcome(me, remote, names, order', p);
    assert Targeted(me.rep.entries, remote, names, order, p) <==> Targeted(me.rep.entries, remote, names, order', p);
  }

  ghost predicate HasLive(ix: Index, c: Checksum) {
    exists p :: Live(ix, p) && ix[p].checksum == c
  }

  /** A content is live after the pass exactly when a live path has it that is
      due to be renamed or is no target. */
  lemma RenamedContentsIff(me: Peer, remote: Index, names: Names, order: seq<Path>, c: Checksum)
    requires Backed(me.rep) && SoundNames(names, remote) && Enumerates(order, me.rep.entries.Keys)
    ensures var mine := me.rep.entries;
            HasLive(AfterLocalRenames(me, mine, remote, names, order).rep.entries, c)
            <==> exists p :: Live(mine, p) && mine[p].checksum == c
                             && (RenameDue(mine, remote, names, p) || !Targeted(mine, remote, names, order, p))
  {
    var mine := me.rep.entries;
    var after := AfterLocalRenames(me, mine, remote, names, order).rep.entries;
    if p :| Live(mine, p) && mine[p].checksum == c
            && (RenameDue(mine, remote, names, p) || !Targeted(mine, remote, names, order, p)) {
      var q := if RenameDue(mine, remote, names, p) then names[c] else p;
      LocalRenamesOutcome(me, remote, names, order, q);
      if q != p {
        assert Targeted(mine, remote, names, order, q);
      }
      assert Live(after, q) && after[q].checksum == c;
    }
    if q :| Live(after, q) && after[q].checksum == c {
      LocalRenamesOutcome(me, remote, names, order, q);
      if Targeted(mine, remote, names, order, q) {
        var s :| s in order && RenameDue(mine, remote, names, s) && names[mine[s].checksum] == q;
        assert Live(mine, s) && mine[s].checksum == c;
      } else {
        assert Live(mine, q) && mine[q].checksum == c && !Targeted(mine, remote, names, order, q);
      }
    }
  }

  /** So if no target holds a different live content, the pass neither loses nor
      invents a live content. */
  lemma RenamesKeepContents(me: Peer, remote: Index, names: Names, order: seq<Path>, c: Checksum)
    requires Backed(me.rep) && SoundNames(names, remote) && Enumerates(order, me.rep.entries.Keys)
    requires forall s :: RenameDue(me.rep.entries, remote, names, s)
                         && Live(me.rep.entries, names[me.rep.entries[s].checksum])
                         ==> me.rep.entries[names[me.rep.entries[s].checksum]].checksum == me.rep.entries[s].checksum
    ensures HasLive(AfterLocalRenames(me, me.rep.entries, remote, names, order).rep.entries, c)
            <==> HasLive(me.rep.entries, c)
  {
    var mine := me.rep.entries;
    RenamedContentsIff(me, remote, names, order, c);
    if p :| Live(mine, p) && mine[p].checksum == c {
      if Targeted(mine, remote, names, order, p) {
        var s :| s in order && RenameDue(mine, remote, names, s) && names[mine[s].checksum] == p;
        assert Live(mine, s) && mine[s].checksum == c && RenameDue(mine, remote, names, s);
      } else {
        assert Live(mine, p) && mine[p].checksum == c && !Targeted(mine, remote, names, order, p);
      }
    }
  }

  /** And a content that is live only on a target of another one's rename is lost,
      whatever its version. */
  lemma OverwrittenContentIsLost(me: Peer, remote: Index, names: Names, order: seq<Path>, s: Path)
    requires Backed(me.rep) && SoundNames(names, remote) && Enumerates(order, me.rep.entries.Keys)
    requires RenameDue(me.rep.entries, remote, names, s)
    requires var mine, target := me.rep.entries, names[me.rep.entries[s].checksum];
             && Live(mine, target) && mine[target].checksum != mine[s].checksum
             && forall p :: Live(mine, p) && mine[p].checksum == mine[target].checksum ==> p == target
    ensures var mine := me.rep.entries;
            !HasLive(AfterLocalRenames(me, mine, remote, names, order).rep.entries,
                     mine[names[mine[s].checksum]].checksum)
  {
    var mine := me.rep.entries;
    var target := names[mine[s].checksum];
    RenamedContentsIff(me, remote, names, order, mine[target].checksum);
    assert s in order && Targeted(mine, remote, names, order, target);
    assert !RenameDue(mine, remote, names, target);
  }

  /** The pass moves a path's history forward, or leaves it, exactly when the path
      is no target or the version at the remote dominates it. */
  lemma RenamesAdvanceIff(me: Peer, remote: Index, names: Names, order: seq<Path>, p: Path)
    requires Backed(me.rep) && SoundNames(names, remote) && Enumerates(order, me.rep.entries.Keys)
    requires p in me.rep.entries
    ensures var mine := me.rep.entries;
            var after := AfterLocalRenames(me, mine, remote, names, order).rep.entries;
            && p in after
            && (Targeted(mine, remote, names, order, p) ==> p in remote)
            && (AtMost(mine[p].clock, after[p].clock)
                <==> (Targeted(mine, remote, names, order, p) ==> AtMost(mine[p].clock, remote[p].clock)))
  {
    LocalRenamesOutcome(me, remote, names, order, p);
    IncrementIsLater(me.rep.entries[p].clock, me.cfg.id);
  }

  /** Replicas at which it goes wrong both ways: of two files with one content, one
      is edited here and the other deleted at the remote; the pass takes the
      deletion for a rename onto the edited file. */
  lemma RenameOverwrites(s: Path, t: Path) returns (me: Peer, remote: Index, names: Names)
    requires s != t
    ensures me.rep.entries == map[s := Entry(Digest([1]), 1, map["a" := 1], false),
                                  t := Entry(Digest([2]), 1, map["a" := 2], false)]
    ensures remote == map[s := Entry(Blank, 0, map["a" := 1, "b" := 1], true),
                          t := Entry(Digest([1]), 1, map["a" := 1], false)]
    ensures Backed(me.rep) && me.rep.corrupted == {} && IsNames(names, remote)
    ensures Enumerates([s, t], me.rep.entries.Keys)
    ensures var after := AfterLocalRenames(me, me.rep.entries, remote, names, [s, t]).rep.entries;
            !HasLive(after, Digest([2])) && t in after && Before(after[t].clock, me.rep.entries[t].clock)
  {
    var mine := map[s := Entry(Digest([1]), 1, map["a" := 1], false), t := Entry(Digest([2]), 1, map["a" := 2], false)];
    me := Peer(Config("a", false, true), Replica(mine, {}, map[s := File([1], 1), t := File([2], 1)]), {});
    remote := map[s := Entry(Blank, 0, map["a" := 1, "b" := 1], true),
                  t := Entry(Digest([1]), 1, map["a" := 1], false)];
    names := map[Digest([1]) := t];
    assert [1][0] != [2][0];
    assert "a" in mine[t].clock && mine[t].clock["a"] > Component(remote[t].clock, "a");
    OneOverAnother(me, remote, names, s, t);
  }

  lemma OneOverAnother(me: Peer, remote: Index, names: Names, s: Path, t: Path)
    requires s != t && me.rep.entries.Keys == {s, t} && remote.Keys == {s, t}
    requires Backed(me.rep) && SoundNames(names, remote)
    requires Live(me.rep.entries, s) && Live(me.rep.entries, t) && Dead(remote, s) && Live(remote, t)
    requires me.rep.entries[s].checksum == remote[t].checksum != me.rep.entries[t].checksum
    requires names == map[remote[t].checksum := t] && Before(remote[t].clock, me.rep.entries[t].clock)
    ensures var after := AfterLocalRenames(me, me.rep.entries, remote, names, [s, t]).rep.entries;
            && Enumerates([s, t], me.rep.entries.Keys) && IsNames(names, remote)
            && !HasLive(after, me.rep.entries[t].checksum)
            && t in after && Before(after[t].clock, me.rep.entries[t].clock)
  {
    var order := [s, t];
    assert RenameDue(me.rep.entries, remote, names, s) && order[0] == s && order[1] == t;
    assert Targeted(me.rep.entries, remote, names, order, t);
    OverwrittenContentIsLost(me, remote, names, order, s);
    LocalRenamesOutcome(me, remote, names, order, t);
  }

  /** A path the deletion pass has removed is not renamed, and a path due to be
      renamed is not removed. */
  lemma DeletionOrRename(me: Peer, remote: Index, names: Names, p: Path)
    requires RenameDue(me.rep.entries, remote, names, p)
    ensures var after := AfterDeletions(me, remote, names);
            RenameDue(after.rep.entries, remote, names, p) && p !in after.pending - me.pending
  {
    DeletionsAt(me, remote, names, p);
  }

  /* ---- Moves in a whole session ---- */

  /** Each live content is on one path of the index. */
  ghost predicate NoDuplicates(ix: Index) {
    forall p, q :: Live(ix, p) && Live(ix, q) && ix[p].checksum == ix[q].checksum && ix[p].checksum != Blank ==> p == q
  }

  lemma {:induction false} PushListSplit(a: Peer, remote: Index, names: Names, x: seq<Path>, y: seq<Path>)
    ensures PushList(a, remote, names, x + y) == PushList(a, remote, names, x) + PushList(a, remote, names, y)
  {
    if y == [] {
      assert x + y == x;
    } else {
      var z, p := y[..|y| - 1], y[|y| - 1];
      assert y == z + [p] && x + y == (x + z) + [p];
      PushListSplit(a, remote, names, x, z);
      PushListLast(a, remote, names, z, p);
      PushListLast(a, remote, names, x + z, p);
      Associative(PushList(a, remote, names, x), PushList(a, remote, names, z), PushOf(a, remote, names, p));
    }
  }

  lemma Associative(x: seq<Message>, y: seq<Message>, z: seq<Message>)
    ensures (x + y) + z == x + (y + z)
  {
  }

  lemma PushListLast(a: Peer, remote: Index, names: Names, x: seq<Path>, p: Path)
    ensures PushList(a, remote, names, x + [p]) == PushList(a, remote, names, x) + PushOf(a, remote, names, p)
  {
    assert (x + [p])[..|x|] == x;
  }

  /** A file moved at one node: `source` is gone there and its content lives on
      under `new`, which the initiator does not know. */
  ghost predicate MovedAt(mover: Index, other: Index, source: Path, target: Path) {
    && Dead(mover, source) && Live(mover, target)
    && Live(other, source) && target !in other
    && mover[target].checksum == other[source].checksum
  }

  lemma OnlyName(names: Names, ix: Index, p: Path)
    requires IsNames(names, ix) && NoDuplicates(ix) && Live(ix, p) && ix[p].checksum != Blank
    ensures ix[p].checksum in names && names[ix[p].checksum] == p
  {
  }

  /** What the initiator does with a move the listener made. */
  lemma MoveReplayed(a: Peer, b: Peer, env: Env, source: Path, target: Path)
    requires ValidEnv(env) && Backed(a.rep) && Backed(b.rep)
    requires NoDuplicates(b.rep.entries)
    requires MovedAt(b.rep.entries, a.rep.entries, source, target)
    ensures var a2 := Informed(a, b.rep.entries, env);
            && Dead(a2.rep.entries, source) && Live(a2.rep.entries, target) && target !in a2.rep.corrupted
            && a2.rep.entries[target] == b.rep.entries[target].(mtime := a2.rep.entries[target].mtime)
            && target in a2.rep.files && a2.rep.files[target].content == a.rep.files[source].content
  {
    var remote := b.rep.entries;
    var names := ListenerNames(remote, env);
    var a1 := AfterDeletions(a, remote, names);
    var order := env.initiatorOrder(a1.rep.entries.Keys);
    assert Enumerates(env.listenerOrder(remote.Keys), remote.Keys);
    NamesOfIsNames(env.listenerOrder(remote.Keys), remote);
    OnlyName(names, remote, target);
    DeletionsAt(a, remote, names, source);
    DeletionsAt(a, remote, names, target);
    DeletionsKeepBacked(a, remote, names);
    assert Enumerates(order, a1.rep.entries.Keys);
    assert RenameDue(a1.rep.entries, remote, names, source);
    assert Targeted(a1.rep.entries, remote, names, order, target);
    LocalRenamesOutcome(a1, remote, names, order, source);
    LocalRenamesOutcome(a1, remote, names, order, target);
  }

  lemma ReplayedMoveNotAsked(a: Peer, b: Peer, env: Env, source: Path, target: Path)
    requires ValidEnv(env) && Backed(a.rep) && Backed(b.rep)
    requires NoDuplicates(b.rep.entries)
    requires MovedAt(b.rep.entries, a.rep.entries, source, target)
    ensures source !in Wants(a, b.rep.entries, env) && target !in Wants(a, b.rep.entries, env)
  {
    MoveReplayed(a, b, env, source, target);
    WantsAt(a, b.rep.entries, env, source);
    WantsAt(a, b.rep.entries, env, target);
  }

  /** ... and what it holds of it once it has pulled. */
  lemma ReplayedMoveStays(a: Peer, b: Peer, env: Env, source: Path, target: Path)
    requires ValidEnv(env) && Backed(a.rep) && Backed(b.rep)
    requires NoDuplicates(b.rep.entries)
    requires MovedAt(b.rep.entries, a.rep.entries, source, target)
    ensures var a4 := Refreshed(a, b, env);
            && Dead(a4.rep.entries, source) && Live(a4.rep.entries, target)
            && a4.rep.entries[target] == b.rep.entries[target].(mtime := a4.rep.entries[target].mtime)
            && target in a4.rep.files && a4.rep.files[target].content == a.rep.files[source].content
  {
    MoveReplayed(a, b, env, source, target);
    ReplayedMoveNotAsked(a, b, env, source, target);
    RefreshedAt(a, b, env, source);
    RefreshedAt(a, b, env, target);
  }

  lemma ListenerKeepsItsMove(a: Peer, b: Peer, a4: Peer, env: Env, source: Path, target: Path)
    requires MovedAt(b.rep.entries, a.rep.entries, source, target)
    requires Dead(a4.rep.entries, source) && Live(a4.rep.entries, target)
    requires a4.rep.entries[target].clock == b.rep.entries[target].clock
    ensures forall msg :: msg in Offered(a4, b.rep.entries, env) ==> !Touches(msg, source) && !Touches(msg, target)
    ensures var b2 := ReceivedAll(Greeted(b, a.rep.entries, env), Offered(a4, b.rep.entries, env), env.listenerStamp);
            && Lookup(b2.rep.entries, source) == Lookup(b.rep.entries, source)
            && Lookup(b2.rep.entries, target) == Lookup(b.rep.entries, target)
  {
    var remote, b1 := b.rep.entries, Greeted(b, a.rep.entries, env);
    MovedPathsNotPushed(a4, remote, ListenerNames(remote, env), env.initiatorOrder(a4.rep.entries.Keys),
                        source, target);
    DeletionsAt(b, a.rep.entries, InitiatorNames(a.rep.entries, env), source);
    DeletionsAt(b, a.rep.entries, InitiatorNames(a.rep.entries, env), target);
    UntouchedStays(b1, Offered(a4, remote, env), env.listenerStamp, source);
    UntouchedStays(b1, Offered(a4, remote, env), env.listenerStamp, target);
  }

  /** A move made at the listener reaches the initiator in one session without
      content: neither path is asked for, no push concerns either, and both
      sides end with the old path dead and the new one live with its content. */
  lemma ListenerMoveTravels(a: Peer, b: Peer, env: Env, source: Path, target: Path)
    requires ValidEnv(env) && Backed(a.rep) && Backed(b.rep)
    requires NoDuplicates(b.rep.entries)
    requires MovedAt(b.rep.entries, a.rep.entries, source, target)
    ensures source !in Wants(a, b.rep.entries, env) && target !in Wants(a, b.rep.entries, env)
    ensures forall msg :: msg in Pushes(a, b, env) ==> !Touches(msg, source) && !Touches(msg, target)
    ensures var (a', b') := Session(a, b, env);
            && Dead(a'.rep.entries, source) && Dead(b'.rep.entries, source)
            && Live(a'.rep.entries, target) && Live(b'.rep.entries, target)
            && a'.rep.entries[target].checksum == b'.rep.entries[target].checksum
            && target in a'.rep.files && a'.rep.files[target].content == a.rep.files[source].content
  {
    ReplayedMoveNotAsked(a, b, env, source, target);
    ReplayedMoveStays(a, b, env, source, target);
    ListenerKeepsItsMove(a, b, Refreshed(a, b, env), env, source, target);
  }

  lemma MovedPathsNotPushed(a: Peer, remote: Index, names: Names, order: seq<Path>, source: Path, target: Path)
    requires SoundNames(names, remote) && Dead(remote, source) && Live(remote, target)
    requires Dead(a.rep.entries, source) && Live(a.rep.entries, target)
        && a.rep.entries[target].clock == remote[target].clock
    ensures forall msg :: msg in PushList(a, remote, names, order) ==> !Touches(msg, source) && !Touches(msg, target)
  {
    forall msg | msg in PushList(a, remote, names, order) ensures !Touches(msg, source) && !Touches(msg, target) {
      PushedFrom(a, remote, names, order, msg);
      var p :| p in order && msg in PushOf(a, remote, names, p);
    }
  }

  /** What the initiator knows of its own move when it decides what to pull. */
  lemma MoveInformed(a: Peer, b: Peer, env: Env, source: Path, target: Path)
    requires ValidEnv(env) && Backed(a.rep) && Backed(b.rep) && NoDuplicates(a.rep.entries)
    requires MovedAt(a.rep.entries, b.rep.entries, source, target)
    ensures var a2 := Informed(a, b.rep.entries, env);
            Lookup(a2.rep.entries, source) == Lookup(a.rep.entries, source)
            && Lookup(a2.rep.entries, target) == Lookup(a.rep.entries, target)
  {
    var remote := b.rep.entries;
    var names := ListenerNames(remote, env);
    var a1 := AfterDeletions(a, remote, names);
    var order := env.initiatorOrder(a1.rep.entries.Keys);
    DeletionsAt(a, remote, names, source);
    DeletionsAt(a, remote, names, target);
    DeletionsKeepBacked(a, remote, names);
    assert Enumerates(order, a1.rep.entries.Keys);
    LocalRenamesOutcome(a1, remote, names, order, source);
    LocalRenamesOutcome(a1, remote, names, order, target);
  }

  lemma MoveNotAsked(a: Peer, b: Peer, env: Env, source: Path, target: Path)
    requires ValidEnv(env) && Backed(a.rep) && Backed(b.rep) && NoDuplicates(a.rep.entries)
    requires MovedAt(a.rep.entries, b.rep.entries, source, target)
    ensures source !in Wants(a, b.rep.entries, env) && target !in Wants(a, b.rep.entries, env)
  {
    var mine := Informed(a, b.rep.entries, env).rep.entries;
    MoveInformed(a, b, env, source, target);
    assert Enumerates(env.initiatorOrder(mine.Keys), mine.Keys);
    NamesOfIsNames(env.initiatorOrder(mine.Keys), mine);
    WantsAt(a, b.rep.entries, env, source);
    WantsAt(a, b.rep.entries, env, target);
  }

  /** ... and once it has pulled. */
  lemma MoveStays(a: Peer, b: Peer, env: Env, source: Path, target: Path)
    requires ValidEnv(env) && Backed(a.rep) && Backed(b.rep) && NoDuplicates(a.rep.entries)
    requires MovedAt(a.rep.entries, b.rep.entries, source, target)
    ensures var a4 := Refreshed(a, b, env);
            Dead(a4.rep.entries, source) && Lookup(a4.rep.entries, target) == Lookup(a.rep.entries, target)
  {
    MoveInformed(a, b, env, source, target);
    MoveNotAsked(a, b, env, source, target);
    RefreshedAt(a, b, env, source);
    RefreshedAt(a, b, env, target);
  }

  /** The rename message is the only push that touches either path. */
  lemma MoveIsOneMessage(a: Peer, remote: Index, names: Names, order: seq<Path>, source: Path, target: Path,
      msg: Message)
    requires SoundNames(names, remote) && NoDuplicates(remote) && MoveKnown(a, remote, source, target)
    requires target !in order && msg in PushList(a, remote, names, order)
    ensures !Touches(msg, source) && !Touches(msg, target)
  {
    PushedFrom(a, remote, names, order, msg);
    var p :| p in order && msg in PushOf(a, remote, names, p);
  }

  lemma ContentStaysUnique(a: Peer, b: Peer, env: Env, source: Path, target: Path, p: Path)
    requires ValidEnv(env) && Backed(a.rep) && Backed(b.rep)
    requires NoDuplicates(a.rep.entries) && NoDuplicates(b.rep.entries)
    requires MovedAt(a.rep.entries, b.rep.entries, source, target)
    requires Live(Refreshed(a, b, env).rep.entries, p)
    requires Refreshed(a, b, env).rep.entries[p].checksum == b.rep.entries[source].checksum
    ensures p == target
  {
    MoveStays(a, b, env, source, target);
    RefreshedLiveOrigin(a, b, env, p);
  }

  /** A list of pushes that moves `source` to `target` once and otherwise leaves
      both alone. */
  lemma MoveReceived(b: Peer, pre: seq<Message>, msg: Message, post: seq<Message>, stamp: Path -> Time,
      source: Path, target: Path)
    requires msg.RenameFile? && msg == RenameFile(source, target, msg.entry) && source != target && !msg.entry.deleted
    requires forall m :: m in pre + post ==> !Touches(m, source) && !Touches(m, target)
    requires Live(b.rep.entries, source) && source in b.rep.files
    requires b.rep.entries[source].checksum == msg.entry.checksum
    ensures var b2 := ReceivedAll(b, pre + [msg] + post, stamp);
            && Dead(b2.rep.entries, source) && Live(b2.rep.entries, target)
            && b2.rep.entries[target].checksum == msg.entry.checksum && b2.rep.entries[target].clock == msg.entry.clock
            && target in b2.rep.files && b2.rep.files[target].content == b.rep.files[source].content
  {
    forall m | m in pre ensures !Touches(m, source) && !Touches(m, target) { assert m in pre + post; }
    forall m | m in post ensures !Touches(m, source) && !Touches(m, target) { assert m in pre + post; }
    ReceivedAppend(b, pre + [msg], post, stamp);
    ReceivedAppend(b, pre, [msg], stamp);
    var b1 := ReceivedAll(b, pre, stamp);
    UntouchedStays(b, pre, stamp, source);
    assert ReceivedAll(b1, [msg], stamp) == Received(ReceivedAll(b1, [], stamp), msg, stamp);
    UntouchedStays(ReceivedAll(b1, [msg], stamp), post, stamp, source);
    UntouchedStays(ReceivedAll(b1, [msg], stamp), post, stamp, target);
  }

  /** The initiator holds the content of the listener's `source` under `target`
      only, and has deleted `source`. */
  ghost predicate MoveKnown(a4: Peer, remote: Index, source: Path, target: Path) {
    && Dead(a4.rep.entries, source) && Live(a4.rep.entries, target)
    && Live(remote, source) && target !in remote
    && remote[source].checksum == a4.rep.entries[target].checksum != Blank
    && (forall p :: Live(a4.rep.entries, p) && a4.rep.entries[p].checksum == remote[source].checksum ==> p == target)
  }

  lemma OneRenameSplits(a4: Peer, remote: Index, names: Names, before: seq<Path>, after: seq<Path>, source: Path,
      target: Path)
    requires IsNames(names, remote) && NoDuplicates(remote) && MoveKnown(a4, remote, source, target)
    ensures PushList(a4, remote, names, before + [target] + after)
            == PushList(a4, remote, names, before) + [RenameFile(source, target, a4.rep.entries[target])]
               + PushList(a4, remote, names, after)
  {
    OnlyName(names, remote, source);
    PushListSplit(a4, remote, names, before + [target], after);
    PushListSplit(a4, remote, names, before, [target]);
    assert PushList(a4, remote, names, [target]) == PushList(a4, remote, names, []) + PushOf(a4, remote, names, target);
  }

  lemma SplitAt(order: seq<Path>, p: Path) returns (before: seq<Path>, after: seq<Path>)
    requires p in order && forall i, j :: 0 <= i < j < |order| ==> order[i] != order[j]
    ensures order == before + [p] + after && p !in before && p !in after
  {
    var k :| 0 <= k < |order| && order[k] == p;
    before, after := order[..k], order[k + 1..];
  }

  /** How the initiator announces its own move. */
  lemma MoveIsPushed(a4: Peer, remote: Index, names: Names, order: seq<Path>, source: Path, target: Path)
    returns (pre: seq<Message>, post: seq<Message>)
    requires IsNames(names, remote) && NoDuplicates(remote) && MoveKnown(a4, remote, source, target)
    requires Enumerates(order, a4.rep.entries.Keys)
    ensures PushList(a4, remote, names, order) == pre + [RenameFile(source, target, a4.rep.entries[target])] + post
    ensures forall m :: m in pre + post ==> !Touches(m, source) && !Touches(m, target)
  {
    var before, after := SplitAt(order, target);
    OneRenameSplits(a4, remote, names, before, after, source, target);
    pre, post := PushList(a4, remote, names, before), PushList(a4, remote, names, after);
    OtherPushesApart(a4, remote, names, before, source, target);
    OtherPushesApart(a4, remote, names, after, source, target);
  }

  lemma OtherPushesApart(a4: Peer, remote: Index, names: Names, order: seq<Path>, source: Path, target: Path)
    requires SoundNames(names, remote) && NoDuplicates(remote) && MoveKnown(a4, remote, source, target)
    requires target !in order
    ensures forall m :: m in PushList(a4, remote, names, order) ==> !Touches(m, source) && !Touches(m, target)
  {
    forall m | m in PushList(a4, remote, names, order) ensures !Touches(m, source) && !Touches(m, target) {
      MoveIsOneMessage(a4, remote, names, order, source, target, m);
    }
  }

  lemma MoveIsKnown(a: Peer, b: Peer, env: Env, source: Path, target: Path)
    requires ValidEnv(env) && Backed(a.rep) && Backed(b.rep)
    requires NoDuplicates(a.rep.entries) && NoDuplicates(b.rep.entries)
    requires MovedAt(a.rep.entries, b.rep.entries, source, target)
    ensures MoveKnown(Refreshed(a, b, env), b.rep.entries, source, target)
    ensures Refreshed(a, b, env).rep.entries[target] == a.rep.entries[target]
  {
    var remote, a4 := b.rep.entries, Refreshed(a, b, env).rep.entries;
    MoveStays(a, b, env, source, target);
    forall p | Live(a4, p) && a4[p].checksum == remote[source].checksum ensures p == target {
      ContentStaysUnique(a, b, env, source, target, p);
    }
  }

  lemma MovePushed(b: Peer, a4: Peer, env: Env, source: Path, target: Path)
    returns (pre: seq<Message>, post: seq<Message>)
    requires ValidEnv(env) && NoDuplicates(b.rep.entries) && MoveKnown(a4, b.rep.entries, source, target)
    ensures Offered(a4, b.rep.entries, env) == pre + [RenameFile(source, target, a4.rep.entries[target])] + post
    ensures forall m :: m in pre + post ==> !Touches(m, source) && !Touches(m, target)
  {
    var remote := b.rep.entries;
    assert Enumerates(env.listenerOrder(remote.Keys), remote.Keys);
    NamesOfIsNames(env.listenerOrder(remote.Keys), remote);
    assert Enumerates(env.initiatorOrder(a4.rep.entries.Keys), a4.rep.entries.Keys);
    pre, post := MoveIsPushed(a4, remote, ListenerNames(remote, env), env.initiatorOrder(a4.rep.entries.Keys),
        source, target);
  }

  /** A move made at the initiator reaches the listener in one session as exactly
      one RENAME_FILE: neither path is asked for, no other push concerns either,
      and both sides end with the old path dead and the new one live. */
  lemma InitiatorMoveTravels(a: Peer, b: Peer, env: Env, source: Path, target: Path)
    returns (pre: seq<Message>, post: seq<Message>)
    requires ValidEnv(env) && Backed(a.rep) && Backed(b.rep)
    requires NoDuplicates(a.rep.entries) && NoDuplicates(b.rep.entries)
    requires MovedAt(a.rep.entries, b.rep.entries, source, target)
    ensures source !in Wants(a, b.rep.entries, env) && target !in Wants(a, b.rep.entries, env)
    ensures Pushes(a, b, env) == pre + [RenameFile(source, target, a.rep.entries[target])] + post
    ensures forall msg :: msg in pre + post ==> !Touches(msg, source) && !Touches(msg, target)
    ensures var (a', b') := Session(a, b, env);
            && Dead(a'.rep.entries, source) && Dead(b'.rep.entries, source)
            && Live(a'.rep.entries, target) && Live(b'.rep.entries, target)
            && a'.rep.entries[target].checksum == b'.rep.entries[target].checksum
            && target in b'.rep.files && b'.rep.files[target].content == b.rep.files[source].content
  {
    MoveNotAsked(a, b, env, source, target);
    MoveIsKnown(a, b, env, source, target);
    MoveNotDeleted(a, b, env, source, target);
    pre, post := InitiatorMoveArrives(b, Refreshed(a, b, env), Greeted(b, a.rep.entries, env), env, source, target);
  }

  lemma InitiatorMoveArrives(b: Peer, a4: Peer, b1: Peer, env: Env, source: Path, target: Path)
    returns (pre: seq<Message>, post: seq<Message>)
    requires ValidEnv(env) && Backed(b.rep) && NoDuplicates(b.rep.entries)
    requires MoveKnown(a4, b.rep.entries, source, target)
    requires Lookup(b1.rep.entries, source) == Lookup(b.rep.entries, source)
    requires source in b1.rep.files && b1.rep.files[source] == b.rep.files[source]
    ensures Offered(a4, b.rep.entries, env) == pre + [RenameFile(source, target, a4.rep.entries[target])] + post
    ensures forall msg :: msg in pre + post ==> !Touches(msg, source) && !Touches(msg, target)
    ensures var b2 := ReceivedAll(b1, Offered(a4, b.rep.entries, env), env.listenerStamp);
            && Dead(b2.rep.entries, source) && Live(b2.rep.entries, target)
            && b2.rep.entries[target].checksum == a4.rep.entries[target].checksum
            && target in b2.rep.files && b2.rep.files[target].content == b.rep.files[source].content
  {
    pre, post := MovePushed(b, a4, env, source, target);
    MoveReceived(b1, pre, RenameFile(source, target, a4.rep.entries[target]), post, env.listenerStamp, source, target);
  }

  /** The listener does not take the move for a deletion. */
  lemma MoveNotDeleted(a: Peer, b: Peer, env: Env, source: Path, target: Path)
    requires ValidEnv(env) && Backed(b.rep) && NoDuplicates(a.rep.entries)
    requires MovedAt(a.rep.entries, b.rep.entries, source, target)
    ensures var b1 := Greeted(b, a.rep.entries, env);
            Lookup(b1.rep.entries, source) == Lookup(b.rep.entries, source)
            && source in b1.rep.files && b1.rep.files[source] == b.rep.files[source]
  {
    var mine := a.rep.entries;
    assert Enumerates(env.initiatorOrder(mine.Keys), mine.Keys);
    NamesOfIsNames(env.initiatorOrder(mine.Keys), mine);
    OnlyName(InitiatorNames(mine, env), mine, target);
    DeletionsAt(b, mine, InitiatorNames(mine, env), source);
  }
}
