/** What each phase of a session does to a single path, and what it keeps. */
module StepFacts {
  import opened Options
  import opened FileIndexes
  import opened SyncEngines
  import opened Decisions
  import opened Sessions

  /* ---- Shape of each phase at one path ---- */

  lemma NamesOfIsNames(order: seq<Path>, ix: Index)
    requires Enumerates(order, ix.Keys)
    ensures IsNames(NamesOf(order, ix), ix)
  {
  }

  lemma DeletionsAt(me: Peer, remote: Index, names: Names, p: Path)
    ensures var after := AfterDeletions(me, remote, names);
            var gone := me.cfg.syncDeletes && p in me.pending && Doomed(me, remote, names, p);
            && after.cfg == me.cfg
            && Lookup(after.rep.entries, p) == (if gone then Some(remote[p]) else Lookup(me.rep.entries, p))
            && (p in after.rep.corrupted <==> p in me.rep.corrupted && !gone)
            && (p in after.rep.files <==> p in me.rep.files && !gone)
            && (p in after.rep.files ==> after.rep.files[p] == me.rep.files[p])
            && (me.cfg.syncDeletes ==>
                  (p in after.pending <==>
                     if Doomed(me, remote, names, p) then p !in me.pending
                     else p in me.pending && !Settled(me, remote, names, p)))
            && (!me.cfg.syncDeletes ==> after == me)
  {
  }

  /** A rename replays as a tombstone at its source and the remote entry at its
      target; every other path stays. */
  lemma LocalRenamesAt(me: Peer, mine: Index, remote: Index, names: Names, order: seq<Path>, p: Path)
    requires SoundNames(names, remote)
    ensures var after := AfterLocalRenames(me, mine, remote, names, order);
            && after.cfg == me.cfg && after.pending == me.pending
            && (|| (Lookup(after.rep.entries, p) == Lookup(me.rep.entries, p)
                    && (p in after.rep.corrupted <==> p in me.rep.corrupted))
                || (Dead(after.rep.entries, p) && Dead(remote, p) && Live(mine, p))
                || (Live(remote, p) && p in after.rep.entries && p !in after.rep.corrupted
                    && after.rep.entries[p] == remote[p].(mtime := after.rep.entries[p].mtime)))
  {
    if order != [] {
      var last := |order| - 1;
      LocalRenamesAt(me, mine, remote, names, order[..last], p);
    }
  }

  lemma NothingToRename(me: Peer, mine: Index, remote: Index, names: Names, order: seq<Path>)
    requires SoundNames(names, remote)
    requires forall p :: !RenameDue(mine, remote, names, p)
    ensures AfterLocalRenames(me, mine, remote, names, order) == me
  {
  }

  lemma NeededHas(me: Peer, remote: Index, own: Names, order: seq<Path>, p: Path)
    ensures p in Needed(me, remote, own, order) <==> p in order && p in remote && Wanted(me, remote, own, p)
  {
    if order != [] {
      var last := |order| - 1;
      NeededHas(me, remote, own, order[..last], p);
      assert order == order[..last] + [order[last]];
    }
  }

  ghost predicate Distinct(paths: seq<Path>) {
    forall i, j :: 0 <= i < j < |paths| ==> paths[i] != paths[j]
  }

  /** The wanted paths are listed in the visiting order, once for each visit:
      `at[i]` is where the `i`-th of them was visited. */
  lemma {:induction false} NeededFollows(me: Peer, remote: Index, own: Names, order: seq<Path>)
    returns (at: seq<nat>)
    ensures var needed := Needed(me, remote, own, order);
            |at| == |needed| && forall i :: 0 <= i < |at| ==> at[i] < |order| && needed[i] == order[at[i]]
    ensures forall i, j :: 0 <= i < j < |at| ==> at[i] < at[j]
  {
    if order == [] {
      at := [];
    } else {
      var last := |order| - 1;
      at := NeededFollows(me, remote, own, order[..last]);
      if order[last] in remote && Wanted(me, remote, own, order[last]) {
        at := at + [last];
      }
    }
  }

  /** So no path is listed twice. */
  lemma NeededDistinct(me: Peer, remote: Index, own: Names, order: seq<Path>)
    requires Distinct(order)
    ensures Distinct(Needed(me, remote, own, order))
  {
    var at := NeededFollows(me, remote, own, order);
  }

  lemma WantsDistinct(a: Peer, remote: Index, env: Env)
    requires ValidEnv(env)
    ensures Distinct(Wants(a, remote, env))
  {
    var a2 := Informed(a, remote, env);
    assert Enumerates(env.listenerOrder(remote.Keys), remote.Keys);
    NeededDistinct(a2, remote, InitiatorNames(a2.rep.entries, env), env.listenerOrder(remote.Keys));
  }

  /** Conflict copies only add files. */
  lemma NeededKeeps(me: Peer, remote: Index, order: seq<Path>)
    ensures var after := AfterNeeded(me, remote, order);
            && after == me.(rep := me.rep.(files := after.rep.files))
            && (forall q :: q in me.rep.files ==> q in after.rep.files && after.rep.files[q] == me.rep.files[q])
            && (!me.cfg.keepBoth ==> after == me)
  {
    if order != [] {
      NeededKeeps(me, remote, order[..|order| - 1]);
    }
  }

  lemma PulledAt(me: Peer, server: Peer, needed: seq<Path>, stamp: Path -> Time, p: Path)
    ensures var after := Pulled(me, server, needed, stamp);
            var stored := p in needed && Served(server, p).Some?;
            && after.cfg == me.cfg && after.pending == me.pending
            && Lookup(after.rep.entries, p) == (if stored then Some(server.rep.entries[p].(mtime := stamp(p)))
                                                else Lookup(me.rep.entries, p))
            && (p in after.rep.corrupted <==> p in me.rep.corrupted && !stored)
            && (p in after.rep.files <==> p in me.rep.files || stored)
            && (p in after.rep.files ==>
                  after.rep.files[p] == if stored then File(server.rep.files[p].content, stamp(p)) else me.rep.files[p])
  {
    if needed != [] {
      var last := |needed| - 1;
      PulledAt(me, server, needed[..last], stamp, p);
      assert needed == needed[..last] + [needed[last]];
    }
  }

  /** What reconciling a pushed version leaves at its own path. */
  function Arrived(cfg: Config, local: Option<Entry>, entry: Entry, stamp: Time): Option<Entry> {
    if local.None? || Verdict(local.value, entry) == AcceptRemote
       || (Verdict(local.value, entry) == Conflict && Concedes(cfg, local.value, entry))
    then Some(entry.(mtime := stamp)) else local
  }

  lemma IncomingAt(me: Peer, p: Path, entry: Entry, content: Content, stamp: Time, q: Path)
    requires !entry.deleted
    ensures var after := AfterIncoming(me, p, entry, content, stamp);
            && after.cfg == me.cfg && after.pending == me.pending
            && Lookup(after.rep.entries, q) ==
               (if q == p then Arrived(me.cfg, Lookup(me.rep.entries, p), entry, stamp) else Lookup(me.rep.entries, q))
            && (q in after.rep.corrupted ==> q in me.rep.corrupted)
            && (q != p ==> (q in after.rep.corrupted <==> q in me.rep.corrupted))
  {
  }

  /** No path in `order` would be pushed as a rename. */
  ghost predicate PlainPushes(me: Peer, names: Names, order: seq<Path>) {
    forall p :: p in order && Live(me.rep.entries, p) ==> !PushedAsRename(me, names, p)
  }

  /** A list of plain pushes acts on each path separately, once. */
  lemma PlainPushAt(b: Peer, a: Peer, remote: Index, names: Names, order: seq<Path>, stamp: Path -> Time, p: Path)
    requires forall i, j :: 0 <= i < j < |order| ==> order[i] != order[j]
    requires PlainPushes(a, names, order) && Backed(a.rep)
    ensures var after := ReceivedAll(b, PushList(a, remote, names, order), stamp);
            && after.cfg == b.cfg && after.pending == b.pending
            && (p in after.rep.corrupted ==> p in b.rep.corrupted)
            && Lookup(after.rep.entries, p) ==
               (if p in order && Pushed(a, remote, p) then Arrived(b.cfg, Lookup(b.rep.entries, p),
                   a.rep.entries[p], stamp(p))
                else Lookup(b.rep.entries, p))
  {
    if order != [] {
      var last := |order| - 1;
      var q := order[last];
      assert order == order[..last] + [q];
      PlainPushAt(b, a, remote, names, order[..last], stamp, p);
      PlainPushStep(ReceivedAll(b, PushList(a, remote, names, order[..last]), stamp), a, remote, names, q, stamp, p);
      ReceivedAppend(b, PushList(a, remote, names, order[..last]), PushOf(a, remote, names, q), stamp);
    }
  }

  lemma PlainPushStep(b: Peer, a: Peer, remote: Index, names: Names, q: Path, stamp: Path -> Time, p: Path)
    requires Backed(a.rep)
    requires Live(a.rep.entries, q) ==> !PushedAsRename(a, names, q)
    ensures var after := ReceivedAll(b, PushOf(a, remote, names, q), stamp);
            && after.cfg == b.cfg && after.pending == b.pending
            && (p in after.rep.corrupted ==> p in b.rep.corrupted)
            && Lookup(after.rep.entries, p) ==
               (if p == q && Pushed(a, remote, p)
                then Arrived(b.cfg, Lookup(b.rep.entries, p), a.rep.entries[p], stamp(p))
                else Lookup(b.rep.entries, p))
  {
    if Pushed(a, remote, q) {
      var msg := FileData(q, a.rep.files[q].content, a.rep.entries[q]);
      assert PushOf(a, remote, names, q) == [msg];
      assert ReceivedAll(b, [msg], stamp) == Received(ReceivedAll(b, [], stamp), msg, stamp);
      IncomingAt(b, q, a.rep.entries[q], a.rep.files[q].content, stamp(q), p);
    }
  }

  /** Receiving a longer list is receiving its parts one after the other. */
  lemma {:induction false} ReceivedAppend(b: Peer, msgs: seq<Message>, more: seq<Message>, stamp: Path -> Time)
    ensures ReceivedAll(b, msgs + more, stamp) == ReceivedAll(ReceivedAll(b, msgs, stamp), more, stamp)
  {
    if more == [] {
      assert msgs + more == msgs;
    } else {
      var last := |more| - 1;
      assert (msgs + more)[..|msgs + more| - 1] == msgs + more[..last];
      ReceivedAppend(b, msgs, more[..last], stamp);
    }
  }

  /* ---- Live entries stay backed by their files ---- */

  lemma StoredKeepsBacked(me: Peer, p: Path, entry: Entry, content: Content, stamp: Time)
    requires Backed(me.rep) && !entry.deleted && entry.checksum == Sha256(content)
    ensures Backed(Stored(me, p, entry, content, stamp).rep)
  {
  }

  lemma RenamedKeepsBacked(me: Peer, source: Path, target: Path, entry: Entry)
    requires Backed(me.rep) && source != target && !entry.deleted && entry.checksum != Blank
    ensures Backed(Renamed(me, source, target, entry).rep)
  {
  }

  lemma DeletionsKeepBacked(me: Peer, remote: Index, names: Names)
    requires Backed(me.rep) && PlainTombstones(remote)
    ensures Backed(AfterDeletions(me, remote, names).rep)
  {
    var after := AfterDeletions(me, remote, names);
    forall p | Live(after.rep.entries, p)
      ensures p in after.rep.files && after.rep.entries[p].checksum == Sha256(after.rep.files[p].content)
    {
      DeletionsAt(me, remote, names, p);
      assert Lookup(after.rep.entries, p) == Lookup(me.rep.entries, p);
    }
    forall p | Dead(after.rep.entries, p) ensures after.rep.entries[p].checksum == Blank
        && after.rep.entries[p].mtime == 0 {
      DeletionsAt(me, remote, names, p);
      assert Dead(me.rep.entries, p) || Dead(remote, p);
    }
  }

  lemma LocalRenamesKeepBacked(me: Peer, mine: Index, remote: Index, names: Names, order: seq<Path>)
    requires Backed(me.rep)
    requires SoundNames(names, remote)
    ensures Backed(AfterLocalRenames(me, mine, remote, names, order).rep)
  {
    if order != [] {
      var last := |order| - 1;
      LocalRenamesKeepBacked(me, mine, remote, names, order[..last]);
      var before := AfterLocalRenames(me, mine, remote, names, order[..last]);
      var p := order[last];
      if RenameDue(mine, remote, names, p) {
        var target := names[mine[p].checksum];
        RenamedKeepsBacked(before, p, target, remote[target]);
      }
    }
  }

  lemma CopyKeepsBacked(me: Peer, p: Path)
    requires Backed(me.rep)
    ensures Backed(WithCopy(me, p).rep)
  {
  }

  lemma NeededKeepsBacked(me: Peer, remote: Index, order: seq<Path>)
    requires Backed(me.rep)
    ensures Backed(AfterNeeded(me, remote, order).rep)
  {
    if order != [] {
      NeededKeepsBacked(me, remote, order[..|order| - 1]);
    }
  }

  lemma PulledKeepsBacked(me: Peer, server: Peer, needed: seq<Path>, stamp: Path -> Time)
    requires Backed(me.rep) && Backed(server.rep)
    ensures Backed(Pulled(me, server, needed, stamp).rep)
  {
    if needed != [] {
      var last := |needed| - 1;
      PulledKeepsBacked(me, server, needed[..last], stamp);
      var before := Pulled(me, server, needed[..last], stamp);
      var p := needed[last];
      if Served(server, p).Some? {
        StoredKeepsBacked(before, p, server.rep.entries[p], server.rep.files[p].content, stamp(p));
      }
    }
  }

  /** A message a truthful peer would push. */
  ghost predicate HonestPush(msg: Message) {
    match msg
    case FileData(p, content, entry) => !entry.deleted && entry.checksum == Sha256(content)
    case RenameFile(source, target, entry) => !entry.deleted && entry.checksum != Blank && source != target
    case _ => true
  }

  lemma PushesAreHonest(a: Peer, remote: Index, names: Names, order: seq<Path>)
    requires Backed(a.rep)
    ensures forall msg :: msg in PushList(a, remote, names, order) ==> HonestPush(msg)
    ensures forall msg :: msg in PushList(a, remote, names, order) ==>
              (msg.FileData? && msg.path in order && Live(a.rep.entries, msg.path))
              || (msg.RenameFile? && msg.target in order && Live(a.rep.entries, msg.target))
  {
    if order != [] {
      PushesAreHonest(a, remote, names, order[..|order| - 1]);
    }
  }

  lemma IncomingKeepsBacked(me: Peer, p: Path, entry: Entry, content: Content, stamp: Time)
    requires Backed(me.rep) && !entry.deleted && entry.checksum == Sha256(content)
    ensures Backed(AfterIncoming(me, p, entry, content, stamp).rep)
  {
    CopyKeepsBacked(me, p);
    StoredKeepsBacked(me, p, entry, content, stamp);
    StoredKeepsBacked(WithCopy(me, p), p, entry, content, stamp);
  }

  lemma {:induction false} ReceivedKeepsBacked(me: Peer, msgs: seq<Message>, stamp: Path -> Time)
    requires Backed(me.rep)
    requires forall msg :: msg in msgs ==> HonestPush(msg)
    ensures Backed(ReceivedAll(me, msgs, stamp).rep)
  {
    if msgs != [] {
      var last := |msgs| - 1;
      ReceivedKeepsBacked(me, msgs[..last], stamp);
      var before := ReceivedAll(me, msgs[..last], stamp);
      assert HonestPush(msgs[last]);
      match msgs[last] {
        case FileData(p, content, entry) => IncomingKeepsBacked(before, p, entry, content, stamp(p));
        case RenameFile(source, target, entry) => RenamedKeepsBacked(before, source, target, entry);
        case _ =>
      }
    }
  }

  lemma SessionKeepsBacked(a: Peer, b: Peer, env: Env)
    requires Backed(a.rep) && Backed(b.rep)
    ensures Backed(Session(a, b, env).0.rep) && Backed(Session(a, b, env).1.rep)
    ensures Backed(Informed(a, b.rep.entries, env).rep) && Backed(Ready(a, b.rep.entries, env).rep)
        && Backed(Greeted(b, a.rep.entries, env).rep)
  {
    var names := ListenerNames(b.rep.entries, env);
    DeletionsKeepBacked(b, a.rep.entries, InitiatorNames(a.rep.entries, env));
    DeletionsKeepBacked(a, b.rep.entries, names);
    var a1 := AfterDeletions(a, b.rep.entries, names);
    LocalRenamesKeepBacked(a1, a1.rep.entries, b.rep.entries, names, env.initiatorOrder(a1.rep.entries.Keys));
    NeededKeepsBacked(Informed(a, b.rep.entries, env), b.rep.entries, env.listenerOrder(b.rep.entries.Keys));
    PulledKeepsBacked(Ready(a, b.rep.entries, env), Greeted(b, a.rep.entries, env), Wants(a, b.rep.entries, env),
        env.initiatorStamp);
    var a4 := Refreshed(a, b, env);
    PushesAreHonest(a4, b.rep.entries, names, env.initiatorOrder(a4.rep.entries.Keys));
    ReceivedKeepsBacked(Greeted(b, a.rep.entries, env), Pushes(a, b, env), env.listenerStamp);
  }

  /* ---- Requests are answered ---- */

  /** A path the initiator asks for is still live at the listener in the very
      version its HELLO announced: it cannot be a path the listener has just
      deleted.  So it is served exactly when its file was there. */
  lemma WantedIsServed(a: Peer, b: Peer, env: Env, p: Path)
    requires p in Wants(a, b.rep.entries, env)
    ensures Live(b.rep.entries, p)
    ensures Served(Greeted(b, a.rep.entries, env), p)
            == if p in b.rep.files then Some(FileData(p, b.rep.files[p].content, b.rep.entries[p])) else None
  {
    var names := ListenerNames(b.rep.entries, env);
    var a1 := AfterDeletions(a, b.rep.entries, names);
    var a2 := Informed(a, b.rep.entries, env);
    NeededHas(a2, b.rep.entries, InitiatorNames(a2.rep.entries, env), env.listenerOrder(b.rep.entries.Keys), p);
    DeletionsAt(b, a.rep.entries, InitiatorNames(a.rep.entries, env), p);
    DeletionsAt(a, b.rep.entries, names, p);
    LocalRenamesAt(a1, a1.rep.entries, b.rep.entries, names, env.initiatorOrder(a1.rep.entries.Keys), p);
  }

  /* ---- The initiator after the pull ---- */

  lemma WantsAt(a: Peer, remote: Index, env: Env, p: Path)
    requires ValidEnv(env)
    ensures var a2 := Informed(a, remote, env);
            p in Wants(a, remote, env)
            <==> p in remote && Wanted(a2, remote, InitiatorNames(a2.rep.entries, env), p)
  {
    var a2 := Informed(a, remote, env);
    assert Enumerates(env.listenerOrder(remote.Keys), remote.Keys);
    NeededHas(a2, remote, InitiatorNames(a2.rep.entries, env), env.listenerOrder(remote.Keys), p);
  }

  /** A path asked for becomes the listener's; any other stays as it was when
      the requests were decided, except that conflict copies may appear. */
  lemma RefreshedAt(a: Peer, b: Peer, env: Env, p: Path)
    requires Backed(b.rep)
    ensures var a2, a4 := Informed(a, b.rep.entries, env), Refreshed(a, b, env);
            var got := p in Wants(a, b.rep.entries, env);
            && a4.cfg == a2.cfg && a4.pending == a2.pending
            && (got ==> Live(b.rep.entries, p) && p in b.rep.files)
            && Lookup(a4.rep.entries, p) == (if got then Some(b.rep.entries[p].(mtime := env.initiatorStamp(p)))
                                             else Lookup(a2.rep.entries, p))
            && (p in a4.rep.corrupted <==> p in a2.rep.corrupted && !got)
            && (got ==> p in a4.rep.files
                        && a4.rep.files[p] == File(b.rep.files[p].content, env.initiatorStamp(p)))
            && (!got && p in a2.rep.files ==> p in a4.rep.files && a4.rep.files[p] == a2.rep.files[p])
  {
    var remote := b.rep.entries;
    NeededKeeps(Informed(a, remote, env), remote, env.listenerOrder(remote.Keys));
    PulledAt(Ready(a, remote, env), Greeted(b, a.rep.entries, env), Wants(a, remote, env), env.initiatorStamp, p);
    if p in Wants(a, remote, env) {
      WantedIsServed(a, b, env, p);
    }
  }

  lemma InformedKeepsConfig(a: Peer, remote: Index, env: Env)
    ensures Informed(a, remote, env).cfg == a.cfg
  {
    var names := ListenerNames(remote, env);
    var a1 := AfterDeletions(a, remote, names);
    LocalRenamesAt(a1, a1.rep.entries, remote, names, env.initiatorOrder(a1.rep.entries.Keys), "f");
  }

  lemma SessionKeepsConfig(a: Peer, b: Peer, env: Env)
    ensures Session(a, b, env).0.cfg == a.cfg && Session(a, b, env).1.cfg == b.cfg
  {
    var names := ListenerNames(b.rep.entries, env);
    var a1 := AfterDeletions(a, b.rep.entries, names);
    var p: Path := "f";
    LocalRenamesAt(a1, a1.rep.entries, b.rep.entries, names, env.initiatorOrder(a1.rep.entries.Keys), p);
    NeededKeeps(Informed(a, b.rep.entries, env), b.rep.entries, env.listenerOrder(b.rep.entries.Keys));
    PulledAt(Ready(a, b.rep.entries, env), Greeted(b, a.rep.entries, env), Wants(a, b.rep.entries, env),
        env.initiatorStamp, p);
    ReceivedKeepsConfig(Greeted(b, a.rep.entries, env), Pushes(a, b, env), env.listenerStamp);
  }

  lemma ReceivedKeepsConfig(me: Peer, msgs: seq<Message>, stamp: Path -> Time)
    ensures ReceivedAll(me, msgs, stamp).cfg == me.cfg
    ensures ReceivedAll(me, msgs, stamp).pending == me.pending
  {
  }

  /** A live entry of the initiator comes from one of the two sides. */
  lemma InformedLiveOrigin(a: Peer, b: Peer, env: Env, p: Path)
    ensures var a2 := Informed(a, b.rep.entries, env).rep.entries;
            Live(a2, p) ==> (Live(a.rep.entries, p) && a.rep.entries[p].checksum == a2[p].checksum)
                            || (Live(b.rep.entries, p) && b.rep.entries[p].checksum == a2[p].checksum)
  {
    var remote := b.rep.entries;
    var names := ListenerNames(remote, env);
    var a1 := AfterDeletions(a, remote, names);
    DeletionsAt(a, remote, names, p);
    LocalRenamesAt(a1, a1.rep.entries, remote, names, env.initiatorOrder(a1.rep.entries.Keys), p);
  }

  lemma RefreshedLiveOrigin(a: Peer, b: Peer, env: Env, p: Path)
    requires Live(Refreshed(a, b, env).rep.entries, p)
    ensures var c := Refreshed(a, b, env).rep.entries[p].checksum;
            (Live(a.rep.entries, p) && a.rep.entries[p].checksum == c)
            || (Live(b.rep.entries, p) && b.rep.entries[p].checksum == c)
  {
    var remote := b.rep.entries;
    var b1 := Greeted(b, a.rep.entries, env);
    InformedLiveOrigin(a, b, env, p);
    DeletionsAt(b, a.rep.entries, InitiatorNames(a.rep.entries, env), p);
    NeededKeeps(Informed(a, remote, env), remote, env.listenerOrder(remote.Keys));
    PulledAt(Ready(a, remote, env), b1, Wants(a, remote, env), env.initiatorStamp, p);
  }

  /* ---- Paths the pushes do not touch ---- */

  ghost predicate Touches(msg: Message, p: Path) {
    match msg
    case FileData(q, _, _) => p == q
    case RenameFile(source, target, _) => p == source || p == target
    case _ => false
  }

  lemma UntouchedStep(me: Peer, msg: Message, stamp: Path -> Time, p: Path)
    requires !Touches(msg, p)
    ensures var after := Received(me, msg, stamp);
            && after.cfg == me.cfg
            && Lookup(after.rep.entries, p) == Lookup(me.rep.entries, p)
            && (p in me.rep.files ==> p in after.rep.files && after.rep.files[p] == me.rep.files[p])
  {
  }

  lemma {:induction false} UntouchedStays(me: Peer, msgs: seq<Message>, stamp: Path -> Time, p: Path)
    requires forall msg :: msg in msgs ==> !Touches(msg, p)
    ensures var after := ReceivedAll(me, msgs, stamp);
            && after.cfg == me.cfg
            && Lookup(after.rep.entries, p) == Lookup(me.rep.entries, p)
            && (p in me.rep.files ==> p in after.rep.files && after.rep.files[p] == me.rep.files[p])
  {
    if msgs != [] {
      var last := |msgs| - 1;
      UntouchedStays(me, msgs[..last], stamp, p);
      assert !Touches(msgs[last], p);
      UntouchedStep(ReceivedAll(me, msgs[..last], stamp), msgs[last], stamp, p);
    }
  }

  /** Which message concerns which path. */
  lemma PushedFrom(a: Peer, remote: Index, names: Names, order: seq<Path>, msg: Message)
    requires msg in PushList(a, remote, names, order)
    ensures exists p :: p in order && msg in PushOf(a, remote, names, p)
  {
    var last := |order| - 1;
    if msg in PushList(a, remote, names, order[..last]) {
      PushedFrom(a, remote, names, order[..last], msg);
      var p :| p in order[..last] && msg in PushOf(a, remote, names, p);
      assert p in order;
    } else {
      assert msg in PushOf(a, remote, names, order[last]);
    }
  }

  /** The path a pushed message is for. */
  function PushTarget(msg: Message): Path
    requires msg.FileData? || msg.RenameFile?
  {
    if msg.FileData? then msg.path else msg.target
  }

  lemma OnePush(me: Peer, remote: Index, names: Names, p: Path)
    ensures var msgs := PushOf(me, remote, names, p);
            |msgs| <= 1 && (msgs != [] ==> (msgs[0].FileData? || msgs[0].RenameFile?) && PushTarget(msgs[0]) == p)
  {
  }

  /** Likewise the pushes, at most one message for each visit. */
  lemma {:induction false} PushesFollow(me: Peer, remote: Index, names: Names, order: seq<Path>)
    returns (at: seq<nat>)
    ensures var msgs := PushList(me, remote, names, order);
            && |at| == |msgs|
            && (forall i :: 0 <= i < |at| ==> at[i] < |order| && (msgs[i].FileData? || msgs[i].RenameFile?)
                                              && PushTarget(msgs[i]) == order[at[i]])
    ensures forall i, j :: 0 <= i < j < |at| ==> at[i] < at[j]
  {
    if order == [] {
      at := [];
    } else {
      var last := |order| - 1;
      at := PushesFollow(me, remote, names, order[..last]);
      OnePush(me, remote, names, order[last]);
      if PushOf(me, remote, names, order[last]) != [] {
        at := at + [last];
      }
    }
  }

  /** No path is pushed twice in a session. */
  lemma PushesDistinct(a: Peer, b: Peer, env: Env, i: nat, j: nat)
    requires ValidEnv(env) && i < j < |Pushes(a, b, env)|
    ensures var msgs := Pushes(a, b, env);
            && (msgs[i].FileData? || msgs[i].RenameFile?) && (msgs[j].FileData? || msgs[j].RenameFile?)
            && PushTarget(msgs[i]) != PushTarget(msgs[j])
  {
    var a4 := Refreshed(a, b, env);
    var order := env.initiatorOrder(a4.rep.entries.Keys);
    assert Enumerates(order, a4.rep.entries.Keys);
    var at := PushesFollow(a4, b.rep.entries, ListenerNames(b.rep.entries, env), order);
  }

  /** Whatever the initiator pushes, an entry of the listener stays, or takes over
      the initiator's live one, or is buried where the initiator's is dead. */
  lemma {:induction false} PushesAt(b: Peer, a: Peer, remote: Index, names: Names, order: seq<Path>,
      stamp: Path -> Time, p: Path)
    ensures var after := ReceivedAll(b, PushList(a, remote, names, order), stamp).rep.entries;
            || Lookup(after, p) == Lookup(b.rep.entries, p)
            || (Dead(after, p) && Dead(a.rep.entries, p))
            || (Live(a.rep.entries, p) && p in after && after[p] == a.rep.entries[p].(mtime := after[p].mtime))
  {
    if order != [] {
      var last := |order| - 1;
      var msgs, more := PushList(a, remote, names, order[..last]), PushOf(a, remote, names, order[last]);
      PushesAt(b, a, remote, names, order[..last], stamp, p);
      ReceivedAppend(b, msgs, more, stamp);
      PushAt(ReceivedAll(b, msgs, stamp), a, remote, names, order[last], stamp, p);
    }
  }

  lemma PushAt(b: Peer, a: Peer, remote: Index, names: Names, q: Path, stamp: Path -> Time, p: Path)
    ensures var after := ReceivedAll(b, PushOf(a, remote, names, q), stamp).rep.entries;
            || Lookup(after, p) == Lookup(b.rep.entries, p)
            || (Dead(after, p) && Dead(a.rep.entries, p))
            || (Live(a.rep.entries, p) && p in after && after[p] == a.rep.entries[p].(mtime := after[p].mtime))
  {
    var msgs := PushOf(a, remote, names, q);
    if msgs != [] {
      assert ReceivedAll(b, msgs, stamp) == Received(ReceivedAll(b, [], stamp), msgs[0], stamp);
    }
  }
}
