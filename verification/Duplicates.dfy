/** Where duplicate contents and repeated clocks defeat convergence. */
module Duplicates {
  import opened Options
  import opened VectorClocks
  import opened FileIndexes
  import opened Decisions
  import opened Sessions
  import opened StepFacts
  import opened PlainSessions
  import opened Renames
  import opened Convergence

  /* ---- A second name for a known content ---- */

  /** A path the initiator does not hold live is asked for exactly when no live
      path carries its content and its tombstone, if any, is strictly older. */
  lemma MissingPathAskedIff(a: Peer, b: Peer, env: Env, q: Path)
    requires ValidEnv(env) && Live(b.rep.entries, q) && b.rep.entries[q].checksum != Blank
    requires !Live(Informed(a, b.rep.entries, env).rep.entries, q)
    ensures var mine, theirs := Informed(a, b.rep.entries, env).rep.entries, b.rep.entries[q];
            q in Wants(a, b.rep.entries, env)
            <==> && (forall r :: Live(mine, r) ==> mine[r].checksum != theirs.checksum)
                 && (q in mine ==> Before(mine[q].clock, theirs.clock))
  {
    var mine, c := Informed(a, b.rep.entries, env).rep.entries, b.rep.entries[q].checksum;
    var own := InitiatorNames(mine, env);
    WantsAt(a, b.rep.entries, env, q);
    assert Enumerates(env.initiatorOrder(mine.Keys), mine.Keys);
    NamesOfIsNames(env.initiatorOrder(mine.Keys), mine);
    if c in own {
      assert Live(mine, own[c]) && mine[own[c]].checksum == c;
    }
  }

  /** No live path of one side with content `c` is deleted on the other. */
  ghost predicate NotMoved(x: Index, y: Index, c: Checksum) {
    forall s :: !(Live(x, s) && x[s].checksum == c && Dead(y, s)) && !(Live(y, s) && y[s].checksum == c && Dead(x, s))
  }

  /** `a` holds a content under `p` and does not know `q`; `b` holds it under `q`
      and, if it knows `p`, there in the same version.  Whatever else the two
      hold, no path with that content is on the move. */
  ghost predicate Shadowed(a: Peer, b: Peer, p: Path, q: Path) {
    var x, y := a.rep.entries, b.rep.entries;
    && p != q && Backed(a.rep) && Backed(b.rep)
    && Live(x, p) && p !in a.rep.corrupted && q !in x
    && Live(y, q) && y[q].checksum == x[p].checksum
    && (p in y ==> Live(y, p) && SameHistory(y[p].clock, x[p].clock) && y[p].checksum == x[p].checksum)
    && NotMoved(x, y, x[p].checksum)
  }

  /** Sessions that `a` initiates one after the other. */
  function Repeated(a: Peer, b: Peer, envs: seq<Env>): (Peer, Peer) {
    if envs == [] then (a, b)
    else
      var (a', b') := Repeated(a, b, envs[..|envs| - 1]);
      Session(a', b', envs[|envs| - 1])
  }

  /** Before it pulls, the initiator has touched neither path. */
  lemma ShadowedInformed(a: Peer, b: Peer, env: Env, p: Path, q: Path)
    requires ValidEnv(env) && Shadowed(a, b, p, q)
    ensures var a2 := Informed(a, b.rep.entries, env);
            && Lookup(a2.rep.entries, p) == Lookup(a.rep.entries, p) && p !in a2.rep.corrupted
            && q !in a2.rep.entries
  {
    var remote := b.rep.entries;
    var names := ListenerNames(remote, env);
    var a1 := AfterDeletions(a, remote, names);
    var order := env.initiatorOrder(a1.rep.entries.Keys);
    assert Enumerates(order, a1.rep.entries.Keys);
    DeletionsKeepBacked(a, remote, names);
    DeletionsAt(a, remote, names, p);
    DeletionsAt(a, remote, names, q);
    LocalRenamesOutcome(a1, remote, names, order, p);
    LocalRenamesOutcome(a1, remote, names, order, q);
    forall s | s in order && RenameDue(a1.rep.entries, remote, names, s)
      ensures a1.rep.entries[s].checksum != a.rep.entries[p].checksum
    {
      DeletionsAt(a, remote, names, s);
    }
    assert !Targeted(a1.rep.entries, remote, names, order, p);
    assert !Targeted(a1.rep.entries, remote, names, order, q);
  }

  /** ... and the pull touches neither. */
  lemma ShadowedInitiator(a: Peer, b: Peer, env: Env, p: Path, q: Path)
    requires ValidEnv(env) && Shadowed(a, b, p, q)
    ensures p !in Wants(a, b.rep.entries, env) && q !in Wants(a, b.rep.entries, env)
    ensures var a4 := Refreshed(a, b, env);
            && Lookup(a4.rep.entries, p) == Lookup(a.rep.entries, p) && p !in a4.rep.corrupted
            && q !in a4.rep.entries
  {
    ShadowedInformed(a, b, env, p, q);
    MissingPathAskedIff(a, b, env, q);
    WantsAt(a, b.rep.entries, env, p);
    RefreshedAt(a, b, env, p);
    RefreshedAt(a, b, env, q);
  }

  /** Where the entries of a session come from, path by path. */
  lemma InitiatorOrigins(a: Peer, b: Peer, env: Env, s: Path)
    requires Backed(b.rep)
    ensures var x, y, x' := a.rep.entries, b.rep.entries, Refreshed(a, b, env).rep.entries;
            || Lookup(x', s) == Lookup(x, s)
            || (Dead(x', s) && Dead(y, s))
            || (Live(x', s) && Live(y, s) && x'[s].checksum == y[s].checksum)
  {
    var remote := b.rep.entries;
    var names := ListenerNames(remote, env);
    var a1 := AfterDeletions(a, remote, names);
    DeletionsAt(a, remote, names, s);
    LocalRenamesAt(a1, a1.rep.entries, remote, names, env.initiatorOrder(a1.rep.entries.Keys), s);
    RefreshedAt(a, b, env, s);
  }

  lemma ListenerOrigins(a: Peer, b: Peer, env: Env, s: Path)
    ensures var x, y, x', y' := a.rep.entries, b.rep.entries,
                Refreshed(a, b, env).rep.entries, Supplied(a, b, env).rep.entries;
            || Lookup(y', s) == Lookup(y, s)
            || (Dead(y', s) && (Dead(x, s) || Dead(x', s)))
            || (Live(y', s) && Live(x', s) && y'[s].checksum == x'[s].checksum)
  {
    var remote, a4 := b.rep.entries, Refreshed(a, b, env);
    DeletionsAt(b, a.rep.entries, InitiatorNames(a.rep.entries, env), s);
    PushesAt(Greeted(b, a.rep.entries, env), a4, remote, ListenerNames(remote, env),
             env.initiatorOrder(a4.rep.entries.Keys), env.listenerStamp, s);
  }

  lemma StaysNotMoved(a: Peer, b: Peer, env: Env, c: Checksum)
    requires Backed(b.rep) && NotMoved(a.rep.entries, b.rep.entries, c)
    ensures NotMoved(Refreshed(a, b, env).rep.entries, Supplied(a, b, env).rep.entries, c)
  {
    var x', y' := Refreshed(a, b, env).rep.entries, Supplied(a, b, env).rep.entries;
    forall s
      ensures !(Live(x', s) && x'[s].checksum == c && Dead(y', s)) && !(Live(y', s) && y'[s].checksum == c
          && Dead(x', s))
    {
      InitiatorOrigins(a, b, env, s);
      ListenerOrigins(a, b, env, s);
    }
  }

  /** Of all the pushes only a plain one of `p` itself concerns `p` or `q`. */
  lemma ShadowedPushes(a: Peer, b: Peer, a4: Peer, names: Names, order: seq<Path>, p: Path, q: Path, msg: Message)
    requires SoundNames(names, b.rep.entries) && Shadowed(a, b, p, q)
    requires Lookup(a4.rep.entries, p) == Lookup(a.rep.entries, p) && q !in a4.rep.entries
    requires NotMoved(a4.rep.entries, b.rep.entries, a.rep.entries[p].checksum)
    requires msg in PushList(a4, b.rep.entries, names, order)
    ensures !Touches(msg, q)
    ensures Touches(msg, p) ==> p !in b.rep.entries && msg.FileData? && msg.entry == a.rep.entries[p]
  {
    PushedFrom(a4, b.rep.entries, names, order, msg);
    var s :| s in order && msg in PushOf(a4, b.rep.entries, names, s);
    if s == p && p !in b.rep.entries {
      var c := a.rep.entries[p].checksum;
      assert c in names ==> Live(b.rep.entries, names[c]) && b.rep.entries[names[c]].checksum == c;
    }
  }

  /** What such pushes make of the listener's `p`. */
  lemma {:induction false} ReceivedShadow(me: Peer, msgs: seq<Message>, entry: Entry, stamp: Path -> Time, p: Path)
    requires forall msg :: msg in msgs && Touches(msg, p) ==> msg.FileData? && msg.entry == entry
    requires !entry.deleted
    ensures var before, after := Lookup(me.rep.entries, p), Lookup(ReceivedAll(me, msgs, stamp).rep.entries, p);
            after == before || (after.Some? && after.value == entry.(mtime := after.value.mtime))
  {
    if msgs != [] {
      var last := |msgs| - 1;
      ReceivedShadow(me, msgs[..last], entry, stamp, p);
      if Touches(msgs[last], p) {
        assert msgs[last] in msgs;
      } else {
        UntouchedStep(ReceivedAll(me, msgs[..last], stamp), msgs[last], stamp, p);
      }
    }
  }

  lemma ShadowedListener(a: Peer, b: Peer, a4: Peer, env: Env, p: Path, q: Path)
    requires Shadowed(a, b, p, q)
    requires Lookup(a4.rep.entries, p) == Lookup(a.rep.entries, p) && q !in a4.rep.entries
    requires NotMoved(a4.rep.entries, b.rep.entries, a.rep.entries[p].checksum)
    ensures var b2 := ReceivedAll(Greeted(b, a.rep.entries, env), Offered(a4, b.rep.entries, env), env.listenerStamp);
            var before, after := Lookup(b.rep.entries, p), Lookup(b2.rep.entries, p);
            && Lookup(b2.rep.entries, q) == Lookup(b.rep.entries, q)
            && (|| after == before
                || (after.Some? && after.value == a.rep.entries[p].(mtime := after.value.mtime)))
  {
    var remote, b1 := b.rep.entries, Greeted(b, a.rep.entries, env);
    var msgs := Offered(a4, remote, env);
    forall msg | msg in msgs
      ensures !Touches(msg, q)
      ensures Touches(msg, p) ==> msg.FileData? && msg.entry == a.rep.entries[p]
    {
      ShadowedPushes(a, b, a4, ListenerNames(remote, env), env.initiatorOrder(a4.rep.entries.Keys), p, q, msg);
    }
    DeletionsAt(b, a.rep.entries, InitiatorNames(a.rep.entries, env), p);
    DeletionsAt(b, a.rep.entries, InitiatorNames(a.rep.entries, env), q);
    UntouchedStays(b1, msgs, env.listenerStamp, q);
    ReceivedShadow(b1, msgs, a.rep.entries[p], env.listenerStamp, p);
  }

  /** A session the initiator of such a pair starts leaves the situation as it is. */
  lemma StaysShadowed(a: Peer, b: Peer, env: Env, p: Path, q: Path)
    requires ValidEnv(env) && Shadowed(a, b, p, q)
    ensures Shadowed(Session(a, b, env).0, Session(a, b, env).1, p, q)
  {
    var a4 := Refreshed(a, b, env);
    SessionKeepsBacked(a, b, env);
    ShadowedInitiator(a, b, env, p, q);
    StaysNotMoved(a, b, env, a.rep.entries[p].checksum);
    PulledNotMoved(a, b, env, a.rep.entries[p].checksum);
    ShadowedListener(a, b, a4, env, p, q);
  }

  lemma PulledNotMoved(a: Peer, b: Peer, env: Env, c: Checksum)
    requires Backed(b.rep) && NotMoved(a.rep.entries, b.rep.entries, c)
    ensures NotMoved(Refreshed(a, b, env).rep.entries, b.rep.entries, c)
  {
    var x', y := Refreshed(a, b, env).rep.entries, b.rep.entries;
    forall s
      ensures !(Live(x', s) && x'[s].checksum == c && Dead(y, s)) && !(Live(y, s) && y[s].checksum == c
          && Dead(x', s))
    {
      InitiatorOrigins(a, b, env, s);
    }
  }

  lemma {:induction false} ShadowedForever(a: Peer, b: Peer, envs: seq<Env>, p: Path, q: Path)
    requires Shadowed(a, b, p, q) && forall k :: 0 <= k < |envs| ==> ValidEnv(envs[k])
    ensures var both := Repeated(a, b, envs); Shadowed(both.0, both.1, p, q)
  {
    if envs != [] {
      var last := |envs| - 1;
      var before := Repeated(a, b, envs[..last]);
      ShadowedForever(a, b, envs[..last], p, q);
      StaysShadowed(before.0, before.1, envs[last], p, q);
    }
  }

  /** Duplicate content defeats one-way convergence, whatever else the two nodes
      hold: however many sessions `a` initiates, the second name of its content
      never reaches it. */
  lemma DuplicateNeverArrives(a: Peer, b: Peer, envs: seq<Env>, p: Path, q: Path)
    requires Shadowed(a, b, p, q) && forall k :: 0 <= k < |envs| ==> ValidEnv(envs[k])
    ensures var both := Repeated(a, b, envs);
            && q !in both.0.rep.entries && Live(both.1.rep.entries, q)
            && LiveView(both.0.rep.entries) != LiveView(both.1.rep.entries)
  {
    var both := Repeated(a, b, envs);
    ShadowedForever(a, b, envs, p, q);
    assert q !in LiveView(both.0.rep.entries) && q in LiveView(both.1.rep.entries);
  }

  /* ---- ... but one session from the other side brings it ---- */

  lemma HolderKeeps(b: Peer, a: Peer, env: Env, p: Path, q: Path)
    requires ValidEnv(env) && Shadowed(a, b, p, q)
    ensures Lookup(Refreshed(b, a, env).rep.entries, q) == Lookup(b.rep.entries, q)
  {
    var remote := a.rep.entries;
    var names := ListenerNames(remote, env);
    var b1 := AfterDeletions(b, remote, names);
    var order := env.initiatorOrder(b1.rep.entries.Keys);
    assert Enumerates(order, b1.rep.entries.Keys);
    DeletionsKeepBacked(b, remote, names);
    DeletionsAt(b, remote, names, q);
    LocalRenamesOutcome(b1, remote, names, order, q);
    RefreshedAt(b, a, env, q);
    WantsAt(b, remote, env, q);
  }

  /** Another push has nothing to do with a path the listener does not know. */
  lemma UnknownUntouched(b4: Peer, remote: Index, names: Names, order: seq<Path>, q: Path)
    requires SoundNames(names, remote) && q !in remote && q !in order
    ensures forall msg :: msg in PushList(b4, remote, names, order) ==> !Touches(msg, q)
  {
    forall msg | msg in PushList(b4, remote, names, order) ensures !Touches(msg, q) {
      PushedFrom(b4, remote, names, order, msg);
      var s :| s in order && msg in PushOf(b4, remote, names, s);
    }
  }

  lemma UnknownPushed(a1: Peer, b4: Peer, remote: Index, names: Names, order: seq<Path>, stamp: Path -> Time, q: Path)
    requires SoundNames(names, remote) && q !in remote && Enumerates(order, b4.rep.entries.Keys)
    requires Live(b4.rep.entries, q) && q in b4.rep.files && !PushedAsRename(b4, names, q) && q !in a1.rep.entries
    ensures Lookup(ReceivedAll(a1, PushList(b4, remote, names, order), stamp).rep.entries, q)
            == Some(b4.rep.entries[q].(mtime := stamp(q)))
  {
    var before, after := SplitAt(order, q);
    var msg := FileData(q, b4.rep.files[q].content, b4.rep.entries[q]);
    var pre, post := PushList(b4, remote, names, before), PushList(b4, remote, names, after);
    PushListSplit(b4, remote, names, before + [q], after);
    PushListLast(b4, remote, names, before, q);
    assert PushOf(b4, remote, names, q) == [msg];
    UnknownUntouched(b4, remote, names, before, q);
    UnknownUntouched(b4, remote, names, after, q);
    ReceivedAppend(a1, pre + [msg], post, stamp);
    ReceivedAppend(a1, pre, [msg], stamp);
    UntouchedStays(a1, pre, stamp, q);
    var a2 := ReceivedAll(a1, pre, stamp);
    assert ReceivedAll(a2, [msg], stamp) == Received(ReceivedAll(a2, [], stamp), msg, stamp);
    UntouchedStays(ReceivedAll(a2, [msg], stamp), post, stamp, q);
  }

  /** The holder does not take its second name for a move of the first. */
  lemma SecondNameIsNoMove(a: Peer, b: Peer, env: Env, names: Names, p: Path, q: Path)
    requires Shadowed(a, b, p, q) && SoundNames(names, a.rep.entries)
    requires Lookup(Refreshed(b, a, env).rep.entries, q) == Lookup(b.rep.entries, q)
    ensures !PushedAsRename(Refreshed(b, a, env), names, q)
  {
    var c := b.rep.entries[q].checksum;
    if c in names {
      InitiatorOrigins(b, a, env, names[c]);
    }
  }

  /** One session that the holder of both names initiates delivers the second. */
  lemma DuplicateArrives(a: Peer, b: Peer, env: Env, p: Path, q: Path)
    requires ValidEnv(env) && Shadowed(a, b, p, q)
    ensures var (b', a') := Session(b, a, env);
            && Live(a'.rep.entries, q) && a'.rep.entries[q].checksum == b.rep.entries[q].checksum
            && Lookup(b'.rep.entries, q) == Lookup(b.rep.entries, q)
  {
    var remote, b4 := a.rep.entries, Refreshed(b, a, env);
    var names := ListenerNames(remote, env);
    var order := env.initiatorOrder(b4.rep.entries.Keys);
    assert Enumerates(order, b4.rep.entries.Keys);
    SessionKeepsBacked(b, a, env);
    HolderKeeps(b, a, env, p, q);
    DeletionsAt(a, b.rep.entries, InitiatorNames(b.rep.entries, env), q);
    SecondNameIsNoMove(a, b, env, names, p, q);
    UnknownPushed(Greeted(a, b.rep.entries, env), b4, remote, names, order, env.listenerStamp, q);
  }

  /* ---- Two-way: a file renamed into two ---- */

  /** `a` knows one file; `b` has deleted it and holds its content under two new
      names. */
  ghost predicate RenamedIntoTwo(a: Peer, b: Peer, s: Path, t: Path, u: Path) {
    var x, y := a.rep.entries, b.rep.entries;
    && s != t && s != u && t != u && Backed(a.rep) && Backed(b.rep)
    && x.Keys == {s} && y.Keys == {s, t, u}
    && Live(x, s) && Dead(y, s) && Live(y, t) && Live(y, u)
    && y[t].checksum == y[u].checksum == x[s].checksum
  }

  lemma TwoNamesAnnounced(a: Peer, b: Peer, env: Env, s: Path, t: Path, u: Path)
    requires ValidEnv(env) && RenamedIntoTwo(a, b, s, t, u)
    ensures Refreshed(b, a, env).rep.entries == b.rep.entries
    ensures forall p :: Lookup(Greeted(a, b.rep.entries, env).rep.entries, p) == Lookup(a.rep.entries, p)
    ensures s in Greeted(a, b.rep.entries, env).rep.files
  {
    var remote, b4 := a.rep.entries, Refreshed(b, a, env);
    var names := InitiatorNames(b.rep.entries, env);
    assert Enumerates(env.initiatorOrder(b.rep.entries.Keys), b.rep.entries.Keys);
    NamesOfIsNames(env.initiatorOrder(b.rep.entries.Keys), b.rep.entries);
    forall p ensures Lookup(Greeted(a, b.rep.entries, env).rep.entries, p) == Lookup(a.rep.entries, p) {
      DeletionsAt(a, b.rep.entries, names, p);
    }
    DeletionsAt(a, b.rep.entries, names, s);
    forall p ensures Lookup(b4.rep.entries, p) == Lookup(b.rep.entries, p) {
      TwoNamesKept(a, b, env, s, t, u, p);
    }
    SameLookups(b4.rep.entries, b.rep.entries);
  }

  lemma TwoNamesKept(a: Peer, b: Peer, env: Env, s: Path, t: Path, u: Path, p: Path)
    requires ValidEnv(env) && RenamedIntoTwo(a, b, s, t, u)
    ensures Lookup(Refreshed(b, a, env).rep.entries, p) == Lookup(b.rep.entries, p)
  {
    var remote := a.rep.entries;
    var b1 := AfterDeletions(b, remote, ListenerNames(remote, env));
    assert NoReplay(b, remote, env);
    InformedByDeletions(b, remote, env);
    DeletionsAt(b, remote, ListenerNames(remote, env), p);
    DeletionsAt(b, remote, ListenerNames(remote, env), s);
    DeletionsAt(b, remote, ListenerNames(remote, env), t);
    RefreshedAt(b, a, env, p);
    WantsAt(b, remote, env, p);
    assert Enumerates(env.initiatorOrder(b1.rep.entries.Keys), b1.rep.entries.Keys);
    NamesOfIsNames(env.initiatorOrder(b1.rep.entries.Keys), b1.rep.entries);
  }

  /** `remote` knows the content of `r` as `s`, which is dead here. */
  ghost predicate MovedTo(mine: Index, remote: Index, names: Names, s: Path, r: Path) {
    && Live(mine, r) && r !in remote && Dead(mine, s) && mine[r].checksum != Blank
    && mine[r].checksum in names && names[mine[r].checksum] == s
  }

  lemma MovedIsRenamePush(b4: Peer, remote: Index, names: Names, s: Path, r: Path)
    requires MovedTo(b4.rep.entries, remote, names, s, r)
    ensures PushOf(b4, remote, names, r) == [RenameFile(s, r, b4.rep.entries[r])]
  {
  }

  lemma OnlyRenamePushed(b4: Peer, remote: Index, names: Names, s: Path, t: Path, u: Path, p: Path, msg: Message)
    requires p in b4.rep.entries.Keys && b4.rep.entries.Keys == {s, t, u} && msg in PushOf(b4, remote, names, p)
    requires MovedTo(b4.rep.entries, remote, names, s, t) && MovedTo(b4.rep.entries, remote, names, s, u)
    ensures msg == RenameFile(s, t, b4.rep.entries[t]) || msg == RenameFile(s, u, b4.rep.entries[u])
  {
    MovedIsRenamePush(b4, remote, names, s, t);
    MovedIsRenamePush(b4, remote, names, s, u);
    assert p != s;
  }

  /** Everything pushed is a rename away from `s`. */
  lemma OnlyRenamesPushed(b4: Peer, remote: Index, names: Names, order: seq<Path>, s: Path, t: Path, u: Path)
    requires Enumerates(order, b4.rep.entries.Keys) && b4.rep.entries.Keys == {s, t, u}
    requires MovedTo(b4.rep.entries, remote, names, s, t) && MovedTo(b4.rep.entries, remote, names, s, u)
    ensures var msgs := PushList(b4, remote, names, order);
            && msgs != []
            && forall msg :: msg in msgs ==> msg.RenameFile? && msg.source == s && msg.target in {t, u}
                                             && msg.entry == b4.rep.entries[msg.target]
  {
    forall msg | msg in PushList(b4, remote, names, order)
      ensures msg == RenameFile(s, t, b4.rep.entries[t]) || msg == RenameFile(s, u, b4.rep.entries[u])
    {
      PushedFrom(b4, remote, names, order, msg);
      var p :| p in order && msg in PushOf(b4, remote, names, p);
      OnlyRenamePushed(b4, remote, names, s, t, u, p, msg);
    }
    MovedIsRenamePush(b4, remote, names, s, t);
    SomethingPushed(b4, remote, names, order, t);
  }

  lemma SomethingPushed(b4: Peer, remote: Index, names: Names, order: seq<Path>, t: Path)
    requires Enumerates(order, b4.rep.entries.Keys) && t in b4.rep.entries && PushOf(b4, remote, names, t) != []
    ensures PushList(b4, remote, names, order) != []
  {
    var before, after := SplitAt(order, t);
    PushListSplit(b4, remote, names, before + [t], after);
    PushListLast(b4, remote, names, before, t);
  }

  /** Only the first of several renames of one source finds it. */
  lemma {:induction false} FirstRenameWins(me: Peer, msgs: seq<Message>, stamp: Path -> Time, s: Path, c: Checksum)
    requires msgs != [] && Live(me.rep.entries, s) && s in me.rep.files && me.rep.entries[s].checksum == c
    requires forall msg :: msg in msgs ==> msg.RenameFile? && msg.source == s && msg.target != s
                                           && msg.entry.checksum == c && !msg.entry.deleted
    ensures ReceivedAll(me, msgs, stamp) == Renamed(me, s, msgs[0].target, msgs[0].entry)
    ensures s !in ReceivedAll(me, msgs, stamp).rep.files
  {
    var last := |msgs| - 1;
    assert msgs[last] in msgs;
    if last == 0 {
      assert msgs[..last] == [];
    } else {
      FirstRenameWins(me, msgs[..last], stamp, s, c);
    }
  }

  lemma OneOfTwoReceived(a: Peer, b: Peer, b4: Peer, a1: Peer, env: Env, s: Path, t: Path, u: Path)
    returns (p: Path, q: Path)
    requires ValidEnv(env) && RenamedIntoTwo(a, b, s, t, u) && b4.rep.entries == b.rep.entries
    requires Lookup(a1.rep.entries, s) == Lookup(a.rep.entries, s) && s in a1.rep.files
    ensures (p == t && q == u) || (p == u && q == t)
    ensures ReceivedAll(a1, Offered(b4, a.rep.entries, env), env.listenerStamp) == Renamed(a1, s, p, b.rep.entries[p])
  {
    var remote := a.rep.entries;
    var names := ListenerNames(remote, env);
    var order := env.initiatorOrder(b4.rep.entries.Keys);
    assert Enumerates(order, b4.rep.entries.Keys);
    assert Enumerates(env.listenerOrder(remote.Keys), remote.Keys);
    NamesOfIsNames(env.listenerOrder(remote.Keys), remote);
    assert names[remote[s].checksum] == s;
    OnlyRenamesPushed(b4, remote, names, order, s, t, u);
    var msgs := Offered(b4, remote, env);
    assert msgs[0] in msgs;
    p := msgs[0].target;
    q := if p == t then u else t;
    FirstRenameWins(a1, msgs, env.listenerStamp, s, remote[s].checksum);
  }

  /** The first session: the listener learns only one of the two names. */
  lemma OneOfTwoArrives(a: Peer, b: Peer, env: Env, s: Path, t: Path, u: Path) returns (p: Path, q: Path)
    requires ValidEnv(env) && RenamedIntoTwo(a, b, s, t, u)
    ensures (p == t && q == u) || (p == u && q == t)
    ensures var (b', a') := Session(b, a, env); Shadowed(a', b', p, q)
  {
    var b4, a1 := Refreshed(b, a, env), Greeted(a, b.rep.entries, env);
    SessionKeepsBacked(b, a, env);
    TwoNamesAnnounced(a, b, env, s, t, u);
    assert Lookup(a1.rep.entries, s) == Lookup(a.rep.entries, s);
    p, q := OneOfTwoReceived(a, b, b4, a1, env, s, t, u);
    TwoNamesEitherWay(a, b, s, t, u);
    OneRenamed(a, b, a1, Supplied(b, a, env), b4, s, p, q);
  }

  lemma TwoNamesEitherWay(a: Peer, b: Peer, s: Path, t: Path, u: Path)
    requires RenamedIntoTwo(a, b, s, t, u)
    ensures RenamedIntoTwo(a, b, s, u, t)
  {
  }

  lemma OneRenamed(a: Peer, b: Peer, a1: Peer, a': Peer, b': Peer, s: Path, p: Path, q: Path)
    requires RenamedIntoTwo(a, b, s, p, q) && b'.rep.entries == b.rep.entries && Backed(a'.rep) && Backed(b'.rep)
    requires forall r :: Lookup(a1.rep.entries, r) == Lookup(a.rep.entries, r)
    requires s in a1.rep.files && a' == Renamed(a1, s, p, b.rep.entries[p])
    ensures Shadowed(a', b', p, q)
  {
    var x', c := a'.rep.entries, a.rep.entries[s].checksum;
    assert Lookup(a1.rep.entries, s) == Lookup(a.rep.entries, s) && Lookup(a1.rep.entries, q) == None;
    forall r
      ensures r in x' ==> r == s || r == p
    {
      assert Lookup(a1.rep.entries, r) == Lookup(a.rep.entries, r);
    }
    assert Dead(x', s) && Live(x', p) && x'[p].checksum == c;
  }

  /** Renamed into two, a file defeats two-way convergence: after a session from
      each side, and any further ones from the side that knew one name, the live
      views still differ. */
  lemma RenamedIntoTwoDiverges(a: Peer, b: Peer, env: Env, envs: seq<Env>, s: Path, t: Path, u: Path)
    requires ValidEnv(env) && RenamedIntoTwo(a, b, s, t, u) && forall k :: 0 <= k < |envs| ==> ValidEnv(envs[k])
    ensures var both := Repeated(Session(b, a, env).1, Session(b, a, env).0, envs);
            LiveView(both.0.rep.entries) != LiveView(both.1.rep.entries)
  {
    var p, q := OneOfTwoArrives(a, b, env, s, t, u);
    DuplicateNeverArrives(Session(b, a, env).1, Session(b, a, env).0, envs, p, q);
  }

  /** The shortest such schedule, in the terms of the convergence results. */
  lemma PlanDiverges(a: Peer, b: Peer, env1: Env, env2: Env, s: Path, t: Path, u: Path)
    requires ValidEnv(env1) && ValidEnv(env2) && RenamedIntoTwo(a, b, s, t, u)
    ensures var plan := [Meeting(false, env1), Meeting(true, env2)];
            var both := AllMeetings(a, b, plan);
            && ValidPlan(plan) && Initiates(plan, true) && Initiates(plan, false)
            && LiveView(both.0.rep.entries) != LiveView(both.1.rep.entries)
  {
    BothInitiate(env1, env2);
    TwoMeetings(a, b, env1, env2);
    RenamedIntoTwoDiverges(a, b, env1, [env2], s, t, u);
  }

  lemma BothInitiate(env1: Env, env2: Env)
    requires ValidEnv(env1) && ValidEnv(env2)
    ensures var plan := [Meeting(false, env1), Meeting(true, env2)];
            ValidPlan(plan) && Initiates(plan, true) && Initiates(plan, false)
  {
    var plan := [Meeting(false, env1), Meeting(true, env2)];
    assert plan[0] in plan && plan[1] in plan;
  }

  lemma OneRepeated(a: Peer, b: Peer, env: Env)
    ensures Repeated(a, b, [env]) == Session(a, b, env)
  {
    assert [env][..0] == [];
    assert Repeated(a, b, [env][..0]) == (a, b);
  }

  lemma TwoMeetings(a: Peer, b: Peer, env1: Env, env2: Env)
    ensures AllMeetings(a, b, [Meeting(false, env1), Meeting(true, env2)])
            == Repeated(Session(b, a, env1).1, Session(b, a, env1).0, [env2])
  {
    var m1, m2 := Meeting(false, env1), Meeting(true, env2);
    assert [m1, m2][..1] == [m1] && [m1][..0] == [];
    assert AllMeetings(a, b, []) == (a, b);
    assert AllMeetings(a, b, [m1]) == Meet(a, b, m1);
    OneRepeated(Session(b, a, env1).1, Session(b, a, env1).0, env2);
  }

  /** A concrete pair of nodes: a file of `a`, and at `b` its tombstone and two
      copies. */
  lemma RenamedIntoTwoExists(s: Path, t: Path, u: Path) returns (a: Peer, b: Peer)
    requires s != t && s != u && t != u
    ensures RenamedIntoTwo(a, b, s, t, u) && Before(a.rep.entries[s].clock, b.rep.entries[s].clock)
    ensures a.cfg.id != b.cfg.id && a.cfg.syncDeletes && b.cfg.syncDeletes
    ensures a.rep.corrupted == {} && b.rep.corrupted == {} && HistoryTells(a.rep.entries, b.rep.entries)
  {
    var file, entry := File([1], 1), Entry(Digest([1]), 1, map["b" := 1], false);
    a := Peer(Config("a", false, true),
              Replica(map[s := Entry(Digest([1]), 1, map["a" := 1], false)], {}, map[s := file]), {});
    b := Peer(Config("b", false, true),
              Replica(map[s := Entry(Blank, 0, map["a" := 1, "b" := 1], true), t := entry, u := entry], {},
                      map[t := file, u := file]), {});
    assert "b" in b.rep.entries[s].clock;
    assert a.rep.entries.Keys == {s} && b.rep.entries.Keys == {s, t, u};
    assert Backed(a.rep) && Backed(b.rep);
  }

  /* ---- Twins: one history, two contents ---- */

  /** Both nodes hold `p` live with one history but different contents. */
  ghost predicate Twins(x: Index, y: Index, p: Path) {
    Live(x, p) && Live(y, p) && SameHistory(x[p].clock, y[p].clock) && x[p].checksum != y[p].checksum
  }

  /** Twins are never told apart: whatever the other paths do, a session in which
      no rename fires leaves both sides' entries as they are, unless the
      initiator has flagged its own as corrupted; then it takes the listener's. */
  lemma TwinsStayApartIff(a: Peer, b: Peer, env: Env, p: Path)
    requires ValidEnv(env) && NoRename(a, b, env) && Backed(a.rep) && Backed(b.rep)
    requires Twins(a.rep.entries, b.rep.entries, p)
    ensures var x', y' := Refreshed(a, b, env).rep.entries, Supplied(a, b, env).rep.entries;
            && Lookup(y', p) == Lookup(b.rep.entries, p)
            && (if p in a.rep.corrupted then p in x' && x'[p] == b.rep.entries[p].(mtime := env.initiatorStamp(p))
                else Lookup(x', p) == Lookup(a.rep.entries, p))
            && (Twins(x', y', p) <==> p !in a.rep.corrupted)
  {
    DeletionsAt(a, b.rep.entries, ListenerNames(b.rep.entries, env), p);
    DeletionsAt(b, a.rep.entries, InitiatorNames(a.rep.entries, env), p);
    InformedByDeletions(a, b.rep.entries, env);
    WantsAt(a, b.rep.entries, env, p);
    RefreshedAt(a, b, env, p);
    SuppliedAt(a, b, env, p);
  }

  /** A full scan makes twins: a file created, sent, deleted and created anew
      gets the clock its first version had. */
  lemma RescanMakesTwins(rep: Replica, id: Node, excluded: Path -> bool, p: Path, other: Index)
    requires Dead(rep.entries, p) && p in rep.files && !excluded(p)
    requires Live(other, p) && SameHistory(other[p].clock, map[id := 1])
    requires other[p].checksum != Sha256(rep.files[p].content)
    ensures Twins(Scanned(rep, id, excluded, false).entries, other, p)
  {
    assert Lookup(Scanned(rep, id, excluded, false).entries, p) == ScannedEntry(rep, id, excluded, false, p);
  }
}
