/** The simple form of a session: when every content lives under one path only,
    or under paths on which the two sides agree already, a whole session acts on
    each path separately, as a function of the two sides' entries at that path. */
module Cells {
  import opened Options
  import opened VectorClocks
  import opened FileIndexes
  import opened SyncEngines
  import opened Decisions
  import opened Sessions
  import opened StepFacts
  import opened PlainSessions

  /** One peer as seen from one path. */
  datatype Side = Side(cfg: Config, entry: Option<Entry>, pending: bool, corrupted: bool) {
    predicate IsLive() {
      entry.Some? && !entry.value.deleted
    }

    predicate IsDead() {
      entry.Some? && entry.value.deleted
    }
  }

  function SideAt(me: Peer, p: Path): Side {
    Side(me.cfg, Lookup(me.rep.entries, p), p in me.pending, p in me.rep.corrupted)
  }

  function Heard(x: Side, theirs: Side): Side {
    if !x.cfg.syncDeletes || !theirs.IsDead() then x
    else if !x.IsLive() then x.(pending := false)
    else if Verdict(x.entry.value, theirs.entry.value) != AcceptRemote then x
    else if x.pending then x.(entry := theirs.entry, pending := false, corrupted := false)
    else x.(pending := true)
  }

  predicate Asks(x: Side, theirs: Side) {
    && theirs.IsLive()
    && match x.entry
       case None => true
       case Some(mine) =>
         match Verdict(mine, theirs.entry.value)
         case AcceptRemote => true
         case Conflict => !mine.deleted && Concedes(x.cfg, mine, theirs.entry.value)
         case KeepLocal => !mine.deleted && x.corrupted
  }

  function Fetched(x: Side, theirs: Side, stamp: Time): Side {
    if Asks(x, theirs) then x.(entry := Some(theirs.entry.value.(mtime := stamp)), corrupted := false) else x
  }

  predicate Offers(x: Side, theirs: Side) {
    x.IsLive() && (theirs.IsLive() ==> Verdict(theirs.entry.value, x.entry.value) == AcceptRemote)
  }

  /** The initiator's and the listener's entry after a session between `x` and
      `y`.  The listener's decisions are taken against what it sent in HELLO. */
  function MeetInitiator(x: Side, y: Side, stamp: Time): Side {
    Fetched(Heard(x, y), y, stamp)
  }

  function MeetListener(x: Side, y: Side, initiatorStamp: Time, listenerStamp: Time): Option<Entry> {
    var x' := MeetInitiator(x, y, initiatorStamp);
    var y' := Heard(y, x);
    if Offers(x', y) then Arrived(y.cfg, y'.entry, x'.entry.value, listenerStamp) else y'.entry
  }

  /* ---- One path per content ---- */

  ghost predicate Carries(x: Index, y: Index, p: Path, c: Checksum) {
    (Live(x, p) && x[p].checksum == c) || (Live(y, p) && y[p].checksum == c)
  }

  /** Both sides hold the path live, in one version. */
  predicate LevelAt(x: Index, y: Index, p: Path) {
    Live(x, p) && Live(y, p) && SameHistory(x[p].clock, y[p].clock) && x[p].checksum == y[p].checksum
  }

  /** The checksum of a live entry, on either side, determines its path, paths on
      which the two sides are level aside. */
  ghost predicate OnePathPerContent(x: Index, y: Index) {
    forall p, q, c :: c != Blank && Carries(x, y, p, c) && Carries(x, y, q, c) ==>
      p == q || (LevelAt(x, y, p) && LevelAt(x, y, q))
  }

  lemma SameOrLevel(x: Index, y: Index, p: Path, q: Path, c: Checksum)
    requires OnePathPerContent(x, y) && c != Blank && Carries(x, y, p, c) && Carries(x, y, q, c)
    ensures p == q || (LevelAt(x, y, p) && LevelAt(x, y, q))
  {
  }

  /** No rename of the listener's is replayed. */
  lemma OnePathNoReplay(a: Peer, b: Peer, env: Env)
    requires ValidEnv(env) && OnePathPerContent(a.rep.entries, b.rep.entries)
    ensures NoReplay(a, b.rep.entries, env)
  {
    var names := ListenerNames(b.rep.entries, env);
    var a1 := AfterDeletions(a, b.rep.entries, names);
    forall p ensures !RenameDue(a1.rep.entries, b.rep.entries, names, p) {
      DeletionsAt(a, b.rep.entries, names, p);
      if RenameDue(a1.rep.entries, b.rep.entries, names, p) {
        var c := a1.rep.entries[p].checksum;
        SameOrLevel(a.rep.entries, b.rep.entries, p, names[c], c);
      }
    }
  }

  lemma HeardAt(me: Peer, they: Peer, names: Names, p: Path)
    requires IsNames(names, they.rep.entries) && OnePathPerContent(me.rep.entries, they.rep.entries)
    ensures SideAt(AfterDeletions(me, they.rep.entries, names), p) == Heard(SideAt(me, p), SideAt(they, p))
  {
    DeletionsAt(me, they.rep.entries, names, p);
    if Dead(they.rep.entries, p) && Live(me.rep.entries, p) {
      var c := me.rep.entries[p].checksum;
      assert Carries(me.rep.entries, they.rep.entries, p, c);
      if c in names {
        assert Carries(me.rep.entries, they.rep.entries, names[c], c);
      }
    }
  }

  lemma FlippedOnePath(x: Index, y: Index)
    requires OnePathPerContent(x, y)
    ensures OnePathPerContent(y, x)
  {
    forall p, q, c | c != Blank && Carries(y, x, p, c) && Carries(y, x, q, c)
      ensures p == q || (LevelAt(y, x, p) && LevelAt(y, x, q))
    {
      assert Carries(x, y, p, c) && Carries(x, y, q, c);
    }
  }

  lemma AsksAt(a: Peer, b: Peer, env: Env, p: Path)
    requires ValidEnv(env) && OnePathPerContent(a.rep.entries, b.rep.entries)
    ensures var a1 := AfterDeletions(a, b.rep.entries, ListenerNames(b.rep.entries, env));
            p in Wants(a, b.rep.entries, env) <==> Asks(SideAt(a1, p), SideAt(b, p))
  {
    OnePathNoReplay(a, b, env);
    InformedByDeletions(a, b.rep.entries, env);
    WantsAt(a, b.rep.entries, env, p);
    var a1 := Informed(a, b.rep.entries, env);
    var own := InitiatorNames(a1.rep.entries, env);
    if Live(b.rep.entries, p) && !Live(a1.rep.entries, p) && b.rep.entries[p].checksum in own {
      NotKnownElsewhere(a, b, a1, own, ListenerNames(b.rep.entries, env), p);
    }
  }

  /** A content the initiator misses at its path is under no other name either. */
  lemma NotKnownElsewhere(a: Peer, b: Peer, a1: Peer, own: Names, names: Names, p: Path)
    requires OnePathPerContent(a.rep.entries, b.rep.entries) && SoundNames(own, a1.rep.entries)
    requires a1 == AfterDeletions(a, b.rep.entries, names)
    requires Live(b.rep.entries, p) && !Live(a1.rep.entries, p)
    ensures b.rep.entries[p].checksum !in own
  {
    var c := b.rep.entries[p].checksum;
    if c in own {
      DeletionsAt(a, b.rep.entries, names, p);
      DeletionsAt(a, b.rep.entries, names, own[c]);
      SameOrLevel(a.rep.entries, b.rep.entries, p, own[c], c);
      assert false;
    }
  }

  lemma InitiatorCell(a: Peer, b: Peer, env: Env, p: Path)
    requires ValidEnv(env) && OnePathPerContent(a.rep.entries, b.rep.entries) && Backed(b.rep)
    ensures SideAt(Refreshed(a, b, env), p) == MeetInitiator(SideAt(a, p), SideAt(b, p), env.initiatorStamp(p))
  {
    var names := ListenerNames(b.rep.entries, env);
    assert Enumerates(env.listenerOrder(b.rep.entries.Keys), b.rep.entries.Keys);
    NamesOfIsNames(env.listenerOrder(b.rep.entries.Keys), b.rep.entries);
    HeardAt(a, b, names, p);
    OnePathNoReplay(a, b, env);
    InformedByDeletions(a, b.rep.entries, env);
    AsksAt(a, b, env, p);
    RefreshedAt(a, b, env, p);
  }

  /** What a session makes live was live before on one of the two sides. */
  lemma RefreshedCarries(a: Peer, b: Peer, env: Env, p: Path)
    requires ValidEnv(env) && OnePathPerContent(a.rep.entries, b.rep.entries) && Backed(b.rep)
    requires Live(Refreshed(a, b, env).rep.entries, p)
    ensures Carries(a.rep.entries, b.rep.entries, p, Refreshed(a, b, env).rep.entries[p].checksum)
  {
    InitiatorCell(a, b, env, p);
  }

  lemma OnePathNoRename(a: Peer, b: Peer, env: Env)
    requires ValidEnv(env) && OnePathPerContent(a.rep.entries, b.rep.entries) && Backed(b.rep)
    ensures NoRename(a, b, env)
  {
    var a4 := Refreshed(a, b, env);
    var names := ListenerNames(b.rep.entries, env);
    OnePathNoReplay(a, b, env);
    forall p | Live(a4.rep.entries, p) ensures !PushedAsRename(a4, names, p) {
      NotPushedAsRename(a, b, env, names, p);
    }
  }

  lemma NotPushedAsRename(a: Peer, b: Peer, env: Env, names: Names, p: Path)
    requires ValidEnv(env) && OnePathPerContent(a.rep.entries, b.rep.entries) && Backed(b.rep)
    requires SoundNames(names, b.rep.entries) && Live(Refreshed(a, b, env).rep.entries, p)
    ensures !PushedAsRename(Refreshed(a, b, env), names, p)
  {
    var c := Refreshed(a, b, env).rep.entries[p].checksum;
    RefreshedCarries(a, b, env, p);
    if c in names {
      SameOrLevel(a.rep.entries, b.rep.entries, p, names[c], c);
      InitiatorCell(a, b, env, names[c]);
    }
  }

  lemma ListenerCell(a: Peer, b: Peer, env: Env, p: Path)
    requires ValidEnv(env) && OnePathPerContent(a.rep.entries, b.rep.entries) && Backed(a.rep) && Backed(b.rep)
    ensures var b2 := Supplied(a, b, env);
            && Lookup(b2.rep.entries, p)
               == MeetListener(SideAt(a, p), SideAt(b, p), env.initiatorStamp(p), env.listenerStamp(p))
            && b2.cfg == b.cfg
            && (p in b2.pending <==> Heard(SideAt(b, p), SideAt(a, p)).pending)
            && (p in b2.rep.corrupted ==> p in b.rep.corrupted)
  {
    assert Enumerates(env.initiatorOrder(a.rep.entries.Keys), a.rep.entries.Keys);
    NamesOfIsNames(env.initiatorOrder(a.rep.entries.Keys), a.rep.entries);
    FlippedOnePath(a.rep.entries, b.rep.entries);
    HeardAt(b, a, InitiatorNames(a.rep.entries, env), p);
    InitiatorCell(a, b, env, p);
    OnePathNoRename(a, b, env);
    SuppliedAt(a, b, env, p);
    DeletionsAt(b, a.rep.entries, InitiatorNames(a.rep.entries, env), p);
  }

  /** The whole session, with all its tables, orders and message lists, is the
      path-by-path form. */
  lemma SessionIsCellwise(a: Peer, b: Peer, env: Env, p: Path)
    requires ValidEnv(env) && OnePathPerContent(a.rep.entries, b.rep.entries) && Backed(a.rep) && Backed(b.rep)
    ensures var (a', b') := Session(a, b, env);
            var x, y := SideAt(a, p), SideAt(b, p);
            && SideAt(a', p) == MeetInitiator(x, y, env.initiatorStamp(p))
            && SideAt(b', p).cfg == b.cfg
            && SideAt(b', p).entry == MeetListener(x, y, env.initiatorStamp(p), env.listenerStamp(p))
            && SideAt(b', p).pending == Heard(y, x).pending
            && (SideAt(b', p).corrupted ==> y.corrupted)
  {
    InitiatorCell(a, b, env, p);
    ListenerCell(a, b, env, p);
  }

  /** A version a session leaves live at a path was live there before. */
  lemma MeetingInventsNothing(x: Side, y: Side, s: Time, t: Time)
    ensures var x' := MeetInitiator(x, y, s);
            x'.IsLive() ==> (x.IsLive() && x.entry.value.checksum == x'.entry.value.checksum)
                            || (y.IsLive() && y.entry.value.checksum == x'.entry.value.checksum)
    ensures var y' := MeetListener(x, y, s, t);
            y'.Some? && !y'.value.deleted ==> (x.IsLive() && x.entry.value.checksum == y'.value.checksum)
                                              || (y.IsLive() && y.entry.value.checksum == y'.value.checksum)
  {
  }

  lemma MeetingKeepsLevel(x: Side, y: Side, s: Time, t: Time)
    requires x.IsLive() && y.IsLive() && SameHistory(x.entry.value.clock, y.entry.value.clock)
    requires x.entry.value.checksum == y.entry.value.checksum
    ensures var x', y' := MeetInitiator(x, y, s), MeetListener(x, y, s, t);
            && y' == y.entry && x'.IsLive() && SameHistory(x'.entry.value.clock, y.entry.value.clock)
            && x'.entry.value.checksum == y.entry.value.checksum
  {
  }

  lemma LevelStays(a: Peer, b: Peer, env: Env, p: Path)
    requires ValidEnv(env) && OnePathPerContent(a.rep.entries, b.rep.entries) && Backed(a.rep) && Backed(b.rep)
    requires LevelAt(a.rep.entries, b.rep.entries, p)
    ensures LevelAt(Refreshed(a, b, env).rep.entries, Supplied(a, b, env).rep.entries, p)
  {
    SessionIsCellwise(a, b, env, p);
    MeetingKeepsLevel(SideAt(a, p), SideAt(b, p), env.initiatorStamp(p), env.listenerStamp(p));
  }

  /** One path per content survives a session. */
  lemma SessionKeepsOnePath(a: Peer, b: Peer, env: Env)
    requires ValidEnv(env) && OnePathPerContent(a.rep.entries, b.rep.entries) && Backed(a.rep) && Backed(b.rep)
    ensures var (a', b') := Session(a, b, env);
            OnePathPerContent(a'.rep.entries, b'.rep.entries)
  {
    var x', y' := Refreshed(a, b, env).rep.entries, Supplied(a, b, env).rep.entries;
    forall p, q, c | c != Blank && Carries(x', y', p, c) && Carries(x', y', q, c)
      ensures p == q || (LevelAt(x', y', p) && LevelAt(x', y', q))
    {
      OnePathAfter(a, b, env, p, q, c);
    }
  }

  lemma OnePathAfter(a: Peer, b: Peer, env: Env, p: Path, q: Path, c: Checksum)
    requires ValidEnv(env) && OnePathPerContent(a.rep.entries, b.rep.entries) && Backed(a.rep) && Backed(b.rep)
    requires var x', y' := Refreshed(a, b, env).rep.entries, Supplied(a, b, env).rep.entries;
             c != Blank && Carries(x', y', p, c) && Carries(x', y', q, c)
    ensures var x', y' := Refreshed(a, b, env).rep.entries, Supplied(a, b, env).rep.entries;
            p == q || (LevelAt(x', y', p) && LevelAt(x', y', q))
  {
    CarriedBefore(a, b, env, p, c);
    CarriedBefore(a, b, env, q, c);
    SameOrLevel(a.rep.entries, b.rep.entries, p, q, c);
    if p != q {
      LevelStays(a, b, env, p);
      LevelStays(a, b, env, q);
    }
  }

  lemma CarriedBefore(a: Peer, b: Peer, env: Env, p: Path, c: Checksum)
    requires ValidEnv(env) && OnePathPerContent(a.rep.entries, b.rep.entries) && Backed(a.rep) && Backed(b.rep)
    requires Carries(Refreshed(a, b, env).rep.entries, Supplied(a, b, env).rep.entries, p, c)
    ensures Carries(a.rep.entries, b.rep.entries, p, c)
  {
    SessionIsCellwise(a, b, env, p);
    MeetingInventsNothing(SideAt(a, p), SideAt(b, p), env.initiatorStamp(p), env.listenerStamp(p));
  }
}
