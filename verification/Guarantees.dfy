/** What a single session never does to a path. */
module Guarantees {
  import opened Options
  import opened VectorClocks
  import opened FileIndexes
  import opened Decisions
  import opened Sessions
  import opened StepFacts
  import opened PlainSessions

  /* ---- Quiescence ---- */

  /** Both sides show the same live paths, each with one history or, after a
      conflict, with one content. */
  ghost predicate Level(x: Index, y: Index) {
    && (forall p :: Live(x, p) <==> Live(y, p))
    && (forall p :: Live(x, p) ==> SameHistory(x[p].clock, y[p].clock)
                                   || (Concurrent(x[p].clock, y[p].clock) && x[p].checksum == y[p].checksum))
  }

  lemma LevelDeletions(me: Peer, remote: Index, names: Names)
    requires forall p :: Live(me.rep.entries, p) <==> Live(remote, p)
    ensures AfterDeletions(me, remote, names).rep == me.rep
  {
    var after := AfterDeletions(me, remote, names);
    forall p ensures !Doomed(me, remote, names, p) { }
    assert forall p :: p in after.rep.entries ==> after.rep.entries[p] == me.rep.entries[p];
    assert after.rep.entries == me.rep.entries;
    assert after.rep.corrupted == me.rep.corrupted && after.rep.files == me.rep.files;
  }

  lemma NothingWanted(me: Peer, remote: Index, own: Names, order: seq<Path>)
    requires Level(me.rep.entries, remote) && me.rep.corrupted == {}
    ensures Needed(me, remote, own, order) == []
    ensures AfterNeeded(me, remote, order) == me
  {
  }

  lemma NothingPushed(me: Peer, remote: Index, names: Names, order: seq<Path>)
    requires Level(me.rep.entries, remote)
    ensures PushList(me, remote, names, order) == []
  {
  }

  /** Between level nodes a session transfers nothing and leaves both indexes
      and disks as they are, duplicate contents or not. */
  lemma LevelNodesAreQuiescent(a: Peer, b: Peer, env: Env)
    requires Level(a.rep.entries, b.rep.entries) && a.rep.corrupted == {}
    ensures Wants(a, b.rep.entries, env) == [] && Pushes(a, b, env) == []
    ensures Session(a, b, env).0.rep == a.rep && Session(a, b, env).1.rep == b.rep
  {
    var remote := b.rep.entries;
    var names := ListenerNames(remote, env);
    var a1 := AfterDeletions(a, remote, names);
    LevelDeletions(a, remote, names);
    LevelDeletions(b, a.rep.entries, InitiatorNames(a.rep.entries, env));
    NothingToRename(a1, a1.rep.entries, remote, names, env.initiatorOrder(a1.rep.entries.Keys));
    NothingWanted(a1, remote, InitiatorNames(a1.rep.entries, env), env.listenerOrder(remote.Keys));
    NothingPushed(a1, remote, names, env.initiatorOrder(a1.rep.entries.Keys));
  }

  /* ---- Monotonicity ---- */

  /** No conflict on the path is conceded: neither by the initiator, which
      judges two live versions, nor by the listener, which is only pushed a live
      version over its tombstone. */
  ghost predicate NoConcession(a: Peer, b: Peer, p: Path) {
    var x, y := a.rep.entries, b.rep.entries;
    Live(x, p) && p in y && Concurrent(x[p].clock, y[p].clock) ==>
      if y[p].deleted then !Concedes(b.cfg, y[p], x[p]) else !Concedes(a.cfg, x[p], y[p])
  }

  /** A flagged path is fetched although the listener's version is no newer. */
  predicate Refetched(a: Peer, b: Peer, p: Path) {
    var x, y := a.rep.entries, b.rep.entries;
    p in a.rep.corrupted && Live(x, p) && Live(y, p) && AtMost(y[p].clock, x[p].clock)
  }

  /** An entry stays, or appears, or moves to a history that strictly contains
      its own and is the merge of the two sides'. */
  ghost predicate Advances(before: Option<Entry>, theirs: Option<Entry>, after: Option<Entry>) {
    || after == before
    || (theirs.Some? && after.Some? && before.None? && after.value.clock == theirs.value.clock)
    || (theirs.Some? && after.Some? && before.Some?
        && Before(before.value.clock, after.value.clock)
        && SameHistory(after.value.clock, Merged(before.value.clock, theirs.value.clock)))
  }

  /** The entry stays, or the other side's strictly later version replaces it. */
  ghost predicate StaysOrMoves(before: Option<Entry>, theirs: Option<Entry>, after: Option<Entry>) {
    || after == before
    || (theirs.Some? && after.Some? && after.value == theirs.value.(mtime := after.value.mtime)
        && (before.Some? ==> Before(before.value.clock, theirs.value.clock)))
  }

  /** What the deletion pass may do to an entry. */
  lemma HearingStaysOrMoves(me: Peer, remote: Index, names: Names, p: Path)
    ensures var after := AfterDeletions(me, remote, names);
            && StaysOrMoves(Lookup(me.rep.entries, p), Lookup(remote, p), Lookup(after.rep.entries, p))
            && (p in after.rep.corrupted ==> p in me.rep.corrupted)
            && (Dead(remote, p) || Lookup(after.rep.entries, p) == Lookup(me.rep.entries, p))
            && (Dead(me.rep.entries, p) ==> Lookup(after.rep.entries, p) == Lookup(me.rep.entries, p))
            && (p in me.rep.entries && p in remote && !Before(me.rep.entries[p].clock, remote[p].clock) ==>
                  Lookup(after.rep.entries, p) == Lookup(me.rep.entries, p))
  {
    DeletionsAt(me, remote, names, p);
  }

  /** The initiator's entry moves only forward exactly when it concedes no
      conflict between two live versions. */
  lemma InitiatorStaysOrMovesIff(a: Peer, b: Peer, env: Env, p: Path)
    requires ValidEnv(env) && NoReplay(a, b.rep.entries, env) && Backed(b.rep) && !Refetched(a, b, p)
    ensures var x, y := a.rep.entries, b.rep.entries;
            StaysOrMoves(Lookup(x, p), Lookup(y, p), Lookup(Refreshed(a, b, env).rep.entries, p))
            <==> (Live(x, p) && Live(y, p) && Concurrent(x[p].clock, y[p].clock) ==> !Concedes(a.cfg, x[p], y[p]))
  {
    HearingStaysOrMoves(a, b.rep.entries, ListenerNames(b.rep.entries, env), p);
    InformedByDeletions(a, b.rep.entries, env);
    WantsAt(a, b.rep.entries, env, p);
    RefreshedAt(a, b, env, p);
  }

  /** A path the initiator pushes holds its own version from before the session,
      and a version concurrent with the listener's tombstone is pushed. */
  lemma PushedIsOwn(a: Peer, b: Peer, env: Env, p: Path)
    requires ValidEnv(env) && NoReplay(a, b.rep.entries, env) && Backed(b.rep)
    ensures var x, y, a4 := a.rep.entries, b.rep.entries, Refreshed(a, b, env);
            && (Pushed(a4, y, p) ==> Live(x, p) && Lookup(a4.rep.entries, p) == Lookup(x, p))
            && (Live(x, p) && Dead(y, p) && Concurrent(x[p].clock, y[p].clock) ==> Pushed(a4, y, p))
  {
    HearingStaysOrMoves(a, b.rep.entries, ListenerNames(b.rep.entries, env), p);
    InformedByDeletions(a, b.rep.entries, env);
    RefreshedAt(a, b, env, p);
  }

  /** The listener's entry moves only forward exactly when it concedes no live
      version over its tombstone; and its tombstone stays whenever it knows of
      the initiator's version. */
  lemma ListenerStaysOrMovesIff(a: Peer, b: Peer, env: Env, p: Path)
    requires ValidEnv(env) && NoRename(a, b, env) && Backed(a.rep) && Backed(b.rep)
    ensures var x, y := a.rep.entries, b.rep.entries;
            var after := Lookup(Supplied(a, b, env).rep.entries, p);
            && (StaysOrMoves(Lookup(y, p), Lookup(x, p), after)
                <==> (Live(x, p) && Dead(y, p) && Concurrent(x[p].clock, y[p].clock) ==> !Concedes(b.cfg, y[p], x[p])))
            && (Dead(y, p) && p in x && AtMost(x[p].clock, y[p].clock) ==> after == Lookup(y, p))
  {
    HearingStaysOrMoves(b, a.rep.entries, InitiatorNames(a.rep.entries, env), p);
    PushedIsOwn(a, b, env, p);
    SuppliedAt(a, b, env, p);
    ReceivingStaysOrMovesIff(a.rep.entries, b, Greeted(b, a.rep.entries, env), Refreshed(a, b, env),
                             Supplied(a, b, env), p, env.listenerStamp(p));
  }

  /** The same of a listener that has read `x`, is then pushed what `a4` holds,
      and ends as `b2`. */
  lemma ReceivingStaysOrMovesIff(x: Index, b: Peer, b1: Peer, a4: Peer, b2: Peer, p: Path, stamp: Time)
    requires StaysOrMoves(Lookup(b.rep.entries, p), Lookup(x, p), Lookup(b1.rep.entries, p))
    requires Dead(x, p) || Lookup(b1.rep.entries, p) == Lookup(b.rep.entries, p)
    requires Dead(b.rep.entries, p) ==> Lookup(b1.rep.entries, p) == Lookup(b.rep.entries, p)
    requires Pushed(a4, b.rep.entries, p) ==> Live(x, p) && Lookup(a4.rep.entries, p) == Lookup(x, p)
    requires Live(x, p) && Dead(b.rep.entries, p) && Concurrent(x[p].clock, b.rep.entries[p].clock) ==>
               Pushed(a4, b.rep.entries, p)
    requires Lookup(b2.rep.entries, p) ==
             if Pushed(a4, b.rep.entries, p)
             then Arrived(b.cfg, Lookup(b1.rep.entries, p), a4.rep.entries[p], stamp)
             else Lookup(b1.rep.entries, p)
    ensures var y, after := b.rep.entries, Lookup(b2.rep.entries, p);
            && (StaysOrMoves(Lookup(y, p), Lookup(x, p), after)
                <==> (Live(x, p) && Dead(y, p) && Concurrent(x[p].clock, y[p].clock) ==> !Concedes(b.cfg, y[p], x[p])))
            && (Dead(y, p) && p in x && AtMost(x[p].clock, y[p].clock) ==> after == Lookup(y, p))
  {
  }

  lemma MovesAdvance(before: Option<Entry>, theirs: Option<Entry>, after: Option<Entry>)
    requires StaysOrMoves(before, theirs, after)
    ensures Advances(before, theirs, after)
  {
    if before.Some? && theirs.Some? {
      VerbatimIsMergeIff(before.value.clock, theirs.value.clock);
    }
  }

  /** On a path not refetched for corruption both entries stay or give way to the
      other side's strictly later version, exactly when no conflict on it is
      conceded. */
  lemma SessionStaysOrMovesIff(a: Peer, b: Peer, env: Env, p: Path)
    requires ValidEnv(env) && NoRename(a, b, env) && Backed(a.rep) && Backed(b.rep)
    requires !Refetched(a, b, p)
    ensures var (a', b') := Session(a, b, env);
            (&& StaysOrMoves(Lookup(a.rep.entries, p), Lookup(b.rep.entries, p), Lookup(a'.rep.entries, p))
             && StaysOrMoves(Lookup(b.rep.entries, p), Lookup(a.rep.entries, p), Lookup(b'.rep.entries, p)))
            <==> NoConcession(a, b, p)
  {
    InitiatorStaysOrMovesIff(a, b, env, p);
    ListenerStaysOrMovesIff(a, b, env, p);
  }

  /** Histories only grow: in a session in which no rename fires, at every path
      that is not refetched for corruption and where no conflict is conceded, the
      entry on each side stays or advances to the merge of the two histories; and a stale live
      copy pushed to a listener never replaces a tombstone that knows of it. */
  lemma SessionAdvances(a: Peer, b: Peer, env: Env, p: Path)
    requires ValidEnv(env) && NoRename(a, b, env) && Backed(a.rep) && Backed(b.rep)
    requires !Refetched(a, b, p) && NoConcession(a, b, p)
    ensures var (a', b') := Session(a, b, env);
            var x, y := a.rep.entries, b.rep.entries;
            && Advances(Lookup(x, p), Lookup(y, p), Lookup(a'.rep.entries, p))
            && Advances(Lookup(y, p), Lookup(x, p), Lookup(b'.rep.entries, p))
            && (Dead(y, p) && p in x && AtMost(x[p].clock, y[p].clock) ==> Lookup(b'.rep.entries, p) == Lookup(y, p))
  {
    var (a', b') := Session(a, b, env);
    var x, y := Lookup(a.rep.entries, p), Lookup(b.rep.entries, p);
    InitiatorStaysOrMovesIff(a, b, env, p);
    ListenerStaysOrMovesIff(a, b, env, p);
    MovesAdvance(x, y, Lookup(a'.rep.entries, p));
    MovesAdvance(y, x, Lookup(b'.rep.entries, p));
  }

  /** The merge rule the protocol asks for is met by storing the remote clock
      verbatim exactly when the local version is not concurrent or ahead. */
  lemma StoringIsMergingIff(me: Peer, p: Path, entry: Entry, content: Content, stamp: Time)
    requires p in me.rep.entries && !entry.deleted
    ensures SameHistory(Stored(me, p, entry, content, stamp).rep.entries[p].clock,
                        Merged(me.rep.entries[p].clock, entry.clock))
            <==> AtMost(me.rep.entries[p].clock, entry.clock)
  {
    VerbatimIsMergeIff(me.rep.entries[p].clock, entry.clock);
  }

  /* ---- Repair ---- */

  /** Repair of a path flagged as corrupted that the listener holds live: it is
      fetched anew, entry and content the listener's, exactly when the two
      versions are not concurrent or the strategy concedes.  Otherwise entry,
      flag and damaged file stay as they are. */
  lemma FlaggedPathIsRepairedIff(a: Peer, b: Peer, env: Env, p: Path)
    requires ValidEnv(env) && NoReplay(a, b.rep.entries, env) && Backed(b.rep)
    requires p in a.rep.corrupted && Live(a.rep.entries, p) && p in a.rep.files && Live(b.rep.entries, p)
    ensures var x, y, a' := a.rep.entries[p], b.rep.entries[p], Refreshed(a, b, env).rep;
            && (p !in a'.corrupted <==> !Concurrent(x.clock, y.clock) || Concedes(a.cfg, x, y))
            && p in a'.entries && p in a'.files
            && (p !in a'.corrupted ==> a'.entries[p] == y.(mtime := env.initiatorStamp(p))
                                       && a'.files[p].content == b.rep.files[p].content)
            && (p in a'.corrupted ==> a'.entries[p] == x && a'.files[p] == a.rep.files[p])
  {
    InformedByDeletions(a, b.rep.entries, env);
    WantsAt(a, b.rep.entries, env, p);
    DeletionsAt(a, b.rep.entries, ListenerNames(b.rep.entries, env), p);
    RefreshedAt(a, b, env, p);
  }

  /** So a damaged file stays damaged as long as the peer's copy is a concurrent
      version with the checksum the damaged one should have. */
  lemma SameChecksumIsNotRepaired(a: Peer, b: Peer, env: Env, p: Path)
    requires ValidEnv(env) && NoReplay(a, b.rep.entries, env) && Backed(b.rep)
    requires p in a.rep.corrupted && Live(a.rep.entries, p) && p in a.rep.files && Live(b.rep.entries, p)
    requires Concurrent(a.rep.entries[p].clock, b.rep.entries[p].clock)
    requires a.rep.entries[p].checksum == b.rep.entries[p].checksum
    ensures var a' := Refreshed(a, b, env).rep;
            p in a'.corrupted && p in a'.files && a'.files[p] == a.rep.files[p]
  {
    FlaggedPathIsRepairedIff(a, b, env, p);
  }
}
