/** What vector clocks mean over whole runs of any number of nodes.  Each edit of
    a path is one element of a ghost history; clocks and histories agree. */
module Histories {
  import opened Options
  import opened VectorClocks
  import opened FileIndexes
  import opened ScanTheorems
  import opened Decisions
  import opened Sessions
  import opened StepFacts
  import opened PlainSessions
  import opened Guarantees

  /** The `serial`-th edit that `node` made to `path`. */
  datatype Edit = Edit(node: Node, path: Path, serial: nat)

  /** A version in flight, with the edits that led to it. */
  datatype Letter = Letter(path: Path, entry: Entry, history: set<Edit>)

  /** `history` and `edits` are bookkeeping: the edits behind each node's entry,
      and how many each node has made. */
  datatype System = System(peers: map<Node, Peer>, mail: set<Letter>,
                           history: (Node, Path) -> set<Edit>, edits: (Node, Path) -> nat)

  ghost predicate Fresh(s: System) {
    && (forall n :: n in s.peers ==> s.peers[n].rep.entries == map[] && s.peers[n].cfg.id == n)
    && s.mail == {}
    && (forall n, p :: s.history(n, p) == {} && s.edits(n, p) == 0)
  }

  /* ---- Steps ---- */

  /** A node reindexes after local edits, by one of the three event handlers or a
      full scan, or buries the source of a rename it replays. */
  datatype Reindex = One(path: Path) | Gone(path: Path) | DirGone(path: Path) | Everything | MovedAway(path: Path)

  function Reindexed(rep: Replica, id: Node, excluded: Path -> bool, how: Reindex): Replica {
    match how
    case One(p) => ScannedOne(rep, id, excluded, p)
    case Gone(p) => MarkedDeleted(rep, id, p)
    case DirGone(dir) => MarkedDirDeleted(rep, id, dir)
    case Everything => Scanned(rep, id, excluded, false)
    case MovedAway(p) =>
      if p in rep.entries
      then rep.(entries := rep.entries[p := Tombstone(rep.entries[p], id)], corrupted := rep.corrupted - {p})
      else rep
  }

  /** A full scan gives a path that reappears a new clock, and so a new history. */
  predicate Restarts(rep: Replica, excluded: Path -> bool, how: Reindex, p: Path) {
    how.Everything? && Dead(rep.entries, p) && p in rep.files && !excluded(p)
  }

  /** No restarted path had counted an edit of the node itself. */
  ghost predicate ForgetsNoEdit(rep: Replica, id: Node, excluded: Path -> bool, how: Reindex) {
    forall p :: Restarts(rep, excluded, how, p) ==> Component(rep.entries[p].clock, id) == 0
  }

  datatype Step =
    | DiskChanges(node: Node, files: Disk)
    | Edits(node: Node, excluded: Path -> bool, how: Reindex)
    | Sends(node: Node, path: Path)
    | Delivers(node: Node, letter: Letter, content: Option<Content>, stamp: Time)
    | Meets(node: Node, other: Node, env: Env)

  /** A delivery is let in when it counts as many of the node's own edits as the
      entry it replaces: a version that strictly dominates always does. */
  ghost predicate LetIn(me: Peer, n: Node, letter: Letter) {
    Component(letter.entry.clock, n) == OwnPart(me.rep.entries, n, letter.path)
  }

  /** No own edit is forgotten, or counted back in, on any path. */
  ghost predicate ForgetsNothing(before: Index, after: Index, n: Node) {
    forall p :: OwnPart(after, n, p) == OwnPart(before, n, p)
  }

  /** The initiator takes the listener's version although it is not newer: it
      concedes a conflict or refetches a flagged path. */
  predicate TakesBack(a: Peer, b: Peer, p: Path) {
    var x, y := a.rep.entries, b.rep.entries;
    || Refetched(a, b, p)
    || (Live(x, p) && Live(y, p) && Concurrent(x[p].clock, y[p].clock) && Concedes(a.cfg, x[p], y[p]))
  }

  /** The listener lets a live version in over its concurrent tombstone. */
  predicate Revives(a: Peer, b: Peer, p: Path) {
    var x, y := a.rep.entries, b.rep.entries;
    Live(x, p) && Dead(y, p) && Concurrent(x[p].clock, y[p].clock) && Concedes(b.cfg, y[p], x[p])
  }

  /** Whichever side takes a version that is not newer finds all of its own edits
      counted there; without concessions and flags there is none to take. */
  predicate OwnEditsSafe(a: Peer, b: Peer, p: Path) {
    var x, y := a.rep.entries, b.rep.entries;
    && (TakesBack(a, b, p) ==> Component(y[p].clock, a.cfg.id) == Component(x[p].clock, a.cfg.id))
    && (Revives(a, b, p) ==> Component(x[p].clock, b.cfg.id) == Component(y[p].clock, b.cfg.id))
  }

  ghost predicate Enabled(s: System, step: Step) {
    match step
    case DiskChanges(n, _) => n in s.peers
    case Edits(n, excluded, how) => n in s.peers && ForgetsNoEdit(s.peers[n].rep, n, excluded, how)
    case Sends(n, p) => n in s.peers && p in s.peers[n].rep.entries
    case Delivers(n, letter, _, _) => n in s.peers && letter in s.mail && LetIn(s.peers[n], n, letter)
    case Meets(n, m, env) =>
      && n in s.peers && m in s.peers && n != m && ValidEnv(env)
      && var a, b := s.peers[n], s.peers[m];
         && NoRename(a, b, env) && Backed(a.rep) && Backed(b.rep)
         && forall p :: OwnEditsSafe(a, b, p)
  }

  ghost function Next(s: System, step: Step): System
    requires Enabled(s, step)
  {
    match step
    case DiskChanges(n, files) =>
      s.(peers := s.peers[n := s.peers[n].(rep := s.peers[n].rep.(files := files))])
    case Edits(n, excluded, how) => AfterReindex(s, n, excluded, how)
    case Sends(n, p) =>
      s.(mail := s.mail + {Letter(p, s.peers[n].rep.entries[p], s.history(n, p))})
    case Delivers(n, letter, content, stamp) => AfterDelivery(s, n, letter, content, stamp)
    case Meets(n, m, env) =>
      AfterMeeting(s, n, m, Refreshed(s.peers[n], s.peers[m], env), Supplied(s.peers[n], s.peers[m], env))
  }

  ghost function AfterReindex(s: System, n: Node, excluded: Path -> bool, how: Reindex): System
    requires n in s.peers
  {
    var before := s.peers[n].rep;
    var after := Reindexed(before, n, excluded, how);
    System(s.peers[n := s.peers[n].(rep := after)], s.mail,
           (m: Node, p: Path) =>
             if m == n && Lookup(after.entries, p) != Lookup(before.entries, p)
             then (if Restarts(before, excluded, how, p) then {} else s.history(n, p)) + {Edit(n, p, s.edits(n, p) + 1)}
             else s.history(m, p),
           (m: Node, p: Path) =>
             if m == n && Lookup(after.entries, p) != Lookup(before.entries, p)
             then s.edits(n, p) + 1 else s.edits(m, p))
  }

  ghost function AfterDelivery(s: System, n: Node, letter: Letter, content: Option<Content>, stamp: Time): System
    requires n in s.peers
  {
    s.(peers := s.peers[n := s.peers[n].(rep := Applied(s.peers[n].rep, letter.path, letter.entry, content, stamp))],
       history := (m: Node, p: Path) => if m == n && p == letter.path then letter.history else s.history(m, p))
  }

  /** Two nodes replaced by what a session made of them; an entry that changed
      came from the other side, with its edits. */
  ghost function AfterMeeting(s: System, n: Node, m: Node, a': Peer, b': Peer): System
    requires n in s.peers && m in s.peers
  {
    var a, b := s.peers[n], s.peers[m];
    s.(peers := s.peers[n := a'][m := b'],
       history := (k: Node, p: Path) =>
         if k == n && Lookup(a'.rep.entries, p) != Lookup(a.rep.entries, p) then s.history(m, p)
         else if k == m && Lookup(b'.rep.entries, p) != Lookup(b.rep.entries, p) then s.history(n, p)
         else s.history(k, p))
  }

  /* ---- Versions and the invariant ---- */

  /** Where a version of a path can be. */
  datatype Place = AtNode(node: Node) | InMail(letter: Letter)

  datatype Version = Version(entry: Entry, history: set<Edit>)

  ghost function VersionAt(s: System, place: Place, p: Path): Option<Version> {
    match place
    case AtNode(n) =>
      if n in s.peers && p in s.peers[n].rep.entries
      then Some(Version(s.peers[n].rep.entries[p], s.history(n, p))) else None
    case InMail(letter) =>
      if letter in s.mail && letter.path == p then Some(Version(letter.entry, letter.history)) else None
  }

  /** The history of a version is what its clock counts, and nobody counts more
      edits of a node than it has made. */
  ghost predicate Counted(v: Version, p: Path, edits: (Node, Path) -> nat) {
    && (forall e :: e in v.history <==> e.path == p && 1 <= e.serial <= Component(v.entry.clock, e.node))
    && (forall n :: Component(v.entry.clock, n) <= edits(n, p))
  }

  /** A node's own entry counts all of its own edits. */
  ghost predicate OwnCount(s: System, n: Node, p: Path) {
    n in s.peers ==>
      if p in s.peers[n].rep.entries then s.edits(n, p) == Component(s.peers[n].rep.entries[p].clock, n)
      else s.edits(n, p) == 0 && s.history(n, p) == {}
  }

  ghost predicate SameIfSameHistory(v: Version, w: Version) {
    SameHistory(v.entry.clock, w.entry.clock) ==>
      v.entry.checksum == w.entry.checksum && v.entry.deleted == w.entry.deleted
  }

  ghost predicate Sound(s: System) {
    && (forall n :: n in s.peers ==> s.peers[n].cfg.id == n)
    && (forall n, p :: OwnCount(s, n, p))
    && (forall place, p :: VersionAt(s, place, p).Some? ==> Counted(VersionAt(s, place, p).value, p, s.edits))
    && (forall place, place', p :: VersionAt(s, place, p).Some? && VersionAt(s, place', p).Some? ==>
          SameIfSameHistory(VersionAt(s, place, p).value, VersionAt(s, place', p).value))
  }

  lemma FreshIsSound(s: System)
    requires Fresh(s)
    ensures Sound(s)
  {
  }

  /** The clock a reindexed path goes on from. */
  function Continued(rep: Replica, excluded: Path -> bool, how: Reindex, p: Path): Clock {
    if p in rep.entries && !Restarts(rep, excluded, how, p) then rep.entries[p].clock else map[]
  }

  /** Local reindexing either leaves an entry or extends a clock by one own step:
      its own, or the empty one. */
  lemma ReindexedAt(rep: Replica, id: Node, excluded: Path -> bool, how: Reindex, p: Path)
    ensures var after := Reindexed(rep, id, excluded, how);
            Lookup(after.entries, p) != Lookup(rep.entries, p) ==>
              p in after.entries
              && after.entries[p].clock == Incremented(Continued(rep, excluded, how, p), id)
    ensures Restarts(rep, excluded, how, p) ==>
              Lookup(Reindexed(rep, id, excluded, how).entries, p) != Lookup(rep.entries, p)
  {
    if how.Everything? {
      ScannedLookup(rep, id, excluded, false, p);
    }
  }

  /** Replaying a rename is three steps of a run: the file moves, its source is
      buried, and the target's version is delivered. */
  lemma RenameIsThreeSteps(s: System, n: Node, source: Path, letter: Letter, excluded: Path -> bool)
    returns (moved: Step, buried: Step, delivered: Step)
    requires n in s.peers && s.peers[n].cfg.id == n && letter in s.mail && LetIn(s.peers[n], n, letter)
    requires source != letter.path && !letter.entry.deleted
    requires source in s.peers[n].rep.entries && source in s.peers[n].rep.files
    requires s.peers[n].rep.entries[source].checksum == letter.entry.checksum
    ensures Enabled(s, moved) && Enabled(Next(s, moved), buried)
    ensures Enabled(Next(Next(s, moved), buried), delivered)
    ensures Next(Next(Next(s, moved), buried), delivered).peers
            == s.peers[n := Renamed(s.peers[n], source, letter.path, letter.entry)]
  {
    var rep := s.peers[n].rep;
    var files := (rep.files - {source})[letter.path := rep.files[source]];
    moved := DiskChanges(n, files);
    buried := Edits(n, excluded, MovedAway(source));
    delivered := Delivers(n, letter, None, 0);
    assert files - {source} == files;
  }

  lemma EditCounted(v: Version, p: Path, edits: (Node, Path) -> nat, n: Node, w: Version, edits': (Node, Path) -> nat)
    requires Counted(v, p, edits)
    requires w.entry.clock == Incremented(v.entry.clock, n) && w.history == v.history + {Edit(n, p, edits(n, p) + 1)}
    requires Component(v.entry.clock, n) == edits(n, p)
    requires forall m :: edits'(m, p) == edits(m, p) + if m == n then 1 else 0
    ensures Counted(w, p, edits')
  {
    IncrementIsLater(v.entry.clock, n);
  }

  /* ---- Every step keeps the invariant ---- */

  /** The version was already somewhere, times aside. */
  ghost predicate Inherited(s: System, v: Version, p: Path, place: Place) {
    && VersionAt(s, place, p).Some?
    && var w := VersionAt(s, place, p).value;
       v.history == w.history && v.entry == w.entry.(mtime := v.entry.mtime)
  }

  /** A step that only copies versions keeps soundness. */
  lemma CopiesKeepSound(s: System, s': System)
    requires Sound(s) && s'.edits == s.edits
    requires forall n :: n in s'.peers ==> s'.peers[n].cfg.id == n
    requires forall n, p :: OwnCount(s', n, p)
    requires forall place, p :: VersionAt(s', place, p).Some? ==>
               exists origin :: Inherited(s, VersionAt(s', place, p).value, p, origin)
    ensures Sound(s')
  {
    forall place, p | VersionAt(s', place, p).Some? ensures Counted(VersionAt(s', place, p).value, p, s'.edits) {
      var origin :| Inherited(s, VersionAt(s', place, p).value, p, origin);
      assert Counted(VersionAt(s, origin, p).value, p, s.edits);
    }
    forall place, place', p | VersionAt(s', place, p).Some? && VersionAt(s', place', p).Some?
      ensures SameIfSameHistory(VersionAt(s', place, p).value, VersionAt(s', place', p).value)
    {
      var origin :| Inherited(s, VersionAt(s', place, p).value, p, origin);
      var origin' :| Inherited(s, VersionAt(s', place', p).value, p, origin');
      assert SameIfSameHistory(VersionAt(s, origin, p).value, VersionAt(s, origin', p).value);
    }
  }

  lemma DiskChangeKeepsSound(s: System, step: Step)
    requires Sound(s) && Enabled(s, step) && step.DiskChanges?
    ensures Sound(Next(s, step))
  {
    var s' := Next(s, step);
    forall n, p ensures OwnCount(s', n, p) { assert OwnCount(s, n, p); }
    forall place, p | VersionAt(s', place, p).Some?
      ensures exists origin :: Inherited(s, VersionAt(s', place, p).value, p, origin)
    {
      assert Inherited(s, VersionAt(s', place, p).value, p, place);
    }
    CopiesKeepSound(s, s');
  }

  lemma SendKeepsSound(s: System, step: Step)
    requires Sound(s) && Enabled(s, step) && step.Sends?
    ensures Sound(Next(s, step))
  {
    var s' := Next(s, step);
    forall n, p ensures OwnCount(s', n, p) { assert OwnCount(s, n, p); }
    forall place, p | VersionAt(s', place, p).Some?
      ensures exists origin :: Inherited(s, VersionAt(s', place, p).value, p, origin)
    {
      var origin := if VersionAt(s, place, p).Some? then place else AtNode(step.node);
      assert Inherited(s, VersionAt(s', place, p).value, p, origin);
    }
    CopiesKeepSound(s, s');
  }

  /** Storing a delivered version keeps the clocks sound exactly when it counts
      as many of the node's own edits as what it replaces. */
  lemma StoringKeepsSoundIff(s: System, n: Node, letter: Letter, content: Option<Content>, stamp: Time)
    requires Sound(s) && n in s.peers && letter in s.mail
    ensures Sound(AfterDelivery(s, n, letter, content, stamp)) <==> LetIn(s.peers[n], n, letter)
  {
    var s' := AfterDelivery(s, n, letter, content, stamp);
    assert OwnCount(s, n, letter.path);
    if LetIn(s.peers[n], n, letter) {
      forall k, p ensures OwnCount(s', k, p) {
        assert OwnCount(s, k, p);
      }
      forall place, p | VersionAt(s', place, p).Some?
        ensures exists origin :: Inherited(s, VersionAt(s', place, p).value, p, origin)
      {
        var origin := if place == AtNode(n) && p == letter.path then InMail(letter) else place;
        assert Inherited(s, VersionAt(s', place, p).value, p, origin);
      }
      CopiesKeepSound(s, s');
    } else {
      assert !OwnCount(s', n, letter.path);
    }
  }

  /* ---- Meetings ---- */

  /** The entry stays, or the other side's version is copied. */
  ghost predicate StaysOrCopies(before: Option<Entry>, theirs: Option<Entry>, after: Option<Entry>) {
    || after == before
    || (theirs.Some? && after.Some? && after.value == theirs.value.(mtime := after.value.mtime))
  }

  /** A session in which no rename fires only copies versions, whatever it
      concedes or refetches. */
  lemma SessionOnlyCopies(a: Peer, b: Peer, env: Env, p: Path)
    requires ValidEnv(env) && NoRename(a, b, env) && Backed(a.rep) && Backed(b.rep)
    ensures StaysOrCopies(Lookup(a.rep.entries, p), Lookup(b.rep.entries, p),
                          Lookup(Refreshed(a, b, env).rep.entries, p))
    ensures StaysOrCopies(Lookup(b.rep.entries, p), Lookup(a.rep.entries, p),
                          Lookup(Supplied(a, b, env).rep.entries, p))
  {
    HearingStaysOrMoves(a, b.rep.entries, ListenerNames(b.rep.entries, env), p);
    HearingStaysOrMoves(b, a.rep.entries, InitiatorNames(a.rep.entries, env), p);
    InformedByDeletions(a, b.rep.entries, env);
    RefreshedAt(a, b, env, p);
    PushedIsOwn(a, b, env, p);
    SuppliedAt(a, b, env, p);
  }

  /** Of two nodes that only copied versions of each other: one side. */
  lemma MeetingSide(s: System, s': System, k: Node, other: Node, p: Path)
    requires Sound(s) && s'.edits == s.edits && k in s.peers && other in s.peers && k in s'.peers
    requires StaysOrCopies(Lookup(s.peers[k].rep.entries, p), Lookup(s.peers[other].rep.entries, p),
                           Lookup(s'.peers[k].rep.entries, p))
    requires s'.history(k, p) == if Lookup(s'.peers[k].rep.entries, p) != Lookup(s.peers[k].rep.entries, p)
                                 then s.history(other, p) else s.history(k, p)
    ensures OwnCount(s', k, p) <==> OwnPart(s'.peers[k].rep.entries, k, p) == OwnPart(s.peers[k].rep.entries, k, p)
    ensures VersionAt(s', AtNode(k), p).Some? ==>
              exists origin :: Inherited(s, VersionAt(s', AtNode(k), p).value, p, origin)
  {
    assert OwnCount(s, k, p);
    if VersionAt(s', AtNode(k), p).Some? {
      var changed := Lookup(s'.peers[k].rep.entries, p) != Lookup(s.peers[k].rep.entries, p);
      assert Inherited(s, VersionAt(s', AtNode(k), p).value, p, AtNode(if changed then other else k));
    }
  }

  lemma MeetingAt(s: System, n: Node, m: Node, a': Peer, b': Peer, k: Node, p: Path)
    requires Sound(s) && n in s.peers && m in s.peers && n != m
    requires StaysOrCopies(Lookup(s.peers[n].rep.entries, p), Lookup(s.peers[m].rep.entries, p),
        Lookup(a'.rep.entries, p))
    requires StaysOrCopies(Lookup(s.peers[m].rep.entries, p), Lookup(s.peers[n].rep.entries, p),
        Lookup(b'.rep.entries, p))
    ensures var s' := AfterMeeting(s, n, m, a', b');
            && (OwnCount(s', k, p) <==>
                  && (k == n ==> OwnPart(a'.rep.entries, n, p) == OwnPart(s.peers[n].rep.entries, n, p))
                  && (k == m ==> OwnPart(b'.rep.entries, m, p) == OwnPart(s.peers[m].rep.entries, m, p)))
            && (VersionAt(s', AtNode(k), p).Some? ==>
                  exists origin :: Inherited(s, VersionAt(s', AtNode(k), p).value, p, origin))
  {
    var s' := AfterMeeting(s, n, m, a', b');
    if k == n || k == m {
      MeetingSide(s, s', k, if k == n then m else n, p);
    } else {
      assert OwnCount(s, k, p);
      if VersionAt(s', AtNode(k), p).Some? {
        assert Inherited(s, VersionAt(s', AtNode(k), p).value, p, AtNode(k));
      }
    }
  }

  lemma AfterMeetingIsSoundIff(s: System, n: Node, m: Node, a': Peer, b': Peer)
    requires Sound(s) && n in s.peers && m in s.peers && n != m && a'.cfg.id == n && b'.cfg.id == m
    requires forall p ::
               StaysOrCopies(Lookup(s.peers[n].rep.entries, p), Lookup(s.peers[m].rep.entries, p),
                             Lookup(a'.rep.entries, p))
    requires forall p ::
               StaysOrCopies(Lookup(s.peers[m].rep.entries, p), Lookup(s.peers[n].rep.entries, p),
                             Lookup(b'.rep.entries, p))
    ensures Sound(AfterMeeting(s, n, m, a', b')) <==>
              && ForgetsNothing(s.peers[n].rep.entries, a'.rep.entries, n)
              && ForgetsNothing(s.peers[m].rep.entries, b'.rep.entries, m)
  {
    var s' := AfterMeeting(s, n, m, a', b');
    if Sound(s') {
      forall p
        ensures OwnPart(a'.rep.entries, n, p) == OwnPart(s.peers[n].rep.entries, n, p)
        ensures OwnPart(b'.rep.entries, m, p) == OwnPart(s.peers[m].rep.entries, m, p)
      {
        assert OwnCount(s', n, p) && OwnCount(s', m, p);
        MeetingAt(s, n, m, a', b', n, p);
        MeetingAt(s, n, m, a', b', m, p);
      }
    }
    if ForgetsNothing(s.peers[n].rep.entries, a'.rep.entries, n)
       && ForgetsNothing(s.peers[m].rep.entries, b'.rep.entries, m) {
      forall k, p ensures OwnCount(s', k, p) {
        MeetingAt(s, n, m, a', b', k, p);
      }
      forall place, p | VersionAt(s', place, p).Some?
        ensures exists origin :: Inherited(s, VersionAt(s', place, p).value, p, origin)
      {
        if place.AtNode? {
          MeetingAt(s, n, m, a', b', place.node, p);
        } else {
          assert Inherited(s, VersionAt(s', place, p).value, p, place);
        }
      }
      CopiesKeepSound(s, s');
    }
  }

  /** A version that dominates a node's own counts all its edits. */
  lemma DominatingCountsOwn(s: System, k: Node, other: Node, after: Index, p: Path)
    requires Sound(s) && k in s.peers && other in s.peers
    requires StaysOrMoves(Lookup(s.peers[k].rep.entries, p), Lookup(s.peers[other].rep.entries, p), Lookup(after, p))
    ensures OwnPart(after, k, p) == OwnPart(s.peers[k].rep.entries, k, p)
  {
    if Lookup(after, p) != Lookup(s.peers[k].rep.entries, p) {
      assert Counted(VersionAt(s, AtNode(other), p).value, p, s.edits);
      assert OwnCount(s, k, p);
      if p in s.peers[k].rep.entries {
        AtMostEverywhere(s.peers[k].rep.entries[p].clock, s.peers[other].rep.entries[p].clock);
      }
    }
  }

  /** What a side takes back is the other's version. */
  lemma TakenBack(a: Peer, b: Peer, env: Env, p: Path)
    requires ValidEnv(env) && NoRename(a, b, env) && Backed(a.rep) && Backed(b.rep)
    ensures TakesBack(a, b, p) ==>
              Lookup(Refreshed(a, b, env).rep.entries, p) == Some(b.rep.entries[p].(mtime := env.initiatorStamp(p)))
    ensures Revives(a, b, p) ==>
              var after := Lookup(Supplied(a, b, env).rep.entries, p);
              after.Some? && after.value.clock == a.rep.entries[p].clock
  {
    InformedByDeletions(a, b.rep.entries, env);
    HearingStaysOrMoves(a, b.rep.entries, ListenerNames(b.rep.entries, env), p);
    WantsAt(a, b.rep.entries, env, p);
    RefreshedAt(a, b, env, p);
    ListenerStaysOrMovesIff(a, b, env, p);
    SessionOnlyCopies(a, b, env, p);
  }

  lemma ForgetsAtIff(s: System, n: Node, m: Node, env: Env, p: Path)
    requires Sound(s) && n in s.peers && m in s.peers && n != m && ValidEnv(env)
    requires var a, b := s.peers[n], s.peers[m]; NoRename(a, b, env) && Backed(a.rep) && Backed(b.rep)
    ensures var a, b := s.peers[n], s.peers[m];
            && OwnPart(Refreshed(a, b, env).rep.entries, n, p) == OwnPart(a.rep.entries, n, p)
            && OwnPart(Supplied(a, b, env).rep.entries, m, p) == OwnPart(b.rep.entries, m, p)
            <==> OwnEditsSafe(a, b, p)
  {
    var a, b := s.peers[n], s.peers[m];
    TakenBack(a, b, env, p);
    if !TakesBack(a, b, p) {
      InitiatorStaysOrMovesIff(a, b, env, p);
      DominatingCountsOwn(s, n, m, Refreshed(a, b, env).rep.entries, p);
    }
    if !Revives(a, b, p) {
      ListenerStaysOrMovesIff(a, b, env, p);
      DominatingCountsOwn(s, m, n, Supplied(a, b, env).rep.entries, p);
    }
  }

  /** A session in which no rename fires keeps the clocks sound exactly when no
      side takes back a version that lacks an edit of its own. */
  lemma MeetingKeepsSoundIff(s: System, n: Node, m: Node, env: Env)
    requires Sound(s) && n in s.peers && m in s.peers && n != m && ValidEnv(env)
    requires var a, b := s.peers[n], s.peers[m]; NoRename(a, b, env) && Backed(a.rep) && Backed(b.rep)
    ensures var a, b := s.peers[n], s.peers[m];
            Sound(AfterMeeting(s, n, m, Refreshed(a, b, env), Supplied(a, b, env)))
            <==> forall p :: OwnEditsSafe(a, b, p)
  {
    var a, b := s.peers[n], s.peers[m];
    var a', b' := Refreshed(a, b, env), Supplied(a, b, env);
    forall p
      ensures StaysOrCopies(Lookup(a.rep.entries, p), Lookup(b.rep.entries, p), Lookup(a'.rep.entries, p))
      ensures StaysOrCopies(Lookup(b.rep.entries, p), Lookup(a.rep.entries, p), Lookup(b'.rep.entries, p))
      ensures OwnEditsSafe(a, b, p) <==>
                && OwnPart(a'.rep.entries, n, p) == OwnPart(a.rep.entries, n, p)
                && OwnPart(b'.rep.entries, m, p) == OwnPart(b.rep.entries, m, p)
    {
      SessionOnlyCopies(a, b, env, p);
      ForgetsAtIff(s, n, m, env, p);
    }
    SessionKeepsConfig(a, b, env);
    AfterMeetingIsSoundIff(s, n, m, a', b');
  }

  /** The version an edit creates. */
  ghost predicate Edited(s: System, s': System, step: Step, place: Place, p: Path) {
    && step.Edits? && place == AtNode(step.node) && step.node in s.peers && step.node in s'.peers
    && p in s'.peers[step.node].rep.entries
    && Lookup(s'.peers[step.node].rep.entries, p) != Lookup(s.peers[step.node].rep.entries, p)
  }

  lemma EditedVersion(s: System, step: Step, p: Path)
    requires Sound(s) && Enabled(s, step) && step.Edits?
    requires Edited(s, Next(s, step), step, AtNode(step.node), p)
    ensures var s' := Next(s, step);
            var v := VersionAt(s', AtNode(step.node), p).value;
            && Counted(v, p, s'.edits)
            && Component(v.entry.clock, step.node) == s.edits(step.node, p) + 1 == s'.edits(step.node, p)
  {
    var n := step.node;
    var rep := s.peers[n].rep;
    var s' := Next(s, step);
    var v := VersionAt(s', AtNode(n), p).value;
    ReindexedAt(rep, n, step.excluded, step.how, p);
    assert OwnCount(s, n, p);
    if p in rep.entries && !Restarts(rep, step.excluded, step.how, p) {
      var w := VersionAt(s, AtNode(n), p).value;
      assert Counted(w, p, s.edits);
      EditCounted(w, p, s.edits, n, v, s'.edits);
    } else {
      EditCounted(Version(v.entry.(clock := map[]), {}), p, s.edits, n, v, s'.edits);
    }
    IncrementIsLater(Continued(rep, step.excluded, step.how, p), n);
  }

  lemma EditKeepsSound(s: System, step: Step)
    requires Sound(s) && Enabled(s, step) && step.Edits?
    ensures Sound(Next(s, step))
  {
    var n, s' := step.node, Next(s, step);
    forall m, p ensures OwnCount(s', m, p) {
      assert OwnCount(s, m, p);
      ReindexedAt(s.peers[n].rep, n, step.excluded, step.how, p);
      if Edited(s, s', step, AtNode(n), p) {
        EditedVersion(s, step, p);
      }
    }
    forall place, p | VersionAt(s', place, p).Some? ensures Counted(VersionAt(s', place, p).value, p, s'.edits) {
      if Edited(s, s', step, place, p) {
        EditedVersion(s, step, p);
      } else {
        assert VersionAt(s', place, p) == VersionAt(s, place, p);
        assert Counted(VersionAt(s, place, p).value, p, s.edits);
      }
    }
    forall place, place', p | VersionAt(s', place, p).Some? && VersionAt(s', place', p).Some?
      ensures SameIfSameHistory(VersionAt(s', place, p).value, VersionAt(s', place', p).value)
    {
      EditedIsDistinct(s, step, place, place', p);
    }
  }

  /** No other version counts the new edit. */
  lemma EditedIsDistinct(s: System, step: Step, place: Place, place': Place, p: Path)
    requires Sound(s) && Enabled(s, step) && step.Edits?
    requires VersionAt(Next(s, step), place, p).Some? && VersionAt(Next(s, step), place', p).Some?
    ensures SameIfSameHistory(VersionAt(Next(s, step), place, p).value, VersionAt(Next(s, step), place', p).value)
  {
    var s' := Next(s, step);
    var v, v' := VersionAt(s', place, p).value, VersionAt(s', place', p).value;
    var new1, new2 := Edited(s, s', step, place, p), Edited(s, s', step, place', p);
    if !new1 && !new2 {
      assert VersionAt(s', place, p) == VersionAt(s, place, p) && VersionAt(s', place', p) == VersionAt(s, place', p);
      assert SameIfSameHistory(VersionAt(s, place, p).value, VersionAt(s, place', p).value);
    } else if !(new1 && new2) {
      EditedVersion(s, step, p);
      var unedited := if new1 then place' else place;
      assert VersionAt(s', unedited, p) == VersionAt(s, unedited, p);
      assert Counted(VersionAt(s, unedited, p).value, p, s.edits);
      AtMostEverywhere(v.entry.clock, v'.entry.clock);
      AtMostEverywhere(v'.entry.clock, v.entry.clock);
    }
  }

  /** Reindexing keeps the clocks sound exactly when it restarts no path of which
      the node has counted an edit of its own; only a full scan can. */
  lemma ReindexKeepsSoundIff(s: System, n: Node, excluded: Path -> bool, how: Reindex)
    requires Sound(s) && n in s.peers
    ensures Sound(AfterReindex(s, n, excluded, how)) <==> ForgetsNoEdit(s.peers[n].rep, n, excluded, how)
    ensures !how.Everything? ==> Sound(AfterReindex(s, n, excluded, how))
  {
    var rep, s' := s.peers[n].rep, AfterReindex(s, n, excluded, how);
    if ForgetsNoEdit(rep, n, excluded, how) {
      EditKeepsSound(s, Edits(n, excluded, how));
    } else {
      var p :| Restarts(rep, excluded, how, p) && Component(rep.entries[p].clock, n) != 0;
      ReindexedAt(rep, n, excluded, how, p);
      IncrementIsLater(map[], n);
      assert OwnCount(s, n, p);
      assert !OwnCount(s', n, p);
    }
  }

  /** So a full scan does exactly when every path that reappears was deleted
      without the node ever having edited it. */
  lemma ScanKeepsSoundIff(s: System, n: Node, excluded: Path -> bool)
    requires Sound(s) && n in s.peers
    ensures var rep := s.peers[n].rep;
            Sound(AfterReindex(s, n, excluded, Everything)) <==>
              forall p :: Dead(rep.entries, p) && p in rep.files && !excluded(p) ==>
                Component(rep.entries[p].clock, n) == 0
  {
    ReindexKeepsSoundIff(s, n, excluded, Everything);
    var rep := s.peers[n].rep;
    assert forall p :: Restarts(rep, excluded, Everything, p) <==>
                         Dead(rep.entries, p) && p in rep.files && !excluded(p);
  }

  lemma StepKeepsSound(s: System, step: Step)
    requires Sound(s) && Enabled(s, step)
    ensures Sound(Next(s, step))
  {
    match step {
      case DiskChanges(_, _) => DiskChangeKeepsSound(s, step);
      case Edits(_, _, _) => EditKeepsSound(s, step);
      case Sends(_, _) => SendKeepsSound(s, step);
      case Delivers(n, letter, content, stamp) => StoringKeepsSoundIff(s, n, letter, content, stamp);
      case Meets(n, m, env) => MeetingKeepsSoundIff(s, n, m, env);
    }
  }

  /* ---- Runs ---- */

  ghost predicate IsRun(run: seq<System>, steps: seq<Step>) {
    && |run| == |steps| + 1
    && Fresh(run[0])
    && forall k :: 0 <= k < |steps| ==> Enabled(run[k], steps[k]) && run[k + 1] == Next(run[k], steps[k])
  }

  lemma {:induction false} RunIsSound(run: seq<System>, steps: seq<Step>, k: nat)
    requires IsRun(run, steps) && k < |run|
    ensures Sound(run[k])
  {
    if k == 0 {
      FreshIsSound(run[0]);
    } else {
      RunIsSound(run, steps, k - 1);
      assert Enabled(run[k - 1], steps[k - 1]);
      StepKeepsSound(run[k - 1], steps[k - 1]);
    }
  }

  /** Clocks order versions as the sets of edits behind them do. */
  lemma CountedOrder(v: Version, w: Version, p: Path, edits: (Node, Path) -> nat)
    requires Counted(v, p, edits) && Counted(w, p, edits)
    ensures AtMost(v.entry.clock, w.entry.clock) <==> v.history <= w.history
  {
    AtMostEverywhere(v.entry.clock, w.entry.clock);
    if v.history <= w.history {
      forall n ensures Component(v.entry.clock, n) <= Component(w.entry.clock, n) {
        if Component(v.entry.clock, n) > 0 {
          assert Edit(n, p, Component(v.entry.clock, n)) in v.history;
        }
      }
    }
    if AtMost(v.entry.clock, w.entry.clock) {
      forall e | e in v.history ensures e in w.history {
        assert Component(v.entry.clock, e.node) <= Component(w.entry.clock, e.node);
      }
    }
  }

  /** Clock soundness over whole runs: at every moment, for any two versions of
      a path at any nodes or in flight, one happened before the other exactly
      when the edits behind it are a strict subset of the other's; versions with
      one history are the same version; and no version counts more of a node's
      edits than that node's own entry does. */
  lemma ClocksAreSound(run: seq<System>, steps: seq<Step>, k: nat, place: Place, place': Place, p: Path, n: Node)
    requires IsRun(run, steps) && k < |run|
    requires VersionAt(run[k], place, p).Some? && VersionAt(run[k], place', p).Some?
    ensures var v, w := VersionAt(run[k], place, p).value, VersionAt(run[k], place', p).value;
            && (Before(v.entry.clock, w.entry.clock) <==> v.history < w.history)
            && (SameHistory(v.entry.clock, w.entry.clock) ==>
                  v.entry.checksum == w.entry.checksum && v.entry.deleted == w.entry.deleted)
            && (n in run[k].peers ==>
                  Component(v.entry.clock, n) <=
                  if p in run[k].peers[n].rep.entries then Component(run[k].peers[n].rep.entries[p].clock, n) else 0)
  {
    var s := run[k];
    RunIsSound(run, steps, k);
    var v, w := VersionAt(s, place, p).value, VersionAt(s, place', p).value;
    assert Counted(v, p, s.edits) && Counted(w, p, s.edits);
    CountedOrder(v, w, p, s.edits);
    CountedOrder(w, v, p, s.edits);
    assert SameIfSameHistory(v, w);
    assert OwnCount(s, n, p);
  }

  /* ---- Where soundness ends ---- */

  /** A full scan gives a reappearing path a new clock: it continues the
      tombstone's history exactly when that history was empty. */
  lemma RescanForgetsIff(rep: Replica, id: Node, excluded: Path -> bool, p: Path)
    requires Dead(rep.entries, p) && p in rep.files && !excluded(p)
    ensures var scanned := Scanned(rep, id, excluded, false).entries;
            p in scanned
            && (Before(rep.entries[p].clock, scanned[p].clock) <==> forall n :: Component(rep.entries[p].clock, n) == 0)
  {
    var restarted: Clock := Incremented(map[], id);
    IncrementIsLater(map[], id);
    AtMostEverywhere(rep.entries[p].clock, restarted);
    AtMostEverywhere(restarted, rep.entries[p].clock);
    assert Lookup(Scanned(rep, id, excluded, false).entries, p) == ScannedEntry(rep, id, excluded, false, p);
  }

  /** Reindexing the one file instead always continues it. */
  lemma ReindexContinues(rep: Replica, id: Node, excluded: Path -> bool, p: Path)
    requires Dead(rep.entries, p) && p in rep.files && !excluded(p)
    ensures Before(rep.entries[p].clock, ScannedOne(rep, id, excluded, p).entries[p].clock)
  {
    IncrementIsLater(rep.entries[p].clock, id);
  }
}
