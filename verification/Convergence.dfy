/** Sessions bring two nodes together, and exactly when they do not. */
module Convergence {
  import opened Options
  import opened VectorClocks
  import opened FileIndexes
  import opened Decisions
  import opened Sessions
  import opened StepFacts
  import opened Cells

  /** Versions with the same history are the same version. */
  ghost predicate HistoryTells(x: Index, y: Index) {
    forall p :: p in x && p in y && SameHistory(x[p].clock, y[p].clock)
                ==> x[p].deleted == y[p].deleted && x[p].checksum == y[p].checksum
  }

  /** What every convergence result assumes of the two nodes at the start. */
  ghost predicate Steady(a: Peer, b: Peer) {
    && Backed(a.rep) && Backed(b.rep)
    && a.cfg.syncDeletes && b.cfg.syncDeletes
    && OnePathPerContent(a.rep.entries, b.rep.entries)
    && HistoryTells(a.rep.entries, b.rep.entries)
  }

  /** One path as the two sides see it. */
  ghost predicate SteadyCell(x: Side, y: Side) {
    && x.cfg.syncDeletes && y.cfg.syncDeletes
    && (x.IsDead() ==> x.entry.value.checksum == Blank && x.entry.value.mtime == 0)
    && (y.IsDead() ==> y.entry.value.checksum == Blank && y.entry.value.mtime == 0)
    && (x.IsLive() ==> x.entry.value.checksum != Blank)
    && (y.IsLive() ==> y.entry.value.checksum != Blank)
    && (x.entry.Some? && y.entry.Some? && SameHistory(x.entry.value.clock, y.entry.value.clock) ==>
          x.entry.value.deleted == y.entry.value.deleted && x.entry.value.checksum == y.entry.value.checksum)
  }

  ghost predicate SameLive(x: Side, y: Side) {
    && (x.IsLive() <==> y.IsLive())
    && (x.IsLive() ==> x.entry.value.checksum == y.entry.value.checksum)
  }

  /* ---- Conflicts ---- */

  predicate Conflicting(x: Side, y: Side) {
    && x.entry.Some? && y.entry.Some?
    && Concurrent(x.entry.value.clock, y.entry.value.clock)
    && x.entry.value.checksum != y.entry.value.checksum
  }

  /** By its strategy `x` gives way to the live version of `y`. */
  predicate Yields(x: Side, y: Side) {
    x.entry.Some? && y.IsLive() && Concedes(x.cfg, x.entry.value, y.entry.value)
  }

  /** A conflict in which neither side gives way. */
  predicate Stalemate(x: Side, y: Side) {
    Conflicting(x, y) && !Yields(x, y) && !Yields(y, x)
  }

  /** It takes last-write-wins: on both sides and equal times if both versions are
      live, else on the side of the tombstone and a live version without a
      positive time. */
  lemma StalemateIff(x: Side, y: Side)
    requires SteadyCell(x, y) && Conflicting(x, y)
    ensures x.IsLive() || y.IsLive()
    ensures Stalemate(x, y) <==>
              if x.IsLive() && y.IsLive() then
                !x.cfg.keepBoth && !y.cfg.keepBoth && x.entry.value.mtime == y.entry.value.mtime
              else if x.IsLive() then !y.cfg.keepBoth && x.entry.value.mtime <= 0
              else !x.cfg.keepBoth && y.entry.value.mtime <= 0
  {
  }

  /** The content that should survive on a path: that of the later version; of
      two concurrent ones a live one before a tombstone, and of two live ones
      the one modified last. */
  function Survivor(x: Option<Entry>, y: Option<Entry>): Option<Checksum> {
    if x.None? && y.None? then None
    else
      var winner :=
        if y.None? then x.value
        else if x.None? then y.value
        else if AtMost(y.value.clock, x.value.clock) then x.value
        else if AtMost(x.value.clock, y.value.clock) then y.value
        else if x.value.deleted then y.value
        else if y.value.deleted || y.value.mtime <= x.value.mtime then x.value
        else y.value;
      if winner.deleted then None else Some(winner.checksum)
  }

  ghost predicate Holds(x: Side, survivor: Option<Checksum>) {
    && (x.IsLive() <==> survivor.Some?)
    && (x.IsLive() ==> x.entry.value.checksum == survivor.value)
  }

  /** Both sides let the modification times decide, and neither asks for a path
      because it is flagged. */
  predicate TimesDecide(x: Side, y: Side) {
    !x.cfg.keepBoth && !y.cfg.keepBoth && !x.corrupted && !y.corrupted
  }

  lemma SurvivorSymmetric(x: Side, y: Side)
    requires SteadyCell(x, y) && TimesDecide(x, y) && !Stalemate(x, y)
    ensures Survivor(x.entry, y.entry) == Survivor(y.entry, x.entry)
  {
  }

  lemma SurvivorHolds(x: Side, y: Side)
    requires SteadyCell(x, y) && SameLive(x, y)
    ensures Holds(x, Survivor(x.entry, y.entry)) && Holds(y, Survivor(x.entry, y.entry))
  {
  }

  /* ---- One session ---- */

  /** The two sides of a path after a session initiated by `x`. */
  ghost predicate Met(x: Side, y: Side, x': Side, y': Side, s: Time, t: Time) {
    && x' == MeetInitiator(x, y, s)
    && y'.cfg == y.cfg
    && y'.entry == MeetListener(x, y, s, t)
    && y'.pending == Heard(y, x).pending
    && (y'.corrupted ==> y.corrupted)
  }

  /** What a session leaves of a path that is not in stalemate: agreement, or a
      deletion that one side has put off, or a conflict that only the other side
      can settle by initiating. */
  ghost predicate HalfSettled(x: Side, y: Side) {
    || SameLive(x, y)
    || (x.IsLive() && y.IsDead() && Before(x.entry.value.clock, y.entry.value.clock) && x.pending)
    || (y.IsLive() && x.IsDead() && Before(y.entry.value.clock, x.entry.value.clock) && y.pending)
    || (Conflicting(x, y) && y.IsLive() && (x.IsDead() <==> Yields(x, y)))
  }

  /** What every session keeps of a path. */
  ghost predicate Kept(x: Side, y: Side, x': Side, y': Side) {
    && SteadyCell(x', y') && x'.cfg == x.cfg && y'.cfg == y.cfg
    && (x'.corrupted ==> x.corrupted) && (y'.corrupted ==> y.corrupted)
    && (if Stalemate(x, y) then x'.entry == x.entry && y'.entry == y.entry
        else !Stalemate(x', y')
             && (TimesDecide(x, y) ==> Survivor(x'.entry, y'.entry) == Survivor(x.entry, y.entry)))
  }

  /** The first session `x` initiates. */
  lemma FirstRound(x: Side, y: Side, x': Side, y': Side, s: Time, t: Time)
    requires SteadyCell(x, y) && Met(x, y, x', y', s, t)
    ensures Kept(x, y, x', y')
    ensures !Stalemate(x, y) ==> HalfSettled(x', y')
  {
  }

  /** Another one from the same side settles nothing that only the other can. */
  lemma RepeatedRound(x: Side, y: Side, x': Side, y': Side, s: Time, t: Time)
    requires SteadyCell(x, y) && HalfSettled(x, y) && Met(x, y, x', y', s, t)
    ensures HalfSettled(x', y')
    ensures Conflicting(x, y) ==> x'.entry == x.entry && y'.entry == y.entry
  {
  }

  /** One from the other side settles every such path except stalemates. */
  lemma SecondRound(x: Side, y: Side, x': Side, y': Side, s: Time, t: Time)
    requires SteadyCell(x, y) && HalfSettled(y, x) && Met(x, y, x', y', s, t)
    ensures !Stalemate(x, y) ==> SameLive(x', y')
  {
  }

  /** Agreement stays. */
  lemma SettledRound(x: Side, y: Side, x': Side, y': Side, s: Time, t: Time)
    requires SteadyCell(x, y) && SameLive(x, y) && Met(x, y, x', y', s, t)
    ensures SameLive(x', y')
  {
  }

  /** One session as the path-by-path relation, with what it keeps. */
  ghost predicate Round(a: Peer, b: Peer, a': Peer, b': Peer, env: Env) {
    && (forall p :: Met(SideAt(a, p), SideAt(b, p), SideAt(a', p), SideAt(b', p),
                        env.initiatorStamp(p), env.listenerStamp(p)))
    && Backed(a'.rep) && Backed(b'.rep)
  }

  lemma SessionIsRound(a: Peer, b: Peer, env: Env)
    requires ValidEnv(env) && OnePathPerContent(a.rep.entries, b.rep.entries) && Backed(a.rep) && Backed(b.rep)
    ensures var (a', b') := Session(a, b, env);
            Round(a, b, a', b', env) && OnePathPerContent(a'.rep.entries, b'.rep.entries)
  {
    var (a', b') := Session(a, b, env);
    forall p
      ensures Met(SideAt(a, p), SideAt(b, p), SideAt(a', p), SideAt(b', p), env.initiatorStamp(p), env.listenerStamp(p))
    {
      SessionIsCellwise(a, b, env, p);
    }
    SessionKeepsBacked(a, b, env);
    SessionKeepsOnePath(a, b, env);
  }

  lemma SteadyAt(a: Peer, b: Peer, p: Path)
    requires Steady(a, b)
    ensures SteadyCell(SideAt(a, p), SideAt(b, p))
  {
  }

  lemma AgreePathwise(a: Peer, b: Peer)
    ensures LiveView(a.rep.entries) == LiveView(b.rep.entries) <==> forall p :: SameLive(SideAt(a, p), SideAt(b, p))
  {
    var x, y := LiveView(a.rep.entries), LiveView(b.rep.entries);
    if x == y {
      forall p ensures SameLive(SideAt(a, p), SideAt(b, p)) {
        assert p in x <==> p in y;
        if p in x { assert x[p] == y[p]; }
      }
    }
    if forall p :: SameLive(SideAt(a, p), SideAt(b, p)) {
      forall p ensures (p in x <==> p in y) && (p in x ==> x[p] == y[p]) {
        assert SameLive(SideAt(a, p), SideAt(b, p));
      }
      assert x == y;
    }
  }

  /* ---- Any schedule of sessions ---- */

  /** A session of a schedule: who initiates, and in which environment. */
  datatype Meeting = Meeting(byFirst: bool, env: Env)

  function Meet(a: Peer, b: Peer, meeting: Meeting): (Peer, Peer) {
    if meeting.byFirst then Session(a, b, meeting.env)
    else
      var (b', a') := Session(b, a, meeting.env);
      (a', b')
  }

  function AllMeetings(a: Peer, b: Peer, plan: seq<Meeting>): (Peer, Peer) {
    if plan == [] then (a, b)
    else
      var (a', b') := AllMeetings(a, b, plan[..|plan| - 1]);
      Meet(a', b', plan[|plan| - 1])
  }

  ghost predicate Initiates(plan: seq<Meeting>, first: bool) {
    exists meeting :: meeting in plan && meeting.byFirst == first
  }

  /** How far a path has come from its start `x0`, `y0`, by who has initiated. */
  ghost predicate Progress(x0: Side, y0: Side, x: Side, y: Side, first: bool, second: bool) {
    && Kept(x0, y0, x, y)
    && (!Stalemate(x0, y0) ==>
          if first && second then SameLive(x, y)
          else if first then HalfSettled(x, y)
          else if second then HalfSettled(y, x)
          else true)
  }

  lemma KeptOn(x0: Side, y0: Side, x: Side, y: Side, x': Side, y': Side)
    requires Kept(x0, y0, x, y) && Kept(x, y, x', y')
    ensures Kept(x0, y0, x', y')
  {
  }

  lemma FirstInitiates(x0: Side, y0: Side, x: Side, y: Side, x': Side, y': Side, first: bool, second: bool,
      s: Time, t: Time)
    requires Progress(x0, y0, x, y, first, second) && Met(x, y, x', y', s, t)
    ensures Progress(x0, y0, x', y', true, second)
  {
    FirstRound(x, y, x', y', s, t);
    KeptOn(x0, y0, x, y, x', y');
    if !Stalemate(x0, y0) {
      if first && second {
        SettledRound(x, y, x', y', s, t);
      } else if second {
        SecondRound(x, y, x', y', s, t);
      }
    }
  }

  lemma FlippedProgress(x0: Side, y0: Side, x: Side, y: Side, first: bool, second: bool)
    requires SteadyCell(x0, y0) && Progress(x0, y0, x, y, first, second)
    ensures SteadyCell(y0, x0) && Progress(y0, x0, y, x, second, first)
  {
    if !Stalemate(x0, y0) && TimesDecide(x0, y0) {
      SurvivorSymmetric(x0, y0);
      SurvivorSymmetric(x, y);
    }
  }

  /** One session as the path-by-path relation, by who initiates. */
  ghost predicate RoundOf(a: Peer, b: Peer, a': Peer, b': Peer, meeting: Meeting) {
    if meeting.byFirst then Round(a, b, a', b', meeting.env) else Round(b, a, b', a', meeting.env)
  }

  lemma MeetingIsRound(a: Peer, b: Peer, meeting: Meeting)
    requires ValidEnv(meeting.env) && OnePathPerContent(a.rep.entries, b.rep.entries)
    requires Backed(a.rep) && Backed(b.rep)
    ensures var (a', b') := Meet(a, b, meeting);
            && RoundOf(a, b, a', b', meeting) && OnePathPerContent(a'.rep.entries, b'.rep.entries)
  {
    if meeting.byFirst {
      SessionIsRound(a, b, meeting.env);
    } else {
      var (b', a') := Session(b, a, meeting.env);
      FlippedOnePath(a.rep.entries, b.rep.entries);
      SessionIsRound(b, a, meeting.env);
      FlippedOnePath(b'.rep.entries, a'.rep.entries);
    }
  }

  lemma MeetingProgress(x0: Side, y0: Side, a: Peer, b: Peer, a': Peer, b': Peer, meeting: Meeting, p: Path,
      first: bool, second: bool)
    requires SteadyCell(x0, y0) && Progress(x0, y0, SideAt(a, p), SideAt(b, p), first, second)
    requires RoundOf(a, b, a', b', meeting)
    ensures Progress(x0, y0, SideAt(a', p), SideAt(b', p), first || meeting.byFirst, second || !meeting.byFirst)
  {
    var s, t := meeting.env.initiatorStamp(p), meeting.env.listenerStamp(p);
    if meeting.byFirst {
      FirstInitiates(x0, y0, SideAt(a, p), SideAt(b, p), SideAt(a', p), SideAt(b', p), first, second, s, t);
    } else {
      FlippedProgress(x0, y0, SideAt(a, p), SideAt(b, p), first, second);
      FirstInitiates(y0, x0, SideAt(b, p), SideAt(a, p), SideAt(b', p), SideAt(a', p), second, first, s, t);
      FlippedProgress(y0, x0, SideAt(b', p), SideAt(a', p), true, first);
    }
  }

  ghost predicate ValidPlan(plan: seq<Meeting>) {
    forall meeting :: meeting in plan ==> ValidEnv(meeting.env)
  }

  /** Where a path is after some sessions, and what they keep. */
  ghost predicate Reached(x0: Side, y0: Side, both: (Peer, Peer), p: Path, first: bool, second: bool) {
    && Backed(both.0.rep) && Backed(both.1.rep) && OnePathPerContent(both.0.rep.entries, both.1.rep.entries)
    && Progress(x0, y0, SideAt(both.0, p), SideAt(both.1, p), first, second)
  }

  lemma NextReached(x0: Side, y0: Side, both: (Peer, Peer), meeting: Meeting, p: Path, first: bool, second: bool)
    requires SteadyCell(x0, y0) && ValidEnv(meeting.env)
    requires Reached(x0, y0, both, p, first, second)
    ensures Reached(x0, y0, Meet(both.0, both.1, meeting), p, first || meeting.byFirst, second || !meeting.byFirst)
  {
    var next := Meet(both.0, both.1, meeting);
    MeetingIsRound(both.0, both.1, meeting);
    MeetingProgress(x0, y0, both.0, both.1, next.0, next.1, meeting, p, first, second);
  }

  lemma InitiatesLast(plan: seq<Meeting>, first: bool)
    requires plan != []
    ensures Initiates(plan, first) <==>
              Initiates(plan[..|plan| - 1], first) || plan[|plan| - 1].byFirst == first
  {
    var earlier, meeting := plan[..|plan| - 1], plan[|plan| - 1];
    assert plan == earlier + [meeting];
    assert meeting in plan;
  }

  lemma {:induction false} ScheduleProgress(x0: Side, y0: Side, a: Peer, b: Peer, plan: seq<Meeting>, p: Path)
    requires SteadyCell(x0, y0) && Reached(x0, y0, (a, b), p, false, false) && ValidPlan(plan)
    ensures Reached(x0, y0, AllMeetings(a, b, plan), p, Initiates(plan, true), Initiates(plan, false))
  {
    if plan != [] {
      var earlier := plan[..|plan| - 1];
      ScheduleProgress(x0, y0, a, b, earlier, p);
      InitiatesLast(plan, true);
      InitiatesLast(plan, false);
      NextReached(x0, y0, AllMeetings(a, b, earlier), plan[|plan| - 1], p, Initiates(earlier, true),
                  Initiates(earlier, false));
    }
  }

  lemma ScheduledReaches(a: Peer, b: Peer, plan: seq<Meeting>, p: Path)
    requires Steady(a, b) && ValidPlan(plan)
    ensures Reached(SideAt(a, p), SideAt(b, p), AllMeetings(a, b, plan), p,
                    Initiates(plan, true), Initiates(plan, false))
  {
    SteadyAt(a, b, p);
    ScheduleProgress(SideAt(a, p), SideAt(b, p), a, b, plan, p);
  }

  /** Two-way convergence, for every mix of strategies, every schedule of sessions
      in which each node initiates at least once, and whatever deletions were
      already put off: a path ends the same on both sides, and stays so through
      all later sessions, exactly when it is not in stalemate; a stalemate is
      never touched. */
  lemma ScheduleConvergesAt(a: Peer, b: Peer, plan: seq<Meeting>, p: Path)
    requires Steady(a, b) && ValidPlan(plan) && Initiates(plan, true) && Initiates(plan, false)
    ensures var (a', b') := AllMeetings(a, b, plan);
            && (SameLive(SideAt(a', p), SideAt(b', p)) <==> !Stalemate(SideAt(a, p), SideAt(b, p)))
            && (Stalemate(SideAt(a, p), SideAt(b, p)) ==>
                  Lookup(a'.rep.entries, p) == Lookup(a.rep.entries, p)
                  && Lookup(b'.rep.entries, p) == Lookup(b.rep.entries, p))
  {
    ScheduledReaches(a, b, plan, p);
  }

  /** So the live views agree exactly when no path is in stalemate. */
  lemma TwoWayConvergenceIff(a: Peer, b: Peer, plan: seq<Meeting>)
    requires Steady(a, b) && ValidPlan(plan) && Initiates(plan, true) && Initiates(plan, false)
    ensures var (a', b') := AllMeetings(a, b, plan);
            && Backed(a'.rep) && Backed(b'.rep)
            && (LiveView(a'.rep.entries) == LiveView(b'.rep.entries)
                <==> forall p :: !Stalemate(SideAt(a, p), SideAt(b, p)))
  {
    var (a', b') := AllMeetings(a, b, plan);
    forall p ensures SameLive(SideAt(a', p), SideAt(b', p)) <==> !Stalemate(SideAt(a, p), SideAt(b, p)) {
      ScheduleConvergesAt(a, b, plan, p);
    }
    ScheduledReaches(a, b, plan, "f");
    AgreePathwise(a', b');
  }

  /** And under last-write-wins, on a path that is neither flagged nor in
      stalemate, what remains on both sides is the content that should survive. */
  lemma SurvivorRemains(a: Peer, b: Peer, plan: seq<Meeting>, p: Path)
    requires Steady(a, b) && ValidPlan(plan) && Initiates(plan, true) && Initiates(plan, false)
    requires TimesDecide(SideAt(a, p), SideAt(b, p)) && !Stalemate(SideAt(a, p), SideAt(b, p))
    ensures var (a', b') := AllMeetings(a, b, plan);
            var survivor := Survivor(Lookup(a.rep.entries, p), Lookup(b.rep.entries, p));
            Holds(SideAt(a', p), survivor) && Holds(SideAt(b', p), survivor)
  {
    var (a', b') := AllMeetings(a, b, plan);
    ScheduledReaches(a, b, plan, p);
    SurvivorHolds(SideAt(a', p), SideAt(b', p));
  }

  /** Equal live views of backed indexes are equal files. */
  lemma AgreementReachesDisk(a: Peer, b: Peer, p: Path)
    requires Backed(a.rep) && Backed(b.rep) && LiveView(a.rep.entries) == LiveView(b.rep.entries)
    requires Live(a.rep.entries, p)
    ensures p in a.rep.files && p in b.rep.files && a.rep.files[p].content == b.rep.files[p].content
  {
    assert p in LiveView(a.rep.entries) && p in LiveView(b.rep.entries);
    assert LiveView(a.rep.entries)[p] == LiveView(b.rep.entries)[p];
  }

  /* ---- Sessions initiated by one side only ---- */

  ghost predicate SameVersion(x: Side, y: Side) {
    && SameLive(x, y)
    && (x.IsLive() ==> SameHistory(x.entry.value.clock, y.entry.value.clock))
  }

  /** A conflict that no session of `x` settles: `x` does not give way to a live
      version of `y`, nor `y` with a tombstone to one of `x`; over a tombstone of
      its own `x` never asks. */
  predicate Blocked(x: Side, y: Side) {
    Conflicting(x, y) && if x.IsDead() then y.IsLive() else if y.IsLive() then !Yields(x, y) else !Yields(y, x)
  }

  /** Agreement, or a deletion one side has put off. */
  ghost predicate AlmostSame(x: Side, y: Side) {
    || SameLive(x, y)
    || (x.IsLive() && y.IsDead() && Before(x.entry.value.clock, y.entry.value.clock) && x.pending)
    || (y.IsLive() && x.IsDead() && Before(y.entry.value.clock, x.entry.value.clock) && y.pending)
  }

  predicate Comparable(x: Side, y: Side) {
    x.entry.Some? && y.entry.Some? ==> !Concurrent(x.entry.value.clock, y.entry.value.clock)
  }

  lemma OneWayFirst(x: Side, y: Side, x': Side, y': Side, s: Time, t: Time)
    requires SteadyCell(x, y) && Met(x, y, x', y', s, t)
    ensures SteadyCell(x', y') && (x'.corrupted ==> x.corrupted)
    ensures if Blocked(x, y) then x'.entry == x.entry && y'.entry == y.entry && x'.cfg == x.cfg && y'.cfg == y.cfg
            else AlmostSame(x', y')
    ensures Comparable(x, y) ==> Comparable(x', y') && (x'.IsLive() && y'.IsLive() ==> SameVersion(x', y'))
    ensures Comparable(x, y) && !x.corrupted ==> Survivor(x'.entry, y'.entry) == Survivor(x.entry, y.entry)
  {
  }

  lemma OneWaySecond(x: Side, y: Side, x': Side, y': Side, s: Time, t: Time)
    requires SteadyCell(x, y) && Met(x, y, x', y', s, t) && AlmostSame(x, y)
    ensures SameLive(x', y')
    ensures Comparable(x, y) ==> SameVersion(x', y')
    ensures Comparable(x, y) && !x.corrupted ==> Holds(x', Survivor(x.entry, y.entry))
  {
  }

  /** What two sessions of `x` make of a path. */
  ghost predicate OneWayOutcome(x: Side, y: Side, x': Side, y': Side) {
    && (SameLive(x', y') <==> !Blocked(x, y))
    && (Comparable(x, y) ==> SameVersion(x', y'))
    && (Comparable(x, y) && !x.corrupted ==> Holds(x', Survivor(x.entry, y.entry)))
  }

  lemma OneWayAt(a: Peer, b: Peer, a1: Peer, b1: Peer, a2: Peer, b2: Peer, env1: Env, env2: Env, p: Path)
    requires Steady(a, b) && Round(a, b, a1, b1, env1) && Round(a1, b1, a2, b2, env2)
    ensures OneWayOutcome(SideAt(a, p), SideAt(b, p), SideAt(a2, p), SideAt(b2, p))
  {
    var x, y, x1, y1 := SideAt(a, p), SideAt(b, p), SideAt(a1, p), SideAt(b1, p);
    SteadyAt(a, b, p);
    OneWayFirst(x, y, x1, y1, env1.initiatorStamp(p), env1.listenerStamp(p));
    OneWayFirst(x1, y1, SideAt(a2, p), SideAt(b2, p), env2.initiatorStamp(p), env2.listenerStamp(p));
    if !Blocked(x, y) {
      OneWaySecond(x1, y1, SideAt(a2, p), SideAt(b2, p), env2.initiatorStamp(p), env2.listenerStamp(p));
    }
  }

  /** Convergence when only one node ever initiates: two sessions make a path the
      same on both sides exactly when it is not blocked; where the two versions
      are comparable they make it the same in history too, deletions put off by
      either side included, and unless it was flagged the later version is what
      remains. */
  lemma OneWayConvergesAt(a: Peer, b: Peer, env1: Env, env2: Env, p: Path)
    requires ValidEnv(env1) && ValidEnv(env2) && Steady(a, b)
    ensures var (a1, b1) := Session(a, b, env1);
            var (a2, b2) := Session(a1, b1, env2);
            OneWayOutcome(SideAt(a, p), SideAt(b, p), SideAt(a2, p), SideAt(b2, p))
  {
    var (a1, b1) := Session(a, b, env1);
    SessionIsRound(a, b, env1);
    var (a2, b2) := Session(a1, b1, env2);
    SessionIsRound(a1, b1, env2);
    OneWayAt(a, b, a1, b1, a2, b2, env1, env2, p);
  }

  lemma TwoOneWayRounds(a: Peer, b: Peer, a1: Peer, b1: Peer, a2: Peer, b2: Peer, env1: Env, env2: Env)
    requires Steady(a, b) && Round(a, b, a1, b1, env1) && Round(a1, b1, a2, b2, env2)
    ensures LiveView(a2.rep.entries) == LiveView(b2.rep.entries) <==> forall p :: !Blocked(SideAt(a, p), SideAt(b, p))
  {
    forall p ensures SameLive(SideAt(a2, p), SideAt(b2, p)) <==> !Blocked(SideAt(a, p), SideAt(b, p)) {
      OneWayAt(a, b, a1, b1, a2, b2, env1, env2, p);
    }
    AgreePathwise(a2, b2);
  }

  /** So the live views agree exactly when no path is blocked, as without
      concurrent versions none is. */
  lemma OneWayConvergenceIff(a: Peer, b: Peer, env1: Env, env2: Env)
    requires ValidEnv(env1) && ValidEnv(env2) && Steady(a, b)
    ensures var (a1, b1) := Session(a, b, env1);
            var (a2, b2) := Session(a1, b1, env2);
            && Backed(a2.rep) && Backed(b2.rep)
            && (LiveView(a2.rep.entries) == LiveView(b2.rep.entries)
                <==> forall p :: !Blocked(SideAt(a, p), SideAt(b, p)))
    ensures (forall p :: Comparable(SideAt(a, p), SideAt(b, p))) ==> forall p :: !Blocked(SideAt(a, p), SideAt(b, p))
  {
    var (a1, b1) := Session(a, b, env1);
    SessionIsRound(a, b, env1);
    var (a2, b2) := Session(a1, b1, env2);
    SessionIsRound(a1, b1, env2);
    TwoOneWayRounds(a, b, a1, b1, a2, b2, env1, env2);
  }
}
