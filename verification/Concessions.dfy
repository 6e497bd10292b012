/** How conceded conflicts break the clocks: a run of three sessions and two
    edits that ends with one history and two contents. */
module Concessions {
  import opened Options
  import opened VectorClocks
  import opened FileIndexes
  import opened Decisions
  import opened Sessions
  import opened Cells
  import opened Convergence
  import opened Duplicates
  import opened Histories

  /** A node whose index holds nothing but `p`. */
  ghost predicate HoldsOnly(me: Peer, p: Path) {
    Backed(me.rep) && me.rep.entries.Keys <= {p} && me.rep.corrupted == {}
  }

  lemma NothingAppears(x: Side, y: Side, x': Side, y': Side, s: Time, t: Time)
    requires x.entry.None? && y.entry.None? && !x.corrupted && !y.corrupted && Met(x, y, x', y', s, t)
    ensures x'.entry.None? && y'.entry.None? && !x'.corrupted && !y'.corrupted
  {
  }

  lemma NotFlagged(x: Side, y: Side, x': Side, y': Side, s: Time, t: Time)
    requires !x.corrupted && !y.corrupted && Met(x, y, x', y', s, t)
    ensures !x'.corrupted && !y'.corrupted && x'.cfg == x.cfg && y'.cfg == y.cfg
  {
  }

  lemma StillHoldsOnly(a: Peer, b: Peer, a': Peer, b': Peer, env: Env, p: Path)
    requires HoldsOnly(a, p) && HoldsOnly(b, p) && Round(a, b, a', b', env)
    ensures HoldsOnly(a', p) && HoldsOnly(b', p) && a'.cfg == a.cfg && b'.cfg == b.cfg
  {
    forall q
      ensures q != p ==> q !in a'.rep.entries && q !in b'.rep.entries
      ensures q !in a'.rep.corrupted && q !in b'.rep.corrupted
    {
      assert Met(SideAt(a, q), SideAt(b, q), SideAt(a', q), SideAt(b', q), env.initiatorStamp(q),
                 env.listenerStamp(q));
      NotFlagged(SideAt(a, q), SideAt(b, q), SideAt(a', q), SideAt(b', q), env.initiatorStamp(q),
                 env.listenerStamp(q));
      if q != p {
        NothingAppears(SideAt(a, q), SideAt(b, q), SideAt(a', q), SideAt(b', q), env.initiatorStamp(q),
                       env.listenerStamp(q));
        assert SideAt(a', q).entry.None? && SideAt(b', q).entry.None?;
      }
    }
    assert Met(SideAt(a, p), SideAt(b, p), SideAt(a', p), SideAt(b', p), env.initiatorStamp(p), env.listenerStamp(p));
    NotFlagged(SideAt(a, p), SideAt(b, p), SideAt(a', p), SideAt(b', p), env.initiatorStamp(p), env.listenerStamp(p));
  }

  /** What a session between `a` and `b` does to `p`. */
  ghost predicate MetAt(a: Peer, b: Peer, a': Peer, b': Peer, env: Env, p: Path) {
    Met(SideAt(a, p), SideAt(b, p), SideAt(a', p), SideAt(b', p), env.initiatorStamp(p), env.listenerStamp(p))
  }

  /** Between two such nodes a session is what it does to `p`. */
  lemma OnlyPathMeets(a: Peer, b: Peer, env: Env, p: Path)
    requires ValidEnv(env) && HoldsOnly(a, p) && HoldsOnly(b, p)
    ensures var (a', b') := Session(a, b, env);
            && MetAt(a, b, a', b', env, p) && HoldsOnly(a', p) && HoldsOnly(b', p)
            && a'.cfg == a.cfg && b'.cfg == b.cfg
  {
    var (a', b') := Session(a, b, env);
    SessionIsRound(a, b, env);
    StillHoldsOnly(a, b, a', b', env, p);
  }

  /** A local edit of `p`, picked up by the watcher. */
  function Edited(me: Peer, p: Path, file: File): Replica {
    ScannedOne(me.rep.(files := me.rep.files[p := file]), me.cfg.id, _ => false, p)
  }

  /** `c` initiates with `a`, then `a` with `b`, then `b` with `c`: the nodes `a`
      and `b` before and after the sessions in which they may concede. */
  function AfterRelay(a: Peer, b: Peer, c: Peer, e1: Env, e2: Env, e3: Env): (Peer, Peer, Peer) {
    var (c1, a1) := Session(c, a, e1);
    var (a2, b1) := Session(a1, b, e2);
    (a1, a2, Session(b1, c1, e3).0)
  }

  /** `a` and `b` each hold a first version of `p` of their own; `c` pulls that of
      `a` and so gives it a later time.  Then `a` concedes to `b` and `b` to the
      copy of `c`: both have forgotten their own edit. */
  lemma RelayForgets(a: Peer, b: Peer, c: Peer, e1: Env, e2: Env, e3: Env, p: Path, v: Entry, w: Entry)
    requires ValidEnv(e1) && ValidEnv(e2) && ValidEnv(e3)
    requires HoldsOnly(a, p) && HoldsOnly(b, p) && HoldsOnly(c, p)
    requires a.cfg.id != b.cfg.id && !a.cfg.keepBoth && !b.cfg.keepBoth
    requires a.rep.entries == map[p := v] && b.rep.entries == map[p := w] && c.rep.entries == map[]
    requires !v.deleted && v.clock == map[a.cfg.id := 1] && !w.deleted && w.clock == map[b.cfg.id := 1]
    requires v.checksum != w.checksum && v.mtime < w.mtime < e1.initiatorStamp(p)
    ensures var (a1, a2, b2) := AfterRelay(a, b, c, e1, e2, e3);
            && a2.cfg == a.cfg && b2.cfg == b.cfg
            && Lookup(a1.rep.entries, p) == Some(v)
            && Lookup(a2.rep.entries, p) == Some(w.(mtime := e2.initiatorStamp(p)))
            && Lookup(b2.rep.entries, p) == Some(v.(mtime := e3.initiatorStamp(p)))
            && !ForgetsNothing(a1.rep.entries, a2.rep.entries, a.cfg.id)
  {
    var (c1, a1) := Session(c, a, e1);
    OnlyPathMeets(c, a, e1, p);
    var (a2, b1) := Session(a1, b, e2);
    OnlyPathMeets(a1, b, e2, p);
    var (b2, c2) := Session(b1, c1, e3);
    OnlyPathMeets(b1, c1, e3, p);
    RelayAt(a, b, c, c1, a1, a2, b1, b2, c2, e1, e2, e3, p, v, w);
    assert OwnPart(a1.rep.entries, a.cfg.id, p) == 1 && OwnPart(a2.rep.entries, a.cfg.id, p) == 0;
  }

  lemma RelayAt(a: Peer, b: Peer, c: Peer, c1: Peer, a1: Peer, a2: Peer, b1: Peer, b2: Peer, c2: Peer,
      e1: Env, e2: Env, e3: Env, p: Path, v: Entry, w: Entry)
    requires MetAt(c, a, c1, a1, e1, p) && MetAt(a1, b, a2, b1, e2, p) && MetAt(b1, c1, b2, c2, e3, p)
    requires a.cfg.id != b.cfg.id && a1.cfg == a.cfg && b1.cfg == b.cfg && !a.cfg.keepBoth && !b.cfg.keepBoth
    requires Lookup(a.rep.entries, p) == Some(v) && Lookup(b.rep.entries, p) == Some(w) && p !in c.rep.entries
    requires !v.deleted && v.clock == map[a.cfg.id := 1] && !w.deleted && w.clock == map[b.cfg.id := 1]
    requires v.checksum != w.checksum && v.mtime < w.mtime < e1.initiatorStamp(p)
    ensures Lookup(a1.rep.entries, p) == Some(v)
    ensures Lookup(a2.rep.entries, p) == Some(w.(mtime := e2.initiatorStamp(p)))
    ensures Lookup(b2.rep.entries, p) == Some(v.(mtime := e3.initiatorStamp(p)))
  {
    assert a.cfg.id in v.clock && b.cfg.id in w.clock;
    FirstCopy(SideAt(c, p), SideAt(a, p), SideAt(c1, p), SideAt(a1, p), e1.initiatorStamp(p), e1.listenerStamp(p));
    Conceded(SideAt(a1, p), SideAt(b, p), SideAt(a2, p), SideAt(b1, p), e2.initiatorStamp(p), e2.listenerStamp(p));
    Conceded(SideAt(b1, p), SideAt(c1, p), SideAt(b2, p), SideAt(c2, p), e3.initiatorStamp(p), e3.listenerStamp(p));
  }

  lemma FirstCopy(x: Side, y: Side, x': Side, y': Side, s: Time, t: Time)
    requires x.entry.None? && y.IsLive() && Met(x, y, x', y', s, t)
    ensures x'.entry == Some(y.entry.value.(mtime := s)) && y'.entry == y.entry
  {
  }

  /** Under last-write-wins the older of two concurrent contents gives way on the
      initiating side and nothing is pushed. */
  lemma Conceded(x: Side, y: Side, x': Side, y': Side, s: Time, t: Time)
    requires x.IsLive() && y.IsLive() && Concurrent(x.entry.value.clock, y.entry.value.clock)
    requires x.entry.value.checksum != y.entry.value.checksum && x.entry.value.mtime < y.entry.value.mtime
    requires Met(x, y, x', y', s, t)
    ensures x'.entry == Some(y.entry.value.(mtime := s)) && y'.entry == y.entry
  {
  }

  /** The next edit on each side then completes the same pair of counts. */
  lemma EditsMakeTwins(a2: Peer, b2: Peer, p: Path, v: Entry, w: Entry, s: Time, t: Time, fa: File, fb: File)
    requires a2.cfg.id != b2.cfg.id && !v.deleted && !w.deleted
    requires v.clock == map[a2.cfg.id := 1] && w.clock == map[b2.cfg.id := 1]
    requires p in a2.rep.entries && a2.rep.entries[p] == w.(mtime := s)
    requires p in b2.rep.entries && b2.rep.entries[p] == v.(mtime := t)
    requires Drifted(w.(mtime := s), fa) && Drifted(v.(mtime := t), fb)
    requires Sha256(fa.content) != w.checksum && Sha256(fb.content) != v.checksum && fa.content != fb.content
    ensures Twins(Edited(a2, p, fa).entries, Edited(b2, p, fb).entries, p)
  {
    assert Incremented(w.clock, a2.cfg.id) == Incremented(v.clock, b2.cfg.id);
  }

  /* ---- Such a run exists ---- */

  /** A node that has just indexed one file, or none. */
  function FirstVersion(id: Node, p: Path, content: Content, time: Time): Peer {
    var file := File(content, time);
    Peer(Config(id, false, true), ScannedOne(Replica(map[], {}, map[p := file]), id, _ => false, p), {})
  }

  lemma FirstVersionIs(id: Node, p: Path, content: Content, time: Time)
    ensures var me := FirstVersion(id, p, content, time);
            me.rep.entries == map[p := Entry(Digest(content), time, map[id := 1], false)] && HoldsOnly(me, p)
  {
    assert Incremented(map[], id) == map[id := 1];
  }

  /** Letting concurrent versions in makes twins: two nodes that each create a
      file of one name, three sessions with a third node between them, and one
      more edit on each side. */
  lemma ConcessionMakesTwins(p: Path) returns (a: Peer, b: Peer, c: Peer, fa: File, fb: File)
    ensures a == FirstVersion("a", p, [1], 1) && b == FirstVersion("b", p, [2], 2)
    ensures c == Peer(Config("c", false, true), Replica(map[], {}, map[]), {})
    ensures ValidEnv(EnvAt(3)) && ValidEnv(EnvAt(4)) && ValidEnv(EnvAt(5))
    ensures var (a1, a2, b2) := AfterRelay(a, b, c, EnvAt(3), EnvAt(4), EnvAt(5));
            && !ForgetsNothing(a1.rep.entries, a2.rep.entries, a.cfg.id)
            && Twins(Edited(a2, p, fa).entries, Edited(b2, p, fb).entries, p)
  {
    a, b := FirstVersion("a", p, [1], 1), FirstVersion("b", p, [2], 2);
    c := Peer(Config("c", false, true), Replica(map[], {}, map[]), {});
    fa, fb := File([3], 60_000_000), File([4], 60_000_000);
    var v, w := Entry(Digest([1]), 1, map["a" := 1], false), Entry(Digest([2]), 2, map["b" := 1], false);
    FirstVersionIs("a", p, [1], 1);
    FirstVersionIs("b", p, [2], 2);
    EnvAtIsValid(3);
    EnvAtIsValid(4);
    EnvAtIsValid(5);
    RelayForgets(a, b, c, EnvAt(3), EnvAt(4), EnvAt(5), p, v, w);
    var (a1, a2, b2) := AfterRelay(a, b, c, EnvAt(3), EnvAt(4), EnvAt(5));
    assert Digest([3]) != w.checksum && Digest([4]) != v.checksum;
    EditsMakeTwins(a2, b2, p, v, w, 4, 5, fa, fb);
  }
}
