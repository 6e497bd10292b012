/** Sessions in which no rename fires: neither does the initiator replay one of
    the listener's, nor does it announce one of its own. */
module PlainSessions {
  import opened FileIndexes
  import opened Decisions
  import opened Sessions
  import opened StepFacts

  /** After the deletion pass no local path is due to be renamed. */
  ghost predicate NoReplay(a: Peer, remote: Index, env: Env) {
    var names := ListenerNames(remote, env);
    forall p :: !RenameDue(AfterDeletions(a, remote, names).rep.entries, remote, names, p)
  }

  ghost predicate NoRename(a: Peer, b: Peer, env: Env) {
    && NoReplay(a, b.rep.entries, env)
    && var a4 := Refreshed(a, b, env);
       PlainPushes(a4, ListenerNames(b.rep.entries, env), env.initiatorOrder(a4.rep.entries.Keys))
  }

  /** The initiator only hears of deletions. */
  lemma InformedByDeletions(a: Peer, remote: Index, env: Env)
    requires NoReplay(a, remote, env)
    ensures Informed(a, remote, env) == AfterDeletions(a, remote, ListenerNames(remote, env))
  {
    var names := ListenerNames(remote, env);
    var a1 := AfterDeletions(a, remote, names);
    NothingToRename(a1, a1.rep.entries, remote, names, env.initiatorOrder(a1.rep.entries.Keys));
  }

  /** What the pushes leave of one path at the listener. */
  lemma SuppliedAt(a: Peer, b: Peer, env: Env, p: Path)
    requires ValidEnv(env) && NoRename(a, b, env) && Backed(a.rep) && Backed(b.rep)
    ensures var a4, b1, b2 := Refreshed(a, b, env), Greeted(b, a.rep.entries, env), Supplied(a, b, env);
            && b2.cfg == b.cfg && b2.pending == b1.pending
            && (p in b2.rep.corrupted ==> p in b1.rep.corrupted)
            && Lookup(b2.rep.entries, p) ==
               if Pushed(a4, b.rep.entries, p)
               then Arrived(b.cfg, Lookup(b1.rep.entries, p), a4.rep.entries[p], env.listenerStamp(p))
               else Lookup(b1.rep.entries, p)
  {
    var remote, a4 := b.rep.entries, Refreshed(a, b, env);
    var order := env.initiatorOrder(a4.rep.entries.Keys);
    assert Enumerates(order, a4.rep.entries.Keys);
    SessionKeepsBacked(a, b, env);
    PlainPushAt(Greeted(b, a.rep.entries, env), a4, remote, ListenerNames(remote, env), order, env.listenerStamp, p);
  }
}
