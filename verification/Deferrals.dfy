/** Deletions over the whole life of a node: each one is confirmed. */
module Deferrals {
  import opened VectorClocks
  import opened FileIndexes
  import opened Decisions
  import opened StepFacts

  /** One deletion pass: the node as it was, and what the peer announced. */
  datatype Pass = Pass(me: Peer, remote: Index, names: Names) {
    function After(): Peer {
      AfterDeletions(me, remote, names)
    }

    predicate Defers(p: Path) {
      p !in me.pending && p in After().pending
    }

    predicate Removes(p: Path) {
      p in me.rep.files && p !in After().rep.files
    }

    /** The put-off deletion is dropped without being carried out. */
    predicate Withdraws(p: Path) {
      p in me.pending && p !in After().pending && !Deletes(p)
    }

    predicate Deletes(p: Path) {
      Live(me.rep.entries, p) && Dead(After().rep.entries, p)
    }
  }

  /** A life: the pending set starts empty and only the passes change it;
      between passes index and disk may change in any way. */
  ghost predicate IsLife(life: seq<Pass>) {
    && (life != [] ==> life[0].me.pending == {})
    && (forall k :: 0 < k < |life| ==> life[k].me.pending == life[k - 1].After().pending)
  }

  lemma PassAt(pass: Pass, p: Path)
    ensures pass.Removes(p) ==> pass.Deletes(p)
    ensures pass.Deletes(p) ==> p in pass.me.pending && p !in pass.After().pending
    ensures pass.Deletes(p) ==> Doomed(pass.me, pass.remote, pass.names, p)
  {
    DeletionsAt(pass.me, pass.remote, pass.names, p);
  }

  /** Every deletion uses up a deferral of its own: an earlier pass put it off,
      and no deferral or deletion of the path lies between. */
  lemma DeletionHasItsDeferral(life: seq<Pass>, k: nat, p: Path) returns (j: nat)
    requires IsLife(life) && k < |life| && life[k].Deletes(p)
    ensures j < k && life[j].Defers(p)
    ensures forall i :: j < i < k ==> !life[i].Defers(p) && !life[i].Deletes(p)
  {
    PassAt(life[k], p);
    j := k;
    while !(j < k && life[j].Defers(p))
      invariant 0 <= j <= k
      invariant p in life[j].me.pending
      invariant forall i :: j <= i < k ==> !life[i].Defers(p) && !life[i].Deletes(p)
      decreases j
    {
      if j == 0 {
        assert false;
      }
      assert life[j].me.pending == life[j - 1].After().pending;
      PassAt(life[j - 1], p);
      if life[j - 1].Defers(p) {
        j := j - 1;
        return;
      }
      j := j - 1;
    }
  }

  function Count(life: seq<Pass>, what: Pass -> bool): nat {
    if life == [] then 0
    else Count(life[..|life| - 1], what) + if what(life[|life| - 1]) then 1 else 0
  }

  /** The books balance: what was put off is deleted, withdrawn, or still put
      off at the end. */
  lemma {:induction false} DeferralsAreConserved(life: seq<Pass>, p: Path)
    requires IsLife(life)
    ensures Count(life, (pass: Pass) => pass.Defers(p))
            == Count(life, (pass: Pass) => pass.Deletes(p)) + Count(life, (pass: Pass) => pass.Withdraws(p))
               + if life != [] && p in life[|life| - 1].After().pending then 1 else 0
  {
    if life != [] {
      var last := |life| - 1;
      var before := life[..last];
      forall k | 0 < k < |before| ensures before[k].me.pending == before[k - 1].After().pending {
        assert life[k].me.pending == life[k - 1].After().pending;
      }
      DeferralsAreConserved(before, p);
      PassAt(life[last], p);
      if before != [] {
        assert life[last].me.pending == life[last - 1].After().pending;
        assert before[|before| - 1] == life[last - 1];
      }
      CountLast(life, (pass: Pass) => pass.Defers(p));
      CountLast(life, (pass: Pass) => pass.Deletes(p));
      CountLast(life, (pass: Pass) => pass.Withdraws(p));
    }
  }

  lemma CountLast(life: seq<Pass>, what: Pass -> bool)
    requires life != []
    ensures Count(life, what) == Count(life[..|life| - 1], what) + if what(life[|life| - 1]) then 1 else 0
  {
  }

  /** The peer holds the content of the local version live under some path. */
  ghost predicate LiveAtPeer(pass: Pass, p: Path)
    requires p in pass.me.rep.entries
  {
    exists q :: Live(pass.remote, q) && pass.remote[q].checksum == pass.me.rep.entries[p].checksum
  }

  /** The peer's tombstone strictly dominates a local version whose content the
      peer holds nowhere. */
  ghost predicate Condemned(pass: Pass, p: Path) {
    && Dead(pass.remote, p) && Live(pass.me.rep.entries, p)
    && Before(pass.me.rep.entries[p].clock, pass.remote[p].clock)
    && !LiveAtPeer(pass, p)
  }

  /** What a pass does to a path, in terms of the two indexes alone: a condemned
      path is put off the first time and deleted the next; a deferral is dropped
      exactly when the local version is gone or moved at the peer.  A deferral
      whose tombstone no longer dominates stays. */
  lemma PassMeaning(pass: Pass, p: Path)
    requires IsNames(pass.names, pass.remote) && Backed(pass.me.rep)
    ensures pass.Defers(p) <==> pass.me.cfg.syncDeletes && Condemned(pass, p) && p !in pass.me.pending
    ensures pass.Deletes(p) <==> pass.me.cfg.syncDeletes && Condemned(pass, p) && p in pass.me.pending
    ensures pass.Withdraws(p) <==>
              pass.me.cfg.syncDeletes && p in pass.me.pending && Dead(pass.remote, p)
              && (Live(pass.me.rep.entries, p) ==> LiveAtPeer(pass, p))
  {
    DeletionsAt(pass.me, pass.remote, pass.names, p);
    if Live(pass.me.rep.entries, p) && Dead(pass.remote, p) {
      ElsewhereIsLiveAtPeer(pass, p);
    }
  }

  lemma ElsewhereIsLiveAtPeer(pass: Pass, p: Path)
    requires IsNames(pass.names, pass.remote) && Backed(pass.me.rep)
    requires Live(pass.me.rep.entries, p) && Dead(pass.remote, p)
    ensures KnownElsewhere(pass.names, pass.me.rep.entries[p].checksum, p) <==> LiveAtPeer(pass, p)
  {
    var c := pass.me.rep.entries[p].checksum;
    if c in pass.names {
      assert Live(pass.remote, pass.names[c]) && pass.remote[pass.names[c]].checksum == c;
    }
  }
}
