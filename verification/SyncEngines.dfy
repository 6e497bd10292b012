/** Deciding between two versions of a path. */
module SyncEngines {
  import opened VectorClocks
  import opened FileIndexes

  datatype Action = KeepLocal | AcceptRemote | Conflict

  /** What causality says about two versions. */
  function Verdict(local: Entry, remote: Entry): Action {
    if AtMost(remote.clock, local.clock) then KeepLocal
    else if AtMost(local.clock, remote.clock) then AcceptRemote
    else Conflict
  }

  function LastWriteWins(local: Entry, remote: Entry): Action {
    if remote.mtime > local.mtime then AcceptRemote else KeepLocal
  }

  function ConflictName(p: Path, id: Node): Path {
    p + ".syncd-conflict." + id
  }

  /** The disk after the local copy of `p` is saved under its conflict name,
      unless there is no local copy or the name is taken. */
  function WithConflictCopy(files: Disk, p: Path, id: Node): Disk {
    if p in files && ConflictName(p, id) !in files then files[ConflictName(p, id) := files[p]] else files
  }

  lemma ConflictNameInjective(p: Path, q: Path, id: Node)
    requires ConflictName(p, id) == ConflictName(q, id)
    ensures p == q
  {
    var s := ".syncd-conflict." + id;
    assert ConflictName(p, id) == p + s && ConflictName(q, id) == q + s;
    assert p == (p + s)[..|p|] && q == (q + s)[..|q|];
  }

  /** Two nodes never share the conflict name of a path; and how it is spelled. */
  lemma ConflictNamesApart(p: Path, id: Node, other: Node)
    requires ConflictName(p, id) == ConflictName(p, other)
    ensures id == other
    ensures ConflictName("notes.txt", "n1") == "notes.txt.syncd-conflict.n1"
  {
    var s := p + ".syncd-conflict.";
    assert ConflictName(p, id) == s + id && ConflictName(p, other) == s + other;
    assert id == (s + id)[|s|..] && other == (s + other)[|s|..];
  }

  method Reconcile(local: Entry, remote: Entry, nodeId: Node) returns (action: Action)
    ensures action == Verdict(local, remote)
  {
    var localClock := new VectorClock(nodeId, local.clock);
    var remoteClock := new VectorClock(nodeId, remote.clock);
    localClock.EqualsIsSameHistory(remoteClock);
    if localClock.Equals(remoteClock) {
      return KeepLocal;
    }
    var remoteIsOlder := remoteClock.HappensBefore(localClock);
    if remoteIsOlder {
      return KeepLocal;
    }
    var localIsOlder := localClock.HappensBefore(remoteClock);
    if localIsOlder {
      return AcceptRemote;
    }
    return Conflict;
  }

  method ResolveKeepBoth(index: FileIndex, p: Path, nodeId: Node) returns (action: Action)
    modifies index`files
    ensures action == AcceptRemote
    ensures index.State() == old(index.State()).(files := WithConflictCopy(old(index.files), p, nodeId))
  {
    var conflictPath := ConflictName(p, nodeId);
    if p in index.files && conflictPath !in index.files {
      index.files := index.files[conflictPath := index.files[p]];
    }
    return AcceptRemote;
  }
}
