/** A whole session between an initiator and a listener, as a function. */
module Sessions {
  import opened FileIndexes
  import opened Decisions
  import opened Orders

  /** What the session does not control: in which order each side's index is
      visited, and when each side writes a received file. */
  datatype Env = Env(initiatorOrder: set<Path> -> seq<Path>, listenerOrder: set<Path> -> seq<Path>,
                     initiatorStamp: Path -> Time, listenerStamp: Path -> Time)

  ghost predicate ValidEnv(env: Env) {
    && (forall keys: set<Path> :: Enumerates(env.initiatorOrder(keys), keys))
    && (forall keys: set<Path> :: Enumerates(env.listenerOrder(keys), keys))
  }

  /** An environment in which every file is written at the given time. */
  ghost function EnvAt(stamp: Time): Env {
    Env(keys => OrderOf(keys), keys => OrderOf(keys), _ => stamp, _ => stamp)
  }

  lemma EnvAtIsValid(stamp: Time)
    ensures ValidEnv(EnvAt(stamp))
  {
    forall keys: set<Path> ensures Enumerates(OrderOf(keys), keys) {
      OrderVisits(keys);
    }
  }

  function ListenerNames(remote: Index, env: Env): (names: Names)
    ensures SoundNames(names, remote)
  {
    NamesOf(env.listenerOrder(remote.Keys), remote)
  }

  function InitiatorNames(mine: Index, env: Env): (names: Names)
    ensures SoundNames(names, mine)
  {
    NamesOf(env.initiatorOrder(mine.Keys), mine)
  }

  /** The listener once it has read the initiator's index. */
  function Greeted(b: Peer, remote: Index, env: Env): Peer {
    AfterDeletions(b, remote, InitiatorNames(remote, env))
  }

  /** The initiator once it has replayed the deletions and renames it learned
      from the listener's index. */
  function Informed(a: Peer, remote: Index, env: Env): Peer {
    var names := ListenerNames(remote, env);
    var a1 := AfterDeletions(a, remote, names);
    AfterLocalRenames(a1, a1.rep.entries, remote, names, env.initiatorOrder(a1.rep.entries.Keys))
  }

  /** The paths the initiator asks for, in order. */
  function Wants(a: Peer, remote: Index, env: Env): seq<Path> {
    var a2 := Informed(a, remote, env);
    Needed(a2, remote, InitiatorNames(a2.rep.entries, env), env.listenerOrder(remote.Keys))
  }

  /** The listener has the file of every path the initiator asks for. */
  ghost predicate Answerable(a: Peer, b: Peer, env: Env) {
    forall p :: p in Wants(a, b.rep.entries, env) ==> p in b.rep.files
  }

  /** The initiator when it starts to pull: conflict copies are made. */
  function Ready(a: Peer, remote: Index, env: Env): Peer {
    AfterNeeded(Informed(a, remote, env), remote, env.listenerOrder(remote.Keys))
  }

  /** The messages the initiator pushes after it has pulled. */
  function Offered(a: Peer, remote: Index, env: Env): seq<Message> {
    PushList(a, remote, ListenerNames(remote, env), env.initiatorOrder(a.rep.entries.Keys))
  }

  /* The whole session: `a` initiates, `b` listens. */

  function Refreshed(a: Peer, b: Peer, env: Env): Peer {
    Pulled(Ready(a, b.rep.entries, env), Greeted(b, a.rep.entries, env), Wants(a, b.rep.entries, env),
        env.initiatorStamp)
  }

  function Pushes(a: Peer, b: Peer, env: Env): seq<Message> {
    Offered(Refreshed(a, b, env), b.rep.entries, env)
  }

  function Supplied(a: Peer, b: Peer, env: Env): Peer {
    ReceivedAll(Greeted(b, a.rep.entries, env), Pushes(a, b, env), env.listenerStamp)
  }

  /** Both sides at the end. */
  function Session(a: Peer, b: Peer, env: Env): (Peer, Peer) {
    (Refreshed(a, b, env), Supplied(a, b, env))
  }
}
