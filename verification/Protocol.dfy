/** A session as two processes that exchange messages over two FIFO channels.
    Both HELLO orders are covered: the peer-to-peer listener answers a HELLO, the
    client-server listener speaks first. */
module Protocol {
  import opened Options
  import opened FileIndexes
  import opened Decisions
  import opened Sessions
  import opened StepFacts

  datatype InitiatorAt =
    | Opening
    | AwaitingHello
    | Pulling(todo: seq<Path>)
    | AwaitingFile(path: Path, todo: seq<Path>)
    | Pushing(offers: seq<Message>)
    | Finished
    | Aborted

  datatype ListenerAt =
    | Greeting
    | AwaitingPeer
    | Serving
    | Accepting
    | Over
    | Broken

  /** `asked` and `answered` record the paths of the GET_FILE messages sent by
      the initiator and replied to by the listener. */
  datatype Machine = Machine(speaksFirst: bool,
                             initiator: Peer, listener: Peer,
                             iAt: InitiatorAt, lAt: ListenerAt,
                             toListener: seq<Message>, toInitiator: seq<Message>,
                             heard: Index, asked: seq<Path>, answered: seq<Path>)

  function Start(a: Peer, b: Peer, speaksFirst: bool): Machine {
    Machine(speaksFirst, a, b, Opening, if speaksFirst then Greeting else AwaitingPeer, [], [], map[], [], [])
  }

  function Tell(m: Machine, msg: Message): Machine {
    m.(toListener := m.toListener + [msg])
  }

  function Reply(m: Machine, msg: Message): Machine {
    m.(toInitiator := m.toInitiator + [msg])
  }

  /** One step of the initiator; none while it waits or when it is done. */
  function InitiatorStep(m: Machine, env: Env): Option<Machine> {
    match m.iAt
    case Opening => Some(Tell(m.(iAt := AwaitingHello), Hello(m.initiator.rep.entries)))
    case AwaitingHello =>
      if m.toInitiator == [] then None
      else
        var rest := m.(toInitiator := m.toInitiator[1..]);
        (match m.toInitiator[0]
         case Hello(index) =>
           Some(rest.(heard := index,
                      initiator := Ready(m.initiator, index, env),
                      iAt := Pulling(Wants(m.initiator, index, env))))
         case _ => Some(rest.(iAt := Aborted)))
    case Pulling(todo) =>
      if todo == [] then Some(Tell(m.(iAt := Pushing(Offered(m.initiator, m.heard, env))), SyncDone))
      else Some(Tell(m.(iAt := AwaitingFile(todo[0], todo[1..]), asked := m.asked + [todo[0]]), GetFile(todo[0])))
    case AwaitingFile(p, todo) =>
      if m.toInitiator == [] then None
      else
        var rest := m.(toInitiator := m.toInitiator[1..], iAt := Pulling(todo));
        (match m.toInitiator[0]
         case FileData(q, content, entry) =>
           Some(rest.(initiator := Stored(m.initiator, q, entry, content, env.initiatorStamp(q))))
         case _ => Some(rest))
    case Pushing(offers) =>
      if offers == [] then Some(Tell(m.(iAt := Finished), Ack))
      else Some(Tell(m.(iAt := Pushing(offers[1..])), offers[0]))
    case Finished => None
    case Aborted => None
  }

  /** One step of the listener; none while it waits or when it is done. */
  function ListenerStep(m: Machine, env: Env): Option<Machine> {
    if m.lAt == Greeting then
      Some(Reply(m.(lAt := AwaitingPeer), Hello(m.listener.rep.entries)))
    else if m.toListener == [] then None
    else
      var msg := m.toListener[0];
      var rest := m.(toListener := m.toListener[1..]);
      match m.lAt
      case AwaitingPeer =>
        if msg.Hello? then
          var greeted := rest.(lAt := Serving, listener := Greeted(m.listener, msg.index, env));
          Some(if m.speaksFirst then greeted else Reply(greeted, Hello(m.listener.rep.entries)))
        else Some(rest.(lAt := Broken))
      case Serving =>
        (match msg
         case SyncDone => Some(rest.(lAt := Accepting))
         case GetFile(p) =>
           (match Served(m.listener, p)
            case Some(reply) => Some(Reply(rest.(answered := m.answered + [p]), reply))
            case None => Some(rest))
         case _ => Some(rest))
      case Accepting =>
        if msg.Ack? then Some(rest.(lAt := Over))
        else Some(rest.(listener := Received(m.listener, msg, env.listenerStamp)))
      case _ => None
  }

  ghost predicate Next(m: Machine, m': Machine, env: Env) {
    InitiatorStep(m, env) == Some(m') || ListenerStep(m, env) == Some(m')
  }

  predicate Done(m: Machine) {
    m.iAt == Finished && m.lAt == Over
  }

  /** The initiator waits for a reply that was never sent: nothing is on its way
      in either direction. */
  predicate Hung(m: Machine) {
    m.iAt.AwaitingFile? && m.lAt == Serving && m.toListener == [] && m.toInitiator == []
  }

  /* ---- The invariant ---- */

  /** What the session should come to, computed in one piece. */
  datatype Plan = Plan(a: Peer, b: Peer, wants: seq<Path>, ready: Peer, greeted: Peer,
                       refreshed: Peer, pushes: seq<Message>, supplied: Peer)

  function PlanOf(a: Peer, b: Peer, env: Env): Plan {
    Plan(a, b, Wants(a, b.rep.entries, env), Ready(a, b.rep.entries, env), Greeted(b, a.rep.entries, env),
         Refreshed(a, b, env), Pushes(a, b, env), Supplied(a, b, env))
  }

  /** The first `k` wanted paths are served by the listener once it has greeted. */
  ghost predicate ServedTo(q: Plan, k: nat) {
    k <= |q.wants| && forall i :: 0 <= i < k ==> Served(q.greeted, q.wants[i]).Some?
  }

  ghost predicate OnlyPushes(msgs: seq<Message>) {
    forall msg :: msg in msgs ==> msg.FileData? || msg.RenameFile?
  }

  /** The initiator after `k` replies. */
  function PulledTo(q: Plan, env: Env, k: nat): Peer
    requires k <= |q.wants|
  {
    Pulled(q.ready, q.greeted, q.wants[..k], env.initiatorStamp)
  }

  ghost predicate BeforeHello(m: Machine, q: Plan) {
    var hello, welcome := Hello(q.a.rep.entries), Hello(q.b.rep.entries);
    && m.initiator == q.a && m.asked == [] && m.answered == []
    && match m.lAt
       case Greeting => m.speaksFirst && m.listener == q.b && m.toInitiator == []
                        && m.toListener == if m.iAt == Opening then [] else [hello]
       case AwaitingPeer => m.listener == q.b && m.toInitiator == (if m.speaksFirst then [welcome] else [])
                            && m.toListener == if m.iAt == Opening then [] else [hello]
       case Serving => m.iAt == AwaitingHello && m.listener == q.greeted
                       && m.toListener == [] && m.toInitiator == [welcome]
       case _ => false
  }

  /** The initiator has heard the listener and is pulling; `k` replies are in. */
  ghost predicate InPull(m: Machine, q: Plan, env: Env, k: nat, waiting: bool) {
    var upTo := if waiting then k + 1 else k;
    && upTo <= |q.wants| && ServedTo(q, k)
    && m.heard == q.b.rep.entries
    && m.initiator == PulledTo(q, env, k)
    && m.asked == q.wants[..upTo]
    && var request := if waiting then [GetFile(q.wants[k])] else [];
       match m.lAt
       case AwaitingPeer => m.speaksFirst && k == 0 && m.listener == q.b && m.answered == []
                            && m.toListener == [Hello(q.a.rep.entries)] + request && m.toInitiator == []
       case Serving =>
         && m.listener == q.greeted
         && (|| (m.toListener == request && m.toInitiator == [] && m.answered == q.wants[..k])
             || (waiting && m.toListener == [] && m.answered == q.wants[..upTo]
                 && Served(q.greeted, q.wants[k]).Some? && m.toInitiator == [Served(q.greeted, q.wants[k]).value])
             || (waiting && m.toListener == [] && m.answered == q.wants[..k]
                 && Served(q.greeted, q.wants[k]).None? && m.toInitiator == []))
       case _ => false
  }

  /** The initiator has sent SYNC_DONE and then `sent`. */
  ghost predicate InPush(m: Machine, q: Plan, env: Env, sent: seq<Message>) {
    && m.initiator == q.refreshed && ServedTo(q, |q.wants|)
    && m.asked == q.wants && m.answered == q.wants
    && m.toInitiator == []
    && match m.lAt
       case AwaitingPeer => m.speaksFirst && m.listener == q.b && q.wants == []
                            && m.toListener == [Hello(q.a.rep.entries), SyncDone] + sent
       case Serving => m.listener == q.greeted && m.toListener == [SyncDone] + sent
       case Accepting =>
         && |m.toListener| <= |sent|
         && (var r := |sent| - |m.toListener|;
             && m.toListener == sent[r..]
             && Ack !in sent[..r]
             && m.listener == ReceivedAll(q.greeted, sent[..r], env.listenerStamp))
       case Over => Ack in sent && m.toListener == [] && m.listener == q.supplied
       case _ => false
  }

  ghost predicate Inv(m: Machine, q: Plan, env: Env) {
    match m.iAt
    case Opening => BeforeHello(m, q)
    case AwaitingHello => BeforeHello(m, q)
    case Pulling(todo) =>
      && |todo| <= |q.wants| && todo == q.wants[|q.wants| - |todo|..]
      && InPull(m, q, env, |q.wants| - |todo|, false)
    case AwaitingFile(p, todo) =>
      && |todo| < |q.wants| && [p] + todo == q.wants[|q.wants| - |todo| - 1..]
      && InPull(m, q, env, |q.wants| - |todo| - 1, true)
    case Pushing(offers) =>
      && |offers| <= |q.pushes| && offers == q.pushes[|q.pushes| - |offers|..]
      && InPush(m, q, env, q.pushes[..|q.pushes| - |offers|])
    case Finished => InPush(m, q, env, q.pushes + [Ack])
    case Aborted => false
  }

  /* ---- Every step keeps the invariant ---- */

  lemma InvStart(a: Peer, b: Peer, speaksFirst: bool, env: Env)
    ensures Inv(Start(a, b, speaksFirst), PlanOf(a, b, env), env)
  {
  }

  lemma PushesArePushes(a: Peer, remote: Index, names: Names, order: seq<Path>)
    ensures OnlyPushes(PushList(a, remote, names, order))
  {
  }

  lemma PlanPushes(a: Peer, b: Peer, env: Env)
    ensures OnlyPushes(PlanOf(a, b, env).pushes)
  {
    PushesArePushes(Refreshed(a, b, env), b.rep.entries, ListenerNames(b.rep.entries, env),
                    env.initiatorOrder(Refreshed(a, b, env).rep.entries.Keys));
  }

  /** The plan is served in full exactly when the listener has every file. */
  lemma PlanIsServedIff(a: Peer, b: Peer, env: Env)
    ensures ServedTo(PlanOf(a, b, env), |Wants(a, b.rep.entries, env)|) <==> Answerable(a, b, env)
  {
    var wants := Wants(a, b.rep.entries, env);
    forall i | 0 <= i < |wants|
      ensures Served(Greeted(b, a.rep.entries, env), wants[i]).Some? <==> wants[i] in b.rep.files
    {
      assert wants[i] in wants;
      WantedIsServed(a, b, env, wants[i]);
    }
    if Answerable(a, b, env) {
      forall i | 0 <= i < |wants| ensures wants[i] in b.rep.files {
        assert wants[i] in wants;
      }
    }
  }

  lemma HelloHeard(m: Machine, q: Plan, env: Env)
    requires Inv(m, q, env) && m.iAt == AwaitingHello && InitiatorStep(m, env).Some?
    requires q.ready == Ready(q.a, q.b.rep.entries, env) && q.wants == Wants(q.a, q.b.rep.entries, env)
    ensures Inv(InitiatorStep(m, env).value, q, env)
  {
    assert q.wants[0..] == q.wants && q.wants[..0] == [];
    assert m.toInitiator[0] == Hello(q.b.rep.entries);
    assert PulledTo(q, env, 0) == q.ready;
  }

  lemma FileAsked(m: Machine, q: Plan, env: Env)
    requires Inv(m, q, env) && m.iAt.Pulling? && m.iAt.todo != []
    ensures Inv(InitiatorStep(m, env).value, q, env)
  {
    var todo := m.iAt.todo;
    var k := |q.wants| - |todo|;
    assert [todo[0]] + todo[1..] == todo == q.wants[k..];
    assert q.wants[k] == todo[0];
    RequestSent(m, q, env, k, AwaitingFile(todo[0], todo[1..]));
    NextAsked(m, env);
    InvByAwaiting(InitiatorStep(m, env).value, q, env, k);
  }

  lemma NextAsked(m: Machine, env: Env)
    requires m.iAt.Pulling? && m.iAt.todo != []
    ensures var todo := m.iAt.todo;
            InitiatorStep(m, env)
            == Some(Tell(m.(iAt := AwaitingFile(todo[0], todo[1..]), asked := m.asked + [todo[0]]), GetFile(todo[0])))
  {
  }

  lemma InvByAwaiting(m: Machine, q: Plan, env: Env, k: nat)
    requires InPull(m, q, env, k, true) && m.iAt.AwaitingFile? && [m.iAt.path] + m.iAt.todo == q.wants[k..]
    ensures Inv(m, q, env)
  {
    assert |m.iAt.todo| == |q.wants| - k - 1;
  }

  lemma RequestSent(m: Machine, q: Plan, env: Env, k: nat, at: InitiatorAt)
    requires InPull(m, q, env, k, false) && k < |q.wants|
    ensures InPull(Tell(m.(iAt := at, asked := m.asked + [q.wants[k]]), GetFile(q.wants[k])), q, env, k, true)
  {
    assert q.wants[..k] + [q.wants[k]] == q.wants[..k + 1];
    assert m.toListener + [GetFile(q.wants[k])]
           == if m.lAt == AwaitingPeer then [Hello(q.a.rep.entries)] + [GetFile(q.wants[k])] else [GetFile(q.wants[k])];
  }

  lemma PullEnded(m: Machine, q: Plan, env: Env)
    requires Inv(m, q, env) && m.iAt.Pulling? && m.iAt.todo == []
    requires q.refreshed == PulledTo(q, env, |q.wants|) && q.pushes == Offered(q.refreshed, q.b.rep.entries, env)
    ensures Inv(InitiatorStep(m, env).value, q, env)
  {
    assert q.pushes[..0] == [] && q.pushes[0..] == q.pushes;
    assert m.initiator == q.refreshed && m.heard == q.b.rep.entries;
    DoneSent(m, q, env);
    PushesStart(m, q, env);
    InvByPushing(InitiatorStep(m, env).value, q, env);
  }

  lemma PushesStart(m: Machine, q: Plan, env: Env)
    requires m.iAt == Pulling([]) && q.pushes == Offered(m.initiator, m.heard, env)
    ensures InitiatorStep(m, env) == Some(Tell(m.(iAt := Pushing(q.pushes)), SyncDone))
  {
  }

  lemma InvByPushing(m: Machine, q: Plan, env: Env)
    requires m.iAt == Pushing(q.pushes) && InPush(m, q, env, [])
    ensures Inv(m, q, env)
  {
    assert q.pushes[..0] == [] && q.pushes[0..] == q.pushes;
  }

  lemma DoneSent(m: Machine, q: Plan, env: Env)
    requires InPull(m, q, env, |q.wants|, false) && q.refreshed == PulledTo(q, env, |q.wants|)
    ensures InPush(Tell(m.(iAt := Pushing(q.pushes)), SyncDone), q, env, [])
  {
    assert q.wants[..|q.wants|] == q.wants;
    assert m.toListener + [SyncDone]
           == (if m.lAt == AwaitingPeer then [Hello(q.a.rep.entries), SyncDone] else [SyncDone]) + [];
  }

  lemma PulledOneMore(q: Plan, env: Env, k: nat)
    requires k < |q.wants| && Served(q.greeted, q.wants[k]).Some?
    ensures var reply := Served(q.greeted, q.wants[k]).value;
            PulledTo(q, env, k + 1)
            == Stored(PulledTo(q, env, k), reply.path, reply.entry, reply.content, env.initiatorStamp(reply.path))
  {
    assert q.wants[..k + 1][..k] == q.wants[..k] && q.wants[..k + 1][k] == q.wants[k];
  }

  lemma FileGot(m: Machine, q: Plan, env: Env)
    requires Inv(m, q, env) && m.iAt.AwaitingFile? && InitiatorStep(m, env).Some?
    ensures Inv(InitiatorStep(m, env).value, q, env)
  {
    var todo := m.iAt.todo;
    var k := |q.wants| - |todo| - 1;
    assert q.wants[k..] == [m.iAt.path] + todo;
    assert q.wants[k..][1..] == q.wants[k + 1..] == todo;
    PulledOneMore(q, env, k);
    assert m.toInitiator[1..] == [];
  }

  lemma PushGrows(m: Machine, q: Plan, env: Env, sent: seq<Message>, msg: Message, at: InitiatorAt)
    requires InPush(m, q, env, sent) && Ack !in sent
    ensures InPush(Tell(m.(iAt := at), msg), q, env, sent + [msg])
  {
    match m.lAt {
      case Accepting =>
        var r := |sent| - |m.toListener|;
        assert (sent + [msg])[r..] == sent[r..] + [msg];
        assert (sent + [msg])[..r] == sent[..r];
      case Serving => assert [SyncDone] + (sent + [msg]) == [SyncDone] + sent + [msg];
      case AwaitingPeer =>
        var first := [Hello(q.a.rep.entries), SyncDone];
        assert first + (sent + [msg]) == first + sent + [msg];
      case _ =>
    }
  }

  lemma PushNotAck(q: Plan, k: nat)
    requires OnlyPushes(q.pushes)
    ensures k < |q.pushes| ==> q.pushes[k] != Ack
  {
    if k < |q.pushes| {
      assert q.pushes[k] in q.pushes;
    }
  }

  lemma NoAckSent(q: Plan, j: nat)
    requires OnlyPushes(q.pushes) && j <= |q.pushes|
    ensures Ack !in q.pushes[..j]
  {
    forall k | 0 <= k < j ensures q.pushes[k] != Ack {
      PushNotAck(q, k);
    }
  }

  lemma AckSent(m: Machine, q: Plan, env: Env)
    requires OnlyPushes(q.pushes)
    requires Inv(m, q, env) && m.iAt == Pushing([])
    ensures Inv(InitiatorStep(m, env).value, q, env)
  {
    assert q.pushes[..|q.pushes|] == q.pushes;
    NoAckSent(q, |q.pushes|);
    PushGrows(m, q, env, q.pushes, Ack, Finished);
  }

  lemma OfferSent(m: Machine, q: Plan, env: Env)
    requires OnlyPushes(q.pushes)
    requires Inv(m, q, env) && m.iAt.Pushing? && m.iAt.offers != []
    ensures Inv(InitiatorStep(m, env).value, q, env)
  {
    var offers := m.iAt.offers;
    var j := |q.pushes| - |offers|;
    NoAckSent(q, j);
    assert offers[1..] == q.pushes[j + 1..];
    assert q.pushes[..j + 1] == q.pushes[..j] + [offers[0]];
    PushGrows(m, q, env, q.pushes[..j], offers[0], Pushing(offers[1..]));
  }

  /** The parts of a plan as the initiator's steps use them. */
  ghost predicate Planned(q: Plan, env: Env) {
    && q.ready == Ready(q.a, q.b.rep.entries, env) && q.wants == Wants(q.a, q.b.rep.entries, env)
    && q.refreshed == PulledTo(q, env, |q.wants|)
    && q.pushes == Offered(q.refreshed, q.b.rep.entries, env) && OnlyPushes(q.pushes)
  }

  lemma PlanIsPlanned(a: Peer, b: Peer, env: Env)
    ensures Planned(PlanOf(a, b, env), env)
  {
    var q := PlanOf(a, b, env);
    PlanPushes(a, b, env);
    assert q.wants[..|q.wants|] == q.wants;
  }

  lemma OpeningSent(m: Machine, q: Plan, env: Env)
    requires BeforeHello(m, q) && m.iAt == Opening
    ensures Inv(InitiatorStep(m, env).value, q, env)
  {
  }

  lemma InitiatorKeepsPlan(m: Machine, q: Plan, env: Env)
    requires Planned(q, env) && Inv(m, q, env) && InitiatorStep(m, env).Some?
    ensures Inv(InitiatorStep(m, env).value, q, env)
  {
    match m.iAt {
      case Opening => OpeningSent(m, q, env);
      case AwaitingHello => HelloHeard(m, q, env);
      case Pulling(todo) => if todo == [] { PullEnded(m, q, env); } else { FileAsked(m, q, env); }
      case AwaitingFile(_, _) => FileGot(m, q, env);
      case Pushing(offers) => if offers == [] { AckSent(m, q, env); } else { OfferSent(m, q, env); }
      case _ =>
    }
  }

  lemma InitiatorKeepsInv(m: Machine, a: Peer, b: Peer, env: Env)
    requires Inv(m, PlanOf(a, b, env), env) && InitiatorStep(m, env).Some?
    ensures Inv(InitiatorStep(m, env).value, PlanOf(a, b, env), env)
  {
    PlanIsPlanned(a, b, env);
    InitiatorKeepsPlan(m, PlanOf(a, b, env), env);
  }

  /** The HELLO reaches a listener that has not spoken yet. */
  lemma ListenerHearsFirst(m: Machine, q: Plan, env: Env)
    requires q.greeted == Greeted(q.b, q.a.rep.entries, env)
    requires Inv(m, q, env) && m.lAt == AwaitingPeer && m.iAt == AwaitingHello
    ensures ListenerStep(m, env).Some? && Inv(ListenerStep(m, env).value, q, env)
  {
    assert m.toListener == [Hello(q.a.rep.entries)] && m.toListener[1..] == [];
  }

  /** ... or one that spoke first, while the initiator pulls already, */
  lemma ListenerHearsInPull(m: Machine, q: Plan, env: Env, k: nat, waiting: bool)
    requires q.greeted == Greeted(q.b, q.a.rep.entries, env)
    requires InPull(m, q, env, k, waiting) && m.lAt == AwaitingPeer
    ensures ListenerStep(m, env).Some? && ListenerStep(m, env).value.iAt == m.iAt
    ensures InPull(ListenerStep(m, env).value, q, env, k, waiting)
  {
    var request := if waiting then [GetFile(q.wants[k])] else [];
    assert m.toListener[0] == Hello(q.a.rep.entries) && m.toListener[1..] == request;
    assert q.wants[..0] == [];
    assert ListenerStep(m, env).value == m.(toListener := request, lAt := Serving, listener := q.greeted);
  }

  /** ... or has nothing to pull and pushes already. */
  lemma ListenerHearsInPush(m: Machine, q: Plan, env: Env, sent: seq<Message>)
    requires q.greeted == Greeted(q.b, q.a.rep.entries, env)
    requires InPush(m, q, env, sent) && m.lAt == AwaitingPeer
    ensures ListenerStep(m, env).Some? && ListenerStep(m, env).value.iAt == m.iAt
    ensures InPush(ListenerStep(m, env).value, q, env, sent)
  {
    assert m.toListener[0] == Hello(q.a.rep.entries) && m.toListener[1..] == [SyncDone] + sent;
    assert ListenerStep(m, env).value == m.(toListener := [SyncDone] + sent, lAt := Serving, listener := q.greeted);
  }

  lemma ListenerHears(m: Machine, q: Plan, env: Env)
    requires q.greeted == Greeted(q.b, q.a.rep.entries, env)
    requires Inv(m, q, env) && m.lAt == AwaitingPeer && ListenerStep(m, env).Some?
    ensures Inv(ListenerStep(m, env).value, q, env)
  {
    match m.iAt {
      case AwaitingHello => ListenerHearsFirst(m, q, env);
      case Pulling(todo) => ListenerHearsInPull(m, q, env, |q.wants| - |todo|, false);
      case AwaitingFile(_, todo) => ListenerHearsInPull(m, q, env, |q.wants| - |todo| - 1, true);
      case Pushing(_) =>
        ListenerHearsInPush(m, q, env, SentSoFar(m, q));
        InvByPush(m, ListenerStep(m, env).value, q, env);
      case Finished =>
        ListenerHearsInPush(m, q, env, SentSoFar(m, q));
        InvByPush(m, ListenerStep(m, env).value, q, env);
      case _ =>
    }
  }

  /** A request is answered, or dropped when its file is not there. */
  lemma ListenerReplies(m: Machine, q: Plan, env: Env, k: nat)
    requires InPull(m, q, env, k, true) && m.lAt == Serving && m.toListener != []
    ensures ListenerStep(m, env).Some? && ListenerStep(m, env).value.iAt == m.iAt
    ensures InPull(ListenerStep(m, env).value, q, env, k, true)
  {
    assert q.wants[..k] + [q.wants[k]] == q.wants[..k + 1];
    assert m.toListener == [GetFile(q.wants[k])] && m.toListener[1..] == [];
  }

  lemma ListenerTurns(m: Machine, q: Plan, env: Env)
    requires Inv(m, q, env) && m.lAt == Serving && (m.iAt.Pushing? || m.iAt == Finished)
    ensures ListenerStep(m, env).Some? && Inv(ListenerStep(m, env).value, q, env)
  {
    var sent := SentSoFar(m, q);
    assert m.toListener[0] == SyncDone && m.toListener[1..] == sent;
    assert sent[0..] == sent && sent[..0] == [];
    var m' := ListenerStep(m, env).value;
    assert m' == m.(toListener := sent, lAt := Accepting);
    InvByPush(m, m', q, env);
  }

  lemma ListenerServes(m: Machine, q: Plan, env: Env)
    requires Inv(m, q, env) && m.lAt == Serving && ListenerStep(m, env).Some?
    ensures Inv(ListenerStep(m, env).value, q, env)
  {
    if m.iAt.AwaitingFile? {
      ListenerReplies(m, q, env, |q.wants| - |m.iAt.todo| - 1);
    } else if m.iAt.Pushing? || m.iAt == Finished {
      ListenerTurns(m, q, env);
    }
  }

  lemma ListenerAccepts(m: Machine, q: Plan, env: Env, sent: seq<Message>)
    requires q.supplied == ReceivedAll(q.greeted, q.pushes, env.listenerStamp) && OnlyPushes(q.pushes)
    requires InPush(m, q, env, sent) && m.lAt == Accepting && ListenerStep(m, env).Some?
    requires sent == q.pushes + [Ack] || Ack !in sent
    ensures InPush(ListenerStep(m, env).value, q, env, sent)
  {
    var r := |sent| - |m.toListener|;
    assert m.toListener[0] == sent[r] && m.toListener[1..] == sent[r + 1..];
    PushNotAck(q, r);
    if sent[r] == Ack {
      assert sent[..r] == q.pushes && m.toListener[1..] == [];
    } else {
      ReceivedOneMore(q.greeted, sent, r, env.listenerStamp);
      assert sent[..r + 1] == sent[..r] + [sent[r]];
    }
  }

  lemma ReceivedOneMore(me: Peer, msgs: seq<Message>, k: nat, stamp: Path -> Time)
    requires k < |msgs|
    ensures ReceivedAll(me, msgs[..k + 1], stamp) == Received(ReceivedAll(me, msgs[..k], stamp), msgs[k], stamp)
  {
    assert msgs[..k + 1][..k] == msgs[..k];
  }

  /** The messages pushed so far, the closing ACK included. */
  function SentSoFar(m: Machine, q: Plan): seq<Message>
    requires m.iAt.Pushing? ==> |m.iAt.offers| <= |q.pushes|
  {
    if m.iAt.Pushing? then q.pushes[..|q.pushes| - |m.iAt.offers|] else q.pushes + [Ack]
  }

  lemma InvByPush(m: Machine, m': Machine, q: Plan, env: Env)
    requires m.iAt == m'.iAt && (m.iAt.Pushing? || m.iAt == Finished)
    requires m.iAt.Pushing? ==> |m.iAt.offers| <= |q.pushes| && m.iAt.offers == q.pushes[|q.pushes| - |m.iAt.offers|..]
    requires InPush(m', q, env, SentSoFar(m, q))
    ensures Inv(m', q, env)
  {
    if m.iAt.Pushing? {
      assert SentSoFar(m, q) == q.pushes[..|q.pushes| - |m'.iAt.offers|];
    } else {
      assert SentSoFar(m, q) == q.pushes + [Ack];
    }
  }

  lemma ListenerTakes(m: Machine, q: Plan, env: Env)
    requires OnlyPushes(q.pushes) && q.supplied == ReceivedAll(q.greeted, q.pushes, env.listenerStamp)
    requires Inv(m, q, env) && m.lAt == Accepting && ListenerStep(m, env).Some?
    requires m.iAt.Pushing? || m.iAt == Finished
    ensures Inv(ListenerStep(m, env).value, q, env)
  {
    if m.iAt.Pushing? {
      NoAckSent(q, |q.pushes| - |m.iAt.offers|);
    }
    ListenerAccepts(m, q, env, SentSoFar(m, q));
    ListenerStepMoves(m, ListenerStep(m, env).value, env);
    InvByPush(m, ListenerStep(m, env).value, q, env);
  }

  lemma ListenerKeepsInv(m: Machine, a: Peer, b: Peer, env: Env)
    requires Inv(m, PlanOf(a, b, env), env) && ListenerStep(m, env).Some?
    ensures Inv(ListenerStep(m, env).value, PlanOf(a, b, env), env)
  {
    var q := PlanOf(a, b, env);
    PlanPushes(a, b, env);
    match m.lAt {
      case AwaitingPeer => ListenerHears(m, q, env);
      case Serving => ListenerServes(m, q, env);
      case Accepting => PhasesAgree(m, q, env); ListenerTakes(m, q, env);
      case _ =>
    }
  }

  /* ---- What every run does ---- */

  ghost predicate IsRun(run: seq<Machine>, a: Peer, b: Peer, speaksFirst: bool, env: Env) {
    && run != [] && run[0] == Start(a, b, speaksFirst)
    && forall k :: 0 < k < |run| ==> Next(run[k - 1], run[k], env)
  }

  lemma {:induction false} RunKeepsInv(run: seq<Machine>, a: Peer, b: Peer, speaksFirst: bool, env: Env, k: nat)
    requires IsRun(run, a, b, speaksFirst, env) && k < |run|
    ensures Inv(run[k], PlanOf(a, b, env), env)
  {
    if k == 0 {
      InvStart(a, b, speaksFirst, env);
    } else {
      RunKeepsInv(run, a, b, speaksFirst, env, k - 1);
      assert Next(run[k - 1], run[k], env);
      if InitiatorStep(run[k - 1], env) == Some(run[k]) {
        InitiatorKeepsInv(run[k - 1], a, b, env);
      } else {
        ListenerKeepsInv(run[k - 1], a, b, env);
      }
    }
  }

  /** How many steps are left. */
  function StepsLeft(m: Machine, q: Plan): nat {
    var wants, pushes := |q.wants|, |q.pushes|;
    var initiator := match m.iAt
      case Opening => 2 * wants + pushes + 4
      case AwaitingHello => 2 * wants + pushes + 3
      case Pulling(todo) => 2 * |todo| + pushes + 2
      case AwaitingFile(_, todo) => 2 * |todo| + pushes + 3
      case Pushing(offers) => |offers| + 1
      case Finished => 0
      case Aborted => 0;
    var handled := |m.answered| + if Hung(m) then 1 else 0;
    var unsent := match m.iAt
      case Pushing(offers) => |offers| + 1
      case _ => 0;
    var listener := match m.lAt
      case Greeting => wants + pushes + 4
      case AwaitingPeer => wants + pushes + 3
      case Serving => (if handled <= wants then wants - handled else 0) + pushes + 2
      case Accepting => |m.toListener| + unsent
      case Over => 0
      case Broken => 0;
    initiator + listener
  }

  lemma PushPhase(m: Machine, q: Plan, env: Env)
    requires Inv(m, q, env) && OnlyPushes(q.pushes) && (m.iAt.Pushing? || m.iAt == Finished)
    ensures m.lAt != Broken
    ensures m.lAt == Over ==> m.iAt == Finished && m.toListener == []
    ensures m.lAt == Accepting && m.iAt == Finished ==> m.toListener != []
    ensures m.asked == q.wants && m.answered == q.wants && m.toInitiator == []
  {
    if m.iAt.Pushing? {
      NoAckSent(q, |q.pushes| - |m.iAt.offers|);
    }
  }

  /** What the phases before the pushes have in common. */
  ghost predicate Early(m: Machine, q: Plan) {
    && (m.lAt == Greeting || m.lAt == AwaitingPeer || m.lAt == Serving)
    && |m.answered| <= |m.asked| <= |m.answered| + 1 && |m.asked| <= |q.wants|
  }

  lemma HelloIsEarly(m: Machine, q: Plan)
    requires BeforeHello(m, q)
    ensures Early(m, q)
  {
  }

  lemma PullIsEarly(m: Machine, q: Plan, env: Env, k: nat, waiting: bool)
    requires InPull(m, q, env, k, waiting)
    ensures Early(m, q)
  {
  }

  lemma PullPhase(m: Machine, q: Plan, env: Env)
    requires Inv(m, q, env) && !m.iAt.Pushing? && m.iAt != Finished
    ensures m.iAt != Aborted && Early(m, q)
  {
    match m.iAt {
      case Pulling(todo) => PullIsEarly(m, q, env, |q.wants| - |todo|, false);
      case AwaitingFile(_, todo) => PullIsEarly(m, q, env, |q.wants| - |todo| - 1, true);
      case _ => HelloIsEarly(m, q);
    }
  }

  /** The two sides agree on the phase: the listener accepts pushes only from
      an initiator that is done pulling, and ends only after the last one. */
  lemma PhasesAgree(m: Machine, q: Plan, env: Env)
    requires Inv(m, q, env) && OnlyPushes(q.pushes)
    ensures m.iAt != Aborted && m.lAt != Broken
    ensures m.lAt == Accepting ==> m.iAt.Pushing? || m.iAt == Finished
    ensures m.lAt == Over ==> m.iAt == Finished && m.toListener == []
    ensures m.lAt == Accepting && m.iAt == Finished ==> m.toListener != []
    ensures m.iAt.Pushing? || m.iAt == Finished ==> m.asked == q.wants && m.answered == q.wants && m.toInitiator == []
    ensures |m.answered| <= |m.asked| <= |m.answered| + 1 && |m.asked| <= |q.wants|
  {
    if m.iAt.Pushing? || m.iAt == Finished {
      PushPhase(m, q, env);
    } else {
      PullPhase(m, q, env);
    }
  }

  lemma HelloCounts(m: Machine, m': Machine, q: Plan, env: Env)
    requires Inv(m, q, env) && Inv(m', q, env) && m.iAt == AwaitingHello && m'.iAt.Pulling?
    requires m'.asked == m.asked && m'.lAt == m.lAt && m'.answered == m.answered
    ensures StepsLeft(m', q) == StepsLeft(m, q) - 1
  {
  }

  lemma PullCounts(m: Machine, m': Machine, q: Plan, env: Env)
    requires Inv(m, q, env) && Inv(m', q, env) && m.iAt.Pulling? && m.iAt.todo == [] && m'.iAt.Pushing?
    requires m'.lAt == m.lAt && m'.answered == m.answered && |m'.toListener| == |m.toListener| + 1
    ensures StepsLeft(m', q) == StepsLeft(m, q) - 1
  {
    NothingSentYet(m, m', q, env, q.pushes[..|q.pushes| - |m'.iAt.offers|]);
    PushStartCounts(m, m', q);
  }

  lemma PushStartCounts(m: Machine, m': Machine, q: Plan)
    requires m.iAt == Pulling([]) && m'.iAt.Pushing? && |m'.iAt.offers| == |q.pushes|
    requires m'.lAt == m.lAt && m.lAt != Accepting && m.lAt != Over && m'.answered == m.answered
    ensures StepsLeft(m', q) == StepsLeft(m, q) - 1
  {
  }

  lemma NothingSentYet(m: Machine, m': Machine, q: Plan, env: Env, sent: seq<Message>)
    requires InPull(m, q, env, |q.wants|, false) && InPush(m', q, env, sent)
    requires m'.lAt == m.lAt && |m'.toListener| == |m.toListener| + 1
    ensures sent == [] && m.lAt != Accepting && m.lAt != Over
  {
  }

  lemma SendCounts(m: Machine, m': Machine, q: Plan, env: Env)
    requires m'.lAt == m.lAt && m'.answered == m.answered && !Hung(m) && !Hung(m')
    requires m.lAt == Accepting ==> m.iAt.Pushing? && |m'.toListener| == |m.toListener| + 1
    requires m.lAt != Over
    requires match m.iAt
             case Opening => m'.iAt == AwaitingHello
             case Pulling(todo) => todo != [] && m'.iAt == AwaitingFile(todo[0], todo[1..])
             case AwaitingFile(_, todo) => m'.iAt == Pulling(todo)
             case Pushing(offers) => m'.iAt == if offers == [] then Finished else Pushing(offers[1..])
             case _ => false
    ensures StepsLeft(m', q) == StepsLeft(m, q) - 1
  {
  }

  /** How a step of the initiator moves its control point. */
  ghost predicate InitiatorMoves(m: Machine, m': Machine) {
    && m'.lAt == m.lAt && m'.answered == m.answered && !Hung(m) && !Hung(m')
    && match m.iAt
       case Opening => m'.iAt == AwaitingHello
       case AwaitingHello => m'.asked == m.asked && (m'.iAt.Pulling? || m'.iAt == Aborted)
       case Pulling(todo) =>
         && |m'.toListener| == |m.toListener| + 1
         && if todo == [] then m'.iAt.Pushing? else m'.iAt == AwaitingFile(todo[0], todo[1..])
       case AwaitingFile(_, todo) => m'.iAt == Pulling(todo)
       case Pushing(offers) =>
         && |m'.toListener| == |m.toListener| + 1
         && m'.iAt == if offers == [] then Finished else Pushing(offers[1..])
       case _ => false
  }

  lemma InitiatorStepMoves(m: Machine, m': Machine, env: Env)
    requires InitiatorStep(m, env) == Some(m')
    ensures InitiatorMoves(m, m')
  {
  }

  lemma InitiatorCounts(m: Machine, m': Machine, q: Plan, env: Env)
    requires OnlyPushes(q.pushes) && Inv(m, q, env) && Inv(m', q, env) && InitiatorMoves(m, m')
    ensures StepsLeft(m', q) == StepsLeft(m, q) - 1
  {
    PhasesAgree(m, q, env);
    PhasesAgree(m', q, env);
    match m.iAt {
      case AwaitingHello => HelloCounts(m, m', q, env);
      case Pulling(todo) => if todo == [] { PullCounts(m, m', q, env); } else { SendCounts(m, m', q, env); }
      case _ => SendCounts(m, m', q, env);
    }
  }

  /** How a step of the listener moves its control point. */
  ghost predicate ListenerMoves(m: Machine, m': Machine) {
    && m'.iAt == m.iAt
    && if m.lAt == Greeting then m'.lAt == AwaitingPeer
       else
         && m.toListener != [] && m'.toListener == m.toListener[1..]
         && match m.lAt
            case AwaitingPeer => m'.answered == m.answered && (m'.lAt == Serving || m'.lAt == Broken)
            case Serving =>
              if m.toListener[0] == SyncDone then m'.lAt == Accepting && m'.answered == m.answered
              else m'.lAt == Serving && (m.toListener[0].GetFile? && m'.answered != m.answered ==>
                                           |m'.answered| == |m.answered| + 1)
            case Accepting => m'.lAt == if m.toListener[0] == Ack then Over else Accepting
            case _ => false
  }

  lemma ListenerStepMoves(m: Machine, m': Machine, env: Env)
    requires ListenerStep(m, env) == Some(m')
    ensures ListenerMoves(m, m')
  {
  }

  /** A request is handled, with a reply or without. */
  lemma RequestCounts(m: Machine, m': Machine, q: Plan, env: Env, k: nat)
    requires InPull(m, q, env, k, true) && InPull(m', q, env, k, true)
    requires m.lAt == m'.lAt == Serving && m.iAt == m'.iAt && m.iAt.AwaitingFile?
    requires m.toListener != [] && m'.toListener == m.toListener[1..]
    ensures StepsLeft(m', q) == StepsLeft(m, q) - 1
  {
  }

  /** SYNC_DONE is read. */
  lemma TurnCounts(m: Machine, m': Machine, q: Plan, env: Env, sent: seq<Message>)
    requires InPush(m, q, env, sent) && m.lAt == Serving && m'.lAt == Accepting && m.iAt == m'.iAt
    requires m'.toListener == m.toListener[1..]
    requires match m.iAt
             case Pushing(offers) => |offers| + |sent| == |q.pushes|
             case Finished => |sent| == |q.pushes| + 1
             case _ => false
    ensures StepsLeft(m', q) == StepsLeft(m, q) - 1
  {
  }

  lemma ServingCounts(m: Machine, m': Machine, q: Plan, env: Env)
    requires Inv(m, q, env) && Inv(m', q, env) && ListenerMoves(m, m') && m.lAt == Serving
    ensures StepsLeft(m', q) == StepsLeft(m, q) - 1
  {
    if m.iAt.AwaitingFile? {
      RequestCounts(m, m', q, env, |q.wants| - |m.iAt.todo| - 1);
    } else if m.iAt.Pushing? || m.iAt == Finished {
      TurnCounts(m, m', q, env, SentSoFar(m, q));
    }
  }

  lemma GreetingCounts(m: Machine, m': Machine, q: Plan)
    requires m'.iAt == m.iAt && m.lAt == Greeting && m'.lAt == AwaitingPeer
    ensures StepsLeft(m', q) == StepsLeft(m, q) - 1
  {
  }

  /** The HELLO is read: nothing is answered yet, and the listener does not wait
      for a request that was dropped. */
  lemma OpeningCounts(m: Machine, m': Machine, q: Plan)
    requires m'.iAt == m.iAt && m.lAt == AwaitingPeer && m'.lAt == Serving && m'.answered == [] && !Hung(m')
    ensures StepsLeft(m', q) == StepsLeft(m, q) - 1
  {
  }

  lemma OpenedAt(m: Machine, m': Machine, q: Plan, env: Env)
    requires Inv(m, q, env) && Inv(m', q, env) && ListenerMoves(m, m') && m.lAt == AwaitingPeer
    ensures m'.lAt == Serving && !Hung(m') && m'.answered == []
  {
    if m.iAt.AwaitingFile? {
      OpenedInPull(m, m', q, env, |q.wants| - |m.iAt.todo| - 1);
    }
  }

  lemma OpenedInPull(m: Machine, m': Machine, q: Plan, env: Env, k: nat)
    requires InPull(m, q, env, k, true) && m.lAt == AwaitingPeer && m'.toListener == m.toListener[1..]
    ensures m'.toListener != [] && m.answered == []
  {
  }

  lemma HearingCounts(m: Machine, m': Machine, q: Plan, env: Env)
    requires Inv(m, q, env) && Inv(m', q, env) && ListenerMoves(m, m') && (m.lAt == Greeting || m.lAt == AwaitingPeer)
    ensures StepsLeft(m', q) == StepsLeft(m, q) - 1
  {
    if m.lAt == Greeting {
      GreetingCounts(m, m', q);
    } else {
      OpenedAt(m, m', q, env);
      OpeningCounts(m, m', q);
    }
  }

  lemma AcceptingCounts(m: Machine, m': Machine, q: Plan)
    requires ListenerMoves(m, m') && m.lAt == Accepting
    requires m'.lAt == Over ==> m.iAt == Finished && m'.toListener == []
    ensures StepsLeft(m', q) == StepsLeft(m, q) - 1
  {
  }

  lemma ListenerCounts(m: Machine, m': Machine, q: Plan, env: Env)
    requires OnlyPushes(q.pushes) && Inv(m, q, env) && Inv(m', q, env) && ListenerMoves(m, m')
    ensures StepsLeft(m', q) == StepsLeft(m, q) - 1
  {
    if m.lAt == Serving {
      ServingCounts(m, m', q, env);
    } else if m.lAt == Accepting {
      PhasesAgree(m', q, env);
      AcceptingCounts(m, m', q);
    } else {
      HearingCounts(m, m', q, env);
    }
  }

  predicate CanMove(m: Machine, env: Env) {
    InitiatorStep(m, env).Some? || ListenerStep(m, env).Some?
  }

  lemma OpeningMoves(m: Machine, q: Plan, env: Env)
    requires BeforeHello(m, q) && m.iAt == AwaitingHello
    ensures CanMove(m, env)
  {
  }

  lemma PullMovesIff(m: Machine, q: Plan, env: Env, k: nat)
    requires InPull(m, q, env, k, true) && m.iAt.AwaitingFile?
    ensures CanMove(m, env) <==> !Hung(m)
  {
  }

  lemma EndMovesIff(m: Machine, q: Plan, env: Env)
    requires InPush(m, q, env, q.pushes + [Ack]) && m.iAt == Finished
    ensures CanMove(m, env) <==> !Done(m)
  {
    var sent := q.pushes + [Ack];
    assert sent[|q.pushes|] == Ack && sent[..|sent|] == sent;
  }

  /** While the session is neither done nor hung, one side can move; once it is,
      neither can. */
  lemma SomeoneMovesIff(m: Machine, q: Plan, env: Env)
    requires Inv(m, q, env)
    ensures CanMove(m, env) <==> !Done(m) && !Hung(m)
    ensures !(Done(m) && Hung(m))
  {
    match m.iAt {
      case AwaitingHello => OpeningMoves(m, q, env);
      case AwaitingFile(_, todo) => PullMovesIff(m, q, env, |q.wants| - |todo| - 1);
      case Finished => EndMovesIff(m, q, env);
      case _ =>
    }
  }

  /** A hung session waits for a wanted path that is not served. */
  lemma HungWaits(m: Machine, q: Plan, env: Env)
    requires Inv(m, q, env) && Hung(m)
    ensures m.iAt.path in q.wants && Served(q.greeted, m.iAt.path).None? && m.asked == m.answered + [m.iAt.path]
  {
    var k := |q.wants| - |m.iAt.todo| - 1;
    assert q.wants[k..] == [m.iAt.path] + m.iAt.todo;
    assert q.wants[..k + 1] == q.wants[..k] + [q.wants[k]];
  }

  lemma {:induction false} CountDown(run: seq<Machine>, q: Plan, k: nat)
    requires k < |run|
    requires forall j :: 0 < j < |run| ==> StepsLeft(run[j], q) == StepsLeft(run[j - 1], q) - 1
    ensures k + StepsLeft(run[k], q) == StepsLeft(run[0], q)
  {
    if k > 0 {
      CountDown(run, q, k - 1);
    }
  }

  /** A run never gets ahead of its budget of steps, which is the same for every
      interleaving. */
  lemma RunCounts(run: seq<Machine>, a: Peer, b: Peer, speaksFirst: bool, env: Env, k: nat)
    requires IsRun(run, a, b, speaksFirst, env) && k < |run|
    ensures k + StepsLeft(run[k], PlanOf(a, b, env)) == StepsLeft(Start(a, b, speaksFirst), PlanOf(a, b, env))
  {
    var q := PlanOf(a, b, env);
    PlanPushes(a, b, env);
    forall j | 0 < j < |run| ensures StepsLeft(run[j], q) == StepsLeft(run[j - 1], q) - 1 {
      RunKeepsInv(run, a, b, speaksFirst, env, j - 1);
      RunKeepsInv(run, a, b, speaksFirst, env, j);
      StepCounts(run[j - 1], run[j], q, env);
    }
    CountDown(run, q, k);
  }

  lemma StepCounts(m: Machine, m': Machine, q: Plan, env: Env)
    requires OnlyPushes(q.pushes) && Inv(m, q, env) && Inv(m', q, env) && Next(m, m', env)
    ensures StepsLeft(m', q) == StepsLeft(m, q) - 1
  {
    if InitiatorStep(m, env) == Some(m') {
      InitiatorStepMoves(m, m', env);
      InitiatorCounts(m, m', q, env);
    } else {
      ListenerStepMoves(m, m', env);
      ListenerCounts(m, m', q, env);
    }
  }

  /** Safety and progress of every run, for both HELLO orders: the sides agree on
      the phase, at most one request is open, replies come in the order of the
      requests, and someone can move unless the session is done or hung; it hangs
      only on a path whose file the listener does not have. */
  lemma EveryStateIsSafe(run: seq<Machine>, a: Peer, b: Peer, speaksFirst: bool, env: Env, k: nat)
    requires IsRun(run, a, b, speaksFirst, env) && k < |run|
    ensures var m := run[k];
            && m.iAt != Aborted && m.lAt != Broken
            && (InitiatorStep(m, env).Some? || ListenerStep(m, env).Some? <==> !Done(m) && !Hung(m))
            && (Hung(m) ==> m.iAt.path in Wants(a, b.rep.entries, env) && m.iAt.path !in b.rep.files
                            && m.asked == m.answered + [m.iAt.path])
            && (m.lAt == Accepting || m.lAt == Over ==> m.asked == m.answered == Wants(a, b.rep.entries, env))
            && m.answered <= m.asked <= Wants(a, b.rep.entries, env) && |m.asked| <= |m.answered| + 1
  {
    var m, q := run[k], PlanOf(a, b, env);
    RunKeepsInv(run, a, b, speaksFirst, env, k);
    PlanPushes(a, b, env);
    SomeoneMovesIff(m, q, env);
    if Hung(m) {
      HungWaits(m, q, env);
      WantedIsServed(a, b, env, m.iAt.path);
    }
    PhasesAgree(m, q, env);
    RepliesFollow(m, q, env);
  }

  /** No file is asked for twice, and so none is sent twice, in any reachable state. */
  lemma RequestsAreDistinct(run: seq<Machine>, a: Peer, b: Peer, speaksFirst: bool, env: Env, k: nat)
    requires ValidEnv(env) && IsRun(run, a, b, speaksFirst, env) && k < |run|
    ensures Distinct(run[k].asked) && Distinct(run[k].answered)
  {
    WantsDistinct(a, b.rep.entries, env);
    EveryStateIsSafe(run, a, b, speaksFirst, env, k);
    PrefixDistinct(Wants(a, b.rep.entries, env), run[k].asked);
    PrefixDistinct(run[k].asked, run[k].answered);
  }

  lemma PrefixDistinct(paths: seq<Path>, prefix: seq<Path>)
    requires Distinct(paths) && prefix <= paths
    ensures Distinct(prefix)
  {
    forall i, j | 0 <= i < j < |prefix| ensures prefix[i] != prefix[j] {
      assert prefix[i] == paths[i] && prefix[j] == paths[j];
    }
  }

  lemma RepliesFollow(m: Machine, q: Plan, env: Env)
    requires Inv(m, q, env)
    ensures m.answered <= m.asked <= q.wants
  {
  }

  /** Whatever the interleaving, a run that is done has answered every request
      once, left both channels empty and computed the session; so the listener
      had every file asked for. */
  lemma FinishedRunIsSession(run: seq<Machine>, a: Peer, b: Peer, speaksFirst: bool, env: Env)
    requires IsRun(run, a, b, speaksFirst, env) && Done(run[|run| - 1])
    ensures Answerable(a, b, env)
    ensures var m := run[|run| - 1];
            && (m.initiator, m.listener) == Session(a, b, env)
            && m.toListener == [] && m.toInitiator == []
            && m.asked == m.answered == Wants(a, b.rep.entries, env)
            && |run| == StepsLeft(Start(a, b, speaksFirst), PlanOf(a, b, env)) + 1
  {
    RunKeepsInv(run, a, b, speaksFirst, env, |run| - 1);
    PlanIsServedIff(a, b, env);
    RunCounts(run, a, b, speaksFirst, env, |run| - 1);
  }

  lemma ExtendedRun(run: seq<Machine>, m: Machine, a: Peer, b: Peer, speaksFirst: bool, env: Env)
    requires IsRun(run, a, b, speaksFirst, env) && Next(run[|run| - 1], m, env)
    ensures IsRun(run + [m], a, b, speaksFirst, env)
  {
    var next := run + [m];
    forall k | 0 < k < |next| ensures Next(next[k - 1], next[k], env) {
      if k < |run| {
        assert Next(run[k - 1], run[k], env);
      }
    }
  }

  lemma OneMoreStep(run: seq<Machine>, a: Peer, b: Peer, speaksFirst: bool, env: Env) returns (m: Machine)
    requires IsRun(run, a, b, speaksFirst, env) && !Done(run[|run| - 1]) && !Hung(run[|run| - 1])
    ensures IsRun(run + [m], a, b, speaksFirst, env)
    ensures StepsLeft(m, PlanOf(a, b, env)) == StepsLeft(run[|run| - 1], PlanOf(a, b, env)) - 1
  {
    var last := run[|run| - 1];
    RunKeepsInv(run, a, b, speaksFirst, env, |run| - 1);
    SomeoneMovesIff(last, PlanOf(a, b, env), env);
    m := if InitiatorStep(last, env).Some? then InitiatorStep(last, env).value else ListenerStep(last, env).value;
    ExtendedRun(run, m, a, b, speaksFirst, env);
    RunKeepsInv(run + [m], a, b, speaksFirst, env, |run|);
    PlanPushes(a, b, env);
    StepCounts(last, m, PlanOf(a, b, env), env);
  }

  lemma PrefixTransitive(x: seq<Machine>, y: seq<Machine>, z: seq<Machine>)
    requires x <= y && y <= z
    ensures x <= z
  {
  }

  lemma {:induction false} RunUntilStop(run: seq<Machine>, a: Peer, b: Peer, speaksFirst: bool, env: Env)
    returns (longer: seq<Machine>)
    requires IsRun(run, a, b, speaksFirst, env)
    ensures IsRun(longer, a, b, speaksFirst, env) && run <= longer
    ensures Done(longer[|longer| - 1]) || Hung(longer[|longer| - 1])
    decreases StepsLeft(run[|run| - 1], PlanOf(a, b, env))
  {
    if Done(run[|run| - 1]) || Hung(run[|run| - 1]) {
      longer := run;
    } else {
      var m := OneMoreStep(run, a, b, speaksFirst, env);
      longer := RunUntilStop(run + [m], a, b, speaksFirst, env);
      PrefixTransitive(run, run + [m], longer);
    }
  }

  lemma AnswerableNeverHangs(run: seq<Machine>, a: Peer, b: Peer, speaksFirst: bool, env: Env)
    requires IsRun(run, a, b, speaksFirst, env) && Answerable(a, b, env)
    ensures !Hung(run[|run| - 1])
  {
    EveryStateIsSafe(run, a, b, speaksFirst, env, |run| - 1);
  }

  /** Every run comes to a stop: done when the listener has every file asked for,
      hung when it has not. */
  lemma EveryRunStops(run: seq<Machine>, a: Peer, b: Peer, speaksFirst: bool, env: Env)
    returns (longer: seq<Machine>)
    requires IsRun(run, a, b, speaksFirst, env)
    ensures IsRun(longer, a, b, speaksFirst, env) && run <= longer
    ensures if Answerable(a, b, env) then Done(longer[|longer| - 1]) else Hung(longer[|longer| - 1])
  {
    longer := RunUntilStop(run, a, b, speaksFirst, env);
    if Answerable(a, b, env) {
      AnswerableNeverHangs(longer, a, b, speaksFirst, env);
    } else if Done(longer[|longer| - 1]) {
      FinishedRunIsSession(longer, a, b, speaksFirst, env);
    }
  }

  /** A run can be continued to a finished one exactly when the listener has the
      file of every path the initiator asks for. */
  lemma EveryRunCanFinishIff(run: seq<Machine>, a: Peer, b: Peer, speaksFirst: bool, env: Env)
    requires IsRun(run, a, b, speaksFirst, env)
    ensures (exists longer :: IsRun(longer, a, b, speaksFirst, env) && run <= longer && Done(longer[|longer| - 1]))
            <==> Answerable(a, b, env)
  {
    var longer := EveryRunStops(run, a, b, speaksFirst, env);
    if other :| IsRun(other, a, b, speaksFirst, env) && run <= other && Done(other[|other| - 1]) {
      FinishedRunIsSession(other, a, b, speaksFirst, env);
    }
  }

  /** When live entries are backed by their files, it always has. */
  lemma BackedIsAnswerable(a: Peer, b: Peer, env: Env)
    requires Backed(b.rep)
    ensures Answerable(a, b, env)
  {
    forall p | p in Wants(a, b.rep.entries, env) ensures p in b.rep.files {
      WantedIsServed(a, b, env, p);
    }
  }
}
