/** The delivery guarantees of a network of bridges, for every run. */
module Delivering {
  import opened Envelopes
  import opened Tables
  import opened InboxTable
  import opened Settlement
  import opened Operations
  import opened MessageAuthentication
  import opened Transport
  import opened Network

  // ---- Who is accepted, and why messages are dead-lettered --------------------

  ghost predicate RowsAuthorized(logs: Logs, authorized: map<NodeId, set<NodeId>>) {
    forall n, id :: n in logs && id in Db(logs, n).inbox ==>
      n in authorized && Db(logs, n).inbox[id].envelope.origin in authorized[n]
  }

  /** The checks, made at that time, discard the message for that reason. */
  ghost predicate RefusalStands(net: Network, n: NodeId, wire: Wire, reason: Reason, at: int) {
    && n in net.auth && n in net.authorized
    && exists count :: Examine(net.auth[n], net.authorized[n], wire, count, at) == Discarded(reason)
  }

  /** A delivery is at the node it is addressed to, collides with nothing, and is refused
      only for what the checks found. */
  ghost predicate DeliveryFine(net: Network, n: NodeId, d: Delivery) {
    && d.wire.meta.target == n && !d.phase.Collided?
    && (d.phase.Rejected? ==> RefusalStands(net, n, d.wire, d.phase.reason, d.phase.at))
  }

  ghost predicate AllFine(net: Network) {
    forall w, s :: w in net.workers && s in net.workers[w].deliveries ==>
      DeliveryFine(net, net.workers[w].node, net.workers[w].deliveries[s])
  }

  /** Why a message between nodes that authorize each other, with the broker as its origin
      sent it, may have been given up. */
  ghost predicate Explains(net: Network, e: Envelope, d: DeadLetter)
    requires Unaltered(net.auth, d.copy.wire, e)
  {
    match d.reason
    case MessageAuthenticationFailed =>
      && e.target in net.auth
      && !InForce(net.auth[e.origin], net.auth[e.target], e, d.copy.wire.message.value.content.issuedAt, d.at)
    case TimeToLiveExpired => d.copy.enqueuedAt + Retention(d.copy.wire) <= d.at
    case MaxDeliveryCountExceeded => MAX_DELIVERIES <= d.copy.deliveries
    case Objected(_) => false
  }

  ghost predicate Explained(net: Network, d: DeadLetter) {
    forall e :: Unaltered(net.auth, d.copy.wire, e) && e.target in net.authorized && e.origin in net.authorized[e.target]
                ==> Explains(net, e, d)
  }

  ghost predicate DeadExplained(net: Network) {
    forall d :: d in net.dead ==> Explained(net, d)
  }

  ghost predicate Tidy(net: Network) {
    RowsAuthorized(net.logs, net.authorized) && AllFine(net) && DeadExplained(net)
  }

  lemma GrowKeepsAuthorized(logs: Logs, logs': Logs, authorized: map<NodeId, set<NodeId>>, n: NodeId, op: Op)
    requires Extends(logs, logs', n, op) && RowsAuthorized(logs, authorized)
    requires op.Persist? ==> n in authorized && op.e.origin in authorized[n]
    ensures RowsAuthorized(logs', authorized)
  {
    hide Step;
    forall m, id | m in logs' && id in Db(logs', m).inbox
      ensures m in authorized && Db(logs', m).inbox[id].envelope.origin in authorized[m]
    {
      DbAfter(logs, logs', n, op, m);
      if m == n {
        InboxFootprint(Db(logs, n), op, id);
      }
      assert id in Db(logs, m).inbox ==> Db(logs, m).inbox[id].envelope.origin in authorized[m];
    }
  }

  /** The operation an action adds to a log, if any. */
  ghost function LoggedBy(net: Network, a: Action): Option<(NodeId, Op)>
    requires Allowed(net, a)
  {
    match a
    case Local(n, op) => Some((n, op))
    case Lease(w, limit, leaseSeconds, now) => Some((net.workers[w].node, LeaseOutbox(w, limit, leaseSeconds, now)))
    case Confirm(w, id) => Some((net.workers[w].node, MarkSent(id, w)))
    case Store(w, s, now) =>
      var d := net.workers[w].deliveries[s]; Some((net.workers[w].node, Persist(d.phase.e, d.count, now, true)))
    case _ => None
  }

  lemma LogsAct(net: Network, a: Action)
    requires Safe(net) && Allowed(net, a)
    ensures match LoggedBy(net, a)
            case None => Act(net, a).logs == net.logs
            case Some((n, op)) =>
              && Extends(net.logs, Act(net, a).logs, n, op)
              && (op.Persist? ==> n in net.authorized && op.e.origin in net.authorized[n])
    ensures Act(net, a).authorized == net.authorized && Act(net, a).auth == net.auth
  {
    hide Trusted, Unaltered, EverAccounted, LogsOk, Db, PersistSpec, SignedByNode, Sign, Examine;
    if a.Store? {
      assert WorkerOk(net, net.workers[a.w]);
      assert DeliveryOk(net, net.workers[a.w].node, a.s, net.workers[a.w].deliveries[a.s]);
    }
  }

  lemma ActKeepsAuthorized(net: Network, a: Action)
    requires Safe(net) && RowsAuthorized(net.logs, net.authorized) && Allowed(net, a)
    ensures RowsAuthorized(Act(net, a).logs, net.authorized)
  {
    hide Safe, Act, Allowed, Db;
    LogsAct(net, a);
    match LoggedBy(net, a)
    case Some((n, op)) => GrowKeepsAuthorized(net.logs, Act(net, a).logs, net.authorized, n, op);
    case None =>
  }

  lemma FineStays(net: Network, net': Network, n: NodeId, d: Delivery)
    requires DeliveryFine(net, n, d) && net'.auth == net.auth && net'.authorized == net.authorized
    ensures DeliveryFine(net', n, d)
  {
    hide Examine;
  }

  lemma OtherActionsDeliverNothing(net: Network, a: Action)
    requires Allowed(net, a) && !a.Deliver? && !a.Check? && !a.Store?
    ensures forall w :: w in Act(net, a).workers ==>
              || Act(net, a).workers[w].deliveries == map[]
              || (w in net.workers && Act(net, a).workers[w].deliveries == net.workers[w].deliveries
                  && Act(net, a).workers[w].node == net.workers[w].node)
  {
    hide Trusted, Db, Sign;
  }

  /** One delivery changes, and it is fine. */
  lemma OneDelivery(net: Network, net': Network, w: string, s: nat, d: Delivery)
    requires AllFine(net) && w in net.workers && DeliveryFine(net, net.workers[w].node, d)
    requires net'.workers == SetDelivery(net, w, s, d).workers && net'.auth == net.auth && net'.authorized == net.authorized
    ensures AllFine(net')
  {
    hide DeliveryFine;
    forall v, k | v in net'.workers && k in net'.workers[v].deliveries
      ensures DeliveryFine(net', net'.workers[v].node, net'.workers[v].deliveries[k])
    {
      FineStays(net, net', net.workers[v].node, net'.workers[v].deliveries[k]);
    }
  }

  lemma CheckedIsFine(net: Network, w: string, s: nat, now: int)
    requires AllFine(net) && CheckAllowed(net, w, s)
    ensures var n := net.workers[w].node;
      DeliveryFine(net, n, Checked(net.workers[w].deliveries[s], net.auth[n], net.authorized[n], now))
  {
    hide Examine;
    assert DeliveryFine(net, net.workers[w].node, net.workers[w].deliveries[s]);
  }

  lemma StoredIsFine(net: Network, w: string, s: nat, now: int)
    requires Safe(net) && AllFine(net) && StoreAllowed(net, w, s)
    ensures DeliveryFine(net, net.workers[w].node, StoreStep(net, w, s, now).workers[w].deliveries[s])
  {
    hide Safe, Db, PersistSpec, RefusalStands;
    StoreSafe(net, w, s, now);
    assert DeliveryFine(net, net.workers[w].node, net.workers[w].deliveries[s]);
  }

  lemma ActKeepsFine(net: Network, net': Network, a: Action)
    requires Safe(net) && AllFine(net) && Allowed(net, a) && net' == Act(net, a)
    ensures AllFine(net')
  {
    hide Safe, Db, DeliveryFine, PersistSpec, Examine, Trusted, Checked;
    LogsAct(net, a);
    match a
    case Deliver(w, s) =>
      var d := Delivery(net.broker[s].wire, net.broker[s].deliveries, Received);
      assert DeliveryFine(net, net.workers[w].node, d) by { ReceivedIsFine(net, w, s); }
      OneDelivery(net, net', w, s, d);
    case Check(w, s, now) =>
      CheckedIsFine(net, w, s, now);
      OneDelivery(net, net', w, s, net'.workers[w].deliveries[s]);
    case Store(w, s, now) =>
      StoredIsFine(net, w, s, now);
      OneDelivery(net, net', w, s, net'.workers[w].deliveries[s]);
    case _ => OthersStayFine(net, net', a);
  }

  lemma ReceivedIsFine(net: Network, w: string, s: nat)
    requires DeliverAllowed(net, w, s)
    ensures DeliveryFine(net, net.workers[w].node, Delivery(net.broker[s].wire, net.broker[s].deliveries, Received))
  {
  }

  lemma OthersStayFine(net: Network, net': Network, a: Action)
    requires AllFine(net) && Allowed(net, a) && !a.Deliver? && !a.Check? && !a.Store? && net' == Act(net, a)
    requires net'.auth == net.auth && net'.authorized == net.authorized
    ensures AllFine(net')
  {
    hide DeliveryFine, Act, Allowed;
    OtherActionsDeliverNothing(net, a);
    forall v, k | v in net'.workers && k in net'.workers[v].deliveries
      ensures DeliveryFine(net', net'.workers[v].node, net'.workers[v].deliveries[k])
    {
      FineStays(net, net', net.workers[v].node, net.workers[v].deliveries[k]);
    }
  }

  // ---- Dead letters -------------------------------------------------------------------

  lemma ExplainedStays(net: Network, net': Network, d: DeadLetter)
    requires Explained(net, d) && net'.auth == net.auth && net'.authorized == net.authorized
    ensures Explained(net', d)
  {
    hide Unaltered, InForce, Retention;
    forall e | Unaltered(net'.auth, d.copy.wire, e) && e.target in net'.authorized && e.origin in net'.authorized[e.target]
      ensures Explains(net', e, d)
    {
      assert Explains(net, e, d);
    }
  }

  lemma BuryKeepsExplained(net: Network, s: nat, reason: Reason, at: int)
    requires DeadExplained(net)
    requires s in net.broker ==> Explained(net, DeadLetter(net.broker[s], reason, at))
    ensures DeadExplained(Bury(net, s, reason, at))
  {
    hide Explained;
    var net' := Bury(net, s, reason, at);
    forall d | d in net'.dead ensures Explained(net', d) {
      ExplainedStays(net, net', d);
    }
  }

  /** A refusal of an unaltered message from an authorized origin is one of its signature,
      which is not in force. */
  lemma RefusalExplains(net: Network, e: Envelope, copy: Copy, reason: Reason, at: int)
    requires KeysHonest(net.auth) && Unaltered(net.auth, copy.wire, e)
    requires RefusalStands(net, e.target, copy.wire, reason, at) && e.origin in net.authorized[e.target]
    ensures Explains(net, e, DeadLetter(copy, reason, at))
  {
    hide Examine, Sign, InForce;
    var b, authorized := net.auth[e.target], net.authorized[e.target];
    var count :| Examine(b, authorized, copy.wire, count, at) == Discarded(reason);
    UnalteredIsHandedIff(net.auth, authorized, copy.wire, e, count, at);
    if reason.Objected? {
      OnlyOriginsAreRefused(b, authorized, copy.wire, count, at, reason.refusal);
    }
    DiscardReasons(b, authorized, copy.wire, count, at);
  }

  lemma DiscardReasons(b: Authenticator, authorized: set<NodeId>, wire: Wire, count: nat, at: int)
    ensures var x := Examine(b, authorized, wire, count, at);
      x.Discarded? ==> x.reason.MessageAuthenticationFailed? || x.reason.Objected?
  {
  }

  lemma GivenUpIsExplained(net: Network, w: string, s: nat)
    requires Safe(net) && AllFine(net) && GiveUpAllowed(net, w, s) && s in net.broker
    ensures var p := net.workers[w].deliveries[s].phase; p.Rejected?
    ensures var p := net.workers[w].deliveries[s].phase;
      Explained(net, DeadLetter(net.broker[s], ReasonOf(p), p.at))
  {
    hide RefusalStands, Trusted, EverAccounted, LogsOk, Explains, Examine, PhaseOk, SignedByNode;
    var d := net.workers[w].deliveries[s];
    assert WorkerOk(net, net.workers[w]) && DeliveryOk(net, net.workers[w].node, s, d);
    assert DeliveryFine(net, net.workers[w].node, d);
    var letter := DeadLetter(net.broker[s], ReasonOf(d.phase), d.phase.at);
    forall e | Unaltered(net.auth, letter.copy.wire, e) && e.target in net.authorized
               && e.origin in net.authorized[e.target]
      ensures Explains(net, e, letter)
    {
      RefusalExplains(net, e, net.broker[s], d.phase.reason, d.phase.at);
    }
  }

  lemma DroppedIsExplained(net: Network, s: nat, reason: Reason, at: int)
    requires s in net.broker
    requires || (reason.TimeToLiveExpired? && ExpireAllowed(net, s, at))
             || (reason.MaxDeliveryCountExceeded? && ExhaustAllowed(net, s))
    ensures Explained(net, DeadLetter(net.broker[s], reason, at))
  {
    hide Unaltered;
  }

  lemma DeadAct(net: Network, net': Network, a: Action)
    requires DeadExplained(net) && Allowed(net, a) && !a.GiveUp? && !a.Expire? && !a.Exhaust? && net' == Act(net, a)
    requires net'.auth == net.auth && net'.authorized == net.authorized
    ensures DeadExplained(net')
  {
    hide Explained, Trusted, Db, Sign, PersistSpec;
    assert net'.dead == net.dead;
    forall d | d in net'.dead ensures Explained(net', d) {
      ExplainedStays(net, net', d);
    }
  }

  lemma ActKeepsExplained(net: Network, net': Network, a: Action)
    requires Safe(net) && AllFine(net) && DeadExplained(net) && Allowed(net, a) && net' == Act(net, a)
    ensures DeadExplained(net')
  {
    hide Explained, Db, AllFine, Safe;
    LogsAct(net, a);
    match a
    case GiveUp(w, s) =>
      if s in net.broker { GivenUpIsExplained(net, w, s); }
      var p := net.workers[w].deliveries[s].phase;
      BuryKeepsExplained(net, s, ReasonOf(p), p.at);
    case Expire(s, at) =>
      DroppedIsExplained(net, s, TimeToLiveExpired, at);
      BuryKeepsExplained(net, s, TimeToLiveExpired, at);
    case Exhaust(s, at) =>
      DroppedIsExplained(net, s, MaxDeliveryCountExceeded, at);
      BuryKeepsExplained(net, s, MaxDeliveryCountExceeded, at);
    case _ => DeadAct(net, net', a);
  }

  lemma ActTidy(net: Network, a: Action)
    requires Safe(net) && Tidy(net) && Allowed(net, a)
    ensures Tidy(Act(net, a))
    ensures Act(net, a).authorized == net.authorized && Act(net, a).auth == net.auth
  {
    hide Safe, Act, Allowed, AllFine, DeadExplained, RowsAuthorized;
    LogsAct(net, a);
    ActKeepsAuthorized(net, a);
    ActKeepsFine(net, Act(net, a), a);
    ActKeepsExplained(net, Act(net, a), a);
  }

  lemma InitialIsTidy(net: Network)
    requires Initial(net)
    ensures Tidy(net)
  {
  }

  lemma {:induction false} EveryNetworkIsTidy(states: seq<Network>, actions: seq<Action>)
    requires IsRun(states, actions) && Initial(states[0])
    ensures Safe(states[|actions|]) && Tidy(states[|actions|])
    ensures states[|actions|].authorized == states[0].authorized && states[|actions|].auth == states[0].auth
  {
    hide Safe, Act, Allowed, Tidy;
    EveryNetworkIsSafe(states, actions);
    if actions == [] {
      InitialIsTidy(states[0]);
    } else {
      var k := |actions| - 1;
      EveryNetworkIsTidy(states[..k + 1], actions[..k]);
      assert states[..k + 1][k] == states[k];
      ActTidy(states[k], actions[k]);
    }
  }

  // ---- The guarantees -------------------------------------------------------

  /** No loss: whatever workers, brokers, crashes and intruders do, a message marked sent
      is still with the broker as it was sent, or stored unchanged at its target, or among
      the dead letters as it was sent. */
  lemma NothingIsLost(states: seq<Network>, actions: seq<Action>, n: NodeId, id: Id)
    requires IsRun(states, actions) && Initial(states[0])
    requires n in states[|actions|].logs && id in Db(states[|actions|].logs, n).outbox
    requires Db(states[|actions|].logs, n).outbox[id].state.Sent?
    ensures Accounted(states[|actions|], Db(states[|actions|].logs, n).outbox[id].envelope)
  {
    hide Db, Act, Allowed, Accounted, DeliveriesOk, BrokerOk;
    EveryNetworkIsSafe(states, actions);
  }

  /** No invention: a received message stands, unchanged, in the outbox of the
      authorized node it names as its origin, and was meant for this node. */
  lemma NothingIsInvented(states: seq<Network>, actions: seq<Action>, n: NodeId, id: Id)
    requires IsRun(states, actions) && Initial(states[0])
    requires n in states[|actions|].logs && id in Db(states[|actions|].logs, n).inbox
    ensures var net, e := states[|actions|], Db(states[|actions|].logs, n).inbox[id].envelope;
      && e.target == n && OutHas(net.logs, e.origin, e)
      && n in net.authorized && e.origin in net.authorized[n]
  {
    hide Db, Act, Allowed, Accounted, DeliveriesOk, BrokerOk, OutHas;
    EveryNetworkIsTidy(states, actions);
    var net := states[|actions|];
    assert Db(net.logs, n).inbox[id].envelope in net.ever;
  }

  lemma OneInboxEach(net: Network, n: NodeId, m: NodeId, id: Id)
    requires Safe(net)
    requires n in net.logs && id in Db(net.logs, n).inbox && m in net.logs && id in Db(net.logs, m).inbox
    ensures n == m
  {
    hide Db, EverAccounted, DeliveriesOk, BrokerOk, TopicOk;
    var x, y := Db(net.logs, n).inbox[id].envelope, Db(net.logs, m).inbox[id].envelope;
    assert OutHas(net.logs, x.origin, x) && OutHas(net.logs, y.origin, y);
    InboxIsKeyed(net.logs, n, id);
    InboxIsKeyed(net.logs, m, id);
  }

  /** No duplication: a message id has one inbox row in the whole network. */
  lemma NothingIsDuplicated(states: seq<Network>, actions: seq<Action>, n: NodeId, m: NodeId, id: Id)
    requires IsRun(states, actions) && Initial(states[0])
    requires n in states[|actions|].logs && id in Db(states[|actions|].logs, n).inbox
    requires m in states[|actions|].logs && id in Db(states[|actions|].logs, m).inbox
    ensures n == m
  {
    hide Safe, Act, Allowed, Db;
    EveryNetworkIsSafe(states, actions);
    OneInboxEach(states[|actions|], n, m, id);
  }

  /** No needless dead letter: a message between nodes that authorize each other, with the
      broker as its origin sent it, is given up only because its signature was not in force
      when it was checked, because the broker had kept it for its time to live, or because
      it had been handed out ten times. It is never refused for its session, its target,
      its origin or as a collision. */
  lemma DeadLettersAreExplained(states: seq<Network>, actions: seq<Action>, d: DeadLetter, e: Envelope)
    requires IsRun(states, actions) && Initial(states[0]) && d in states[|actions|].dead
    requires Unaltered(states[0].auth, d.copy.wire, e)
    requires e.target in states[0].authorized && e.origin in states[0].authorized[e.target]
    ensures match d.reason
            case MessageAuthenticationFailed =>
              var auth, at := states[0].auth, d.copy.wire.message.value.content.issuedAt;
              e.target in auth && !InForce(auth[e.origin], auth[e.target], e, at, d.at)
            case TimeToLiveExpired => d.copy.enqueuedAt + Retention(d.copy.wire) <= d.at
            case MaxDeliveryCountExceeded => MAX_DELIVERIES <= d.copy.deliveries
            case Objected(_) => false
  {
    hide Safe, Act, Allowed, Db, AllFine, RowsAuthorized, InForce, Retention, Unaltered;
    EveryNetworkIsTidy(states, actions);
    assert Explained(states[|actions|], d);
    assert Explains(states[|actions|], e, d);
  }

  // ---- Storing never fails -----------------------------------------------------

  lemma NewRowsAreValid(d: Database, op: Op, id: Id)
    requires id in Step(d, op).outbox && id !in d.outbox
    ensures ValidEnvelope(Step(d, op).outbox[id].envelope)
  {
    OutboxFootprint(d, op, id);
    if op.Settle? {
      SettleEnqueues(d, op.id, op.consumer, op.token, op.outcome, op.reply, op.now);
    }
  }

  /** Only valid envelopes are accepted for sending. */
  lemma {:induction false} OutboxesHoldValidEnvelopes(ops: seq<Op>, id: Id)
    requires id in Run(EmptyDatabase(), ops).outbox
    ensures ValidEnvelope(Run(EmptyDatabase(), ops).outbox[id].envelope)
  {
    hide Step;
    if ops != [] {
      var before := ops[..|ops| - 1];
      var d := Run(EmptyDatabase(), before);
      if id in d.outbox {
        OutboxesHoldValidEnvelopes(before, id);
        EveryRunIsOk(before);
        StepKeeps(d, ops[|ops| - 1]);
      } else {
        NewRowsAreValid(d, ops[|ops| - 1], id);
      }
    }
  }

  lemma OutboxHoldsValid(logs: Logs, n: NodeId, id: Id)
    requires n in logs && id in Db(logs, n).outbox
    ensures ValidEnvelope(Db(logs, n).outbox[id].envelope)
  {
    hide Step;
    OutboxesHoldValidEnvelopes(logs[n], id);
  }

  lemma NotSentBySelf(net: Network, n: NodeId, id: Id)
    requires Safe(net) && n in net.logs && id in Db(net.logs, n).inbox
    ensures id !in Db(net.logs, n).outbox
  {
    hide Db, EverAccounted, DeliveriesOk, BrokerOk, TopicOk;
    var e := Db(net.logs, n).inbox[id].envelope;
    assert OutHas(net.logs, e.origin, e);
    InboxIsKeyed(net.logs, n, id);
    OutboxHoldsValid(net.logs, e.origin, id);
  }

  /** A message a node received is never one it sent itself. */
  lemma ReceivedIsNotSent(states: seq<Network>, actions: seq<Action>, n: NodeId, id: Id)
    requires IsRun(states, actions) && Initial(states[0])
    requires n in states[|actions|].logs && id in Db(states[|actions|].logs, n).inbox
    ensures id !in Db(states[|actions|].logs, n).outbox
  {
    hide Safe, Act, Allowed, Db;
    EveryNetworkIsSafe(states, actions);
    NotSentBySelf(states[|actions|], n, id);
  }

  lemma ValidGenuineIsPersisted(net: Network, n: NodeId, e: Envelope, count: int, now: int)
    requires Safe(net) && n in net.logs && e in net.ever && e.target == n
    ensures PhaseAfter(e, PersistSpec(Db(net.logs, n).inbox, e, count, now, true).1, now).Persisted?
  {
    hide EverAccounted, DeliveriesOk, BrokerOk, TopicOk;
    assert OutHas(net.logs, e.origin, e);
    OutboxesHoldValidEnvelopes(net.logs[e.origin], e.id);
    GenuineNeverCollides(net, n, e, count, now);
  }

  /** Whenever a worker gets as far as storing a delivery, the message is stored:
      it is neither refused nor left for another attempt. */
  lemma StoringSucceeds(states: seq<Network>, actions: seq<Action>, w: string, s: nat, now: int)
    requires IsRun(states, actions) && Initial(states[0]) && StoreAllowed(states[|actions|], w, s)
    ensures var net := states[|actions|];
      var net', e := StoreStep(net, w, s, now), net.workers[w].deliveries[s].phase.e;
      net'.workers[w].deliveries[s].phase == Persisted(e) && Stored(net'.logs, e)
  {
    hide Act, Allowed, Db, EverAccounted, LogsOk, Trusted, PersistSpec;
    EveryNetworkIsSafe(states, actions);
    var net := states[|actions|];
    var d := net.workers[w].deliveries[s];
    assert WorkerOk(net, net.workers[w]) && DeliveryOk(net, net.workers[w].node, s, d);
    ValidGenuineIsPersisted(net, net.workers[w].node, d.phase.e, d.count, now);
    StoreSafe(net, w, s, now);
    var net' := StoreStep(net, w, s, now);
    assert WorkerOk(net', net'.workers[w]) && DeliveryOk(net', net.workers[w].node, s, net'.workers[w].deliveries[s]);
  }
}
