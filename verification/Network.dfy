/** Several nodes, each with its own database and any number of bridge worker
    processes, around a broker that stores, redelivers, reorders, expires and
    dead-letters messages. A worker can crash between any two of its actions,
    and anyone can put messages on the topic. */
module Network {
  import opened Envelopes
  import opened Tables
  import opened OutboxTable
  import opened InboxTable
  import opened Settlement
  import opened Approvals
  import opened Operations
  import opened MessageAuthentication
  import opened Transport

  /** A message in the broker, and how often it was handed out. */
  datatype Copy = Copy(wire: Wire, enqueuedAt: int, deliveries: nat)

  /** A message that was given up, when and why. */
  datatype DeadLetter = DeadLetter(copy: Copy, reason: Reason, at: int)

  /** How far a worker has come with a delivery; what it objects to is dead-lettered
      next, what it has stored is completed next. */
  datatype Phase = Received | Rejected(reason: Reason, at: int) | Passed(e: Envelope) | Persisted(e: Envelope)
                 | Collided(at: int)

  datatype Delivery = Delivery(wire: Wire, count: nat, phase: Phase)

  /** What a worker process holds in memory: the messages it leased, those the
      broker accepted, and the deliveries it has not settled yet. */
  datatype Worker = Worker(node: NodeId, leased: set<Envelope>, accepted: set<Id>, deliveries: map<nat, Delivery>)

  /** The logs are the operations each node's database went through. The broker
      holds messages under sequence numbers that are never used again. `ever`,
      `signed` and `seen` remember the messages, the signed messages and the ids that
      were put on the topic by nodes, and by anybody; `minted` all ids generated. */
  datatype Network = Network(
    logs: Logs,
    authorized: map<NodeId, set<NodeId>>,
    auth: Authenticators,
    workers: map<string, Worker>,
    broker: map<nat, Copy>,
    next: nat,
    dead: set<DeadLetter>,
    ever: set<Envelope>,
    signed: set<SignedMessage>,
    seen: set<string>,
    minted: set<Id>)

  type Logs = map<NodeId, seq<Op>>

  ghost function Db(logs: Logs, n: NodeId): Database
    requires n in logs
  {
    Run(EmptyDatabase(), logs[n])
  }

  datatype SendOutcome = Taken | Deduplicated | Errored(landed: bool)

  datatype Action =
    | Local(n: NodeId, op: Op)
    | Start(w: string, n: NodeId)
    | Crash(w: string)
    | Lease(w: string, limit: int, leaseSeconds: int, now: int)
    | Send(w: string, e: Envelope, at: int, outcome: SendOutcome)
    | Confirm(w: string, id: Id)
    | Deliver(w: string, s: nat)
    | Check(w: string, s: nat, now: int)
    | Store(w: string, s: nat, now: int)
    | Complete(w: string, s: nat, confirmed: bool)
    | GiveUp(w: string, s: nat)
    | Expire(s: nat, at: int)
    | Exhaust(s: nat, at: int)
    | Inject(wire: Wire, at: int)

  // ---- The steps ----------------------------------------------------------

  function Minted(minted: set<Id>, op: Op): set<Id> {
    minted + if NewId(op).Some? then {NewId(op).value} else {}
  }

  function Grow(net: Network, n: NodeId, op: Op): Network
    requires n in net.logs
  {
    net.(logs := net.logs[n := net.logs[n] + [op]])
  }

  /** Any operation except the two that only the bridge worker performs. Ids are random:
      a generated id was neither generated before nor seen on the topic. */
  predicate LocalAllowed(net: Network, n: NodeId, op: Op) {
    && n in net.logs
    && !op.MarkSent? && !op.Persist?
    && (NewId(op).Some? ==> NewId(op).value !in net.minted && NewId(op).value !in net.seen)
  }

  function LocalStep(net: Network, n: NodeId, op: Op): Network
    requires n in net.logs
  {
    Grow(net, n, op).(minted := Minted(net.minted, op))
  }

  predicate Lands(outcome: SendOutcome) {
    outcome.Taken? || (outcome.Errored? && outcome.landed)
  }

  /** The worker signs and sends a leased message of its own node to an authorized node.
      The broker's duplicate detection may silently drop an id it has seen. A failing
      send may have reached the broker all the same. */
  predicate SendAllowed(net: Network, w: string, e: Envelope, at: int, outcome: SendOutcome) {
    && w in net.workers
    && var n := net.workers[w].node;
    && e in net.workers[w].leased
    && e.origin == n
    && n in net.auth && n in net.authorized && e.target in net.authorized[n]
    && (Lands(outcome) || outcome.Deduplicated? ==> Sign(net.auth[n], e, at).Accepted?)
    && (outcome.Deduplicated? ==> e.id in net.seen)
  }

  function Put(net: Network, wire: Wire, at: int): Network {
    net.(broker := net.broker[net.next := Copy(wire, at, 0)], next := net.next + 1, seen := net.seen + {wire.meta.id})
  }

  function Posted(net: Network, e: Envelope, m: SignedMessage, at: int): Network {
    Put(net, ToServiceBus(e, m), at).(ever := net.ever + {e}, signed := net.signed + {m})
  }

  function SendStep(net: Network, w: string, e: Envelope, at: int, outcome: SendOutcome): Network
    requires SendAllowed(net, w, e, at, outcome)
  {
    var worker := net.workers[w];
    var net1 := if Lands(outcome) then Posted(net, e, Sign(net.auth[worker.node], e, at).value, at) else net;
    if outcome.Errored? then net1
    else net1.(workers := net.workers[w := worker.(accepted := worker.accepted + {e.id})])
  }

  ghost function LeaseStep(net: Network, w: string, limit: int, leaseSeconds: int, now: int): Network
    requires w in net.workers && net.workers[w].node in net.logs
  {
    var worker := net.workers[w];
    var o := Db(net.logs, worker.node).outbox;
    var taken := if limit <= 0 then {} else
                   set id | id in LeaseIds(o, limit, now) && id in o :: o[id].envelope;
    Grow(net, worker.node, LeaseOutbox(w, limit, leaseSeconds, now))
      .(workers := net.workers[w := worker.(leased := worker.leased + taken)])
  }

  function SetDelivery(net: Network, w: string, s: nat, d: Delivery): Network
    requires w in net.workers
  {
    var worker := net.workers[w];
    net.(workers := net.workers[w := worker.(deliveries := worker.deliveries[s := d])])
  }

  /** Subscriptions filter on the target in the metadata. */
  predicate DeliverAllowed(net: Network, w: string, s: nat) {
    w in net.workers && s in net.broker && net.broker[s].wire.meta.target == net.workers[w].node
  }

  function DeliverStep(net: Network, w: string, s: nat): Network
    requires DeliverAllowed(net, w, s)
  {
    var copy := net.broker[s];
    SetDelivery(net.(broker := net.broker[s := copy.(deliveries := copy.deliveries + 1)]), w, s,
                Delivery(copy.wire, copy.deliveries, Received))
  }

  predicate Holds(net: Network, w: string, s: nat) {
    w in net.workers && s in net.workers[w].deliveries
  }

  predicate CheckAllowed(net: Network, w: string, s: nat) {
    && Holds(net, w, s) && net.workers[w].deliveries[s].phase.Received?
    && net.workers[w].node in net.auth && net.workers[w].node in net.authorized
  }

  function Checked(d: Delivery, b: Authenticator, authorized: set<NodeId>, now: int): Delivery {
    match Examine(b, authorized, d.wire, d.count, now)
    case Handed(e) => d.(phase := Passed(e))
    case Discarded(reason) => d.(phase := Phase.Rejected(reason, now))
  }

  function CheckStep(net: Network, w: string, s: nat, now: int): Network
    requires CheckAllowed(net, w, s)
  {
    var n := net.workers[w].node;
    SetDelivery(net, w, s, Checked(net.workers[w].deliveries[s], net.auth[n], net.authorized[n], now))
  }

  predicate StoreAllowed(net: Network, w: string, s: nat) {
    Holds(net, w, s) && net.workers[w].node in net.logs && net.workers[w].deliveries[s].phase.Passed?
  }

  function PhaseAfter(e: Envelope, r: Result<PersistStatus>, now: int): Phase {
    match r
    case Ok(Collision) => Collided(now)
    case Ok(_) => Persisted(e)
    case Err(_) => Received
  }

  ghost function StoreStep(net: Network, w: string, s: nat, now: int): Network
    requires StoreAllowed(net, w, s)
  {
    var n, d := net.workers[w].node, net.workers[w].deliveries[s];
    var r := PersistSpec(Db(net.logs, n).inbox, d.phase.e, d.count, now, true).1;
    SetDelivery(Grow(net, n, Persist(d.phase.e, d.count, now, true)), w, s, d.(phase := PhaseAfter(d.phase.e, r, now)))
  }

  predicate GiveUpAllowed(net: Network, w: string, s: nat) {
    Holds(net, w, s) && (net.workers[w].deliveries[s].phase.Rejected? || net.workers[w].deliveries[s].phase.Collided?)
  }

  function ReasonOf(p: Phase): Reason
    requires p.Rejected? || p.Collided?
  {
    if p.Rejected? then p.reason else IDENTITY_COLLISION
  }

  /** The message leaves the queue; a settlement of a message that is no longer
      there has no effect. */
  function Bury(net: Network, s: nat, reason: Reason, at: int): Network {
    if s in net.broker
    then net.(broker := net.broker - {s}, dead := net.dead + {DeadLetter(net.broker[s], reason, at)})
    else net
  }

  predicate ExpireAllowed(net: Network, s: nat, at: int) {
    s in net.broker && net.broker[s].enqueuedAt + Retention(net.broker[s].wire) <= at
  }

  predicate ExhaustAllowed(net: Network, s: nat) {
    s in net.broker && MAX_DELIVERIES <= net.broker[s].deliveries
  }

  /** Anybody may put anything on the topic, signed messages of others with any metadata
      and any change included, but nobody makes a node's signature, or uses an id that a
      node has generated and not yet sent. */
  ghost predicate InjectAllowed(net: Network, wire: Wire) {
    && Trusted(net.auth, net.signed, wire)
    && (wire.meta.id in net.minted ==> wire.meta.id in net.seen)
  }

  ghost predicate Allowed(net: Network, a: Action) {
    match a
    case Local(n, op) => LocalAllowed(net, n, op)
    case Start(w, n) => w !in net.workers && n in net.logs
    case Crash(w) => w in net.workers
    case Lease(w, _, _, _) => w in net.workers && net.workers[w].node in net.logs
    case Send(w, e, at, outcome) => SendAllowed(net, w, e, at, outcome)
    case Confirm(w, id) => w in net.workers && net.workers[w].node in net.logs && id in net.workers[w].accepted
    case Deliver(w, s) => DeliverAllowed(net, w, s)
    case Check(w, s, _) => CheckAllowed(net, w, s)
    case Store(w, s, _) => StoreAllowed(net, w, s)
    case Complete(w, s, _) => Holds(net, w, s) && net.workers[w].deliveries[s].phase.Persisted?
    case GiveUp(w, s) => GiveUpAllowed(net, w, s)
    case Expire(s, at) => ExpireAllowed(net, s, at)
    case Exhaust(s, _) => ExhaustAllowed(net, s)
    case Inject(wire, _) => InjectAllowed(net, wire)
  }

  ghost function Act(net: Network, a: Action): Network
    requires Allowed(net, a)
  {
    match a
    case Local(n, op) => LocalStep(net, n, op)
    case Start(w, n) => net.(workers := net.workers[w := Worker(n, {}, {}, map[])])
    case Crash(w) => net.(workers := net.workers - {w})
    case Lease(w, limit, leaseSeconds, now) => LeaseStep(net, w, limit, leaseSeconds, now)
    case Send(w, e, at, outcome) => SendStep(net, w, e, at, outcome)
    case Confirm(w, id) => Grow(net, net.workers[w].node, MarkSent(id, w))
    case Deliver(w, s) => DeliverStep(net, w, s)
    case Check(w, s, now) => CheckStep(net, w, s, now)
    case Store(w, s, now) => StoreStep(net, w, s, now)
    case Complete(w, s, confirmed) => if confirmed then net.(broker := net.broker - {s}) else net
    case GiveUp(w, s) =>
      var p := net.workers[w].deliveries[s].phase; Bury(net, s, ReasonOf(p), p.at)
    case Expire(s, at) => Bury(net, s, TimeToLiveExpired, at)
    case Exhaust(s, at) => Bury(net, s, MaxDeliveryCountExceeded, at)
    case Inject(wire, at) => Put(net, wire, at)
  }

  ghost predicate IsRun(states: seq<Network>, actions: seq<Action>) {
    && |states| == |actions| + 1
    && forall k :: 0 <= k < |actions| ==> Allowed(states[k], actions[k]) && states[k + 1] == Act(states[k], actions[k])
  }

  /** Nodes with empty databases; nodes authorize only nodes of the network, and know them
      by their own keys. */
  ghost predicate Initial(net: Network) {
    && (forall n :: n in net.logs ==> net.logs[n] == [])
    && (forall n :: n in net.authorized ==> n in net.logs && net.authorized[n] <= net.logs.Keys)
    && KeysHonest(net.auth)
    && net.workers == map[] && net.broker == map[] && net.dead == {}
    && net.ever == {} && net.signed == {} && net.seen == {} && net.minted == {}
  }

  // ---- What holds of every reachable network --------------------------------

  ghost predicate OutHas(logs: Logs, n: NodeId, e: Envelope) {
    n in logs && e.id in Db(logs, n).outbox && Db(logs, n).outbox[e.id].envelope == e
  }

  ghost predicate Stored(logs: Logs, e: Envelope) {
    e.target in logs && e.id in Db(logs, e.target).inbox && Db(logs, e.target).inbox[e.id].envelope == e
  }

  ghost predicate InBroker(auth: Authenticators, broker: map<nat, Copy>, e: Envelope) {
    exists s :: s in broker && Unaltered(auth, broker[s].wire, e)
  }

  ghost predicate Buried(auth: Authenticators, dead: set<DeadLetter>, e: Envelope) {
    exists d :: d in dead && Unaltered(auth, d.copy.wire, e)
  }

  /** Where a message that a node put on the topic is: with the broker as it was sent, or
      stored at its target, or among the dead letters as it was sent. */
  ghost predicate Accounted(net: Network, e: Envelope) {
    InBroker(net.auth, net.broker, e) || Stored(net.logs, e) || Buried(net.auth, net.dead, e)
  }

  ghost predicate IdsMinted(logs: Logs, minted: set<Id>) {
    forall n, id :: n in logs && id in Db(logs, n).outbox ==> id in minted
  }

  ghost predicate IdsApart(logs: Logs) {
    forall n, m, id :: n in logs && m in logs && id in Db(logs, n).outbox && id in Db(logs, m).outbox ==> n == m
  }

  ghost predicate EverSent(logs: Logs, ever: set<Envelope>) {
    forall e :: e in ever ==> OutHas(logs, e.origin, e)
  }

  ghost predicate SentAreEver(logs: Logs, ever: set<Envelope>) {
    forall n, id :: n in logs && id in Db(logs, n).outbox && Db(logs, n).outbox[id].state.Sent? ==>
      Db(logs, n).outbox[id].envelope in ever
  }

  ghost predicate ReceivedAreEver(logs: Logs, ever: set<Envelope>) {
    forall n, id :: n in logs && id in Db(logs, n).inbox ==>
      Db(logs, n).inbox[id].envelope in ever && Db(logs, n).inbox[id].envelope.target == n
  }

  ghost predicate LogsOk(logs: Logs, ever: set<Envelope>, minted: set<Id>) {
    && IdsMinted(logs, minted) && IdsApart(logs)
    && EverSent(logs, ever) && SentAreEver(logs, ever) && ReceivedAreEver(logs, ever)
  }

  ghost predicate SignedOk(auth: Authenticators, ever: set<Envelope>, signed: set<SignedMessage>) {
    forall g :: g in signed ==> SignedByNode(auth, g) && g.content.envelope in ever
  }

  /** An id that was generated and is on the topic is that of a message sent. */
  ghost predicate SeenOk(ever: set<Envelope>, seen: set<string>, minted: set<Id>) {
    forall id :: id in seen && id in minted ==> exists e :: e in ever && e.id == id
  }

  ghost predicate WireOk(net: Network, s: nat, wire: Wire) {
    s < net.next && Trusted(net.auth, net.signed, wire) && (s in net.broker ==> net.broker[s].wire == wire)
  }

  ghost predicate BrokerOk(net: Network) {
    forall s :: s in net.broker ==> WireOk(net, s, net.broker[s].wire)
  }

  ghost predicate LeasedOk(logs: Logs, workers: map<string, Worker>) {
    forall w, e :: w in workers && e in workers[w].leased ==> OutHas(logs, workers[w].node, e)
  }

  ghost predicate SentBy(ever: set<Envelope>, n: NodeId, id: Id) {
    exists e :: e in ever && e.id == id && e.origin == n
  }

  ghost predicate AcceptedOk(ever: set<Envelope>, workers: map<string, Worker>) {
    forall w, id :: w in workers && id in workers[w].accepted ==> SentBy(ever, workers[w].node, id)
  }

  /** The message was sent to this node by a node it authorizes. */
  ghost predicate Welcome(net: Network, n: NodeId, wire: Wire, e: Envelope) {
    && wire.message.Some? && wire.message.value.content.envelope == e && e in net.ever && e.target == n
    && n in net.authorized && e.origin in net.authorized[n]
  }

  ghost predicate PhaseOk(net: Network, n: NodeId, wire: Wire, p: Phase) {
    && (p.Passed? ==> Welcome(net, n, wire, p.e))
    && (p.Persisted? ==> Welcome(net, n, wire, p.e) && Stored(net.logs, p.e))
  }

  ghost predicate DeliveryOk(net: Network, n: NodeId, s: nat, d: Delivery) {
    WireOk(net, s, d.wire) && PhaseOk(net, n, d.wire, d.phase)
  }

  ghost predicate WorkerOk(net: Network, worker: Worker) {
    forall s :: s in worker.deliveries ==> DeliveryOk(net, worker.node, s, worker.deliveries[s])
  }

  ghost predicate DeliveriesOk(net: Network) {
    forall w :: w in net.workers ==> WorkerOk(net, net.workers[w])
  }

  ghost predicate EverAccounted(net: Network) {
    forall e :: e in net.ever ==> Accounted(net, e)
  }

  ghost predicate TopicOk(net: Network) {
    KeysHonest(net.auth) && SignedOk(net.auth, net.ever, net.signed) && SeenOk(net.ever, net.seen, net.minted)
  }

  ghost predicate Safe(net: Network) {
    && LogsOk(net.logs, net.ever, net.minted) && TopicOk(net)
    && EverAccounted(net) && BrokerOk(net) && DeliveriesOk(net)
    && LeasedOk(net.logs, net.workers) && AcceptedOk(net.ever, net.workers)
  }

  // ---- One operation at one node ---------------------------------------------

  predicate Extends(logs: Logs, logs': Logs, n: NodeId, op: Op) {
    n in logs && logs' == logs[n := logs[n] + [op]]
  }

  lemma DbAfter(logs: Logs, logs': Logs, n: NodeId, op: Op, m: NodeId)
    requires Extends(logs, logs', n, op) && m in logs
    ensures Db(logs', m) == if m == n then Step(Db(logs, n), op) else Db(logs, m)
    ensures Evolves(Db(logs, m).outbox, Db(logs', m).outbox) && Retains(Db(logs, m).inbox, Db(logs', m).inbox)
  {
    hide Step;
    if m == n {
      RunExtend(EmptyDatabase(), logs[n], op);
      EveryRunIsOk(logs[n]);
      StepKeeps(Db(logs, n), op);
    }
  }

  lemma OutHasStays(logs: Logs, logs': Logs, n: NodeId, op: Op, m: NodeId, e: Envelope)
    requires Extends(logs, logs', n, op) && OutHas(logs, m, e)
    ensures OutHas(logs', m, e)
  {
    hide Step;
    DbAfter(logs, logs', n, op, m);
  }

  lemma StoredStays(logs: Logs, logs': Logs, n: NodeId, op: Op, e: Envelope)
    requires Extends(logs, logs', n, op) && Stored(logs, e)
    ensures Stored(logs', e)
  {
    hide Step;
    DbAfter(logs, logs', n, op, e.target);
  }

  /** An id that appears in an outbox was there, or was generated just now. */
  lemma OutboxIdAfter(logs: Logs, logs': Logs, n: NodeId, op: Op, m: NodeId, id: Id)
    requires Extends(logs, logs', n, op) && m in logs && id in Db(logs', m).outbox
    ensures id in Db(logs, m).outbox || (m == n && NewId(op) == Some(id))
    ensures Db(logs', m).outbox[id].state.Sent? ==>
              && id in Db(logs, m).outbox && Db(logs', m).outbox[id].envelope == Db(logs, m).outbox[id].envelope
              && (Db(logs, m).outbox[id].state.Sent? || (m == n && op.MarkSent? && op.id == id))
  {
    hide Step;
    DbAfter(logs, logs', n, op, m);
    if m == n {
      OutboxFootprint(Db(logs, n), op, id);
    }
  }

  lemma IdsMintedAfter(logs: Logs, logs': Logs, n: NodeId, op: Op, minted: set<Id>)
    requires Extends(logs, logs', n, op) && IdsMinted(logs, minted)
    ensures IdsMinted(logs', Minted(minted, op))
  {
    hide Step;
    forall m, id | m in logs' && id in Db(logs', m).outbox ensures id in Minted(minted, op) {
      OutboxIdAfter(logs, logs', n, op, m, id);
    }
  }

  /** Where an id can come from after an operation. */
  lemma IdOwner(logs: Logs, logs': Logs, n: NodeId, op: Op, minted: set<Id>, m: NodeId, id: Id)
    requires Extends(logs, logs', n, op) && IdsMinted(logs, minted) && m in logs && id in Db(logs', m).outbox
    requires NewId(op).Some? ==> NewId(op).value !in minted
    ensures if NewId(op) == Some(id) then m == n else id in Db(logs, m).outbox
  {
    hide Step;
    OutboxIdAfter(logs, logs', n, op, m, id);
  }

  lemma IdsApartAfter(logs: Logs, logs': Logs, n: NodeId, op: Op, minted: set<Id>)
    requires Extends(logs, logs', n, op) && IdsMinted(logs, minted) && IdsApart(logs)
    requires NewId(op).Some? ==> NewId(op).value !in minted
    ensures IdsApart(logs')
  {
    hide Step;
    forall a, b, id | a in logs' && b in logs' && id in Db(logs', a).outbox && id in Db(logs', b).outbox ensures a == b {
      IdOwner(logs, logs', n, op, minted, a, id);
      IdOwner(logs, logs', n, op, minted, b, id);
    }
  }

  lemma EverSentAfter(logs: Logs, logs': Logs, n: NodeId, op: Op, ever: set<Envelope>)
    requires Extends(logs, logs', n, op) && EverSent(logs, ever)
    ensures EverSent(logs', ever)
  {
    hide Step;
    forall e | e in ever ensures OutHas(logs', e.origin, e) {
      OutHasStays(logs, logs', n, op, e.origin, e);
    }
  }

  lemma SentAreEverAfter(logs: Logs, logs': Logs, n: NodeId, op: Op, ever: set<Envelope>)
    requires Extends(logs, logs', n, op) && SentAreEver(logs, ever) && EverSent(logs, ever)
    requires op.MarkSent? ==> SentBy(ever, n, op.id)
    ensures SentAreEver(logs', ever)
  {
    hide Step;
    forall m, id | m in logs' && id in Db(logs', m).outbox && Db(logs', m).outbox[id].state.Sent?
      ensures Db(logs', m).outbox[id].envelope in ever
    {
      OutboxIdAfter(logs, logs', n, op, m, id);
      if !Db(logs, m).outbox[id].state.Sent? {
        var e :| e in ever && e.id == id && e.origin == n;
        assert OutHas(logs, n, e);
      }
    }
  }

  lemma ReceivedAreEverAfter(logs: Logs, logs': Logs, n: NodeId, op: Op, ever: set<Envelope>)
    requires Extends(logs, logs', n, op) && ReceivedAreEver(logs, ever)
    requires op.Persist? ==> op.e in ever && op.e.target == n
    ensures ReceivedAreEver(logs', ever)
  {
    hide Step;
    forall m, id | m in logs' && id in Db(logs', m).inbox
      ensures Db(logs', m).inbox[id].envelope in ever && Db(logs', m).inbox[id].envelope.target == m
    {
      DbAfter(logs, logs', n, op, m);
      if m == n {
        InboxFootprint(Db(logs, n), op, id);
      }
      assert id in Db(logs, m).inbox ==> Db(logs, m).inbox[id].envelope in ever;
    }
  }

  lemma LogsAfter(logs: Logs, logs': Logs, n: NodeId, op: Op, ever: set<Envelope>, minted: set<Id>)
    requires Extends(logs, logs', n, op) && LogsOk(logs, ever, minted)
    requires NewId(op).Some? ==> NewId(op).value !in minted
    requires op.MarkSent? ==> SentBy(ever, n, op.id)
    requires op.Persist? ==> op.e in ever && op.e.target == n
    ensures LogsOk(logs', ever, Minted(minted, op))
  {
    hide Step;
    IdsMintedAfter(logs, logs', n, op, minted);
    IdsApartAfter(logs, logs', n, op, minted);
    EverSentAfter(logs, logs', n, op, ever);
    SentAreEverAfter(logs, logs', n, op, ever);
    ReceivedAreEverAfter(logs, logs', n, op, ever);
  }

  // ---- Every action keeps the network safe ------------------------------------

  /** What one network keeps of another: nothing that was true of messages and copies is
      undone. */
  ghost predicate Carried(net: Network, net': Network) {
    && net'.auth == net.auth && net'.authorized == net.authorized && net.next <= net'.next
    && net.ever <= net'.ever && net.signed <= net'.signed
    && (forall e :: Stored(net.logs, e) ==> Stored(net'.logs, e))
    && (forall s :: s in net'.broker && s < net.next ==> s in net.broker && net'.broker[s].wire == net.broker[s].wire)
  }

  lemma TrustedStays(auth: Authenticators, signed: set<SignedMessage>, signed': set<SignedMessage>, wire: Wire)
    requires Trusted(auth, signed, wire) && signed <= signed'
    ensures Trusted(auth, signed', wire)
  {
    if wire.message.Some? && wire.message.value.signature.Ed25519?
       && IsNodeSecret(auth, wire.message.value.signature.secret)
    {
      var g :| g in signed && g.signature == wire.message.value.signature;
      assert g in signed';
    }
  }

  lemma DeliveryStays(net: Network, net': Network, n: NodeId, s: nat, d: Delivery)
    requires DeliveryOk(net, n, s, d) && Carried(net, net')
    ensures DeliveryOk(net', n, s, d)
  {
    hide Trusted, Stored;
    TrustedStays(net.auth, net.signed, net'.signed, d.wire);
  }

  lemma WorkerStays(net: Network, net': Network, worker: Worker)
    requires WorkerOk(net, worker) && Carried(net, net')
    ensures WorkerOk(net', worker)
  {
    hide DeliveryOk, Carried;
    forall s | s in worker.deliveries ensures DeliveryOk(net', worker.node, s, worker.deliveries[s]) {
      DeliveryStays(net, net', worker.node, s, worker.deliveries[s]);
    }
  }

  lemma WireStays(net: Network, net': Network, s: nat)
    requires BrokerOk(net) && Carried(net, net') && s in net.broker
    requires s in net'.broker ==> net'.broker[s].wire == net.broker[s].wire
    ensures WireOk(net', s, net.broker[s].wire)
  {
    hide Trusted, Stored;
    assert WireOk(net, s, net.broker[s].wire);
    TrustedStays(net.auth, net.signed, net'.signed, net.broker[s].wire);
  }

  /** The rest of the network under a new operation: nothing is lost, and
      workers still remember the truth. */
  lemma GrowSafe(net: Network, net': Network, n: NodeId, op: Op)
    requires Safe(net) && n in net.logs
    requires NewId(op).Some? ==> NewId(op).value !in net.minted && NewId(op).value !in net.seen
    requires op.MarkSent? ==> SentBy(net.ever, n, op.id)
    requires op.Persist? ==> op.e in net.ever && op.e.target == n
    requires net' == Grow(net, n, op).(minted := Minted(net.minted, op))
    ensures Safe(net')
  {
    hide Unaltered, Trusted, Db, DeliveryOk, WorkerOk, LogsOk, Stored, SignedOk, OutHas;
    LogsAfter(net.logs, net'.logs, n, op, net.ever, net.minted);
    forall e | Stored(net.logs, e) ensures Stored(net'.logs, e) {
      StoredStays(net.logs, net'.logs, n, op, e);
    }
    assert Carried(net, net');
    forall e | e in net.ever ensures Accounted(net', e) {
      assert Accounted(net, e);
    }
    forall s | s in net'.broker ensures WireOk(net', s, net'.broker[s].wire) {
      WireStays(net, net', s);
    }
    forall w | w in net'.workers ensures WorkerOk(net', net'.workers[w]) {
      WorkerStays(net, net', net.workers[w]);
    }
    forall w, e | w in net.workers && e in net.workers[w].leased ensures OutHas(net'.logs, net.workers[w].node, e) {
      OutHasStays(net.logs, net'.logs, n, op, net.workers[w].node, e);
    }
  }

  lemma MintNothing(net: Network, net': Network, n: NodeId, op: Op)
    requires Safe(net) && n in net.logs && NewId(op).None? && net' == Grow(net, n, op)
    requires op.MarkSent? ==> SentBy(net.ever, n, op.id)
    requires op.Persist? ==> op.e in net.ever && op.e.target == n
    ensures Safe(net')
  {
    hide Safe;
    assert Minted(net.minted, op) == net.minted;
    GrowSafe(net, net', n, op);
  }

  lemma LeaseSafe(net: Network, w: string, limit: int, leaseSeconds: int, now: int)
    requires Safe(net) && w in net.workers && net.workers[w].node in net.logs
    ensures Safe(LeaseStep(net, w, limit, leaseSeconds, now))
  {
    hide Unaltered, Trusted, DeliveryOk;
    var n := net.workers[w].node;
    var op := LeaseOutbox(w, limit, leaseSeconds, now);
    var grown, after := Grow(net, n, op), LeaseStep(net, w, limit, leaseSeconds, now);
    MintNothing(net, grown, n, op);
    forall e | e in after.workers[w].leased ensures OutHas(after.logs, n, e) {
      if e !in net.workers[w].leased {
        EveryRunIsOk(net.logs[n]);
        assert OutHas(net.logs, n, e);
        OutHasStays(net.logs, grown.logs, n, op, n, e);
      }
    }
    assert WorkerOk(grown, grown.workers[w]);
    WorkerChangeSafe(grown, after, w);
  }

  /** Replacing one worker whose memory is right. */
  lemma WorkerChangeSafe(net: Network, net': Network, w: string)
    requires Safe(net) && w in net'.workers && net' == net.(workers := net.workers[w := net'.workers[w]])
    requires forall e :: e in net'.workers[w].leased ==> OutHas(net.logs, net'.workers[w].node, e)
    requires forall id :: id in net'.workers[w].accepted ==> SentBy(net.ever, net'.workers[w].node, id)
    requires WorkerOk(net, net'.workers[w])
    ensures Safe(net')
  {
    hide Unaltered, Trusted, DeliveryOk, WorkerOk, Db;
    assert Carried(net, net');
    forall e | e in net.ever ensures Accounted(net', e) {
      assert Accounted(net, e);
    }
    forall s | s in net'.broker ensures WireOk(net', s, net'.broker[s].wire) {
      WireStays(net, net', s);
    }
    forall v | v in net'.workers ensures WorkerOk(net', net'.workers[v]) {
      WorkerStays(net, net', net'.workers[v]);
    }
  }

  lemma CrashSafe(net: Network, net': Network, w: string)
    requires Safe(net) && net' == net.(workers := net.workers - {w})
    ensures Safe(net')
  {
    hide Unaltered, Trusted, DeliveryOk, WorkerOk, Db;
    assert Carried(net, net');
    forall e | e in net.ever ensures Accounted(net', e) {
      assert Accounted(net, e);
    }
    forall s | s in net'.broker ensures WireOk(net', s, net'.broker[s].wire) {
      WireStays(net, net', s);
    }
    forall v | v in net'.workers ensures WorkerOk(net', net'.workers[v]) {
      WorkerStays(net, net', net.workers[v]);
    }
  }

  lemma PutKeepsBroker(net: Network, net': Network, wire: Wire, at: int)
    requires BrokerOk(net) && Carried(net, net') && net'.broker == Put(net, wire, at).broker && net'.next == net.next + 1
    requires Trusted(net'.auth, net'.signed, wire)
    ensures BrokerOk(net')
  {
    hide Trusted, Stored;
    forall s | s in net'.broker ensures WireOk(net', s, net'.broker[s].wire) {
      if s != net.next {
        WireStays(net, net', s);
      }
    }
  }

  lemma PutKeepsAccounts(net: Network, net': Network, wire: Wire, at: int, e: Envelope)
    requires BrokerOk(net) && net'.broker == Put(net, wire, at).broker && net'.auth == net.auth
    requires net'.logs == net.logs && net'.dead == net.dead
    requires Accounted(net, e) || Unaltered(net.auth, wire, e)
    ensures Accounted(net', e)
  {
    hide Unaltered, Trusted;
    if Accounted(net, e) {
      if InBroker(net.auth, net.broker, e) {
        var s :| s in net.broker && Unaltered(net.auth, net.broker[s].wire, e);
        assert WireOk(net, s, net.broker[s].wire);
        assert s in net'.broker && net'.broker[s] == net.broker[s];
      }
    } else {
      assert net.next in net'.broker && net'.broker[net.next].wire == wire;
    }
  }

  /** A message reaches the broker: one a node sent, or one somebody injected. */
  lemma PutSafe(net: Network, net': Network, wire: Wire, at: int, ever: set<Envelope>, signed: set<SignedMessage>)
    requires Safe(net) && net' == Put(net, wire, at).(ever := ever, signed := signed)
    requires net.ever <= ever && net.signed <= signed && Trusted(net.auth, signed, wire)
    requires forall e :: e in ever && e !in net.ever ==> OutHas(net.logs, e.origin, e) && Unaltered(net.auth, wire, e)
    requires SignedOk(net.auth, ever, signed) && SeenOk(ever, net'.seen, net.minted)
    ensures Safe(net')
  {
    hide Unaltered, Trusted, DeliveryOk, WorkerOk, SignedByNode, Db;
    BrokerBelowNext(net);
    assert Carried(net, net');
    PutKeepsBroker(net, net', wire, at);
    forall e | e in ever ensures Accounted(net', e) {
      PutKeepsAccounts(net, net', wire, at, e);
    }
    forall v | v in net'.workers ensures WorkerOk(net', net'.workers[v]) {
      WorkerStays(net, net', net.workers[v]);
    }
  }

  lemma BrokerBelowNext(net: Network)
    requires BrokerOk(net)
    ensures net.next !in net.broker
  {
    assert net.next in net.broker ==> WireOk(net, net.next, net.broker[net.next].wire);
  }

  lemma PostSafe(net: Network, e: Envelope, m: SignedMessage, at: int)
    requires Safe(net) && OutHas(net.logs, e.origin, e) && e.origin in net.auth
    requires Sign(net.auth[e.origin], e, at) == Accepted(m)
    ensures Safe(Posted(net, e, m, at))
  {
    hide Trusted, DeliveryOk, WorkerOk, SigningText, Db, EverAccounted, LogsOk, OutHas;
    assert m.content.envelope == e && m.content.issuedAt == at;
    assert Trusted(net.auth, net.signed + {m}, ToServiceBus(e, m)) by { OwnSignatureTrusted(net.auth, net.signed, e, m); }
    PutSafe(net, Posted(net, e, m, at), ToServiceBus(e, m), at, net.ever + {e}, net.signed + {m});
  }

  lemma OwnSignatureTrusted(auth: Authenticators, signed: set<SignedMessage>, e: Envelope, m: SignedMessage)
    ensures Trusted(auth, signed + {m}, ToServiceBus(e, m))
  {
    assert m in signed + {m};
  }

  lemma SendSafe(net: Network, w: string, e: Envelope, at: int, outcome: SendOutcome)
    requires Safe(net) && SendAllowed(net, w, e, at, outcome)
    ensures Safe(SendStep(net, w, e, at, outcome))
  {
    hide Trusted, DeliveryOk, Unaltered, SigningText, Sign, Db;
    var n := net.workers[w].node;
    assert OutHas(net.logs, n, e);
    var net1 := net;
    if Lands(outcome) {
      var m := Sign(net.auth[n], e, at).value;
      net1 := Posted(net, e, m, at);
      PostSafe(net, e, m, at);
    }
    if !outcome.Errored? {
      if outcome.Deduplicated? {
        SeenIsEver(net, n, e);
      }
      assert SentBy(net1.ever, n, e.id);
      forall id | id in net.workers[w].accepted ensures SentBy(net1.ever, n, id) {
        var x :| x in net.ever && x.id == id && x.origin == n;
        assert x in net1.ever;
      }
      assert WorkerOk(net1, net1.workers[w]);
      WorkerChangeSafe(net1, SendStep(net, w, e, at, outcome), w);
    }
  }

  /** What duplicate detection drops is a copy of a message it accepted: nobody else can
      have used its id. */
  lemma SeenIsEver(net: Network, n: NodeId, e: Envelope)
    requires LogsOk(net.logs, net.ever, net.minted) && SeenOk(net.ever, net.seen, net.minted)
    requires OutHas(net.logs, n, e) && e.id in net.seen
    ensures e in net.ever
  {
    hide Db;
    assert e.id in net.minted;
    var x :| x in net.ever && x.id == e.id;
    assert OutHas(net.logs, x.origin, x);
    assert x.origin == n;
  }

  lemma DeliverSafe(net: Network, w: string, s: nat)
    requires Safe(net) && DeliverAllowed(net, w, s)
    ensures Safe(DeliverStep(net, w, s))
  {
    hide Trusted, Unaltered, DeliveryOk, WorkerOk, Db;
    var copy := net.broker[s];
    var counted := net.(broker := net.broker[s := copy.(deliveries := copy.deliveries + 1)]);
    CountSafe(net, counted, s);
    assert WireOk(counted, s, counted.broker[s].wire);
    assert DeliveryOk(counted, net.workers[w].node, s, Delivery(copy.wire, copy.deliveries, Received)) by {
      ReceivedIsOk(counted, net.workers[w].node, s, copy.wire, copy.deliveries);
    }
    RedeliverySafe(counted, w, s, Delivery(copy.wire, copy.deliveries, Received));
  }

  lemma ReceivedIsOk(net: Network, n: NodeId, s: nat, wire: Wire, count: nat)
    requires WireOk(net, s, wire)
    ensures DeliveryOk(net, n, s, Delivery(wire, count, Received))
  {
  }

  lemma CountSafe(net: Network, net': Network, s: nat)
    requires Safe(net) && s in net.broker && net' == net.(broker := net'.broker)
    requires net'.broker == net.broker[s := net.broker[s].(deliveries := net.broker[s].deliveries + 1)]
    ensures Safe(net')
  {
    hide Unaltered, Trusted, DeliveryOk, WorkerOk, Db;
    assert Carried(net, net');
    forall e | e in net.ever ensures Accounted(net', e) {
      assert Accounted(net, e);
      if InBroker(net.auth, net.broker, e) {
        var k :| k in net.broker && Unaltered(net.auth, net.broker[k].wire, e);
        assert k in net'.broker && net'.broker[k].wire == net.broker[k].wire;
      }
    }
    forall k | k in net'.broker ensures WireOk(net', k, net'.broker[k].wire) {
      WireStays(net, net', k);
    }
    forall v | v in net'.workers ensures WorkerOk(net', net'.workers[v]) {
      WorkerStays(net, net', net.workers[v]);
    }
  }

  lemma RedeliverySafe(net: Network, w: string, s: nat, d: Delivery)
    requires Safe(net) && w in net.workers && DeliveryOk(net, net.workers[w].node, s, d)
    ensures Safe(SetDelivery(net, w, s, d))
  {
    hide DeliveryOk, Unaltered, Trusted, Db;
    var after := SetDelivery(net, w, s, d);
    assert WorkerOk(net, net.workers[w]);
    WorkerChangeSafe(net, after, w);
  }

  /** What passes the checks was sent to this node by a node it authorizes, as it was. */
  lemma CheckedIsOk(net: Network, n: NodeId, s: nat, d: Delivery, now: int)
    requires Safe(net) && DeliveryOk(net, n, s, d) && n in net.auth && n in net.authorized
    ensures DeliveryOk(net, n, s, Checked(d, net.auth[n], net.authorized[n], now))
  {
    hide Verify, Examine, EverAccounted, LogsOk, Db, Trusted, SignedByNode;
    if Examine(net.auth[n], net.authorized[n], d.wire, d.count, now).Handed? {
      HandedIsChecked(net.auth[n], net.authorized[n], d.wire, d.count, now);
      AcceptedWasSigned(net.auth, net.signed, n, d.wire, now);
    }
  }

  lemma CheckSafe(net: Network, w: string, s: nat, now: int)
    requires Safe(net) && CheckAllowed(net, w, s)
    ensures Safe(CheckStep(net, w, s, now))
  {
    hide Checked, DeliveryOk, Unaltered, Trusted, Db;
    var n, d := net.workers[w].node, net.workers[w].deliveries[s];
    assert WorkerOk(net, net.workers[w]);
    CheckedIsOk(net, n, s, d, now);
    RedeliverySafe(net, w, s, Checked(d, net.auth[n], net.authorized[n], now));
  }

  /** Messages in transit and rows at the target are sealed. */
  lemma EverIsSealed(net: Network, e: Envelope)
    requires LogsOk(net.logs, net.ever, net.minted) && e in net.ever
    ensures Sealed(e)
  {
    hide Step;
    assert OutHas(net.logs, e.origin, e);
    EveryRunIsOk(net.logs[e.origin]);
  }

  lemma InboxIsKeyed(logs: Logs, n: NodeId, id: Id)
    requires n in logs && id in Db(logs, n).inbox
    ensures Db(logs, n).inbox[id].envelope.id == id
  {
    hide Step;
    EveryRunIsOk(logs[n]);
  }

  /** A genuine message never collides with a stored one: an equal id means an
      equal envelope. */
  lemma GenuineNeverCollides(net: Network, n: NodeId, e: Envelope, count: int, now: int)
    requires Safe(net) && n in net.logs && e in net.ever && e.target == n
    ensures PersistSpec(Db(net.logs, n).inbox, e, count, now, true).1 != Ok(Collision)
  {
    hide Trusted, Unaltered, DeliveryOk, EverAccounted, WorkerOk;
    var i := Db(net.logs, n).inbox;
    EverIsSealed(net, e);
    if e.id in i {
      var x := i[e.id].envelope;
      InboxIsKeyed(net.logs, n, e.id);
      assert x in net.ever;
      assert OutHas(net.logs, x.origin, x) && OutHas(net.logs, e.origin, e);
      SameInboundIsEquality(x, e);
    }
  }

  /** A delivery is confirmed only when the inbox holds it. */
  lemma PersistStores(i: Inbox, e: Envelope, count: int, now: int, authenticated: bool)
    requires e.id in i ==> i[e.id].envelope.id == e.id
    requires Sealed(e) && (e.id in i ==> Sealed(i[e.id].envelope))
    ensures var (i', r) := PersistSpec(i, e, count, now, authenticated);
      PhaseAfter(e, r, now).Persisted? ==> e.id in i' && i'[e.id].envelope == e
  {
    if e.id in i {
      SameInboundIsEquality(i[e.id].envelope, e);
    }
  }

  lemma StoreStores(net: Network, grown: Network, n: NodeId, e: Envelope, count: int, now: int)
    requires Safe(net) && n in net.logs && e in net.ever && e.target == n
    requires grown == Grow(net, n, Persist(e, count, now, true))
    ensures var phase := PhaseAfter(e, PersistSpec(Db(net.logs, n).inbox, e, count, now, true).1, now);
      !phase.Collided? && (phase.Persisted? ==> Stored(grown.logs, e))
  {
    hide Trusted, Unaltered, DeliveryOk, EverAccounted, WorkerOk, Db;
    GenuineNeverCollides(net, n, e, count, now);
    DbAfter(net.logs, grown.logs, n, Persist(e, count, now, true), n);
    EverIsSealed(net, e);
    DbIsOk(net.logs, n);
    PersistIsAStep(Db(net.logs, n), e, count, now);
    PersistStores(Db(net.logs, n).inbox, e, count, now, true);
  }

  lemma DbIsOk(logs: Logs, n: NodeId)
    requires n in logs
    ensures InboxOk(Db(logs, n).inbox)
  {
    hide Step;
    EveryRunIsOk(logs[n]);
  }

  lemma PersistIsAStep(d: Database, e: Envelope, count: int, now: int)
    ensures Step(d, Persist(e, count, now, true)).inbox == PersistSpec(d.inbox, e, count, now, true).0
  {
  }

  lemma StoreSafe(net: Network, w: string, s: nat, now: int)
    requires Safe(net) && StoreAllowed(net, w, s)
    ensures Safe(StoreStep(net, w, s, now))
    ensures !StoreStep(net, w, s, now).workers[w].deliveries[s].phase.Collided?
  {
    hide Trusted, Unaltered, EverAccounted, Db, PersistSpec, LogsOk;
    var n, d := net.workers[w].node, net.workers[w].deliveries[s];
    var e := d.phase.e;
    assert WorkerOk(net, net.workers[w]) && DeliveryOk(net, n, s, d);
    var op := Persist(e, d.count, now, true);
    var grown := Grow(net, n, op);
    MintNothing(net, grown, n, op);
    StoreStores(net, grown, n, e, d.count, now);
    assert WorkerOk(grown, grown.workers[w]) && DeliveryOk(grown, n, s, d);
    var phase := PhaseAfter(e, PersistSpec(Db(net.logs, n).inbox, e, d.count, now, true).1, now);
    assert DeliveryOk(grown, n, s, d.(phase := phase));
    RedeliverySafe(grown, w, s, d.(phase := phase));
  }

  lemma LeaveKeepsAccounts(net: Network, net': Network, s: nat, e: Envelope)
    requires Accounted(net, e) && s in net.broker && net'.broker == net.broker - {s}
    requires net'.auth == net.auth && net'.logs == net.logs && net.dead <= net'.dead
    requires Unaltered(net.auth, net.broker[s].wire, e) ==>
               Stored(net.logs, e) || exists d :: d in net'.dead && d.copy == net.broker[s]
    ensures Accounted(net', e)
  {
    hide Unaltered, Stored;
    if InBroker(net.auth, net.broker, e) {
      var k :| k in net.broker && Unaltered(net.auth, net.broker[k].wire, e);
      if k != s {
        assert k in net'.broker && net'.broker[k] == net.broker[k];
      } else if !Stored(net.logs, e) {
        var d :| d in net'.dead && d.copy == net.broker[s];
        assert Unaltered(net.auth, d.copy.wire, e);
      }
    } else if Buried(net.auth, net.dead, e) {
      var d :| d in net.dead && Unaltered(net.auth, d.copy.wire, e);
      assert d in net'.dead;
    }
  }

  /** A message leaves the broker once it is stored, or for the dead letters. */
  lemma LeaveSafe(net: Network, net': Network, s: nat)
    requires Safe(net) && s in net.broker && net'.broker == net.broker - {s}
    requires net' == net.(broker := net'.broker, dead := net'.dead) && net.dead <= net'.dead
    requires forall e :: Unaltered(net.auth, net.broker[s].wire, e) ==>
               Stored(net.logs, e) || exists d :: d in net'.dead && d.copy == net.broker[s]
    ensures Safe(net')
  {
    hide Unaltered, Trusted, DeliveryOk, WorkerOk, Db, Stored;
    assert Carried(net, net');
    forall e | e in net.ever ensures Accounted(net', e) {
      LeaveKeepsAccounts(net, net', s, e);
    }
    forall k | k in net'.broker ensures WireOk(net', k, net'.broker[k].wire) {
      WireStays(net, net', k);
    }
    forall v | v in net'.workers ensures WorkerOk(net', net'.workers[v]) {
      WorkerStays(net, net', net.workers[v]);
    }
  }

  lemma BurySafe(net: Network, s: nat, reason: Reason, at: int)
    requires Safe(net)
    ensures Safe(Bury(net, s, reason, at))
  {
    hide Unaltered, Trusted, DeliveryOk, WorkerOk, Db, Stored, Safe;
    if s in net.broker {
      assert DeadLetter(net.broker[s], reason, at) in Bury(net, s, reason, at).dead;
      LeaveSafe(net, Bury(net, s, reason, at), s);
    }
  }

  lemma CompleteSafe(net: Network, w: string, s: nat)
    requires Safe(net) && Holds(net, w, s) && net.workers[w].deliveries[s].phase.Persisted?
    ensures Safe(net.(broker := net.broker - {s}))
  {
    hide Trusted, Db, EverAccounted, LogsOk, SignedByNode;
    assert WorkerOk(net, net.workers[w]);
    assert DeliveryOk(net, net.workers[w].node, s, net.workers[w].deliveries[s]);
    if s in net.broker {
      LeaveSafe(net, net.(broker := net.broker - {s}), s);
    } else {
      assert net.broker - {s} == net.broker;
    }
  }

  lemma InjectSafe(net: Network, wire: Wire, at: int)
    requires Safe(net) && InjectAllowed(net, wire)
    ensures Safe(Put(net, wire, at))
  {
    hide Trusted, Unaltered, DeliveryOk, WorkerOk, Db, EverAccounted, LogsOk, SignedByNode;
    PutSafe(net, Put(net, wire, at), wire, at, net.ever, net.signed);
  }

  lemma NodeActSafe(net: Network, a: Action)
    requires Safe(net) && Allowed(net, a) && (a.Local? || a.Lease? || a.Confirm? || a.Store?)
    ensures Safe(Act(net, a))
  {
    hide Trusted, Unaltered, DeliveryOk, WorkerOk, Db, EverAccounted, LogsOk;
    match a
    case Local(n, op) => GrowSafe(net, LocalStep(net, n, op), n, op);
    case Lease(w, limit, leaseSeconds, now) => LeaseSafe(net, w, limit, leaseSeconds, now);
    case Confirm(w, id) => MintNothing(net, Act(net, a), net.workers[w].node, MarkSent(id, w));
    case Store(w, s, now) => StoreSafe(net, w, s, now);
  }

  lemma ActSafe(net: Network, a: Action)
    requires Safe(net) && Allowed(net, a)
    ensures Safe(Act(net, a))
  {
    hide Trusted, Unaltered, DeliveryOk, Db, EverAccounted, LogsOk, SignedByNode;
    match a
    case Start(w, n) => WorkerChangeSafe(net, Act(net, a), w);
    case Crash(w) => CrashSafe(net, Act(net, a), w);
    case Send(w, e, at, outcome) => SendSafe(net, w, e, at, outcome);
    case Deliver(w, s) => DeliverSafe(net, w, s);
    case Check(w, s, now) => CheckSafe(net, w, s, now);
    case Complete(w, s, _) => CompleteSafe(net, w, s);
    case GiveUp(w, s) =>
      var p := net.workers[w].deliveries[s].phase;
      BurySafe(net, s, ReasonOf(p), p.at);
    case Expire(s, at) => BurySafe(net, s, TimeToLiveExpired, at);
    case Exhaust(s, at) => BurySafe(net, s, MaxDeliveryCountExceeded, at);
    case Inject(wire, at) => InjectSafe(net, wire, at);
    case _ => NodeActSafe(net, a);
  }

  lemma InitialIsSafe(net: Network)
    requires Initial(net)
    ensures Safe(net)
  {
    hide Trusted, Unaltered, DeliveryOk, SignedByNode;
  }

  lemma {:induction false} EveryNetworkIsSafe(states: seq<Network>, actions: seq<Action>)
    requires IsRun(states, actions) && Initial(states[0])
    ensures Safe(states[|actions|])
  {
    hide Safe, Act, Allowed;
    if actions == [] {
      InitialIsSafe(states[0]);
    } else {
      var k := |actions| - 1;
      EveryNetworkIsSafe(states[..k + 1], actions[..k]);
      assert states[..k + 1][k] == states[k];
      ActSafe(states[k], actions[k]);
    }
  }
}
