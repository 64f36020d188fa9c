/** What travels over the topic: a signed message with broker metadata, and how the
    receiving side checks it before it reaches the inbox. */
module Transport {
  import opened Envelopes
  import opened WireJson
  import opened MessageAuthentication
  import opened Worker

  /** Fourteen days: the longest the broker keeps a message. */
  const MAX_RETENTION := 1_209_600_000
  const MAX_DELIVERIES := 10

  datatype Meta = Meta(
    id: string,
    session: string,
    correlation: Option<string>,
    subject: string,
    target: string,
    schema: string,
    stream: string)

  /** A message on the topic; one whose body is not a signed message has none. */
  datatype Wire = Wire(message: Option<SignedMessage>, meta: Meta, timeToLive: Option<int>)

  function MetaOf(e: Envelope): Meta {
    Meta(e.id, e.conversation, e.correlation, KindName(e.kind), e.target, VERSION, e.stream)
  }

  function TimeToLive(e: Envelope): Option<int> {
    if e.expiresAt.None? then None
    else Some(if e.expiresAt.value - e.createdAt < 1000 then 1000 else e.expiresAt.value - e.createdAt)
  }

  function ToServiceBus(e: Envelope, m: SignedMessage): Wire { Wire(Some(m), MetaOf(e), TimeToLive(e)) }

  /** How long the broker keeps a message. */
  function Retention(wire: Wire): int {
    if wire.timeToLive.Some? && wire.timeToLive.value < MAX_RETENTION then wire.timeToLive.value else MAX_RETENTION
  }

  // ---- Examining a delivery ------------------------------------------------------------

  datatype Reason =
    | MessageAuthenticationFailed
    | Objected(refusal: Refusal)
    | TimeToLiveExpired
    | MaxDeliveryCountExceeded

  /** The worker's refusal of a message whose id another stored message has. */
  const IDENTITY_COLLISION := Objected(MessageIdentityCollision)

  datatype Examination = Handed(e: Envelope) | Discarded(reason: Reason)

  /** The signature first, then the metadata, then the worker's own checks. */
  function Examine(b: Authenticator, authorized: set<NodeId>, wire: Wire, count: nat, now: int): Examination {
    if wire.message.None? then Discarded(MessageAuthenticationFailed)
    else
      match Verify(b, wire.message.value, now)
      case RejectedBecause(_) => Discarded(MessageAuthenticationFailed)
      case Accepted(e) =>
        if wire.meta != MetaOf(e) then Discarded(MessageAuthenticationFailed)
        else
          match Objection(InboundDelivery(Some(e), count, Some(wire.meta.session)), b.node, authorized)
          case Some(r) => Discarded(Objected(r))
          case None => Handed(e)
  }

  /** Behind the signature and metadata checks the worker has one objection left: an
      origin it does not know. */
  lemma OnlyOriginsAreRefused(b: Authenticator, authorized: set<NodeId>, wire: Wire, count: nat, now: int, r: Refusal)
    requires Examine(b, authorized, wire, count, now) == Discarded(Objected(r))
    ensures r.UnauthorizedOriginNode?
    ensures wire.message.Some? && wire.message.value.content.envelope.origin !in authorized
  {
    hide ValidEnvelope;
  }

  lemma HandedIsChecked(b: Authenticator, authorized: set<NodeId>, wire: Wire, count: nat, now: int)
    requires Examine(b, authorized, wire, count, now).Handed?
    ensures var e := Examine(b, authorized, wire, count, now).e;
      && wire.message.Some? && Verify(b, wire.message.value, now) == Accepted(e)
      && wire.message.value.content.envelope == e && wire.meta == MetaOf(e)
      && e.target == b.node && e.origin in authorized
  {
  }

  /** The metadata says what the broker sorts by; the message lives as long as it has to, but at
      least a second and at most fourteen days. */
  lemma WireOutcome(e: Envelope, m: SignedMessage)
    ensures var wire := ToServiceBus(e, m);
      && wire.message == Some(m)
      && wire.meta.id == e.id && wire.meta.session == e.conversation && wire.meta.correlation == e.correlation
      && wire.meta.target == e.target && wire.meta.stream == e.stream
      && (e.expiresAt.None? ==> wire.timeToLive.None? && Retention(wire) == 14 * 24 * 3600 * 1000)
      && (e.expiresAt.Some? ==>
            var life := e.expiresAt.value - e.createdAt;
            && wire.timeToLive == Some(if life < 1000 then 1000 else life)
            && Retention(wire) == if life < 1000 then 1000 else if life < 14 * 24 * 3600 * 1000 then life
                                  else 14 * 24 * 3600 * 1000)
  {
  }

  /** A delivery is handed to the inbox exactly if it carries a signed message that verifies, the
      metadata are those of its envelope, and its origin is authorized; without the first two it
      counts as not authentic. */
  lemma ExamineOutcome(b: Authenticator, authorized: set<NodeId>, wire: Wire, count: nat, now: int)
    ensures var r := Examine(b, authorized, wire, count, now);
      var authentic := wire.message.Some? && Verify(b, wire.message.value, now).Accepted?
                       && wire.meta == MetaOf(wire.message.value.content.envelope);
      && (!authentic ==> r == Discarded(MessageAuthenticationFailed))
      && (authentic ==>
            var e := wire.message.value.content.envelope;
            r == if e.origin in authorized then Handed(e) else Discarded(Objected(UnauthorizedOriginNode)))
  {
    hide ValidEnvelope, SigningText;
    if wire.message.Some? {
      VerifyOutcome(b, wire.message.value, now);
    }
  }

  // ---- Who can have signed what ------------------------------------------------------------

  type Authenticators = map<NodeId, Authenticator>

  /** What a node of the network signed. */
  predicate SignedByNode(auth: Authenticators, m: SignedMessage) {
    var e := m.content.envelope;
    e.origin in auth && Sign(auth[e.origin], e, m.content.issuedAt) == Accepted(m)
  }

  /** The message exactly as its origin sent it: signature, metadata and time to live. */
  predicate Unaltered(auth: Authenticators, wire: Wire, e: Envelope) {
    && wire.message.Some? && SignedByNode(auth, wire.message.value)
    && wire.message.value.content.envelope == e
    && wire == ToServiceBus(e, wire.message.value)
  }

  /** Memberships name each node's own key for it, and no others. */
  ghost predicate KeysHonest(auth: Authenticators) {
    && (forall n :: n in auth ==> auth[n].node == n)
    && forall n, o, k :: n in auth && k in KeysOf(auth[n].membership.peers, o) ==>
         o in auth && k.key == PublicOf(auth[o].secret) && k.id == KeyIdOf(k.key)
  }

  predicate IsNodeSecret(auth: Authenticators, s: Secret) {
    exists n :: n in auth && auth[n].secret == s
  }

  /** Nobody makes a node's signature but the node: one that is on the topic is a
      signature of a message the node put there. */
  ghost predicate Trusted(auth: Authenticators, signed: set<SignedMessage>, wire: Wire) {
    wire.message.Some? && wire.message.value.signature.Ed25519?
    && IsNodeSecret(auth, wire.message.value.signature.secret) ==>
      exists g :: g in signed && g.signature == wire.message.value.signature
  }

  /** Whatever replay, relabelling and tampering has happened on the topic: what a node
      accepts is a message that a node signed, as it was signed. */
  lemma AcceptedWasSigned(auth: Authenticators, signed: set<SignedMessage>, n: NodeId, wire: Wire, now: int)
    requires KeysHonest(auth) && n in auth && Trusted(auth, signed, wire)
    requires forall g :: g in signed ==> SignedByNode(auth, g)
    requires wire.message.Some? && Verify(auth[n], wire.message.value, now).Accepted?
    ensures wire.message.value in signed
  {
    hide SigningText;
    var m := wire.message.value;
    var b, e := auth[n], m.content.envelope;
    var k := FindKey(KeysOf(b.membership.peers, e.origin), m.content.keyId).value;
    assert k.key == PublicOf(auth[e.origin].secret);
    assert m.signature.Ed25519? && m.signature.secret == auth[e.origin].secret;
    var g :| g in signed && g.signature == m.signature;
    assert SignedByNode(auth, g);
    AcceptedIsAuthentic(b, m, g.content, now);
  }

  /** When an unaltered message is handed to the inbox: exactly when its origin is
      authorized, both nodes are in one network, the signature is within its life, and the
      receiver knows the origin's key as active now and valid at signing. */
  lemma UnalteredIsHandedIff(auth: Authenticators, authorized: set<NodeId>, wire: Wire, e: Envelope, count: nat, now: int)
    requires KeysHonest(auth) && Unaltered(auth, wire, e) && e.target in auth
    ensures var a, b, at := auth[e.origin], auth[e.target], wire.message.value.content.issuedAt;
      Examine(b, authorized, wire, count, now) == Handed(e) <==> e.origin in authorized && InForce(a, b, e, at, now)
    ensures var a, b, at := auth[e.origin], auth[e.target], wire.message.value.content.issuedAt;
      Examine(b, authorized, wire, count, now) == Discarded(MessageAuthenticationFailed) <==> !InForce(a, b, e, at, now)
  {
    hide SigningText;
    var a, b, at := auth[e.origin], auth[e.target], wire.message.value.content.issuedAt;
    SignThenVerify(a, b, e, at, now);
  }

  /** The signature that `a` made at `at` is good for `b` at `now`. */
  predicate InForce(a: Authenticator, b: Authenticator, e: Envelope, at: int, now: int) {
    && a.membership.network == b.membership.network
    && at - 5 * 60 * 1000 <= now < GoodUntil(e, at)
    && KnownKey(b, a).Some?
    && IsActive(KnownKey(b, a).value, now) && WithinWindow(KnownKey(b, a).value, at)
  }
}
