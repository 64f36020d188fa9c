/** Signed messages: who may sign what, for how long a signature is good, and the
    membership file that says whose keys count. Signatures are ideal: a signature
    is the secret and the text it was made from. */
module MessageAuthentication {
  import opened Envelopes
  import opened CanonicalJson
  import opened WireJson

  const MAX_WIRE_LIFETIME := 604_800_000
  const MAX_FUTURE_ISSUE := 300_000

  datatype Secret = Secret(seed: string)
  datatype PublicKey = PublicOf(secret: Secret) | NotEd25519(bytes: string)

  /** A key id is derived from the public key. */
  datatype KeyId = KeyIdOf(key: PublicKey)

  datatype KeyStatus = Active | Revoked

  datatype MembershipKey = MembershipKey(
    id: KeyId, key: PublicKey, status: KeyStatus, notBefore: Option<int>, notAfter: Option<int>)

  datatype Peer = Peer(node: NodeId, keys: seq<MembershipKey>)

  datatype Membership = Membership(network: string, peers: seq<Peer>)

  /** What is signed; the protocol name and version are constants. */
  datatype Unsigned = Unsigned(network: string, keyId: KeyId, issuedAt: int, expiresAt: int, envelope: Envelope)

  datatype Signature = Ed25519(secret: Secret, text: Text) | Noise(bytes: string)

  datatype SignedMessage = SignedMessage(content: Unsigned, signature: Signature)

  datatype AuthFailure = AuthInvalid | AuthUnauthorized | AuthExpired | AuthSignature | AuthConfiguration

  datatype AuthResult<+T> = Accepted(value: T) | RejectedBecause(failure: AuthFailure)

  datatype Authenticator = Authenticator(node: NodeId, membership: Membership, secret: Secret)

  // ---- The text that is signed -------------------------------------------------------

  const AUTH_PROTOCOL := "balcony-agent-bridge-message-auth"

  /** A key id stands for the public key it was derived from. */
  function KeyIdText(id: KeyId): string {
    match id.key
    case PublicOf(secret) => "e" + secret.seed
    case NotEd25519(bytes) => "n" + bytes
  }

  lemma KeyIdTextInjective(a: KeyId, b: KeyId)
    requires KeyIdText(a) == KeyIdText(b)
    ensures a == b
  {
    assert KeyIdText(a)[0] == KeyIdText(b)[0] && KeyIdText(a)[1..] == KeyIdText(b)[1..];
    match a.key
    case PublicOf(secret) => assert secret.seed == KeyIdText(a)[1..];
    case NotEd25519(bytes) => assert bytes == KeyIdText(a)[1..];
  }

  const UNSIGNED_KEYS := ["protocol", "auth_version", "network_id", "key_id", "issued_at_utc", "expires_at_utc", "envelope"]

  function UnsignedFields(u: Unsigned): seq<Option<Json>> {
    [Some(Str(AUTH_PROTOCOL)), Some(Str(VERSION)), Some(Str(u.network)), Some(Str(KeyIdText(u.keyId))),
     Some(Time(u.issuedAt)), Some(Time(u.expiresAt)), Some(EnvelopeJson(u.envelope))]
  }

  function UnsignedJson(u: Unsigned): Json { Object(Fields(UNSIGNED_KEYS, UnsignedFields(u))) }

  lemma UnsignedKeysDistinct()
    ensures Distinct(UNSIGNED_KEYS)
  {
    forall i, j | 0 <= i < j < 7 ensures UNSIGNED_KEYS[i] != UNSIGNED_KEYS[j] {
      assert |UNSIGNED_KEYS[i]| != |UNSIGNED_KEYS[j]| || UNSIGNED_KEYS[i][0] != UNSIGNED_KEYS[j][0];
    }
  }

  lemma UnsignedWellFormed(u: Unsigned)
    ensures WellFormed(UnsignedJson(u))
  {
    hide Fields, SameValue, Utf16;
    UnsignedKeysDistinct();
    EnvelopeWellFormed(u.envelope);
    FieldsWellFormed(UNSIGNED_KEYS, UnsignedFields(u));
  }

  lemma UnsignedFaithful(a: Unsigned, b: Unsigned)
    requires SameValue(UnsignedJson(a), UnsignedJson(b))
    ensures a == b
  {
    hide Fields, SameValue, Utf16;
    UnsignedKeysDistinct();
    var v, w := UnsignedFields(a), UnsignedFields(b);
    FieldsAgree(UNSIGNED_KEYS, v, w);
    assert Agree(v[2], w[2]) && Agree(v[3], w[3]) && Agree(v[4], w[4]) && Agree(v[5], w[5]) && Agree(v[6], w[6]);
    StrInjective(a.network, b.network);
    StrInjective(KeyIdText(a.keyId), KeyIdText(b.keyId));
    KeyIdTextInjective(a.keyId, b.keyId);
    TimeInjective(a.issuedAt, b.issuedAt);
    TimeInjective(a.expiresAt, b.expiresAt);
    EnvelopeFaithful(a.envelope, b.envelope);
  }

  /** The protocol's name and version, then the canonical text of everything but the
      signature. */
  function SigningText(u: Unsigned): Text {
    Utf16(AUTH_PROTOCOL + ":v" + VERSION + ":") + CanonicalText(UnsignedJson(u))
  }

  /** One text, one content: nothing can be changed without changing what is signed. */
  lemma SigningTextFaithful(a: Unsigned, b: Unsigned)
    ensures SigningText(a) == SigningText(b) <==> a == b
  {
    hide Fields, SameValue, Utf16, CanonicalText;
    if SigningText(a) == SigningText(b) {
      SameTail(Utf16(AUTH_PROTOCOL + ":v" + VERSION + ":"), CanonicalText(UnsignedJson(a)), CanonicalText(UnsignedJson(b)));
      UnsignedWellFormed(a);
      UnsignedWellFormed(b);
      CanonicalIsFaithful(UnsignedJson(a), UnsignedJson(b));
      UnsignedFaithful(a, b);
    }
  }

  // ---- Keys -----------------------------------------------------------------------

  predicate WithinWindow(k: MembershipKey, at: int) {
    && (k.notBefore.Some? ==> k.notBefore.value <= at)
    && (k.notAfter.Some? ==> at < k.notAfter.value)
  }

  predicate IsActive(k: MembershipKey, at: int) {
    k.status.Active? && WithinWindow(k, at)
  }

  /** The keys of a node: those of its entry in the membership (the last one). */
  function KeysOf(peers: seq<Peer>, n: NodeId): seq<MembershipKey> {
    if peers == [] then []
    else if peers[|peers| - 1].node == n then peers[|peers| - 1].keys
    else KeysOf(peers[..|peers| - 1], n)
  }

  function FindKey(keys: seq<MembershipKey>, id: KeyId): (k: Option<MembershipKey>)
    ensures k.Some? ==> k.value in keys && k.value.id == id
    ensures k.None? ==> forall x :: x in keys ==> x.id != id
  {
    if keys == [] then None
    else if keys[0].id == id then Some(keys[0])
    else FindKey(keys[1..], id)
  }

  predicate HasActiveKey(keys: seq<MembershipKey>, at: int) {
    exists k :: k in keys && IsActive(k, at)
  }

  function OwnKeyId(a: Authenticator): KeyId { KeyIdOf(PublicOf(a.secret)) }

  // ---- Signing and verifying ---------------------------------------------------------

  function WireExpiry(e: Envelope, now: int): int {
    if e.expiresAt.Some? && e.expiresAt.value < now + MAX_WIRE_LIFETIME then e.expiresAt.value else now + MAX_WIRE_LIFETIME
  }

  function Sign(a: Authenticator, e: Envelope, now: int): AuthResult<SignedMessage> {
    if !ValidEnvelope(e) then RejectedBecause(AuthInvalid)
    else if e.origin != a.node then RejectedBecause(AuthUnauthorized)
    else if !HasActiveKey(KeysOf(a.membership.peers, e.target), now) then RejectedBecause(AuthUnauthorized)
    else if WireExpiry(e, now) <= now then RejectedBecause(AuthExpired)
    else
      var content := Unsigned(a.membership.network, OwnKeyId(a), now, WireExpiry(e, now), e);
      Accepted(SignedMessage(content, Ed25519(a.secret, SigningText(content))))
  }

  predicate LifetimeOk(w: Unsigned, now: int) {
    && w.issuedAt <= now + MAX_FUTURE_ISSUE
    && w.issuedAt < w.expiresAt
    && w.expiresAt - w.issuedAt <= MAX_WIRE_LIFETIME
    && now < w.expiresAt
    && (w.envelope.expiresAt.Some? ==> w.expiresAt <= w.envelope.expiresAt.value)
  }

  predicate SignatureMatches(k: MembershipKey, m: SignedMessage) {
    m.signature.Ed25519? && PublicOf(m.signature.secret) == k.key && m.signature.text == SigningText(m.content)
  }

  function Verify(b: Authenticator, m: SignedMessage, now: int): AuthResult<Envelope> {
    var w := m.content;
    if !ValidEnvelope(w.envelope) then RejectedBecause(AuthInvalid)
    else if w.network != b.membership.network then RejectedBecause(AuthUnauthorized)
    else if !LifetimeOk(w, now) then RejectedBecause(AuthExpired)
    else if w.envelope.target != b.node then RejectedBecause(AuthUnauthorized)
    else
      var k := FindKey(KeysOf(b.membership.peers, w.envelope.origin), w.keyId);
      if k.None? || !IsActive(k.value, now) || !WithinWindow(k.value, w.issuedAt) then RejectedBecause(AuthUnauthorized)
      else if !SignatureMatches(k.value, m) then RejectedBecause(AuthSignature)
      else Accepted(w.envelope)
  }

  /** The key under which `b` knows `a`. */
  function KnownKey(b: Authenticator, a: Authenticator): Option<MembershipKey> {
    FindKey(KeysOf(b.membership.peers, a.node), OwnKeyId(a))
  }

  /** What sets the end of a signature's life. */
  function GoodUntil(e: Envelope, signedAt: int): int {
    var week := signedAt + 604_800_000;
    if e.expiresAt.Some? && e.expiresAt.value <= week then e.expiresAt.value else week
  }

  /** Neither before nor after the window of the key. */
  predicate Reaches(k: MembershipKey, at: int) {
    (k.notBefore.None? || k.notBefore.value <= at) && (k.notAfter.None? || at < k.notAfter.value)
  }

  predicate Counts(k: MembershipKey, at: int) {
    k.status == KeyStatus.Active && Reaches(k, at)
  }

  /** A node signs its own valid, unexpired messages to a node that has a key that counts; the
      signature covers the network, the key, the time, the end of its life and the envelope. */
  lemma SignOutcome(a: Authenticator, e: Envelope, now: int)
    ensures var r := Sign(a, e, now);
      && (r.Accepted? <==>
            && ValidEnvelope(e) && e.origin == a.node
            && (exists k :: k in KeysOf(a.membership.peers, e.target) && Counts(k, now))
            && (e.expiresAt.None? || now < e.expiresAt.value))
      && (r.Accepted? ==>
            var content := Unsigned(a.membership.network, KeyIdOf(PublicOf(a.secret)), now, GoodUntil(e, now), e);
            r.value == SignedMessage(content, Ed25519(a.secret, SigningText(content))))
  {
    hide ValidEnvelope, SigningText, KeysOf;
    var keys := KeysOf(a.membership.peers, e.target);
    assert (exists k :: k in keys && IsActive(k, now)) <==> (exists k :: k in keys && Counts(k, now)) by {
      assert forall k :: IsActive(k, now) <==> Counts(k, now);
    }
  }

  /** A message is accepted exactly if it is valid, of this network and for this node, in its
      life and issued at most five minutes ahead, and signed, over its content, with the key it
      names, which is the origin's, counts now and was in its window when the message was
      issued. */
  lemma VerifyOutcome(b: Authenticator, m: SignedMessage, now: int)
    ensures var w := m.content;
      var k := FindKey(KeysOf(b.membership.peers, w.envelope.origin), w.keyId);
      && (Verify(b, m, now).Accepted? <==>
            && ValidEnvelope(w.envelope) && w.network == b.membership.network && w.envelope.target == b.node
            && w.issuedAt <= now + 5 * 60 * 1000 && w.issuedAt < w.expiresAt && now < w.expiresAt
            && w.expiresAt <= w.issuedAt + 7 * 24 * 3600 * 1000
            && (w.envelope.expiresAt.None? || w.expiresAt <= w.envelope.expiresAt.value)
            && k.Some? && k.value.id == w.keyId && Counts(k.value, now) && Reaches(k.value, w.issuedAt)
            && m.signature.Ed25519? && k.value.key == PublicOf(m.signature.secret)
            && m.signature.text == SigningText(w))
      && (Verify(b, m, now).Accepted? ==> Verify(b, m, now).value == w.envelope)
  {
    hide ValidEnvelope, SigningText, KeysOf;
  }

  /** Sign then verify: what `a` signed at `t0`, `b` accepts at `t1` exactly when
      both are in one network, `b` is the target, no more than five minutes are
      missing to `t0` and neither a week nor the envelope's life has passed, and
      `a`'s key is active at `t1` and was within its window at `t0`. */
  lemma SignThenVerify(a: Authenticator, b: Authenticator, e: Envelope, t0: int, t1: int)
    requires Sign(a, e, t0).Accepted?
    requires forall k :: k in KeysOf(b.membership.peers, a.node) ==> k.id == KeyIdOf(k.key)
    ensures Verify(b, Sign(a, e, t0).value, t1) == Accepted(e) <==>
              && a.membership.network == b.membership.network
              && e.target == b.node
              && t0 - 5 * 60 * 1000 <= t1 < GoodUntil(e, t0)
              && KnownKey(b, a).Some?
              && IsActive(KnownKey(b, a).value, t1) && WithinWindow(KnownKey(b, a).value, t0)
  {
    hide SigningText;
    var m := Sign(a, e, t0).value;
    assert e.origin == a.node;
    var k := KnownKey(b, a);
    if k.Some? {
      assert k.value.key == PublicOf(a.secret);
      assert SignatureMatches(k.value, m);
    }
  }

  /** Tamper evidence: if `b` accepts a message under a signature that was made for some
      content `u`, by whoever made it, then the message has exactly this content, the
      signer holds a key that the membership gives to the origin named in it, and `b` is
      its target. */
  lemma AcceptedIsAuthentic(b: Authenticator, m: SignedMessage, u: Unsigned, now: int)
    requires Verify(b, m, now).Accepted?
    requires m.signature.Ed25519? ==> m.signature.text == SigningText(u)
    ensures m.signature.Ed25519? && m.content == u
    ensures Verify(b, m, now) == Accepted(u.envelope) && u.envelope.target == b.node
    ensures exists k :: k in KeysOf(b.membership.peers, u.envelope.origin)
                        && k.key == PublicOf(m.signature.secret) && IsActive(k, now)
  {
    hide SigningText;
    SigningTextFaithful(m.content, u);
    var k := FindKey(KeysOf(b.membership.peers, m.content.envelope.origin), m.content.keyId).value;
    assert k in KeysOf(b.membership.peers, m.content.envelope.origin);
  }

  /** A message changed in any way after `a` signed it is not accepted, unless the change
      is its signature's. */
  lemma AlteredIsRejected(a: Authenticator, b: Authenticator, e: Envelope, signedAt: int, m: SignedMessage, now: int)
    requires Sign(a, e, signedAt).Accepted?
    requires m.signature == Sign(a, e, signedAt).value.signature && m.content != Sign(a, e, signedAt).value.content
    ensures Verify(b, m, now).RejectedBecause?
  {
    hide SigningText;
    if Verify(b, m, now).Accepted? {
      AcceptedIsAuthentic(b, m, Sign(a, e, signedAt).value.content, now);
      assert false;
    }
  }

  // ---- Loading the membership -----------------------------------------------------------

  predicate KeyOk(k: MembershipKey) {
    && k.key.PublicOf?
    && k.id == KeyIdOf(k.key)
    && (k.notBefore.Some? && k.notAfter.Some? ==> k.notBefore.value < k.notAfter.value)
  }

  /** All keys of the peers, in order. */
  function AllKeys(peers: seq<Peer>): seq<MembershipKey> {
    if peers == [] then [] else AllKeys(peers[..|peers| - 1]) + peers[|peers| - 1].keys
  }

  /** Key ids and public keys belong to one entry only. */
  ghost predicate OneEntryEach(keys: seq<MembershipKey>) {
    forall i, j :: 0 <= i < j < |keys| ==> keys[i].id != keys[j].id && keys[i].key != keys[j].key
  }

  ghost predicate KeysFine(keys: seq<MembershipKey>) {
    OneEntryEach(keys) && forall k :: k in keys ==> KeyOk(k)
  }

  function NodesOf(peers: seq<Peer>): seq<NodeId> {
    seq(|peers|, i requires 0 <= i < |peers| => peers[i].node)
  }

  /** The membership lists exactly the authorized nodes. */
  predicate NodesFine(peers: seq<Peer>, authorized: seq<NodeId>) {
    var nodes := NodesOf(peers);
    Distinct(nodes) && |nodes| == |authorized| && forall n :: n in nodes ==> n in authorized
  }

  lemma KeysFineExtend(keys: seq<MembershipKey>, k: MembershipKey)
    ensures KeysFine(keys + [k]) <==>
              KeysFine(keys) && KeyOk(k) && forall x :: x in keys ==> x.id != k.id && x.key != k.key
  {
    var all := keys + [k];
    assert all[|keys|] == k && forall i :: 0 <= i < |keys| ==> all[i] == keys[i];
    if KeysFine(all) {
      forall x | x in keys ensures x.id != k.id && x.key != k.key {
        var i :| 0 <= i < |keys| && keys[i] == x;
        assert all[i].id != all[|keys|].id;
      }
      forall i, j | 0 <= i < j < |keys| ensures keys[i].id != keys[j].id && keys[i].key != keys[j].key {
        assert all[i].id != all[j].id;
      }
    }
  }

  lemma KeysFinePrefix(keys: seq<MembershipKey>, more: seq<MembershipKey>)
    requires KeysFine(keys + more)
    ensures KeysFine(keys)
  {
    var all := keys + more;
    forall i, j | 0 <= i < j < |keys| ensures keys[i].id != keys[j].id && keys[i].key != keys[j].key {
      assert all[i] == keys[i] && all[j] == keys[j];
    }
    forall k | k in keys ensures KeyOk(k) {
      assert k in all;
    }
  }

  lemma AllKeysExtend(peers: seq<Peer>, n: nat)
    requires n < |peers|
    ensures AllKeys(peers[..n + 1]) == AllKeys(peers[..n]) + peers[n].keys
  {
    assert peers[..n + 1][..n] == peers[..n];
  }

  lemma {:induction false} AllKeysPrefix(peers: seq<Peer>, n: nat)
    requires n <= |peers| && KeysFine(AllKeys(peers))
    ensures KeysFine(AllKeys(peers[..n]))
    decreases |peers| - n
  {
    if n == |peers| {
      assert peers[..n] == peers;
    } else {
      AllKeysPrefix(peers, n + 1);
      AllKeysExtend(peers, n);
      KeysFinePrefix(AllKeys(peers[..n]), peers[n].keys);
    }
  }

  /** Accepts the membership exactly when it lists the authorized nodes and no key
      is invalid or claimed twice. */
  method LoadMembership(m: Membership, authorized: seq<NodeId>) returns (ok: bool)
    ensures ok <==> NodesFine(m.peers, authorized) && KeysFine(AllKeys(m.peers))
  {
    if !NodesFine(m.peers, authorized) {
      return false;
    }
    var ids: set<KeyId>, publicKeys: set<PublicKey> := {}, {};
    for n := 0 to |m.peers|
      invariant KeysFine(AllKeys(m.peers[..n]))
      invariant ids == set k | k in AllKeys(m.peers[..n]) :: k.id
      invariant publicKeys == set k | k in AllKeys(m.peers[..n]) :: k.key
    {
      ghost var before := AllKeys(m.peers[..n]);
      var keys := m.peers[n].keys;
      AllKeysExtend(m.peers, n);
      for i := 0 to |keys|
        invariant KeysFine(before + keys[..i])
        invariant ids == set k | k in before + keys[..i] :: k.id
        invariant publicKeys == set k | k in before + keys[..i] :: k.key
      {
        var k := keys[i];
        KeysFineExtend(before + keys[..i], k);
        assert before + keys[..i] + [k] == before + keys[..i + 1];
        if k.id in ids || k.key in publicKeys || !KeyOk(k) {
          RejectedIsNotFine(m.peers, n, i);
          return false;
        }
        ids := ids + {k.id};
        publicKeys := publicKeys + {k.key};
      }
      assert keys[..|keys|] == keys;
    }
    assert m.peers[..|m.peers|] == m.peers;
    ok := true;
  }

  lemma RejectedIsNotFine(peers: seq<Peer>, n: nat, i: nat)
    requires n < |peers| && i < |peers[n].keys|
    requires !KeysFine(AllKeys(peers[..n]) + peers[n].keys[..i + 1])
    ensures !KeysFine(AllKeys(peers))
  {
    if KeysFine(AllKeys(peers)) {
      AllKeysPrefix(peers, n + 1);
      AllKeysExtend(peers, n);
      var keys := peers[n].keys;
      assert AllKeys(peers[..n + 1]) == AllKeys(peers[..n]) + keys[..i + 1] + keys[i + 1..];
      KeysFinePrefix(AllKeys(peers[..n]) + keys[..i + 1], keys[i + 1..]);
      assert false;
    }
  }

  /** In a membership that loads, a public key speaks for one node only. */
  lemma OneOwnerEach(peers: seq<Peer>, n: NodeId, m: NodeId, k: MembershipKey, l: MembershipKey)
    requires KeysFine(AllKeys(peers)) && Distinct(NodesOf(peers))
    requires k in KeysOf(peers, n) && l in KeysOf(peers, m) && k.key == l.key
    ensures n == m
  {
    if peers != [] {
      var before, last := peers[..|peers| - 1], peers[|peers| - 1];
      KeysFinePrefix(AllKeys(before), last.keys);
      assert Distinct(NodesOf(before)) by {
        forall i, j | 0 <= i < j < |before| ensures NodesOf(before)[i] != NodesOf(before)[j] {
          assert NodesOf(peers)[i] != NodesOf(peers)[j];
        }
      }
      if last.node != n && last.node != m {
        OneOwnerEach(before, n, m, k, l);
      } else if last.node == n && last.node != m {
        KeysAreListed(before, m, l);
        SplitHasNoShared(AllKeys(before), last.keys, l, k);
      } else if last.node != n && last.node == m {
        KeysAreListed(before, n, k);
        SplitHasNoShared(AllKeys(before), last.keys, k, l);
      }
    }
  }

  lemma {:induction false} KeysAreListed(peers: seq<Peer>, n: NodeId, k: MembershipKey)
    requires k in KeysOf(peers, n)
    ensures k in AllKeys(peers)
  {
    if peers[|peers| - 1].node != n {
      KeysAreListed(peers[..|peers| - 1], n, k);
    }
  }

  lemma SplitHasNoShared(s: seq<MembershipKey>, t: seq<MembershipKey>, k: MembershipKey, l: MembershipKey)
    requires KeysFine(s + t) && k in s && l in t
    ensures k.key != l.key
  {
    var i :| 0 <= i < |s| && s[i] == k;
    var j :| 0 <= j < |t| && t[j] == l;
    assert (s + t)[i] == k && (s + t)[|s| + j] == l;
  }
}
