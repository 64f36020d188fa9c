/** Consultations that consult back: along a chain of nested requests the depth
    grows by one, ancestries never repeat, and a request repeated after a crash
    is the same request. */
module Nesting {
  import opened Envelopes
  import opened Tables
  import opened Text
  import opened Evidence
  import opened RunTable
  import opened OutboxTable
  import opened Consultations
  import opened Operations

  const UUID_LENGTH := 36

  /** A run that may ask its peer: a valid run before its deadline, below its
      depth limit, whose request is not one of its ancestors. */
  ghost predicate MayAsk(r: ConsultationRun, peer: PeerRequest, now: int) {
    && ValidRun(r) && ValidPeer(peer) && now < r.deadline
    && r.depth < r.maxDepth && Distinct(r.ancestry) && |r.ancestry| <= r.depth + 1
    && PeerFingerprint(r, peer) !in r.ancestry
    && |r.requestId| == UUID_LENGTH
  }

  lemma DigitsShort(n: nat)
    requires n < 100
    ensures |Digits(n)| <= 2
  {
  }

  /** Every nested request is a well-formed envelope with a valid context. */
  lemma NestedRequestIsValid(r: ConsultationRun, peer: PeerRequest, self: NodeId, target: NodeId, id: Id,
                             conversation: Id, now: int)
    requires MayAsk(r, peer, now) && self != target && 1 <= |Trim(r.project)|
    ensures ValidEnvelope(NestedRequest(r, peer, self, target, id, conversation, now))
  {
    DigitsShort(r.roundCount);
    TrimShortens(peer.subject);
    TrimShortens(r.project);
    var c := NestedPayload(r, peer).context.value;
    var n := |r.ancestry|;
    forall i, j | 0 <= i < j < |c.ancestry| ensures c.ancestry[i] != c.ancestry[j] {
      if j == n {
        assert c.ancestry[i] == r.ancestry[i];
      }
    }
    assert ValidContext(c);
  }

  /** The receiver recomputes the very fingerprint the sender put last, so a
      nested request is refused only if the receiver allows less depth. */
  lemma NestedRequestIsAdmitted(r: ConsultationRun, peer: PeerRequest, self: NodeId, target: NodeId, id: Id,
                                conversation: Id, now: int, policy: Policy, later: int)
    requires r.depth < r.maxDepth
    ensures var a := Admit(policy, NestedRequest(r, peer, self, target, id, conversation, now), true, later);
      && (a.Admitted? <==> r.depth + 1 <= policy.maxDepth)
      && (a.Admitted? ==>
            && a.run.depth == r.depth + 1
            && a.run.maxDepth <= r.maxDepth
            && a.run.ancestry == r.ancestry + [PeerFingerprint(r, peer)]
            && a.run.rootId == r.rootId)
  {
    NormalizeIgnoresTrim(r.project);
    NormalizeIgnoresTrim(peer.subject);
  }

  // ---- Chains -------------------------------------------------------------------

  /** A request, the policy under which its receiver admitted it and when, and
      the run at the moment it consults back. */
  datatype Link = Link(request: Envelope, policy: Policy, admittedAt: int, run: ConsultationRun, self: NodeId, askedAt: int)

  ghost predicate LinkOk(l: Link) {
    && ValidPolicy(l.policy)
    && var a := Admit(l.policy, l.request, true, l.admittedAt); a.Admitted? && SameTerms(a.run, l.run)
  }

  /** The next request is the one this run sends. */
  ghost predicate Asks(l: Link, next: Envelope) {
    && l.run.peerRequest.Some?
    && l.run.depth < l.run.maxDepth && PeerFingerprint(l.run, l.run.peerRequest.value) !in l.run.ancestry
    && next == NestedRequest(l.run, l.run.peerRequest.value, l.self, l.request.origin, next.id, next.conversation, l.askedAt)
  }

  ghost predicate IsChain(links: seq<Link>) {
    && links != [] && links[0].request.payload.context.None?
    && (forall k :: 0 <= k < |links| ==> LinkOk(links[k]))
    && (forall k :: 0 <= k < |links| - 1 ==> Asks(links[k], links[k + 1].request))
  }

  lemma {:induction false} ChainGrows(links: seq<Link>, k: nat)
    requires IsChain(links) && k < |links|
    ensures var r := links[k].run;
      && r.depth == k && |r.ancestry| == k + 1 && Distinct(r.ancestry)
      && k <= r.maxDepth <= links[0].run.maxDepth
      && r.rootId == links[0].request.id
  {
    if k > 0 {
      ChainGrows(links, k - 1);
      var l, next := links[k - 1], links[k];
      assert LinkOk(next) && Asks(l, next.request);
      NestedRequestIsAdmitted(l.run, l.run.peerRequest.value, l.self, l.request.origin, next.request.id,
                              next.request.conversation, l.askedAt, next.policy, next.admittedAt);
      DistinctAppend(l.run.ancestry, PeerFingerprint(l.run, l.run.peerRequest.value));
    } else {
      assert LinkOk(links[0]);
    }
  }

  lemma DistinctAppend(s: seq<Fingerprint>, x: Fingerprint)
    requires Distinct(s) && x !in s
    ensures Distinct(s + [x])
  {
  }

  /** A chain started by a request without context has at most `max_depth` + 1
      requests, and its fingerprints are all different. */
  lemma ChainsAreBounded(links: seq<Link>)
    requires IsChain(links)
    ensures |links| <= links[0].run.maxDepth + 1 <= 5
    ensures Distinct(links[|links| - 1].run.ancestry)
  {
    ChainGrows(links, |links| - 1);
    assert LinkOk(links[0]);
  }

  /** Every nested request on a chain passes the envelope and context schemas. */
  lemma ChainRequestsAreValid(links: seq<Link>, k: nat)
    requires IsChain(links) && k + 1 < |links|
    requires var l := links[k];
      && ValidRun(l.run) && l.run.peerRequest.Some? && ValidPeer(l.run.peerRequest.value) && l.askedAt < l.run.deadline
      && |l.run.requestId| == UUID_LENGTH && 1 <= |Trim(l.run.project)| && l.self != l.request.origin
    ensures ValidEnvelope(links[k + 1].request)
  {
    var l, next := links[k], links[k + 1].request;
    ChainGrows(links, k);
    assert Asks(l, next);
    NestedRequestIsValid(l.run, l.run.peerRequest.value, l.self, l.request.origin, next.id, next.conversation, l.askedAt);
  }

  // ---- Replaying a nested request after a crash -----------------------------------

  function ParseDigits(s: string): int {
    if s == "" then 0 else 10 * ParseDigits(s[..|s| - 1]) + (s[|s| - 1] as int - '0' as int)
  }

  lemma {:induction false} DigitsParse(n: nat)
    ensures ParseDigits(Digits(n)) == n
  {
    if n < 10 {
      assert Digits(n)[..0] == "";
    } else {
      DigitsParse(n / 10);
      assert Digits(n)[..|Digits(n)| - 1] == Digits(n / 10);
    }
  }

  /** Runs and rounds have different keys. */
  lemma NestedKeysDiffer(a: ConsultationRun, b: ConsultationRun)
    requires |a.requestId| == |b.requestId| == UUID_LENGTH
    ensures NestedKey(a) == NestedKey(b) <==> a.requestId == b.requestId && a.roundCount == b.roundCount
  {
    DigitsParse(a.roundCount);
    DigitsParse(b.roundCount);
    var p := "consultation-peer:";
    var n := |p| + UUID_LENGTH;
    assert NestedKey(a)[|p|..n] == a.requestId && NestedKey(b)[|p|..n] == b.requestId;
    assert NestedKey(a)[n + 1..] == Digits(a.roundCount) && NestedKey(b)[n + 1..] == Digits(b.roundCount);
  }

  /** On runs: two nested requests to one peer in the outbox are the same message exactly
      when they were asked for the same round of the same consultation. */
  lemma OneNestedRequestPerRound(ops: seq<Op>, a: Id, r: ConsultationRun, b: Id, r': ConsultationRun)
    requires |r.requestId| == |r'.requestId| == UUID_LENGTH
    requires var o := Run(EmptyDatabase(), ops).outbox;
      && a in o && o[a].envelope.key == NestedKey(r)
      && b in o && o[b].envelope.key == NestedKey(r')
      && o[a].envelope.target == o[b].envelope.target
    ensures a == b <==> r.requestId == r'.requestId && r.roundCount == r'.roundCount
  {
    hide Step;
    EveryRunIsOk(ops);
    NestedKeysDiffer(r, r');
    var o := Run(EmptyDatabase(), ops).outbox;
    assert SameSlot(o[a].envelope, o[b].envelope) <==> NestedKey(r) == NestedKey(r');
  }

  /** No stored message is part of a conversation. */
  predicate FreshConversation(o: Outbox, c: Id) {
    forall id :: id in o ==> o[id].envelope.conversation != c
  }

  lemma RepeatedRequestIsRecovered(o: Outbox, first: Envelope, again: Envelope, id: Id)
    requires OneSlotEach(o) && id in o && o[id].envelope == first
    requires SameOperation(first, again, NESTED) && first.key == again.key
    requires FreshConversation(o, again.conversation)
    ensures EnqueueRow(o, again, NESTED) == (o, Ok(EnqueueResult(id, o[id].state, true)))
  {
    assert InSlot(o, id, again.target, again.key);
  }

  lemma NestedRequestsAgree(r: ConsultationRun, peer: PeerRequest, self: NodeId, target: NodeId,
                            id: Id, conversation: Id, now: int, id': Id, conversation': Id, now': int)
    ensures SameOperation(NestedRequest(r, peer, self, target, id, conversation, now),
                          NestedRequest(r, peer, self, target, id', conversation', now'), NESTED)
  {
  }

  /** Crash replay: whatever happened to the database since the request was
      accepted, sending it again for the same saved run gives back the same task
      id and leaves the outbox as it is. */
  lemma CrashReplayRecoversTheTask(d: Database, sent: Database, ops: seq<Op>, later: Database,
                                   r: ConsultationRun, peer: PeerRequest, self: NodeId, target: NodeId,
                                   id: Id, conversation: Id, now: int, id': Id, conversation': Id, now': int)
    requires DatabaseOk(d) && MayAsk(r, peer, now') && self != target && 1 <= |Trim(r.project)|
    requires var first := NestedRequest(r, peer, self, target, id, conversation, now);
      && EnqueueSpec(d.outbox, first, NESTED).1 == Ok(EnqueueResult(id, Pending, false))
      && sent == Step(d, Enqueue(first, NESTED))
    requires later == Run(sent, ops) && FreshConversation(later.outbox, conversation')
    ensures var (o', again) := EnqueueSpec(later.outbox,
                                           NestedRequest(r, peer, self, target, id', conversation', now'), NESTED);
      o' == later.outbox && again.Ok? && again.value.id == id && again.value.duplicate
  {
    var first := NestedRequest(r, peer, self, target, id, conversation, now);
    var again := NestedRequest(r, peer, self, target, id', conversation', now');
    StepKeeps(d, Enqueue(first, NESTED));
    RunKeeps(sent, ops);
    AcceptedIsStored(d.outbox, first);
    NestedRequestIsValid(r, peer, self, target, id', conversation', now');
    NestedRequestsAgree(r, peer, self, target, id, conversation, now, id', conversation', now');
    RecoverFrom(sent.outbox, later.outbox, first, again);
  }

  lemma AcceptedIsStored(o: Outbox, e: Envelope)
    requires EnqueueSpec(o, e, NESTED).1 == Ok(EnqueueResult(e.id, Pending, false))
    ensures var o' := EnqueueSpec(o, e, NESTED).0; e.id in o' && o'[e.id].envelope == e
  {
  }

  lemma RecoverFrom(o1: Outbox, o: Outbox, first: Envelope, again: Envelope)
    requires OutboxOk(o) && Evolves(o1, o) && first.id in o1 && o1[first.id].envelope == first
    requires SameOperation(first, again, NESTED) && first.key == again.key
    requires ValidEnvelope(again) && FreshConversation(o, again.conversation)
    ensures EnqueueSpec(o, again, NESTED) == (o, Ok(EnqueueResult(first.id, o[first.id].state, true)))
  {
    RepeatedRequestIsRecovered(o, first, again, first.id);
  }
}
