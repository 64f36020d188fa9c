/** The message envelope, its payload, and the well-formedness rules every
    envelope satisfies before it is stored or sent. Hashes are ideal: a hash is
    the value it was computed from, wrapped in a constructor. */
module Envelopes {

  type Id = string
  type NodeId = string

  const COORDINATION_STREAM := "agent-coordination"
  const MAX_EVIDENCE_REFERENCES := 20

  datatype Option<+T> = None | Some(value: T)

  datatype Failure =
    | Invalid          // a schema or range check failed
    | Conflict         // the idempotency key belongs to different content
    | Transition       // the rows are not in the required state
    | Unavailable      // the existing deterministic result cannot be delivered
    | Inconsistent     // the stored result link does not match the outbox
    | MixedRevisions   // evidence pinned to two Git revisions

  datatype Result<+T> = Ok(value: T) | Err(failure: Failure)

  datatype Kind = Message | TaskRequest | TaskResult | Status | Acknowledgement | Heartbeat

  datatype Intent = Inspect | Question | Review

  datatype Outcome = Completed | Rejected | Failed

  datatype CoordinationRequest = CoordinationRequest(intent: Intent)

  datatype CoordinationResult = CoordinationResult(requestId: Id, outcome: Outcome)

  datatype Dispatch = Dispatch(timeoutSeconds: Option<int>, pinnedGit: bool)

  datatype ReferenceKind = RepositoryPath | GitCommit | ObsidianNote | TestRun | BridgeMessage

  datatype Reference = Reference(kind: ReferenceKind, value: string)

  /** An ideal SHA-256 of a text. */
  datatype Fingerprint = Sha256Text(text: string)

  datatype Context = Context(
    rootId: Id,
    parentId: Option<Id>,
    depth: int,
    maxDepth: int,
    ancestry: seq<Fingerprint>)

  datatype Payload = Payload(
    subject: string,
    body: string,
    project: Option<string>,
    evidence: seq<Reference>,
    dispatch: Option<Dispatch>,
    request: Option<CoordinationRequest>,
    result: Option<CoordinationResult>,
    context: Option<Context>)

  /** An ideal SHA-256 of a payload's canonical text. */
  datatype PayloadHash = Sha256(payload: Payload)

  datatype Envelope = Envelope(
    id: Id,
    key: string,
    origin: NodeId,
    target: NodeId,
    kind: Kind,
    conversation: Id,
    correlation: Option<Id>,
    causation: Option<Id>,
    stream: string,
    sequence: Option<nat>,
    createdAt: int,
    expiresAt: Option<int>,
    payload: Payload,
    payloadSha: PayloadHash)

  predicate Distinct<T(==)>(s: seq<T>) {
    forall i, j :: 0 <= i < j < |s| ==> s[i] != s[j]
  }

  /** Bounds of a nested-consultation context. */
  predicate ValidContext(c: Context) {
    && 0 <= c.depth <= 4
    && 1 <= c.maxDepth <= 4
    && |c.ancestry| <= 8
    && c.depth <= c.maxDepth
    && (c.depth > 0 ==> c.parentId.Some?)
    && Distinct(c.ancestry)
  }

  predicate ValidPayload(p: Payload) {
    && 1 <= |p.subject| <= 200
    && |p.body| <= 65_536
    && (p.project.Some? ==> 1 <= |p.project.value| <= 120)
    && |p.evidence| <= MAX_EVIDENCE_REFERENCES
    && (p.dispatch.Some? && p.dispatch.value.timeoutSeconds.Some? ==>
          30 <= p.dispatch.value.timeoutSeconds.value <= 600)
    && (p.context.Some? ==> ValidContext(p.context.value))
  }

  /** A coordination request travels only as a dispatchable task request. */
  predicate RequestRules(e: Envelope) {
    e.payload.request.Some? ==>
      e.kind.TaskRequest? && e.payload.dispatch.Some? && e.stream == COORDINATION_STREAM
  }

  /** A coordination result answers the message that caused it. */
  predicate ResultRules(e: Envelope) {
    e.payload.result.Some? ==>
      && e.kind.TaskResult?
      && e.causation == Some(e.payload.result.value.requestId)
      && e.stream == COORDINATION_STREAM
  }

  /** A nested consultation names its root and its parent in the envelope too. */
  predicate ContextRules(e: Envelope) {
    e.payload.context.Some? ==>
      && e.payload.request.Some?
      && e.correlation == Some(e.payload.context.value.rootId)
      && e.causation == e.payload.context.value.parentId
  }

  predicate StreamRules(e: Envelope) {
    e.stream == COORDINATION_STREAM ==>
      match e.kind
      case TaskRequest => e.payload.request.Some?
      case TaskResult => e.payload.result.Some?
      case _ => false
  }

  /** The stored hash is the hash of the payload. */
  predicate Sealed(e: Envelope) {
    e.payloadSha == Sha256(e.payload)
  }

  predicate ValidEnvelope(e: Envelope) {
    && 1 <= |e.key| <= 128
    && 1 <= |e.stream| <= 128
    && e.origin != e.target
    && (e.expiresAt.Some? ==> e.createdAt < e.expiresAt.value)
    && ValidPayload(e.payload)
    && RequestRules(e)
    && ResultRules(e)
    && ContextRules(e)
    && StreamRules(e)
    && Sealed(e)
  }

  /** The limits of a payload. A nested consultation is at most four levels deep, below the root
      it has a parent, and the fingerprints on the way to it are all different. */
  lemma PayloadLimits(p: Payload)
    ensures ValidPayload(p) <==>
      && 1 <= |p.subject| <= 200 && |p.body| <= 65_536 && |p.evidence| <= 20
      && (p.project.None? || 1 <= |p.project.value| <= 120)
      && (p.dispatch.None? || p.dispatch.value.timeoutSeconds.None? || 30 <= p.dispatch.value.timeoutSeconds.value <= 600)
      && (p.context.None? ||
            var c := p.context.value;
            && 0 <= c.depth <= c.maxDepth && 1 <= c.maxDepth <= 4 && (c.depth == 0 || c.parentId.Some?)
            && |c.ancestry| <= 8
            && forall i, j :: 0 <= i < |c.ancestry| && 0 <= j < |c.ancestry| && c.ancestry[i] == c.ancestry[j] ==> i == j)
  {
  }

  /** A request opens or continues a coordination; nested ones say from where. */
  predicate RequestFits(e: Envelope) {
    && e.payload.result.None?
    && (e.stream == "agent-coordination" <==> e.payload.request.Some?)
    && (e.payload.request.Some? ==> e.payload.dispatch.Some?)
    && (e.payload.context.Some? ==>
          && e.payload.request.Some? && e.correlation == Some(e.payload.context.value.rootId)
          && e.causation == e.payload.context.value.parentId)
  }

  /** A result names what it answers as its cause. */
  predicate ResultFits(e: Envelope) {
    && e.payload.request.None? && e.payload.context.None?
    && (e.stream == "agent-coordination" <==> e.payload.result.Some?)
    && (e.payload.result.Some? ==> e.causation == Some(e.payload.result.value.requestId))
  }

  /** What each kind of message may carry. On the coordination stream there are requests and
      results only, and nowhere else do they take part in a coordination. */
  lemma KindsDecide(e: Envelope)
    ensures ValidEnvelope(e) <==>
      && 1 <= |e.key| <= 128 && 1 <= |e.stream| <= 128 && e.origin != e.target
      && (e.expiresAt.Some? ==> e.createdAt < e.expiresAt.value)
      && ValidPayload(e.payload) && e.payloadSha == Sha256(e.payload)
      && match e.kind
         case TaskRequest => RequestFits(e)
         case TaskResult => ResultFits(e)
         case _ => e.payload.request.None? && e.payload.result.None? && e.payload.context.None?
                   && e.stream != "agent-coordination"
  {
  }

  /** The comparison a receiving bridge makes before it calls a delivery a
      duplicate: every envelope field, the payload only through its hash. */
  predicate SameInbound(a: Envelope, b: Envelope) {
    && a.id == b.id
    && a.key == b.key
    && a.origin == b.origin
    && a.target == b.target
    && a.kind == b.kind
    && a.conversation == b.conversation
    && a.correlation == b.correlation
    && a.causation == b.causation
    && a.stream == b.stream
    && a.sequence == b.sequence
    && a.createdAt == b.createdAt
    && a.expiresAt == b.expiresAt
    && a.payloadSha == b.payloadSha
  }

  /** The hash comparison is enough: two sealed envelopes it accepts are the
      same envelope. */
  lemma SameInboundIsEquality(a: Envelope, b: Envelope)
    requires Sealed(a) && Sealed(b)
    ensures SameInbound(a, b) <==> a == b
  {
  }
}
