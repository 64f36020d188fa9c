/** The rows of the local database and the tables that hold them. */
module Tables {
  import opened Envelopes

  datatype OutState = Pending | Leased | Sent | OutQuarantined | OutExpired

  datatype OutRow = OutRow(
    envelope: Envelope,
    state: OutState,
    attempts: nat,
    nextAttemptAt: int,
    leaseOwner: Option<string>,
    leaseUntil: Option<int>)

  type Outbox = map<Id, OutRow>

  datatype InState = Available | Claimed | Processed | InRejected | Quarantined

  /** An ideal SHA-256 of a claim token. */
  datatype TokenHash = Hashed(token: string)

  datatype ResultLink = ResultLink(id: Id, key: string, sha: PayloadHash)

  datatype InRow = InRow(
    envelope: Envelope,
    state: InState,
    claimOwner: Option<string>,
    claimToken: Option<TokenHash>,
    claimUntil: Option<int>,
    attempts: nat,
    firstReceivedAt: int,
    deliveries: int,
    authenticated: bool,
    result: Option<ResultLink>)

  type Inbox = map<Id, InRow>

  datatype RequestState =
    | AwaitingDecision
    | ApprovedOnce
    | ApprovedTemporary
    | Denied
    | Revoked
    | Expired
    | Consumed

  /** An ideal hash of the parts that identify an operation of a peer. */
  datatype Identity = Identity(peer: NodeId, resource: string, kind: Kind, stream: string, key: string)

  datatype RequestRow = RequestRow(
    identity: Identity,
    fingerprint: PayloadHash,
    peer: NodeId,
    resource: string,
    state: RequestState,
    decidedBy: Option<NodeId>,
    expiresAt: Option<int>)

  type Requests = map<Id, RequestRow>

  datatype AuditEvent =
    | AuditRequested
    | AuditApprovedOnce
    | AuditApprovedTemporary
    | AuditTemporaryUsed
    | AuditDenied
    | AuditRevoked
    | AuditExpired
    | AuditConsumed

  datatype AuditEntry = AuditEntry(
    requestId: Id,
    event: AuditEvent,
    actor: NodeId,
    peer: NodeId,
    resource: string,
    at: int)

  datatype RunState = PendingChild | NeedsInformation | WaitingPeer | RunCompleted | RunFailed

  datatype PeerRequest = PeerRequest(subject: string, request: string, intent: Intent)

  datatype EvidenceSource = LocalProject | PeerResult | PinnedGit

  datatype EvidenceItem = EvidenceItem(
    path: string,
    source: EvidenceSource,
    sourceMessageId: Option<Id>,
    gitCommit: Option<string>,
    gitBlob: Option<string>,
    content: string,
    byteLength: nat)

  datatype Bundle = Bundle(
    project: string,
    totalBytes: nat,
    revision: Option<string>,
    items: seq<EvidenceItem>)

  datatype ConsultationRun = ConsultationRun(
    requestId: Id,
    conversation: Id,
    rootId: Id,
    project: string,
    state: RunState,
    roundCount: nat,
    depth: nat,
    maxRounds: nat,
    maxDepth: nat,
    ancestry: seq<Fingerprint>,
    deadline: int,
    evidence: Bundle,
    requestedEvidence: seq<string>,
    peerRequest: Option<PeerRequest>,
    nestedTaskId: Option<Id>,
    nextAttemptAt: Option<int>,
    errorCode: Option<string>,
    finalAnswer: Option<string>,
    finalPaths: seq<string>,
    version: nat,
    createdAt: int)

  type Runs = map<Id, ConsultationRun>

  /** True is an enabled resource; true is an active grant. */
  type Resources = map<string, bool>
  type Grants = map<(NodeId, string), bool>

  datatype Database = Database(
    outbox: Outbox,
    inbox: Inbox,
    requests: Requests,
    audit: seq<AuditEntry>,
    resources: Resources,
    grants: Grants,
    runs: Runs)

  function EmptyDatabase(): Database {
    Database(map[], map[], map[], [], map[], map[], map[])
  }
}
