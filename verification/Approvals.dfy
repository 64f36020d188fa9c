/** Who may use a resource: persistent grants, one-time and temporary
    approvals, the requests that wait for a decision, and their audit. */
module Approvals {
  import opened Envelopes
  import opened Ordering
  import opened Tables
  import opened InboxTable
  import opened Text

  datatype Basis = PersistentGrant | TemporaryApproval | OneTimeApproval | SameRequestRecovery

  datatype Decision =
    | Authorized(basis: Basis, approval: Option<Id>)
    | ApprovalPending(pending: Id)
    | DuplicateOf(original: Id)
    | AccessDenied(refused: Option<Id>)

  predicate Enabled(resources: Resources, r: string) {
    r in resources && resources[r]
  }

  predicate Granted(d: Database, p: NodeId, r: string) {
    (p, r) in d.grants && d.grants[(p, r)] && Enabled(d.resources, r)
  }

  // ---- Expiry -----------------------------------------------------------

  predicate Lapses(row: RequestRow, now: int) {
    row.state.ApprovedTemporary? && row.expiresAt.Some? && row.expiresAt.value <= now
  }

  function LapseRequest(row: RequestRow, now: int): RequestRow {
    if Lapses(row, now) then row.(state := Expired) else row
  }

  function LapsedRequests(q: Requests, now: int): Requests {
    map id | id in q :: LapseRequest(q[id], now)
  }

  function LapsingStamps(q: Requests, now: int): set<Stamp> {
    set id | id in q && Lapses(q[id], now) :: Stamp(0, id)
  }

  /** The rows the expiry loop visits, in id order. */
  function LapsingIds(q: Requests, now: int): seq<Id> {
    FirstIds(LapsingStamps(q, now), |LapsingStamps(q, now)|)
  }

  function ExpiryEntry(row: RequestRow, id: Id, now: int): AuditEntry {
    AuditEntry(id, AuditExpired, if row.decidedBy.Some? then row.decidedBy.value else row.peer,
               row.peer, row.resource, now)
  }

  function ExpiryEntries(q: Requests, ids: seq<Id>, now: int): seq<AuditEntry>
    requires forall k :: 0 <= k < |ids| ==> ids[k] in q
  {
    seq(|ids|, k requires 0 <= k < |ids| => ExpiryEntry(q[ids[k]], ids[k], now))
  }

  lemma LapsingIdsExact(q: Requests, now: int)
    ensures Distinct(LapsingIds(q, now))
    ensures forall id :: id in LapsingIds(q, now) <==> id in q && Lapses(q[id], now)
  {
    var s := LapsingStamps(q, now);
    FirstIdsPicks(s, |s|);
    FirstIdsTakesAll(s, |s|);
    forall id | id in q && Lapses(q[id], now) ensures id in LapsingIds(q, now) {
      assert Stamp(0, id) in s;
    }
  }

  function ExpireSpec(d: Database, now: int): Database {
    LapsingIdsExact(d.requests, now);
    d.(requests := LapsedRequests(d.requests, now),
       audit := d.audit + ExpiryEntries(d.requests, LapsingIds(d.requests, now), now))
  }

  // ---- Access -----------------------------------------------------------

  function IdentityOf(e: Envelope, r: string): Identity {
    Identity(e.origin, r, e.kind, e.stream, e.key)
  }

  function OpenRequest(e: Envelope, r: string): RequestRow {
    RequestRow(IdentityOf(e, r), e.payloadSha, e.origin, r, AwaitingDecision, None, None)
  }

  ghost function FindIdentity(q: Requests, identity: Identity): (r: Option<Id>)
    ensures r.Some? ==> r.value in q && q[r.value].identity == identity
    ensures r.None? ==> forall id :: id in q ==> q[id].identity != identity
  {
    if exists id :: id in q && q[id].identity == identity
    then var id :| id in q && q[id].identity == identity; Some(id)
    else None
  }

  predicate Serves(row: RequestRow, p: NodeId, r: string, now: int) {
    && row.state.ApprovedTemporary?
    && row.peer == p && row.resource == r
    && row.expiresAt.Some? && now < row.expiresAt.value
  }

  function ServingStamps(q: Requests, p: NodeId, r: string, now: int): set<Stamp> {
    set id | id in q && Serves(q[id], p, r, now) :: Stamp(-q[id].expiresAt.value, id)
  }

  /** The serving approval that lasts longest, ties broken by id. */
  function ServingApproval(q: Requests, p: NodeId, r: string, now: int): (a: Option<Id>)
    ensures a.Some? ==> a.value in q && Serves(q[a.value], p, r, now)
    ensures a.None? <==> forall id :: id in q ==> !Serves(q[id], p, r, now)
  {
    var s := ServingStamps(q, p, r, now);
    if s == {} then
      assert forall id :: id in q && Serves(q[id], p, r, now) ==> Stamp(-q[id].expiresAt.value, id) in s;
      None
    else Some(Earliest(s).id)
  }

  /** The approval that serves is one of those that last longest. */
  lemma ServingLastsLongest(q: Requests, p: NodeId, r: string, now: int, b: Id)
    requires b in q && Serves(q[b], p, r, now)
    ensures var a := ServingApproval(q, p, r, now);
      a.Some? && q[b].expiresAt.value <= q[a.value].expiresAt.value
  {
    assert Stamp(-q[b].expiresAt.value, b) in ServingStamps(q, p, r, now);
  }

  function Log(d: Database, id: Id, event: AuditEvent, actor: NodeId, p: NodeId, r: string, now: int): Database {
    d.(audit := d.audit + [AuditEntry(id, event, actor, p, r, now)])
  }

  function SetRequest(d: Database, id: Id, row: RequestRow): Database {
    d.(requests := d.requests[id := row])
  }

  /** The decision on a request row that already exists for this very message. */
  function OwnRequestSpec(d: Database, id: Id, r: string, actor: NodeId, now: int): (Database, Decision)
    requires id in d.requests && id in d.inbox
  {
    var row := d.requests[id];
    match row.state
    case AwaitingDecision => (d.(inbox := ParkSpec(d.inbox, id)), ApprovalPending(id))
    case ApprovedOnce =>
      (Log(SetRequest(d, id, row.(state := Consumed)), id, AuditConsumed, actor, d.inbox[id].envelope.origin, r, now),
       Authorized(OneTimeApproval, Some(id)))
    case Consumed =>
      (d, if id in d.runs then Authorized(SameRequestRecovery, Some(id)) else AccessDenied(Some(id)))
    case ApprovedTemporary =>
      (d, if row.expiresAt.Some? && now < row.expiresAt.value
          then Authorized(TemporaryApproval, Some(id)) else AccessDenied(Some(id)))
    case _ => (d, AccessDenied(Some(id)))
  }

  /** The request made for this operation decides; the first message of an
      operation makes one. */
  ghost function ByRequest(d: Database, id: Id, r: string, actor: NodeId, now: int): (Database, Decision)
    requires id in d.inbox
  {
    var e := d.inbox[id].envelope;
    match FindIdentity(d.requests, IdentityOf(e, r))
    case Some(q) =>
      if q != id || d.requests[q].fingerprint != e.payloadSha then (d, DuplicateOf(q))
      else OwnRequestSpec(d, id, r, actor, now)
    case None =>
      var d' := Log(SetRequest(d, id, OpenRequest(e, r)), id, AuditRequested, actor, e.origin, r, now);
      (d'.(inbox := ParkSpec(d.inbox, id)), ApprovalPending(id))
  }

  /** Without a grant, a temporary approval serves, or else the request. */
  ghost function ByApproval(d: Database, id: Id, r: string, actor: NodeId, now: int): (Database, Decision)
    requires id in d.inbox
  {
    var p := d.inbox[id].envelope.origin;
    match ServingApproval(d.requests, p, r, now)
    case Some(a) => (Log(d, a, AuditTemporaryUsed, actor, p, r, now), Authorized(TemporaryApproval, Some(a)))
    case None => ByRequest(d, id, r, actor, now)
  }

  /** Everything after the claim was found valid and expiry was applied. */
  ghost function AccessSpec(d: Database, id: Id, resource: string, actor: NodeId, now: int): (Database, Decision)
    requires id in d.inbox
  {
    var e := d.inbox[id].envelope;
    var parsed := ParseResource(resource);
    if !d.inbox[id].authenticated || parsed.None? then (d, AccessDenied(None))
    else if e.payload.project != parsed then (d, AccessDenied(None))
    else if !Enabled(d.resources, parsed.value) then (d, AccessDenied(None))
    else if Granted(d, e.origin, parsed.value) then (d, Authorized(PersistentGrant, None))
    else ByApproval(d, id, parsed.value, actor, now)
  }

  ghost function AuthorizeSpec(d: Database, id: Id, consumer: string, token: string, resource: string,
                               actor: NodeId, now: int): (Database, Result<Decision>)
  {
    if !HoldsClaim(d.inbox, id, consumer, token, now) then (d, Err(Transition))
    else
      var (d', decision) := AccessSpec(ExpireSpec(d, now), id, resource, actor, now);
      (d', Ok(decision))
  }

  // ---- Decisions by the operator ---------------------------------------

  datatype Verdict = Once | Temporarily(until: int) | Deny

  function VerdictState(v: Verdict): RequestState {
    match v
    case Once => ApprovedOnce
    case Temporarily(_) => ApprovedTemporary
    case Deny => Denied
  }

  function VerdictEvent(v: Verdict): AuditEvent {
    match v
    case Once => AuditApprovedOnce
    case Temporarily(_) => AuditApprovedTemporary
    case Deny => AuditDenied
  }

  function DecidedRow(row: RequestRow, v: Verdict, actor: NodeId): RequestRow {
    row.(state := VerdictState(v), decidedBy := Some(actor),
         expiresAt := if v.Temporarily? then Some(v.until) else None)
  }

  /** The row, its audit entry, and the message back in the queue. */
  function Settle(x: Database, id: Id, row: RequestRow, event: AuditEvent, actor: NodeId, now: int): Database {
    var d := Log(SetRequest(x, id, row), id, event, actor, row.peer, row.resource, now);
    d.(inbox := RequeueSpec(x.inbox, id))
  }

  /** Only an open request on an enabled resource is decided, and an approval
      is refused where a grant already serves. */
  predicate CanDecide(d: Database, row: RequestRow, v: Verdict) {
    && row.state.AwaitingDecision?
    && Enabled(d.resources, row.resource)
    && (v.Deny? || !Granted(d, row.peer, row.resource))
  }

  /** `x` is `d` after the expiry sweep; a refusal rolls the sweep back too. */
  function DecideOn(d: Database, x: Database, id: Id, v: Verdict, actor: NodeId, now: int)
    : (Database, Result<RequestState>)
  {
    if id !in x.requests then (d, Err(Transition))
    else if x.requests[id].state == VerdictState(v) then (x, Ok(VerdictState(v)))
    else if !CanDecide(d, x.requests[id], v) then (d, Err(Transition))
    else (Settle(x, id, DecidedRow(x.requests[id], v, actor), VerdictEvent(v), actor, now), Ok(VerdictState(v)))
  }

  function DecideSpec(d: Database, id: Id, v: Verdict, actor: NodeId, now: int): (Database, Result<RequestState>) {
    if v.Temporarily? && v.until <= now then (d, Err(Transition))
    else DecideOn(d, ExpireSpec(d, now), id, v, actor, now)
  }

  function RevokeOn(d: Database, x: Database, id: Id, actor: NodeId, now: int): (Database, Result<RequestState>) {
    if id !in x.requests then (d, Err(Transition))
    else if x.requests[id].state.Revoked? then (x, Ok(Revoked))
    else if !x.requests[id].state.ApprovedOnce? && !x.requests[id].state.ApprovedTemporary? then (d, Err(Transition))
    else (Settle(x, id, RevokedRow(x.requests[id], actor), AuditRevoked, actor, now), Ok(Revoked))
  }

  function RevokeRequestSpec(d: Database, id: Id, actor: NodeId, now: int): (Database, Result<RequestState>) {
    RevokeOn(d, ExpireSpec(d, now), id, actor, now)
  }

  function RegisterSpec(d: Database, resource: string): (Database, Result<bool>) {
    match ParseResource(resource)
    case None => (d, Err(Invalid))
    case Some(r) => if r in d.resources then (d, Ok(false)) else (d.(resources := d.resources[r := true]), Ok(true))
  }

  function SetEnabledSpec(d: Database, resource: string, enabled: bool): (Database, Result<()>) {
    match ParseResource(resource)
    case None => (d, Err(Invalid))
    case Some(r) =>
      if r in d.resources then (d.(resources := d.resources[r := enabled]), Ok(())) else (d, Err(Transition))
  }

  function GrantSpec(d: Database, p: NodeId, resource: string): (Database, Result<()>) {
    match ParseResource(resource)
    case None => (d, Err(Invalid))
    case Some(r) =>
      if r in d.resources then (d.(grants := d.grants[(p, r) := true]), Ok(())) else (d, Err(Transition))
  }

  // ---- Revoking a grant ends the pair's temporary approvals --------------

  predicate TemporaryFor(row: RequestRow, p: NodeId, r: string) {
    row.state.ApprovedTemporary? && row.peer == p && row.resource == r
  }

  function PairStamps(q: Requests, p: NodeId, r: string): set<Stamp> {
    set id | id in q && TemporaryFor(q[id], p, r) :: Stamp(0, id)
  }

  function PairIds(q: Requests, p: NodeId, r: string): seq<Id> {
    FirstIds(PairStamps(q, p, r), |PairStamps(q, p, r)|)
  }

  lemma PairIdsExact(q: Requests, p: NodeId, r: string)
    ensures Distinct(PairIds(q, p, r))
    ensures forall id :: id in PairIds(q, p, r) <==> id in q && TemporaryFor(q[id], p, r)
  {
    var s := PairStamps(q, p, r);
    FirstIdsPicks(s, |s|);
    FirstIdsTakesAll(s, |s|);
    forall id | id in q && TemporaryFor(q[id], p, r) ensures id in PairIds(q, p, r) {
      assert Stamp(0, id) in s;
    }
  }

  function RevokedRow(row: RequestRow, actor: NodeId): RequestRow {
    row.(state := Revoked, decidedBy := Some(actor))
  }

  function PairRevoked(q: Requests, p: NodeId, r: string, actor: NodeId): Requests {
    map id | id in q :: if TemporaryFor(q[id], p, r) then RevokedRow(q[id], actor) else q[id]
  }

  function PairEntries(ids: seq<Id>, p: NodeId, r: string, actor: NodeId, now: int): seq<AuditEntry> {
    seq(|ids|, k requires 0 <= k < |ids| => AuditEntry(ids[k], AuditRevoked, actor, p, r, now))
  }

  function RevokeGrantSpec(d: Database, p: NodeId, resource: string, actor: NodeId, now: int): (Database, Result<()>) {
    match ParseResource(resource)
    case None => (d, Err(Invalid))
    case Some(r) =>
      if (p, r) !in d.grants then (d, Err(Transition))
      else
        (d.(grants := d.grants[(p, r) := false],
            requests := PairRevoked(d.requests, p, r, actor),
            audit := d.audit + PairEntries(PairIds(d.requests, p, r), p, r, actor, now)),
         Ok(()))
  }
}
