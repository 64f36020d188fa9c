/** What every approval operation keeps: requests describe the message they
    were made for, pending requests stay parked, and the audit is their history. */
module ApprovalRules {
  import opened Envelopes
  import opened Tables
  import opened InboxTable
  import opened Approvals
  import opened AuditTrail
  import opened Text

  /** Quarantined and held by nobody: no consumer can claim it. */
  predicate Parked(row: InRow) {
    row.state.Quarantined? && row.claimOwner.None? && row.claimToken.None? && row.claimUntil.None?
  }

  /** A request row against the message it was made for. */
  predicate RequestOk(row: RequestRow, m: InRow) {
    && row.peer == m.envelope.origin
    && m.envelope.payload.project == Some(row.resource)
    && row.identity == IdentityOf(m.envelope, row.resource)
    && row.fingerprint == m.envelope.payloadSha
    && (row.state.AwaitingDecision? <==> row.decidedBy.None?)
    && (row.state.ApprovedTemporary? ==> row.expiresAt.Some?)
    && (row.state.AwaitingDecision? ==> Parked(m))
  }

  ghost predicate RequestsMatch(q: Requests, i: Inbox) {
    forall id :: id in q ==> id in i && RequestOk(q[id], i[id])
  }

  ghost predicate OneRequestEach(q: Requests) {
    forall a, b :: a in q && b in q && q[a].identity == q[b].identity ==> a == b
  }

  ghost predicate RequestsOk(q: Requests, i: Inbox) {
    RequestsMatch(q, i) && OneRequestEach(q)
  }

  ghost predicate ApprovalsOk(d: Database) {
    RequestsOk(d.requests, d.inbox) && AuditOk(d.requests, d.audit)
  }

  /** Inbox changes that leave parked rows parked. */
  ghost predicate KeepsParked(i: Inbox, i': Inbox) {
    forall id :: id in i && Parked(i[id]) ==> id in i' && Parked(i'[id])
  }

  lemma RequestsFollowInbox(q: Requests, i: Inbox, i': Inbox)
    requires RequestsMatch(q, i) && Retains(i, i') && KeepsParked(i, i')
    ensures RequestsMatch(q, i')
  {
    forall id | id in q ensures id in i' && RequestOk(q[id], i'[id]) {
      assert RequestOk(q[id], i[id]);
    }
  }

  lemma AuditStep(q: Requests, audit: seq<AuditEntry>, id: Id, row: RequestRow, x: AuditEntry)
    requires AuditOk(q, audit) && x.requestId == id
    requires Advance(if id in q then Reached(q[id].state) else Unrequested, x.event) == Reached(row.state)
    ensures AuditOk(q[id := row], audit + [x])
  {
    forall k ensures Replay(EventsOf(audit + [x], k)) ==
                     if k in q[id := row] then Reached(q[id := row][k].state) else Unrequested
    {
      EventsOfAppend(audit, x, k);
      assert Replay(EventsOf(audit, k)) == if k in q then Reached(q[k].state) else Unrequested;
      if k == id {
        ReplaySnoc(EventsOf(audit, k), x.event);
      } else {
        assert EventsOf(audit, k) + [] == EventsOf(audit, k);
      }
    }
  }

  /** A batch that moves some distinct requests, one entry each. */
  lemma AuditBatch(q: Requests, q': Requests, audit: seq<AuditEntry>, ids: seq<Id>, b: seq<AuditEntry>)
    requires AuditOk(q, audit) && Distinct(ids) && |b| == |ids| && q'.Keys == q.Keys
    requires forall k :: 0 <= k < |ids| ==>
               && b[k].requestId == ids[k] && ids[k] in q
               && Advance(Reached(q[ids[k]].state), b[k].event) == Reached(q'[ids[k]].state)
    requires forall id :: id in q && id !in ids ==> q'[id].state == q[id].state
    ensures AuditOk(q', audit + b)
  {
    forall id ensures Replay(EventsOf(audit + b, id)) == if id in q' then Reached(q'[id].state) else Unrequested {
      EventsOfConcat(audit, b, id);
      assert Replay(EventsOf(audit, id)) == if id in q then Reached(q[id].state) else Unrequested;
      if id in ids {
        var k :| 0 <= k < |ids| && ids[k] == id;
        OneEvent(b, k);
        ReplaySnoc(EventsOf(audit, id), b[k].event);
      } else {
        NoEvents(b, id);
        assert EventsOf(audit, id) + [] == EventsOf(audit, id);
      }
    }
  }

  lemma RequestsRowwise(q: Requests, q': Requests, i: Inbox)
    requires RequestsOk(q, i) && q'.Keys == q.Keys
    requires forall id :: id in q ==> q'[id].identity == q[id].identity && RequestOk(q'[id], i[id])
    ensures RequestsOk(q', i)
  {
  }

  lemma ExpireKeepsRequests(q: Requests, i: Inbox, now: int)
    requires RequestsOk(q, i)
    ensures RequestsOk(LapsedRequests(q, now), i)
  {
    var q' := LapsedRequests(q, now);
    forall id | id in q ensures q'[id].identity == q[id].identity && RequestOk(q'[id], i[id]) {
      assert RequestOk(q[id], i[id]);
    }
    RequestsRowwise(q, q', i);
  }

  lemma ExpireKeepsAudit(q: Requests, audit: seq<AuditEntry>, now: int)
    requires AuditOk(q, audit)
    requires forall k :: 0 <= k < |LapsingIds(q, now)| ==> LapsingIds(q, now)[k] in q
    ensures AuditOk(LapsedRequests(q, now), audit + ExpiryEntries(q, LapsingIds(q, now), now))
  {
    LapsingIdsExact(q, now);
    AuditBatch(q, LapsedRequests(q, now), audit, LapsingIds(q, now), ExpiryEntries(q, LapsingIds(q, now), now));
  }

  lemma ExpireKeeps(d: Database, now: int)
    requires ApprovalsOk(d)
    ensures ApprovalsOk(ExpireSpec(d, now))
  {
    LapsingIdsExact(d.requests, now);
    ExpireKeepsRequests(d.requests, d.inbox, now);
    ExpireKeepsAudit(d.requests, d.audit, now);
  }

  /** Replacing one request row and logging the matching event. */
  lemma RequestStep(d: Database, id: Id, row: RequestRow, x: AuditEntry, i': Inbox)
    requires ApprovalsOk(d) && id in d.requests && x.requestId == id
    requires row.identity == d.requests[id].identity
    requires Advance(Reached(d.requests[id].state), x.event) == Reached(row.state)
    requires RequestsMatch(d.requests[id := row], i')
    ensures ApprovalsOk(d.(requests := d.requests[id := row], audit := d.audit + [x], inbox := i'))
  {
    AuditStep(d.requests, d.audit, id, row, x);
  }

  lemma ConsumeKeeps(d: Database, id: Id, x: AuditEntry)
    requires ApprovalsOk(d) && id in d.requests && d.requests[id].state.ApprovedOnce?
    requires x.requestId == id && x.event.AuditConsumed?
    ensures ApprovalsOk(d.(requests := d.requests[id := d.requests[id].(state := Consumed)], audit := d.audit + [x]))
  {
    var row := d.requests[id].(state := Consumed);
    assert RequestOk(d.requests[id], d.inbox[id]);
    RequestStep(d, id, row, x, d.inbox);
  }

  lemma OwnRequestKeeps(d: Database, id: Id, r: string, actor: NodeId, now: int)
    requires ApprovalsOk(d) && id in d.requests && id in d.inbox && !d.requests[id].state.AwaitingDecision?
    ensures ApprovalsOk(OwnRequestSpec(d, id, r, actor, now).0)
    ensures OwnRequestSpec(d, id, r, actor, now).0.inbox == d.inbox
  {
    if d.requests[id].state.ApprovedOnce? {
      ConsumeKeeps(d, id, AuditEntry(id, AuditConsumed, actor, d.inbox[id].envelope.origin, r, now));
    }
  }

  lemma UseTemporaryKeeps(d: Database, a: Id, actor: NodeId, p: NodeId, r: string, now: int)
    requires ApprovalsOk(d) && a in d.requests && d.requests[a].state.ApprovedTemporary?
    ensures ApprovalsOk(Log(d, a, AuditTemporaryUsed, actor, p, r, now))
  {
    assert d.requests[a := d.requests[a]] == d.requests;
    AuditStep(d.requests, d.audit, a, d.requests[a], AuditEntry(a, AuditTemporaryUsed, actor, p, r, now));
  }

  lemma ParkKeepsRequests(q: Requests, i: Inbox, id: Id, row: RequestRow)
    requires RequestsMatch(q, i) && id in i && id !in q
    requires RequestOk(row, Unclaim(i[id], Quarantined))
    ensures RequestsMatch(q[id := row], ParkSpec(i, id))
  {
    forall k | k in q ensures RequestOk(q[k], i[k]) && k != id { }
  }

  lemma NewRequestKeeps(d: Database, id: Id, row: RequestRow, x: AuditEntry)
    requires ApprovalsOk(d) && id in d.inbox && id !in d.requests
    requires forall k :: k in d.requests ==> d.requests[k].identity != row.identity
    requires row.state.AwaitingDecision? && x.requestId == id && x.event.AuditRequested?
    requires RequestOk(row, Unclaim(d.inbox[id], Quarantined))
    ensures ApprovalsOk(d.(requests := d.requests[id := row], audit := d.audit + [x], inbox := ParkSpec(d.inbox, id)))
  {
    AuditStep(d.requests, d.audit, id, row, x);
    ParkKeepsRequests(d.requests, d.inbox, id, row);
  }

  /** A claimed message whose request is still open does not exist. */
  lemma ClaimedIsDecided(d: Database, id: Id)
    requires RequestsMatch(d.requests, d.inbox) && id in d.requests && id in d.inbox && d.inbox[id].state.Claimed?
    ensures !d.requests[id].state.AwaitingDecision?
  {
    assert RequestOk(d.requests[id], d.inbox[id]);
  }

  /** A message has at most one request, the one with its own identity. */
  lemma UnknownIdentityIsNew(d: Database, id: Id, r: string)
    requires RequestsMatch(d.requests, d.inbox) && id in d.inbox && d.inbox[id].envelope.payload.project == Some(r)
    requires FindIdentity(d.requests, IdentityOf(d.inbox[id].envelope, r)).None?
    ensures id !in d.requests
  {
    assert id in d.requests ==> RequestOk(d.requests[id], d.inbox[id]);
  }

  lemma ByRequestKeeps(d: Database, id: Id, r: string, actor: NodeId, now: int)
    requires ApprovalsOk(d) && id in d.inbox && d.inbox[id].state.Claimed?
    requires d.inbox[id].envelope.payload.project == Some(r)
    ensures ApprovalsOk(ByRequest(d, id, r, actor, now).0)
  {
    var e := d.inbox[id].envelope;
    match FindIdentity(d.requests, IdentityOf(e, r))
    case Some(q) =>
      if q == id {
        ClaimedIsDecided(d, id);
        OwnRequestKeeps(d, id, r, actor, now);
      }
    case None =>
      UnknownIdentityIsNew(d, id, r);
      NewRequestKeeps(d, id, OpenRequest(e, r), AuditEntry(id, AuditRequested, actor, e.origin, r, now));
  }

  lemma ByApprovalKeeps(d: Database, id: Id, r: string, actor: NodeId, now: int)
    requires ApprovalsOk(d) && id in d.inbox && d.inbox[id].state.Claimed?
    requires d.inbox[id].envelope.payload.project == Some(r)
    ensures ApprovalsOk(ByApproval(d, id, r, actor, now).0)
  {
    var p := d.inbox[id].envelope.origin;
    match ServingApproval(d.requests, p, r, now)
    case Some(a) => UseTemporaryKeeps(d, a, actor, p, r, now);
    case None => ByRequestKeeps(d, id, r, actor, now);
  }

  lemma AccessKeeps(d: Database, id: Id, resource: string, actor: NodeId, now: int)
    requires ApprovalsOk(d) && id in d.inbox && d.inbox[id].state.Claimed?
    ensures ApprovalsOk(AccessSpec(d, id, resource, actor, now).0)
  {
    hide ByApproval, ParseResource, AuditOk, RequestsOk;
    var parsed := ParseResource(resource);
    if parsed.Some? && d.inbox[id].envelope.payload.project == parsed {
      ByApprovalKeeps(d, id, parsed.value, actor, now);
    }
  }

  lemma AuthorizeKeeps(d: Database, id: Id, consumer: string, token: string, resource: string, actor: NodeId, now: int)
    requires ApprovalsOk(d)
    ensures ApprovalsOk(AuthorizeSpec(d, id, consumer, token, resource, actor, now).0)
  {
    if HoldsClaim(d.inbox, id, consumer, token, now) {
      ExpireKeeps(d, now);
      AccessKeeps(ExpireSpec(d, now), id, resource, actor, now);
    }
  }

  lemma RequeueAfter(q: Requests, i: Inbox, id: Id, row: RequestRow)
    requires RequestsMatch(q, i) && id in q
    requires !row.state.AwaitingDecision? && id in i && RequestOk(row, i[id])
    ensures RequestsMatch(q[id := row], RequeueSpec(i, id))
  {
    var i' := RequeueSpec(i, id);
    forall k | k in q[id := row] ensures k in i' && RequestOk(q[id := row][k], i'[k]) {
      if k != id {
        assert RequestOk(q[k], i[k]);
      }
    }
  }

  lemma SettleKeeps(x: Database, id: Id, row: RequestRow, event: AuditEvent, actor: NodeId, now: int)
    requires ApprovalsOk(x) && id in x.requests
    requires !row.state.AwaitingDecision? && row.decidedBy.Some? && (row.state.ApprovedTemporary? ==> row.expiresAt.Some?)
    requires row == x.requests[id].(state := row.state, decidedBy := row.decidedBy, expiresAt := row.expiresAt)
    requires Advance(Reached(x.requests[id].state), event) == Reached(row.state)
    ensures ApprovalsOk(Settle(x, id, row, event, actor, now))
  {
    assert RequestOk(x.requests[id], x.inbox[id]);
    RequeueAfter(x.requests, x.inbox, id, row);
    var entry := AuditEntry(id, event, actor, row.peer, row.resource, now);
    RequestStep(x, id, row, entry, RequeueSpec(x.inbox, id));
  }

  lemma DecideOnKeeps(d: Database, x: Database, id: Id, v: Verdict, actor: NodeId, now: int)
    requires ApprovalsOk(d) && ApprovalsOk(x)
    ensures ApprovalsOk(DecideOn(d, x, id, v, actor, now).0)
  {
    if id in x.requests && x.requests[id].state.AwaitingDecision? {
      SettleKeeps(x, id, DecidedRow(x.requests[id], v, actor), VerdictEvent(v), actor, now);
    }
  }

  lemma RevokeOnKeeps(d: Database, x: Database, id: Id, actor: NodeId, now: int)
    requires ApprovalsOk(d) && ApprovalsOk(x)
    ensures ApprovalsOk(RevokeOn(d, x, id, actor, now).0)
  {
    if id in x.requests && (x.requests[id].state.ApprovedOnce? || x.requests[id].state.ApprovedTemporary?) {
      SettleKeeps(x, id, RevokedRow(x.requests[id], actor), AuditRevoked, actor, now);
    }
  }

  lemma DecideKeeps(d: Database, id: Id, v: Verdict, actor: NodeId, now: int)
    requires ApprovalsOk(d)
    ensures ApprovalsOk(DecideSpec(d, id, v, actor, now).0)
  {
    ExpireKeeps(d, now);
    DecideOnKeeps(d, ExpireSpec(d, now), id, v, actor, now);
  }

  lemma RevokeRequestKeeps(d: Database, id: Id, actor: NodeId, now: int)
    requires ApprovalsOk(d)
    ensures ApprovalsOk(RevokeRequestSpec(d, id, actor, now).0)
  {
    ExpireKeeps(d, now);
    RevokeOnKeeps(d, ExpireSpec(d, now), id, actor, now);
  }

  lemma PairRevokedKeepsRequests(q: Requests, i: Inbox, p: NodeId, r: string, actor: NodeId)
    requires RequestsOk(q, i)
    ensures RequestsOk(PairRevoked(q, p, r, actor), i)
  {
    var q' := PairRevoked(q, p, r, actor);
    forall id | id in q ensures q'[id].identity == q[id].identity && RequestOk(q'[id], i[id]) {
      assert RequestOk(q[id], i[id]);
    }
    RequestsRowwise(q, q', i);
  }

  lemma PairRevokedKeepsAudit(q: Requests, audit: seq<AuditEntry>, p: NodeId, r: string, actor: NodeId, now: int)
    requires AuditOk(q, audit)
    ensures AuditOk(PairRevoked(q, p, r, actor), audit + PairEntries(PairIds(q, p, r), p, r, actor, now))
  {
    PairIdsExact(q, p, r);
    AuditBatch(q, PairRevoked(q, p, r, actor), audit, PairIds(q, p, r), PairEntries(PairIds(q, p, r), p, r, actor, now));
  }

  lemma RevokeGrantKeeps(d: Database, p: NodeId, resource: string, actor: NodeId, now: int)
    requires ApprovalsOk(d)
    ensures ApprovalsOk(RevokeGrantSpec(d, p, resource, actor, now).0)
  {
    if RevokeGrantSpec(d, p, resource, actor, now).0 != d {
      var r := ParseResource(resource).value;
      PairRevokedKeepsRequests(d.requests, d.inbox, p, r, actor);
      PairRevokedKeepsAudit(d.requests, d.audit, p, r, actor, now);
    }
  }
}
