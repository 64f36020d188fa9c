/** What the operations on approvals write: the request rows, the message they move and
    every column of every audit entry, in plain states. */
module ApprovalOutcomes {
  import opened Envelopes
  import opened Ordering
  import opened Tables
  import opened Text
  import opened InboxTable
  import opened Approvals
  import opened ApprovalRules
  import opened AuditTrail
  import opened Operations

  // ---- The expiry sweep ------------------------------------------------------------

  predicate RunsOut(row: RequestRow, now: int) {
    row.state.ApprovedTemporary? && row.expiresAt.Some? && row.expiresAt.value <= now
  }

  /** The entry of an approval whose time is over names who had approved it. */
  predicate IsExpiryEntry(row: RequestRow, entry: AuditEntry, now: int) {
    && RunsOut(row, now) && row.decidedBy.Some?
    && entry == AuditEntry(entry.requestId, AuditExpired, row.decidedBy.value, row.peer, row.resource, now)
  }

  /** Every approval whose time is over gets one entry, in the order of ids, and no other. */
  ghost predicate ExpiryAdds(q: Requests, added: seq<AuditEntry>, now: int) {
    && (forall k :: 0 <= k < |added| ==>
          added[k].requestId in q && IsExpiryEntry(q[added[k].requestId], added[k], now))
    && (forall j, k :: 0 <= j < k < |added| ==> InDictionaryOrder(added[j].requestId, added[k].requestId))
    && (forall id :: id in q && RunsOut(q[id], now) ==> exists k :: 0 <= k < |added| && added[k].requestId == id)
  }

  /** Every temporary approval whose time is over expires, with its entry. */
  ghost predicate ExpiryOutcome(d: Database, x: Database, now: int) {
    && x == d.(requests := x.requests, audit := x.audit)
    && x.requests.Keys == d.requests.Keys
    && (forall id :: id in d.requests ==>
          x.requests[id] == if RunsOut(d.requests[id], now) then d.requests[id].(state := Expired) else d.requests[id])
    && d.audit <= x.audit && ExpiryAdds(d.requests, x.audit[|d.audit|..], now)
  }

  lemma ExpiryIsInOrder(q: Requests, now: int, j: nat, k: nat)
    requires j < k < |LapsingIds(q, now)|
    ensures InDictionaryOrder(LapsingIds(q, now)[j], LapsingIds(q, now)[k])
  {
    var s := LapsingStamps(q, now);
    FirstIdsAscend(s, |s|, j, k);
    StrLessIsDictionaryOrder(LapsingIds(q, now)[j], LapsingIds(q, now)[k]);
  }

  lemma ExpiryEntriesAre(q: Requests, i: Inbox, now: int)
    requires RequestsMatch(q, i)
    ensures forall id :: id in LapsingIds(q, now) ==> id in q
    ensures ExpiryAdds(q, ExpiryEntries(q, LapsingIds(q, now), now), now)
  {
    hide LapsingIds;
    var ids := LapsingIds(q, now);
    LapsingIdsExact(q, now);
    var added := ExpiryEntries(q, ids, now);
    forall k | 0 <= k < |added| ensures added[k].requestId in q && IsExpiryEntry(q[added[k].requestId], added[k], now) {
      assert ids[k] in ids;
      assert RequestOk(q[ids[k]], i[ids[k]]);
    }
    forall j, k | 0 <= j < k < |added| ensures InDictionaryOrder(added[j].requestId, added[k].requestId) {
      ExpiryIsInOrder(q, now, j, k);
    }
    forall id | id in q && RunsOut(q[id], now) ensures exists k :: 0 <= k < |added| && added[k].requestId == id {
      assert id in ids;
      var k :| 0 <= k < |ids| && ids[k] == id;
      assert added[k].requestId == id;
    }
  }

  lemma ExpiryIsRight(d: Database, now: int)
    requires ApprovalsOk(d)
    ensures ExpiryOutcome(d, ExpireSpec(d, now), now)
  {
    hide AuditOk, ExpiryAdds, LapsingIds, RequestsMatch;
    var x := ExpireSpec(d, now);
    ExpiryEntriesAre(d.requests, d.inbox, now);
    assert x.audit[|d.audit|..] == ExpiryEntries(d.requests, LapsingIds(d.requests, now), now);
  }

  // ---- Access ------------------------------------------------------------------------

  predicate ServesNow(q: Requests, a: Id, p: NodeId, r: string, now: int) {
    && a in q && q[a].state.ApprovedTemporary? && q[a].peer == p && q[a].resource == r
    && q[a].expiresAt.Some? && now < q[a].expiresAt.value
  }

  /** `x'` is `x` with one more audit entry. */
  predicate Adds(x: Database, x': Database, entry: AuditEntry) {
    x'.audit == x.audit + [entry]
  }

  /** A temporary approval of the pair serves; its use is entered. */
  ghost predicate UsesTemporary(x: Database, x': Database, a: Id, p: NodeId, r: string, actor: NodeId, now: int) {
    && ServesNow(x.requests, a, p, r, now) && x' == x.(audit := x'.audit)
    && Adds(x, x', AuditEntry(a, AuditTemporaryUsed, actor, p, r, now))
  }

  /** The message's own one-time approval is used up. */
  ghost predicate UsesUp(x: Database, x': Database, id: Id, p: NodeId, r: string, actor: NodeId, now: int) {
    && id in x.requests && x.requests[id].state.ApprovedOnce?
    && x' == x.(requests := x.requests[id := x.requests[id].(state := Consumed)], audit := x'.audit)
    && Adds(x, x', AuditEntry(id, AuditConsumed, actor, p, r, now))
  }

  /** A request is opened for the message, which is parked. */
  ghost predicate OpensRequest(x: Database, x': Database, id: Id, r: string, actor: NodeId, now: int)
    requires id in x.inbox
  {
    var e := x.inbox[id].envelope;
    && id !in x.requests
    && x' == x.(
         requests := x.requests[id := RequestRow(Identity(e.origin, r, e.kind, e.stream, e.key), e.payloadSha, e.origin, r,
                                                 AwaitingDecision, None, None)],
         inbox := x.inbox[id := x.inbox[id].(state := Quarantined, claimOwner := None, claimToken := None,
                                             claimUntil := None)],
         audit := x'.audit)
    && Adds(x, x', AuditEntry(id, AuditRequested, actor, e.origin, r, now))
  }

  /** What a decision on access leaves behind: a use, a consumption, or a new request, each
      with its entry, which names the actor, the peer, the resource and the time. Any other
      decision leaves nothing. */
  ghost predicate AccessOutcome(x: Database, x': Database, id: Id, actor: NodeId, now: int, decision: Decision)
    requires id in x.inbox
  {
    var e := x.inbox[id].envelope;
    var r := if e.payload.project.Some? then e.payload.project.value else "";
    match decision
    case Authorized(TemporaryApproval, a) =>
      e.payload.project.Some? && a.Some? && UsesTemporary(x, x', a.value, e.origin, r, actor, now)
    case Authorized(OneTimeApproval, a) =>
      e.payload.project.Some? && a == Some(id) && UsesUp(x, x', id, e.origin, r, actor, now)
    case ApprovalPending(q) =>
      e.payload.project.Some? && q == id && OpensRequest(x, x', id, r, actor, now)
    case _ => x' == x
  }

  /** Whatever the tables hold: an operation that another message asked for, or that was asked for
      with another content, is a duplicate, and nothing is written. */
  lemma DuplicatesAreRefused(x: Database, id: Id, r: string, actor: NodeId, now: int, q: Id)
    requires OneRequestEach(x.requests) && id in x.inbox && q in x.requests
    requires var e := x.inbox[id].envelope; x.requests[q].identity == Identity(e.origin, r, e.kind, e.stream, e.key)
    ensures q != id || x.requests[q].fingerprint != x.inbox[id].envelope.payloadSha ==>
              ByRequest(x, id, r, actor, now) == (x, DuplicateOf(q))
  {
    assert FindIdentity(x.requests, IdentityOf(x.inbox[id].envelope, r)) == Some(q);
  }

  lemma OwnRequestOutcome(x: Database, id: Id, r: string, actor: NodeId, now: int)
    requires id in x.inbox && id in x.requests && !x.requests[id].state.AwaitingDecision?
    requires x.inbox[id].envelope.payload.project == Some(r)
    requires !ServesNow(x.requests, id, x.inbox[id].envelope.origin, r, now)
    requires x.requests[id].peer == x.inbox[id].envelope.origin && x.requests[id].resource == r
    ensures var (x', decision) := OwnRequestSpec(x, id, r, actor, now); AccessOutcome(x, x', id, actor, now, decision)
  {
  }

  lemma ByRequestOutcome(x: Database, id: Id, r: string, actor: NodeId, now: int)
    requires RequestsMatch(x.requests, x.inbox) && id in x.inbox && x.inbox[id].state.Claimed?
    requires x.inbox[id].envelope.payload.project == Some(r)
    requires forall a :: !ServesNow(x.requests, a, x.inbox[id].envelope.origin, r, now)
    ensures var (x', decision) := ByRequest(x, id, r, actor, now); AccessOutcome(x, x', id, actor, now, decision)
  {
    match FindIdentity(x.requests, IdentityOf(x.inbox[id].envelope, r))
    case Some(q) =>
      if q == id {
        ClaimedIsDecided(x, id);
        assert RequestOk(x.requests[id], x.inbox[id]);
        OwnRequestOutcome(x, id, r, actor, now);
      }
    case None => UnknownIdentityIsNew(x, id, r);
  }

  lemma ByApprovalOutcome(x: Database, id: Id, r: string, actor: NodeId, now: int)
    requires RequestsMatch(x.requests, x.inbox) && id in x.inbox && x.inbox[id].state.Claimed?
    requires x.inbox[id].envelope.payload.project == Some(r)
    ensures var (x', decision) := ByApproval(x, id, r, actor, now); AccessOutcome(x, x', id, actor, now, decision)
  {
    match ServingApproval(x.requests, x.inbox[id].envelope.origin, r, now)
    case Some(_) =>
    case None => ByRequestOutcome(x, id, r, actor, now);
  }

  lemma AccessIsRight(x: Database, id: Id, resource: string, actor: NodeId, now: int)
    requires RequestsMatch(x.requests, x.inbox) && id in x.inbox && x.inbox[id].state.Claimed?
    ensures var (x', decision) := AccessSpec(x, id, resource, actor, now); AccessOutcome(x, x', id, actor, now, decision)
  {
    hide ByApproval;
    var parsed := ParseResource(resource);
    if parsed.Some? && x.inbox[id].envelope.payload.project == parsed {
      ByApprovalOutcome(x, id, parsed.value, actor, now);
    }
  }

  /** Deciding on access: nothing happens without a live claim; with one, `x` is what the expiry
      sweep leaves, and the decision adds what `AccessOutcome` says. */
  ghost predicate AuthorizeOutcome(d: Database, x: Database, d': Database, id: Id, actor: NodeId, now: int,
                                   r: Result<Decision>)
  {
    match r
    case Err(f) => f == Transition && d' == d
    case Ok(decision) => id in d.inbox && ExpiryOutcome(d, x, now) && AccessOutcome(x, d', id, actor, now, decision)
  }

  lemma AuthorizeIsRight(d: Database, id: Id, consumer: string, token: string, resource: string, actor: NodeId, now: int)
    requires ApprovalsOk(d)
    ensures var (d', r) := AuthorizeSpec(d, id, consumer, token, resource, actor, now);
      && AuthorizeOutcome(d, ExpireSpec(d, now), d', id, actor, now, r)
      && (r.Ok? <==> HoldsClaim(d.inbox, id, consumer, token, now))
  {
    hide AccessSpec, ExpireSpec, AccessOutcome;
    ExpiryIsRight(d, now);
    ExpireKeeps(d, now);
    if HoldsClaim(d.inbox, id, consumer, token, now) {
      AccessIsRight(ExpireSpec(d, now), id, resource, actor, now);
    }
  }

  // ---- Decisions and revocations -------------------------------------------------------

  /** The verdict: the state it leads to, and its audit event. */
  predicate Verdicts(v: Verdict, state: RequestState, event: AuditEvent) {
    match v
    case Once => state == ApprovedOnce && event == AuditApprovedOnce
    case Temporarily(_) => state == ApprovedTemporary && event == AuditApprovedTemporary
    case Deny => state == Denied && event == AuditDenied
  }

  predicate IsOn(resources: Resources, r: string) { r in resources && resources[r] }

  predicate IsGrantedNow(d: Database, p: NodeId, r: string) {
    (p, r) in d.grants && d.grants[(p, r)] && IsOn(d.resources, r)
  }

  /** A grant serves while it is active and its resource enabled. */
  lemma GrantMeans(d: Database, p: NodeId, r: string)
    ensures Granted(d, p, r) <==> IsGrantedNow(d, p, r)
  {
  }

  /** The row is replaced, the entry added, and the message, if it was parked, available. */
  ghost predicate Decides(x: Database, d': Database, id: Id, row: RequestRow, event: AuditEvent, actor: NodeId, now: int)
    requires id in x.inbox
  {
    && d' == x.(
         requests := x.requests[id := row], audit := d'.audit,
         inbox := if x.inbox[id].state.Quarantined?
                  then x.inbox[id := x.inbox[id].(state := Available, claimOwner := None, claimToken := None,
                                                  claimUntil := None)]
                  else x.inbox)
    && Adds(x, d', AuditEntry(id, event, actor, row.peer, row.resource, now))
  }

  /** An operator decides an open request on an enabled resource, and approves it only where no
      grant serves already and the time given is not over; the decision is entered with its
      audit, and the message is available again. */
  lemma DecideIsRight(d: Database, id: Id, v: Verdict, actor: NodeId, now: int, state: RequestState, event: AuditEvent)
    requires ApprovalsOk(d) && Verdicts(v, state, event)
    ensures var (d', r) := DecideSpec(d, id, v, actor, now);
      var x := ExpireSpec(d, now);
      && (r.Ok? <==>
            && (v.Temporarily? ==> now < v.until) && id in x.requests
            && (x.requests[id].state == state
                || (&& x.requests[id].state.AwaitingDecision? && IsOn(d.resources, x.requests[id].resource)
                    && (v.Deny? || !IsGrantedNow(d, x.requests[id].peer, x.requests[id].resource)))))
      && (r.Err? ==> d' == d)
      && (r.Ok? ==> r.value == state)
      && (r.Ok? && x.requests[id].state == state ==> d' == x)
      && (r.Ok? && x.requests[id].state != state ==>
            && id in x.inbox
            && Decides(x, d', id, x.requests[id].(state := state, decidedBy := Some(actor),
                                                  expiresAt := if v.Temporarily? then Some(v.until) else None),
                       event, actor, now))
  {
    hide ExpireSpec, AuditOk;
    ExpireKeeps(d, now);
    var x := ExpireSpec(d, now);
    if id in x.requests {
      assert RequestOk(x.requests[id], x.inbox[id]);
    }
  }

  /** Only an active approval is revoked; a one-time approval frees its message from quarantine
      like any other. Revoking twice changes nothing. */
  lemma RevokeIsRight(d: Database, id: Id, actor: NodeId, now: int)
    requires ApprovalsOk(d)
    ensures var (d', r) := RevokeRequestSpec(d, id, actor, now);
      var x := ExpireSpec(d, now);
      && (r.Ok? <==> id in x.requests && (x.requests[id].state.ApprovedOnce? || x.requests[id].state.ApprovedTemporary?
                                          || x.requests[id].state.Revoked?))
      && (r.Err? ==> d' == d)
      && (r.Ok? ==> r.value == Revoked)
      && (r.Ok? && x.requests[id].state.Revoked? ==> d' == x)
      && (r.Ok? && !x.requests[id].state.Revoked? ==>
            && id in x.inbox
            && Decides(x, d', id, x.requests[id].(state := Revoked, decidedBy := Some(actor)), AuditRevoked, actor, now))
  {
    hide ExpireSpec, AuditOk;
    ExpireKeeps(d, now);
    var x := ExpireSpec(d, now);
    if id in x.requests {
      assert RequestOk(x.requests[id], x.inbox[id]);
    }
  }

  predicate IsTemporaryOf(row: RequestRow, p: NodeId, r: string) {
    row.state.ApprovedTemporary? && row.peer == p && row.resource == r
  }

  /** Revoking a grant that was ever made ends it, and revokes every temporary approval of the
      pair, one entry each. */
  lemma RevokeGrantIsRight(d: Database, p: NodeId, resource: string, actor: NodeId, now: int)
    ensures var (d', result) := RevokeGrantSpec(d, p, resource, actor, now);
      match ParseResource(resource)
      case None => result == Err(Invalid) && d' == d
      case Some(r) =>
        if (p, r) !in d.grants then result == Err(Transition) && d' == d
        else
          && result.Ok?
          && d' == d.(grants := d.grants[(p, r) := false], requests := d'.requests, audit := d'.audit)
          && d'.requests.Keys == d.requests.Keys
          && (forall id :: id in d.requests ==>
                d'.requests[id] == if IsTemporaryOf(d.requests[id], p, r)
                                   then d.requests[id].(state := Revoked, decidedBy := Some(actor)) else d.requests[id])
          && d.audit <= d'.audit
          && var added := d'.audit[|d.audit|..];
             && (forall k :: 0 <= k < |added| ==>
                   && added[k].requestId in d.requests && IsTemporaryOf(d.requests[added[k].requestId], p, r)
                   && added[k] == AuditEntry(added[k].requestId, AuditRevoked, actor, p, r, now))
             && (forall j, k :: 0 <= j < k < |added| ==> added[j].requestId != added[k].requestId)
             && (forall id :: id in d.requests && IsTemporaryOf(d.requests[id], p, r) ==>
                   exists k :: 0 <= k < |added| && added[k].requestId == id)
  {
    var (d', result) := RevokeGrantSpec(d, p, resource, actor, now);
    if result.Ok? {
      var r := ParseResource(resource).value;
      var ids, added := PairIds(d.requests, p, r), d'.audit[|d.audit|..];
      PairIdsExact(d.requests, p, r);
      assert added == PairEntries(ids, p, r, actor, now);
      forall k | 0 <= k < |added|
        ensures added[k].requestId in d.requests && IsTemporaryOf(d.requests[added[k].requestId], p, r)
      {
        assert ids[k] in ids;
      }
      forall id | id in d.requests && IsTemporaryOf(d.requests[id], p, r)
        ensures exists k :: 0 <= k < |added| && added[k].requestId == id
      {
        assert id in ids;
        var k :| 0 <= k < |ids| && ids[k] == id;
        assert added[k].requestId == id;
      }
    }
  }

  /** Resources are registered once, enabled, and switched; grants are given for registered
      resources only. Nothing else moves. */
  lemma ResourceOutcome(d: Database, p: NodeId, resource: string, enabled: bool)
    ensures match ParseResource(resource)
            case None =>
              RegisterSpec(d, resource) == (d, Err(Invalid)) && SetEnabledSpec(d, resource, enabled) == (d, Err(Invalid))
              && GrantSpec(d, p, resource) == (d, Err(Invalid))
            case Some(r) =>
              && RegisterSpec(d, resource) ==
                 (if r in d.resources then (d, Ok(false)) else (d.(resources := d.resources[r := true]), Ok(true)))
              && SetEnabledSpec(d, resource, enabled) ==
                 (if r in d.resources then (d.(resources := d.resources[r := enabled]), Ok(())) else (d, Err(Transition)))
              && GrantSpec(d, p, resource) ==
                 (if r in d.resources then (d.(grants := d.grants[(p, r) := true]), Ok(())) else (d, Err(Transition)))
  {
  }
}
