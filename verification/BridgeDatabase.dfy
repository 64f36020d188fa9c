/** The database object: every operation runs one transaction over the tables, is
    proved equal to the function that `Operations.Step` applies for it, and keeps the
    invariant of the tables. One that fails leaves the tables as they were. */
module BridgeDatabases {
  import opened Envelopes
  import opened Ordering
  import opened Tables
  import opened Text
  import opened OutboxTable
  import opened InboxTable
  import opened Settlement
  import opened Approvals
  import opened ApprovalRules
  import opened RunTable
  import opened Evidence
  import opened Operations
  import opened OutboxOutcomes
  import opened InboxOutcomes
  import opened ApprovalOutcomes

  class BridgeDatabase {
    var outbox: Outbox
    var inbox: Inbox
    var requests: Requests
    var audit: seq<AuditEntry>
    var resources: Resources
    var grants: Grants
    var runs: Runs

    function Contents(): Database
      reads this
    {
      Database(outbox, inbox, requests, audit, resources, grants, runs)
    }

    ghost predicate Valid()
      reads this
    {
      DatabaseOk(Contents())
    }

    /** What one step does to the contents keeps the invariant: every operation ends here. */
    twostate lemma MethodsKeepValid(op: Op)
      requires old(Valid()) && Contents() == Step(old(Contents()), op)
      ensures Valid()
    {
      StepKeeps(old(Contents()), op);
    }

    lemma ValidHasOneSlotEach()
      requires Valid()
      ensures OneSlotEach(outbox)
    {
    }

    lemma ValidHasTables()
      requires Valid()
      ensures OutboxOk(outbox) && InboxOk(inbox) && LinksOk(Contents()) && RunsOk(runs)
    {
    }

    lemma ValidHasRows()
      requires Valid()
      ensures RowsOk(outbox) && InboxOk(inbox) && ApprovalsOk(Contents())
    {
    }

    lemma ValidHasOneRequestEach()
      requires Valid()
      ensures OneRequestEach(requests)
    {
    }

    constructor ()
      ensures Contents() == EmptyDatabase() && Valid()
    {
      outbox, inbox, requests, audit, resources, grants, runs := map[], map[], map[], [], map[], map[], map[];
      new;
      EmptyIsOk();
    }

    method Rollback(d: Database)
      modifies this
      ensures Contents() == d
    {
      outbox, inbox, requests, audit, resources, grants, runs :=
        d.outbox, d.inbox, d.requests, d.audit, d.resources, d.grants, d.runs;
    }

    // ---- Outbox -----------------------------------------------------------

    method GetOutboxOperation(target: NodeId, key: string) returns (r: Option<Id>)
      requires OneSlotEach(outbox)
      ensures r == FindOperation(outbox, target, key)
    {
      if exists id :: id in outbox && outbox[id].envelope.target == target && outbox[id].envelope.key == key {
        var id :| id in outbox && outbox[id].envelope.target == target && outbox[id].envelope.key == key;
        assert InSlot(outbox, id, target, key);
        r := Some(id);
      } else {
        assert forall id :: !InSlot(outbox, id, target, key);
        r := None;
      }
    }

    method EnqueueEnvelopeRow(e: Envelope, c: Comparison) returns (r: Result<EnqueueResult>)
      requires OneSlotEach(outbox)
      modifies this`outbox
      ensures (outbox, r) == EnqueueRow(old(outbox), e, c)
    {
      if RootClash(outbox, e) {
        return Err(Transition);
      }
      var existing := GetOutboxOperation(e.target, e.key);
      if existing.None? && e.id !in outbox {
        outbox := outbox[e.id := NewOutRow(e)];
        return Ok(EnqueueResult(e.id, Pending, false));
      }
      if existing.None? {
        return Err(Transition);
      }
      var prior := outbox[existing.value];
      if !SameOperation(prior.envelope, e, c) {
        return Err(Conflict);
      }
      r := Ok(EnqueueResult(existing.value, prior.state, true));
    }

    method EnqueueEnvelope(e: Envelope, c: Comparison) returns (r: Result<EnqueueResult>)
      requires Valid()
      modifies this`outbox
      ensures Valid()
      ensures (outbox, r) == EnqueueSpec(old(outbox), e, c)
    {
      ValidHasOneSlotEach();
      hide Valid;
      if !ValidEnvelope(e) {
        return Err(Invalid);
      }
      r := EnqueueEnvelopeRow(e, c);
      MethodsKeepValid(Enqueue(e, c));
    }

    /** The transaction of `LeaseOutbox`. */
    method LeaseDue(owner: string, limit: int, leaseSeconds: int, now: int) returns (r: Result<seq<LeasedMessage>>)
      modifies this`outbox
      ensures outbox == LeaseSpec(old(outbox), owner, limit, leaseSeconds, now)
      ensures r.Ok? <==> limit > 0 && leaseSeconds > 0
      ensures r.Ok? ==> Hands(old(outbox), LeaseIds(old(outbox), limit, now), r.value)
    {
      if limit <= 0 || leaseSeconds <= 0 {
        return Err(Invalid);
      }
      outbox := map id | id in outbox :: Reopen(outbox[id], now);
      outbox := map id | id in outbox :: Lapse(outbox[id], now);
      assert outbox == Swept(old(outbox), now);
      var rows := FirstIds(DueStamps(outbox, now), limit);
      PickedArePending(old(outbox), limit, now);
      r := LeaseEach(rows, owner, now + 1000 * leaseSeconds);
      SweepKeepsHands(old(outbox), rows, now, r.value);
    }

    method LeaseOutbox(owner: string, limit: int, leaseSeconds: int, now: int) returns (r: Result<seq<LeasedMessage>>)
      requires Valid()
      modifies this`outbox
      ensures Valid()
      ensures outbox == LeaseSpec(old(outbox), owner, limit, leaseSeconds, now)
      ensures r.Ok? <==> limit > 0 && leaseSeconds > 0
      ensures r.Ok? ==> Hands(old(outbox), LeaseIds(old(outbox), limit, now), r.value)
      ensures r.Ok? ==> HandsOutOldest(old(outbox), outbox, owner, limit, now + 1000 * leaseSeconds, now, r.value)
    {
      ValidHasRows();
      hide Valid, HandsOutOldest, LeaseSpec, RowsOk;
      r := LeaseDue(owner, limit, leaseSeconds, now);
      MethodsKeepValid(Op.LeaseOutbox(owner, limit, leaseSeconds, now));
      if r.Ok? {
        LeaseHandsOutOldest(old(outbox), owner, limit, leaseSeconds, now, r.value);
      }
    }

    method LeaseEach(rows: seq<Id>, owner: string, until: int) returns (r: Result<seq<LeasedMessage>>)
      requires Distinct(rows) && forall k :: 0 <= k < |rows| ==> rows[k] in outbox && outbox[rows[k]].state.Pending?
      modifies this`outbox
      ensures outbox == LeaseRows(old(outbox), rows, owner, until)
      ensures r.Ok? && Hands(old(outbox), rows, r.value)
    {
      ghost var swept := outbox;
      var leased: seq<LeasedMessage> := [];
      for k := 0 to |rows|
        invariant outbox == LeaseRows(swept, rows[..k], owner, until)
        invariant Hands(swept, rows[..k], leased)
      {
        var row := outbox[rows[k]];
        assert rows[k] !in rows[..k] && row.state.Pending?;
        outbox := outbox[rows[k] := LeasedRow(row, owner, until)];
        leased := leased + [LeasedMessage(row.envelope, row.attempts + 1)];
        assert rows[..k + 1] == rows[..k] + [rows[k]];
      }
      assert rows[..|rows|] == rows;
      r := Ok(leased);
    }

    method MarkOutboxSent(id: Id, owner: string) returns (r: Result<()>)
      requires Valid()
      modifies this`outbox
      ensures Valid()
      ensures outbox == MarkSentSpec(old(outbox), id, owner)
      ensures r.Ok? <==> HoldsLease(old(outbox), id, owner)
    {
      if id !in outbox || !outbox[id].state.Leased? || outbox[id].leaseOwner != Some(owner) {
        return Err(Transition);
      }
      outbox := outbox[id := outbox[id].(state := Sent, leaseOwner := None, leaseUntil := None)];
      r := Ok(());
      MethodsKeepValid(MarkSent(id, owner));
    }

    method ReleaseOutboxLease(id: Id, owner: string, retryAt: int) returns (r: Result<()>)
      requires Valid()
      modifies this`outbox
      ensures Valid()
      ensures outbox == ReleaseSpec(old(outbox), id, owner, retryAt)
      ensures r.Ok? <==> HoldsLease(old(outbox), id, owner)
    {
      if id !in outbox || !outbox[id].state.Leased? || outbox[id].leaseOwner != Some(owner) {
        return Err(Transition);
      }
      outbox := outbox[id := outbox[id].(state := Pending, attempts := outbox[id].attempts + 1,
                                         nextAttemptAt := retryAt, leaseOwner := None, leaseUntil := None)];
      r := Ok(());
      MethodsKeepValid(ReleaseLease(id, owner, retryAt));
    }

    method QuarantineOutbox(id: Id, owner: string) returns (r: Result<()>)
      requires Valid()
      modifies this`outbox
      ensures Valid()
      ensures outbox == QuarantineSpec(old(outbox), id, owner)
      ensures r.Ok? <==> HoldsLease(old(outbox), id, owner)
    {
      if id !in outbox || !outbox[id].state.Leased? || outbox[id].leaseOwner != Some(owner) {
        return Err(Transition);
      }
      outbox := outbox[id := outbox[id].(state := OutQuarantined, attempts := outbox[id].attempts + 1,
                                         leaseOwner := None, leaseUntil := None)];
      r := Ok(());
      MethodsKeepValid(Op.QuarantineOutbox(id, owner));
    }

    // ---- Inbox ------------------------------------------------------------

    method PersistIncoming(e: Envelope, count: int, now: int, authenticated: bool) returns (r: Result<PersistStatus>)
      requires Valid()
      modifies this`inbox
      ensures Valid()
      ensures (inbox, r) == PersistSpec(old(inbox), e, count, now, authenticated)
    {
      hide Valid;
      if !ValidEnvelope(e) {
        return Err(Invalid);
      }
      if e.id in inbox {
        var existing := inbox[e.id];
        if !SameInbound(existing.envelope, e) {
          if existing.envelope.origin == e.origin {
            inbox := inbox[e.id := existing.(state := Quarantined, deliveries := count)];
            MethodsKeepValid(Persist(e, count, now, authenticated));
          }
          return Ok(Collision);
        }
        inbox := inbox[e.id := existing.(
          deliveries := if count > existing.deliveries then count else existing.deliveries,
          authenticated := existing.authenticated || authenticated)];
        MethodsKeepValid(Persist(e, count, now, authenticated));
        return Ok(Duplicate);
      }
      inbox := inbox[e.id := NewInRow(e, count, now, authenticated)];
      r := Ok(Inserted);
      MethodsKeepValid(Persist(e, count, now, authenticated));
    }

    /** The transaction of `ClaimInboxWhere`. */
    method ClaimMatching(consumer: string, limit: int, leaseSeconds: int, filter: ClaimFilter, now: int,
                         tokens: seq<string>) returns (r: Result<seq<ClaimedMessage>>)
      requires limit <= |tokens|
      modifies this`inbox
      ensures inbox == ClaimSpec(old(inbox), runs, consumer, limit, leaseSeconds, filter, now, tokens)
      ensures r.Ok? <==> ClaimArguments(consumer, limit, leaseSeconds)
      ensures r.Ok? ==> HandsClaims(old(inbox), ClaimIds(old(inbox), filter, runs, limit, now), tokens, r.value)
    {
      if !ClaimArguments(consumer, limit, leaseSeconds) {
        return Err(Invalid);
      }
      inbox := map id | id in inbox :: LapseClaim(inbox[id], now);
      assert inbox == LapsedClaims(old(inbox), now);
      var rows := FirstIds(ClaimableStamps(inbox, filter, runs, now), limit);
      PickedAreAvailable(old(inbox), filter, runs, limit, now);
      r := ClaimEach(rows, tokens, consumer, now + 1000 * leaseSeconds);
      LapseKeepsHands(old(inbox), rows, tokens, now, r.value);
    }

    /** `tokens` are the random tokens the call draws, one for each row. */
    method ClaimInboxWhere(consumer: string, limit: int, leaseSeconds: int, filter: ClaimFilter, now: int,
                           tokens: seq<string>) returns (r: Result<seq<ClaimedMessage>>)
      requires Valid() && limit <= |tokens|
      modifies this`inbox
      ensures Valid()
      ensures inbox == ClaimSpec(old(inbox), runs, consumer, limit, leaseSeconds, filter, now, tokens)
      ensures r.Ok? <==> ClaimArguments(consumer, limit, leaseSeconds)
      ensures r.Ok? ==> HandsClaims(old(inbox), ClaimIds(old(inbox), filter, runs, limit, now), tokens, r.value)
      ensures r.Ok? ==> HandedTokens(r.value) <= tokens
      ensures r.Ok? ==> HandsOutFirst(old(inbox), inbox, runs, consumer, limit, now + 1000 * leaseSeconds, filter, now, r.value)
    {
      ValidHasRows();
      hide Valid, HandsOutFirst, ClaimSpec, InboxOk;
      r := ClaimMatching(consumer, limit, leaseSeconds, filter, now, tokens);
      MethodsKeepValid(Claim(consumer, limit, leaseSeconds, filter, now, tokens));
      if r.Ok? {
        ClaimedAreFirst(old(inbox), inbox, runs, consumer, limit, leaseSeconds, filter, now, tokens, r.value);
      }
    }

    method ClaimEach(rows: seq<Id>, tokens: seq<string>, consumer: string, until: int)
      returns (r: Result<seq<ClaimedMessage>>)
      requires |rows| <= |tokens| && Distinct(rows)
      requires forall k :: 0 <= k < |rows| ==> rows[k] in inbox && inbox[rows[k]].state.Available?
      modifies this`inbox
      ensures inbox == ClaimRows(old(inbox), rows, tokens, consumer, until)
      ensures r.Ok? && HandsClaims(old(inbox), rows, tokens, r.value)
    {
      ghost var lapsed := inbox;
      var claimed: seq<ClaimedMessage> := [];
      for k := 0 to |rows|
        invariant inbox == ClaimRows(lapsed, rows[..k], tokens, consumer, until)
        invariant HandsClaims(lapsed, rows[..k], tokens, claimed)
      {
        ClaimRowsPointwise(lapsed, rows[..k], tokens, consumer, until);
        assert rows[k] !in rows[..k];
        var row := inbox[rows[k]];
        assert row == lapsed[rows[k]] && row.state.Available?;
        inbox := inbox[rows[k] := ClaimedRow(row, consumer, tokens[k], until)];
        claimed := claimed + [ClaimedMessage(row.envelope, tokens[k], row.authenticated)];
        assert rows[..k + 1][..k] == rows[..k];
      }
      assert rows[..|rows|] == rows;
      r := Ok(claimed);
    }

    method RenewClaim(id: Id, consumer: string, token: string, leaseSeconds: int, now: int) returns (r: Result<int>)
      requires Valid()
      modifies this`inbox
      ensures Valid()
      ensures (inbox, r) == RenewSpec(old(inbox), id, consumer, token, leaseSeconds, now)
    {
      hide Valid;
      if leaseSeconds <= 0 {
        return Err(Invalid);
      }
      if !HoldsClaim(inbox, id, consumer, token, now) {
        return Err(Transition);
      }
      var until := now + 1000 * leaseSeconds;
      inbox := inbox[id := inbox[id].(claimUntil := Some(until))];
      r := Ok(until);
      MethodsKeepValid(Renew(id, consumer, token, leaseSeconds, now));
    }

    method Acknowledge(id: Id, consumer: string, token: string, outcome: AckOutcome, now: int) returns (r: Result<InState>)
      requires Valid()
      modifies this`inbox
      ensures Valid()
      ensures (inbox, r) == AcknowledgeSpec(old(inbox), id, consumer, token, outcome, now)
    {
      hide Valid;
      var target := TargetState(outcome);
      if id !in inbox {
        return Err(Transition);
      }
      if inbox[id].state == target && !target.Available? {
        return Ok(target);
      }
      if !HoldsClaim(inbox, id, consumer, token, now) {
        return Err(Transition);
      }
      inbox := inbox[id := inbox[id].(state := target, claimOwner := None, claimToken := None, claimUntil := None)];
      r := Ok(target);
      MethodsKeepValid(Op.Acknowledge(id, consumer, token, outcome, now));
    }

    // ---- Settling with a reply ---------------------------------------------

    method RepeatedResult(row: InRow, reply: Envelope) returns (r: Result<Settled>)
      requires OneSlotEach(outbox)
      ensures r == RepeatAnswer(outbox, row, reply)
    {
      if row.result.None? || row.result.value.key != reply.key {
        return Err(Transition);
      }
      var prior := GetOutboxOperation(reply.target, reply.key);
      if prior.None? || prior.value != row.result.value.id
         || outbox[prior.value].envelope.payloadSha != row.result.value.sha
      {
        return Err(Inconsistent);
      }
      r := Ok(Settled(row.state, EnqueueResult(prior.value, outbox[prior.value].state, true)));
    }

    /** Enqueues the reply, or falls back on an earlier reply to the message. */
    method AuthoritativeReply(id: Id, reply: Envelope) returns (r: Result<(ResultLink, EnqueueResult)>)
      requires OneSlotEach(outbox)
      modifies this`outbox
      ensures match ReplyAuthority(old(outbox), id, reply)
              case Ok(a) => outbox == a.outbox && r == Ok((a.link, a.answer))
              case Err(f) => outbox == old(outbox) && r == Err(f)
    {
      var enqueued := EnqueueEnvelopeRow(reply, Comparison(false, false));
      if enqueued.Ok? {
        return Ok((ResultLink(enqueued.value.id, reply.key, reply.payloadSha), enqueued.value));
      }
      if enqueued.failure != Conflict {
        return Err(enqueued.failure);
      }
      var prior := GetOutboxOperation(reply.target, reply.key);
      if prior.None? {
        return Err(Conflict);
      }
      var row := outbox[prior.value];
      if row.envelope.kind != reply.kind || row.envelope.conversation != reply.conversation
         || row.envelope.causation != Some(id)
      {
        return Err(Conflict);
      }
      if row.state.OutQuarantined? || row.state.OutExpired? {
        return Err(Unavailable);
      }
      r := Ok((ResultLink(prior.value, row.envelope.key, row.envelope.payloadSha),
               EnqueueResult(prior.value, row.state, true)));
    }

    /** The transaction of `SettleInboxWithReply`. */
    method SettleClaimed(id: Id, consumer: string, token: string, outcome: SettleOutcome, reply: Envelope,
                         now: int) returns (r: Result<Settled>)
      requires OneSlotEach(outbox)
      modifies this`outbox, this`inbox
      ensures (Contents(), r) == SettleSpec(old(Contents()), id, consumer, token, outcome, reply, now)
    {
      if !ValidEnvelope(reply) {
        return Err(Invalid);
      }
      if id !in inbox {
        return Err(Transition);
      }
      if inbox[id].state == SettledState(outcome) {
        r := RepeatedResult(inbox[id], reply);
        return;
      }
      if !HoldsClaim(inbox, id, consumer, token, now) {
        return Err(Transition);
      }
      var reached := AuthoritativeReply(id, reply);
      if reached.Err? {
        return Err(reached.failure);
      }
      var (link, answer) := reached.value;
      inbox := inbox[id := inbox[id].(state := SettledState(outcome), claimOwner := None, claimToken := None,
                                      claimUntil := None, result := Some(link))];
      r := Ok(Settled(SettledState(outcome), answer));
    }

    method SettleInboxWithReply(id: Id, consumer: string, token: string, outcome: SettleOutcome, reply: Envelope,
                                now: int) returns (r: Result<Settled>)
      requires Valid()
      modifies this`outbox, this`inbox
      ensures Valid()
      ensures (Contents(), r) == SettleSpec(old(Contents()), id, consumer, token, outcome, reply, now)
      ensures r.Ok? ==> StandsSettled(outbox, inbox, id, outcome, reply, r.value)
    {
      ValidHasOneSlotEach();
      ValidHasTables();
      hide Valid;
      r := SettleClaimed(id, consumer, token, outcome, reply, now);
      SettledStands(old(Contents()), id, consumer, token, outcome, reply, now);
      MethodsKeepValid(Settle(id, consumer, token, outcome, reply, now));
    }

    // ---- Approvals ----------------------------------------------------------

    method ExpireAuthorizationRequests(now: int)
      requires Valid()
      modifies this`requests, this`audit
      ensures Valid()
      ensures Contents() == ExpireSpec(old(Contents()), now)
    {
      hide Valid;
      ExpireLapsed(now);
      MethodsKeepValid(ExpireRequests(now));
    }

    /** The expiry sweep inside a transaction. */
    method ExpireLapsed(now: int)
      modifies this`requests, this`audit
      ensures Contents() == ExpireSpec(old(Contents()), now)
    {
      var rows := LapsingIds(requests, now);
      LapsingIdsExact(requests, now);
      ExpireEach(rows, now);
    }

    method ExpireEach(rows: seq<Id>, now: int)
      requires Distinct(rows) && forall id :: id in rows <==> id in requests && Lapses(requests[id], now)
      modifies this`requests, this`audit
      ensures requests == LapsedRequests(old(requests), now)
      ensures audit == old(audit) + ExpiryEntries(old(requests), rows, now)
    {
      ghost var q := requests;
      for k := 0 to |rows|
        invariant PartlyLapsed(q, requests, rows[..k], now)
        invariant audit == old(audit) + ExpiryEntries(q, rows[..k], now)
      {
        var id := rows[k];
        LapseNext(q, requests, rows, k, now);
        var row := requests[id];
        if Lapses(row, now) {
          requests := requests[id := row.(state := Expired)];
          audit := audit + [ExpiryEntry(row, id, now)];
        }
      }
      AllLapsed(q, requests, rows, now);
    }

    method GetAuthorizationRequestByIdentity(identity: Identity) returns (r: Option<Id>)
      requires OneRequestEach(requests)
      ensures r == FindIdentity(requests, identity)
    {
      if exists id :: id in requests && requests[id].identity == identity {
        var id :| id in requests && requests[id].identity == identity;
        r := Some(id);
      } else {
        r := None;
      }
    }

    method InsertAuthorizationAudit(id: Id, event: AuditEvent, actor: NodeId, p: NodeId, r: string, now: int)
      modifies this`audit
      ensures Contents() == Log(old(Contents()), id, event, actor, p, r, now)
    {
      audit := audit + [AuditEntry(id, event, actor, p, r, now)];
    }

    method ParkClaimForApproval(id: Id)
      requires id in inbox
      modifies this`inbox
      ensures inbox == ParkSpec(old(inbox), id)
    {
      inbox := inbox[id := inbox[id].(state := Quarantined, claimOwner := None, claimToken := None, claimUntil := None)];
    }

    method RequeueAuthorizationRequest(id: Id)
      modifies this`inbox
      ensures inbox == RequeueSpec(old(inbox), id)
    {
      if id in inbox && inbox[id].state.Quarantined? {
        inbox := inbox[id := inbox[id].(state := Available, claimOwner := None, claimToken := None, claimUntil := None)];
      }
    }

    /** The switch over the state of the message's own request. */
    method AccessByOwnRequest(id: Id, r: string, actor: NodeId, now: int) returns (decision: Decision)
      requires id in requests && id in inbox
      modifies this`requests, this`audit, this`inbox
      ensures (Contents(), decision) == OwnRequestSpec(old(Contents()), id, r, actor, now)
    {
      var row := requests[id];
      match row.state
      case AwaitingDecision =>
        ParkClaimForApproval(id);
        decision := ApprovalPending(id);
      case ApprovedOnce =>
        requests := requests[id := row.(state := Consumed)];
        InsertAuthorizationAudit(id, AuditConsumed, actor, inbox[id].envelope.origin, r, now);
        decision := Authorized(OneTimeApproval, Some(id));
      case Consumed =>
        decision := if id in runs then Authorized(SameRequestRecovery, Some(id)) else AccessDenied(Some(id));
      case ApprovedTemporary =>
        decision := if row.expiresAt.Some? && now < row.expiresAt.value
                    then Authorized(TemporaryApproval, Some(id)) else AccessDenied(Some(id));
      case _ =>
        decision := AccessDenied(Some(id));
    }

    method AccessByRequest(id: Id, r: string, actor: NodeId, now: int) returns (decision: Decision)
      requires id in inbox && OneRequestEach(requests)
      modifies this`requests, this`audit, this`inbox
      ensures (Contents(), decision) == ByRequest(old(Contents()), id, r, actor, now)
    {
      var e := inbox[id].envelope;
      var identity := Identity(e.origin, r, e.kind, e.stream, e.key);
      var existing := GetAuthorizationRequestByIdentity(identity);
      if existing.Some? && existing.value != id {
        return DuplicateOf(existing.value);
      }
      if existing.Some? {
        if requests[id].fingerprint != e.payloadSha {
          return DuplicateOf(id);
        }
        decision := AccessByOwnRequest(id, r, actor, now);
        return;
      }
      requests := requests[id := RequestRow(identity, e.payloadSha, e.origin, r, AwaitingDecision, None, None)];
      InsertAuthorizationAudit(id, AuditRequested, actor, e.origin, r, now);
      ParkClaimForApproval(id);
      decision := ApprovalPending(id);
    }

    method AccessByApproval(id: Id, r: string, actor: NodeId, now: int) returns (decision: Decision)
      requires id in inbox && OneRequestEach(requests)
      modifies this`requests, this`audit, this`inbox
      ensures (Contents(), decision) == ByApproval(old(Contents()), id, r, actor, now)
    {
      var p := inbox[id].envelope.origin;
      var temporary := ServingApproval(requests, p, r, now);
      if temporary.Some? {
        InsertAuthorizationAudit(temporary.value, AuditTemporaryUsed, actor, p, r, now);
        return Authorized(TemporaryApproval, temporary);
      }
      decision := AccessByRequest(id, r, actor, now);
    }

    method AccessClaimed(id: Id, resource: string, actor: NodeId, now: int) returns (decision: Decision)
      requires id in inbox && OneRequestEach(requests)
      modifies this`requests, this`audit, this`inbox
      ensures (Contents(), decision) == AccessSpec(old(Contents()), id, resource, actor, now)
    {
      var parsed := ParseResource(resource);
      if !inbox[id].authenticated || parsed.None? {
        return AccessDenied(None);
      }
      var e := inbox[id].envelope;
      if e.payload.project != parsed {
        return AccessDenied(None);
      }
      if parsed.value !in resources || !resources[parsed.value] {
        return AccessDenied(None);
      }
      if Granted(Contents(), e.origin, parsed.value) {
        return Authorized(PersistentGrant, None);
      }
      decision := AccessByApproval(id, parsed.value, actor, now);
    }

    /** The transaction of `AuthorizeClaimedResourceAccess`. */
    method AuthorizeClaim(id: Id, consumer: string, token: string, resource: string, actor: NodeId,
                          now: int) returns (r: Result<Decision>)
      requires OneRequestEach(requests)
      modifies this
      ensures (Contents(), r) == AuthorizeSpec(old(Contents()), id, consumer, token, resource, actor, now)
    {
      var before := Contents();
      ExpireLapsed(now);
      if !HoldsClaim(inbox, id, consumer, token, now) {
        Rollback(before);
        return Err(Transition);
      }
      var decision := AccessClaimed(id, resource, actor, now);
      r := Ok(decision);
    }

    method AuthorizeClaimedResourceAccess(id: Id, consumer: string, token: string, resource: string, actor: NodeId,
                                          now: int) returns (r: Result<Decision>)
      requires Valid()
      modifies this
      ensures Valid()
      ensures (Contents(), r) == AuthorizeSpec(old(Contents()), id, consumer, token, resource, actor, now)
      ensures r.Ok? <==> HoldsClaim(old(inbox), id, consumer, token, now)
      ensures AuthorizeOutcome(old(Contents()), ExpireSpec(old(Contents()), now), Contents(), id, actor, now, r)
    {
      ValidHasOneRequestEach();
      ValidHasRows();
      AuthorizeIsRight(Contents(), id, consumer, token, resource, actor, now);
      hide Valid, AuthorizeSpec, AuthorizeOutcome, ExpireSpec, ApprovalsOk;
      r := AuthorizeClaim(id, consumer, token, resource, actor, now);
      MethodsKeepValid(Authorize(id, consumer, token, resource, actor, now));
    }

    /** The transaction of `DecideAuthorizationRequest`. */
    method DecideRequest(id: Id, v: Verdict, actor: NodeId, now: int) returns (r: Result<RequestState>)
      modifies this
      ensures (Contents(), r) == DecideSpec(old(Contents()), id, v, actor, now)
    {
      if v.Temporarily? && v.until <= now {
        return Err(Transition);
      }
      var before := Contents();
      ExpireLapsed(now);
      if id !in requests {
        Rollback(before);
        return Err(Transition);
      }
      var row := requests[id];
      if row.state == VerdictState(v) {
        return Ok(row.state);
      }
      if !row.state.AwaitingDecision? || row.resource !in resources || !resources[row.resource]
         || (!v.Deny? && Granted(before, row.peer, row.resource))
      {
        Rollback(before);
        return Err(Transition);
      }
      requests := requests[id := DecidedRow(row, v, actor)];
      InsertAuthorizationAudit(id, VerdictEvent(v), actor, row.peer, row.resource, now);
      RequeueAuthorizationRequest(id);
      r := Ok(VerdictState(v));
    }

    method DecideAuthorizationRequest(id: Id, v: Verdict, actor: NodeId, now: int) returns (r: Result<RequestState>)
      requires Valid()
      modifies this
      ensures Valid()
      ensures (Contents(), r) == DecideSpec(old(Contents()), id, v, actor, now)
    {
      hide Valid;
      r := DecideRequest(id, v, actor, now);
      MethodsKeepValid(Decide(id, v, actor, now));
    }

    /** The transaction of `RevokeAuthorizationRequest`. */
    method RevokeApproval(id: Id, actor: NodeId, now: int) returns (r: Result<RequestState>)
      modifies this
      ensures (Contents(), r) == RevokeRequestSpec(old(Contents()), id, actor, now)
    {
      var before := Contents();
      ExpireLapsed(now);
      if id !in requests {
        Rollback(before);
        return Err(Transition);
      }
      var row := requests[id];
      if row.state.Revoked? {
        return Ok(Revoked);
      }
      if !row.state.ApprovedOnce? && !row.state.ApprovedTemporary? {
        Rollback(before);
        return Err(Transition);
      }
      requests := requests[id := RevokedRow(row, actor)];
      InsertAuthorizationAudit(id, AuditRevoked, actor, row.peer, row.resource, now);
      RequeueAuthorizationRequest(id);
      r := Ok(Revoked);
    }

    method RevokeAuthorizationRequest(id: Id, actor: NodeId, now: int) returns (r: Result<RequestState>)
      requires Valid()
      modifies this
      ensures Valid()
      ensures (Contents(), r) == RevokeRequestSpec(old(Contents()), id, actor, now)
    {
      hide Valid;
      r := RevokeApproval(id, actor, now);
      MethodsKeepValid(Op.RevokeRequest(id, actor, now));
    }

    method RegisterResource(resource: string) returns (r: Result<bool>)
      requires Valid()
      modifies this`resources
      ensures Valid()
      ensures (Contents(), r) == RegisterSpec(old(Contents()), resource)
    {
      hide Valid;
      var parsed := ParseResource(resource);
      if parsed.None? {
        return Err(Invalid);
      }
      if parsed.value in resources {
        return Ok(false);
      }
      resources := resources[parsed.value := true];
      r := Ok(true);
      MethodsKeepValid(Register(resource));
    }

    method SetResourceEnabled(resource: string, enabled: bool) returns (r: Result<()>)
      requires Valid()
      modifies this`resources
      ensures Valid()
      ensures (Contents(), r) == SetEnabledSpec(old(Contents()), resource, enabled)
    {
      hide Valid;
      var parsed := ParseResource(resource);
      if parsed.None? {
        return Err(Invalid);
      }
      if parsed.value !in resources {
        return Err(Transition);
      }
      resources := resources[parsed.value := enabled];
      r := Ok(());
      MethodsKeepValid(SetEnabled(resource, enabled));
    }

    method GrantPeerResource(p: NodeId, resource: string) returns (r: Result<()>)
      requires Valid()
      modifies this`grants
      ensures Valid()
      ensures (Contents(), r) == GrantSpec(old(Contents()), p, resource)
    {
      hide Valid;
      var parsed := ParseResource(resource);
      if parsed.None? {
        return Err(Invalid);
      }
      if parsed.value !in resources {
        return Err(Transition);
      }
      if (p, parsed.value) !in grants || !grants[(p, parsed.value)] {
        grants := grants[(p, parsed.value) := true];
      }
      assert grants == old(grants)[(p, parsed.value) := true];
      r := Ok(());
      MethodsKeepValid(Grant(p, resource));
    }

    method RevokeTemporaryApprovals(p: NodeId, resource: string, actor: NodeId, now: int)
      modifies this`requests, this`audit
      ensures requests == PairRevoked(old(requests), p, resource, actor)
      ensures audit == old(audit) + PairEntries(PairIds(old(requests), p, resource), p, resource, actor, now)
    {
      var rows := PairIds(requests, p, resource);
      PairIdsExact(requests, p, resource);
      ghost var q, a := requests, audit;
      for k := 0 to |rows|
        invariant PartlyRevoked(q, requests, rows[..k], actor)
        invariant audit == a + PairEntries(rows[..k], p, resource, actor, now)
      {
        var id := rows[k];
        RevokeNext(q, requests, rows, k, actor);
        requests := requests[id := RevokedRow(requests[id], actor)];
        audit := audit + [AuditEntry(id, AuditRevoked, actor, p, resource, now)];
      }
      assert rows[..|rows|] == rows;
    }

    /** The transaction of `RevokePeerResource`. */
    method RevokeGrantRow(p: NodeId, resource: string, actor: NodeId, now: int) returns (r: Result<()>)
      modifies this`grants, this`requests, this`audit
      ensures (Contents(), r) == RevokeGrantSpec(old(Contents()), p, resource, actor, now)
    {
      var parsed := ParseResource(resource);
      if parsed.None? {
        return Err(Invalid);
      }
      if (p, parsed.value) !in grants {
        return Err(Transition);
      }
      if grants[(p, parsed.value)] {
        grants := grants[(p, parsed.value) := false];
      }
      assert grants == old(grants)[(p, parsed.value) := false];
      RevokeTemporaryApprovals(p, parsed.value, actor, now);
      r := Ok(());
    }

    method RevokePeerResource(p: NodeId, resource: string, actor: NodeId, now: int) returns (r: Result<()>)
      requires Valid()
      modifies this`grants, this`requests, this`audit
      ensures Valid()
      ensures (Contents(), r) == RevokeGrantSpec(old(Contents()), p, resource, actor, now)
    {
      hide Valid;
      r := RevokeGrantRow(p, resource, actor, now);
      MethodsKeepValid(RevokeGrant(p, resource, actor, now));
    }

    // ---- Consultation runs ---------------------------------------------------

    method EnsureConsultationRun(run: ConsultationRun) returns (r: Result<ConsultationRun>)
      requires Valid()
      modifies this`runs
      ensures Valid()
      ensures (runs, r) == EnsureRunSpec(old(runs), run)
    {
      hide Valid;
      var valid := CheckRun(run);
      if !valid {
        return Err(Invalid);
      }
      if run.version != 0 {
        return Err(Transition);
      }
      if run.requestId !in runs {
        runs := runs[run.requestId := run];
        MethodsKeepValid(EnsureRun(run));
        return Ok(run);
      }
      if !SameIdentity(runs[run.requestId], run) {
        return Err(Transition);
      }
      r := Ok(runs[run.requestId]);
    }

    method SaveConsultationRun(run: ConsultationRun, expected: nat) returns (r: Result<ConsultationRun>)
      requires Valid()
      modifies this`runs
      ensures Valid()
      ensures (runs, r) == SaveRunSpec(old(runs), run, expected)
    {
      hide Valid;
      var valid := CheckRun(run);
      if !valid {
        return Err(Invalid);
      }
      if run.version != expected {
        return Err(Transition);
      }
      if run.requestId !in runs || runs[run.requestId].version != expected {
        return Err(Transition);
      }
      var saved := run.(version := expected + 1);
      runs := runs[run.requestId := saved];
      r := Ok(saved);
      MethodsKeepValid(SaveRun(run, expected));
    }

  }

  /** The messages handed to the consumer, in the order they were claimed. */
  ghost predicate HandsClaims(i: Inbox, ids: seq<Id>, tokens: seq<string>, messages: seq<ClaimedMessage>) {
    && |messages| == |ids| <= |tokens|
    && forall k :: 0 <= k < |ids| ==>
         ids[k] in i && messages[k] == ClaimedMessage(i[ids[k]].envelope, tokens[k], i[ids[k]].authenticated)
  }

  lemma ClaimedAreFirst(i: Inbox, i': Inbox, runs: Runs, consumer: string, limit: nat, leaseSeconds: nat,
                        filter: ClaimFilter, now: int, tokens: seq<string>, messages: seq<ClaimedMessage>)
    requires InboxOk(i) && consumer != "" && limit > 0 && leaseSeconds > 0 && limit <= |tokens|
    requires i' == ClaimSpec(i, runs, consumer, limit, leaseSeconds, filter, now, tokens)
    requires HandsClaims(i, ClaimIds(i, filter, runs, limit, now), tokens, messages)
    ensures HandsOutFirst(i, i', runs, consumer, limit, now + 1000 * leaseSeconds, filter, now, messages)
    ensures HandedTokens(messages) <= tokens
  {
    hide ClaimSpec, ClaimIds, ClaimOutcome, HandsOutFirst, InboxOk;
    ClaimIsRight(i, runs, consumer, limit, leaseSeconds, filter, now, tokens);
    ClaimHandsOutFirst(i, i', runs, consumer, limit, now + 1000 * leaseSeconds, filter, now,
                       ClaimIds(i, filter, runs, limit, now), tokens, messages);
  }

  lemma SweepKeepsHands(o: Outbox, ids: seq<Id>, now: int, messages: seq<LeasedMessage>)
    requires Hands(Swept(o, now), ids, messages)
    ensures Hands(o, ids, messages)
  {
  }

  lemma LapseKeepsHands(i: Inbox, ids: seq<Id>, tokens: seq<string>, now: int, messages: seq<ClaimedMessage>)
    requires HandsClaims(LapsedClaims(i, now), ids, tokens, messages)
    ensures HandsClaims(i, ids, tokens, messages)
  {
  }

  lemma PickedArePending(o: Outbox, limit: nat, now: int)
    ensures var ids, w := LeaseIds(o, limit, now), Swept(o, now);
      Distinct(ids) && forall k :: 0 <= k < |ids| ==> ids[k] in w && w[ids[k]].state.Pending?
  {
    LeasePicksDueRows(o, limit, now);
  }

  lemma PickedAreAvailable(i: Inbox, filter: ClaimFilter, runs: Runs, limit: nat, now: int)
    ensures var ids, w := ClaimIds(i, filter, runs, limit, now), LapsedClaims(i, now);
      && Distinct(ids) && |ids| <= limit
      && forall k :: 0 <= k < |ids| ==> ids[k] in w && w[ids[k]].state.Available?
  {
    ClaimPicksClaimableRows(i, filter, runs, limit, now);
  }

  // ---- Partly swept requests -------------------------------------------------

  ghost predicate PartlyLapsed(q: Requests, q': Requests, done: seq<Id>, now: int) {
    && q'.Keys == q.Keys && (forall id :: id in done ==> id in q)
    && forall id :: id in q ==> q'[id] == if id in done then LapseRequest(q[id], now) else q[id]
  }

  lemma LapseNext(q: Requests, q': Requests, rows: seq<Id>, k: nat, now: int)
    requires k < |rows| && Distinct(rows) && PartlyLapsed(q, q', rows[..k], now)
    requires rows[k] in q && Lapses(q[rows[k]], now)
    ensures q'[rows[k]] == q[rows[k]]
    ensures PartlyLapsed(q, q'[rows[k] := LapseRequest(q[rows[k]], now)], rows[..k + 1], now)
    ensures ExpiryEntries(q, rows[..k + 1], now)
            == ExpiryEntries(q, rows[..k], now) + [ExpiryEntry(q[rows[k]], rows[k], now)]
  {
    assert rows[..k + 1] == rows[..k] + [rows[k]] && rows[k] !in rows[..k];
  }

  lemma AllLapsed(q: Requests, q': Requests, rows: seq<Id>, now: int)
    requires PartlyLapsed(q, q', rows[..|rows|], now)
    requires forall id :: id in rows <==> id in q && Lapses(q[id], now)
    ensures q' == LapsedRequests(q, now) && rows[..|rows|] == rows
  {
  }

  ghost predicate PartlyRevoked(q: Requests, q': Requests, done: seq<Id>, actor: NodeId) {
    && q'.Keys == q.Keys && (forall id :: id in done ==> id in q)
    && forall id :: id in q ==> q'[id] == if id in done then RevokedRow(q[id], actor) else q[id]
  }

  lemma RevokeNext(q: Requests, q': Requests, rows: seq<Id>, k: nat, actor: NodeId)
    requires k < |rows| && Distinct(rows) && PartlyRevoked(q, q', rows[..k], actor) && rows[k] in q
    ensures q'[rows[k]] == q[rows[k]]
    ensures PartlyRevoked(q, q'[rows[k] := RevokedRow(q[rows[k]], actor)], rows[..k + 1], actor)
    ensures forall p, r, now ::
              PairEntries(rows[..k + 1], p, r, actor, now)
              == PairEntries(rows[..k], p, r, actor, now) + [AuditEntry(rows[k], AuditRevoked, actor, p, r, now)]
  {
    assert rows[..k + 1] == rows[..k] + [rows[k]] && rows[k] !in rows[..k];
  }
}
