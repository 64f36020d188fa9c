/** The audit over whole runs: it counts every answer that rests on an approval, and each of
    its entries describes the request it belongs to. */
module Ledgers {
  import opened Envelopes
  import opened Tables
  import opened Text
  import opened InboxTable
  import opened Approvals
  import opened ApprovalRules
  import opened AuditTrail
  import opened Operations
  import opened ApprovalOutcomes

  // ---- One entry for each answer -----------------------------------------------------

  /** The decision is the answer that this event stands for. */
  predicate Records(decision: Decision, a: Id, event: AuditEvent) {
    match event
    case AuditTemporaryUsed => decision == Authorized(TemporaryApproval, Some(a))
    case AuditConsumed => decision == Authorized(OneTimeApproval, Some(a))
    case AuditRequested => decision == ApprovalPending(a)
    case _ => false
  }

  /** The operation is answered so. */
  ghost predicate Answers(d: Database, op: Op, a: Id, event: AuditEvent) {
    && op.Authorize?
    && var r := AuthorizeSpec(d, op.id, op.consumer, op.token, op.resource, op.actor, op.now).1;
       r.Ok? && Records(r.value, a, event)
  }

  predicate OfAccess(event: AuditEvent) {
    event.AuditTemporaryUsed? || event.AuditConsumed? || event.AuditRequested?
  }

  /** How often an event was entered for a request. */
  function Entered(audit: seq<AuditEntry>, a: Id, event: AuditEvent): nat {
    multiset(EventsOf(audit, a))[event]
  }

  /** How many operations of a run were answered so. */
  ghost function TimesAnswered(ops: seq<Op>, a: Id, event: AuditEvent): nat {
    if ops == [] then 0
    else
      var before := ops[..|ops| - 1];
      TimesAnswered(before, a, event)
      + if Answers(Run(EmptyDatabase(), before), ops[|ops| - 1], a, event) then 1 else 0
  }

  lemma EnteredConcat(audit: seq<AuditEntry>, added: seq<AuditEntry>, a: Id, event: AuditEvent)
    ensures Entered(audit + added, a, event) == Entered(audit, a, event) + Entered(added, a, event)
  {
    EventsOfConcat(audit, added, a);
  }

  lemma EnteredAppend(audit: seq<AuditEntry>, entry: AuditEntry, a: Id, event: AuditEvent)
    ensures Entered(audit + [entry], a, event)
            == Entered(audit, a, event) + if entry.requestId == a && entry.event == event then 1 else 0
  {
    EventsOfAppend(audit, entry, a);
  }

  lemma {:induction false} NoneEntered(added: seq<AuditEntry>, a: Id, event: AuditEvent)
    requires forall k :: 0 <= k < |added| ==> added[k].event != event
    ensures Entered(added, a, event) == 0
  {
    if added != [] {
      NoneEntered(added[..|added| - 1], a, event);
    }
  }

  /** Entries of other kinds do not count. */
  lemma OthersDoNotCount(audit: seq<AuditEntry>, audit': seq<AuditEntry>, a: Id, event: AuditEvent)
    requires audit <= audit' && forall k :: |audit| <= k < |audit'| ==> audit'[k].event != event
    ensures Entered(audit', a, event) == Entered(audit, a, event)
  {
    var added := audit'[|audit|..];
    assert audit' == audit + added;
    EnteredConcat(audit, added, a, event);
    NoneEntered(added, a, event);
  }

  lemma ExpiryDoesNotCount(d: Database, x: Database, now: int, a: Id, event: AuditEvent)
    requires ExpiryOutcome(d, x, now) && OfAccess(event)
    ensures Entered(x.audit, a, event) == Entered(d.audit, a, event)
  {
    var added := x.audit[|d.audit|..];
    forall k | |d.audit| <= k < |x.audit| ensures x.audit[k].event != event {
      assert x.audit[k] == added[k - |d.audit|];
    }
    OthersDoNotCount(d.audit, x.audit, a, event);
  }

  /** An answer from a temporary approval is entered once, as its use; so is the use of a
      one-time approval and a new request. */
  lemma UseIsEntered(d: Database, op: Op, a: Id, event: AuditEvent)
    requires ApprovalsOk(d) && op.Authorize? && OfAccess(event) && Answers(d, op, a, event)
    ensures var d' := AuthorizeSpec(d, op.id, op.consumer, op.token, op.resource, op.actor, op.now).0;
      var e := d.inbox[op.id].envelope;
      && op.id in d.inbox && e.payload.project.Some?
      && d'.audit == ExpireSpec(d, op.now).audit
                     + [AuditEntry(a, event, op.actor, e.origin, e.payload.project.value, op.now)]
      && EventsOf(d'.audit, a) == EventsOf(ExpireSpec(d, op.now).audit, a) + [event]
  {
    hide AuthorizeSpec, ExpireSpec, AccessOutcome, ExpiryOutcome, ApprovalsOk, EventsOf, HoldsClaim;
    var (d', r) := AuthorizeSpec(d, op.id, op.consumer, op.token, op.resource, op.actor, op.now);
    var x := ExpireSpec(d, op.now);
    AuthorizeIsRight(d, op.id, op.consumer, op.token, op.resource, op.actor, op.now);
    SweepKeepsInbox(d, x, op.now);
    AccessEnters(x, d', op.id, op.actor, op.now, r.value, a, event);
    EventsOfAppend(x.audit, d'.audit[|x.audit|], a);
  }

  lemma AccessEnters(x: Database, d': Database, id: Id, actor: NodeId, now: int, decision: Decision, a: Id,
                     event: AuditEvent)
    requires id in x.inbox && AccessOutcome(x, d', id, actor, now, decision) && Records(decision, a, event)
    ensures var e := x.inbox[id].envelope;
      e.payload.project.Some?
      && d'.audit == x.audit + [AuditEntry(a, event, actor, e.origin, e.payload.project.value, now)]
  {
  }

  lemma AccessCounts(x: Database, d': Database, id: Id, actor: NodeId, now: int, decision: Decision, a: Id,
                     event: AuditEvent)
    requires id in x.inbox && AccessOutcome(x, d', id, actor, now, decision) && OfAccess(event)
    ensures Entered(d'.audit, a, event) == Entered(x.audit, a, event) + if Records(decision, a, event) then 1 else 0
  {
    if d'.audit != x.audit {
      var entry := d'.audit[|d'.audit| - 1];
      EnteredAppend(x.audit, entry, a, event);
    }
  }

  lemma AuthorizeCounts(d: Database, op: Op, a: Id, event: AuditEvent)
    requires ApprovalsOk(d) && op.Authorize? && OfAccess(event)
    ensures var d' := AuthorizeSpec(d, op.id, op.consumer, op.token, op.resource, op.actor, op.now).0;
      Entered(d'.audit, a, event) == Entered(d.audit, a, event) + if Answers(d, op, a, event) then 1 else 0
  {
    hide AuthorizeSpec, ExpireSpec, AccessOutcome, ExpiryOutcome;
    var (d', r) := AuthorizeSpec(d, op.id, op.consumer, op.token, op.resource, op.actor, op.now);
    AuthorizeIsRight(d, op.id, op.consumer, op.token, op.resource, op.actor, op.now);
    if r.Ok? {
      var x := ExpireSpec(d, op.now);
      ExpiryDoesNotCount(d, x, op.now, a, event);
      SweepKeepsInbox(d, x, op.now);
      AccessCounts(x, d', op.id, op.actor, op.now, r.value, a, event);
    }
  }

  lemma SweepKeepsInbox(d: Database, x: Database, now: int)
    requires ExpiryOutcome(d, x, now)
    ensures x.inbox == d.inbox
  {
  }

  lemma DecideCounts(d: Database, op: Op, a: Id, event: AuditEvent)
    requires ApprovalsOk(d) && op.Decide? && OfAccess(event)
    ensures Entered(DecideSpec(d, op.id, op.verdict, op.actor, op.now).0.audit, a, event) == Entered(d.audit, a, event)
  {
    hide ExpireSpec, ExpiryOutcome, ApprovalsOk, CanDecide;
    var x := ExpireSpec(d, op.now);
    ExpiryIsRight(d, op.now);
    ExpiryDoesNotCount(d, x, op.now, a, event);
    var d' := DecideSpec(d, op.id, op.verdict, op.actor, op.now).0;
    if d' != d && d' != x {
      EnteredAppend(x.audit, d'.audit[|d'.audit| - 1], a, event);
    }
  }

  lemma RevokeCounts(d: Database, op: Op, a: Id, event: AuditEvent)
    requires ApprovalsOk(d) && op.RevokeRequest? && OfAccess(event)
    ensures Entered(RevokeRequestSpec(d, op.id, op.actor, op.now).0.audit, a, event) == Entered(d.audit, a, event)
  {
    hide ExpireSpec, ExpiryOutcome, ApprovalsOk;
    var x := ExpireSpec(d, op.now);
    ExpiryIsRight(d, op.now);
    ExpiryDoesNotCount(d, x, op.now, a, event);
    var d' := RevokeRequestSpec(d, op.id, op.actor, op.now).0;
    if d' != d && d' != x {
      EnteredAppend(x.audit, d'.audit[|d'.audit| - 1], a, event);
    }
  }

  lemma RevokeGrantCounts(d: Database, op: Op, a: Id, event: AuditEvent)
    requires op.RevokeGrant? && OfAccess(event)
    ensures Entered(RevokeGrantSpec(d, op.peer, op.resource, op.actor, op.now).0.audit, a, event)
            == Entered(d.audit, a, event)
  {
    RevokeGrantIsRight(d, op.peer, op.resource, op.actor, op.now);
    var d' := RevokeGrantSpec(d, op.peer, op.resource, op.actor, op.now).0;
    if d' != d {
      var added := d'.audit[|d.audit|..];
      forall k | |d.audit| <= k < |d'.audit| ensures d'.audit[k].event != event {
        assert d'.audit[k] == added[k - |d.audit|];
      }
      OthersDoNotCount(d.audit, d'.audit, a, event);
    }
  }

  lemma ApprovalStepCounts(d: Database, op: Op, a: Id, event: AuditEvent)
    requires ApprovalsOk(d) && OfAccess(event)
    ensures Entered(ApprovalStep(d, op).audit, a, event)
            == Entered(d.audit, a, event) + if Answers(d, op, a, event) then 1 else 0
  {
    hide AuthorizeSpec, DecideSpec, RevokeRequestSpec, RevokeGrantSpec, ExpireSpec, ApprovalsOk, Entered, ExpiryOutcome;
    match op
    case Authorize(_, _, _, _, _, _) => AuthorizeCounts(d, op, a, event);
    case Decide(_, _, _, _) => DecideCounts(d, op, a, event);
    case RevokeRequest(_, _, _) => RevokeCounts(d, op, a, event);
    case RevokeGrant(_, _, _, _) => RevokeGrantCounts(d, op, a, event);
    case ExpireRequests(now) =>
      ExpiryIsRight(d, now);
      ExpiryDoesNotCount(d, ExpireSpec(d, now), now, a, event);
    case _ =>
  }

  lemma OthersLeaveAudit(d: Database, op: Op)
    requires !GroupOf(op).OnApprovals?
    ensures Step(d, op).audit == d.audit
  {
    hide OutboxStep, InboxStep, ApprovalStep, RunStep;
    if op.Settle? {
      SettleKeepsParked(d, op.id, op.consumer, op.token, op.outcome, op.reply, op.now);
    }
  }

  lemma StepCounts(d: Database, op: Op, a: Id, event: AuditEvent)
    requires ApprovalsOk(d) && OfAccess(event)
    ensures Entered(Step(d, op).audit, a, event)
            == Entered(d.audit, a, event) + if Answers(d, op, a, event) then 1 else 0
  {
    hide AuthorizeSpec, ApprovalStep, Entered, ApprovalsOk;
    if GroupOf(op).OnApprovals? {
      ApprovalStepCounts(d, op, a, event);
    } else {
      OthersLeaveAudit(d, op);
    }
  }

  /** After every run the audit holds one "temporary_used" of an approval for each time it was
      the answer, one "consumed" for each use of a one-time approval, and one "requested" for
      each new request. */
  lemma {:induction false} AuditCountsAnswers(ops: seq<Op>, a: Id, event: AuditEvent)
    requires OfAccess(event)
    ensures Entered(Run(EmptyDatabase(), ops).audit, a, event) == TimesAnswered(ops, a, event)
  {
    hide Step, Answers;
    if ops != [] {
      var before := ops[..|ops| - 1];
      AuditCountsAnswers(before, a, event);
      EveryRunIsOk(before);
      StepCounts(Run(EmptyDatabase(), before), ops[|ops| - 1], a, event);
    }
  }

  // ---- Each entry describes its request --------------------------------------------------

  predicate Describes(entry: AuditEntry, q: Requests) {
    entry.requestId in q && entry.peer == q[entry.requestId].peer && entry.resource == q[entry.requestId].resource
  }

  /** Nothing is taken out of the audit or the requests, no request changes its peer or its
      resource, and what is entered now describes its request. */
  ghost predicate Extends(d: Database, d': Database, now: int) {
    && d.audit <= d'.audit
    && (forall id :: id in d.requests ==>
          && id in d'.requests && d'.requests[id].peer == d.requests[id].peer
          && d'.requests[id].resource == d.requests[id].resource)
    && (forall k :: |d.audit| <= k < |d'.audit| ==> d'.audit[k].at == now && Describes(d'.audit[k], d'.requests))
  }

  lemma ExtendsTransitive(d: Database, x: Database, d': Database, now: int)
    requires Extends(d, x, now) && Extends(x, d', now)
    ensures Extends(d, d', now)
  {
    forall k | |d.audit| <= k < |d'.audit| ensures d'.audit[k].at == now && Describes(d'.audit[k], d'.requests) {
      if k < |x.audit| {
        assert d'.audit[k] == x.audit[k];
      }
    }
  }

  lemma ExpiryExtends(d: Database, x: Database, now: int)
    requires ExpiryOutcome(d, x, now)
    ensures Extends(d, x, now)
  {
    var added := x.audit[|d.audit|..];
    forall k | |d.audit| <= k < |x.audit| ensures x.audit[k].at == now && Describes(x.audit[k], x.requests) {
      assert x.audit[k] == added[k - |d.audit|];
    }
  }

  lemma UseExtends(x: Database, d': Database, a: Id, p: NodeId, r: string, actor: NodeId, now: int)
    requires UsesTemporary(x, d', a, p, r, actor, now)
    ensures Extends(x, d', now)
  {
  }

  lemma ConsumptionExtends(x: Database, d': Database, id: Id, p: NodeId, r: string, actor: NodeId, now: int)
    requires UsesUp(x, d', id, p, r, actor, now) && x.requests[id].peer == p && x.requests[id].resource == r
    ensures Extends(x, d', now)
  {
  }

  lemma OpeningExtends(x: Database, d': Database, id: Id, r: string, actor: NodeId, now: int)
    requires id in x.inbox && OpensRequest(x, d', id, r, actor, now)
    ensures Extends(x, d', now)
  {
  }

  lemma AccessExtends(x: Database, d': Database, id: Id, actor: NodeId, now: int, decision: Decision)
    requires RequestsMatch(x.requests, x.inbox) && id in x.inbox && AccessOutcome(x, d', id, actor, now, decision)
    ensures Extends(x, d', now)
  {
    hide Extends, UsesTemporary, OpensRequest, RequestsMatch;
    var e := x.inbox[id].envelope;
    var r := if e.payload.project.Some? then e.payload.project.value else "";
    match decision
    case Authorized(TemporaryApproval, a) => UseExtends(x, d', a.value, e.origin, r, actor, now);
    case Authorized(OneTimeApproval, _) =>
      RequestMatches(x, id);
      ConsumptionExtends(x, d', id, e.origin, r, actor, now);
    case ApprovalPending(_) => OpeningExtends(x, d', id, r, actor, now);
    case _ => NothingExtends(x, now);
  }

  lemma RequestMatches(x: Database, id: Id)
    requires RequestsMatch(x.requests, x.inbox) && id in x.requests
    ensures id in x.inbox && RequestOk(x.requests[id], x.inbox[id])
  {
  }

  lemma AuthorizeExtends(d: Database, op: Op)
    requires ApprovalsOk(d) && op.Authorize?
    ensures Extends(d, AuthorizeSpec(d, op.id, op.consumer, op.token, op.resource, op.actor, op.now).0, op.now)
  {
    hide AuthorizeSpec, ExpireSpec, AccessOutcome, ExpiryOutcome, AuditOk, RequestsMatch;
    var (d', r) := AuthorizeSpec(d, op.id, op.consumer, op.token, op.resource, op.actor, op.now);
    AuthorizeIsRight(d, op.id, op.consumer, op.token, op.resource, op.actor, op.now);
    if r.Ok? {
      var x := ExpireSpec(d, op.now);
      ExpiryExtends(d, x, op.now);
      ExpireKeeps(d, op.now);
      SweepKeepsInbox(d, x, op.now);
      AccessExtends(x, d', op.id, op.actor, op.now, r.value);
      ExtendsTransitive(d, x, d', op.now);
    }
  }

  lemma SettleExtends(x: Database, id: Id, row: RequestRow, event: AuditEvent, actor: NodeId, now: int)
    requires id in x.requests && row.peer == x.requests[id].peer && row.resource == x.requests[id].resource
    ensures Extends(x, Approvals.Settle(x, id, row, event, actor, now), now)
  {
  }

  lemma DecideExtends(d: Database, op: Op)
    requires ApprovalsOk(d) && op.Decide?
    ensures Extends(d, DecideSpec(d, op.id, op.verdict, op.actor, op.now).0, op.now)
  {
    hide ExpireSpec, ExpiryOutcome, ApprovalsOk, CanDecide, Approvals.Settle, Extends;
    var x := ExpireSpec(d, op.now);
    ExpiryIsRight(d, op.now);
    ExpiryExtends(d, x, op.now);
    NothingExtends(d, op.now);
    if op.id in x.requests {
      var row := DecidedRow(x.requests[op.id], op.verdict, op.actor);
      SettleExtends(x, op.id, row, VerdictEvent(op.verdict), op.actor, op.now);
      ExtendsTransitive(d, x, Approvals.Settle(x, op.id, row, VerdictEvent(op.verdict), op.actor, op.now), op.now);
    }
  }

  lemma NothingExtends(d: Database, now: int)
    ensures Extends(d, d, now)
  {
  }

  lemma RevokeExtends(d: Database, op: Op)
    requires ApprovalsOk(d) && op.RevokeRequest?
    ensures Extends(d, RevokeRequestSpec(d, op.id, op.actor, op.now).0, op.now)
  {
    hide ExpireSpec, ExpiryOutcome, ApprovalsOk, Approvals.Settle, Extends;
    var x := ExpireSpec(d, op.now);
    ExpiryIsRight(d, op.now);
    ExpiryExtends(d, x, op.now);
    NothingExtends(d, op.now);
    if op.id in x.requests {
      var row := RevokedRow(x.requests[op.id], op.actor);
      SettleExtends(x, op.id, row, AuditEvent.AuditRevoked, op.actor, op.now);
      ExtendsTransitive(d, x, Approvals.Settle(x, op.id, row, AuditEvent.AuditRevoked, op.actor, op.now), op.now);
    }
  }

  lemma RevokeGrantExtends(d: Database, op: Op)
    requires op.RevokeGrant?
    ensures Extends(d, RevokeGrantSpec(d, op.peer, op.resource, op.actor, op.now).0, op.now)
  {
    RevokeGrantIsRight(d, op.peer, op.resource, op.actor, op.now);
    var d' := RevokeGrantSpec(d, op.peer, op.resource, op.actor, op.now).0;
    if d' != d {
      var added := d'.audit[|d.audit|..];
      forall k | |d.audit| <= k < |d'.audit| ensures d'.audit[k].at == op.now && Describes(d'.audit[k], d'.requests) {
        assert d'.audit[k] == added[k - |d.audit|];
      }
    }
  }

  lemma ApprovalStepExtends(d: Database, op: Op, t: int)
    requires ApprovalsOk(d) && GroupOf(op).OnApprovals?
    ensures Extends(d, ApprovalStep(d, op), ClockAfter(t, op))
  {
    hide AuthorizeSpec, DecideSpec, RevokeRequestSpec, RevokeGrantSpec, ExpireSpec, ApprovalsOk, ExpiryOutcome;
    match op
    case Authorize(_, _, _, _, _, _) => AuthorizeExtends(d, op);
    case Decide(_, _, _, _) => DecideExtends(d, op);
    case RevokeRequest(_, _, _) => RevokeExtends(d, op);
    case RevokeGrant(_, _, _, _) => RevokeGrantExtends(d, op);
    case ExpireRequests(now) =>
      ExpiryIsRight(d, now);
      ExpiryExtends(d, ExpireSpec(d, now), now);
    case _ =>
  }

  lemma OthersLeaveRequests(d: Database, op: Op)
    requires !GroupOf(op).OnApprovals?
    ensures Step(d, op).requests == d.requests
  {
    hide OutboxStep, InboxStep, ApprovalStep, RunStep;
    if op.Settle? {
      SettleKeepsParked(d, op.id, op.consumer, op.token, op.outcome, op.reply, op.now);
    }
  }

  lemma StepExtends(d: Database, op: Op, t: int)
    requires ApprovalsOk(d)
    ensures Extends(d, Step(d, op), ClockAfter(t, op))
  {
    hide ApprovalStep, ApprovalsOk;
    if GroupOf(op).OnApprovals? {
      ApprovalStepExtends(d, op, t);
    } else {
      OthersLeaveAudit(d, op);
      OthersLeaveRequests(d, op);
    }
  }

  /** After every run each audit entry names the peer and the resource of its request, and the
      entries stand in the order of their times, none of them in the future. */
  lemma {:induction false} AuditDescribesRequests(start: int, ops: seq<Op>)
    requires WellTimed(start, ops)
    ensures var d := Run(EmptyDatabase(), ops);
      && (forall k :: 0 <= k < |d.audit| ==> Describes(d.audit[k], d.requests) && d.audit[k].at <= Clock(start, ops))
      && (forall j, k :: 0 <= j < k < |d.audit| ==> d.audit[j].at <= d.audit[k].at)
  {
    hide Step, Describes;
    if ops != [] {
      var before, op := ops[..|ops| - 1], ops[|ops| - 1];
      var d := Run(EmptyDatabase(), before);
      AuditDescribesRequests(start, before);
      EveryRunIsOk(before);
      StepExtends(d, op, Clock(start, before));
      EarlierEntriesStay(d, Step(d, op), Clock(start, ops));
    }
  }

  lemma EarlierEntriesStay(d: Database, d': Database, now: int)
    requires Extends(d, d', now)
    requires forall k :: 0 <= k < |d.audit| ==> Describes(d.audit[k], d.requests) && d.audit[k].at <= now
    requires forall j, k :: 0 <= j < k < |d.audit| ==> d.audit[j].at <= d.audit[k].at
    ensures forall k :: 0 <= k < |d'.audit| ==> Describes(d'.audit[k], d'.requests) && d'.audit[k].at <= now
    ensures forall j, k :: 0 <= j < k < |d'.audit| ==> d'.audit[j].at <= d'.audit[k].at
  {
    forall k | 0 <= k < |d'.audit| ensures Describes(d'.audit[k], d'.requests) && d'.audit[k].at <= now {
      if k < |d.audit| {
        assert d'.audit[k] == d.audit[k];
      }
    }
  }
}
