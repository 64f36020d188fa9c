/** Claim tokens fence the inbox: a token changes the tables only while its
    claim is live, and a claim that has ended never comes back. */
module Fencing {
  import opened Envelopes
  import opened Tables
  import opened InboxTable
  import opened Settlement
  import opened Approvals
  import opened Operations

  /** The operations that present a claim token. */
  predicate Presents(op: Op, id: Id, consumer: string, token: string) {
    match op
    case Renew(i, c, t, _, _) => i == id && c == consumer && t == token
    case Acknowledge(i, c, t, _, _) => i == id && c == consumer && t == token
    case Settle(i, c, t, _, _, _) => i == id && c == consumer && t == token
    case Authorize(i, c, t, _, _, _) => i == id && c == consumer && t == token
    case _ => false
  }

  lemma DeadTokenChangesNothing(d: Database, op: Op, id: Id, consumer: string, token: string)
    requires Presents(op, id, consumer, token)
    requires !HoldsClaim(d.inbox, id, consumer, token, TimeOf(op).value)
    ensures Step(d, op) == d
  {
  }

  // ---- Dead claims stay dead ----------------------------------------------

  lemma ClaimingRevivesNothing(i: Inbox, runs: Runs, op: Op, id: Id, consumer: string, token: string, t: int)
    requires op.Claim? && t <= op.now && token !in op.tokens
    requires HoldsClaim(InboxStep(i, runs, op), id, consumer, token, op.now)
    ensures HoldsClaim(i, id, consumer, token, t)
  {
    if ClaimArguments(op.consumer, op.limit, op.leaseSeconds)
       && |ClaimIds(i, op.filter, runs, op.limit, op.now)| <= |op.tokens|
    {
      var w, ids := LapsedClaims(i, op.now), ClaimIds(i, op.filter, runs, op.limit, op.now);
      ClaimPicksClaimableRows(i, op.filter, runs, op.limit, op.now);
      ClaimRowsPointwise(w, ids, op.tokens, op.consumer, op.now + 1000 * op.leaseSeconds);
      assert id !in ids;
    }
  }

  lemma InboxRevivesNothing(d: Database, op: Op, id: Id, consumer: string, token: string, t: int)
    requires GroupOf(op).OnInbox? && t <= ClockAfter(t, op) && (op.Claim? ==> token !in op.tokens)
    requires HoldsClaim(Step(d, op).inbox, id, consumer, token, ClockAfter(t, op))
    ensures HoldsClaim(d.inbox, id, consumer, token, t)
  {
    if op.Claim? {
      ClaimingRevivesNothing(d.inbox, d.runs, op, id, consumer, token, t);
    }
  }

  lemma ApprovalsReviveNothing(d: Database, op: Op, id: Id, consumer: string, token: string, t: int)
    requires GroupOf(op).OnApprovals? && t <= ClockAfter(t, op)
    requires HoldsClaim(Step(d, op).inbox, id, consumer, token, ClockAfter(t, op))
    ensures HoldsClaim(d.inbox, id, consumer, token, t)
  {
    ApprovalStepMoves(d, op);
  }

  lemma SettlingRevivesNothing(d: Database, op: Op, id: Id, consumer: string, token: string, t: int)
    requires op.Settle? && t <= op.now
    requires HoldsClaim(Step(d, op).inbox, id, consumer, token, op.now)
    ensures HoldsClaim(d.inbox, id, consumer, token, t)
  {
    SettleMoves(d, op.id, op.consumer, op.token, op.outcome, op.reply, op.now);
  }

  /** No operation brings a claim back to life: a claim that holds afterwards
      held before, unless the operation itself drew the token. */
  lemma NothingRevives(d: Database, op: Op, id: Id, consumer: string, token: string, t: int)
    requires t <= ClockAfter(t, op) && (op.Claim? ==> token !in op.tokens)
    requires HoldsClaim(Step(d, op).inbox, id, consumer, token, ClockAfter(t, op))
    ensures HoldsClaim(d.inbox, id, consumer, token, t)
  {
    match GroupOf(op)
    case OnInbox => InboxRevivesNothing(d, op, id, consumer, token, t);
    case OnApprovals => ApprovalsReviveNothing(d, op, id, consumer, token, t);
    case OnBoth => SettlingRevivesNothing(d, op, id, consumer, token, t);
    case _ => assert Step(d, op).inbox == d.inbox;
  }

  predicate NeverDrawn(ops: seq<Op>, token: string) {
    forall k :: 0 <= k < |ops| && ops[k].Claim? ==> token !in ops[k].tokens
  }

  lemma {:induction false} EndedStaysEnded(d: Database, ops: seq<Op>, id: Id, consumer: string, token: string, t: int)
    requires WellTimed(t, ops) && NeverDrawn(ops, token)
    requires !HoldsClaim(d.inbox, id, consumer, token, t)
    ensures !HoldsClaim(Run(d, ops).inbox, id, consumer, token, Clock(t, ops))
  {
    hide Step;
    if ops != [] {
      var before := ops[..|ops| - 1];
      EndedStaysEnded(d, before, id, consumer, token, t);
      if HoldsClaim(Run(d, ops).inbox, id, consumer, token, Clock(t, ops)) {
        NothingRevives(Run(d, before), ops[|ops| - 1], id, consumer, token, Clock(t, before));
        assert false;
      }
    }
  }

  /** Fencing, over every run: once a claim has ended, no operation presenting
      its token ever changes the database again. */
  lemma EndedClaimChangesNothing(d: Database, ops: seq<Op>, op: Op, id: Id, consumer: string, token: string, t: int)
    requires !HoldsClaim(d.inbox, id, consumer, token, t)
    requires WellTimed(t, ops) && NeverDrawn(ops, token)
    requires Presents(op, id, consumer, token) && Clock(t, ops) <= TimeOf(op).value
    ensures Step(Run(d, ops), op) == Run(d, ops)
  {
    hide Step;
    EndedStaysEnded(d, ops, id, consumer, token, t);
    DeadTokenChangesNothing(Run(d, ops), op, id, consumer, token);
  }

  // ---- What ends a claim ----------------------------------------------------

  /** Nobody takes a message over while its claim is live. */
  lemma LiveClaimIsNotTakenOver(i: Inbox, id: Id, consumer: string, token: string, now: int,
                                filter: ClaimFilter, runs: Runs, limit: nat)
    requires HoldsClaim(i, id, consumer, token, now)
    ensures id !in ClaimIds(i, filter, runs, limit, now)
  {
    ClaimPicksClaimableRows(i, filter, runs, limit, now);
  }

  /** The claim was given up, used up, or interrupted. */
  ghost predicate Ends(d: Database, op: Op, id: Id, now: int) {
    match op
    case Acknowledge(i, c, t, ack, at) => i == id && at == now && AcknowledgeSpec(d.inbox, i, c, t, ack, at).1.Ok?
    case Settle(i, c, t, outcome, reply, at) =>
      i == id && at == now && SettleSpec(d, i, c, t, outcome, reply, at).1.Ok?
    case Authorize(i, c, t, resource, actor, at) =>
      && i == id && at == now
      && var r := AuthorizeSpec(d, i, c, t, resource, actor, at).1; r.Ok? && r.value.ApprovalPending?
    case Persist(e, count, at, authenticated) =>
      && e.id == id && at == now && id in d.inbox && d.inbox[id].envelope.origin == e.origin
      && PersistSpec(d.inbox, e, count, at, authenticated).1 == Ok(Collision)
    case _ => false
  }

  lemma EndingOperationEnds(d: Database, op: Op, id: Id, consumer: string, token: string, now: int)
    requires HoldsClaim(d.inbox, id, consumer, token, now) && Ends(d, op, id, now)
    ensures !HoldsClaim(Step(d, op).inbox, id, consumer, token, now)
  {
    match op
    case Authorize(_, _, _, resource, actor, _) => ParkingEnds(d, ExpireSpec(d, now), id, resource, actor, now);
    case _ =>
  }

  lemma ParkingEnds(d: Database, x: Database, id: Id, resource: string, actor: NodeId, now: int)
    requires id in x.inbox && AccessSpec(x, id, resource, actor, now).1.ApprovalPending?
    ensures var i := AccessSpec(x, id, resource, actor, now).0.inbox; id in i && i[id].state.Quarantined?
  {
  }
}
