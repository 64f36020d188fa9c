/** What the invariant means for every run of one database. */
module Guarantees {
  import opened Envelopes
  import opened Tables
  import opened OutboxTable
  import opened InboxTable
  import opened Settlement
  import opened Approvals
  import opened ApprovalRules
  import opened AuditTrail
  import opened Operations

  /** Outbox promises are never taken back: what was accepted for a target and key
      stays accepted, envelope and all, whatever operations follow. */
  lemma PromisesAreKept(d: Database, ops: seq<Op>, k: Slot)
    requires DatabaseOk(d) && Promise(d.outbox, k).Some?
    ensures Promise(Run(d, ops).outbox, k) == Promise(d.outbox, k)
  {
    hide Step;
    RunKeeps(d, ops);
    EvolvesKeepsPromise(d.outbox, Run(d, ops).outbox, k);
  }

  /** Sent, quarantined and expired rows never change again. */
  lemma FinalRowsStay(d: Database, ops: seq<Op>, id: Id)
    requires DatabaseOk(d) && id in d.outbox && Final(d.outbox[id].state)
    ensures id in Run(d, ops).outbox && Run(d, ops).outbox[id] == d.outbox[id]
  {
    hide Step;
    RunKeeps(d, ops);
  }

  /** A conversation has one coordination root. */
  lemma OneRootPerConversation(ops: seq<Op>, a: Id, b: Id)
    requires var o := Run(EmptyDatabase(), ops).outbox;
      && a in o && b in o && IsRoot(o[a].envelope) && IsRoot(o[b].envelope)
      && o[a].envelope.conversation == o[b].envelope.conversation
    ensures a == b
  {
    hide Step;
    EveryRunIsOk(ops);
    var o := Run(EmptyDatabase(), ops).outbox;
    assert SameRootThread(o[a].envelope, o[b].envelope);
  }

  /** Claimed rows have all claim columns, available and settled rows none. */
  lemma ClaimColumnsMatch(ops: seq<Op>, id: Id)
    requires id in Run(EmptyDatabase(), ops).inbox
    ensures var row := Run(EmptyDatabase(), ops).inbox[id];
      && (row.state.Claimed? ==> row.claimOwner.Some? && row.claimToken.Some? && row.claimUntil.Some?)
      && (!row.state.Claimed? && !row.state.Quarantined? ==>
            row.claimOwner.None? && row.claimToken.None? && row.claimUntil.None?)
  {
    hide Step;
    EveryRunIsOk(ops);
  }

  /** Pending means parked: nobody can claim a message whose request is undecided. */
  lemma PendingIsParked(ops: seq<Op>, id: Id, filter: ClaimFilter, limit: nat, now: int)
    requires var d := Run(EmptyDatabase(), ops); id in d.requests && d.requests[id].state.AwaitingDecision?
    ensures var d := Run(EmptyDatabase(), ops);
      && id in d.inbox && Parked(d.inbox[id])
      && id !in ClaimIds(d.inbox, filter, d.runs, limit, now)
  {
    hide Step;
    EveryRunIsOk(ops);
    var d := Run(EmptyDatabase(), ops);
    assert RequestOk(d.requests[id], d.inbox[id]);
    ClaimPicksClaimableRows(d.inbox, filter, d.runs, limit, now);
  }

  /** The audit is the history: the events of every request form a word of the
      language, and replaying them gives the request's state. */
  lemma AuditIsTheHistory(ops: seq<Op>, id: Id)
    ensures var d := Run(EmptyDatabase(), ops);
      && InLanguage(EventsOf(d.audit, id))
      && (id in d.requests ==> Replay(EventsOf(d.audit, id)) == Reached(d.requests[id].state))
      && (id !in d.requests ==> EventsOf(d.audit, id) == [])
  {
    hide Step;
    EveryRunIsOk(ops);
    var d := Run(EmptyDatabase(), ops);
    var w := EventsOf(d.audit, id);
    assert Replay(w) == if id in d.requests then Reached(d.requests[id].state) else Unrequested;
    ReplayLeads(w);
  }

  // ---- Settled messages ----------------------------------------------------------------

  predicate IsSettled(row: InRow) {
    row.state.Processed? || row.state.InRejected?
  }

  /** A valid delivery with the id and the origin of a stored message, but not the same
      envelope. */
  predicate Collides(row: InRow, op: Op) {
    && op.Persist? && ValidEnvelope(op.e)
    && op.e.id == row.envelope.id && op.e.origin == row.envelope.origin && op.e != row.envelope
  }

  lemma ClaimKeepsSettled(i: Inbox, runs: Runs, op: Op, id: Id)
    requires op.Claim? && InboxOk(i) && id in i && IsSettled(i[id])
    ensures id in InboxStep(i, runs, op) && InboxStep(i, runs, op)[id] == i[id]
  {
    var filter, limit, now, tokens := op.filter, op.limit, op.now, op.tokens;
    if ClaimArguments(op.consumer, limit, op.leaseSeconds) && |ClaimIds(i, filter, runs, limit, now)| <= |tokens| {
      var w, ids := LapsedClaims(i, now), ClaimIds(i, filter, runs, limit, now);
      ClaimPicksClaimableRows(i, filter, runs, limit, now);
      ClaimRowsPointwise(w, ids, tokens, op.consumer, now + 1000 * op.leaseSeconds);
      assert w[id] == i[id] && id !in ids;
    }
  }

  lemma PersistKeepsSettled(i: Inbox, runs: Runs, op: Op, id: Id)
    requires op.Persist? && InboxOk(i) && id in i && IsSettled(i[id])
    ensures id in InboxStep(i, runs, op)
    ensures InboxStep(i, runs, op)[id].state == if Collides(i[id], op) then Quarantined else i[id].state
  {
    if ValidEnvelope(op.e) && op.e.id == id { SameInboundIsEquality(i[id].envelope, op.e); }
  }

  lemma InboxKeepsSettled(i: Inbox, runs: Runs, op: Op, id: Id)
    requires InboxOk(i) && id in i && IsSettled(i[id])
    ensures id in InboxStep(i, runs, op)
    ensures InboxStep(i, runs, op)[id].state == if Collides(i[id], op) then Quarantined else i[id].state
  {
    match op
    case Persist(_, _, _, _) => PersistKeepsSettled(i, runs, op, id);
    case Claim(_, _, _, _, _, _) => ClaimKeepsSettled(i, runs, op, id);
    case _ =>
  }

  lemma ApprovalsKeepSettled(d: Database, d': Database, op: Op, id: Id)
    requires d' == ApprovalStep(d, op) && id in d.inbox && IsSettled(d.inbox[id])
    requires MovesRow(d.inbox, d'.inbox, MovedBy(op))
    ensures id in d'.inbox && d'.inbox[id].state == d.inbox[id].state
  {
    if d'.inbox != d.inbox && MovedBy(op) == id {
      MovedWasNotSettled(d, op);
      assert false;
    }
  }

  /** Parking takes a live claim, requeueing a quarantined row. */
  lemma MovedWasNotSettled(d: Database, op: Op)
    requires ApprovalStep(d, op).inbox != d.inbox && MovedBy(op) in d.inbox
    ensures !IsSettled(d.inbox[MovedBy(op)])
  {
  }

  lemma SettlingKeepsSettled(d: Database, op: Op, id: Id)
    requires op.Settle? && id in d.inbox && IsSettled(d.inbox[id])
    ensures var i := SettleSpec(d, op.id, op.consumer, op.token, op.outcome, op.reply, op.now).0.inbox;
      id in i && i[id] == d.inbox[id]
  {
  }

  lemma StepKeepsSettled(d: Database, d': Database, op: Op, id: Id)
    requires d' == Step(d, op) && !GroupOf(op).OnInbox? && id in d.inbox && IsSettled(d.inbox[id])
    ensures id in d'.inbox && d'.inbox[id].state == d.inbox[id].state
  {
    match GroupOf(op)
    case OnApprovals =>
      ApprovalStepMoves(d, op);
      ApprovalsKeepSettled(d, d', op, id);
    case OnBoth => SettlingKeepsSettled(d, op, id);
    case _ =>
  }

  /** `processed` and `rejected` are left in exactly one way: by a delivery that collides,
      which quarantines the row. */
  lemma SettledStateChangesIff(d: Database, d': Database, op: Op, id: Id)
    requires InboxOk(d.inbox) && d' == Step(d, op) && id in d.inbox && IsSettled(d.inbox[id])
    ensures id in d'.inbox
    ensures d'.inbox[id].state == if Collides(d.inbox[id], op) then Quarantined else d.inbox[id].state
  {
    if GroupOf(op).OnInbox? {
      InboxKeepsSettled(d.inbox, d.runs, op, id);
    } else {
      StepKeepsSettled(d, d', op, id);
    }
  }

  /** The decision or the revocation takes effect on a request for this message. */
  predicate Requeues(d: Database, op: Op, id: Id) {
    && id in d.requests
    && match op
       case Decide(i, v, _, now) =>
         i == id && (v.Temporarily? ==> now < v.until) && CanDecide(d, d.requests[id], v)
       case RevokeRequest(i, _, now) =>
         var s := LapseRequest(d.requests[id], now).state; i == id && (s.ApprovedOnce? || s.ApprovedTemporary?)
       case _ => false
  }

  lemma InboxKeepsQuarantined(i: Inbox, runs: Runs, op: Op, id: Id)
    requires InboxOk(i) && id in i && i[id].state.Quarantined?
    ensures id in InboxStep(i, runs, op) && InboxStep(i, runs, op)[id].state.Quarantined?
  {
    match op
    case Claim(consumer, limit, leaseSeconds, filter, now, tokens) =>
      ClaimKeepsKeys(i, runs, consumer, limit, leaseSeconds, filter, now, tokens);
      if ClaimArguments(consumer, limit, leaseSeconds) && |ClaimIds(i, filter, runs, limit, now)| <= |tokens| {
        ClaimKeepsRow(i, runs, consumer, limit, now + 1000 * leaseSeconds, filter, now, tokens, id);
      }
    case _ =>
  }

  lemma ApprovalsRequeueIff(d: Database, d': Database, op: Op, id: Id)
    requires d' == ApprovalStep(d, op) && id in d.inbox && d.inbox[id].state.Quarantined?
    requires MovesRow(d.inbox, d'.inbox, MovedBy(op))
    ensures id in d'.inbox && d'.inbox[id].state == if Requeues(d, op, id) then Available else Quarantined
  {
    match op
    case Authorize(_, _, _, _, _, _) => ParkingKeepsQuarantined(d, op, id);
    case Decide(i, v, actor, now) => DecideRequeues(d, i, v, actor, now, id);
    case RevokeRequest(i, actor, now) => RevokeRequeues(d, i, actor, now, id);
    case _ =>
  }

  lemma ParkingKeepsQuarantined(d: Database, op: Op, id: Id)
    requires op.Authorize? && id in d.inbox && d.inbox[id].state.Quarantined?
    ensures ApprovalStep(d, op).inbox == d.inbox || op.id != id
  {
  }

  lemma DecideRequeues(d: Database, i: Id, v: Verdict, actor: NodeId, now: int, id: Id)
    requires id in d.inbox && d.inbox[id].state.Quarantined?
    ensures var d' := DecideSpec(d, i, v, actor, now).0;
      id in d'.inbox && d'.inbox[id].state == if Requeues(d, Decide(i, v, actor, now), id) then Available else Quarantined
  {
  }

  lemma RevokeRequeues(d: Database, i: Id, actor: NodeId, now: int, id: Id)
    requires id in d.inbox && d.inbox[id].state.Quarantined?
    ensures var d' := RevokeRequestSpec(d, i, actor, now).0;
      id in d'.inbox && d'.inbox[id].state == if Requeues(d, RevokeRequest(i, actor, now), id) then Available else Quarantined
  {
  }

  /** A quarantined row leaves quarantine in exactly one way: by a decision on the
      request of that id, or its revocation, that takes effect. */
  lemma QuarantineEndsIff(d: Database, d': Database, op: Op, id: Id)
    requires InboxOk(d.inbox) && d' == Step(d, op) && id in d.inbox && d.inbox[id].state.Quarantined?
    ensures id in d'.inbox
    ensures d'.inbox[id].state == if Requeues(d, op, id) then Available else Quarantined
  {
    match GroupOf(op)
    case OnInbox => InboxKeepsQuarantined(d.inbox, d.runs, op, id);
    case OnApprovals =>
      ApprovalStepMoves(d, op);
      ApprovalsRequeueIff(d, d', op, id);
    case OnBoth => SettleMovesNoQuarantined(d, op, id);
    case _ =>
  }

  lemma SettleMovesNoQuarantined(d: Database, op: Op, id: Id)
    requires op.Settle? && id in d.inbox && d.inbox[id].state.Quarantined?
    ensures var i := SettleSpec(d, op.id, op.consumer, op.token, op.outcome, op.reply, op.now).0.inbox;
      id in i && i[id] == d.inbox[id]
  {
  }

  /** Over runs: a settled message keeps its state through every run in which nothing
      collides with it. */
  lemma {:induction false} SettledStays(d: Database, ops: seq<Op>, id: Id)
    requires DatabaseOk(d) && id in d.inbox && IsSettled(d.inbox[id])
    requires forall k :: 0 <= k < |ops| ==> !Collides(d.inbox[id], ops[k])
    ensures id in Run(d, ops).inbox && Run(d, ops).inbox[id].state == d.inbox[id].state
    ensures Run(d, ops).inbox[id].envelope == d.inbox[id].envelope
  {
    hide Step;
    RunKeeps(d, ops);
    if ops != [] {
      var before := ops[..|ops| - 1];
      SettledStays(d, before, id);
      RunKeeps(d, before);
      SettledStateChangesIff(Run(d, before), Run(d, ops), ops[|ops| - 1], id);
    }
  }

  // ---- Results -----------------------------------------------------------------------

  /** The service addresses a reply to the sender of the message it settles. */
  predicate RepliesToSender(d: Database, op: Op) {
    op.Settle? && op.id in d.inbox ==> op.reply.target == d.inbox[op.id].envelope.origin
  }

  ghost predicate ServiceRun(ops: seq<Op>) {
    ops == [] ||
    (ServiceRun(ops[..|ops| - 1]) && RepliesToSender(Run(EmptyDatabase(), ops[..|ops| - 1]), ops[|ops| - 1]))
  }

  ghost predicate SameResults(i: Inbox, i': Inbox) {
    forall id :: id in i' && i'[id].result.Some? ==> id in i && i[id].result == i'[id].result
  }

  lemma InboxKeepsResults(d: Database, op: Op)
    requires InboxOk(d.inbox) && GroupOf(op).OnInbox?
    ensures SameResults(d.inbox, Step(d, op).inbox)
  {
    InboxStepKeeps(d.inbox, d.runs, op);
  }

  lemma ApprovalsKeepResults(d: Database, op: Op)
    requires InboxOk(d.inbox) && GroupOf(op).OnApprovals?
    ensures SameResults(d.inbox, Step(d, op).inbox)
  {
    ApprovalStepMoves(d, op);
    MoveKeeps(d.inbox, Step(d, op).inbox, MovedBy(op));
  }

  lemma OthersKeepResults(d: Database, op: Op)
    requires InboxOk(d.inbox) && !op.Settle?
    ensures SameResults(d.inbox, Step(d, op).inbox)
  {
    if GroupOf(op).OnInbox? {
      InboxKeepsResults(d, op);
    } else if GroupOf(op).OnApprovals? {
      ApprovalsKeepResults(d, op);
    }
  }

  lemma OthersReturn(d: Database, d': Database, op: Op)
    requires DatabaseOk(d) && LinksReturn(d) && !op.Settle? && d' == Step(d, op)
    ensures LinksReturn(d')
  {
    hide Step;
    StepKeeps(d, op);
    OthersKeepResults(d, op);
    ReturnsFollowOutbox(d, d');
  }

  lemma SettlingReturns(d: Database, d': Database, op: Op)
    requires OutboxOk(d.outbox) && InboxOk(d.inbox) && LinksOk(d) && LinksReturn(d) && op.Settle? && RepliesToSender(d, op)
    requires d' == SettleSpec(d, op.id, op.consumer, op.token, op.outcome, op.reply, op.now).0
    ensures LinksReturn(d')
  {
    Settlement.SettleKeeps(d, op.id, op.consumer, op.token, op.outcome, op.reply, op.now);
  }

  lemma SettleIsAStep(d: Database, op: Op)
    requires op.Settle?
    ensures Step(d, op) == SettleSpec(d, op.id, op.consumer, op.token, op.outcome, op.reply, op.now).0
  {
  }

  lemma StepReturns(d: Database, d': Database, op: Op)
    requires DatabaseOk(d) && LinksReturn(d) && RepliesToSender(d, op) && d' == Step(d, op)
    ensures LinksReturn(d')
  {
    hide Step;
    if op.Settle? {
      SettleIsAStep(d, op);
      SettlingReturns(d, d', op);
    } else {
      OthersReturn(d, d', op);
    }
  }

  lemma {:induction false} ServiceRunsReturn(ops: seq<Op>)
    requires ServiceRun(ops)
    ensures LinksReturn(Run(EmptyDatabase(), ops))
  {
    hide Step;
    if ops != [] {
      var before := ops[..|ops| - 1];
      ServiceRunsReturn(before);
      EveryRunIsOk(before);
      StepReturns(Run(EmptyDatabase(), before), Run(EmptyDatabase(), ops), ops[|ops| - 1]);
    }
  }

  /** Sound results: after any run of the service, a recorded result is an outbox
      row with the recorded key and payload hash, on its way back to the sender. */
  lemma ResultsAreSound(ops: seq<Op>, id: Id)
    requires ServiceRun(ops)
    requires var d := Run(EmptyDatabase(), ops); id in d.inbox && d.inbox[id].result.Some?
    ensures var d := Run(EmptyDatabase(), ops);
      var l := d.inbox[id].result.value;
      && l.id in d.outbox && d.outbox[l.id].envelope.key == l.key && d.outbox[l.id].envelope.payloadSha == l.sha
      && d.outbox[l.id].envelope.target == d.inbox[id].envelope.origin
  {
    hide Step;
    EveryRunIsOk(ops);
    ServiceRunsReturn(ops);
  }

  /** The error for inconsistent result metadata cannot arise from service calls,
      and settling again while the outcome stands answers with the same reply and
      changes nothing. */
  lemma SettlingAgainIsStable(ops: seq<Op>, id: Id, consumer: string, token: string, outcome: SettleOutcome,
                              reply: Envelope, now: int)
    requires ServiceRun(ops) && ValidEnvelope(reply)
    requires var i := Run(EmptyDatabase(), ops).inbox;
      id in i && i[id].state == SettledState(outcome) && reply.target == i[id].envelope.origin
    ensures var d := Run(EmptyDatabase(), ops);
      var (d', r) := SettleSpec(d, id, consumer, token, outcome, reply, now);
      && d' == d && r != Err(Inconsistent)
      && (r.Ok? <==> d.inbox[id].result.Some? && d.inbox[id].result.value.key == reply.key)
      && (r.Ok? ==> r.value.reply.id == d.inbox[id].result.value.id && r.value.reply.duplicate)
  {
    hide Step;
    EveryRunIsOk(ops);
    ServiceRunsReturn(ops);
    RepeatedSettleIsStable(Run(EmptyDatabase(), ops), id, consumer, token, outcome, reply, now);
  }
}
