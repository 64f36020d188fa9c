/** Every operation of the database as a step, runs of steps, and the invariant
    all runs keep. */
module Operations {
  import opened Envelopes
  import opened Tables
  import opened OutboxTable
  import opened InboxTable
  import opened Settlement
  import opened Approvals
  import opened ApprovalRules
  import opened AuditTrail
  import opened RunTable
  import opened Text

  datatype Op =
    | Enqueue(e: Envelope, comparison: Comparison)
    | LeaseOutbox(owner: string, limit: int, leaseSeconds: int, now: int)
    | MarkSent(id: Id, owner: string)
    | ReleaseLease(id: Id, owner: string, retryAt: int)
    | QuarantineOutbox(id: Id, owner: string)
    | Persist(e: Envelope, count: int, now: int, authenticated: bool)
    | Claim(consumer: string, limit: int, leaseSeconds: int, filter: ClaimFilter, now: int, tokens: seq<string>)
    | Renew(id: Id, consumer: string, token: string, leaseSeconds: int, now: int)
    | Acknowledge(id: Id, consumer: string, token: string, ack: AckOutcome, now: int)
    | Settle(id: Id, consumer: string, token: string, outcome: SettleOutcome, reply: Envelope, now: int)
    | Authorize(id: Id, consumer: string, token: string, resource: string, actor: NodeId, now: int)
    | Register(resource: string)
    | SetEnabled(resource: string, enabled: bool)
    | Grant(peer: NodeId, resource: string)
    | RevokeGrant(peer: NodeId, resource: string, actor: NodeId, now: int)
    | Decide(id: Id, verdict: Verdict, actor: NodeId, now: int)
    | RevokeRequest(id: Id, actor: NodeId, now: int)
    | ExpireRequests(now: int)
    | EnsureRun(run: ConsultationRun)
    | SaveRun(run: ConsultationRun, expected: nat)

  /** What an operation does to the outbox, unless it is a settlement. */
  ghost function OutboxStep(o: Outbox, op: Op): Outbox {
    match op
    case Enqueue(e, c) => EnqueueSpec(o, e, c).0
    case LeaseOutbox(owner, limit, leaseSeconds, now) => LeaseSpec(o, owner, limit, leaseSeconds, now)
    case MarkSent(id, owner) => MarkSentSpec(o, id, owner)
    case ReleaseLease(id, owner, retryAt) => ReleaseSpec(o, id, owner, retryAt)
    case QuarantineOutbox(id, owner) => QuarantineSpec(o, id, owner)
    case _ => o
  }

  /** What an operation does to the inbox by delivering and claiming. */
  ghost function InboxStep(i: Inbox, runs: Runs, op: Op): Inbox {
    match op
    case Persist(e, count, now, authenticated) => PersistSpec(i, e, count, now, authenticated).0
    case Claim(consumer, limit, leaseSeconds, filter, now, tokens) =>
      ClaimSpec(i, runs, consumer, limit, leaseSeconds, filter, now, tokens)
    case Renew(id, consumer, token, leaseSeconds, now) => RenewSpec(i, id, consumer, token, leaseSeconds, now).0
    case Acknowledge(id, consumer, token, ack, now) => AcknowledgeSpec(i, id, consumer, token, ack, now).0
    case _ => i
  }

  /** What an operation does to the approvals (and to the messages they park). */
  ghost function ApprovalStep(d: Database, op: Op): Database {
    match op
    case Authorize(id, consumer, token, resource, actor, now) =>
      AuthorizeSpec(d, id, consumer, token, resource, actor, now).0
    case Register(resource) => RegisterSpec(d, resource).0
    case SetEnabled(resource, enabled) => SetEnabledSpec(d, resource, enabled).0
    case Grant(peer, resource) => GrantSpec(d, peer, resource).0
    case RevokeGrant(peer, resource, actor, now) => RevokeGrantSpec(d, peer, resource, actor, now).0
    case Decide(id, verdict, actor, now) => DecideSpec(d, id, verdict, actor, now).0
    case RevokeRequest(id, actor, now) => RevokeRequestSpec(d, id, actor, now).0
    case ExpireRequests(now) => ExpireSpec(d, now)
    case _ => d
  }

  ghost function RunStep(runs: Runs, op: Op): Runs {
    match op
    case EnsureRun(run) => EnsureRunSpec(runs, run).0
    case SaveRun(run, expected) => SaveRunSpec(runs, run, expected).0
    case _ => runs
  }

  datatype OpGroup = OnOutbox | OnInbox | OnBoth | OnApprovals | OnRuns

  function GroupOf(op: Op): OpGroup {
    match op
    case Enqueue(_, _) => OnOutbox
    case LeaseOutbox(_, _, _, _) => OnOutbox
    case MarkSent(_, _) => OnOutbox
    case ReleaseLease(_, _, _) => OnOutbox
    case QuarantineOutbox(_, _) => OnOutbox
    case Persist(_, _, _, _) => OnInbox
    case Claim(_, _, _, _, _, _) => OnInbox
    case Renew(_, _, _, _, _) => OnInbox
    case Acknowledge(_, _, _, _, _) => OnInbox
    case Settle(_, _, _, _, _, _) => OnBoth
    case EnsureRun(_) => OnRuns
    case SaveRun(_, _) => OnRuns
    case _ => OnApprovals
  }

  ghost function Step(d: Database, op: Op): Database {
    match GroupOf(op)
    case OnOutbox => d.(outbox := OutboxStep(d.outbox, op))
    case OnInbox => d.(inbox := InboxStep(d.inbox, d.runs, op))
    case OnBoth =>
      if op.Settle? then SettleSpec(d, op.id, op.consumer, op.token, op.outcome, op.reply, op.now).0 else d
    case OnApprovals => ApprovalStep(d, op)
    case OnRuns => d.(runs := RunStep(d.runs, op))
  }

  ghost function Run(d: Database, ops: seq<Op>): Database {
    if ops == [] then d else Step(Run(d, ops[..|ops| - 1]), ops[|ops| - 1])
  }

  lemma RunExtend(d: Database, ops: seq<Op>, op: Op)
    ensures Run(d, ops + [op]) == Step(Run(d, ops), op)
  {
    hide Step;
    assert (ops + [op])[..|ops + [op]| - 1] == ops;
  }

  // ---- Runs on a clock that never goes back --------------------------------

  /** The time an operation takes place at, where it looks at the clock. */
  function TimeOf(op: Op): Option<int> {
    match op
    case LeaseOutbox(_, _, _, now) => Some(now)
    case Persist(_, _, now, _) => Some(now)
    case Claim(_, _, _, _, now, _) => Some(now)
    case Renew(_, _, _, _, now) => Some(now)
    case Acknowledge(_, _, _, _, now) => Some(now)
    case Settle(_, _, _, _, _, now) => Some(now)
    case Authorize(_, _, _, _, _, now) => Some(now)
    case RevokeGrant(_, _, _, now) => Some(now)
    case Decide(_, _, _, now) => Some(now)
    case RevokeRequest(_, _, now) => Some(now)
    case ExpireRequests(now) => Some(now)
    case _ => None
  }

  function ClockAfter(t: int, op: Op): int {
    if TimeOf(op).Some? then TimeOf(op).value else t
  }

  function Clock(start: int, ops: seq<Op>): int {
    if ops == [] then start else ClockAfter(Clock(start, ops[..|ops| - 1]), ops[|ops| - 1])
  }

  ghost predicate WellTimed(start: int, ops: seq<Op>) {
    ops == [] || (WellTimed(start, ops[..|ops| - 1]) && Clock(start, ops[..|ops| - 1]) <= Clock(start, ops))
  }

  // ---- The invariant ----------------------------------------------------

  ghost predicate DatabaseOk(d: Database) {
    OutboxOk(d.outbox) && InboxOk(d.inbox) && LinksOk(d) && ApprovalsOk(d) && RunsOk(d.runs)
  }

  lemma OutboxStepKeeps(o: Outbox, op: Op)
    requires OutboxOk(o)
    ensures OutboxOk(OutboxStep(o, op)) && Evolves(o, OutboxStep(o, op))
  {
    match op
    case Enqueue(e, c) =>
      if ValidEnvelope(e) { EnqueueKeeps(o, e, c); }
    case LeaseOutbox(owner, limit, leaseSeconds, now) => LeaseKeeps(o, owner, limit, leaseSeconds, now);
    case MarkSent(id, owner) =>
      if HoldsLease(o, id, owner) { UnleaseKeeps(o, id, MarkSentSpec(o, id, owner)[id]); }
    case ReleaseLease(id, owner, retryAt) =>
      if HoldsLease(o, id, owner) { UnleaseKeeps(o, id, ReleaseSpec(o, id, owner, retryAt)[id]); }
    case QuarantineOutbox(id, owner) =>
      if HoldsLease(o, id, owner) { UnleaseKeeps(o, id, QuarantineSpec(o, id, owner)[id]); }
    case _ =>
  }

  /** Delivering and claiming touches neither stored results nor parked rows. */
  ghost predicate Undisturbed(i: Inbox, i': Inbox) {
    && KeepsParked(i, i')
    && forall id :: id in i' && i'[id].result.Some? ==> id in i && i[id].result == i'[id].result
  }

  lemma ClaimUndisturbed(i: Inbox, runs: Runs, consumer: string, limit: int, leaseSeconds: int,
                         filter: ClaimFilter, now: int, tokens: seq<string>)
    requires InboxOk(i)
    ensures Undisturbed(i, ClaimSpec(i, runs, consumer, limit, leaseSeconds, filter, now, tokens))
  {
    var i' := ClaimSpec(i, runs, consumer, limit, leaseSeconds, filter, now, tokens);
    ClaimKeepsKeys(i, runs, consumer, limit, leaseSeconds, filter, now, tokens);
    forall id | id in i
      ensures i'[id].result == i[id].result && (i[id].state.Quarantined? ==> i'[id] == i[id])
    {
      if ClaimArguments(consumer, limit, leaseSeconds) && |ClaimIds(i, filter, runs, limit, now)| <= |tokens| {
        ClaimKeepsRow(i, runs, consumer, limit, now + 1000 * leaseSeconds, filter, now, tokens, id);
      }
    }
  }

  lemma OneRowUndisturbed(i: Inbox, id: Id, row: InRow)
    requires id in i && row.result == i[id].result && (Parked(i[id]) ==> Parked(row))
    ensures Undisturbed(i, i[id := row])
  {
  }

  lemma PersistUndisturbed(i: Inbox, e: Envelope, count: int, now: int, authenticated: bool)
    ensures Undisturbed(i, PersistSpec(i, e, count, now, authenticated).0)
  {
    var i' := PersistSpec(i, e, count, now, authenticated).0;
    if e.id in i {
      assert i' == i[e.id := i'[e.id]];
      OneRowUndisturbed(i, e.id, i'[e.id]);
    }
  }

  lemma RenewKeeps(i: Inbox, op: Op)
    requires InboxOk(i) && op.Renew?
    ensures var i' := RenewSpec(i, op.id, op.consumer, op.token, op.leaseSeconds, op.now).0;
      InboxOk(i') && Retains(i, i') && Undisturbed(i, i')
  {
    if op.leaseSeconds > 0 && HoldsClaim(i, op.id, op.consumer, op.token, op.now) {
      var row := i[op.id].(claimUntil := Some(op.now + 1000 * op.leaseSeconds));
      RowReplaceKeeps(i, op.id, row);
      OneRowUndisturbed(i, op.id, row);
    }
  }

  lemma AcknowledgeKeeps(i: Inbox, op: Op)
    requires InboxOk(i) && op.Acknowledge?
    ensures var i' := AcknowledgeSpec(i, op.id, op.consumer, op.token, op.ack, op.now).0;
      InboxOk(i') && Retains(i, i') && Undisturbed(i, i')
  {
    if HoldsClaim(i, op.id, op.consumer, op.token, op.now) {
      var row := Unclaim(i[op.id], TargetState(op.ack));
      RowReplaceKeeps(i, op.id, row);
      OneRowUndisturbed(i, op.id, row);
    }
  }

  lemma InboxStepKeeps(i: Inbox, runs: Runs, op: Op)
    requires InboxOk(i)
    ensures InboxOk(InboxStep(i, runs, op)) && Retains(i, InboxStep(i, runs, op))
    ensures Undisturbed(i, InboxStep(i, runs, op))
  {
    match op
    case Persist(e, count, now, authenticated) =>
      PersistKeeps(i, e, count, now, authenticated);
      PersistUndisturbed(i, e, count, now, authenticated);
    case Claim(consumer, limit, leaseSeconds, filter, now, tokens) =>
      ClaimKeeps(i, runs, consumer, limit, leaseSeconds, filter, now, tokens);
      ClaimUndisturbed(i, runs, consumer, limit, leaseSeconds, filter, now, tokens);
    case Renew(_, _, _, _, _) => RenewKeeps(i, op);
    case Acknowledge(_, _, _, _, _) => AcknowledgeKeeps(i, op);
    case _ =>
  }

  // ---- Approvals move only one inbox row, between quarantine and queue ----

  ghost predicate MovesRow(i: Inbox, i': Inbox, id: Id) {
    || i' == i
    || (id in i && (i' == i[id := Unclaim(i[id], Quarantined)] || i' == i[id := Unclaim(i[id], Available)]))
  }

  lemma MoveKeeps(i: Inbox, i': Inbox, id: Id)
    requires InboxOk(i) && MovesRow(i, i', id)
    ensures InboxOk(i') && Retains(i, i')
    ensures forall id :: id in i' ==> id in i && i'[id].result == i[id].result
  {
    if i' != i {
      RowReplaceKeeps(i, id, i'[id]);
    }
  }

  /** The message an approval operation may move. */
  function MovedBy(op: Op): Id {
    match op
    case Authorize(id, _, _, _, _, _) => id
    case Decide(id, _, _, _) => id
    case RevokeRequest(id, _, _) => id
    case _ => ""
  }

  lemma OwnRequestMoves(d: Database, id: Id, r: string, actor: NodeId, now: int)
    requires id in d.requests && id in d.inbox
    ensures var d' := OwnRequestSpec(d, id, r, actor, now).0;
      d'.outbox == d.outbox && d'.runs == d.runs && MovesRow(d.inbox, d'.inbox, id)
  {
  }

  lemma ByRequestMoves(d: Database, id: Id, r: string, actor: NodeId, now: int)
    requires id in d.inbox
    ensures var d' := ByRequest(d, id, r, actor, now).0;
      d'.outbox == d.outbox && d'.runs == d.runs && MovesRow(d.inbox, d'.inbox, id)
  {
    if id in d.requests {
      OwnRequestMoves(d, id, r, actor, now);
    }
  }

  lemma AccessMoves(d: Database, id: Id, resource: string, actor: NodeId, now: int)
    requires id in d.inbox
    ensures var d' := AccessSpec(d, id, resource, actor, now).0;
      d'.outbox == d.outbox && d'.runs == d.runs && MovesRow(d.inbox, d'.inbox, id)
  {
    if ParseResource(resource).Some? {
      ByRequestMoves(d, id, ParseResource(resource).value, actor, now);
    }
  }

  lemma ApprovalStepKeeps(d: Database, op: Op)
    requires ApprovalsOk(d)
    ensures ApprovalsOk(ApprovalStep(d, op))
  {
    hide AuthorizeSpec, RevokeGrantSpec, DecideSpec, RevokeRequestSpec, ExpireSpec;
    match op
    case Authorize(id, consumer, token, resource, actor, now) =>
      AuthorizeKeeps(d, id, consumer, token, resource, actor, now);
    case RevokeGrant(peer, resource, actor, now) => RevokeGrantKeeps(d, peer, resource, actor, now);
    case Decide(id, verdict, actor, now) => DecideKeeps(d, id, verdict, actor, now);
    case RevokeRequest(id, actor, now) => RevokeRequestKeeps(d, id, actor, now);
    case ExpireRequests(now) => ExpireKeeps(d, now);
    case _ =>
  }

  lemma AuthorizeMoves(d: Database, x: Database, op: Op)
    requires op.Authorize? && x == ExpireSpec(d, op.now)
    ensures var d' := ApprovalStep(d, op);
      d'.outbox == d.outbox && d'.runs == d.runs && MovesRow(d.inbox, d'.inbox, op.id)
  {
    if HoldsClaim(d.inbox, op.id, op.consumer, op.token, op.now) {
      AccessMoves(x, op.id, op.resource, op.actor, op.now);
    }
  }

  lemma ApprovalStepMoves(d: Database, op: Op)
    ensures var d' := ApprovalStep(d, op);
      d'.outbox == d.outbox && d'.runs == d.runs && MovesRow(d.inbox, d'.inbox, MovedBy(op))
  {
    hide AuthorizeSpec, ParseResource, CanDecide, LapsingIds, LapsedRequests, ExpiryEntries, PairRevoked, PairEntries, PairIds;
    if op.Authorize? {
      AuthorizeMoves(d, ExpireSpec(d, op.now), op);
    }
  }

  lemma ApprovalsFollowInbox(d: Database, i': Inbox)
    requires ApprovalsOk(d) && Retains(d.inbox, i') && KeepsParked(d.inbox, i')
    ensures ApprovalsOk(d.(inbox := i'))
  {
    RequestsFollowInbox(d.requests, d.inbox, i');
  }

  lemma RunStepKeeps(runs: Runs, op: Op)
    requires RunsOk(runs)
    ensures RunsOk(RunStep(runs, op))
  {
  }

  lemma SettleKeepsParked(d: Database, id: Id, consumer: string, token: string, outcome: SettleOutcome,
                          reply: Envelope, now: int)
    ensures KeepsParked(d.inbox, SettleSpec(d, id, consumer, token, outcome, reply, now).0.inbox)
    ensures var d' := SettleSpec(d, id, consumer, token, outcome, reply, now).0;
      d' == d.(outbox := d'.outbox, inbox := d'.inbox)
  {
  }

  ghost predicate Monotone(d: Database, d': Database) {
    Evolves(d.outbox, d'.outbox) && Retains(d.inbox, d'.inbox)
  }

  lemma OutboxGroupKeeps(d: Database, op: Op)
    requires DatabaseOk(d) && GroupOf(op).OnOutbox?
    ensures DatabaseOk(Step(d, op)) && Monotone(d, Step(d, op))
  {
    OutboxStepKeeps(d.outbox, op);
    LinksFollowOutbox(d, Step(d, op));
  }

  lemma InboxGroupKeeps(d: Database, op: Op)
    requires DatabaseOk(d) && GroupOf(op).OnInbox?
    ensures DatabaseOk(Step(d, op)) && Monotone(d, Step(d, op))
  {
    InboxStepKeeps(d.inbox, d.runs, op);
    var d' := Step(d, op);
    LinksFollowOutbox(d, d');
    ApprovalsFollowInbox(d, d'.inbox);
  }

  lemma ApprovalGroupKeeps(d: Database, op: Op)
    requires DatabaseOk(d) && GroupOf(op).OnApprovals?
    ensures DatabaseOk(Step(d, op)) && Monotone(d, Step(d, op))
  {
    hide ApprovalStep;
    ApprovalStepKeeps(d, op);
    ApprovalStepMoves(d, op);
    var d' := Step(d, op);
    MoveKeeps(d.inbox, d'.inbox, MovedBy(op));
    LinksFollowOutbox(d, d');
  }

  lemma SettleGroupKeeps(d: Database, op: Op)
    requires DatabaseOk(d) && op.Settle?
    ensures DatabaseOk(Step(d, op)) && Monotone(d, Step(d, op))
  {
    Settlement.SettleKeeps(d, op.id, op.consumer, op.token, op.outcome, op.reply, op.now);
    SettleKeepsParked(d, op.id, op.consumer, op.token, op.outcome, op.reply, op.now);
    var d' := Step(d, op);
    ApprovalsFollowInbox(d, d'.inbox);
  }

  /** Every operation keeps the invariant; accepted envelopes and received
      messages are never dropped or altered. */
  lemma StepKeeps(d: Database, op: Op)
    requires DatabaseOk(d)
    ensures DatabaseOk(Step(d, op)) && Monotone(d, Step(d, op))
  {
    match GroupOf(op)
    case OnOutbox => OutboxGroupKeeps(d, op);
    case OnInbox => InboxGroupKeeps(d, op);
    case OnBoth => SettleGroupKeeps(d, op);
    case OnApprovals => ApprovalGroupKeeps(d, op);
    case OnRuns => RunStepKeeps(d.runs, op);
  }

  lemma EmptyIsOk()
    ensures DatabaseOk(EmptyDatabase())
  {
    forall id ensures Replay(EventsOf([], id)) == Unrequested { }
  }

  lemma {:induction false} RunKeeps(d: Database, ops: seq<Op>)
    requires DatabaseOk(d)
    ensures DatabaseOk(Run(d, ops)) && Monotone(d, Run(d, ops))
  {
    hide Step;
    if ops != [] {
      var before := Run(d, ops[..|ops| - 1]);
      RunKeeps(d, ops[..|ops| - 1]);
      StepKeeps(before, ops[|ops| - 1]);
      EvolvesTransitive(d.outbox, before.outbox, Run(d, ops).outbox);
      RetainsTransitive(d.inbox, before.inbox, Run(d, ops).inbox);
    }
  }

  /** The invariant holds after every sequence of operations. */
  lemma EveryRunIsOk(ops: seq<Op>)
    ensures DatabaseOk(Run(EmptyDatabase(), ops))
  {
    hide Step;
    EmptyIsOk();
    RunKeeps(EmptyDatabase(), ops);
  }

  // ---- What one operation adds ----------------------------------------------

  /** The message an operation may add to the outbox. */
  function NewMessage(op: Op): Option<Envelope> {
    match op
    case Enqueue(e, _) => Some(e)
    case Settle(_, _, _, _, reply, _) => Some(reply)
    case _ => None
  }

  function NewId(op: Op): Option<Id> {
    if NewMessage(op).Some? then Some(NewMessage(op).value.id) else None
  }

  lemma OutboxFootprint(d: Database, op: Op, id: Id)
    requires id in Step(d, op).outbox
    ensures id in d.outbox || NewId(op) == Some(id)
    ensures Step(d, op).outbox[id].state.Sent? ==>
              id in d.outbox && (d.outbox[id].state.Sent? || (op.MarkSent? && op.id == id))
  {
    match GroupOf(op)
    case OnOutbox => if op.LeaseOutbox? { LeaseFootprint(d.outbox, op, id); }
    case OnBoth =>
      SettleEnqueues(d, op.id, op.consumer, op.token, op.outcome, op.reply, op.now);
      ReplyFootprint(d.outbox, Step(d, op).outbox, op.reply, id);
    case OnApprovals => ApprovalStepMoves(d, op);
    case _ =>
  }

  lemma LeaseFootprint(o: Outbox, op: Op, id: Id)
    requires op.LeaseOutbox? && id in OutboxStep(o, op)
    ensures id in o && (OutboxStep(o, op)[id].state.Sent? ==> o[id].state.Sent?)
  {
  }

  lemma ReplyFootprint(o: Outbox, o': Outbox, reply: Envelope, id: Id)
    requires id in o' && (o' == o || (reply.id !in o && o' == o[reply.id := NewOutRow(reply)]))
    ensures (id in o && o'[id] == o[id]) || (id == reply.id && o'[id].state.Pending?)
  {
  }

  lemma InboxFootprint(d: Database, op: Op, id: Id)
    requires id in Step(d, op).inbox
    ensures id in d.inbox || (op.Persist? && op.e.id == id && Step(d, op).inbox[id].envelope == op.e)
  {
    match GroupOf(op)
    case OnInbox =>
      if op.Claim? {
        ClaimKeepsKeys(d.inbox, d.runs, op.consumer, op.limit, op.leaseSeconds, op.filter, op.now, op.tokens);
      }
    case OnBoth => SettleMoves(d, op.id, op.consumer, op.token, op.outcome, op.reply, op.now);
    case OnApprovals => ApprovalStepMoves(d, op);
    case _ =>
  }

  lemma NewRowIsNewMessage(d: Database, op: Op, id: Id)
    requires id in Step(d, op).outbox && id !in d.outbox
    ensures NewMessage(op) == Some(Step(d, op).outbox[id].envelope)
  {
    OutboxFootprint(d, op, id);
    if op.Settle? {
      SettleEnqueues(d, op.id, op.consumer, op.token, op.outcome, op.reply, op.now);
    }
  }

  /** A row is authenticated only by an authenticated delivery of its envelope. */
  lemma AuthenticatedFootprint(d: Database, op: Op, id: Id)
    requires InboxOk(d.inbox) && id in Step(d, op).inbox && Step(d, op).inbox[id].authenticated
    ensures || (id in d.inbox && d.inbox[id].authenticated)
            || (op.Persist? && op.authenticated && op.e == Step(d, op).inbox[id].envelope)
  {
    match GroupOf(op)
    case OnInbox => InboxAuthenticates(d.inbox, d.runs, op, id);
    case OnBoth => SettleAuthenticates(d, op, id);
    case OnApprovals => ApprovalStepMoves(d, op);
    case _ =>
  }

  lemma InboxAuthenticates(i: Inbox, runs: Runs, op: Op, id: Id)
    requires InboxOk(i) && id in InboxStep(i, runs, op) && InboxStep(i, runs, op)[id].authenticated
    ensures || (id in i && i[id].authenticated)
            || (op.Persist? && op.authenticated && op.e == InboxStep(i, runs, op)[id].envelope)
  {
    match op
    case Persist(e, _, _, _) =>
      if e.id in i && ValidEnvelope(e) { SameInboundIsEquality(i[e.id].envelope, e); }
    case Claim(consumer, limit, leaseSeconds, filter, now, tokens) =>
      ClaimKeepsKeys(i, runs, consumer, limit, leaseSeconds, filter, now, tokens);
      if ClaimArguments(consumer, limit, leaseSeconds) && |ClaimIds(i, filter, runs, limit, now)| <= |tokens| {
        ClaimKeepsRow(i, runs, consumer, limit, now + 1000 * leaseSeconds, filter, now, tokens, id);
      }
    case _ =>
  }

  lemma SettleAuthenticates(d: Database, op: Op, id: Id)
    requires op.Settle?
    ensures var i := SettleSpec(d, op.id, op.consumer, op.token, op.outcome, op.reply, op.now).0.inbox;
      id in i && i[id].authenticated ==> id in d.inbox && d.inbox[id].authenticated
  {
  }
}
