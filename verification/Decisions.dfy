/** Every access decision is the one the history justifies. */
module Decisions {
  import opened Envelopes
  import opened Tables
  import opened Text
  import opened InboxTable
  import opened Approvals
  import opened ApprovalRules
  import opened Operations
  import opened History

  ghost function HistoryOf(ops: seq<Op>): seq<Event> {
    if ops == [] then []
    else
      var before := ops[..|ops| - 1];
      HistoryOf(before) + Emits(Run(EmptyDatabase(), before), ops[|ops| - 1])
  }

  /** After every run the tables hold a fact exactly when the history does. */
  lemma {:induction false} RunAgrees(start: int, ops: seq<Op>)
    requires WellTimed(start, ops)
    ensures Agrees(Run(EmptyDatabase(), ops), HistoryOf(ops), Clock(start, ops))
  {
    hide Step;
    if ops != [] {
      var before := ops[..|ops| - 1];
      RunAgrees(start, before);
      EveryRunIsOk(before);
      StepAgrees(Run(EmptyDatabase(), before), HistoryOf(before), Clock(start, before), ops[|ops| - 1]);
    }
  }

  // ---- The decision, from the history alone --------------------------------

  /** A temporary approval of this peer on this resource is in force. */
  ghost predicate InForce(h: seq<Event>, a: Id, p: NodeId, r: string, until: int, now: int) {
    now < until && Since(h, IsUntil(a, p, r, until))
  }

  ghost predicate LastsLongest(h: seq<Event>, a: Id, p: NodeId, r: string, now: int) {
    exists until :: InForce(h, a, p, r, until, now) && forall b, u :: InForce(h, b, p, r, u, now) ==> u <= until
  }

  /** Another message already asked for the same operation. */
  ghost predicate AskedBefore(h: seq<Event>, q: Id, id: Id, identity: Identity) {
    q != id && Since(h, IsAsked(q, identity))
  }

  ghost predicate JustifiedByRequest(h: seq<Event>, e: Envelope, id: Id, r: string, hasRun: bool, decision: Decision) {
    var identity := IdentityOf(e, r);
    if exists q :: AskedBefore(h, q, id, identity) then
      decision.DuplicateOf? && AskedBefore(h, decision.original, id, identity)
    else if !Since(h, IsAsked(id, identity)) then decision == ApprovalPending(id)
    else if Since(h, IsOnce(id)) then decision == Authorized(OneTimeApproval, Some(id))
    else if Since(h, IsUsed(id)) && hasRun then decision == Authorized(SameRequestRecovery, Some(id))
    else decision == AccessDenied(Some(id))
  }

  /** The reference decision for a claimed message: it reads the message, the
      history, the clock, and whether a consultation was already started. */
  ghost predicate Justified(h: seq<Event>, m: InRow, id: Id, resource: string, hasRun: bool, now: int,
                            decision: Decision)
  {
    var parsed, p := ParseResource(resource), m.envelope.origin;
    if !m.authenticated || parsed.None? || m.envelope.payload.project != parsed || !Since(h, IsEnabled(parsed.value))
    then decision == AccessDenied(None)
    else
      var r := parsed.value;
      if Since(h, IsGranted(p, r)) then decision == Authorized(PersistentGrant, None)
      else if exists a, until :: InForce(h, a, p, r, until, now) then
        && decision.Authorized? && decision.basis.TemporaryApproval?
        && decision.approval.Some? && LastsLongest(h, decision.approval.value, p, r, now)
      else JustifiedByRequest(h, m.envelope, id, r, hasRun, decision)
  }

  lemma ForceIsServing(x: Database, h: seq<Event>, p: NodeId, r: string, now: int, b: Id, u: int)
    requires Agrees(x, h, now)
    ensures InForce(h, b, p, r, u, now) <==>
              b in x.requests && Serves(x.requests[b], p, r, now) && x.requests[b].expiresAt == Some(u)
  {
    assert Current(IsUntil(b, p, r, u), now) <==> now < u;
  }

  lemma ServingIsLongest(x: Database, h: seq<Event>, p: NodeId, r: string, now: int)
    requires Agrees(x, h, now)
    ensures var a := ServingApproval(x.requests, p, r, now);
      && (a.Some? <==> exists b, u :: InForce(h, b, p, r, u, now))
      && (a.Some? ==> LastsLongest(h, a.value, p, r, now))
  {
    var a := ServingApproval(x.requests, p, r, now);
    if a.Some? {
      var until := x.requests[a.value].expiresAt.value;
      ForceIsServing(x, h, p, r, now, a.value, until);
      forall b, u | InForce(h, b, p, r, u, now) ensures u <= until {
        ForceIsServing(x, h, p, r, now, b, u);
        ServingLastsLongest(x.requests, p, r, now, b);
      }
    } else if b, u :| InForce(h, b, p, r, u, now) {
      ForceIsServing(x, h, p, r, now, b, u);
    }
  }

  /** The request facts about one operation, in the tables and in the history. */
  ghost predicate RequestFacts(q: Requests, h: seq<Event>, id: Id, identity: Identity) {
    && (forall k :: Since(h, IsAsked(k, identity)) <==> k in q && q[k].identity == identity)
    && (Since(h, IsOnce(id)) <==> id in q && q[id].state.ApprovedOnce?)
    && (Since(h, IsUsed(id)) <==> id in q && q[id].state.Consumed?)
  }

  lemma AgreesOnRequest(x: Database, h: seq<Event>, now: int, id: Id, identity: Identity)
    requires Agrees(x, h, now)
    ensures RequestFacts(x.requests, h, id, identity)
  {
    forall k ensures Since(h, IsAsked(k, identity)) <==> Holds(x, IsAsked(k, identity)) {
      assert Current(IsAsked(k, identity), now);
    }
    assert Current(IsOnce(id), now) && Current(IsUsed(id), now);
    assert Holds(x, IsOnce(id)) <==> Since(h, IsOnce(id));
    assert Holds(x, IsUsed(id)) <==> Since(h, IsUsed(id));
  }

  lemma OwnRequestDecides(x: Database, h: seq<Event>, id: Id, r: string, actor: NodeId, now: int)
    requires id in x.inbox && id in x.requests && RequestOk(x.requests[id], x.inbox[id])
    requires RequestFacts(x.requests, h, id, IdentityOf(x.inbox[id].envelope, r))
    requires x.inbox[id].state.Claimed? && !Serves(x.requests[id], x.inbox[id].envelope.origin, r, now)
    requires x.inbox[id].envelope.payload.project == Some(r)
    requires forall k :: !AskedBefore(h, k, id, IdentityOf(x.inbox[id].envelope, r))
    ensures JustifiedByRequest(h, x.inbox[id].envelope, id, r, id in x.runs, OwnRequestSpec(x, id, r, actor, now).1)
  {
  }

  lemma RequestDecidesAsHistory(x: Database, h: seq<Event>, id: Id, r: string, actor: NodeId, now: int)
    requires RequestsOk(x.requests, x.inbox) && id in x.inbox && x.inbox[id].state.Claimed?
    requires x.inbox[id].envelope.payload.project == Some(r)
    requires RequestFacts(x.requests, h, id, IdentityOf(x.inbox[id].envelope, r))
    requires ServingApproval(x.requests, x.inbox[id].envelope.origin, r, now).None?
    ensures JustifiedByRequest(h, x.inbox[id].envelope, id, r, id in x.runs, ByRequest(x, id, r, actor, now).1)
  {
    var identity := IdentityOf(x.inbox[id].envelope, r);
    match FindIdentity(x.requests, identity)
    case Some(q) =>
      assert Since(h, IsAsked(q, identity));
      if q == id {
        assert RequestOk(x.requests[id], x.inbox[id]);
        assert !Serves(x.requests[id], x.inbox[id].envelope.origin, r, now);
        OwnRequestDecides(x, h, id, r, actor, now);
      } else {
        assert AskedBefore(h, q, id, identity);
      }
    case None =>
  }

  lemma AccessDecidesAsHistory(x: Database, h: seq<Event>, id: Id, resource: string, actor: NodeId, now: int)
    requires RequestsOk(x.requests, x.inbox) && Agrees(x, h, now) && id in x.inbox && x.inbox[id].state.Claimed?
    ensures Justified(h, x.inbox[id], id, resource, id in x.runs, now, AccessSpec(x, id, resource, actor, now).1)
  {
    var parsed, p := ParseResource(resource), x.inbox[id].envelope.origin;
    if parsed.Some? && x.inbox[id].envelope.payload.project == parsed {
      var r := parsed.value;
      assert Holds(x, IsEnabled(r)) <==> Since(h, IsEnabled(r)) by { assert Current(IsEnabled(r), now); }
      assert Holds(x, IsGranted(p, r)) <==> Since(h, IsGranted(p, r)) by { assert Current(IsGranted(p, r), now); }
      ServingIsLongest(x, h, p, r, now);
      if ServingApproval(x.requests, p, r, now).None? {
        AgreesOnRequest(x, h, now, id, IdentityOf(x.inbox[id].envelope, r));
        RequestDecidesAsHistory(x, h, id, r, actor, now);
      }
    }
  }

  /** The authorization workflow refines its history: after any run, the answer
      for a live claim is the one the events and the clock justify. */
  lemma DecisionFollowsHistory(start: int, ops: seq<Op>, id: Id, consumer: string, token: string,
                               resource: string, actor: NodeId, now: int)
    requires WellTimed(start, ops) && Clock(start, ops) <= now
    requires HoldsClaim(Run(EmptyDatabase(), ops).inbox, id, consumer, token, now)
    ensures var d := Run(EmptyDatabase(), ops);
      var r := AuthorizeSpec(d, id, consumer, token, resource, actor, now).1;
      r.Ok? && Justified(HistoryOf(ops), d.inbox[id], id, resource, id in d.runs, now, r.value)
  {
    hide Step;
    var d, h := Run(EmptyDatabase(), ops), HistoryOf(ops);
    EveryRunIsOk(ops);
    RunAgrees(start, ops);
    var x := ExpireSpec(d, now);
    ExpireKeeps(d, now);
    forall f | Current(f, now) ensures Holds(x, f) <==> Since(h, f) {
      ExpirySilent(d, f, now);
      assert Current(f, Clock(start, ops));
    }
    AccessDecidesAsHistory(x, h, id, resource, actor, now);
  }

  // ---- Consequences ---------------------------------------------------------

  /** The approval was given for this pair until a later time than now, and was
      neither revoked nor the pair's grant withdrawn since. */
  ghost predicate GivenAndKept(h: seq<Event>, a: Id, p: NodeId, r: string, now: int) {
    exists k, until ::
      && 0 <= k < |h| && now < until && h[k] == AllowedUntil(a, p, r, until)
      && forall j :: k < j < |h| ==> h[j] != Retracted(a) && h[j] != GrantWithdrawn(p, r)
  }

  lemma ForceIsGivenAndKept(h: seq<Event>, a: Id, p: NodeId, r: string, until: int, now: int)
    requires InForce(h, a, p, r, until, now)
    ensures GivenAndKept(h, a, p, r, now)
  {
    var f := IsUntil(a, p, r, until);
    var k :| 0 <= k < |h| && TurnsOn(h[k], f) && forall j :: k < j < |h| ==> !TurnsOff(h[j], f);
    forall j | k < j < |h| ensures h[j] != Retracted(a) && h[j] != GrantWithdrawn(p, r) {
      assert !TurnsOff(h[j], f);
    }
    assert h[k] == AllowedUntil(a, p, r, until);
  }

  lemma JustifiedTemporary(h: seq<Event>, m: InRow, id: Id, resource: string, hasRun: bool, now: int, a: Id)
    requires Justified(h, m, id, resource, hasRun, now, Authorized(TemporaryApproval, Some(a)))
    ensures m.envelope.payload.project.Some?
    ensures GivenAndKept(h, a, m.envelope.origin, m.envelope.payload.project.value, now)
  {
    var p, r := m.envelope.origin, ParseResource(resource).value;
    assert LastsLongest(h, a, p, r, now);
    var until :| InForce(h, a, p, r, until, now);
    ForceIsGivenAndKept(h, a, p, r, until, now);
  }

  /** A temporary approval serves only the peer and the resource it was given for,
      strictly before its end, and not once it was revoked or the pair's grant
      withdrawn. */
  lemma TemporaryServesItsPairOnly(start: int, ops: seq<Op>, id: Id, consumer: string, token: string,
                                   resource: string, actor: NodeId, now: int, a: Id)
    requires WellTimed(start, ops) && Clock(start, ops) <= now
    requires HoldsClaim(Run(EmptyDatabase(), ops).inbox, id, consumer, token, now)
    requires AuthorizeSpec(Run(EmptyDatabase(), ops), id, consumer, token, resource, actor, now).1
             == Ok(Authorized(TemporaryApproval, Some(a)))
    ensures var e := Run(EmptyDatabase(), ops).inbox[id].envelope;
      e.payload.project.Some? && GivenAndKept(HistoryOf(ops), a, e.origin, e.payload.project.value, now)
  {
    hide Step;
    var d := Run(EmptyDatabase(), ops);
    DecisionFollowsHistory(start, ops, id, consumer, token, resource, actor, now);
    JustifiedTemporary(HistoryOf(ops), d.inbox[id], id, resource, id in d.runs, now, a);
  }

  /** Three cases of the decision are never taken: a claimed message has no open
      request, its request fits its payload, and an approval that has not served
      by now is not temporary. */
  lemma UnreachableCases(d: Database, x: Database, id: Id, r: string, now: int)
    requires ApprovalsOk(d) && x == ExpireSpec(d, now)
    requires id in d.inbox && d.inbox[id].state.Claimed? && d.inbox[id].envelope.payload.project == Some(r)
    requires ServingApproval(x.requests, d.inbox[id].envelope.origin, r, now).None?
    requires FindIdentity(x.requests, IdentityOf(d.inbox[id].envelope, r)) == Some(id)
    ensures !x.requests[id].state.AwaitingDecision? && !x.requests[id].state.ApprovedTemporary?
    ensures x.requests[id].fingerprint == d.inbox[id].envelope.payloadSha
  {
    ExpireKeeps(d, now);
    assert RequestOk(x.requests[id], x.inbox[id]);
    assert !Serves(x.requests[id], d.inbox[id].envelope.origin, r, now);
  }

  /** Revoking a grant withdraws the grant and the pair's temporary approvals. A
      message of that pair is authorized afterwards exactly when it carries its
      own one-time approval, or consumed one and has a consultation to resume. */
  lemma RevocationLeavesOneTimeApprovals(d: Database, p: NodeId, resource: string, actor: NodeId, at: int,
                                         id: Id, consumer: string, token: string, now: int)
    requires ApprovalsOk(d) && RevokeGrantSpec(d, p, resource, actor, at).1.Ok?
    requires HoldsClaim(d.inbox, id, consumer, token, now) && d.inbox[id].authenticated
    requires d.inbox[id].envelope.origin == p && d.inbox[id].envelope.payload.project == ParseResource(resource)
    requires Enabled(d.resources, ParseResource(resource).value)
    ensures var d' := RevokeGrantSpec(d, p, resource, actor, at).0;
      var r := AuthorizeSpec(d', id, consumer, token, resource, actor, now).1;
      r.Ok? && (r.value.Authorized? <==>
        id in d.requests && (d.requests[id].state.ApprovedOnce? || (d.requests[id].state.Consumed? && id in d.runs)))
  {
    var d' := RevokeGrantSpec(d, p, resource, actor, at).0;
    var r := ParseResource(resource).value;
    RevokeGrantKeeps(d, p, resource, actor, at);
    ExpireKeeps(d', now);
    NothingServesAfterRevocation(d, p, r, actor, now);
    RevokedByRequest(d, ExpireSpec(d', now), p, id, r, actor, now);
  }

  lemma NothingServesAfterRevocation(d: Database, p: NodeId, r: string, actor: NodeId, now: int)
    ensures ServingApproval(LapsedRequests(PairRevoked(d.requests, p, r, actor), now), p, r, now).None?
  {
  }

  lemma RevokedByRequest(d: Database, x: Database, p: NodeId, id: Id, r: string, actor: NodeId, now: int)
    requires x.requests == LapsedRequests(PairRevoked(d.requests, p, r, actor), now)
    requires x.inbox == d.inbox && x.runs == d.runs
    requires RequestsOk(x.requests, x.inbox) && id in x.inbox && x.inbox[id].state.Claimed?
    requires x.inbox[id].envelope.payload.project == Some(r) && x.inbox[id].envelope.origin == p
    requires ServingApproval(x.requests, p, r, now).None?
    ensures ByRequest(x, id, r, actor, now).1.Authorized? <==>
              id in d.requests && (d.requests[id].state.ApprovedOnce? || (d.requests[id].state.Consumed? && id in d.runs))
  {
    hide Step;
    if id in x.requests {
      assert RequestOk(x.requests[id], x.inbox[id]);
      assert FindIdentity(x.requests, IdentityOf(x.inbox[id].envelope, r)) == Some(id);
      assert !Serves(x.requests[id], p, r, now);
    }
  }

  /** Facts that are never switched off stay. */
  lemma {:induction false} FactStays(d: Database, ops: seq<Op>, f: Fact)
    requires DatabaseOk(d) && Holds(d, f) && (f.IsUsed? || f.IsAsked?)
    ensures Holds(Run(d, ops), f)
  {
    hide Step;
    if ops != [] {
      var before, op := ops[..|ops| - 1], ops[|ops| - 1];
      FactStays(d, before, f);
      RunKeeps(d, before);
      StepExplained(Run(d, before), op, f, ClockAfter(0, op));
    }
  }

  /** One request is authorized as a one-time approval at most once: whatever
      happens in between, the same basis is never given again. */
  lemma OneTimeApprovalServesOnce(d: Database, first: Op, ops: seq<Op>, again: Op)
    requires DatabaseOk(d) && first.Authorize? && again.Authorize?
    requires AuthorizeSpec(d, first.id, first.consumer, first.token, first.resource, first.actor, first.now).1
             == Ok(Authorized(OneTimeApproval, Some(first.id)))
    ensures var later := Run(Step(d, first), ops);
      AuthorizeSpec(later, again.id, again.consumer, again.token, again.resource, again.actor, again.now).1
      != Ok(Authorized(OneTimeApproval, Some(first.id)))
  {
    hide Step, AuthorizeSpec, DatabaseOk;
    var later := Run(Step(d, first), ops);
    StepKeeps(d, first);
    UsedAfterwards(d, first);
    FactStays(Step(d, first), ops, IsUsed(first.id));
    RunKeeps(Step(d, first), ops);
    OkHasApprovals(later);
    ConsumedGivesNoOneTime(later, first.id, again);
  }

  lemma OkHasApprovals(d: Database)
    requires DatabaseOk(d)
    ensures ApprovalsOk(d)
  {
  }

  lemma AccessUses(x: Database, id: Id, resource: string, actor: NodeId, now: int)
    requires id in x.inbox && AccessSpec(x, id, resource, actor, now).1 == Authorized(OneTimeApproval, Some(id))
    ensures var q := AccessSpec(x, id, resource, actor, now).0.requests; id in q && q[id].state.Consumed?
  {
  }

  lemma UsedAfterwards(d: Database, first: Op)
    requires first.Authorize?
    requires AuthorizeSpec(d, first.id, first.consumer, first.token, first.resource, first.actor, first.now).1
             == Ok(Authorized(OneTimeApproval, Some(first.id)))
    ensures Holds(Step(d, first), IsUsed(first.id))
  {
    hide AccessSpec;
    AccessUses(ExpireSpec(d, first.now), first.id, first.resource, first.actor, first.now);
  }

  lemma ConsumedGivesNoOneTime(d: Database, id: Id, again: Op)
    requires ApprovalsOk(d) && again.Authorize? && id in d.requests && d.requests[id].state.Consumed?
    ensures AuthorizeSpec(d, again.id, again.consumer, again.token, again.resource, again.actor, again.now).1
            != Ok(Authorized(OneTimeApproval, Some(id)))
  {
    if HoldsClaim(d.inbox, again.id, again.consumer, again.token, again.now) {
      var x := ExpireSpec(d, again.now);
      ExpireKeeps(d, again.now);
      AccessIsLocal(x, again.id, again.resource, again.actor, again.now);
      assert x.requests[id].state.Consumed?;
      OneTimeIsOwn(x, again.id, again.resource, again.actor, again.now);
    }
  }

  lemma OneTimeIsOwn(x: Database, id: Id, resource: string, actor: NodeId, now: int)
    requires id in x.inbox
    ensures var decision := AccessSpec(x, id, resource, actor, now).1;
      decision.Authorized? && decision.basis.OneTimeApproval? ==> decision.approval == Some(id)
  {
  }

  lemma ParkingAsks(d: Database, first: Op) returns (f: Fact)
    requires ApprovalsOk(d) && first.Authorize?
    requires var r := AuthorizeSpec(d, first.id, first.consumer, first.token, first.resource, first.actor, first.now).1;
             r.Ok? && r.value.ApprovalPending?
    ensures f.IsAsked? && f.id == first.id && Holds(Step(d, first), f)
  {
    hide AccessSpec, OutboxStep, InboxStep, RunStep, ParseResource, LapsedRequests, LapsingIds, ExpiryEntries;
    var x := ExpireSpec(d, first.now);
    ExpireKeeps(d, first.now);
    AccessIsLocal(x, first.id, first.resource, first.actor, first.now);
    AskedIsAsked(x, first);
    f := IsAsked(first.id, IdentityOf(d.inbox[first.id].envelope, ParseResource(first.resource).value));
  }

  /** A message is parked for approval at most once. */
  lemma ParkedAtMostOnce(d: Database, first: Op, ops: seq<Op>, again: Op)
    requires DatabaseOk(d) && first.Authorize? && again.Authorize? && again.id == first.id
    requires var r := AuthorizeSpec(d, first.id, first.consumer, first.token, first.resource, first.actor, first.now).1;
             r.Ok? && r.value.ApprovalPending?
    ensures var later := Run(Step(d, first), ops);
      var r := AuthorizeSpec(later, again.id, again.consumer, again.token, again.resource, again.actor, again.now).1;
      r.Ok? ==> !r.value.ApprovalPending?
  {
    hide Step;
    var f := ParkingAsks(d, first);
    StepKeeps(d, first);
    FactStays(Step(d, first), ops, f);
    RunKeeps(Step(d, first), ops);
    AskedIsNotParked(Run(Step(d, first), ops), again);
  }

  lemma AskedIsAsked(x: Database, op: Op)
    requires op.Authorize? && op.id in x.inbox
    requires var (d', decision) := AccessSpec(x, op.id, op.resource, op.actor, op.now);
             AccessTouches(x, d', op.id, ParseResource(op.resource), decision) && decision.ApprovalPending?
    ensures ParseResource(op.resource).Some?
    ensures Holds(AccessSpec(x, op.id, op.resource, op.actor, op.now).0,
                  IsAsked(op.id, IdentityOf(x.inbox[op.id].envelope, ParseResource(op.resource).value)))
  {
  }

  lemma AskedIsNotParked(d: Database, again: Op)
    requires ApprovalsOk(d) && again.Authorize? && again.id in d.requests
    ensures var r := AuthorizeSpec(d, again.id, again.consumer, again.token, again.resource, again.actor, again.now).1;
      r.Ok? ==> !r.value.ApprovalPending?
  {
    if HoldsClaim(d.inbox, again.id, again.consumer, again.token, again.now) {
      var x := ExpireSpec(d, again.now);
      ExpireKeeps(d, again.now);
      AccessIsLocal(x, again.id, again.resource, again.actor, again.now);
    }
  }
}
