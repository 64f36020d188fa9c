/** Access decisions recomputed from history alone: from what was registered,
    granted, asked, decided, used and revoked, and from the clock. */
module History {
  import opened Envelopes
  import opened Tables
  import opened Text
  import opened InboxTable
  import opened Approvals
  import opened ApprovalRules
  import opened Operations

  datatype Event =
    | Opened(resource: string)
    | Closed(resource: string)
    | GrantMade(peer: NodeId, resource: string)
    | GrantWithdrawn(peer: NodeId, resource: string)
    | Asked(id: Id, identity: Identity)
    | AllowedOnce(id: Id)
    | AllowedUntil(id: Id, peer: NodeId, resource: string, until: int)
    | Refused(id: Id)
    | Retracted(id: Id)
    | Used(id: Id)

  /** The facts a decision rests on, each switched on and off by events. */
  datatype Fact =
    | IsEnabled(resource: string)
    | IsGranted(peer: NodeId, resource: string)
    | IsAsked(id: Id, identity: Identity)
    | IsOnce(id: Id)
    | IsUsed(id: Id)
    | IsUntil(id: Id, peer: NodeId, resource: string, until: int)

  predicate TurnsOn(e: Event, f: Fact) {
    match f
    case IsEnabled(r) => e == Opened(r)
    case IsGranted(p, r) => e == GrantMade(p, r)
    case IsAsked(id, identity) => e == Asked(id, identity)
    case IsOnce(id) => e == AllowedOnce(id)
    case IsUsed(id) => e == Used(id)
    case IsUntil(id, p, r, until) => e == AllowedUntil(id, p, r, until)
  }

  predicate TurnsOff(e: Event, f: Fact) {
    match f
    case IsEnabled(r) => e == Closed(r)
    case IsGranted(p, r) => e == GrantWithdrawn(p, r)
    case IsAsked(_, _) => false
    case IsOnce(id) => e == Retracted(id) || e == Used(id)
    case IsUsed(_) => false
    case IsUntil(id, p, r, _) => e == Retracted(id) || e == GrantWithdrawn(p, r)
  }

  /** A fact holds when some event turned it on and no later one turned it off. */
  ghost predicate Since(h: seq<Event>, f: Fact) {
    exists i :: 0 <= i < |h| && TurnsOn(h[i], f) && forall j :: i < j < |h| ==> !TurnsOff(h[j], f)
  }

  lemma SinceAppend(h: seq<Event>, e: Event, f: Fact)
    ensures Since(h + [e], f) <==> TurnsOn(e, f) || (Since(h, f) && !TurnsOff(e, f))
  {
    hide Step;
    var g := h + [e];
    if TurnsOn(e, f) {
      assert TurnsOn(g[|h|], f);
    } else if Since(h, f) && !TurnsOff(e, f) {
      var i :| 0 <= i < |h| && TurnsOn(h[i], f) && forall j :: i < j < |h| ==> !TurnsOff(h[j], f);
      assert TurnsOn(g[i], f);
    }
    if Since(g, f) && !TurnsOn(e, f) {
      var i :| 0 <= i < |g| && TurnsOn(g[i], f) && forall j :: i < j < |g| ==> !TurnsOff(g[j], f);
      assert TurnsOn(h[i], f);
      assert !TurnsOff(g[|h|], f);
      forall j | i < j < |h| ensures !TurnsOff(h[j], f) {
        assert h[j] == g[j];
      }
    }
  }

  // ---- The tables' view of the same facts --------------------------------

  ghost predicate Holds(d: Database, f: Fact) {
    match f
    case IsEnabled(r) => Enabled(d.resources, r)
    case IsGranted(p, r) => (p, r) in d.grants && d.grants[(p, r)]
    case IsAsked(id, identity) => id in d.requests && d.requests[id].identity == identity
    case IsOnce(id) => id in d.requests && d.requests[id].state.ApprovedOnce?
    case IsUsed(id) => id in d.requests && d.requests[id].state.Consumed?
    case IsUntil(id, p, r, until) =>
      id in d.requests && TemporaryFor(d.requests[id], p, r) && d.requests[id].expiresAt == Some(until)
  }

  /** A temporary approval matters only until it lapses. */
  predicate Current(f: Fact, now: int) {
    f.IsUntil? ==> now < f.until
  }

  ghost predicate Agrees(d: Database, h: seq<Event>, now: int) {
    forall f :: Current(f, now) ==> (Holds(d, f) <==> Since(h, f))
  }

  function VerdictMade(row: RequestRow, id: Id, v: Verdict): Event {
    match v
    case Once => AllowedOnce(id)
    case Temporarily(until) => AllowedUntil(id, row.peer, row.resource, until)
    case Deny => Refused(id)
  }

  function AccessEvents(x: Database, id: Id, r: Option<string>, decision: Decision): seq<Event> {
    match decision
    case ApprovalPending(_) =>
      if id in x.inbox && r.Some? then [Asked(id, IdentityOf(x.inbox[id].envelope, r.value))] else []
    case Authorized(OneTimeApproval, _) => [Used(id)]
    case _ => []
  }

  function VerdictEvents(x: Database, id: Id, v: Verdict): seq<Event> {
    if id in x.requests && x.requests[id].state.AwaitingDecision? then [VerdictMade(x.requests[id], id, v)] else []
  }

  /** The event an operation contributes, if any. */
  ghost function Emits(d: Database, op: Op): seq<Event> {
    match op
    case Register(resource) =>
      var r := ParseResource(resource);
      if r.Some? && r.value !in d.resources then [Opened(r.value)] else []
    case SetEnabled(resource, enabled) =>
      var r := ParseResource(resource);
      if r.Some? && r.value in d.resources
      then [if enabled then Opened(r.value) else Closed(r.value)] else []
    case Grant(p, resource) =>
      var r := ParseResource(resource);
      if r.Some? && r.value in d.resources then [GrantMade(p, r.value)] else []
    case RevokeGrant(p, resource, _, _) =>
      var r := ParseResource(resource);
      if r.Some? && (p, r.value) in d.grants then [GrantWithdrawn(p, r.value)] else []
    case Authorize(id, consumer, token, resource, actor, now) =>
      var r := AuthorizeSpec(d, id, consumer, token, resource, actor, now).1;
      if r.Ok? then AccessEvents(ExpireSpec(d, now), id, ParseResource(resource), r.value) else []
    case Decide(id, v, actor, now) =>
      if DecideSpec(d, id, v, actor, now).1.Ok? then VerdictEvents(ExpireSpec(d, now), id, v) else []
    case RevokeRequest(id, actor, now) =>
      var x := ExpireSpec(d, now);
      if RevokeRequestSpec(d, id, actor, now).1.Ok? && !x.requests[id].state.Revoked? then [Retracted(id)] else []
    case _ => []
  }

  /** What one event does to one fact. */
  ghost predicate Explains(before: bool, after: bool, es: seq<Event>, f: Fact) {
    if es == [] then after == before
    else |es| == 1 && (after <==> TurnsOn(es[0], f) || (before && !TurnsOff(es[0], f)))
  }

  // ---- Each operation changes the facts exactly as its event says ---------

  lemma ExpirySilent(d: Database, f: Fact, now: int)
    requires Current(f, now)
    ensures Holds(ExpireSpec(d, now), f) <==> Holds(d, f)
  {
  }

  /** The event that records a decision or a revocation of a request. */
  predicate EventFits(before: RequestRow, row: RequestRow, id: Id, e: Event) {
    match e
    case AllowedOnce(k) => k == id && before.state.AwaitingDecision? && row.state.ApprovedOnce?
    case AllowedUntil(k, p, r, until) =>
      && k == id && before.state.AwaitingDecision? && row.state.ApprovedTemporary?
      && row.expiresAt == Some(until) && p == row.peer && r == row.resource
    case Refused(k) => k == id && before.state.AwaitingDecision? && row.state.Denied?
    case Retracted(k) => k == id && !before.state.Consumed? && row.state.Revoked?
    case _ => false
  }

  lemma SettleExplained(x: Database, id: Id, row: RequestRow, event: AuditEvent, actor: NodeId, now: int, e: Event, f: Fact)
    requires id in x.requests
    requires row.peer == x.requests[id].peer && row.resource == x.requests[id].resource
    requires row.identity == x.requests[id].identity
    requires EventFits(x.requests[id], row, id, e)
    ensures Explains(Holds(x, f), Holds(Approvals.Settle(x, id, row, event, actor, now), f), [e], f)
  {
  }

  lemma DecideOnExplained(d: Database, x: Database, id: Id, v: Verdict, actor: NodeId, now: int, f: Fact)
    requires Holds(x, f) <==> Holds(d, f)
    ensures var (d', r) := DecideOn(d, x, id, v, actor, now);
      Explains(Holds(d, f), Holds(d', f), if r.Ok? then VerdictEvents(x, id, v) else [], f)
  {
    if VerdictEvents(x, id, v) != [] {
      var row := DecidedRow(x.requests[id], v, actor);
      SettleExplained(x, id, row, VerdictEvent(v), actor, now, VerdictMade(x.requests[id], id, v), f);
    }
  }

  lemma DecideSpecExplained(d: Database, x: Database, id: Id, v: Verdict, actor: NodeId, now: int, f: Fact)
    requires x == ExpireSpec(d, now) && (Holds(x, f) <==> Holds(d, f))
    ensures var (d', r) := DecideSpec(d, id, v, actor, now);
      Explains(Holds(d, f), Holds(d', f), if r.Ok? then VerdictEvents(x, id, v) else [], f)
  {
    DecideOnExplained(d, x, id, v, actor, now, f);
  }

  lemma DecideExplained(d: Database, id: Id, v: Verdict, actor: NodeId, now: int, f: Fact)
    requires Current(f, now)
    ensures var op := Decide(id, v, actor, now); Explains(Holds(d, f), Holds(Step(d, op), f), Emits(d, op), f)
  {
    ExpirySilent(d, f, now);
    DecideSpecExplained(d, ExpireSpec(d, now), id, v, actor, now, f);
  }

  lemma RevokeRequestExplained(d: Database, id: Id, actor: NodeId, now: int, f: Fact)
    requires Current(f, now)
    ensures var op := RevokeRequest(id, actor, now); Explains(Holds(d, f), Holds(Step(d, op), f), Emits(d, op), f)
  {
    var x := ExpireSpec(d, now);
    ExpirySilent(d, f, now);
    if id in x.requests {
      RevokingExplained(x, id, actor, now, f);
    }
  }

  lemma RevokingExplained(x: Database, id: Id, actor: NodeId, now: int, f: Fact)
    requires id in x.requests
    ensures !x.requests[id].state.Consumed? ==>
              Explains(Holds(x, f), Holds(Approvals.Settle(x, id, RevokedRow(x.requests[id], actor), AuditEvent.AuditRevoked,
                                                           actor, now), f), [Retracted(id)], f)
  {
    if !x.requests[id].state.Consumed? {
      SettleExplained(x, id, RevokedRow(x.requests[id], actor), AuditEvent.AuditRevoked, actor, now, Retracted(id), f);
    }
  }

  lemma RevokeGrantExplained(d: Database, p: NodeId, resource: string, actor: NodeId, now: int, f: Fact)
    ensures var op := RevokeGrant(p, resource, actor, now); Explains(Holds(d, f), Holds(Step(d, op), f), Emits(d, op), f)
  {
  }

  /** The one request an access decision may touch. */
  ghost predicate AccessTouches(x: Database, d': Database, id: Id, r: Option<string>, decision: Decision) {
    && d'.resources == x.resources && d'.grants == x.grants
    && match decision
       case ApprovalPending(_) =>
         && id !in x.requests && id in x.inbox && r.Some?
         && d'.requests == x.requests[id := OpenRequest(x.inbox[id].envelope, r.value)]
       case Authorized(OneTimeApproval, _) =>
         && id in x.requests && x.requests[id].state.ApprovedOnce?
         && d'.requests == x.requests[id := x.requests[id].(state := Consumed)]
       case _ => d'.requests == x.requests
  }

  lemma OwnRequestTouches(x: Database, id: Id, r: string, actor: NodeId, now: int)
    requires id in x.inbox && id in x.requests && !x.requests[id].state.AwaitingDecision?
    ensures var (d', decision) := OwnRequestSpec(x, id, r, actor, now); AccessTouches(x, d', id, Some(r), decision)
  {
  }

  lemma ByRequestTouches(x: Database, id: Id, r: string, actor: NodeId, now: int)
    requires RequestsMatch(x.requests, x.inbox) && id in x.inbox && x.inbox[id].state.Claimed?
    requires x.inbox[id].envelope.payload.project == Some(r)
    ensures var (d', decision) := ByRequest(x, id, r, actor, now); AccessTouches(x, d', id, Some(r), decision)
  {
    match FindIdentity(x.requests, IdentityOf(x.inbox[id].envelope, r))
    case Some(q) =>
      if q == id {
        ClaimedIsDecided(x, id);
        OwnRequestTouches(x, id, r, actor, now);
      }
    case None => UnknownIdentityIsNew(x, id, r);
  }

  lemma ByApprovalTouches(x: Database, id: Id, r: string, actor: NodeId, now: int)
    requires RequestsMatch(x.requests, x.inbox) && id in x.inbox && x.inbox[id].state.Claimed?
    requires x.inbox[id].envelope.payload.project == Some(r)
    ensures var (d', decision) := ByApproval(x, id, r, actor, now); AccessTouches(x, d', id, Some(r), decision)
  {
    match ServingApproval(x.requests, x.inbox[id].envelope.origin, r, now)
    case Some(_) =>
    case None => ByRequestTouches(x, id, r, actor, now);
  }

  lemma AccessIsLocal(x: Database, id: Id, resource: string, actor: NodeId, now: int)
    requires RequestsMatch(x.requests, x.inbox) && id in x.inbox && x.inbox[id].state.Claimed?
    ensures var (d', decision) := AccessSpec(x, id, resource, actor, now);
      AccessTouches(x, d', id, ParseResource(resource), decision)
  {
    var parsed := ParseResource(resource);
    if parsed.Some? && x.inbox[id].envelope.payload.project == parsed {
      ByApprovalTouches(x, id, parsed.value, actor, now);
    }
  }

  lemma AccessExplained(x: Database, d': Database, id: Id, r: Option<string>, decision: Decision, f: Fact)
    requires AccessTouches(x, d', id, r, decision)
    ensures Explains(Holds(x, f), Holds(d', f), AccessEvents(x, id, r, decision), f)
  {
  }

  lemma ClaimedAccessExplained(d: Database, x: Database, id: Id, resource: string, actor: NodeId, now: int, f: Fact)
    requires ApprovalsOk(x) && id in x.inbox && x.inbox[id].state.Claimed?
    requires Holds(x, f) <==> Holds(d, f)
    ensures var (d', decision) := AccessSpec(x, id, resource, actor, now);
      Explains(Holds(d, f), Holds(d', f), AccessEvents(x, id, ParseResource(resource), decision), f)
  {
    AccessIsLocal(x, id, resource, actor, now);
    var (d', decision) := AccessSpec(x, id, resource, actor, now);
    AccessExplained(x, d', id, ParseResource(resource), decision, f);
  }

  lemma AuthorizeSpecExplained(d: Database, x: Database, id: Id, consumer: string, token: string, resource: string,
                               actor: NodeId, now: int, f: Fact)
    requires ApprovalsOk(x) && x == ExpireSpec(d, now) && (Holds(x, f) <==> Holds(d, f))
    ensures var (d', r) := AuthorizeSpec(d, id, consumer, token, resource, actor, now);
      Explains(Holds(d, f), Holds(d', f), if r.Ok? then AccessEvents(x, id, ParseResource(resource), r.value) else [], f)
  {
    if HoldsClaim(d.inbox, id, consumer, token, now) {
      ClaimedAccessExplained(d, x, id, resource, actor, now, f);
    }
  }

  lemma AuthorizeExplained(d: Database, id: Id, consumer: string, token: string, resource: string, actor: NodeId,
                           now: int, f: Fact)
    requires ApprovalsOk(d) && Current(f, now)
    ensures var op := Authorize(id, consumer, token, resource, actor, now);
      Explains(Holds(d, f), Holds(Step(d, op), f), Emits(d, op), f)
  {
    ExpireKeeps(d, now);
    ExpirySilent(d, f, now);
    AuthorizeSpecExplained(d, ExpireSpec(d, now), id, consumer, token, resource, actor, now, f);
  }

  lemma ResourceExplained(d: Database, r: string, enabled: bool, f: Fact)
    ensures Explains(Holds(d, f), Holds(d.(resources := d.resources[r := enabled]), f),
                     [if enabled then Opened(r) else Closed(r)], f)
  {
  }

  lemma GrantExplained(d: Database, p: NodeId, r: string, f: Fact)
    ensures Explains(Holds(d, f), Holds(d.(grants := d.grants[(p, r) := true]), f), [GrantMade(p, r)], f)
  {
  }

  lemma RegisterExplained(d: Database, resource: string, f: Fact)
    ensures var op := Register(resource); Explains(Holds(d, f), Holds(Step(d, op), f), Emits(d, op), f)
  {
    hide ParseResource, AuthorizeSpec, DecideSpec, RevokeRequestSpec, RevokeGrantSpec, ExpireSpec, OutboxStep, InboxStep,
      RunStep, Holds;
    var parsed := ParseResource(resource);
    if parsed.Some? { ResourceExplained(d, parsed.value, true, f); }
  }

  lemma SetEnabledExplained(d: Database, resource: string, enabled: bool, f: Fact)
    ensures var op := SetEnabled(resource, enabled); Explains(Holds(d, f), Holds(Step(d, op), f), Emits(d, op), f)
  {
    hide ParseResource, AuthorizeSpec, DecideSpec, RevokeRequestSpec, RevokeGrantSpec, ExpireSpec, OutboxStep, InboxStep,
      RunStep, Holds;
    var parsed := ParseResource(resource);
    if parsed.Some? { ResourceExplained(d, parsed.value, enabled, f); }
  }

  lemma GrantingExplained(d: Database, p: NodeId, resource: string, f: Fact)
    ensures var op := Grant(p, resource); Explains(Holds(d, f), Holds(Step(d, op), f), Emits(d, op), f)
  {
    hide ParseResource, AuthorizeSpec, DecideSpec, RevokeRequestSpec, RevokeGrantSpec, ExpireSpec, OutboxStep, InboxStep,
      RunStep, Holds;
    var parsed := ParseResource(resource);
    if parsed.Some? { GrantExplained(d, p, parsed.value, f); }
  }

  lemma SameApprovalsSameFacts(d: Database, d': Database, f: Fact)
    requires d'.requests == d.requests && d'.resources == d.resources && d'.grants == d.grants
    ensures Holds(d', f) <==> Holds(d, f)
  {
  }

  lemma OthersLeaveApprovals(d: Database, op: Op)
    requires !GroupOf(op).OnApprovals?
    ensures var d' := Step(d, op);
      d'.requests == d.requests && d'.resources == d.resources && d'.grants == d.grants
  {
    hide OutboxStep, InboxStep, ApprovalStep, RunStep;
    if op.Settle? {
      SettleKeepsParked(d, op.id, op.consumer, op.token, op.outcome, op.reply, op.now);
    }
  }

  /** Nothing outside the approvals touches the facts. */
  lemma OthersSilent(d: Database, op: Op, f: Fact)
    requires !GroupOf(op).OnApprovals?
    ensures Emits(d, op) == [] && (Holds(Step(d, op), f) <==> Holds(d, f))
  {
    hide Step;
    OthersLeaveApprovals(d, op);
    SameApprovalsSameFacts(d, Step(d, op), f);
  }

  lemma StepExplained(d: Database, op: Op, f: Fact, now: int)
    requires ApprovalsOk(d) && Current(f, now) && ClockAfter(now, op) == now
    ensures Explains(Holds(d, f), Holds(Step(d, op), f), Emits(d, op), f)
  {
    if !GroupOf(op).OnApprovals? {
      OthersSilent(d, op, f);
    } else {
      match op
      case Authorize(id, consumer, token, resource, actor, at) =>
        AuthorizeExplained(d, id, consumer, token, resource, actor, at, f);
      case Decide(id, v, actor, at) => DecideExplained(d, id, v, actor, at, f);
      case RevokeRequest(id, actor, at) => RevokeRequestExplained(d, id, actor, at, f);
      case RevokeGrant(p, resource, actor, at) => RevokeGrantExplained(d, p, resource, actor, at, f);
      case ExpireRequests(_) => ExpirySilent(d, f, now);
      case Register(resource) => RegisterExplained(d, resource, f);
      case SetEnabled(resource, enabled) => SetEnabledExplained(d, resource, enabled, f);
      case Grant(p, resource) => GrantingExplained(d, p, resource, f);
    }
  }

  lemma StepAgrees(d: Database, h: seq<Event>, t: int, op: Op)
    requires ApprovalsOk(d) && Agrees(d, h, t) && t <= ClockAfter(t, op)
    ensures Agrees(Step(d, op), h + Emits(d, op), ClockAfter(t, op))
  {
    hide Step;
    var now := ClockAfter(t, op);
    forall f | Current(f, now) ensures Holds(Step(d, op), f) <==> Since(h + Emits(d, op), f) {
      StepExplained(d, op, f, now);
      assert Holds(d, f) <==> Since(h, f);
      if Emits(d, op) == [] {
        assert h + Emits(d, op) == h;
      } else {
        SinceAppend(h, Emits(d, op)[0], f);
        assert Emits(d, op) == [Emits(d, op)[0]];
      }
    }
  }
}
