/** The inbox: deduplicated deliveries, claimed by consumers through tokens. */
module InboxTable {
  import opened Envelopes
  import opened Ordering
  import opened Tables

  // ---- Receiving --------------------------------------------------------

  datatype PersistStatus = Inserted | Duplicate | Collision

  function NewInRow(e: Envelope, count: int, now: int, authenticated: bool): InRow {
    InRow(e, Available, None, None, None, 0, now, count, authenticated, None)
  }

  function PersistSpec(i: Inbox, e: Envelope, count: int, now: int, authenticated: bool)
    : (Inbox, Result<PersistStatus>)
  {
    if !ValidEnvelope(e) then (i, Err(Invalid))
    else if e.id !in i then (i[e.id := NewInRow(e, count, now, authenticated)], Ok(Inserted))
    else
      var row := i[e.id];
      if SameInbound(row.envelope, e) then
        (i[e.id := row.(deliveries := if count > row.deliveries then count else row.deliveries,
                        authenticated := row.authenticated || authenticated)],
         Ok(Duplicate))
      else if row.envelope.origin == e.origin then
        (i[e.id := row.(state := Quarantined, deliveries := count)], Ok(Collision))
      else (i, Ok(Collision))
  }

  // ---- Claiming ---------------------------------------------------------

  datatype ClaimFilter =
    | OfKinds(kinds: seq<Kind>)
    | ReadOnlyDispatch(notBefore: Option<int>)
    | AutonomousConsultation

  datatype ClaimedMessage = ClaimedMessage(envelope: Envelope, token: string, authenticated: bool)

  predicate Matches(row: InRow, filter: ClaimFilter, runs: Runs, now: int) {
    var e := row.envelope;
    match filter
    case OfKinds(kinds) => kinds == [] || e.kind in kinds
    case ReadOnlyDispatch(notBefore) =>
      && e.kind.TaskRequest?
      && e.payload.dispatch.Some? && !e.payload.dispatch.value.pinnedGit
      && (notBefore.Some? ==> notBefore.value <= e.createdAt)
    case AutonomousConsultation =>
      && e.kind.TaskRequest?
      && e.stream == COORDINATION_STREAM
      && e.payload.request.Some?
      && e.payload.dispatch.Some? && e.payload.dispatch.value.pinnedGit
      && (e.id in runs && runs[e.id].nextAttemptAt.Some? ==> runs[e.id].nextAttemptAt.value <= now)
  }

  /** Consultations are claimed after their expiry too, so that they can be
      settled as timed out. */
  predicate Claimable(row: InRow, filter: ClaimFilter, runs: Runs, now: int) {
    && row.state.Available?
    && (filter.AutonomousConsultation? || row.envelope.expiresAt.None? || now < row.envelope.expiresAt.value)
    && Matches(row, filter, runs, now)
  }

  function Unclaim(row: InRow, state: InState): InRow {
    row.(state := state, claimOwner := None, claimToken := None, claimUntil := None)
  }

  function LapseClaim(row: InRow, now: int): InRow {
    if row.state.Claimed? && row.claimUntil.Some? && row.claimUntil.value <= now
    then Unclaim(row, Available) else row
  }

  function LapsedClaims(i: Inbox, now: int): Inbox {
    map id | id in i :: LapseClaim(i[id], now)
  }

  function ClaimableStamps(i: Inbox, filter: ClaimFilter, runs: Runs, now: int): set<Stamp> {
    set id | id in i && Claimable(i[id], filter, runs, now) :: Stamp(i[id].firstReceivedAt, id)
  }

  function ClaimedRow(row: InRow, consumer: string, token: string, until: int): InRow {
    row.(state := Claimed, claimOwner := Some(consumer), claimToken := Some(Hashed(token)),
         claimUntil := Some(until), attempts := row.attempts + 1)
  }

  /** Claims one row after another, each with its own random token. */
  function ClaimRows(i: Inbox, ids: seq<Id>, tokens: seq<string>, consumer: string, until: int): Inbox
    requires |ids| <= |tokens|
  {
    if ids == [] then i
    else
      var last := |ids| - 1;
      var before := ClaimRows(i, ids[..last], tokens, consumer, until);
      if ids[last] in before
      then before[ids[last] := ClaimedRow(before[ids[last]], consumer, tokens[last], until)]
      else before
  }

  function ClaimIds(i: Inbox, filter: ClaimFilter, runs: Runs, limit: nat, now: int): seq<Id> {
    FirstIds(ClaimableStamps(LapsedClaims(i, now), filter, runs, now), limit)
  }

  predicate ClaimArguments(consumer: string, limit: int, leaseSeconds: int) {
    consumer != "" && limit > 0 && leaseSeconds > 0
  }

  /** `tokens` are the random tokens drawn by the call. */
  function ClaimSpec(i: Inbox, runs: Runs, consumer: string, limit: int, leaseSeconds: int,
                     filter: ClaimFilter, now: int, tokens: seq<string>): Inbox
  {
    if !ClaimArguments(consumer, limit, leaseSeconds) then i
    else
      var ids := ClaimIds(i, filter, runs, limit, now);
      if |ids| > |tokens| then i
      else ClaimRows(LapsedClaims(i, now), ids, tokens, consumer, now + 1000 * leaseSeconds)
  }

  lemma ClaimableStampsOnePerId(i: Inbox, filter: ClaimFilter, runs: Runs, now: int)
    ensures OnePerId(ClaimableStamps(i, filter, runs, now))
    ensures forall id :: id in IdsOf(ClaimableStamps(i, filter, runs, now)) <==>
                           id in i && Claimable(i[id], filter, runs, now)
  {
    forall id | id in i && Claimable(i[id], filter, runs, now)
      ensures id in IdsOf(ClaimableStamps(i, filter, runs, now))
    {
      assert Stamp(i[id].firstReceivedAt, id) in ClaimableStamps(i, filter, runs, now);
    }
  }

  lemma ClaimPicksClaimableRows(i: Inbox, filter: ClaimFilter, runs: Runs, limit: nat, now: int)
    ensures var ids := ClaimIds(i, filter, runs, limit, now);
      && Distinct(ids) && |ids| <= limit
      && forall k :: 0 <= k < |ids| ==>
           ids[k] in i && Claimable(LapsedClaims(i, now)[ids[k]], filter, runs, now)
  {
    var w := LapsedClaims(i, now);
    ClaimableStampsOnePerId(w, filter, runs, now);
    FirstIdsPicks(ClaimableStamps(w, filter, runs, now), limit);
  }

  /** A claimable row is left behind only when the limit is used up by rows that
      arrived earlier. */
  lemma ClaimTakesOldestFirst(i: Inbox, filter: ClaimFilter, runs: Runs, limit: nat, now: int, left: Id)
    requires left in i && Claimable(LapsedClaims(i, now)[left], filter, runs, now)
    requires left !in ClaimIds(i, filter, runs, limit, now)
    ensures var ids := ClaimIds(i, filter, runs, limit, now);
      && |ids| == limit
      && forall id :: id in ids ==>
           id in i && Earlier(Stamp(i[id].firstReceivedAt, id), Stamp(i[left].firstReceivedAt, left))
  {
    var w := LapsedClaims(i, now);
    var s, ids := ClaimableStamps(w, filter, runs, now), ClaimIds(i, filter, runs, limit, now);
    ClaimableStampsOnePerId(w, filter, runs, now);
    FirstIdsPicks(s, limit);
    assert left in IdsOf(s);
    if |s| <= limit {
      FirstIdsTakesAll(s, limit);
    }
    forall id | id in ids
      ensures id in i && Earlier(Stamp(i[id].firstReceivedAt, id), Stamp(i[left].firstReceivedAt, left))
    {
      assert id in IdsOf(s);
      assert Stamp(w[id].firstReceivedAt, id) in s && Stamp(w[left].firstReceivedAt, left) in s;
    }
  }

  /** The loop, row by row: the k-th picked row carries the k-th token and all
      other rows are untouched. */
  lemma {:induction false} ClaimRowsPointwise(i: Inbox, ids: seq<Id>, tokens: seq<string>, consumer: string, until: int)
    requires |ids| <= |tokens| && Distinct(ids)
    requires forall k :: 0 <= k < |ids| ==> ids[k] in i
    ensures ClaimRows(i, ids, tokens, consumer, until).Keys == i.Keys
    ensures forall id :: id in i && id !in ids ==> ClaimRows(i, ids, tokens, consumer, until)[id] == i[id]
    ensures forall k :: 0 <= k < |ids| ==>
              ClaimRows(i, ids, tokens, consumer, until)[ids[k]] == ClaimedRow(i[ids[k]], consumer, tokens[k], until)
    decreases |ids|
  {
    if ids != [] {
      var last := |ids| - 1;
      ClaimRowsPointwise(i, ids[..last], tokens, consumer, until);
      assert ids == ids[..last] + [ids[last]];
      assert ids[last] !in ids[..last];
    }
  }

  // ---- Using a claim ----------------------------------------------------

  /** The one test every fenced operation makes of a token. */
  predicate HoldsClaim(i: Inbox, id: Id, consumer: string, token: string, now: int) {
    && id in i
    && i[id].state.Claimed?
    && i[id].claimOwner == Some(consumer)
    && i[id].claimToken == Some(Hashed(token))
    && i[id].claimUntil.Some?
    && now < i[id].claimUntil.value
  }

  function RenewSpec(i: Inbox, id: Id, consumer: string, token: string, leaseSeconds: int, now: int)
    : (Inbox, Result<int>)
  {
    if leaseSeconds <= 0 then (i, Err(Invalid))
    else if HoldsClaim(i, id, consumer, token, now)
    then (i[id := i[id].(claimUntil := Some(now + 1000 * leaseSeconds))], Ok(now + 1000 * leaseSeconds))
    else (i, Err(Transition))
  }

  datatype AckOutcome = AckProcessed | AckRejected | AckRetry

  function TargetState(outcome: AckOutcome): InState {
    match outcome
    case AckProcessed => Processed
    case AckRejected => InRejected
    case AckRetry => Available
  }

  function AcknowledgeSpec(i: Inbox, id: Id, consumer: string, token: string, outcome: AckOutcome, now: int)
    : (Inbox, Result<InState>)
  {
    var to := TargetState(outcome);
    if id !in i then (i, Err(Transition))
    else if i[id].state == to && !to.Available? then (i, Ok(to))
    else if HoldsClaim(i, id, consumer, token, now) then (i[id := Unclaim(i[id], to)], Ok(to))
    else (i, Err(Transition))
  }

  function ParkSpec(i: Inbox, id: Id): Inbox
    requires id in i
  {
    i[id := Unclaim(i[id], Quarantined)]
  }

  function RequeueSpec(i: Inbox, id: Id): Inbox {
    if id in i && i[id].state.Quarantined? then i[id := Unclaim(i[id], Available)] else i
  }

  // ---- Invariant --------------------------------------------------------

  /** A claimed row has all its claim columns; an available or settled one has
      none. A quarantined row may keep the columns of the claim it interrupted. */
  ghost predicate ClaimColumns(row: InRow) {
    && (row.claimOwner.Some? <==> row.claimToken.Some?)
    && (row.claimOwner.Some? <==> row.claimUntil.Some?)
    && (row.state.Claimed? ==> row.claimOwner.Some?)
    && (row.claimOwner.Some? ==> row.state.Claimed? || row.state.Quarantined?)
  }

  ghost predicate InboxOk(i: Inbox) {
    forall id :: id in i ==> i[id].envelope.id == id && Sealed(i[id].envelope) && ClaimColumns(i[id])
  }

  /** Rows are never dropped and a stored envelope never changes; provenance is
      only ever upgraded. */
  ghost predicate Retains(i: Inbox, i': Inbox) {
    forall id :: id in i ==>
      id in i' && i'[id].envelope == i[id].envelope && (i[id].authenticated ==> i'[id].authenticated)
  }

  lemma RetainsTransitive(a: Inbox, b: Inbox, c: Inbox)
    requires Retains(a, b) && Retains(b, c)
    ensures Retains(a, c)
  {
  }

  lemma RowwiseInbox(i: Inbox, i': Inbox)
    requires InboxOk(i) && i'.Keys == i.Keys
    requires forall id :: id in i ==>
      && i'[id].envelope == i[id].envelope
      && (i[id].authenticated ==> i'[id].authenticated)
      && ClaimColumns(i'[id])
    ensures InboxOk(i') && Retains(i, i')
  {
  }

  lemma RowReplaceKeeps(i: Inbox, id: Id, row: InRow)
    requires InboxOk(i) && id in i
    requires row.envelope == i[id].envelope && (i[id].authenticated ==> row.authenticated) && ClaimColumns(row)
    ensures InboxOk(i[id := row]) && Retains(i, i[id := row])
  {
    RowwiseInbox(i, i[id := row]);
  }

  lemma PersistKeeps(i: Inbox, e: Envelope, count: int, now: int, authenticated: bool)
    requires InboxOk(i)
    ensures InboxOk(PersistSpec(i, e, count, now, authenticated).0)
    ensures Retains(i, PersistSpec(i, e, count, now, authenticated).0)
  {
    var i' := PersistSpec(i, e, count, now, authenticated).0;
    assert InboxOk(i') && Retains(i, i') by {
      if i' != i {
        assert Sealed(e);
        if e.id in i {
          assert i' == i[e.id := i'[e.id]];
          RowReplaceKeeps(i, e.id, i'[e.id]);
        }
      }
    }
  }

  lemma ClaimKeepsRow(i: Inbox, runs: Runs, consumer: string, limit: nat, until: int,
                      filter: ClaimFilter, now: int, tokens: seq<string>, id: Id)
    requires id in i && ClaimColumns(i[id]) && |ClaimIds(i, filter, runs, limit, now)| <= |tokens|
    ensures var i' := ClaimRows(LapsedClaims(i, now), ClaimIds(i, filter, runs, limit, now), tokens, consumer, until);
      && i'.Keys == i.Keys
      && ClaimColumns(i'[id]) && i'[id].envelope == i[id].envelope
      && i'[id].authenticated == i[id].authenticated && i'[id].result == i[id].result
      && (i[id].state.Quarantined? ==> i'[id] == i[id])
  {
    var w, ids := LapsedClaims(i, now), ClaimIds(i, filter, runs, limit, now);
    ClaimPicksClaimableRows(i, filter, runs, limit, now);
    ClaimRowsPointwise(w, ids, tokens, consumer, until);
    if id in ids {
      var k :| 0 <= k < |ids| && ids[k] == id;
      assert Claimable(w[ids[k]], filter, runs, now);
    }
  }

  lemma ClaimKeeps(i: Inbox, runs: Runs, consumer: string, limit: int, leaseSeconds: int,
                   filter: ClaimFilter, now: int, tokens: seq<string>)
    requires InboxOk(i)
    ensures InboxOk(ClaimSpec(i, runs, consumer, limit, leaseSeconds, filter, now, tokens))
    ensures Retains(i, ClaimSpec(i, runs, consumer, limit, leaseSeconds, filter, now, tokens))
  {
    var i' := ClaimSpec(i, runs, consumer, limit, leaseSeconds, filter, now, tokens);
    if i' != i {
      forall id | id in i
        ensures i'.Keys == i.Keys
        ensures i'[id].envelope == i[id].envelope && i'[id].authenticated == i[id].authenticated && ClaimColumns(i'[id])
      {
        ClaimKeepsRow(i, runs, consumer, limit, now + 1000 * leaseSeconds, filter, now, tokens, id);
      }
      ClaimKeepsKeys(i, runs, consumer, limit, leaseSeconds, filter, now, tokens);
      RowwiseInbox(i, i');
    }
  }

  lemma ClaimKeepsKeys(i: Inbox, runs: Runs, consumer: string, limit: int, leaseSeconds: int,
                       filter: ClaimFilter, now: int, tokens: seq<string>)
    ensures ClaimSpec(i, runs, consumer, limit, leaseSeconds, filter, now, tokens).Keys == i.Keys
  {
    if ClaimArguments(consumer, limit, leaseSeconds) && |ClaimIds(i, filter, runs, limit, now)| <= |tokens| {
      ClaimPicksClaimableRows(i, filter, runs, limit, now);
      ClaimRowsPointwise(LapsedClaims(i, now), ClaimIds(i, filter, runs, limit, now), tokens, consumer,
                         now + 1000 * leaseSeconds);
    }
  }
}
