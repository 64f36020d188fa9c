/** The bridge worker: it moves leased messages to the transport and incoming
    deliveries into the inbox. The transport's answers are parameters. */
module Worker {
  import opened Envelopes
  import opened Tables
  import opened OutboxTable
  import opened InboxTable
  import opened BridgeDatabases
  import opened OutboxOutcomes

  const BATCH := 10
  const LEASE_SECONDS := 60
  const MAX_RETRY_DELAY := 300_000

  datatype SendResult = Delivered | Permanent | Transient

  function Power2(n: nat): (p: nat)
    ensures p >= 1
  {
    if n == 0 then 1 else 2 * Power2(n - 1)
  }

  /** 1000 * 2^attempt milliseconds, the exponent at most 8, at most 5 minutes. */
  function RetryDelay(attempt: nat): nat {
    var delay := 1000 * Power2(if attempt < 8 then attempt else 8);
    if delay < MAX_RETRY_DELAY then delay else MAX_RETRY_DELAY
  }

  lemma RetryDelayGrows(a: nat, b: nat)
    requires a <= b
    ensures 1000 <= RetryDelay(a) <= RetryDelay(b) <= MAX_RETRY_DELAY
  {
    PowerGrows(if a < 8 then a else 8, if b < 8 then b else 8);
  }

  lemma {:induction false} PowerGrows(a: nat, b: nat)
    requires a <= b
    ensures Power2(a) <= Power2(b)
  {
    if a < b {
      PowerGrows(a, b - 1);
    }
  }

  /** The delay doubles from one second on and stays at 256 seconds from the eighth attempt
      on; the five-minute limit is never reached. */
  lemma RetryDelayDoubles(n: nat)
    ensures RetryDelay(0) == 1000
    ensures n < 8 ==> RetryDelay(n + 1) == 2 * RetryDelay(n)
    ensures n >= 8 ==> RetryDelay(n) == 256_000
  {
    assert Power2(8) == 2 * Power2(7) && Power2(7) == 2 * Power2(6) && Power2(6) == 2 * Power2(5);
    assert Power2(5) == 2 * Power2(4) && Power2(4) == 2 * Power2(3) && Power2(3) == 8;
    if n < 8 {
      PowerGrows(n + 1, 8);
    }
  }

  /** What becomes of a leased row: `at` is the time the send failed. */
  function AfterSend(row: OutRow, authorized: bool, result: SendResult, at: int): OutRow {
    if !authorized || result.Permanent? then Unlease(row, OutQuarantined).(attempts := row.attempts + 1)
    else if result.Delivered? then Unlease(row, Sent)
    else Unlease(row, Pending).(attempts := row.attempts + 1, nextAttemptAt := at + RetryDelay(row.attempts + 1))
  }

  /** The row after the attempt: sent, if the transport took it; quarantined, if its target is
      not authorized or the transport refuses it for good; else pending again, later. */
  predicate AttemptOutcome(row: OutRow, row': OutRow, authorized: bool, result: SendResult, at: int) {
    var e, n := row.envelope, row.attempts;
    if !authorized then row' == OutRow(e, OutQuarantined, n + 1, row.nextAttemptAt, None, None)
    else
      match result
      case Delivered => row' == OutRow(e, Sent, n, row.nextAttemptAt, None, None)
      case Permanent => row' == OutRow(e, OutQuarantined, n + 1, row.nextAttemptAt, None, None)
      case Transient => row' == OutRow(e, Pending, n + 1, at + RetryDelay(n + 1), None, None)
  }

  lemma AttemptIsRight(row: OutRow, authorized: bool, result: SendResult, at: int)
    ensures AttemptOutcome(row, AfterSend(row, authorized, result, at), authorized, result, at)
  {
  }

  /** One round of the worker: the oldest rows that may be leased were tried, each once and in
      this order, and no other row did more than lapse. */
  ghost predicate RoundOutcome(o: Outbox, o': Outbox, now: int, ids: seq<Id>, authorized: set<NodeId>,
                               results: seq<SendResult>, clock: seq<int>)
  {
    && |ids| <= |results| && |ids| <= |clock| && |ids| <= 10 && Distinct(ids) && o'.Keys == o.Keys
    && (forall k :: 0 <= k < |ids| ==>
          && ids[k] in o && MayBeLeased(o[ids[k]], now)
          && AttemptOutcome(o[ids[k]], o'[ids[k]], o[ids[k]].envelope.target in authorized, results[k], clock[k]))
    && (forall j, k :: 0 <= j < k < |ids| ==> ids[j] in o && ids[k] in o && Older(o, ids[j], ids[k]))
    && (forall id :: id in o && id !in ids ==> LeftBehind(o[id], o'[id], now))
    && (forall id :: id in o && id !in ids && MayBeLeased(o[id], now) ==>
          |ids| == 10 && forall taken :: taken in ids ==> taken in o && Older(o, taken, id))
  }

  lemma RoundIsRight(o: Outbox, o': Outbox, now: int, owner: string, authorized: set<NodeId>, results: seq<SendResult>,
                     clock: seq<int>)
    requires RowsOk(o) && |results| >= BATCH && |clock| >= BATCH && |LeaseIds(o, BATCH, now)| <= BATCH
    requires var ids := LeaseIds(o, BATCH, now);
      SettledUpTo(Swept(o, now), o', ids, |ids|, owner, now + 1000 * LEASE_SECONDS, authorized, results, clock)
    ensures RoundOutcome(o, o', now, LeaseIds(o, BATCH, now), authorized, results, clock)
  {
    hide AttemptOutcome, MayBeLeased, Older, LeaseIds, AfterSend, LeaseSpec, Reopen, Lapse;
    var ids, w := LeaseIds(o, BATCH, now), Swept(o, now);
    LeaseIsRight(o, owner, BATCH, LEASE_SECONDS, now);
    forall k | 0 <= k < |ids|
      ensures ids[k] in o
      ensures AttemptOutcome(o[ids[k]], o'[ids[k]], o[ids[k]].envelope.target in authorized, results[k], clock[k])
    {
      assert ids[k] in ids;
      DueMeans(o[ids[k]], now);
      PickedIsDue(o, BATCH, now, k);
      AttemptIsRight(w[ids[k]], o[ids[k]].envelope.target in authorized, results[k], clock[k]);
      SweptAttempt(o[ids[k]], w[ids[k]], o'[ids[k]], o[ids[k]].envelope.target in authorized, results[k], clock[k], now);
    }
    forall id | id in o && id !in ids ensures LeftBehind(o[id], o'[id], now) {
      DueMeans(o[id], now);
    }
  }

  lemma PickedIsDue(o: Outbox, limit: nat, now: int, k: nat)
    requires k < |LeaseIds(o, limit, now)|
    ensures var id := LeaseIds(o, limit, now)[k]; id in o && Due(Swept(o, now)[id], now)
  {
    LeasePicksDueRows(o, limit, now);
  }

  lemma SweptAttempt(row: OutRow, swept: OutRow, row': OutRow, authorized: bool, result: SendResult, at: int, now: int)
    requires LeaseColumns(row) && swept == Lapse(Reopen(row, now), now)
    requires AttemptOutcome(swept, row', authorized, result, at)
    ensures AttemptOutcome(row, row', authorized, result, at)
  {
  }

  /** `o` is the swept outbox `w` after the first `k` of the leased messages were
      dealt with: those are settled, the others leased, all other rows as before. */
  ghost predicate SettledUpTo(w: Outbox, o: Outbox, ids: seq<Id>, k: nat, owner: string, until: int,
                              authorized: set<NodeId>, results: seq<SendResult>, clock: seq<int>)
    requires k <= |ids| <= |results| && |ids| <= |clock|
  {
    && o.Keys == w.Keys
    && (forall id :: id in w && id !in ids ==> o[id] == w[id])
    && (forall j :: 0 <= j < |ids| ==> ids[j] in w && ids[j] in o)
    && (forall j :: 0 <= j < k ==>
          o[ids[j]] == AfterSend(w[ids[j]], w[ids[j]].envelope.target in authorized, results[j], clock[j]))
    && (forall j :: k <= j < |ids| ==> o[ids[j]] == LeasedRow(w[ids[j]], owner, until))
  }

  lemma SettleNext(w: Outbox, o: Outbox, ids: seq<Id>, k: nat, owner: string, until: int,
                   authorized: set<NodeId>, results: seq<SendResult>, clock: seq<int>)
    requires k < |ids| <= |results| && |ids| <= |clock| && Distinct(ids)
    requires SettledUpTo(w, o, ids, k, owner, until, authorized, results, clock)
    ensures var row := AfterSend(o[ids[k]], w[ids[k]].envelope.target in authorized, results[k], clock[k]);
      SettledUpTo(w, o[ids[k] := row], ids, k + 1, owner, until, authorized, results, clock)
  {
  }

  lemma NothingSettledYet(before: Outbox, o: Outbox, owner: string, now: int,
                          authorized: set<NodeId>, results: seq<SendResult>, clock: seq<int>)
    requires |results| >= BATCH && |clock| >= BATCH
    requires o == LeaseSpec(before, owner, BATCH, LEASE_SECONDS, now)
    ensures var w, ids := Swept(before, now), LeaseIds(before, BATCH, now);
      && Distinct(ids) && |ids| <= BATCH
      && SettledUpTo(w, o, ids, 0, owner, now + 1000 * LEASE_SECONDS, authorized, results, clock)
  {
    PickedArePending(before, BATCH, now);
    LeasePicksDueRows(before, BATCH, now);
  }

  lemma NextIsHeld(before: Outbox, o: Outbox, ids: seq<Id>, k: nat, now: int, owner: string, until: int,
                   authorized: set<NodeId>, results: seq<SendResult>, clock: seq<int>, messages: seq<LeasedMessage>)
    requires k < |ids| <= |results| && |ids| <= |clock| && Hands(before, ids, messages)
    requires SettledUpTo(Swept(before, now), o, ids, k, owner, until, authorized, results, clock)
    requires forall id :: id in before ==> before[id].envelope.id == id
    ensures messages[k].envelope.id == ids[k] && HoldsLease(o, ids[k], owner)
    ensures o[ids[k]].attempts + 1 == messages[k].attemptNumber
    ensures messages[k].envelope == Swept(before, now)[ids[k]].envelope
  {
  }

  datatype InboundDelivery = InboundDelivery(body: Option<Envelope>, count: int, session: Option<Id>)

  datatype Refusal = EnvelopeValidationFailed | WrongTargetSystem | UnauthorizedOriginNode | SessionMismatch
                   | MessageIdentityCollision

  datatype Settled = Completed | Abandoned | DeadLettered(reason: Refusal)

  /** The checks before a delivery is stored, in order. */
  function Objection(d: InboundDelivery, self: NodeId, authorized: set<NodeId>): Option<Refusal> {
    if d.body.None? || !ValidEnvelope(d.body.value) then Some(EnvelopeValidationFailed)
    else if d.body.value.target != self then Some(WrongTargetSystem)
    else if d.body.value.origin !in authorized then Some(UnauthorizedOriginNode)
    else if d.session.Some? && d.session.value != "" && d.session.value != d.body.value.conversation
    then Some(SessionMismatch)
    else None
  }

  /** A delivery is refused for the first of these that applies: it is no valid envelope, not
      for this node, not from an authorized one, or its session is not its conversation's. */
  lemma ObjectionMeans(d: InboundDelivery, self: NodeId, authorized: set<NodeId>)
    ensures var r := Objection(d, self, authorized);
      var valid := d.body.Some? && ValidEnvelope(d.body.value);
      && (r == Some(EnvelopeValidationFailed) <==> !valid)
      && (r == Some(WrongTargetSystem) <==> valid && d.body.value.target != self)
      && (r == Some(UnauthorizedOriginNode) <==>
            valid && d.body.value.target == self && d.body.value.origin !in authorized)
      && (r == Some(SessionMismatch) <==>
            && valid && d.body.value.target == self && d.body.value.origin in authorized
            && d.session.Some? && d.session.value != "" && d.session.value != d.body.value.conversation)
      && (r.None? <==>
            && valid && d.body.value.target == self && d.body.value.origin in authorized
            && (d.session.None? || d.session.value == "" || d.session.value == d.body.value.conversation))
  {
  }

  class BridgeWorker {
    const instanceId: string
    const systemId: NodeId
    const authorizedNodeIds: set<NodeId>
    const database: BridgeDatabase

    constructor (instanceId: string, systemId: NodeId, authorizedNodeIds: set<NodeId>, database: BridgeDatabase)
      ensures this.instanceId == instanceId && this.systemId == systemId
      ensures this.authorizedNodeIds == authorizedNodeIds && this.database == database
    {
      this.instanceId, this.systemId, this.authorizedNodeIds, this.database :=
        instanceId, systemId, authorizedNodeIds, database;
    }

    /** Sends the due messages, one after another. Afterwards each of them is
        sent, quarantined, or pending for a later time, and no other row has
        changed but for the sweep that precedes every lease. */
    method RunOutboundOnce(now: int, results: seq<SendResult>, clock: seq<int>) returns (count: nat)
      requires database.Valid() && |results| >= BATCH && |clock| >= BATCH
      modifies database`outbox
      ensures database.Valid()
      ensures var w, ids := Swept(old(database.outbox), now), LeaseIds(old(database.outbox), BATCH, now);
        && count == |ids| <= BATCH
        && SettledUpTo(w, database.outbox, ids, count, instanceId, now + 1000 * LEASE_SECONDS, authorizedNodeIds, results,
                       clock)
      ensures RoundOutcome(old(database.outbox), database.outbox, now, LeaseIds(old(database.outbox), BATCH, now),
                           authorizedNodeIds, results, clock)
    {
      database.ValidHasRows();
      ghost var before, ids := database.outbox, LeaseIds(database.outbox, BATCH, now);
      assert forall id :: id in before ==> before[id].envelope.id == id;
      var leased := database.LeaseOutbox(instanceId, BATCH, LEASE_SECONDS, now);
      NothingSettledYet(before, database.outbox, instanceId, now, authorizedNodeIds, results, clock);
      SendEach(leased.value, results, clock, before, ids, now);
      count := |leased.value|;
      RoundIsRight(before, database.outbox, now, instanceId, authorizedNodeIds, results, clock);
    }

    method SendEach(leased: seq<LeasedMessage>, results: seq<SendResult>, clock: seq<int>,
                    ghost before: Outbox, ghost ids: seq<Id>, ghost now: int)
      requires database.Valid() && |leased| <= |results| && |leased| <= |clock|
      requires forall id :: id in before ==> before[id].envelope.id == id
      requires Hands(before, ids, leased) && Distinct(ids)
      requires SettledUpTo(Swept(before, now), database.outbox, ids, 0, instanceId, now + 1000 * LEASE_SECONDS,
                           authorizedNodeIds, results, clock)
      modifies database`outbox
      ensures database.Valid()
      ensures SettledUpTo(Swept(before, now), database.outbox, ids, |ids|, instanceId, now + 1000 * LEASE_SECONDS,
                          authorizedNodeIds, results, clock)
    {
      ghost var w, until := Swept(before, now), now + 1000 * LEASE_SECONDS;
      for k := 0 to |leased|
        invariant database.Valid()
        invariant SettledUpTo(w, database.outbox, ids, k, instanceId, until, authorizedNodeIds, results, clock)
      {
        SendNext(leased, k, results, clock, before, ids, now);
      }
    }

    method SendNext(leased: seq<LeasedMessage>, k: nat, results: seq<SendResult>, clock: seq<int>,
                    ghost before: Outbox, ghost ids: seq<Id>, ghost now: int)
      requires database.Valid() && k < |leased| <= |results| && |leased| <= |clock|
      requires forall id :: id in before ==> before[id].envelope.id == id
      requires Hands(before, ids, leased) && Distinct(ids)
      requires SettledUpTo(Swept(before, now), database.outbox, ids, k, instanceId, now + 1000 * LEASE_SECONDS,
                           authorizedNodeIds, results, clock)
      modifies database`outbox
      ensures database.Valid()
      ensures SettledUpTo(Swept(before, now), database.outbox, ids, k + 1, instanceId, now + 1000 * LEASE_SECONDS,
                          authorizedNodeIds, results, clock)
    {
      ghost var w, until := Swept(before, now), now + 1000 * LEASE_SECONDS;
      SettleNext(w, database.outbox, ids, k, instanceId, until, authorizedNodeIds, results, clock);
      NextIsHeld(before, database.outbox, ids, k, now, instanceId, until, authorizedNodeIds, results, clock, leased);
      SettleLease(leased[k], results[k], clock[k]);
    }

    method SettleLease(item: LeasedMessage, result: SendResult, at: int)
      requires database.Valid() && HoldsLease(database.outbox, item.envelope.id, instanceId)
      requires database.outbox[item.envelope.id].attempts + 1 == item.attemptNumber
      modifies database`outbox
      ensures database.Valid()
      ensures var id := item.envelope.id;
        database.outbox == old(database.outbox)[
          id := AfterSend(old(database.outbox[id]), item.envelope.target in authorizedNodeIds, result, at)]
    {
      var id := item.envelope.id;
      if item.envelope.target !in authorizedNodeIds {
        var _ := database.QuarantineOutbox(id, instanceId);
        return;
      }
      match result
      case Delivered =>
        var _ := database.MarkOutboxSent(id, instanceId);
      case Permanent =>
        var _ := database.QuarantineOutbox(id, instanceId);
      case Transient =>
        var _ := database.ReleaseOutboxLease(id, instanceId, at + RetryDelay(item.attemptNumber));
    }

    /** `storageFails` says whether the database could not be written. A delivery
        is completed only when the inbox holds that very envelope, and it is
        refused only for an objection or a stored message with its id. */
    method ProcessInboundDelivery(d: InboundDelivery, now: int, storageFails: bool) returns (settled: Settled)
      requires database.Valid()
      modifies database`inbox
      ensures database.Valid()
      ensures settled.Completed? ==>
        && d.body.Some? && d.body.value.id in database.inbox
        && database.inbox[d.body.value.id].envelope == d.body.value
        && database.inbox[d.body.value.id].authenticated
      ensures var objection := Objection(d, systemId, authorizedNodeIds);
        && (settled.DeadLettered? && settled.reason.MessageIdentityCollision? <==>
              && objection.None? && !storageFails
              && d.body.value.id in old(database.inbox)
              && old(database.inbox[d.body.value.id].envelope) != d.body.value)
        && (settled.DeadLettered? && !settled.reason.MessageIdentityCollision? <==> objection.Some?)
        && (objection.Some? ==> settled == DeadLettered(objection.value))
        && (settled.Abandoned? <==> objection.None? && storageFails)
      ensures database.inbox ==
              if Objection(d, systemId, authorizedNodeIds).Some? || storageFails then old(database.inbox)
              else PersistSpec(old(database.inbox), d.body.value, d.count, now, true).0
    {
      var objection := Objection(d, systemId, authorizedNodeIds);
      if objection.Some? {
        return DeadLettered(objection.value);
      }
      if storageFails {
        return Abandoned;
      }
      var e := d.body.value;
      if e.id in database.inbox {
        SameInboundIsEquality(database.inbox[e.id].envelope, e);
      }
      var persisted := database.PersistIncoming(e, d.count, now, true);
      if persisted == Ok(Collision) {
        return DeadLettered(MessageIdentityCollision);
      }
      settled := Settled.Completed;
    }
  }
}
