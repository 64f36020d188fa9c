/** What the operations on the outbox do to each of its rows, in plain states and columns
    of the old and the new row. */
module OutboxOutcomes {
  import opened Envelopes
  import opened Ordering
  import opened Tables
  import opened OutboxTable

  // ---- Enqueueing --------------------------------------------------------------

  /** The stored envelope is the new one but for what every attempt chooses anew, and for
      the conversation and the expiry where they are not compared. */
  predicate Repeats(stored: Envelope, e: Envelope, c: Comparison) {
    stored == e.(id := stored.id, origin := stored.origin, createdAt := stored.createdAt,
                 conversation := if c.conversation then e.conversation else stored.conversation,
                 expiresAt := if c.expiry then e.expiresAt else stored.expiresAt)
  }

  /** A request that opens a conversation. */
  predicate Opens(e: Envelope) {
    e.kind.TaskRequest? && e.stream == "agent-coordination" && e.sequence == Some(0) && e.payload.request.Some?
  }

  predicate Holds(row: OutRow, target: NodeId, key: string) {
    row.envelope.target == target && row.envelope.key == key
  }

  /** The conversation was opened already, with another peer or under another key. */
  predicate OpenedBefore(o: Outbox, e: Envelope) {
    && Opens(e)
    && exists id :: id in o && Opens(o[id].envelope) && o[id].envelope.conversation == e.conversation
                    && !Holds(o[id], e.target, e.key)
  }

  lemma FoundIs(o: Outbox, id: Id, target: NodeId, key: string)
    requires OneSlotEach(o) && id in o && Holds(o[id], target, key)
    ensures FindOperation(o, target, key) == Some(id)
  {
    assert InSlot(o, id, target, key);
    var found := FindOperation(o, target, key).value;
    assert SameSlot(o[found].envelope, o[id].envelope);
  }

  /** Everything enqueueing may do: what it refuses, what it answers for a key that is taken,
      and the row it stores otherwise. */
  lemma EnqueueOutcome(o: Outbox, e: Envelope, c: Comparison)
    requires OutboxOk(o)
    ensures var (o', r) := EnqueueSpec(o, e, c);
      && (!ValidEnvelope(e) ==> o' == o && r == Err(Invalid))
      && (ValidEnvelope(e) && OpenedBefore(o, e) ==> o' == o && r == Err(Transition))
      && (ValidEnvelope(e) && !OpenedBefore(o, e) ==>
            && (forall id :: id in o && Holds(o[id], e.target, e.key) ==>
                  && o' == o
                  && r == if Repeats(o[id].envelope, e, c) then Ok(EnqueueResult(id, o[id].state, true)) else Err(Conflict))
            && ((forall id :: id in o ==> !Holds(o[id], e.target, e.key)) ==>
                  if e.id in o then o' == o && r == Err(Transition)
                  else && o' == o[e.id := OutRow(e, Pending, 0, e.createdAt, None, None)]
                       && r == Ok(EnqueueResult(e.id, Pending, false))))
  {
    if ValidEnvelope(e) {
      SecondRoots(o, e);
      assert forall id :: id in o ==> (Holds(o[id], e.target, e.key) <==> InSlot(o, id, e.target, e.key));
      forall id | id in o && Holds(o[id], e.target, e.key)
        ensures FindOperation(o, e.target, e.key) == Some(id)
        ensures SameOperation(o[id].envelope, e, c) <==> Repeats(o[id].envelope, e, c)
      {
        FoundIs(o, id, e.target, e.key);
      }
    }
  }

  lemma SecondRoots(o: Outbox, e: Envelope)
    ensures RootClash(o, e) <==> OpenedBefore(o, e)
  {
    if RootClash(o, e) {
      var id :| id in o && IsRoot(o[id].envelope) && o[id].envelope.conversation == e.conversation
                && !SameSlot(o[id].envelope, e);
      assert Opens(o[id].envelope) && !Holds(o[id], e.target, e.key);
    }
    if OpenedBefore(o, e) {
      var id :| id in o && Opens(o[id].envelope) && o[id].envelope.conversation == e.conversation
                && !Holds(o[id], e.target, e.key);
      assert IsRoot(o[id].envelope) && !SameSlot(o[id].envelope, e);
    }
  }

  // ---- Leasing -------------------------------------------------------------------

  /** Still to be sent, not expired, its time has come, and in nobody's hands: pending, or
      leased until now at most. */
  predicate MayBeLeased(row: OutRow, now: int) {
    && (row.state.Pending? || (row.state.Leased? && row.leaseUntil.Some? && row.leaseUntil.value <= now))
    && (row.envelope.expiresAt.None? || now < row.envelope.expiresAt.value)
    && row.nextAttemptAt <= now
  }

  ghost predicate Older(o: Outbox, a: Id, b: Id)
    requires a in o && b in o
  {
    || o[a].envelope.createdAt < o[b].envelope.createdAt
    || (o[a].envelope.createdAt == o[b].envelope.createdAt && InDictionaryOrder(a, b))
  }

  /** A row that is not handed out: it expires, or its lapsed lease is given up, or it stays. */
  predicate LeftBehind(row: OutRow, row': OutRow, now: int) {
    if row.state.Sent? || row.state.OutQuarantined? || row.state.OutExpired? then row' == row
    else if row.envelope.expiresAt.Some? && row.envelope.expiresAt.value <= now then
      row' == row.(state := OutExpired, leaseOwner := None, leaseUntil := None)
    else if row.state.Leased? && row.leaseUntil.Some? && row.leaseUntil.value <= now then
      row' == row.(state := Pending, leaseOwner := None, leaseUntil := None)
    else row' == row
  }

  /** The worker gets exactly the rows that may be leased, as far as the limit allows and the
      oldest first; each is leased to it until the given time. */
  ghost predicate LeaseOutcome(o: Outbox, o': Outbox, owner: string, limit: nat, until: int, now: int, ids: seq<Id>) {
    && o'.Keys == o.Keys && Distinct(ids) && |ids| <= limit
    && (forall id :: id in ids ==>
          && id in o && MayBeLeased(o[id], now)
          && o'[id] == o[id].(state := Leased, leaseOwner := Some(owner), leaseUntil := Some(until)))
    && (forall j, k :: 0 <= j < k < |ids| ==> ids[j] in o && ids[k] in o && Older(o, ids[j], ids[k]))
    && (forall id :: id in o && id !in ids ==> LeftBehind(o[id], o'[id], now))
    && (forall id :: id in o && id !in ids && MayBeLeased(o[id], now) ==>
          |ids| == limit && forall taken :: taken in ids ==> taken in o && Older(o, taken, id))
  }

  lemma DueMeans(row: OutRow, now: int)
    requires LeaseColumns(row)
    ensures Due(Lapse(Reopen(row, now), now), now) <==> MayBeLeased(row, now)
    ensures LeftBehind(row, Lapse(Reopen(row, now), now), now)
    ensures Due(Lapse(Reopen(row, now), now), now) ==>
              Lapse(Reopen(row, now), now) == row.(state := Pending, leaseOwner := None, leaseUntil := None)
  {
  }

  lemma LeaseIsInOrder(o: Outbox, limit: nat, now: int, j: nat, k: nat)
    requires j < k < |LeaseIds(o, limit, now)|
    ensures var ids := LeaseIds(o, limit, now); ids[j] in o && ids[k] in o && Older(o, ids[j], ids[k])
  {
    var s, ids := DueStamps(Swept(o, now), now), LeaseIds(o, limit, now);
    DueStampsOnePerId(Swept(o, now), now);
    FirstIdsAscend(s, limit, j, k);
    StrLessIsDictionaryOrder(ids[j], ids[k]);
  }

  lemma LeaseIsRight(o: Outbox, owner: string, limit: nat, leaseSeconds: nat, now: int)
    requires RowsOk(o) && limit > 0 && leaseSeconds > 0
    ensures LeaseOutcome(o, LeaseSpec(o, owner, limit, leaseSeconds, now), owner, limit, now + 1000 * leaseSeconds, now,
                         LeaseIds(o, limit, now))
  {
    var ids, w := LeaseIds(o, limit, now), Swept(o, now);
    var o' := LeaseSpec(o, owner, limit, leaseSeconds, now);
    LeasePicksDueRows(o, limit, now);
    forall id | id in ids
      ensures id in o && MayBeLeased(o[id], now)
      ensures o'[id] == o[id].(state := Leased, leaseOwner := Some(owner), leaseUntil := Some(now + 1000 * leaseSeconds))
    {
      var k :| 0 <= k < |ids| && ids[k] == id;
      assert Due(w[ids[k]], now);
      DueMeans(o[id], now);
    }
    forall j, k | 0 <= j < k < |ids| ensures ids[j] in o && ids[k] in o && Older(o, ids[j], ids[k]) {
      LeaseIsInOrder(o, limit, now, j, k);
    }
    forall id | id in o && id !in ids ensures LeftBehind(o[id], o'[id], now) {
      DueMeans(o[id], now);
    }
    forall id | id in o && id !in ids && MayBeLeased(o[id], now)
      ensures |ids| == limit && forall taken :: taken in ids ==> taken in o && Older(o, taken, id)
    {
      DueMeans(o[id], now);
      LeaseTakesOldestFirst(o, limit, now, id);
      forall taken | taken in ids ensures taken in o && Older(o, taken, id) {
        StrLessIsDictionaryOrder(taken, id);
      }
    }
  }

  /** The ids of the messages handed out. */
  function Handed(messages: seq<LeasedMessage>): seq<Id> {
    seq(|messages|, k requires 0 <= k < |messages| => messages[k].envelope.id)
  }

  /** What the worker gets, and the rows it leaves: each message is that of a row leased to
      it, with the number of this attempt. */
  ghost predicate HandsOutOldest(o: Outbox, o': Outbox, owner: string, limit: nat, until: int, now: int,
                                 messages: seq<LeasedMessage>)
  {
    && LeaseOutcome(o, o', owner, limit, until, now, Handed(messages))
    && forall k :: 0 <= k < |messages| ==>
         && messages[k].envelope.id in o
         && messages[k].envelope == o[messages[k].envelope.id].envelope
         && messages[k].attemptNumber == o[messages[k].envelope.id].attempts + 1
  }

  lemma LeaseHandsOutOldest(o: Outbox, owner: string, limit: nat, leaseSeconds: nat, now: int, messages: seq<LeasedMessage>)
    requires RowsOk(o) && limit > 0 && leaseSeconds > 0 && Hands(o, LeaseIds(o, limit, now), messages)
    ensures HandsOutOldest(o, LeaseSpec(o, owner, limit, leaseSeconds, now), owner, limit, now + 1000 * leaseSeconds, now,
                           messages)
  {
    hide LeaseSpec, LeaseIds, LeaseOutcome;
    LeaseIsRight(o, owner, limit, leaseSeconds, now);
    assert Handed(messages) == LeaseIds(o, limit, now);
  }

  // ---- Settling a lease ------------------------------------------------------------

  predicate LeasedTo(o: Outbox, id: Id, owner: string) {
    id in o && o[id].state.Leased? && o[id].leaseOwner == Some(owner)
  }

  /** Only the lease owner settles a row: as sent, as pending again from `retryAt` on, or as
      quarantined; the failures count as attempts. */
  lemma SettlingOutcome(o: Outbox, id: Id, owner: string, retryAt: int)
    ensures !LeasedTo(o, id, owner) ==>
              MarkSentSpec(o, id, owner) == ReleaseSpec(o, id, owner, retryAt) == QuarantineSpec(o, id, owner) == o
    ensures LeasedTo(o, id, owner) ==>
      var e, n := o[id].envelope, o[id].attempts;
      && MarkSentSpec(o, id, owner) == o[id := OutRow(e, Sent, n, o[id].nextAttemptAt, None, None)]
      && ReleaseSpec(o, id, owner, retryAt) == o[id := OutRow(e, Pending, n + 1, retryAt, None, None)]
      && QuarantineSpec(o, id, owner) == o[id := OutRow(e, OutQuarantined, n + 1, o[id].nextAttemptAt, None, None)]
  {
  }
}
