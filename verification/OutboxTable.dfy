/** The outbox: an idempotent queue whose rows are leased to bridge workers. */
module OutboxTable {
  import opened Envelopes
  import opened Ordering
  import opened Tables

  datatype EnqueueResult = EnqueueResult(id: Id, state: OutState, duplicate: bool)

  datatype Comparison = Comparison(conversation: bool, expiry: bool)

  datatype LeasedMessage = LeasedMessage(envelope: Envelope, attemptNumber: nat)

  // ---- Enqueue ----------------------------------------------------------

  predicate IsRoot(e: Envelope) {
    e.kind.TaskRequest? && e.stream == COORDINATION_STREAM && e.sequence == Some(0) && e.payload.request.Some?
  }

  predicate SameSlot(a: Envelope, b: Envelope) {
    a.target == b.target && a.key == b.key
  }

  predicate RootClash(o: Outbox, e: Envelope) {
    IsRoot(e) &&
    exists id :: id in o && IsRoot(o[id].envelope) && o[id].envelope.conversation == e.conversation
                 && !SameSlot(o[id].envelope, e)
  }

  predicate InSlot(o: Outbox, id: Id, target: NodeId, key: string) {
    id in o && o[id].envelope.target == target && o[id].envelope.key == key
  }

  ghost function FindOperation(o: Outbox, target: NodeId, key: string): (r: Option<Id>)
    ensures r.Some? ==> InSlot(o, r.value, target, key)
    ensures r.None? ==> forall id :: !InSlot(o, id, target, key)
  {
    if exists id :: InSlot(o, id, target, key) then
      var id :| InSlot(o, id, target, key); Some(id)
    else None
  }

  predicate SameOperation(a: Envelope, b: Envelope, c: Comparison) {
    && a.target == b.target
    && a.kind == b.kind
    && a.stream == b.stream
    && a.payloadSha == b.payloadSha
    && a.correlation == b.correlation
    && a.causation == b.causation
    && a.sequence == b.sequence
    && (c.conversation ==> a.conversation == b.conversation)
    && (c.expiry ==> a.expiresAt == b.expiresAt)
  }

  function NewOutRow(e: Envelope): OutRow {
    OutRow(e, Pending, 0, e.createdAt, None, None)
  }

  /** The row-level insert: "INSERT OR IGNORE", then the idempotency check. */
  ghost function EnqueueRow(o: Outbox, e: Envelope, c: Comparison): (Outbox, Result<EnqueueResult>) {
    if RootClash(o, e) then (o, Err(Transition))
    else
      match FindOperation(o, e.target, e.key)
      case Some(id) =>
        if SameOperation(o[id].envelope, e, c)
        then (o, Ok(EnqueueResult(id, o[id].state, true)))
        else (o, Err(Conflict))
      case None =>
        if e.id in o then (o, Err(Transition))
        else (o[e.id := NewOutRow(e)], Ok(EnqueueResult(e.id, Pending, false)))
  }

  ghost function EnqueueSpec(o: Outbox, e: Envelope, c: Comparison): (Outbox, Result<EnqueueResult>) {
    if ValidEnvelope(e) then EnqueueRow(o, e, c) else (o, Err(Invalid))
  }

  // ---- Lease ------------------------------------------------------------

  function Reopen(row: OutRow, now: int): OutRow {
    if row.state.Leased? && row.leaseUntil.Some? && row.leaseUntil.value <= now
    then row.(state := Pending, leaseOwner := None, leaseUntil := None)
    else row
  }

  function Lapse(row: OutRow, now: int): OutRow {
    if (row.state.Pending? || row.state.Leased?) && row.envelope.expiresAt.Some? && row.envelope.expiresAt.value <= now
    then row.(state := OutExpired, leaseOwner := None, leaseUntil := None)
    else row
  }

  function Swept(o: Outbox, now: int): Outbox {
    map id | id in o :: Lapse(Reopen(o[id], now), now)
  }

  predicate Due(row: OutRow, now: int) {
    row.state.Pending? && row.nextAttemptAt <= now
  }

  function DueStamps(o: Outbox, now: int): set<Stamp> {
    set id | id in o && Due(o[id], now) :: Stamp(o[id].envelope.createdAt, id)
  }

  function LeasedRow(row: OutRow, owner: string, until: int): OutRow {
    row.(state := Leased, leaseOwner := Some(owner), leaseUntil := Some(until))
  }

  function LeaseRows(o: Outbox, ids: seq<Id>, owner: string, until: int): Outbox {
    map id | id in o :: if id in ids then LeasedRow(o[id], owner, until) else o[id]
  }

  /** The messages handed to the worker, in the order they were picked. */
  ghost predicate Hands(o: Outbox, ids: seq<Id>, messages: seq<LeasedMessage>) {
    && |messages| == |ids|
    && forall k :: 0 <= k < |ids| ==>
         ids[k] in o && messages[k] == LeasedMessage(o[ids[k]].envelope, o[ids[k]].attempts + 1)
  }

  function LeaseIds(o: Outbox, limit: nat, now: int): seq<Id> {
    FirstIds(DueStamps(Swept(o, now), now), limit)
  }

  function LeaseSpec(o: Outbox, owner: string, limit: int, leaseSeconds: int, now: int): Outbox {
    if limit <= 0 || leaseSeconds <= 0 then o
    else LeaseRows(Swept(o, now), LeaseIds(o, limit, now), owner, now + 1000 * leaseSeconds)
  }

  lemma DueStampsOnePerId(o: Outbox, now: int)
    ensures OnePerId(DueStamps(o, now))
    ensures forall id :: id in IdsOf(DueStamps(o, now)) <==> id in o && Due(o[id], now)
  {
    forall id | id in o && Due(o[id], now) ensures id in IdsOf(DueStamps(o, now)) {
      assert Stamp(o[id].envelope.createdAt, id) in DueStamps(o, now);
    }
  }

  /** Leasing hands out only unexpired pending rows whose time has come. */
  lemma LeasePicksDueRows(o: Outbox, limit: nat, now: int)
    ensures var ids := LeaseIds(o, limit, now);
      && Distinct(ids) && |ids| <= limit
      && forall k :: 0 <= k < |ids| ==>
           && ids[k] in o
           && Due(Swept(o, now)[ids[k]], now)
           && (o[ids[k]].envelope.expiresAt.Some? ==> now < o[ids[k]].envelope.expiresAt.value)
  {
    DueStampsOnePerId(Swept(o, now), now);
    FirstIdsPicks(DueStamps(Swept(o, now), now), limit);
  }

  /** A due row is left behind only when the limit is used up by older rows. */
  lemma LeaseTakesOldestFirst(o: Outbox, limit: nat, now: int, left: Id)
    requires left in o && Due(Swept(o, now)[left], now) && left !in LeaseIds(o, limit, now)
    ensures var ids := LeaseIds(o, limit, now);
      && |ids| == limit
      && forall id :: id in ids ==>
           id in o && Earlier(Stamp(o[id].envelope.createdAt, id), Stamp(o[left].envelope.createdAt, left))
  {
    var w := Swept(o, now);
    var s, ids := DueStamps(w, now), LeaseIds(o, limit, now);
    DueStampsOnePerId(w, now);
    FirstIdsPicks(s, limit);
    assert left in IdsOf(s);
    if |s| <= limit {
      FirstIdsTakesAll(s, limit);
    }
    forall id | id in ids
      ensures id in o && Earlier(Stamp(o[id].envelope.createdAt, id), Stamp(o[left].envelope.createdAt, left))
    {
      assert id in IdsOf(s);
      assert Stamp(w[id].envelope.createdAt, id) in s && Stamp(w[left].envelope.createdAt, left) in s;
    }
  }

  // ---- Settling a lease -------------------------------------------------

  predicate HoldsLease(o: Outbox, id: Id, owner: string) {
    id in o && o[id].state.Leased? && o[id].leaseOwner == Some(owner)
  }

  function Unlease(row: OutRow, state: OutState): OutRow {
    row.(state := state, leaseOwner := None, leaseUntil := None)
  }

  function MarkSentSpec(o: Outbox, id: Id, owner: string): Outbox {
    if HoldsLease(o, id, owner) then o[id := Unlease(o[id], Sent)] else o
  }

  function ReleaseSpec(o: Outbox, id: Id, owner: string, retryAt: int): Outbox {
    if HoldsLease(o, id, owner)
    then o[id := Unlease(o[id], Pending).(attempts := o[id].attempts + 1, nextAttemptAt := retryAt)]
    else o
  }

  function QuarantineSpec(o: Outbox, id: Id, owner: string): Outbox {
    if HoldsLease(o, id, owner)
    then o[id := Unlease(o[id], OutQuarantined).(attempts := o[id].attempts + 1)]
    else o
  }

  // ---- Invariant --------------------------------------------------------

  ghost predicate OneSlotEach(o: Outbox) {
    forall a, b :: a in o && b in o && SameSlot(o[a].envelope, o[b].envelope) ==> a == b
  }

  ghost predicate SameRootThread(a: Envelope, b: Envelope) {
    IsRoot(a) && IsRoot(b) && a.conversation == b.conversation
  }

  ghost predicate OneRootEach(o: Outbox) {
    forall a, b :: a in o && b in o && SameRootThread(o[a].envelope, o[b].envelope) ==> a == b
  }

  ghost predicate LeaseColumns(row: OutRow) {
    && (row.state.Leased? <==> row.leaseOwner.Some?)
    && (row.state.Leased? <==> row.leaseUntil.Some?)
  }

  /** States a row never leaves. */
  predicate Final(s: OutState) {
    s.Sent? || s.OutQuarantined? || s.OutExpired?
  }

  /** How an outbox may change: accepted envelopes stay as they are and final
      states are final. */
  ghost predicate Evolves(o: Outbox, o': Outbox) {
    forall id :: id in o ==>
      id in o' && o'[id].envelope == o[id].envelope && (Final(o[id].state) ==> o'[id] == o[id])
  }

  lemma EvolvesTransitive(a: Outbox, b: Outbox, c: Outbox)
    requires Evolves(a, b) && Evolves(b, c)
    ensures Evolves(a, c)
  {
  }

  ghost predicate RowsOk(o: Outbox) {
    forall id :: id in o ==> o[id].envelope.id == id && Sealed(o[id].envelope) && LeaseColumns(o[id])
  }

  ghost predicate OutboxOk(o: Outbox) {
    RowsOk(o) && OneSlotEach(o) && OneRootEach(o)
  }

  lemma InsertKeepsSlots(o: Outbox, e: Envelope)
    requires OneSlotEach(o) && e.id !in o
    requires forall id :: !InSlot(o, id, e.target, e.key)
    ensures OneSlotEach(o[e.id := NewOutRow(e)])
  {
    var o' := o[e.id := NewOutRow(e)];
    forall a, b | a in o' && b in o' && SameSlot(o'[a].envelope, o'[b].envelope) ensures a == b {
      assert !InSlot(o, a, e.target, e.key) && !InSlot(o, b, e.target, e.key);
    }
  }

  lemma InsertKeepsRoots(o: Outbox, e: Envelope)
    requires OneRootEach(o) && e.id !in o && !RootClash(o, e)
    requires forall id :: !InSlot(o, id, e.target, e.key)
    ensures OneRootEach(o[e.id := NewOutRow(e)])
  {
    var o' := o[e.id := NewOutRow(e)];
    forall a, b | a in o' && b in o' && SameRootThread(o'[a].envelope, o'[b].envelope) ensures a == b {
      assert !InSlot(o, a, e.target, e.key) && !InSlot(o, b, e.target, e.key);
    }
  }

  lemma InsertKeeps(o: Outbox, e: Envelope)
    requires OutboxOk(o) && Sealed(e) && e.id !in o && !RootClash(o, e)
    requires forall id :: !InSlot(o, id, e.target, e.key)
    ensures OutboxOk(o[e.id := NewOutRow(e)]) && Evolves(o, o[e.id := NewOutRow(e)])
  {
    InsertKeepsSlots(o, e);
    InsertKeepsRoots(o, e);
    var o' := o[e.id := NewOutRow(e)];
    assert RowsOk(o') by {
      forall id | id in o' ensures o'[id].envelope.id == id && Sealed(o'[id].envelope) && LeaseColumns(o'[id]) {
        if id != e.id { assert o'[id] == o[id]; }
      }
    }
  }

  lemma EnqueueKeeps(o: Outbox, e: Envelope, c: Comparison)
    requires OutboxOk(o) && Sealed(e)
    ensures OutboxOk(EnqueueRow(o, e, c).0) && Evolves(o, EnqueueRow(o, e, c).0)
  {
    var o' := EnqueueRow(o, e, c).0;
    assert OutboxOk(o') && Evolves(o, o') by {
      if !RootClash(o, e) && FindOperation(o, e.target, e.key).None? && e.id !in o {
        InsertKeeps(o, e);
      } else {
        assert o' == o;
      }
    }
  }

  /** Replacing rows one by one, envelopes untouched, keeps the invariant. */
  lemma RowwiseKeeps(o: Outbox, o': Outbox)
    requires OutboxOk(o) && o'.Keys == o.Keys
    requires forall id :: id in o ==> o'[id].envelope == o[id].envelope && LeaseColumns(o'[id])
    requires forall id :: id in o && Final(o[id].state) ==> o'[id] == o[id]
    ensures OutboxOk(o') && Evolves(o, o')
  {
  }

  lemma SweepKeepsRow(row: OutRow, now: int)
    requires LeaseColumns(row)
    ensures var r := Lapse(Reopen(row, now), now);
      LeaseColumns(r) && r.envelope == row.envelope && (Final(row.state) ==> r == row)
  {
  }

  lemma LeaseKeepsRow(o: Outbox, owner: string, limit: nat, until: int, now: int, id: Id)
    requires id in o && LeaseColumns(o[id])
    ensures var r := LeaseRows(Swept(o, now), LeaseIds(o, limit, now), owner, until)[id];
      LeaseColumns(r) && r.envelope == o[id].envelope && (Final(o[id].state) ==> r == o[id])
  {
    SweepKeepsRow(o[id], now);
    if id in LeaseIds(o, limit, now) {
      LeasePicksDueRows(o, limit, now);
    }
  }

  lemma LeaseKeeps(o: Outbox, owner: string, limit: int, leaseSeconds: int, now: int)
    requires OutboxOk(o)
    ensures OutboxOk(LeaseSpec(o, owner, limit, leaseSeconds, now))
    ensures Evolves(o, LeaseSpec(o, owner, limit, leaseSeconds, now))
  {
    var l := LeaseSpec(o, owner, limit, leaseSeconds, now);
    forall id | id in o
      ensures l[id].envelope == o[id].envelope && LeaseColumns(l[id]) && (Final(o[id].state) ==> l[id] == o[id])
    {
      if limit > 0 && leaseSeconds > 0 {
        LeaseKeepsRow(o, owner, limit, now + 1000 * leaseSeconds, now, id);
      }
    }
    RowwiseKeeps(o, l);
  }

  lemma UnleaseKeeps(o: Outbox, id: Id, row: OutRow)
    requires OutboxOk(o) && id in o && o[id].state.Leased?
    requires row.envelope == o[id].envelope && !row.state.Leased? && row.leaseOwner.None? && row.leaseUntil.None?
    ensures OutboxOk(o[id := row]) && Evolves(o, o[id := row])
  {
    RowwiseKeeps(o, o[id := row]);
  }

  // ---- The outbox as a first-writer-wins map ----------------------------

  type Slot = (NodeId, string)

  function SlotOf(e: Envelope): Slot { (e.target, e.key) }

  /** What the outbox has promised to deliver for a target and a key. */
  ghost function Promise(o: Outbox, k: Slot): Option<Envelope> {
    match FindOperation(o, k.0, k.1)
    case Some(id) => Some(o[id].envelope)
    case None => None
  }

  lemma PromiseAt(o: Outbox, id: Id)
    requires OneSlotEach(o) && id in o
    ensures Promise(o, SlotOf(o[id].envelope)) == Some(o[id].envelope)
  {
    var e := o[id].envelope;
    assert InSlot(o, id, e.target, e.key);
  }

  /** The reference: in each slot the first envelope stays. */
  function FirstWriter(held: Option<Envelope>, e: Envelope, c: Comparison): (Option<Envelope>, Result<Id>) {
    match held
    case None => (Some(e), Ok(e.id))
    case Some(first) => (held, if SameOperation(first, e, c) then Ok(first.id) else Err(Conflict))
  }

  /** Whatever else happens to the rows, promises are never taken back. */
  lemma EvolvesKeepsPromise(o: Outbox, o': Outbox, k: Slot)
    requires OneSlotEach(o') && Evolves(o, o') && Promise(o, k).Some?
    ensures Promise(o', k) == Promise(o, k)
  {
    var id := FindOperation(o, k.0, k.1).value;
    PromiseAt(o', id);
  }

  /** Enqueueing refines the first-writer-wins map. Apart from two refusals (a
      second root in the conversation, a reused message id) it stores, answers
      and refuses what the reference does, and no other slot moves. */
  lemma EnqueueIsFirstWriter(o: Outbox, e: Envelope, c: Comparison)
    requires OutboxOk(o) && Sealed(e)
    ensures var (o', r) := EnqueueRow(o, e, c);
      var held := Promise(o, SlotOf(e));
      && (forall k :: k != SlotOf(e) ==> Promise(o', k) == Promise(o, k))
      && if RootClash(o, e) || (held.None? && e.id in o)
         then o' == o && r == Err(Transition)
         else
           var (held', q) := FirstWriter(held, e, c);
           && Promise(o', SlotOf(e)) == held'
           && (held.Some? ==> o' == o)
           && (r.Ok? <==> q.Ok?)
           && (r.Ok? ==> r.value.id == q.value && (r.value.duplicate <==> held.Some?))
           && (r.Err? ==> r.failure == Conflict)
  {
    var o' := EnqueueRow(o, e, c).0;
    EnqueueKeeps(o, e, c);
    if o' != o {
      PromiseAt(o', e.id);
      forall k | k != SlotOf(e) ensures Promise(o', k) == Promise(o, k) {
        OtherSlotUntouched(o, e, o', k);
      }
    }
  }

  lemma OtherSlotUntouched(o: Outbox, e: Envelope, o': Outbox, k: Slot)
    requires e.id !in o && o' == o[e.id := NewOutRow(e)] && OneSlotEach(o) && OneSlotEach(o')
    requires k != SlotOf(e)
    ensures Promise(o', k) == Promise(o, k)
  {
    match FindOperation(o', k.0, k.1)
    case Some(id) =>
      assert id != e.id && o'[id] == o[id];
      PromiseAt(o, id);
    case None =>
      if FindOperation(o, k.0, k.1).Some? {
        var id := FindOperation(o, k.0, k.1).value;
        assert InSlot(o', id, k.0, k.1);
      }
  }
}
