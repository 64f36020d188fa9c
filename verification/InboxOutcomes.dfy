/** What the operations on the inbox do to each of its rows, in plain states and columns of
    the old and the new row; and settling a message together with its reply. */
module InboxOutcomes {
  import opened Envelopes
  import opened Ordering
  import opened Tables
  import opened OutboxTable
  import opened InboxTable
  import opened Settlement
  import opened OutboxOutcomes

  // ---- Receiving -----------------------------------------------------------------

  /** A first delivery is stored; a repeated one counts and may add provenance; a different
      message under the same id quarantines the stored one if it names the same origin. */
  lemma PersistOutcome(i: Inbox, e: Envelope, count: int, now: int, authenticated: bool)
    requires InboxOk(i)
    ensures var (i', r) := PersistSpec(i, e, count, now, authenticated);
      if !ValidEnvelope(e) then i' == i && r == Err(Invalid)
      else if e.id !in i then
        && i' == i[e.id := InRow(e, Available, None, None, None, 0, now, count, authenticated, None)] && r == Ok(Inserted)
      else if i[e.id].envelope == e then
        && r == Ok(Duplicate) && i'.Keys == i.Keys && (forall id :: id in i && id != e.id ==> i'[id] == i[id])
        && i'[e.id] == i[e.id].(deliveries := i'[e.id].deliveries, authenticated := i'[e.id].authenticated)
        && (i'[e.id].deliveries == count || i'[e.id].deliveries == i[e.id].deliveries)
        && i'[e.id].deliveries >= count && i'[e.id].deliveries >= i[e.id].deliveries
        && (i'[e.id].authenticated <==> i[e.id].authenticated || authenticated)
      else
        && r == Ok(Collision)
        && i' == if i[e.id].envelope.origin == e.origin
                 then i[e.id := i[e.id].(state := Quarantined, deliveries := count)] else i
  {
    if ValidEnvelope(e) && e.id in i {
      SameInboundIsEquality(i[e.id].envelope, e);
    }
  }

  // ---- Claiming --------------------------------------------------------------------

  /** In nobody's hands: available, or claimed until now at most. */
  predicate IsFree(row: InRow, now: int) {
    row.state.Available? || (row.state.Claimed? && row.claimUntil.Some? && row.claimUntil.value <= now)
  }

  predicate Unexpired(e: Envelope, now: int) {
    e.expiresAt.None? || now < e.expiresAt.value
  }

  predicate Dispatches(e: Envelope, pinned: bool) {
    e.kind.TaskRequest? && e.payload.dispatch.Some? && e.payload.dispatch.value.pinnedGit == pinned
  }

  /** What a consumer asks for. A consultation is wanted even after its expiry, but not before
      the next attempt of its run. */
  predicate Wanted(e: Envelope, filter: ClaimFilter, runs: Runs, now: int) {
    match filter
    case OfKinds(kinds) => Unexpired(e, now) && (|kinds| == 0 || exists k :: k in kinds && k == e.kind)
    case ReadOnlyDispatch(notBefore) =>
      Unexpired(e, now) && Dispatches(e, false) && (notBefore.None? || notBefore.value <= e.createdAt)
    case AutonomousConsultation =>
      && Dispatches(e, true) && e.stream == "agent-coordination" && e.payload.request.Some?
      && (e.id !in runs || runs[e.id].nextAttemptAt.None? || runs[e.id].nextAttemptAt.value <= now)
  }

  predicate MayBeClaimed(row: InRow, filter: ClaimFilter, runs: Runs, now: int) {
    IsFree(row, now) && Wanted(row.envelope, filter, runs, now)
  }

  ghost predicate ArrivedBefore(i: Inbox, a: Id, b: Id)
    requires a in i && b in i
  {
    i[a].firstReceivedAt < i[b].firstReceivedAt || (i[a].firstReceivedAt == i[b].firstReceivedAt && InDictionaryOrder(a, b))
  }

  /** A message that is not handed out: a lapsed claim on it is given up, or it stays. */
  predicate NotHandedOut(row: InRow, row': InRow, now: int) {
    if row.state.Claimed? && row.claimUntil.Some? && row.claimUntil.value <= now
    then row' == row.(state := Available, claimOwner := None, claimToken := None, claimUntil := None)
    else row' == row
  }

  /** The consumer gets exactly the messages it wants that are free, as far as the limit
      allows and in order of arrival, the k-th under the k-th token, until the given time. */
  ghost predicate ClaimOutcome(i: Inbox, i': Inbox, runs: Runs, consumer: string, limit: nat, until: int,
                               filter: ClaimFilter, now: int, ids: seq<Id>, tokens: seq<string>)
  {
    && i'.Keys == i.Keys && Distinct(ids) && |ids| <= limit && |ids| <= |tokens|
    && (forall k :: 0 <= k < |ids| ==>
          && ids[k] in i && MayBeClaimed(i[ids[k]], filter, runs, now)
          && i'[ids[k]] == i[ids[k]].(state := Claimed, claimOwner := Some(consumer), claimToken := Some(Hashed(tokens[k])),
                                      claimUntil := Some(until), attempts := i[ids[k]].attempts + 1))
    && (forall j, k :: 0 <= j < k < |ids| ==> ArrivedBefore(i, ids[j], ids[k]))
    && (forall id :: id in i && id !in ids ==> NotHandedOut(i[id], i'[id], now))
    && (forall id :: id in i && id !in ids && MayBeClaimed(i[id], filter, runs, now) ==>
          |ids| == limit && forall taken :: taken in ids ==> taken in i && ArrivedBefore(i, taken, id))
  }

  lemma ClaimableMeans(row: InRow, filter: ClaimFilter, runs: Runs, now: int)
    ensures Claimable(LapseClaim(row, now), filter, runs, now) <==> MayBeClaimed(row, filter, runs, now)
    ensures NotHandedOut(row, LapseClaim(row, now), now)
  {
    if filter.OfKinds? && filter.kinds != [] {
      assert row.envelope.kind in filter.kinds <==> exists k :: k in filter.kinds && k == row.envelope.kind;
    }
  }

  lemma ClaimTakes(i: Inbox, runs: Runs, consumer: string, limit: nat, leaseSeconds: nat, filter: ClaimFilter, now: int,
                   tokens: seq<string>)
    requires consumer != "" && limit > 0 && leaseSeconds > 0 && limit <= |tokens|
    ensures var ids := ClaimIds(i, filter, runs, limit, now);
      var i' := ClaimSpec(i, runs, consumer, limit, leaseSeconds, filter, now, tokens);
      && i'.Keys == i.Keys && Distinct(ids) && |ids| <= limit
      && (forall k :: 0 <= k < |ids| ==>
            && ids[k] in i && MayBeClaimed(i[ids[k]], filter, runs, now)
            && i'[ids[k]] == ClaimedRow(LapseClaim(i[ids[k]], now), consumer, tokens[k], now + 1000 * leaseSeconds))
      && (forall id :: id in i && id !in ids ==> NotHandedOut(i[id], i'[id], now))
  {
    hide Claimable, MayBeClaimed, NotHandedOut, LapseClaim, ClaimedRow;
    var ids, w := ClaimIds(i, filter, runs, limit, now), LapsedClaims(i, now);
    ClaimPicksClaimableRows(i, filter, runs, limit, now);
    ClaimRowsPointwise(w, ids, tokens, consumer, now + 1000 * leaseSeconds);
    forall id | id in i ensures NotHandedOut(i[id], w[id], now) {
      ClaimableMeans(i[id], filter, runs, now);
    }
    forall k | 0 <= k < |ids| ensures MayBeClaimed(i[ids[k]], filter, runs, now) {
      ClaimableMeans(i[ids[k]], filter, runs, now);
    }
  }

  lemma ClaimLeaves(i: Inbox, runs: Runs, limit: nat, filter: ClaimFilter, now: int, id: Id)
    requires id in i && id !in ClaimIds(i, filter, runs, limit, now) && MayBeClaimed(i[id], filter, runs, now)
    ensures var ids := ClaimIds(i, filter, runs, limit, now);
      |ids| == limit && forall taken :: taken in ids ==> taken in i && ArrivedBefore(i, taken, id)
  {
    hide Claimable, MayBeClaimed, LapseClaim, ClaimIds;
    ClaimableMeans(i[id], filter, runs, now);
    ClaimTakesOldestFirst(i, filter, runs, limit, now, id);
    forall taken | taken in ClaimIds(i, filter, runs, limit, now) ensures taken in i && ArrivedBefore(i, taken, id) {
      StrLessIsDictionaryOrder(taken, id);
    }
  }

  lemma ClaimIsInOrder(i: Inbox, runs: Runs, limit: nat, filter: ClaimFilter, now: int, j: nat, k: nat)
    requires j < k < |ClaimIds(i, filter, runs, limit, now)|
    ensures var ids := ClaimIds(i, filter, runs, limit, now);
      ids[j] in i && ids[k] in i && ArrivedBefore(i, ids[j], ids[k])
  {
    hide Claimable;
    var w, ids := LapsedClaims(i, now), ClaimIds(i, filter, runs, limit, now);
    ClaimableStampsOnePerId(w, filter, runs, now);
    FirstIdsAscend(ClaimableStamps(w, filter, runs, now), limit, j, k);
    StrLessIsDictionaryOrder(ids[j], ids[k]);
  }

  lemma ClaimIsRight(i: Inbox, runs: Runs, consumer: string, limit: nat, leaseSeconds: nat, filter: ClaimFilter, now: int,
                     tokens: seq<string>)
    requires consumer != "" && limit > 0 && leaseSeconds > 0 && limit <= |tokens|
    ensures ClaimOutcome(i, ClaimSpec(i, runs, consumer, limit, leaseSeconds, filter, now, tokens), runs, consumer, limit,
                         now + 1000 * leaseSeconds, filter, now, ClaimIds(i, filter, runs, limit, now), tokens)
  {
    hide ClaimSpec, ClaimIds, MayBeClaimed, NotHandedOut;
    var ids := ClaimIds(i, filter, runs, limit, now);
    ClaimTakes(i, runs, consumer, limit, leaseSeconds, filter, now, tokens);
    forall j, k | 0 <= j < k < |ids| ensures ArrivedBefore(i, ids[j], ids[k]) {
      ClaimIsInOrder(i, runs, limit, filter, now, j, k);
    }
    forall id | id in i && id !in ids && MayBeClaimed(i[id], filter, runs, now)
      ensures |ids| == limit && forall taken :: taken in ids ==> taken in i && ArrivedBefore(i, taken, id)
    {
      ClaimLeaves(i, runs, limit, filter, now, id);
    }
  }

  /** The ids and the tokens of the messages handed out. */
  function HandedIds(messages: seq<ClaimedMessage>): seq<Id> {
    seq(|messages|, k requires 0 <= k < |messages| => messages[k].envelope.id)
  }

  function HandedTokens(messages: seq<ClaimedMessage>): seq<string> {
    seq(|messages|, k requires 0 <= k < |messages| => messages[k].token)
  }

  /** What the consumer gets, and the rows it leaves: each message is that of a row claimed
      under the token that goes with it. */
  ghost predicate HandsOutFirst(i: Inbox, i': Inbox, runs: Runs, consumer: string, limit: nat, until: int,
                                filter: ClaimFilter, now: int, messages: seq<ClaimedMessage>)
  {
    && ClaimOutcome(i, i', runs, consumer, limit, until, filter, now, HandedIds(messages), HandedTokens(messages))
    && forall k :: 0 <= k < |messages| ==>
         && messages[k].envelope.id in i
         && messages[k].envelope == i[messages[k].envelope.id].envelope
         && messages[k].authenticated == i[messages[k].envelope.id].authenticated
  }

  lemma ClaimHandsOutFirst(i: Inbox, i': Inbox, runs: Runs, consumer: string, limit: nat, until: int, filter: ClaimFilter,
                           now: int, ids: seq<Id>, tokens: seq<string>, messages: seq<ClaimedMessage>)
    requires InboxOk(i) && |messages| == |ids| <= |tokens|
    requires ClaimOutcome(i, i', runs, consumer, limit, until, filter, now, ids, tokens)
    requires forall k :: 0 <= k < |ids| ==>
               messages[k] == ClaimedMessage(i[ids[k]].envelope, tokens[k], i[ids[k]].authenticated)
    ensures HandsOutFirst(i, i', runs, consumer, limit, until, filter, now, messages)
    ensures HandedTokens(messages) <= tokens
  {
    hide MayBeClaimed, NotHandedOut, ArrivedBefore;
    assert HandedIds(messages) == ids;
    assert HandedTokens(messages) == tokens[..|messages|];
  }

  // ---- Using a claim ---------------------------------------------------------------

  /** A claim handed out is held by whom it was handed to, with its own token and no other,
      until its time is up. */
  lemma ClaimIsHeldIff(i: Inbox, i': Inbox, runs: Runs, consumer: string, limit: nat, until: int, filter: ClaimFilter,
                       now: int, ids: seq<Id>, tokens: seq<string>, k: nat, c: string, token: string, at: int)
    requires ClaimOutcome(i, i', runs, consumer, limit, until, filter, now, ids, tokens) && k < |ids|
    ensures HoldsClaim(i', ids[k], c, token, at) <==> c == consumer && token == tokens[k] && at < until
  {
  }

  /** A claim is held exactly by whom the columns of the claimed row name, until they say. */
  lemma HeldMeans(i: Inbox, id: Id, c: string, token: string, at: int)
    requires InboxOk(i) && id in i
    ensures HoldsClaim(i, id, c, token, at) <==>
      && i[id].state == Claimed && i[id].claimOwner == Some(c) && i[id].claimToken == Some(Hashed(token))
      && i[id].claimUntil.Some? && at < i[id].claimUntil.value
  {
  }

  /** A live claim is extended from now on; a lapsed one is not, nor one of somebody else. */
  lemma RenewOutcome(i: Inbox, id: Id, c: string, token: string, leaseSeconds: int, now: int)
    ensures var (i', r) := RenewSpec(i, id, c, token, leaseSeconds, now);
      if leaseSeconds <= 0 then i' == i && r == Err(Invalid)
      else if HoldsClaim(i, id, c, token, now) then
        i' == i[id := i[id].(claimUntil := Some(now + 1000 * leaseSeconds))] && r == Ok(now + 1000 * leaseSeconds)
      else i' == i && r == Err(Transition)
  {
  }

  /** Acknowledging settles the message as processed or rejected, or hands it back; whatever
      the outcome, the claim is over. Repeating a terminal outcome is accepted. */
  lemma AcknowledgeOutcome(i: Inbox, id: Id, c: string, token: string, outcome: AckOutcome, now: int)
    requires InboxOk(i)
    ensures var (i', r) := AcknowledgeSpec(i, id, c, token, outcome, now);
      && (r.Ok? <==> id in i && (HoldsClaim(i, id, c, token, now)
                                 || (outcome.AckProcessed? && i[id].state.Processed?)
                                 || (outcome.AckRejected? && i[id].state.InRejected?)))
      && (r.Ok? ==> && i'.Keys == i.Keys && (forall x :: x in i && x != id ==> i'[x] == i[x])
                    && i'[id].state == r.value
                    && (outcome.AckProcessed? ==> r.value == Processed)
                    && (outcome.AckRejected? ==> r.value == InRejected)
                    && (outcome.AckRetry? ==> r.value == Available)
                    && i'[id] == i[id].(state := r.value, claimOwner := None, claimToken := None, claimUntil := None))
      && (r.Err? ==> i' == i && r.failure == Transition)
  {
  }

  // ---- Settling with a reply ---------------------------------------------------------

  /** An earlier reply to the same message that may stand for the new one: the same operation,
      or one of its kind, conversation and cause that is still on its way. */
  predicate MayStandFor(row: OutRow, id: Id, reply: Envelope) {
    || Repeats(row.envelope, reply, Comparison(false, false))
    || (&& row.envelope.kind == reply.kind && row.envelope.conversation == reply.conversation
        && row.envelope.causation == Some(id) && !row.state.OutQuarantined? && !row.state.OutExpired?)
  }

  /** The link recorded with a settled message. */
  predicate Settles(row: InRow, row': InRow, outcome: SettleOutcome, link: ResultLink) {
    && row' == row.(state := row'.state, claimOwner := None, claimToken := None, claimUntil := None, result := Some(link))
    && (outcome.SettleProcessed? ==> row'.state == Processed)
    && (outcome.SettleRejected? ==> row'.state == InRejected)
  }

  /** What becomes of a reply: under a new key it goes out; for a key that is taken the earlier
      reply stands, if it may. */
  ghost predicate ReplyOutcome(o: Outbox, id: Id, reply: Envelope, o': Outbox, r: Result<EnqueueResult>) {
    && (r.Ok? ==> r.value.id in o')
    && (r.Err? ==> o' == o)
    && ((forall x :: x in o ==> !Holds(o[x], reply.target, reply.key)) ==>
          if reply.id in o then r == Err(Transition)
          else && r == Ok(EnqueueResult(reply.id, Pending, false))
               && o' == o[reply.id := OutRow(reply, Pending, 0, reply.createdAt, None, None)])
    && (forall x :: x in o && Holds(o[x], reply.target, reply.key) ==>
          && (r.Ok? <==> MayStandFor(o[x], id, reply))
          && (r.Ok? ==> o' == o && r.value == EnqueueResult(x, o[x].state, true))
          && (r.Err? ==> r.failure == Conflict || r.failure == Unavailable))
  }

  lemma AuthorityOutcome(o: Outbox, id: Id, reply: Envelope)
    requires OutboxOk(o) && ValidEnvelope(reply) && !OpenedBefore(o, reply)
    ensures match ReplyAuthority(o, id, reply)
            case Ok(a) => ReplyOutcome(o, id, reply, a.outbox, Ok(a.answer))
                          && a.answer.id in a.outbox
                          && a.link == ResultLink(a.answer.id, reply.key, a.outbox[a.answer.id].envelope.payloadSha)
            case Err(f) => ReplyOutcome(o, id, reply, o, Err(f))
  {
    hide EnqueueRow, OpenedBefore, ValidEnvelope, RowsOk, OneRootEach, Repeats;
    ReplyIsEnqueued(o, reply);
    forall x | x in o && Holds(o[x], reply.target, reply.key)
      ensures FindOperation(o, reply.target, reply.key) == Some(x)
    {
      FoundIs(o, x, reply.target, reply.key);
    }
    assert (exists x :: x in o && Holds(o[x], reply.target, reply.key))
           || (forall x :: x in o ==> !Holds(o[x], reply.target, reply.key));
  }

  lemma ReplyIsEnqueued(o: Outbox, reply: Envelope)
    requires OutboxOk(o) && ValidEnvelope(reply) && !OpenedBefore(o, reply)
    ensures var (o', r) := EnqueueRow(o, reply, Comparison(false, false));
      && (forall id :: id in o && Holds(o[id], reply.target, reply.key) ==>
            && o' == o && (r.Ok? ==> o[id].envelope.payloadSha == reply.payloadSha)
            && r == if Repeats(o[id].envelope, reply, Comparison(false, false))
                    then Ok(EnqueueResult(id, o[id].state, true)) else Err(Conflict))
      && ((forall id :: id in o ==> !Holds(o[id], reply.target, reply.key)) ==>
            if reply.id in o then o' == o && r == Err(Transition)
            else && o' == o[reply.id := OutRow(reply, Pending, 0, reply.createdAt, None, None)]
                 && r == Ok(EnqueueResult(reply.id, Pending, false)))
  {
    hide OpenedBefore;
    EnqueueOutcome(o, reply, Comparison(false, false));
  }

  /** Settling under a live claim. The message gets the state asked for, the link to the reply
      that stands, and no claim; or nothing happens. */
  lemma SettleOutcome(d: Database, id: Id, c: string, token: string, outcome: SettleOutcome, reply: Envelope, now: int)
    requires OutboxOk(d.outbox) && HoldsClaim(d.inbox, id, c, token, now)
    requires ValidEnvelope(reply) && !OpenedBefore(d.outbox, reply)
    ensures match SettleSpec(d, id, c, token, outcome, reply, now)
            case (d', Ok(settled)) =>
              && ReplyOutcome(d.outbox, id, reply, d'.outbox, Ok(settled.reply)) && settled.reply.id in d'.outbox
              && d' == d.(outbox := d'.outbox, inbox := d'.inbox) && id in d'.inbox && settled.state == d'.inbox[id].state
              && d'.inbox == d.inbox[id := d'.inbox[id]]
              && Settles(d.inbox[id], d'.inbox[id], outcome,
                         ResultLink(settled.reply.id, reply.key, d'.outbox[settled.reply.id].envelope.payloadSha))
            case (d', Err(f)) => d' == d && ReplyOutcome(d.outbox, id, reply, d.outbox, Err(f))
  {
    hide ReplyAuthority, ReplyOutcome, OpenedBefore, OutboxOk, ValidEnvelope, RepeatAnswer;
    AuthorityOutcome(d.outbox, id, reply);
  }

  /** The message has the outcome asked for already. */
  predicate HasOutcome(row: InRow, outcome: SettleOutcome) {
    match outcome
    case SettleProcessed => row.state.Processed?
    case SettleRejected => row.state.InRejected?
  }

  /** Repeating a settlement, with any token, is answered from the recorded link and changes
      nothing; without a claim nothing else is accepted. */
  lemma RepeatOutcome(d: Database, id: Id, c: string, token: string, outcome: SettleOutcome, reply: Envelope, now: int)
    requires OutboxOk(d.outbox) && LinksOk(d) && ValidEnvelope(reply) && !HoldsClaim(d.inbox, id, c, token, now)
    ensures SettleSpec(d, id, c, token, outcome, reply, now) ==
      if id !in d.inbox || !HasOutcome(d.inbox[id], outcome) || d.inbox[id].result.None?
         || d.inbox[id].result.value.key != reply.key
      then (d, Err(Transition))
      else
        var link := d.inbox[id].result.value.id;
        if d.outbox[link].envelope.target != reply.target then (d, Err(Inconsistent))
        else (d, Ok(Settlement.Settled(d.inbox[id].state, EnqueueResult(link, d.outbox[link].state, true))))
  {
    hide ReplyAuthority, ValidEnvelope;
    if id in d.inbox && d.inbox[id].result.Some? && d.inbox[id].result.value.key == reply.key {
      var link := d.inbox[id].result.value.id;
      if d.outbox[link].envelope.target == reply.target {
        FoundIs(d.outbox, link, reply.target, reply.key);
      }
    }
  }

  /** How a settled message stands: in the state asked for, unclaimed, and linked to a reply
      that goes to the same target under the same key. */
  predicate StandsSettled(o: Outbox, i: Inbox, id: Id, outcome: SettleOutcome, reply: Envelope, settled: Settled) {
    && id in i && HasOutcome(i[id], outcome) && settled.state == i[id].state
    && i[id].claimOwner.None? && i[id].claimToken.None? && i[id].claimUntil.None?
    && settled.reply.id in o && Holds(o[settled.reply.id], reply.target, reply.key)
    && settled.reply.state == o[settled.reply.id].state
    && i[id].result == Some(ResultLink(settled.reply.id, reply.key, o[settled.reply.id].envelope.payloadSha))
  }

  lemma SettledStands(d: Database, id: Id, c: string, token: string, outcome: SettleOutcome, reply: Envelope, now: int)
    requires OutboxOk(d.outbox) && InboxOk(d.inbox) && LinksOk(d)
    ensures var (d', r) := SettleSpec(d, id, c, token, outcome, reply, now);
      r.Ok? ==> StandsSettled(d'.outbox, d'.inbox, id, outcome, reply, r.value)
  {
    hide ReplyAuthority, OpenedBefore, OutboxOk, ValidEnvelope, RepeatAnswer, InboxOk, LinksOk, StandsSettled, SettledState;
    if SettleSpec(d, id, c, token, outcome, reply, now).1.Ok? {
      if HoldsClaim(d.inbox, id, c, token, now) {
        LiveSettledStands(d, id, c, token, outcome, reply, now);
      } else {
        RepeatedStands(d, id, c, token, outcome, reply, now);
      }
    }
  }

  lemma LiveSettledStands(d: Database, id: Id, c: string, token: string, outcome: SettleOutcome, reply: Envelope, now: int)
    requires OutboxOk(d.outbox) && HoldsClaim(d.inbox, id, c, token, now)
    requires SettleSpec(d, id, c, token, outcome, reply, now).1.Ok?
    ensures var (d', r) := SettleSpec(d, id, c, token, outcome, reply, now);
      StandsSettled(d'.outbox, d'.inbox, id, outcome, reply, r.value)
  {
    hide ReplyAuthority, OutboxOk, RepeatAnswer;
    AuthorityIsStored(d.outbox, id, reply);
  }

  lemma RepeatedStands(d: Database, id: Id, c: string, token: string, outcome: SettleOutcome, reply: Envelope, now: int)
    requires OutboxOk(d.outbox) && InboxOk(d.inbox) && LinksOk(d) && !HoldsClaim(d.inbox, id, c, token, now)
    requires SettleSpec(d, id, c, token, outcome, reply, now).1.Ok?
    ensures var (d', r) := SettleSpec(d, id, c, token, outcome, reply, now);
      StandsSettled(d'.outbox, d'.inbox, id, outcome, reply, r.value)
  {
    hide ReplyAuthority, RepeatAnswer, ValidEnvelope;
    assert ValidEnvelope(reply);
    RepeatOutcome(d, id, c, token, outcome, reply, now);
  }
}
