/** Settling a claimed message together with its reply, in one transaction. */
module Settlement {
  import opened Envelopes
  import opened Tables
  import opened OutboxTable
  import opened InboxTable

  datatype SettleOutcome = SettleProcessed | SettleRejected

  datatype Settled = Settled(state: InState, reply: EnqueueResult)

  function SettledState(o: SettleOutcome): InState {
    match o
    case SettleProcessed => Processed
    case SettleRejected => InRejected
  }

  /** The reply that stands for a requested one: the requested reply if it was
      accepted, or an earlier reply to the same message under the same key. */
  datatype Authority = Authority(outbox: Outbox, link: ResultLink, answer: EnqueueResult)

  ghost function ReplyAuthority(o: Outbox, id: Id, reply: Envelope): Result<Authority> {
    var (o', r) := EnqueueRow(o, reply, Comparison(false, false));
    match r
    case Ok(accepted) => Ok(Authority(o', ResultLink(accepted.id, reply.key, reply.payloadSha), accepted))
    case Err(f) =>
      if f != Conflict then Err(f)
      else
        match FindOperation(o, reply.target, reply.key)
        case None => Err(f)
        case Some(prior) =>
          var row := o[prior];
          if || row.envelope.kind != reply.kind
             || row.envelope.conversation != reply.conversation
             || row.envelope.causation != Some(id)
          then Err(f)
          else if row.state.OutQuarantined? || row.state.OutExpired? then Err(Unavailable)
          else Ok(Authority(o, ResultLink(prior, row.envelope.key, row.envelope.payloadSha),
                            EnqueueResult(prior, row.state, true)))
  }

  ghost function RepeatAnswer(o: Outbox, row: InRow, reply: Envelope): Result<Settled> {
    if row.result.Some? && row.result.value.key == reply.key then
      match FindOperation(o, reply.target, reply.key)
      case None => Err(Inconsistent)
      case Some(prior) =>
        if prior != row.result.value.id || o[prior].envelope.payloadSha != row.result.value.sha
        then Err(Inconsistent)
        else Ok(Settled(row.state, EnqueueResult(prior, o[prior].state, true)))
    else Err(Transition)
  }

  ghost function SettleSpec(d: Database, id: Id, consumer: string, token: string, outcome: SettleOutcome,
                            reply: Envelope, now: int): (Database, Result<Settled>)
  {
    if !ValidEnvelope(reply) then (d, Err(Invalid))
    else if id !in d.inbox then (d, Err(Transition))
    else if d.inbox[id].state == SettledState(outcome) then (d, RepeatAnswer(d.outbox, d.inbox[id], reply))
    else if !HoldsClaim(d.inbox, id, consumer, token, now) then (d, Err(Transition))
    else
      match ReplyAuthority(d.outbox, id, reply)
      case Err(f) => (d, Err(f))
      case Ok(a) =>
        var row := Unclaim(d.inbox[id], SettledState(outcome)).(result := Some(a.link));
        (d.(outbox := a.outbox, inbox := d.inbox[id := row]), Ok(Settled(row.state, a.answer)))
  }

  /** Every recorded result points at an outbox row with the recorded key and
      payload hash. */
  ghost predicate LinksOk(d: Database) {
    forall id :: id in d.inbox && d.inbox[id].result.Some? ==>
      var l := d.inbox[id].result.value;
      l.id in d.outbox && d.outbox[l.id].envelope.key == l.key && d.outbox[l.id].envelope.payloadSha == l.sha
  }

  /** ... and, when replies are built by the service, that row goes back to the
      node the message came from. */
  ghost predicate LinksReturn(d: Database) {
    forall id :: id in d.inbox && d.inbox[id].result.Some? && d.inbox[id].result.value.id in d.outbox ==>
      d.outbox[d.inbox[id].result.value.id].envelope.target == d.inbox[id].envelope.origin
  }

  lemma AuthorityIsStored(o: Outbox, id: Id, reply: Envelope)
    requires OutboxOk(o) && Sealed(reply) && ReplyAuthority(o, id, reply).Ok?
    ensures var a := ReplyAuthority(o, id, reply).value;
      && OutboxOk(a.outbox) && Evolves(o, a.outbox)
      && a.link.id in a.outbox && a.link.id == a.answer.id
      && a.outbox[a.link.id].envelope.key == a.link.key == reply.key
      && a.outbox[a.link.id].envelope.payloadSha == a.link.sha
      && a.outbox[a.link.id].envelope.target == reply.target
      && a.outbox[a.link.id].state == a.answer.state
      && (a.outbox != o ==> a.link.id == reply.id && a.outbox[reply.id].envelope == reply)
  {
    EnqueueKeeps(o, reply, Comparison(false, false));
  }

  lemma LinksFollowOutbox(d: Database, d': Database)
    requires LinksOk(d) && Evolves(d.outbox, d'.outbox)
    requires forall id :: id in d'.inbox && d'.inbox[id].result.Some? ==>
               id in d.inbox && d.inbox[id].result == d'.inbox[id].result
    ensures LinksOk(d')
  {
  }

  lemma ReturnsFollowOutbox(d: Database, d': Database)
    requires LinksOk(d) && LinksReturn(d) && Evolves(d.outbox, d'.outbox) && Retains(d.inbox, d'.inbox)
    requires forall id :: id in d'.inbox && d'.inbox[id].result.Some? ==>
               id in d.inbox && d.inbox[id].result == d'.inbox[id].result
    ensures LinksReturn(d')
  {
  }

  lemma SettleKeeps(d: Database, id: Id, consumer: string, token: string, outcome: SettleOutcome, reply: Envelope, now: int)
    requires OutboxOk(d.outbox) && InboxOk(d.inbox) && LinksOk(d)
    ensures var d' := SettleSpec(d, id, consumer, token, outcome, reply, now).0;
      && OutboxOk(d'.outbox) && Evolves(d.outbox, d'.outbox)
      && InboxOk(d'.inbox) && Retains(d.inbox, d'.inbox)
      && LinksOk(d')
      && (LinksReturn(d) && (id in d.inbox ==> reply.target == d.inbox[id].envelope.origin) ==> LinksReturn(d'))
  {
    var d' := SettleSpec(d, id, consumer, token, outcome, reply, now).0;
    if d' != d {
      assert Sealed(reply);
      var a := ReplyAuthority(d.outbox, id, reply).value;
      AuthorityIsStored(d.outbox, id, reply);
      var row := d'.inbox[id];
      assert d'.inbox == d.inbox[id := row];
      RowReplaceKeeps(d.inbox, id, row);
      SettleKeepsLinks(d, d', id);
    }
  }

  lemma SettleKeepsLinks(d: Database, d': Database, id: Id)
    requires LinksOk(d) && Evolves(d.outbox, d'.outbox) && id in d.inbox && id in d'.inbox
    requires d'.inbox == d.inbox[id := d'.inbox[id]] && d'.inbox[id].result.Some?
    requires d'.inbox[id].envelope == d.inbox[id].envelope
    requires var l := d'.inbox[id].result.value;
      l.id in d'.outbox && d'.outbox[l.id].envelope.key == l.key && d'.outbox[l.id].envelope.payloadSha == l.sha
    ensures LinksOk(d')
    ensures LinksReturn(d) && d'.outbox[d'.inbox[id].result.value.id].envelope.target == d.inbox[id].envelope.origin
            ==> LinksReturn(d')
  {
  }

  /** Repeating a settlement answers with the recorded reply and changes
      nothing: the "inconsistent result" error needs a reply addressed to
      someone else than the sender. */
  lemma RepeatedSettleIsStable(d: Database, id: Id, consumer: string, token: string, outcome: SettleOutcome,
                               reply: Envelope, now: int)
    requires OutboxOk(d.outbox) && LinksOk(d) && LinksReturn(d) && ValidEnvelope(reply)
    requires id in d.inbox && d.inbox[id].state == SettledState(outcome)
    requires reply.target == d.inbox[id].envelope.origin
    ensures var (d', r) := SettleSpec(d, id, consumer, token, outcome, reply, now);
      && d' == d
      && r != Err(Inconsistent)
      && (r.Ok? <==> d.inbox[id].result.Some? && d.inbox[id].result.value.key == reply.key)
      && (r.Ok? ==> r.value.reply.id == d.inbox[id].result.value.id && r.value.reply.duplicate)
  {
    if d.inbox[id].result.Some? && d.inbox[id].result.value.key == reply.key {
      var l := d.inbox[id].result.value;
      assert InSlot(d.outbox, l.id, reply.target, reply.key);
    }
  }

  /** A settlement moves one row out of its claim, or leaves the inbox alone. */
  ghost predicate SettlesRow(i: Inbox, i': Inbox, id: Id) {
    || i' == i
    || (id in i && id in i' && !i'[id].state.Claimed? && i' == i[id := i'[id]])
  }

  lemma SettleMoves(d: Database, id: Id, consumer: string, token: string, outcome: SettleOutcome, reply: Envelope, now: int)
    ensures SettlesRow(d.inbox, SettleSpec(d, id, consumer, token, outcome, reply, now).0.inbox, id)
  {
  }

  /** ... and adds at most the reply to the outbox. */
  lemma SettleEnqueues(d: Database, id: Id, consumer: string, token: string, outcome: SettleOutcome, reply: Envelope,
                       now: int)
    ensures var o := SettleSpec(d, id, consumer, token, outcome, reply, now).0.outbox;
      o == d.outbox || (reply.id !in d.outbox && o == d.outbox[reply.id := NewOutRow(reply)])
  {
  }

  // ---- Which conversation the reply stands in --------------------------------------

  /** A reply with the same content under the same target and key, in another
      conversation, is already on its way. */
  predicate SentElsewhere(o: Outbox, reply: Envelope, x: Id) {
    && InSlot(o, x, reply.target, reply.key)
    && SameOperation(o[x].envelope, reply, Comparison(false, false))
    && o[x].envelope.conversation != reply.conversation
  }

  lemma AuthorityConversationIff(o: Outbox, id: Id, reply: Envelope)
    requires OutboxOk(o) && Sealed(reply) && ReplyAuthority(o, id, reply).Ok?
    ensures var a := ReplyAuthority(o, id, reply).value;
      && a.link.id in a.outbox
      && (a.outbox[a.link.id].envelope.conversation == reply.conversation <==> forall x :: !SentElsewhere(o, reply, x))
  {
    AuthorityIsStored(o, id, reply);
    var a := ReplyAuthority(o, id, reply).value;
    match FindOperation(o, reply.target, reply.key)
    case None =>
    case Some(prior) =>
      assert a.outbox == o && a.link.id == prior;
      forall x | SentElsewhere(o, reply, x) ensures x == prior {
        assert SameSlot(o[x].envelope, o[prior].envelope);
      }
      assert SentElsewhere(o, reply, prior) <==>
        SameOperation(o[prior].envelope, reply, Comparison(false, false))
        && o[prior].envelope.conversation != reply.conversation;
  }

  /** The reply a settlement records stands in the requested conversation exactly when
      the same operation is not already in the outbox in another one. */
  lemma SettledConversationIff(d: Database, id: Id, consumer: string, token: string, outcome: SettleOutcome,
                               reply: Envelope, now: int)
    requires OutboxOk(d.outbox) && HoldsClaim(d.inbox, id, consumer, token, now)
    requires SettleSpec(d, id, consumer, token, outcome, reply, now).1.Ok?
    ensures var d' := SettleSpec(d, id, consumer, token, outcome, reply, now).0;
      && d'.inbox[id].result.Some? && d'.inbox[id].result.value.id in d'.outbox
      && (d'.outbox[d'.inbox[id].result.value.id].envelope.conversation == reply.conversation <==>
            forall x :: !SentElsewhere(d.outbox, reply, x))
  {
    AuthorityConversationIff(d.outbox, id, reply);
  }
}
