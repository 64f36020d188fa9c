/** The service that agents use: asking a question opens a conversation, continuing a
    result sends a numbered follow-up. What may be refused at sending is part of it. */
module Services {
  import opened Envelopes
  import opened Tables
  import opened OutboxTable
  import opened InboxTable
  import opened Operations
  import opened Conversations
  import opened BridgeDatabases
  import opened OutboxOutcomes

  const WEEK := 604_800_000

  /** What an agent asks, as the tools deliver it: texts are trimmed. */
  datatype Inquiry = Inquiry(key: string, subject: string, body: string, intent: Intent, timeoutSeconds: int,
                             expiresAt: Option<int>)

  function QuestionPayload(q: Inquiry, project: string, pinned: bool): Payload {
    Payload(q.subject, q.body, Some(project), [], Some(Dispatch(Some(q.timeoutSeconds), pinned)),
            Some(CoordinationRequest(q.intent)), None, None)
  }

  /** A coordination request; `id` is random. */
  function Request(q: Inquiry, payload: Payload, self: NodeId, target: NodeId, conversation: Id, causation: Option<Id>,
                   n: nat, id: Id, now: int): Envelope
  {
    Envelope(id, q.key, self, target, TaskRequest, conversation, None, causation, COORDINATION_STREAM, Some(n), now,
             Some(if q.expiresAt.Some? then q.expiresAt.value else now + WEEK), payload, Sha256(payload))
  }

  /** The follow-up to a result, in its conversation and under the number `n`. */
  function FollowUp(d: Database, self: NodeId, id: Id, q: Inquiry, project: string, n: nat, newId: Id, now: int): Envelope
    requires id in d.inbox && d.inbox[id].envelope.payload.result.Some?
    requires d.inbox[id].envelope.payload.result.value.requestId in d.outbox
  {
    var e := d.inbox[id].envelope;
    var prior := d.outbox[e.payload.result.value.requestId].envelope;
    var pinned := prior.payload.dispatch.Some? && prior.payload.dispatch.value.pinnedGit;
    Request(q, QuestionPayload(q, project, pinned), self, e.origin, e.conversation, Some(id), n, newId, now)
  }

  /** What a question says: the texts as given, the project, a read-only dispatch and the
      intent; who asks whom, in which conversation and place; when it expires. */
  predicate Says(e: Envelope, q: Inquiry, project: string, pinned: bool, n: nat, now: int) {
    && e.key == q.key && e.kind == TaskRequest && e.stream == "agent-coordination"
    && e.correlation.None? && e.sequence == Some(n) && e.createdAt == now
    && e.expiresAt == Some(if q.expiresAt.Some? then q.expiresAt.value else now + 7 * 24 * 3600 * 1000)
    && e.payload == Payload(q.subject, q.body, Some(project), [], Some(Dispatch(Some(q.timeoutSeconds), pinned)),
                            Some(CoordinationRequest(q.intent)), None, None)
    && e.payloadSha == Sha256(e.payload)
  }

  /** A follow-up names the result as its cause, goes to the sender of the result in the same
      conversation, and asks for evidence as the request before it did. */
  lemma FollowUpSays(d: Database, self: NodeId, id: Id, q: Inquiry, project: string, n: nat, newId: Id, now: int)
    requires id in d.inbox && d.inbox[id].envelope.payload.result.Some?
    requires d.inbox[id].envelope.payload.result.value.requestId in d.outbox
    ensures var e := FollowUp(d, self, id, q, project, n, newId, now);
      var result := d.inbox[id].envelope;
      var dispatch := d.outbox[result.payload.result.value.requestId].envelope.payload.dispatch;
      && Says(e, q, project, dispatch.Some? && dispatch.value.pinnedGit, n, now)
      && e.id == newId && e.origin == self && e.target == result.origin
      && e.conversation == result.conversation && e.causation == Some(id)
  {
  }

  /** A result that can be continued: received and authenticated, completed, from an authorized
      node, in answer to a request this node sent there in the same conversation. */
  predicate Continuable(d: Database, self: NodeId, authorized: set<NodeId>, id: Id, project: string) {
    && id in d.inbox && (d.inbox[id].state == Available || d.inbox[id].state == Processed) && d.inbox[id].authenticated
    && var e := d.inbox[id].envelope;
       && e.kind == TaskResult && e.origin in authorized && e.payload.result.Some?
       && e.payload.result.value.outcome == Outcome.Completed && e.payload.result.value.requestId in d.outbox
       && var asked := d.outbox[e.payload.result.value.requestId].envelope;
          && asked.kind == TaskRequest && asked.payload.request.Some? && asked.origin == self && asked.target == e.origin
          && asked.conversation == e.conversation && asked.payload.project == Some(project) && project != ""
  }

  lemma ContinuedMeans(d: Database, self: NodeId, authorized: set<NodeId>, id: Id, project: string)
    ensures ContinuedProject(d, self, authorized, id) == Some(project) <==> Continuable(d, self, authorized, id, project)
  {
  }

  function FollowUpComparison(q: Inquiry): Comparison { Comparison(true, q.expiresAt.Some?) }

  /** A thread keeps to its project: no request or result in view names another one. */
  lemma MixesMeans(view: seq<Item>, project: string)
    ensures !MixesProjects(view, project) <==>
      forall x :: x in view && (x.envelope.payload.request.Some? || x.envelope.payload.result.Some?) ==>
        || x.envelope.payload.project.None?
        || x.envelope.payload.project.value == "" || x.envelope.payload.project.value == project
  {
  }

  /** Under a key that was used, a follow-up is accepted exactly as the repetition of the one
      sent: in the same conversation, and with the same expiry where one is given. */
  lemma FollowUpRepeats(o: Outbox, e: Envelope, q: Inquiry, id: Id)
    requires OutboxOk(o) && ValidEnvelope(e) && !OpenedBefore(o, e) && id in o && Holds(o[id], e.target, e.key)
    ensures var (o', r) := EnqueueSpec(o, e, FollowUpComparison(q));
      var sent := o[id].envelope;
      && o' == o
      && (r.Ok? <==> sent == e.(id := sent.id, origin := sent.origin, createdAt := sent.createdAt,
                                expiresAt := if q.expiresAt.Some? then e.expiresAt else sent.expiresAt))
      && (r.Ok? ==> r.value.id == id && r.value.duplicate)
      && (r.Err? ==> r.failure == Conflict)
  {
    hide ValidEnvelope, OpenedBefore;
    EnqueueOutcome(o, e, FollowUpComparison(q));
  }

  /** A coordination root of this conversation stands in the outbox. */
  ghost predicate HasRoot(o: Outbox, c: Id) {
    exists x :: x in o && IsRoot(o[x].envelope) && o[x].envelope.conversation == c
  }

  /** A result that may be continued now, under a key not used before. */
  ghost predicate MayContinue(d: Database, self: NodeId, authorized: set<NodeId>, id: Id, key: string, rows: seq<Item>) {
    && ContinuedProject(d, self, authorized, id).Some?
    && Lists(rows, ConversationRows(d, d.inbox[id].envelope.conversation))
    && Promise(d.outbox, (d.inbox[id].envelope.origin, key)).None?
    && var view := ListConversation(rows, (self, d.inbox[id].envelope.origin), WINDOW);
       IsLatest(view, id) && !MixesProjects(view, ContinuedProject(d, self, authorized, id).value)
  }

  // ---- What becomes of a follow-up ------------------------------------------------------

  /** A new request is refused exactly when it is a second root. */
  lemma NewRequestIsAcceptedIff(o: Outbox, e: Envelope, c: Comparison)
    requires e.kind.TaskRequest? && e.stream == COORDINATION_STREAM && e.payload.request.Some?
    requires Promise(o, (e.target, e.key)).None? && e.id !in o
    ensures var (o', r) := EnqueueRow(o, e, c);
      if e.sequence == Some(0) && HasRoot(o, e.conversation) then o' == o && r == Err(Transition)
      else o' == o[e.id := NewOutRow(e)] && r == Ok(EnqueueResult(e.id, Pending, false))
  {
    assert FindOperation(o, e.target, e.key).None?;
    if HasRoot(o, e.conversation) {
      var x :| x in o && IsRoot(o[x].envelope) && o[x].envelope.conversation == e.conversation;
      assert !InSlot(o, x, e.target, e.key);
    }
  }

  /** The view is the end of the thread, and the next number is zero exactly where no turn
      in view is numbered. */
  lemma NextNumber(thread: seq<Item>, n: nat)
    requires InOrder(thread) && IsNextSequence(Newest(thread, WINDOW), n)
    ensures n > 0 ==> Fresh(thread, n)
    ensures n == 0 ==> (Fresh(thread, n) <==> forall x :: x in thread ==> !Numbered(x))
    ensures n == 0 <==> (forall x :: x in thread ==> !Numbered(x)) || Trailing(thread) >= WINDOW
  {
    FollowUpIsFreshIff(thread, n);
    var view := Newest(thread, WINDOW);
    if n > 0 {
      var x :| x in view && Numbered(x) && x.envelope.sequence.value == n - 1;
      NumberedInView(thread, x);
    } else {
      ZeroMeansNone(thread);
    }
  }

  lemma NumberedInView(thread: seq<Item>, x: Item)
    requires x in Newest(thread, WINDOW) && Numbered(x)
    ensures x in thread && Trailing(thread) < WINDOW
  {
    var view := Newest(thread, WINDOW);
    var i :| 0 <= i < |view| && view[i] == x;
    assert x == thread[|thread| - |view| + i];
  }

  lemma NewestHolds(thread: seq<Item>, p: nat)
    requires p < |thread| && |thread| - p <= WINDOW
    ensures thread[p] in Newest(thread, WINDOW)
  {
    if |thread| > WINDOW {
      assert thread[|thread| - WINDOW..][p - (|thread| - WINDOW)] == thread[p];
    }
  }

  lemma LastNumberedInView(thread: seq<Item>)
    requires Trailing(thread) < |thread| && Trailing(thread) < WINDOW
    ensures exists x :: x in Newest(thread, WINDOW) && Numbered(x)
  {
    hide Trailing, Newest;
    NewestHolds(thread, |thread| - Trailing(thread) - 1);
    assert Numbered(thread[|thread| - Trailing(thread) - 1]);
  }

  lemma ZeroMeansNone(thread: seq<Item>)
    requires forall x :: x in Newest(thread, WINDOW) ==> !Numbered(x)
    ensures (forall x :: x in thread ==> !Numbered(x)) || Trailing(thread) >= WINDOW
  {
    if Trailing(thread) < |thread| && Trailing(thread) < WINDOW {
      LastNumberedInView(thread);
      assert false;
    }
  }

  /** What becomes of a new follow-up to the latest turn. It is refused exactly when no turn
      in view is numbered and the conversation has a root of this node already. If it is
      accepted, its number repeats or falls below another one exactly when there are
      numbered turns, but a hundred unnumbered ones stand behind them. After a numbered turn
      it is always accepted, with a number above all others. */
  lemma FollowUpOutcome(d: Database, self: NodeId, authorized: set<NodeId>, id: Id, q: Inquiry, rows: seq<Item>,
                        n: nat, newId: Id, now: int)
    requires DatabaseOk(d) && MayContinue(d, self, authorized, id, q.key, rows) && newId !in d.outbox
    requires IsNextSequence(ListConversation(rows, (self, d.inbox[id].envelope.origin), WINDOW), n)
    requires ValidEnvelope(FollowUp(d, self, id, q, ContinuedProject(d, self, authorized, id).value, n, newId, now))
    ensures var e := FollowUp(d, self, id, q, ContinuedProject(d, self, authorized, id).value, n, newId, now);
      var thread := Filter(Sort(rows), (self, d.inbox[id].envelope.origin));
      var none := forall x :: x in thread ==> !Numbered(x);
      var (o', r) := EnqueueSpec(d.outbox, e, FollowUpComparison(q));
      && (r.Err? <==> (none || Trailing(thread) >= WINDOW) && HasRoot(d.outbox, e.conversation))
      && (r.Err? ==> r.failure == Transition && o' == d.outbox)
      && (r.Ok? ==> o' == d.outbox[newId := NewOutRow(e)] && (Fresh(thread, n) <==> none || Trailing(thread) < WINDOW))
      && (HasRoot(d.outbox, e.conversation) && r.Ok? ==> Fresh(thread, n))
      && (Numbered(thread[|thread| - 1]) ==> r.Ok? && Fresh(thread, n))
  {
    var route := (self, d.inbox[id].envelope.origin);
    var e := FollowUp(d, self, id, q, ContinuedProject(d, self, authorized, id).value, n, newId, now);
    var c := d.inbox[id].envelope.conversation;
    RowsAreKeyed(d, c);
    ViewIsOrdered(rows, ConversationRows(d, c), route);
    var thread := Filter(Sort(rows), route);
    assert thread != [];
    NextNumber(thread, n);
    if Numbered(thread[|thread| - 1]) { NumberedTurnIsExceeded(thread, n); }
    NewRequestIsAcceptedIff(d.outbox, e, FollowUpComparison(q));
  }

  /** A conversation that this node opened stays opened. */
  lemma RootStays(d: Database, ops: seq<Op>, c: Id)
    requires DatabaseOk(d) && HasRoot(d.outbox, c)
    ensures HasRoot(Run(d, ops).outbox, c)
  {
    hide Step;
    RunKeeps(d, ops);
    var x :| x in d.outbox && IsRoot(d.outbox[x].envelope) && d.outbox[x].envelope.conversation == c;
    assert Run(d, ops).outbox[x].envelope == d.outbox[x].envelope;
  }

  /** In a conversation that this node opened, at whatever time, an accepted follow-up has a
      number above all others. */
  lemma OwnThreadsNeverRepeat(start: seq<Op>, more: seq<Op>, d: Database, self: NodeId, authorized: set<NodeId>, id: Id,
                              q: Inquiry, rows: seq<Item>, n: nat, newId: Id, now: int)
    requires d == Run(Run(EmptyDatabase(), start), more)
    requires MayContinue(d, self, authorized, id, q.key, rows) && newId !in d.outbox
    requires HasRoot(Run(EmptyDatabase(), start).outbox, d.inbox[id].envelope.conversation)
    requires IsNextSequence(ListConversation(rows, (self, d.inbox[id].envelope.origin), WINDOW), n)
    requires EnqueueSpec(d.outbox, FollowUp(d, self, id, q, ContinuedProject(d, self, authorized, id).value, n, newId, now),
                         FollowUpComparison(q)).1.Ok?
    ensures Fresh(Filter(Sort(rows), (self, d.inbox[id].envelope.origin)), n)
  {
    hide Step;
    EveryRunIsOk(start);
    RunKeeps(Run(EmptyDatabase(), start), more);
    RootStays(Run(EmptyDatabase(), start), more, d.inbox[id].envelope.conversation);
    FollowUpOutcome(d, self, authorized, id, q, rows, n, newId, now);
  }

  // ---- The service -----------------------------------------------------------------------

  class AgentBridgeService {
    const database: BridgeDatabase
    const systemId: NodeId
    const authorizedNodeIds: set<NodeId>

    constructor (database: BridgeDatabase, systemId: NodeId, authorizedNodeIds: set<NodeId>)
      ensures this.database == database && this.systemId == systemId && this.authorizedNodeIds == authorizedNodeIds
    {
      this.database, this.systemId, this.authorizedNodeIds := database, systemId, authorizedNodeIds;
    }

    method Send(e: Envelope, c: Comparison) returns (r: Result<EnqueueResult>)
      requires database.Valid()
      modifies database`outbox
      ensures database.Valid()
      ensures if e.target == systemId || e.target !in authorizedNodeIds
              then database.outbox == old(database.outbox) && r == Err(Transition)
              else (database.outbox, r) == EnqueueSpec(old(database.outbox), e, c)
    {
      if e.target == systemId || e.target !in authorizedNodeIds {
        return Err(Transition);
      }
      r := database.EnqueueEnvelope(e, c);
    }

    /** Opens a conversation, or finds the one opened under this key. `conversation` is
        drawn by the call where none is given. */
    method AskAgent(target: NodeId, q: Inquiry, project: string, pinned: bool, given: Option<Id>, conversation: Id,
                    newId: Id, now: int) returns (r: Result<EnqueueResult>)
      requires database.Valid() && (given.Some? ==> conversation == given.value)
      modifies database`outbox
      ensures database.Valid()
      ensures r.Err? ==> database.outbox == old(database.outbox)
      ensures r.Ok? ==> r.value.id in database.outbox && IsRoot(database.outbox[r.value.id].envelope)
      ensures r.Ok? ==> HasRoot(database.outbox, database.outbox[r.value.id].envelope.conversation)
      ensures r.Ok? && given.Some? ==> database.outbox[r.value.id].envelope.conversation == given.value
      ensures r.Ok? && !r.value.duplicate && given.Some? ==> ConversationRows(old(database.Contents()), given.value) == {}
      ensures target == systemId || target !in authorizedNodeIds ==> r == Err(Transition)
      ensures r.Ok? && !r.value.duplicate ==>
        && newId !in old(database.outbox) && newId in database.outbox && r.value.id == newId
        && var e := database.outbox[newId].envelope;
           && Says(e, q, project, pinned, 0, now) && e.origin == systemId && e.target == target
           && e.conversation == conversation && e.causation.None?
           && database.outbox == old(database.outbox)[newId := OutRow(e, Pending, 0, now, None, None)]
    {
      if target == systemId || target !in authorizedNodeIds {
        return Err(Transition);
      }
      var existing := Made(database.Contents(), target, q.key);
      if given.Some? && existing.Some? && existing.value.conversation != given.value {
        return Err(Conflict);
      }
      if given.Some? && existing.None? && ConversationRows(database.Contents(), given.value) != {} {
        return Err(Transition);
      }
      var e := Request(q, QuestionPayload(q, project, pinned), systemId, target, conversation, None, 0, newId, now);
      AskedIsRoot(database.outbox, e, Comparison(given.Some?, q.expiresAt.Some?));
      r := Send(e, Comparison(given.Some?, q.expiresAt.Some?));
    }

    /** Continues a result: the checks, the number and the sending. */
    method ContinueAgent(id: Id, q: Inquiry, rows: seq<Item>, newId: Id, now: int)
      returns (r: Result<EnqueueResult>, n: nat)
      requires database.Valid()
      requires id in database.inbox ==>
        Lists(rows, ConversationRows(database.Contents(), database.inbox[id].envelope.conversation))
      modifies database`outbox
      ensures database.Valid()
      ensures r.Err? ==> database.outbox == old(database.outbox)
      ensures var d := old(database.Contents());
        MayContinue(d, systemId, authorizedNodeIds, id, q.key, rows) && d.inbox[id].envelope.origin != systemId ==>
          var project := ContinuedProject(d, systemId, authorizedNodeIds, id).value;
          && IsNextSequence(ListConversation(rows, (systemId, d.inbox[id].envelope.origin), WINDOW), n)
          && (database.outbox, r) ==
             EnqueueSpec(d.outbox, FollowUp(d, systemId, id, q, project, n, newId, now), FollowUpComparison(q))
      ensures var d := old(database.Contents());
        r.Ok? ==>
          && ContinuedProject(d, systemId, authorizedNodeIds, id).Some?
          && (MayContinue(d, systemId, authorizedNodeIds, id, q.key, rows)
              || (r.value.duplicate && database.outbox == d.outbox))
    {
      n := 0;
      ghost var d := database.Contents();
      var numbered := NumberFollowUp(database.Contents(), systemId, authorizedNodeIds, id, q.key, rows);
      if numbered.Err? {
        return Err(Transition), 0;
      }
      n := numbered.value;
      var project := ContinuedProject(database.Contents(), systemId, authorizedNodeIds, id).value;
      var e := FollowUp(database.Contents(), systemId, id, q, project, n, newId, now);
      EnqueueAnswers(database.outbox, e, FollowUpComparison(q));
      hide BridgeDatabase.Valid;
      r := Send(e, FollowUpComparison(q));
    }
  }

  lemma EnqueueAnswers(o: Outbox, e: Envelope, c: Comparison)
    ensures var (o', r) := EnqueueSpec(o, e, c);
      && (r.Err? ==> o' == o)
      && (r.Ok? && Promise(o, (e.target, e.key)).Some? ==> o' == o && r.value.duplicate)
  {
  }

  /** Whatever answers an opening question is a root. */
  lemma AskedIsRoot(o: Outbox, e: Envelope, c: Comparison)
    requires OutboxOk(o) && IsRoot(e)
    ensures var (o', r) := EnqueueSpec(o, e, c);
      && (r.Err? ==> o' == o)
      && (r.Ok? ==> r.value.id in o' && IsRoot(o'[r.value.id].envelope))
      && (r.Ok? && c.conversation ==> o'[r.value.id].envelope.conversation == e.conversation)
      && (r.Ok? && !r.value.duplicate ==> Promise(o, (e.target, e.key)).None?)
  {
  }
}
