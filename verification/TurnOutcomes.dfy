/** What admission and each turn make of a consultation run, in plain states and columns of the
    old and the new run. */
module TurnOutcomes {
  import opened Envelopes
  import opened Ordering
  import opened Tables
  import opened Text
  import opened Evidence
  import opened RunTable
  import opened OutboxTable
  import opened Settlement
  import opened Consultations

  // ---- Admission -----------------------------------------------------------------

  function Smaller(a: int, b: int): int { if a < b then a else b }

  /** The last fingerprint a nested request carries is that of its own text. */
  predicate CarriesOwnFingerprint(e: Envelope, project: string) {
    e.payload.context.Some? ==>
      var a := e.payload.context.value.ancestry;
      a != [] && a[|a| - 1] == RequestFingerprint(project, e.payload.subject, e.payload.body)
  }

  predicate DeepEnough(policy: Policy, e: Envelope) {
    e.payload.context.Some? ==> e.payload.context.value.depth <= policy.maxDepth
  }

  /** The run of a first request starts a tree; that of a nested one goes on where its context
      says, within the smaller of the two depth limits. */
  predicate Continues(run: ConsultationRun, policy: Policy, e: Envelope, project: string) {
    match e.payload.context
    case None =>
      && run.rootId == e.id && run.depth == 0 && run.maxDepth == policy.maxDepth
      && run.ancestry == [RequestFingerprint(project, e.payload.subject, e.payload.body)]
    case Some(c) =>
      run.rootId == c.rootId && run.depth == c.depth && run.maxDepth == Smaller(c.maxDepth, policy.maxDepth)
      && run.ancestry == c.ancestry
  }

  /** Exactly the requests about a known project that are not too deep are admitted, and this
      is the run made for them. */
  lemma AdmissionOutcome(policy: Policy, e: Envelope, known: bool, now: int)
    requires ValidPolicy(policy) && ValidEnvelope(e)
    ensures var a := Admit(policy, e, known, now);
      && (a.Admitted? <==>
            && known && e.payload.project.Some? && e.payload.request.Some?
            && CarriesOwnFingerprint(e, e.payload.project.value) && DeepEnough(policy, e))
      && (a.Admitted? ==>
            var project := e.payload.project.value;
            && Continues(a.run, policy, e, project)
            && a.run == ConsultationRun(
                 e.id, e.conversation, a.run.rootId, project, PendingChild, 0, a.run.depth, policy.maxRounds, a.run.maxDepth,
                 a.run.ancestry, a.run.deadline, Bundle(project, 0, None, []), [], None, None, None, None, None, [], 0, now)
            && a.run.deadline ==
               (if e.expiresAt.Some? then Smaller(e.expiresAt.value, e.createdAt + 1000 * policy.runTimeoutSeconds)
                else e.createdAt + 1000 * policy.runTimeoutSeconds))
  {
  }

  // ---- Stored runs ---------------------------------------------------------------------

  /** A run is created once, under version 0. Creating it again gives back the stored one, if
      that is for the same request, conversation, root, project and depth. */
  lemma EnsureOutcome(runs: Runs, r: ConsultationRun)
    ensures var (runs', result) := EnsureRunSpec(runs, r);
      if !ValidRun(r) then runs' == runs && result == Err(Invalid)
      else if r.version != 0 then runs' == runs && result == Err(Transition)
      else if r.requestId !in runs then runs' == runs[r.requestId := r] && result == Ok(r)
      else
        var stored := runs[r.requestId];
        && runs' == runs
        && result == if stored == r.(maxRounds := stored.maxRounds, maxDepth := stored.maxDepth, ancestry := stored.ancestry,
                                     deadline := stored.deadline, state := stored.state, roundCount := stored.roundCount,
                                     evidence := stored.evidence, requestedEvidence := stored.requestedEvidence,
                                     peerRequest := stored.peerRequest, nestedTaskId := stored.nestedTaskId,
                                     nextAttemptAt := stored.nextAttemptAt, errorCode := stored.errorCode,
                                     finalAnswer := stored.finalAnswer, finalPaths := stored.finalPaths,
                                     version := stored.version, createdAt := stored.createdAt)
                     then Ok(stored) else Err(Transition)
  {
  }

  /** A run is saved over the version it was computed from, under the next one. */
  lemma SaveOutcome(runs: Runs, r: ConsultationRun, expected: nat)
    ensures var (runs', result) := SaveRunSpec(runs, r, expected);
      if ValidRun(r) && r.version == expected && r.requestId in runs && runs[r.requestId].version == expected then
        runs' == runs[r.requestId := r.(version := expected + 1)] && result == Ok(r.(version := expected + 1))
      else runs' == runs && result == Err(if ValidRun(r) then Transition else Invalid)
  {
  }

  // ---- Failing -----------------------------------------------------------------------

  /** The run as it was, without what only its last state needed. */
  function Cleared(r: ConsultationRun): ConsultationRun {
    r.(requestedEvidence := [], peerRequest := None, nestedTaskId := None, nextAttemptAt := None)
  }

  /** The run fails with this code and the message is settled as rejected. */
  predicate FailsWith(t: Turn, r: ConsultationRun, code: string) {
    && t.Finish? && t.outcome == SettleRejected
    && t.run == if r.state.RunFailed? then r else Cleared(r).(state := RunFailed, errorCode := Some(code))
  }

  // ---- A turn of the child ---------------------------------------------------------------

  /** The child answers, asks for evidence or asks the peer; each costs a round. */
  predicate ChildOutcome(r: ConsultationRun, child: Attempt<ChildTurn>, t: Turn) {
    if r.maxRounds <= r.roundCount then FailsWith(t, r, "CONSULTATION_ROUND_LIMIT")
    else
      match child
      case Thrown => t == Rethrow
      case Handled(code) => FailsWith(t, r, code)
      case Value(Answered(answer, paths)) =>
        t == Finish(Cleared(r).(state := RunCompleted, roundCount := r.roundCount + 1, finalAnswer := Some(answer),
                                finalPaths := paths), SettleProcessed)
      case Value(WantsEvidence(wanted)) =>
        t == Release(Cleared(r).(state := NeedsInformation, roundCount := r.roundCount + 1, requestedEvidence := wanted), None)
      case Value(WantsPeer(peer)) =>
        t == Release(Cleared(r).(state := WaitingPeer, roundCount := r.roundCount + 1, peerRequest := Some(peer)), None)
  }

  lemma ChildIsRight(r: ConsultationRun, child: Attempt<ChildTurn>)
    ensures ChildOutcome(r, child, Consultations.ExecuteChild(r, child))
  {
  }

  // ---- Evidence ----------------------------------------------------------------------------

  /** The evidence after a merge: under each path, up to case, what was added last, or else what
      was there. */
  ghost predicate Merged(before: Bundle, added: Bundle, after: Bundle) {
    && ValidBundle(after) && after.project == before.project
    && after.revision == (if added.revision.Some? then added.revision else before.revision)
    && forall path ::
         Last(after.items, path) == if Last(added.items, path).Some? then Last(added.items, path) else Last(before.items, path)
  }

  /** The merge fits the limits of a bundle and does not bring two revisions together. */
  ghost predicate MayMerge(before: Bundle, added: Bundle) {
    && !(before.revision.Some? && added.revision.Some? && before.revision != added.revision)
    && FitsBundle(MergedItems(before.items + added.items))
  }

  /** Evidence goes into the run, and the child has the next turn; two revisions fail the run. */
  ghost predicate EnrichOutcome(r: ConsultationRun, added: Bundle, t: Turn) {
    if MayMerge(r.evidence, added) then
      && t.Release? && t.sent.None? && Merged(r.evidence, added, t.run.evidence)
      && t.run == Cleared(r).(state := PendingChild, evidence := t.run.evidence)
    else if r.evidence.revision.Some? && added.revision.Some? && r.evidence.revision != added.revision then
      FailsWith(t, r, "EVIDENCE_POLICY")
    else t == Rethrow
  }

  lemma EnrichIsRight(r: ConsultationRun, added: Bundle)
    requires ValidBundle(r.evidence) && ValidBundle(added)
    ensures EnrichOutcome(r, added, Enrich(r, added))
  {
    hide ValidBundle, FitsBundle;
    MergeKeepsTheContract(r.evidence, added, "");
    forall path
      ensures MergeSpec(r.evidence, added).Ok? ==>
        Last(MergeSpec(r.evidence, added).value.items, path)
        == if Last(added.items, path).Some? then Last(added.items, path) else Last(r.evidence.items, path)
    {
      MergeKeepsTheContract(r.evidence, added, path);
    }
  }

  /** The evidence that was asked for goes into the run. */
  ghost predicate CollectOutcome(r: ConsultationRun, known: bool, collected: Attempt<Bundle>, t: Turn) {
    if !known || |r.requestedEvidence| == 0 then FailsWith(t, r, "CONSULTATION_EVIDENCE_INVALID")
    else
      match collected
      case Thrown => t == Rethrow
      case Handled(code) => FailsWith(t, r, code)
      case Value(bundle) => EnrichOutcome(r, bundle, t)
  }

  lemma CollectIsRight(r: ConsultationRun, known: bool, collected: Attempt<Bundle>)
    requires ValidBundle(r.evidence) && (collected.Value? ==> ValidBundle(collected.value))
    ensures CollectOutcome(r, known, collected, CollectEvidence(r, known, collected))
  {
    if collected.Value? {
      EnrichIsRight(r, collected.value);
    }
  }

  // ---- Asking the peer -----------------------------------------------------------------------

  /** What a nested request says: who asks whom what, in which place of the tree. */
  lemma NestedRequestOutcome(r: ConsultationRun, peer: PeerRequest, self: NodeId, target: NodeId, id: Id, conversation: Id,
                             now: int)
    ensures var e := NestedRequest(r, peer, self, target, id, conversation, now);
      var c := Context(r.rootId, Some(r.requestId), r.depth + 1, r.maxDepth,
                       r.ancestry + [RequestFingerprint(r.project, peer.subject, peer.request)]);
      && e == Envelope(id, e.key, self, target, TaskRequest, conversation, Some(r.rootId), Some(r.requestId),
                       "agent-coordination", Some(0), now, Some(r.deadline), e.payload, Sha256(e.payload))
      && e.payload == Payload(Trim(peer.subject), peer.request, Some(Trim(r.project)), [], Some(Dispatch(None, true)),
                              Some(CoordinationRequest(peer.intent)), None, Some(c))
      && e.key[..18 + |r.requestId| + 1] == "consultation-peer:" + r.requestId + ":"
  {
  }

  /** The peer is asked below the depth limit, and nothing that was asked on the way here; then
      the run waits for the task and looks again after the poll interval. */
  predicate AskOutcome(policy: Policy, r: ConsultationRun, peer: PeerRequest, nested: Envelope, sent: Result<EnqueueResult>,
                       now: int, t: Turn)
  {
    if r.maxDepth <= r.depth then FailsWith(t, r, "CONSULTATION_DEPTH_LIMIT")
    else if exists k :: 0 <= k < |r.ancestry| && r.ancestry[k] == RequestFingerprint(r.project, peer.subject, peer.request)
    then FailsWith(t, r, "CONSULTATION_CYCLE_DETECTED")
    else if sent.Err? then t == Rethrow
    else t == Release(r.(nestedTaskId := Some(sent.value.id), nextAttemptAt := Some(now + 1000 * policy.pollSeconds)),
                      Some(nested))
  }

  lemma AskIsRight(policy: Policy, r: ConsultationRun, peer: PeerRequest, nested: Envelope, sent: Result<EnqueueResult>,
                   now: int)
    ensures AskOutcome(policy, r, peer, nested, sent, now, AskPeer(policy, r, peer, nested, sent, now))
  {
  }

  // ---- The peer's answer -----------------------------------------------------------------------

  /** An authenticated result of the task: caused by it, from its target, to this node, in its
      conversation. */
  predicate ResultOf(row: InRow, task: Envelope, self: NodeId) {
    && row.authenticated && row.envelope.kind == TaskResult && row.envelope.causation == Some(task.id)
    && row.envelope.origin == task.target && row.envelope.target == self
    && row.envelope.conversation == task.conversation
  }

  ghost predicate CameFirst(i: Inbox, a: Id, b: Id)
    requires a in i && b in i
  {
    i[a].firstReceivedAt < i[b].firstReceivedAt || (i[a].firstReceivedAt == i[b].firstReceivedAt && InDictionaryOrder(a, b))
  }

  /** A reply is found exactly when the inbox holds a result of the task, and then it is the
      one that came first. */
  ghost predicate ReplyIsFirst(i: Inbox, task: Envelope, self: NodeId, found: Option<Id>) {
    match found
    case None => forall id :: id in i ==> !ResultOf(i[id], task, self)
    case Some(x) =>
      && x in i && ResultOf(i[x], task, self)
      && forall id :: id in i && id != x && ResultOf(i[id], task, self) ==> CameFirst(i, x, id)
  }

  lemma ReplyStampsAre(i: Inbox, task: Envelope, self: NodeId)
    ensures OnePerId(ReplyStamps(i, task, self))
    ensures forall id :: id in i && ResultOf(i[id], task, self) <==>
                           id in i && Stamp(i[id].firstReceivedAt, id) in ReplyStamps(i, task, self)
  {
  }

  lemma ReplyIsFound(i: Inbox, task: Envelope, self: NodeId)
    ensures ReplyIsFirst(i, task, self, FindReply(i, task, self))
  {
    var s := ReplyStamps(i, task, self);
    ReplyStampsAre(i, task, self);
    if s == {} {
      forall id | id in i ensures !ResultOf(i[id], task, self) {
        assert Stamp(i[id].firstReceivedAt, id) !in s;
      }
    } else {
      var m := Earliest(s);
      assert FirstIds(s, 1) == [m.id];
      assert m.id in i && m == Stamp(i[m.id].firstReceivedAt, m.id);
      forall id | id in i && id != m.id && ResultOf(i[id], task, self) ensures CameFirst(i, m.id, id) {
        assert Stamp(i[id].firstReceivedAt, id) in s;
        StrLessIsDictionaryOrder(m.id, id);
      }
    }
  }

  /** The result belongs to this run, and nothing stands against it. */
  predicate Belongs(r: ConsultationRun, task: Envelope, row: InRow) {
    && task.stream == "agent-coordination" && row.envelope.stream == "agent-coordination"
    && row.state != Quarantined
    && row.envelope.correlation == Some(r.rootId) && row.envelope.payload.project == Some(r.project)
  }

  /** The body of a result as evidence, under the id of the message that brought it. */
  function AnswerItem(id: Id, body: string): EvidenceItem {
    EvidenceItem(".bridge/peer-results/" + id + ".txt", PeerResult, Some(id), None, None, body, Utf8Length(body))
  }

  function AnswerBundle(r: ConsultationRun, e: Envelope): Bundle {
    Bundle(r.project, Utf8Length(e.payload.body), None, [AnswerItem(e.id, e.payload.body)])
  }

  /** A completed result that belongs to the run becomes evidence; any other fails it. */
  ghost predicate AnswerOutcome(r: ConsultationRun, task: Envelope, row: InRow, t: Turn) {
    if !Belongs(r, task, row) then FailsWith(t, r, "CONSULTATION_PEER_RESULT_INVALID")
    else if row.envelope.payload.result.None? || row.envelope.payload.result.value.outcome != Outcome.Completed then
      FailsWith(t, r, "CONSULTATION_PEER_FAILED")
    else if ValidBundle(AnswerBundle(r, row.envelope)) then EnrichOutcome(r, AnswerBundle(r, row.envelope), t)
    else t == Rethrow
  }

  lemma AnswerIsRight(r: ConsultationRun, task: Envelope, row: InRow)
    requires ValidBundle(r.evidence) && r.evidence.project == r.project
    ensures AnswerOutcome(r, task, row, TakeAnswer(r, task, row))
  {
    hide EnrichOutcome, Enrich, ValidBundle;
    if ValidBundle(AnswerBundle(r, row.envelope)) {
      EnrichIsRight(r, AnswerBundle(r, row.envelope));
    } else {
      InvalidPeerBundleThrows(r, row.envelope);
    }
  }

  /** Waiting: the run keeps its task and looks again later until a result is there; then the
      first one decides. */
  ghost predicate AwaitOutcome(policy: Policy, r: ConsultationRun, o: Outbox, i: Inbox, self: NodeId, now: int, t: Turn)
    requires r.nestedTaskId.Some?
  {
    var id := r.nestedTaskId.value;
    if id !in o || o[id].envelope.kind != TaskRequest then FailsWith(t, r, "CONSULTATION_PEER_RESULT_INVALID")
    else
      && (ReplyIsFirst(i, o[id].envelope, self, None) ==>
            t == Release(r.(nextAttemptAt := Some(now + 1000 * policy.pollSeconds)), None))
      && (forall x :: x in i && ReplyIsFirst(i, o[id].envelope, self, Some(x)) ==>
            AnswerOutcome(r, o[id].envelope, i[x], t))
  }

  lemma AwaitIsRight(policy: Policy, r: ConsultationRun, o: Outbox, i: Inbox, self: NodeId, now: int)
    requires ValidBundle(r.evidence) && r.evidence.project == r.project && r.nestedTaskId.Some?
    ensures AwaitOutcome(policy, r, o, i, self, now, AwaitPeer(policy, r, o, i, self, now))
  {
    hide TakeAnswer, AnswerOutcome, ValidBundle;
    var id := r.nestedTaskId.value;
    if id in o {
      var task := o[id].envelope;
      ReplyIsFound(i, task, self);
      forall x | x in i && ReplyIsFirst(i, task, self, Some(x)) ensures FindReply(i, task, self) == Some(x) {
        FirstIsOne(i, task, self, x, FindReply(i, task, self));
      }
      match FindReply(i, task, self)
      case Some(x) => AnswerIsRight(r, task, i[x]);
      case None =>
    }
  }

  lemma FirstIsOne(i: Inbox, task: Envelope, self: NodeId, x: Id, found: Option<Id>)
    requires ReplyIsFirst(i, task, self, found) && ReplyIsFirst(i, task, self, Some(x))
    ensures found == Some(x)
  {
    if found.Some? && found.value != x {
      StrLessIsDictionaryOrder(x, found.value);
      StrLessIsDictionaryOrder(found.value, x);
      StrTotal(x, found.value);
    }
  }

  // ---- The whole turn --------------------------------------------------------------------------

  /** What a turn may do in each state of the run, before and after its deadline. */
  ghost predicate TurnOutcome(policy: Policy, r: ConsultationRun, s: Surroundings, now: int, t: Turn) {
    if r.deadline <= now then FailsWith(t, r, "CONSULTATION_TIMED_OUT")
    else
      match r.state
      case PendingChild => ChildOutcome(r, s.child, t)
      case NeedsInformation => CollectOutcome(r, s.known, s.collected, t)
      case WaitingPeer =>
        if r.peerRequest.None? then FailsWith(t, r, "CONSULTATION_PEER_REQUEST_INVALID")
        else if r.nestedTaskId.None? then
          var nested := NestedRequest(r, r.peerRequest.value, s.self, s.origin, s.nestedId, s.nestedConversation, now);
          var sent := if s.authorized then EnqueueSpec(s.outbox, nested, Comparison(false, true)).1 else Err(Transition);
          AskOutcome(policy, r, r.peerRequest.value, nested, sent, now, t)
        else AwaitOutcome(policy, r, s.outbox, s.inbox, s.self, now, t)
      case RunCompleted => t == Finish(r, SettleProcessed)
      case RunFailed => t == Finish(r, SettleRejected)
  }

  lemma TurnIsRight(policy: Policy, r: ConsultationRun, s: Surroundings, now: int)
    requires ValidRun(r) && (s.collected.Value? ==> ValidBundle(s.collected.value))
    ensures TurnOutcome(policy, r, s, now, TakeTurn(policy, r, s, now))
  {
    hide ChildOutcome, CollectOutcome, AskOutcome, AwaitOutcome, AwaitPeer, CollectEvidence, ExecuteChild, ValidBundle,
      NestedRequest, EnqueueSpec, AskPeer;
    ChildIsRight(r, s.child);
    CollectIsRight(r, s.known, s.collected);
    if r.peerRequest.Some? {
      var nested := NestedRequest(r, r.peerRequest.value, s.self, s.origin, s.nestedId, s.nestedConversation, now);
      var sent := if s.authorized then EnqueueSpec(s.outbox, nested, NESTED).1 else Err(Transition);
      AskIsRight(policy, r, r.peerRequest.value, nested, sent, now);
    }
    if r.nestedTaskId.Some? {
      AwaitIsRight(policy, r, s.outbox, s.inbox, s.self, now);
    }
  }
}
