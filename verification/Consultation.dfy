/** A consultation run: how a request is admitted, what one turn makes of the
    stored run, and why every run ends. */
module Consultations {
  import opened Envelopes
  import opened Ordering
  import opened Tables
  import opened Text
  import opened Evidence
  import opened RunTable
  import opened OutboxTable
  import opened Settlement

  datatype Policy = Policy(maxRounds: nat, maxDepth: nat, runTimeoutSeconds: nat, pollSeconds: nat)

  predicate ValidPolicy(p: Policy) {
    && 1 <= p.maxRounds <= 16
    && 1 <= p.maxDepth <= 4
    && 30 <= p.runTimeoutSeconds <= 3600
    && 1 <= p.pollSeconds <= 300
  }

  // ---- Fingerprints -----------------------------------------------------------

  function RequestFingerprint(project: string, subject: string, request: string): Fingerprint {
    Sha256Text(Normalize(project) + "\n" + (Normalize(subject) + "\n" + Normalize(request)))
  }

  /** A fingerprint identifies the request up to case and white space. */
  lemma FingerprintIdentifies(p: string, s: string, r: string, p': string, s': string, r': string)
    ensures RequestFingerprint(p, s, r) == RequestFingerprint(p', s', r') <==>
              Normalize(p) == Normalize(p') && Normalize(s) == Normalize(s') && Normalize(r) == Normalize(r')
  {
    if RequestFingerprint(p, s, r) == RequestFingerprint(p', s', r') {
      NormalizeHasNoNewline(p);
      NormalizeHasNoNewline(p');
      NormalizeHasNoNewline(s);
      NormalizeHasNoNewline(s');
      var x, y := Normalize(s) + "\n" + Normalize(r), Normalize(s') + "\n" + Normalize(r');
      SplitAtNewline(Normalize(p), x, Normalize(p'), y);
      SplitAtNewline(Normalize(s), Normalize(r), Normalize(s'), Normalize(r'));
    }
  }

  /** ... that is, by its words, whatever their case and the white space around them. */
  lemma FingerprintIsTheWords(p: string, s: string, r: string, p': string, s': string, r': string)
    ensures RequestFingerprint(p, s, r) == RequestFingerprint(p', s', r') <==>
      SameWords(p, p') && SameWords(s, s') && SameWords(r, r')
  {
    hide RequestFingerprint, Normalize, SameWords;
    FingerprintIdentifies(p, s, r, p', s', r');
    NormalizedAlikeIff(p, p');
    NormalizedAlikeIff(s, s');
    NormalizedAlikeIff(r, r');
  }

  // ---- Admission --------------------------------------------------------------

  datatype Admission = Admitted(run: ConsultationRun) | Refused

  function EmptyBundle(project: string): Bundle { Bundle(project, 0, None, []) }

  function Deadline(policy: Policy, e: Envelope): int {
    var byPolicy := e.createdAt + 1000 * policy.runTimeoutSeconds;
    if e.expiresAt.Some? && e.expiresAt.value < byPolicy then e.expiresAt.value else byPolicy
  }

  function Ancestry(e: Envelope, own: Fingerprint): seq<Fingerprint> {
    if e.payload.context.Some? then e.payload.context.value.ancestry else [own]
  }

  function MaxDepth(policy: Policy, e: Envelope): nat {
    match e.payload.context
    case Some(c) => if 0 <= c.maxDepth < policy.maxDepth then c.maxDepth else policy.maxDepth
    case None => policy.maxDepth
  }

  function Depth(e: Envelope): nat {
    if e.payload.context.Some? && 0 <= e.payload.context.value.depth then e.payload.context.value.depth else 0
  }

  /** The run created for a message, if it may be consulted about. `known` says
      whether the project is registered locally. */
  function Admit(policy: Policy, e: Envelope, known: bool, now: int): Admission {
    if e.payload.project.None? || e.payload.request.None? || !known then Refused
    else
      var project := e.payload.project.value;
      var own := RequestFingerprint(project, e.payload.subject, e.payload.body);
      var ancestry := Ancestry(e, own);
      if e.payload.context.Some? && (ancestry == [] || ancestry[|ancestry| - 1] != own) then Refused
      else if Depth(e) > MaxDepth(policy, e) then Refused
      else
        Admitted(ConsultationRun(
          e.id, e.conversation, if e.payload.context.Some? then e.payload.context.value.rootId else e.id,
          project, PendingChild, 0, Depth(e), policy.maxRounds, MaxDepth(policy, e), ancestry,
          Deadline(policy, e), EmptyBundle(project), [], None, None, None, None, None, [], 0, now))
  }

  /** Whatever is admitted satisfies the schema of stored runs. */
  lemma AdmittedIsValid(policy: Policy, e: Envelope, known: bool, now: int)
    requires ValidPolicy(policy) && ValidEnvelope(e) && Admit(policy, e, known, now).Admitted?
    ensures ValidRun(Admit(policy, e, known, now).run)
  {
  }

  /** Admitting a message again, under any policy and at any time, finds the run
      stored for it the first time. */
  lemma ReadmissionFindsTheRun(runs: Runs, p: Policy, p': Policy, e: Envelope, now: int, now': int)
    requires ValidPolicy(p) && ValidPolicy(p') && ValidEnvelope(e)
    requires Admit(p, e, true, now).Admitted? && Admit(p', e, true, now').Admitted?
    requires e.id in runs && SameIdentity(runs[e.id], Admit(p, e, true, now).run)
    ensures EnsureRunSpec(runs, Admit(p', e, true, now').run) == (runs, Ok(runs[e.id]))
  {
    AdmittedIsValid(p', e, true, now');
  }

  // ---- One turn ---------------------------------------------------------------

  /** What the executor or the evidence provider did: a value, an error that
      fails the run, or one that is thrown on. */
  datatype Attempt<T> = Value(value: T) | Handled(code: string) | Thrown

  datatype ChildTurn =
    | Answered(answer: string, paths: seq<string>)
    | WantsEvidence(wanted: seq<string>)
    | WantsPeer(peer: PeerRequest)

  predicate ValidPeer(p: PeerRequest) {
    1 <= |Trim(p.subject)| && |p.subject| <= 200 && 1 <= |p.request| <= 12_000
  }

  /** The contract of a child's result, including that it cites only evidence it
      was given. */
  predicate ValidChild(c: ChildTurn, evidence: Bundle) {
    match c
    case Answered(answer, paths) =>
      && 1 <= |answer| <= 48_000 && |paths| <= 16
      && forall p :: p in paths ==> exists x :: x in evidence.items && ContractKey(x.path) == ContractKey(p)
    case WantsEvidence(wanted) => 1 <= |wanted| <= 16
    case WantsPeer(peer) => ValidPeer(peer)
  }

  /** Either save the run and release the claim, or save it (if it changed) and
      settle the message, or give up without saving. `sent` is a nested request
      to enqueue before the save. */
  datatype Turn =
    | Release(run: ConsultationRun, sent: Option<Envelope>)
    | Finish(run: ConsultationRun, outcome: SettleOutcome)
    | Rethrow

  function WithoutTransient(r: ConsultationRun): ConsultationRun {
    r.(requestedEvidence := [], peerRequest := None, nestedTaskId := None, nextAttemptAt := None)
  }

  function Fail(r: ConsultationRun, code: string): Turn {
    Finish(if r.state.RunFailed? then r else WithoutTransient(r).(state := RunFailed, errorCode := Some(code)),
           SettleRejected)
  }

  function ExecuteChild(r: ConsultationRun, child: Attempt<ChildTurn>): Turn {
    if r.roundCount >= r.maxRounds then Fail(r, "CONSULTATION_ROUND_LIMIT")
    else
      match child
      case Thrown => Rethrow
      case Handled(code) => Fail(r, code)
      case Value(Answered(answer, paths)) =>
        Finish(WithoutTransient(r).(state := RunCompleted, roundCount := r.roundCount + 1,
                                    finalAnswer := Some(answer), finalPaths := paths), SettleProcessed)
      case Value(WantsEvidence(wanted)) =>
        Release(WithoutTransient(r).(state := NeedsInformation, roundCount := r.roundCount + 1,
                                     requestedEvidence := wanted), None)
      case Value(WantsPeer(peer)) =>
        Release(WithoutTransient(r).(state := WaitingPeer, roundCount := r.roundCount + 1,
                                     peerRequest := Some(peer)), None)
  }

  /** Adding evidence and going back to the child. Mixed revisions fail the run;
      a bundle that breaks its contract is thrown on. */
  ghost function Enrich(r: ConsultationRun, added: Bundle): Turn {
    match MergeSpec(r.evidence, added)
    case Ok(merged) => Release(WithoutTransient(r).(state := PendingChild, evidence := merged), None)
    case Err(MixedRevisions) => Fail(r, "EVIDENCE_POLICY")
    case Err(_) => Rethrow
  }

  ghost function CollectEvidence(r: ConsultationRun, known: bool, collected: Attempt<Bundle>): Turn {
    if !known || r.requestedEvidence == [] then Fail(r, "CONSULTATION_EVIDENCE_INVALID")
    else
      match collected
      case Thrown => Rethrow
      case Handled(code) => Fail(r, code)
      case Value(bundle) => Enrich(r, bundle)
  }

  // ---- Consulting the peer ------------------------------------------------------

  function Digits(n: nat): string {
    if n < 10 then [('0' as int + n) as char] else Digits(n / 10) + [('0' as int + n % 10) as char]
  }

  /** One key for each run and round. */
  function NestedKey(r: ConsultationRun): string {
    "consultation-peer:" + r.requestId + ":" + Digits(r.roundCount)
  }

  function PeerFingerprint(r: ConsultationRun, peer: PeerRequest): Fingerprint {
    RequestFingerprint(r.project, peer.subject, peer.request)
  }

  function NestedPayload(r: ConsultationRun, peer: PeerRequest): Payload {
    Payload(Trim(peer.subject), peer.request, Some(Trim(r.project)), [], Some(Dispatch(None, true)),
            Some(CoordinationRequest(peer.intent)), None,
            Some(Context(r.rootId, Some(r.requestId), r.depth + 1, r.maxDepth,
                         r.ancestry + [PeerFingerprint(r, peer)])))
  }

  /** The request sent back to the peer; `id` and `conversation` are random. */
  function NestedRequest(r: ConsultationRun, peer: PeerRequest, self: NodeId, target: NodeId,
                         id: Id, conversation: Id, now: int): Envelope
  {
    var payload := NestedPayload(r, peer);
    Envelope(id, NestedKey(r), self, target, TaskRequest, conversation, Some(r.rootId), Some(r.requestId),
             COORDINATION_STREAM, Some(0), now, Some(r.deadline), payload, Sha256(payload))
  }

  /** How nested requests are compared with stored ones: the conversation is
      chosen anew each time, the expiry is not. */
  const NESTED := Comparison(false, true)

  function NextPoll(policy: Policy, now: int): int { now + 1000 * policy.pollSeconds }

  function Polling(policy: Policy, r: ConsultationRun, now: int): ConsultationRun {
    r.(nextAttemptAt := Some(NextPoll(policy, now)))
  }

  /** `sent` is the outcome of enqueueing the nested request. */
  function AskPeer(policy: Policy, r: ConsultationRun, peer: PeerRequest, nested: Envelope,
                   sent: Result<EnqueueResult>, now: int): Turn
  {
    if r.depth >= r.maxDepth then Fail(r, "CONSULTATION_DEPTH_LIMIT")
    else if PeerFingerprint(r, peer) in r.ancestry then Fail(r, "CONSULTATION_CYCLE_DETECTED")
    else
      match sent
      case Ok(accepted) => Release(Polling(policy, r.(nestedTaskId := Some(accepted.id)), now), Some(nested))
      case Err(_) => Rethrow
  }

  predicate IsReply(row: InRow, nested: Envelope, self: NodeId) {
    && row.envelope.causation == Some(nested.id)
    && row.envelope.kind.TaskResult?
    && row.authenticated
    && row.envelope.origin == nested.target
    && row.envelope.target == self
    && row.envelope.conversation == nested.conversation
  }

  function ReplyStamps(i: Inbox, nested: Envelope, self: NodeId): set<Stamp> {
    set id | id in i && IsReply(i[id], nested, self) :: Stamp(i[id].firstReceivedAt, id)
  }

  function FindReply(i: Inbox, nested: Envelope, self: NodeId): Option<Id> {
    var ids := FirstIds(ReplyStamps(i, nested, self), 1);
    if ids == [] then None else Some(ids[0])
  }

  /** The reply as evidence. */
  function PeerItem(e: Envelope): EvidenceItem {
    EvidenceItem(".bridge/peer-results/" + e.id + ".txt", PeerResult, Some(e.id), None, None, e.payload.body,
                 Utf8Length(e.payload.body))
  }

  function PeerBundle(r: ConsultationRun, e: Envelope): Bundle {
    Bundle(r.project, PeerItem(e).byteLength, None, [PeerItem(e)])
  }

  /** A reply that cannot become evidence makes the merge throw as well. */
  lemma InvalidPeerBundleThrows(r: ConsultationRun, e: Envelope)
    requires ValidBundle(r.evidence) && r.evidence.project == r.project && !ValidBundle(PeerBundle(r, e))
    ensures Enrich(r, PeerBundle(r, e)) == Rethrow
  {
    var x := PeerItem(e);
    assert TotalBytes([x]) == x.byteLength by { assert [x][..0] == []; }
    assert !ValidItem(x);
    var all := r.evidence.items + [x];
    assert all[..|all| - 1] == r.evidence.items;
    MergedItemsKeepLast(all, MergeKey(x));
    var k := LastFound(MergedItems(all), MergeKey(x));
    assert MergedItems(all)[k] == x;
  }

  predicate ReplyFits(r: ConsultationRun, nested: Envelope, row: InRow) {
    && nested.stream == COORDINATION_STREAM
    && !row.state.Quarantined?
    && row.envelope.stream == COORDINATION_STREAM
    && row.envelope.correlation == Some(r.rootId)
    && row.envelope.payload.project == Some(r.project)
  }

  /** A reply that fits and reports success becomes evidence. */
  ghost function TakeAnswer(r: ConsultationRun, nested: Envelope, row: InRow): Turn {
    if !ReplyFits(r, nested, row) then Fail(r, "CONSULTATION_PEER_RESULT_INVALID")
    else if row.envelope.payload.result.None? || !row.envelope.payload.result.value.outcome.Completed?
    then Fail(r, "CONSULTATION_PEER_FAILED")
    else Enrich(r, PeerBundle(r, row.envelope))
  }

  ghost function AwaitPeer(policy: Policy, r: ConsultationRun, o: Outbox, i: Inbox, self: NodeId, now: int): Turn
    requires r.nestedTaskId.Some?
  {
    var id := r.nestedTaskId.value;
    if id !in o || !o[id].envelope.kind.TaskRequest? then Fail(r, "CONSULTATION_PEER_RESULT_INVALID")
    else
      match FindReply(i, o[id].envelope, self)
      case None => Release(Polling(policy, r, now), None)
      case Some(reply) =>
        if reply !in i then Fail(r, "CONSULTATION_PEER_RESULT_INVALID") else TakeAnswer(r, o[id].envelope, i[reply])
  }

  // ---- The whole turn -----------------------------------------------------------

  /** Everything a turn reads besides the run. */
  datatype Surroundings = Surroundings(
    known: bool,
    child: Attempt<ChildTurn>,
    collected: Attempt<Bundle>,
    outbox: Outbox,
    inbox: Inbox,
    self: NodeId,
    origin: NodeId,
    authorized: bool,
    nestedId: Id,
    nestedConversation: Id)

  ghost function AdvancePeerWait(policy: Policy, r: ConsultationRun, s: Surroundings, now: int): Turn {
    if r.peerRequest.None? then Fail(r, "CONSULTATION_PEER_REQUEST_INVALID")
    else if r.nestedTaskId.None? then
      var nested := NestedRequest(r, r.peerRequest.value, s.self, s.origin, s.nestedId, s.nestedConversation, now);
      var sent := if s.authorized then EnqueueSpec(s.outbox, nested, NESTED).1 else Err(Transition);
      AskPeer(policy, r, r.peerRequest.value, nested, sent, now)
    else AwaitPeer(policy, r, s.outbox, s.inbox, s.self, now)
  }

  ghost function TakeTurn(policy: Policy, r: ConsultationRun, s: Surroundings, now: int): Turn {
    if r.deadline <= now then Fail(r, "CONSULTATION_TIMED_OUT")
    else
      match r.state
      case PendingChild => ExecuteChild(r, s.child)
      case NeedsInformation => CollectEvidence(r, s.known, s.collected)
      case WaitingPeer => AdvancePeerWait(policy, r, s, now)
      case RunCompleted => if r.finalAnswer.Some? then Finish(r, SettleProcessed) else Fail(r, "DISPATCH_REJECTED")
      case RunFailed => Finish(r, SettleRejected)
  }

  // ---- The state machine it refines ---------------------------------------------

  /** The parts of a run no turn changes. */
  predicate SameTerms(a: ConsultationRun, b: ConsultationRun) {
    && SameIdentity(a, b)
    && a.maxRounds == b.maxRounds && a.maxDepth == b.maxDepth
    && a.ancestry == b.ancestry && a.deadline == b.deadline && a.createdAt == b.createdAt
  }

  predicate IsFinal(s: RunState) { s.RunCompleted? || s.RunFailed? }

  /** The moves of a run. */
  predicate Moves(policy: Policy, a: ConsultationRun, now: int, b: ConsultationRun) {
    && SameTerms(a, b) && b.version == a.version
    && match (a.state, b.state)
       case (RunCompleted, RunFailed) =>
         (a.deadline <= now || a.finalAnswer.None?) && b.roundCount == a.roundCount && b.errorCode.Some?
       case (_, RunFailed) => !a.state.RunFailed? && b.roundCount == a.roundCount && b.errorCode.Some?
       case (PendingChild, RunCompleted) =>
         now < a.deadline && a.roundCount < a.maxRounds && b.roundCount == a.roundCount + 1 && b.finalAnswer.Some?
       case (PendingChild, NeedsInformation) =>
         now < a.deadline && a.roundCount < a.maxRounds && b.roundCount == a.roundCount + 1
       case (PendingChild, WaitingPeer) =>
         && now < a.deadline && a.roundCount < a.maxRounds && b.roundCount == a.roundCount + 1
         && b.peerRequest.Some? && b.nestedTaskId.None?
       case (NeedsInformation, PendingChild) => now < a.deadline && b.roundCount == a.roundCount
       case (WaitingPeer, WaitingPeer) =>
         && now < a.deadline && b.roundCount == a.roundCount && b.peerRequest == a.peerRequest
         && b.nestedTaskId.Some? && (a.nestedTaskId.Some? ==> b.nestedTaskId == a.nestedTaskId)
         && b.nextAttemptAt == Some(NextPoll(policy, now))
       case (WaitingPeer, PendingChild) =>
         now < a.deadline && b.roundCount == a.roundCount && a.nestedTaskId.Some?
       case _ => false
  }

  /** Whether a turn writes the run. */
  predicate Saves(t: Turn, r: ConsultationRun) {
    t.Release? || (t.Finish? && t.run != r)
  }

  lemma EnrichMoves(policy: Policy, r: ConsultationRun, added: Bundle, now: int)
    requires now < r.deadline && (r.state.NeedsInformation? || (r.state.WaitingPeer? && r.nestedTaskId.Some?))
    ensures var t := Enrich(r, added); !t.Rethrow? ==> Moves(policy, r, now, t.run)
    ensures var t := Enrich(r, added); t.Finish? ==> IsFinal(t.run.state)
  {
  }

  lemma AnswerMoves(policy: Policy, r: ConsultationRun, nested: Envelope, row: InRow, now: int)
    requires now < r.deadline && r.state.WaitingPeer? && r.nestedTaskId.Some?
    ensures var t := TakeAnswer(r, nested, row); !t.Rethrow? ==> Moves(policy, r, now, t.run)
    ensures var t := TakeAnswer(r, nested, row); t.Finish? ==> IsFinal(t.run.state)
  {
    EnrichMoves(policy, r, PeerBundle(r, row.envelope), now);
  }

  lemma AwaitMoves(policy: Policy, r: ConsultationRun, o: Outbox, i: Inbox, self: NodeId, now: int)
    requires now < r.deadline && r.state.WaitingPeer? && r.nestedTaskId.Some? && r.peerRequest.Some?
    ensures var t := AwaitPeer(policy, r, o, i, self, now); !t.Rethrow? ==> Moves(policy, r, now, t.run)
    ensures var t := AwaitPeer(policy, r, o, i, self, now); t.Finish? ==> IsFinal(t.run.state)
  {
    var id := r.nestedTaskId.value;
    if id in o {
      match FindReply(i, o[id].envelope, self)
      case None =>
      case Some(reply) => if reply in i { AnswerMoves(policy, r, o[id].envelope, i[reply], now); }
    }
  }

  lemma PeerMoves(policy: Policy, r: ConsultationRun, s: Surroundings, now: int)
    requires now < r.deadline && r.state.WaitingPeer?
    ensures var t := AdvancePeerWait(policy, r, s, now); !t.Rethrow? ==> Moves(policy, r, now, t.run)
    ensures var t := AdvancePeerWait(policy, r, s, now); t.Finish? ==> IsFinal(t.run.state)
  {
    if r.peerRequest.Some? && r.nestedTaskId.Some? {
      AwaitMoves(policy, r, s.outbox, s.inbox, s.self, now);
    }
  }

  lemma ChildMoves(policy: Policy, r: ConsultationRun, child: Attempt<ChildTurn>, now: int)
    requires now < r.deadline && r.state.PendingChild?
    ensures var t := ExecuteChild(r, child); !t.Rethrow? ==> Moves(policy, r, now, t.run)
    ensures var t := ExecuteChild(r, child); t.Finish? ==> IsFinal(t.run.state)
  {
  }

  lemma CollectMoves(policy: Policy, r: ConsultationRun, known: bool, collected: Attempt<Bundle>, now: int)
    requires now < r.deadline && r.state.NeedsInformation?
    ensures var t := CollectEvidence(r, known, collected); !t.Rethrow? ==> Moves(policy, r, now, t.run)
    ensures var t := CollectEvidence(r, known, collected); t.Finish? ==> IsFinal(t.run.state)
  {
    if collected.Value? {
      EnrichMoves(policy, r, collected.value, now);
    }
  }

  lemma LiveTurnMoves(policy: Policy, r: ConsultationRun, s: Surroundings, now: int)
    requires now < r.deadline && !IsFinal(r.state)
    ensures var t := TakeTurn(policy, r, s, now);
      !t.Rethrow? ==> Moves(policy, r, now, t.run) && (t.Finish? ==> IsFinal(t.run.state))
  {
    match r.state
    case PendingChild => ChildMoves(policy, r, s.child, now);
    case NeedsInformation => CollectMoves(policy, r, s.known, s.collected, now);
    case WaitingPeer => PeerMoves(policy, r, s, now);
  }

  /** Every turn that saves makes one of the moves; every other turn that does
      not throw settles a run that had already ended. */
  lemma TurnMoves(policy: Policy, r: ConsultationRun, s: Surroundings, now: int)
    ensures var t := TakeTurn(policy, r, s, now);
      && (Saves(t, r) ==> Moves(policy, r, now, t.run))
      && (!t.Rethrow? && !Saves(t, r) ==> t.Finish? && IsFinal(r.state))
      && (t.Finish? ==> IsFinal(t.run.state))
      && (r.deadline <= now ==> t.Finish? && t.outcome.SettleRejected?)
  {
    if now < r.deadline && !IsFinal(r.state) {
      LiveTurnMoves(policy, r, s, now);
    }
  }

  /** A completed run that is not settled by its deadline becomes failed, exactly then;
      before its deadline a turn settles it with its answer and leaves it as it is. */
  lemma CompletedRunFailsIff(policy: Policy, r: ConsultationRun, s: Surroundings, now: int)
    requires ValidRun(r) && r.state.RunCompleted?
    ensures var t := TakeTurn(policy, r, s, now);
      && (Saves(t, r) && t.run.state.RunFailed? <==> r.deadline <= now)
      && (Saves(t, r) ==> t.run.state.RunFailed? && t.outcome.SettleRejected?)
      && (now < r.deadline ==> t == Finish(r, SettleProcessed))
  {
  }
}
