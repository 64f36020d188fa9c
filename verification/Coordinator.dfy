/** The consultation coordinator: it takes a claimed request through one turn and
    settles, releases or parks the message. What the executor, the evidence
    provider, the clock and the random generator yield are parameters. */
module Coordinators {
  import opened Envelopes
  import opened Tables
  import opened Text
  import opened Evidence
  import opened RunTable
  import opened OutboxTable
  import opened InboxTable
  import opened Settlement
  import opened Approvals
  import opened Consultations
  import opened ConsultationProgress
  import opened ApprovalRules
  import opened BridgeDatabases
  import opened Operations
  import opened InboxOutcomes
  import opened ApprovalOutcomes

  const REPLY_LIFETIME := 604_800_000

  // ---- Replies ----------------------------------------------------------------

  function Prefix(s: string, n: nat): string { if |s| <= n then s else s[..n] }

  /** A subject line, cut to its limit and trimmed. */
  function SubjectLine(title: string, subject: string): string {
    Trim(Prefix(title + subject, 200))
  }

  function ReplyTo(original: Envelope, self: NodeId, id: Id, key: string, payload: Payload, now: int): Envelope {
    Envelope(id, key, self, original.origin, TaskResult, original.conversation, original.correlation,
             Some(original.id), original.stream,
             Some(1 + if original.sequence.Some? then original.sequence.value else 0),
             now, Some(now + REPLY_LIFETIME), payload, Sha256(payload))
  }

  function ResultPayload(subject: string, body: string, project: Option<string>, refs: seq<Reference>,
                         request: Id, outcome: Outcome): Payload
  {
    Payload(subject, body, project, refs, None, None, Some(CoordinationResult(request, outcome)), None)
  }

  function ResultKey(request: Id): string { "consultation-result:" + request }

  function FailureKey(request: Id): string { "consultation-failure:" + request }

  const STOPPED := "The bounded consultation stopped at a configured safety limit or evidence boundary."
  const NOT_STARTED := "The bounded consultation stopped at a configured project or evidence boundary."

  function CompletedReply(r: ConsultationRun, original: Envelope, refs: seq<Reference>, self: NodeId, id: Id, now: int)
    : Envelope
    requires r.finalAnswer.Some?
  {
    var payload := ResultPayload(SubjectLine("Consultation completed: ", original.payload.subject), r.finalAnswer.value,
                                 Some(Trim(r.project)), refs, r.requestId, Outcome.Completed);
    ReplyTo(original, self, id, ResultKey(r.requestId), payload, now)
  }

  function StoppedReply(request: Id, project: Option<string>, body: string, original: Envelope, self: NodeId, id: Id,
                        now: int): Envelope
  {
    var payload := ResultPayload(SubjectLine("Consultation stopped: ", original.payload.subject), body, project, [],
                                 request, Outcome.Rejected);
    ReplyTo(original, self, id, FailureKey(request), payload, now)
  }

  lemma SubjectLineFits(title: string, subject: string)
    requires 1 <= |title| <= 200 && !IsSpace(title[0])
    ensures 1 <= |SubjectLine(title, subject)| <= 200
  {
    var s := Prefix(title + subject, 200);
    assert s[0] == title[0] && TrimLeft(s) == s;
    TrimRightKeeps(s);
  }

  /** The reply of every completed run satisfies the envelope contract; its
      references always fit the payload limit. */
  lemma CompletedReplyIsValid(r: ConsultationRun, original: Envelope, refs: seq<Reference>, self: NodeId, id: Id, now: int)
    requires ValidRun(r) && r.finalAnswer.Some? && |refs| <= |r.evidence.items| + 1
    requires original.id == r.requestId && |original.id| <= 100 && original.stream == COORDINATION_STREAM
    requires original.origin != self && 1 <= |Trim(r.project)|
    ensures ValidEnvelope(CompletedReply(r, original, refs, self, id, now))
  {
    SubjectLineFits("Consultation completed: ", original.payload.subject);
    TrimShortens(r.project);
  }

  lemma StoppedReplyIsValid(request: Id, project: Option<string>, body: string, original: Envelope, self: NodeId, id: Id,
                            now: int)
    requires request == original.id && |original.id| <= 100 && original.stream == COORDINATION_STREAM
    requires original.origin != self && |body| <= 200 && (project.Some? ==> 1 <= |project.value| <= 120)
    ensures ValidEnvelope(StoppedReply(request, project, body, original, self, id, now))
  {
    SubjectLineFits("Consultation stopped: ", original.payload.subject);
  }

  /** A result that goes back to where the message came from, in its conversation, with the
      message as its cause and the next number. */
  predicate RepliesTo(e: Envelope, original: Envelope, self: NodeId, now: int) {
    && e.kind == TaskResult && e.origin == self && e.target == original.origin
    && e.conversation == original.conversation && e.correlation == original.correlation
    && e.causation == Some(original.id) && e.stream == original.stream
    && e.sequence == Some(if original.sequence.Some? then original.sequence.value + 1 else 1)
    && e.createdAt == now && e.expiresAt == Some(now + 7 * 24 * 3600 * 1000)
  }

  /** Cited is what the items under the cited paths came from. */
  ghost predicate Cited(r: ConsultationRun, q: Reference) {
    exists x, p :: x in r.evidence.items && p in r.finalPaths && SamePath(p, x.path) && CitedAs(x, q)
  }

  /** The reply brings the run's answer, as completed, with exactly what it cites. */
  ghost predicate Delivers(e: Envelope, r: ConsultationRun, original: Envelope, self: NodeId, now: int) {
    && RepliesTo(e, original, self, now) && e.key == "consultation-result:" + r.requestId
    && r.finalAnswer == Some(e.payload.body) && e.payload.project == Some(Trim(r.project))
    && e.payload.result == Some(CoordinationResult(r.requestId, Outcome.Completed))
    && Distinct(e.payload.evidence) && forall q :: q in e.payload.evidence <==> Cited(r, q)
  }

  /** The reply says that the request was not answered, and why in general terms. */
  predicate Declines(e: Envelope, request: Id, project: Option<string>, body: string, original: Envelope, self: NodeId,
                     now: int)
  {
    && RepliesTo(e, original, self, now) && e.key == "consultation-failure:" + request
    && e.payload.body == body && e.payload.project == project && e.payload.evidence == []
    && e.payload.result == Some(CoordinationResult(request, Outcome.Rejected))
  }

  lemma CompletedReplyDelivers(r: ConsultationRun, original: Envelope, refs: seq<Reference>, self: NodeId, id: Id, now: int)
    requires ValidBundle(r.evidence) && r.finalAnswer.Some? && CitesExactly(r, refs)
    ensures Delivers(CompletedReply(r, original, refs, self, id, now), r, original, self, now)
  {
    hide SubjectLine, SamePath, CitedAs, Cites, Selected;
    forall q ensures q in refs <==> Cited(r, q) {
      if q in refs {
        var x :| x in r.evidence.items && Selected(x, r.finalPaths) && Cites(q, x);
        CitationsByProvenance(x, q);
        SelectionByPath(x, r.finalPaths);
      }
      if Cited(r, q) {
        var x, p :| x in r.evidence.items && p in r.finalPaths && SamePath(p, x.path) && CitedAs(x, q);
        CitationsByProvenance(x, q);
        SelectionByPath(x, r.finalPaths);
      }
    }
  }

  lemma StoppedReplyDeclines(request: Id, project: Option<string>, body: string, original: Envelope, self: NodeId, id: Id,
                             now: int)
    ensures Declines(StoppedReply(request, project, body, original, self, id, now), request, project, body, original, self, now)
  {
    hide SubjectLine;
  }

  /** The message has this outcome, is in nobody's hands and points at a row of the outbox that
      goes to this target under this key. */
  predicate StandsAnswered(o: Outbox, i: Inbox, id: Id, outcome: SettleOutcome, target: NodeId, key: string) {
    && id in i && HasOutcome(i[id], outcome)
    && i[id].claimOwner.None? && i[id].claimToken.None? && i[id].claimUntil.None?
    && i[id].result.Some? && i[id].result.value.key == key && i[id].result.value.id in o
    && o[i[id].result.value.id].envelope.target == target && o[i[id].result.value.id].envelope.key == key
  }

  /** The reply a settled message points at. */
  function ReplyOf(o: Outbox, i: Inbox, id: Id): Envelope
    requires id in i && i[id].result.Some? && i[id].result.value.id in o
  {
    o[i[id].result.value.id].envelope
  }

  /** The message of a run that has ended points at a reply to it; if the reply is new, it brings
      the run's answer, or says that there is none. */
  ghost predicate Replied(run: ConsultationRun, outcome: SettleOutcome, original: Envelope, self: NodeId, at: int,
                          o: Outbox, o': Outbox, i': Inbox)
  {
    var key := match outcome
               case SettleProcessed => "consultation-result:" + run.requestId
               case SettleRejected => "consultation-failure:" + run.requestId;
    && StandsAnswered(o', i', run.requestId, outcome, original.origin, key)
    && (o' != o ==>
          var e := ReplyOf(o', i', run.requestId);
          match outcome
          case SettleProcessed => Delivers(e, run, original, self, at)
          case SettleRejected => Declines(e, run.requestId, Some(Trim(run.project)), STOPPED, original, self, at))
  }

  /** What a turn does to the outbox: if it goes on, it sends its nested request and nothing else;
      if it ends the run, its reply, with the settlement or not at all. */
  ghost predicate OutboxAfter(t: Turn, original: Envelope, self: NodeId, now: int, later: int, o: Outbox, o': Outbox,
                              i': Inbox, h: Handling)
  {
    match t
    case Release(_, sent) => o' == if sent.Some? then EnqueueSpec(o, sent.value, Comparison(false, true)).0 else o
    case Finish(run, outcome) =>
      if h.Settled? then
        Replied(run, outcome, original, self, now, o, o', i') || Replied(run, outcome, original, self, later, o, o', i')
      else o' == o
    case Rethrow => o' == o
  }

  lemma AfterAtOnce(t: Turn, original: Envelope, self: NodeId, now: int, later: int, o: Outbox, o': Outbox, i': Inbox,
                    h: Handling)
    requires OutboxAfter(t, original, self, now, now, o, o', i', h)
    ensures OutboxAfter(t, original, self, now, later, o, o', i', h)
  {
    hide Replied;
  }

  lemma AfterEnd(run: ConsultationRun, outcome: SettleOutcome, original: Envelope, self: NodeId, now: int, later: int,
                 o: Outbox, o': Outbox, i': Inbox, h: Handling)
    requires if h.Settled? then Replied(run, outcome, original, self, now, o, o', i') else o' == o
    ensures OutboxAfter(Finish(run, outcome), original, self, now, later, o, o', i', h)
  {
    hide Replied;
  }

  /** Storing the run under its next version changes nothing in what its reply says. */
  lemma DeliversAnyVersion(e: Envelope, run: ConsultationRun, saved: ConsultationRun, original: Envelope, self: NodeId,
                           at: int)
    requires Delivers(e, saved, original, self, at) && saved == run.(version := saved.version)
    ensures Delivers(e, run, original, self, at)
  {
    forall q ensures Cited(run, q) <==> Cited(saved, q) { }
  }

  // ---- The coordinator -----------------------------------------------------------

  /** How the processing of a claim ended: the message was settled, released for
      another attempt, or parked; or an error was thrown, one that fails the run
      or one that is passed on. */
  datatype Handling = Settled | Released | Parked | Expected(code: string) | Raised

  function SavedRuns(runs: Runs, r: ConsultationRun, t: Turn): Runs
    requires !t.Rethrow?
  {
    runs[r.requestId := t.run.(version := r.version + 1)]
  }

  function ReplyKey(outcome: SettleOutcome, request: Id): string {
    match outcome
    case SettleProcessed => ResultKey(request)
    case SettleRejected => FailureKey(request)
  }

  /** The message has this outcome and points at the reply of that outcome. */
  predicate IsSettled(i: Inbox, id: Id, outcome: SettleOutcome) {
    && id in i && HasOutcome(i[id], outcome)
    && i[id].result.Some? && i[id].result.value.key == ReplyKey(outcome, id)
  }

  predicate IsReleased(i: Inbox, id: Id) {
    id in i && i[id].state.Available?
  }

  /** The runs are untouched or hold the turn's save; a claim handled without an
      error carried its turn through to the end. */
  ghost predicate Performed(r: ConsultationRun, t: Turn, runs: Runs, runs': Runs, i': Inbox, h: Handling) {
    && (runs' == runs || (Saves(t, r) && runs' == SavedRuns(runs, r, t)))
    && match h
       case Settled => t.Finish? && (Saves(t, r) ==> runs' == SavedRuns(runs, r, t)) && IsSettled(i', r.requestId, t.outcome)
       case Released => t.Release? && runs' == SavedRuns(runs, r, t) && IsReleased(i', r.requestId)
       case Parked => false
       case Expected(_) => false
       case Raised => true
  }

  /** The references of a completed run: those of its cited items, each once. */
  ghost predicate CitesExactly(r: ConsultationRun, refs: seq<Reference>) {
    && Distinct(refs) && |refs| <= |r.evidence.items| + 1
    && forall q :: q in refs <==> exists x :: x in r.evidence.items && Selected(x, r.finalPaths) && Cites(q, x)
  }

  class Coordinator {
    const database: BridgeDatabase
    const policy: Policy
    const consumerId: string
    const systemId: NodeId
    const authorizedNodeIds: set<NodeId>

    constructor (database: BridgeDatabase, policy: Policy, consumerId: string, systemId: NodeId,
                 authorizedNodeIds: set<NodeId>)
      ensures this.database == database && this.policy == policy && this.consumerId == consumerId
      ensures this.systemId == systemId && this.authorizedNodeIds == authorizedNodeIds
    {
      this.database, this.policy, this.consumerId := database, policy, consumerId;
      this.systemId, this.authorizedNodeIds := systemId, authorizedNodeIds;
    }

    method SettleWithReply(id: Id, token: string, outcome: SettleOutcome, reply: Envelope, now: int) returns (h: Handling)
      requires database.Valid()
      modifies database`outbox, database`inbox
      ensures database.Valid()
      ensures h.Settled? || h.Raised?
      ensures h.Settled? && reply.key == ReplyKey(outcome, id) ==> IsSettled(database.inbox, id, outcome)
      ensures h.Settled? ==>
        database.Contents() == SettleSpec(old(database.Contents()), id, consumerId, token, outcome, reply, now).0
      ensures h.Settled? ==> StandsAnswered(database.outbox, database.inbox, id, outcome, reply.target, reply.key)
      ensures h.Settled? && database.outbox != old(database.outbox) ==>
                ReplyOf(database.outbox, database.inbox, id) == reply
      ensures h.Raised? ==> database.outbox == old(database.outbox) && database.inbox == old(database.inbox)
    {
      database.ValidHasTables();
      hide BridgeDatabase.Valid;
      if reply.target == systemId || reply.target !in authorizedNodeIds {
        return Raised;
      }
      var r := database.SettleInboxWithReply(id, consumerId, token, outcome, reply, now);
      SettledMeansSettled(old(database.Contents()), id, consumerId, token, outcome, reply, now);
      NewReplyIsLinked(old(database.Contents()), id, consumerId, token, outcome, reply, now);
      h := if r.Ok? then Handling.Settled else Raised;
    }

    method Complete(r: ConsultationRun, claim: ClaimedMessage, now: int, replyId: Id) returns (h: Handling)
      requires database.Valid() && ValidBundle(r.evidence)
      modifies database`outbox, database`inbox
      ensures database.Valid()
      ensures r.finalAnswer.None? ==> h == Expected("DISPATCH_REJECTED")
      ensures r.finalAnswer.Some? ==> h.Settled? || h.Raised?
      ensures h.Settled? ==> IsSettled(database.inbox, r.requestId, SettleProcessed)
      ensures h.Settled? ==>
        exists refs ::
          && CitesExactly(r, refs)
          && database.Contents() ==
             SettleSpec(old(database.Contents()), r.requestId, consumerId, claim.token, SettleProcessed,
                        CompletedReply(r, claim.envelope, refs, systemId, replyId, now), now).0
      ensures h.Settled? ==>
        StandsAnswered(database.outbox, database.inbox, r.requestId, SettleProcessed, claim.envelope.origin,
                       "consultation-result:" + r.requestId)
      ensures h.Settled? && database.outbox != old(database.outbox) ==>
        Delivers(ReplyOf(database.outbox, database.inbox, r.requestId), r, claim.envelope, systemId, now)
      ensures !h.Settled? ==> database.outbox == old(database.outbox) && database.inbox == old(database.inbox)
    {
      if r.finalAnswer.None? {
        return Expected("DISPATCH_REJECTED");
      }
      var refs := BuildEvidenceReferences(r.evidence, r.finalPaths);
      assert CitesExactly(r, refs);
      hide BridgeDatabase.Valid, Delivers, CitesExactly, ValidBundle;
      var reply := CompletedReply(r, claim.envelope, refs, systemId, replyId, now);
      CompletedReplyDelivers(r, claim.envelope, refs, systemId, replyId, now);
      h := SettleWithReply(r.requestId, claim.token, SettleProcessed, reply, now);
    }

    method SettleFailure(r: ConsultationRun, claim: ClaimedMessage, now: int, replyId: Id) returns (h: Handling)
      requires database.Valid()
      modifies database`outbox, database`inbox
      ensures database.Valid()
      ensures h.Settled? || h.Raised?
      ensures h.Settled? ==> IsSettled(database.inbox, r.requestId, SettleRejected)
      ensures h.Settled? ==>
        database.Contents() ==
          SettleSpec(old(database.Contents()), r.requestId, consumerId, claim.token, SettleRejected,
                     StoppedReply(r.requestId, Some(Trim(r.project)), STOPPED, claim.envelope, systemId, replyId, now),
                     now).0
      ensures h.Settled? ==>
        StandsAnswered(database.outbox, database.inbox, r.requestId, SettleRejected, claim.envelope.origin,
                       "consultation-failure:" + r.requestId)
      ensures h.Settled? && database.outbox != old(database.outbox) ==>
        Declines(ReplyOf(database.outbox, database.inbox, r.requestId), r.requestId, Some(Trim(r.project)), STOPPED,
                 claim.envelope, systemId, now)
      ensures !h.Settled? ==> database.outbox == old(database.outbox) && database.inbox == old(database.inbox)
    {
      hide BridgeDatabase.Valid, Declines;
      StoppedReplyDeclines(r.requestId, Some(Trim(r.project)), STOPPED, claim.envelope, systemId, replyId, now);
      var reply := StoppedReply(r.requestId, Some(Trim(r.project)), STOPPED, claim.envelope, systemId, replyId, now);
      h := SettleWithReply(r.requestId, claim.token, SettleRejected, reply, now);
    }

    method FailRun(r: ConsultationRun, claim: ClaimedMessage, code: string, now: int, replyId: Id) returns (h: Handling)
      requires database.Valid()
      modifies database`outbox, database`inbox, database`runs
      ensures database.Valid()
      ensures Performed(r, Fail(r, code), old(database.runs), database.runs, database.inbox, h)
      ensures OutboxAfter(Fail(r, code), claim.envelope, systemId, now, now, old(database.outbox), database.outbox,
                          database.inbox, h)
    {
      hide BridgeDatabase.Valid, Declines, StandsAnswered, SettleSpec, StoppedReply, IsSettled, ValidRun;
      if !r.state.RunFailed? {
        var saved := database.SaveConsultationRun(
          WithoutTransient(r).(state := RunFailed, errorCode := Some(code)), r.version);
        if saved.Err? {
          return Raised;
        }
      }
      h := SettleFailure(r, claim, now, replyId);
    }

    method ReleaseClaim(id: Id, token: string, now: int) returns (h: Handling)
      requires database.Valid()
      modifies database`inbox
      ensures database.Valid()
      ensures h.Released? || h.Raised?
      ensures h.Released? ==> IsReleased(database.inbox, id)
    {
      var r := database.Acknowledge(id, consumerId, token, AckRetry, now);
      h := if r.Ok? then Released else Raised;
    }

    /** Saves the run and releases the claim. */
    method SaveAndRelease(r: ConsultationRun, next: ConsultationRun, claim: ClaimedMessage, now: int,
                          ghost sent: Option<Envelope>) returns (h: Handling)
      requires next.requestId == r.requestId && next.version == r.version
      requires database.Valid()
      modifies database`inbox, database`runs
      ensures database.Valid()
      ensures Performed(r, Release(next, sent), old(database.runs), database.runs, database.inbox, h)
    {
      hide BridgeDatabase.Valid;
      var saved := database.SaveConsultationRun(next, r.version);
      if saved.Err? {
        return Raised;
      }
      h := ReleaseClaim(r.requestId, claim.token, now);
    }

    method ExecuteChild(r: ConsultationRun, claim: ClaimedMessage, child: Attempt<ChildTurn>, now: int, completedAt: int,
                        replyId: Id) returns (h: Handling)
      requires database.Valid() && ValidBundle(r.evidence) && !IsFinal(r.state)
      modifies database`outbox, database`inbox, database`runs
      ensures database.Valid()
      ensures if h.Expected? then
                database.runs == old(database.runs) && database.outbox == old(database.outbox)
                && Consultations.ExecuteChild(r, child) == Fail(r, h.code)
              else Performed(r, Consultations.ExecuteChild(r, child), old(database.runs), database.runs, database.inbox, h)
      ensures OutboxAfter(Consultations.ExecuteChild(r, child), claim.envelope, systemId, now, completedAt,
                          old(database.outbox), database.outbox, database.inbox, h)
    {
      hide BridgeDatabase.Valid, SettleSpec, CompletedReply, ValidBundle, EnqueueSpec, CitesExactly;
      if r.roundCount >= r.maxRounds {
        h := FailRun(r, claim, "CONSULTATION_ROUND_LIMIT", now, replyId);
        return;
      }
      var nextRound := r.roundCount + 1;
      match child
      case Thrown =>
        h := Raised;
      case Handled(code) =>
        h := Expected(code);
      case Value(Answered(answer, paths)) =>
        var completed := WithoutTransient(r).(state := RunCompleted, roundCount := nextRound,
                                              finalAnswer := Some(answer), finalPaths := paths);
        var saved := database.SaveConsultationRun(completed, r.version);
        if saved.Err? {
          return Raised;
        }
        h := Complete(saved.value, claim, completedAt, replyId);
        if h.Settled? && database.outbox != old(database.outbox) {
          DeliversAnyVersion(ReplyOf(database.outbox, database.inbox, r.requestId), completed, saved.value, claim.envelope,
                             systemId, completedAt);
        }
      case Value(WantsEvidence(wanted)) =>
        var parked := WithoutTransient(r).(state := NeedsInformation, roundCount := nextRound, requestedEvidence := wanted);
        h := SaveAndRelease(r, parked, claim, completedAt, None);
      case Value(WantsPeer(peer)) =>
        var parked := WithoutTransient(r).(state := WaitingPeer, roundCount := nextRound, peerRequest := Some(peer));
        h := SaveAndRelease(r, parked, claim, completedAt, None);
    }

    /** Merges the evidence in and goes back to the child. */
    method AddEvidence(r: ConsultationRun, claim: ClaimedMessage, added: Bundle, at: int) returns (h: Handling)
      requires ValidBundle(r.evidence) && ValidBundle(added)
      requires database.Valid()
      modifies database`inbox, database`runs
      ensures database.Valid()
      ensures if h.Expected? then
                database.runs == old(database.runs) && database.inbox == old(database.inbox)
                && Enrich(r, added) == Fail(r, h.code)
              else Performed(r, Enrich(r, added), old(database.runs), database.runs, database.inbox, h)
      ensures !h.Settled?
    {
      var merged := MergeEvidence(r.evidence, added);
      if merged.Err? {
        return if merged.failure.MixedRevisions? then Expected("EVIDENCE_POLICY") else Raised;
      }
      var next := WithoutTransient(r).(state := PendingChild, evidence := merged.value);
      h := SaveAndRelease(r, next, claim, at, None);
    }

    method CollectLocalEvidence(r: ConsultationRun, claim: ClaimedMessage, known: bool, collected: Attempt<Bundle>, now: int,
                                collectedAt: int, replyId: Id) returns (h: Handling)
      requires database.Valid() && ValidBundle(r.evidence)
      requires collected.Value? ==> ValidBundle(collected.value)
      modifies database`outbox, database`inbox, database`runs
      ensures database.Valid()
      ensures if h.Expected? then
                database.runs == old(database.runs) && database.outbox == old(database.outbox)
                && CollectEvidence(r, known, collected) == Fail(r, h.code)
              else Performed(r, CollectEvidence(r, known, collected), old(database.runs), database.runs, database.inbox, h)
      ensures OutboxAfter(CollectEvidence(r, known, collected), claim.envelope, systemId, now, now,
                          old(database.outbox), database.outbox, database.inbox, h)
    {
      if !known || r.requestedEvidence == [] {
        h := FailRun(r, claim, "CONSULTATION_EVIDENCE_INVALID", now, replyId);
        return;
      }
      match collected
      case Thrown =>
        h := Raised;
      case Handled(code) =>
        h := Expected(code);
      case Value(bundle) =>
        h := AddEvidence(r, claim, bundle, collectedAt);
    }

    /** Asks the peer, or looks for its answer. */
    method AdvancePeerWait(r: ConsultationRun, claim: ClaimedMessage, now: int, replyId: Id, nestedId: Id,
                           conversation: Id, ghost s: Surroundings) returns (h: Handling)
      requires database.Valid() && ValidBundle(r.evidence) && r.evidence.project == r.project
      requires s.outbox == database.outbox && s.inbox == database.inbox && s.self == systemId
      requires s.origin == claim.envelope.origin && s.nestedId == nestedId && s.nestedConversation == conversation
      requires s.authorized <==> (s.origin != systemId && s.origin in authorizedNodeIds)
      modifies database`outbox, database`inbox, database`runs
      ensures database.Valid()
      ensures var t := Consultations.AdvancePeerWait(policy, r, s, now);
        if h.Expected? then
          database.runs == old(database.runs) && database.outbox == old(database.outbox) && t == Fail(r, h.code)
        else
          Performed(r, t, old(database.runs), database.runs, database.inbox, h)
      ensures OutboxAfter(Consultations.AdvancePeerWait(policy, r, s, now), claim.envelope, systemId, now, now,
                          old(database.outbox), database.outbox, database.inbox, h)
    {
      hide BridgeDatabase.Valid, ValidBundle, OutboxAfter, NestedRequest, EnqueueSpec, AwaitPeer;
      if r.peerRequest.None? {
        h := FailRun(r, claim, "CONSULTATION_PEER_REQUEST_INVALID", now, replyId);
        return;
      }
      if r.nestedTaskId.Some? {
        h := AwaitReply(r, claim, now, replyId);
        return;
      }
      var peer := r.peerRequest.value;
      if r.depth >= r.maxDepth {
        h := FailRun(r, claim, "CONSULTATION_DEPTH_LIMIT", now, replyId);
        return;
      }
      if PeerFingerprint(r, peer) in r.ancestry {
        h := FailRun(r, claim, "CONSULTATION_CYCLE_DETECTED", now, replyId);
        return;
      }
      h := SendNested(r, peer, claim, now, nestedId, conversation);
    }

    method SendNested(r: ConsultationRun, peer: PeerRequest, claim: ClaimedMessage, now: int, nestedId: Id,
                      conversation: Id) returns (h: Handling)
      requires database.Valid() && r.depth < r.maxDepth && PeerFingerprint(r, peer) !in r.ancestry
      modifies database`outbox, database`inbox, database`runs
      ensures database.Valid()
      ensures var nested := NestedRequest(r, peer, systemId, claim.envelope.origin, nestedId, conversation, now);
        var allowed := claim.envelope.origin != systemId && claim.envelope.origin in authorizedNodeIds;
        var (o', sent) := EnqueueSpec(old(database.outbox), nested, NESTED);
        && Performed(r, AskPeer(policy, r, peer, nested, if allowed then sent else Err(Transition), now),
                     old(database.runs), database.runs, database.inbox, h)
        && database.outbox == (if allowed then o' else old(database.outbox))
        && OutboxAfter(AskPeer(policy, r, peer, nested, if allowed then sent else Err(Transition), now), claim.envelope,
                       systemId, now, now, old(database.outbox), database.outbox, database.inbox, h)
    {
      hide BridgeDatabase.Valid, Replied, NestedRequest;
      if claim.envelope.origin == systemId || claim.envelope.origin !in authorizedNodeIds {
        return Raised;
      }
      var nested := NestedRequest(r, peer, systemId, claim.envelope.origin, nestedId, conversation, now);
      var sent := database.EnqueueEnvelope(nested, NESTED);
      if sent.Err? {
        return Raised;
      }
      var waiting := r.(nestedTaskId := Some(sent.value.id), nextAttemptAt := Some(now + 1000 * policy.pollSeconds));
      h := SaveAndRelease(r, waiting, claim, now, Some(nested));
    }

    method AwaitReply(r: ConsultationRun, claim: ClaimedMessage, now: int, replyId: Id) returns (h: Handling)
      requires database.Valid() && r.nestedTaskId.Some?
      requires ValidBundle(r.evidence) && r.evidence.project == r.project
      modifies database`outbox, database`inbox, database`runs
      ensures database.Valid()
      ensures var t := AwaitPeer(policy, r, old(database.outbox), old(database.inbox), systemId, now);
        if h.Expected? then
          database.runs == old(database.runs) && database.outbox == old(database.outbox) && t == Fail(r, h.code)
        else
          Performed(r, t, old(database.runs), database.runs, database.inbox, h)
      ensures OutboxAfter(AwaitPeer(policy, r, old(database.outbox), old(database.inbox), systemId, now), claim.envelope,
                          systemId, now, now, old(database.outbox), database.outbox, database.inbox, h)
    {
      hide BridgeDatabase.Valid;
      var id := r.nestedTaskId.value;
      if id !in database.outbox || !database.outbox[id].envelope.kind.TaskRequest? {
        h := FailRun(r, claim, "CONSULTATION_PEER_RESULT_INVALID", now, replyId);
        return;
      }
      var nested := database.outbox[id].envelope;
      var reply := FindReply(database.inbox, nested, systemId);
      if reply.None? {
        var waiting := r.(nextAttemptAt := Some(now + 1000 * policy.pollSeconds));
        h := SaveAndRelease(r, waiting, claim, now, None);
        return;
      }
      if reply.value !in database.inbox || !ReplyFits(r, nested, database.inbox[reply.value]) {
        h := FailRun(r, claim, "CONSULTATION_PEER_RESULT_INVALID", now, replyId);
        return;
      }
      var answer := database.inbox[reply.value].envelope;
      if answer.payload.result.None? || !answer.payload.result.value.outcome.Completed? {
        h := FailRun(r, claim, "CONSULTATION_PEER_FAILED", now, replyId);
        return;
      }
      var bundle := PeerBundle(r, answer);
      var valid := CheckBundle(bundle);
      if !valid {
        InvalidPeerBundleThrows(r, answer);
        return Raised;
      }
      h := AddEvidence(r, claim, bundle, now);
    }

    /** One turn of a stored run, with the errors that fail a run turned into
        failures. */
    method TakeTurn(r: ConsultationRun, claim: ClaimedMessage, known: bool, child: Attempt<ChildTurn>,
                    collected: Attempt<Bundle>, now: int, later: int, replyId: Id, nestedId: Id, conversation: Id,
                    ghost s: Surroundings) returns (h: Handling)
      requires database.Valid() && ValidRun(r)
      requires collected.Value? ==> ValidBundle(collected.value)
      requires s == Surroundings(known, child, collected, database.outbox, database.inbox, systemId, claim.envelope.origin,
                                 claim.envelope.origin != systemId && claim.envelope.origin in authorizedNodeIds,
                                 nestedId, conversation)
      modifies database`outbox, database`inbox, database`runs
      ensures database.Valid()
      ensures Performed(r, Consultations.TakeTurn(policy, r, s, now), old(database.runs), database.runs, database.inbox, h)
      ensures OutboxAfter(Consultations.TakeTurn(policy, r, s, now), claim.envelope, systemId, now, later,
                          old(database.outbox), database.outbox, database.inbox, h)
    {
      hide BridgeDatabase.Valid, Consultations.ExecuteChild, CollectEvidence, Consultations.AdvancePeerWait, OutboxAfter,
        Delivers, Declines, StandsAnswered;
      ghost var o, t := database.outbox, Consultations.TakeTurn(policy, r, s, now);
      if r.deadline <= now {
        h := FailRun(r, claim, "CONSULTATION_TIMED_OUT", now, replyId);
        AfterAtOnce(t, claim.envelope, systemId, now, later, o, database.outbox, database.inbox, h);
        return;
      }
      match r.state {
        case PendingChild =>
          h := ExecuteChild(r, claim, child, now, later, replyId);
        case NeedsInformation =>
          h := CollectLocalEvidence(r, claim, known, collected, now, later, replyId);
          AfterAtOnce(t, claim.envelope, systemId, now, later, o, database.outbox, database.inbox, h);
        case WaitingPeer =>
          h := AdvancePeerWait(r, claim, now, replyId, nestedId, conversation, s);
          AfterAtOnce(t, claim.envelope, systemId, now, later, o, database.outbox, database.inbox, h);
        case RunCompleted =>
          h := Complete(r, claim, now, replyId);
          AfterEnd(r, SettleProcessed, claim.envelope, systemId, now, later, o, database.outbox, database.inbox, h);
        case RunFailed =>
          h := SettleFailure(r, claim, now, replyId);
          AfterEnd(r, SettleRejected, claim.envelope, systemId, now, later, o, database.outbox, database.inbox, h);
      }
      if h.Expected? {
        h := FailRun(r, claim, h.code, now, replyId);
        AfterAtOnce(t, claim.envelope, systemId, now, later, o, database.outbox, database.inbox, h);
      }
    }

    method SettleInitialFailure(claim: ClaimedMessage, now: int, replyId: Id) returns (h: Handling)
      requires database.Valid()
      modifies database`outbox, database`inbox
      ensures database.Valid()
      ensures h.Settled? || h.Raised?
      ensures TurnedAway(claim.envelope, systemId, now, old(database.outbox), database.outbox, database.inbox, h)
    {
      hide BridgeDatabase.Valid, Declines;
      var id := claim.envelope.id;
      StoppedReplyDeclines(id, None, NOT_STARTED, claim.envelope, systemId, replyId, now);
      var reply := StoppedReply(id, None, NOT_STARTED, claim.envelope, systemId, replyId, now);
      h := SettleWithReply(id, claim.token, SettleRejected, reply, now);
    }

    /** Finds or creates the run of an authorized message. */
    method EnsureRun(e: Envelope, known: bool, now: int) returns (r: Result<Option<ConsultationRun>>)
      requires database.Valid()
      modifies database`runs
      ensures database.Valid()
      ensures var admission := Admit(policy, e, known, now);
        match admission
        case Refused => r == Ok(None) && database.runs == old(database.runs)
        case Admitted(run) =>
          var (runs', found) := EnsureRunSpec(old(database.runs), run);
          database.runs == runs' && if found.Ok? then r == Ok(Some(found.value)) else r.Err?
    {
      match Admit(policy, e, known, now)
      case Refused =>
        r := Ok(None);
      case Admitted(run) =>
        var found := database.EnsureConsultationRun(run);
        r := if found.Ok? then Ok(Some(found.value)) else Err(found.failure);
    }

    /** The turn of a run just found or created; `before` are the runs without it. */
    method ConsultRun(r: ConsultationRun, claim: ClaimedMessage, known: bool, child: Attempt<ChildTurn>,
                      collected: Attempt<Bundle>, now: int, later: int, replyId: Id, nestedId: Id, conversation: Id,
                      ghost before: Runs) returns (h: Handling)
      requires database.Valid() && ValidPolicy(policy) && RunsOk(before)
      requires collected.Value? ==> ValidBundle(collected.value)
      requires claim.envelope.id in before ==> AttemptDue(before[claim.envelope.id], now)
      requires Admit(policy, claim.envelope, known, now).Admitted?
      requires EnsureRunSpec(before, Admit(policy, claim.envelope, known, now).run) == (database.runs, Ok(r))
      modifies database`outbox, database`inbox, database`runs
      ensures database.Valid()
      ensures Handles(policy, claim.envelope, known, now, before, database.runs, database.inbox, h)
      ensures Consulted(policy, claim.envelope, now, later,
                        Surroundings(known, child, collected, old(database.outbox), old(database.inbox), systemId,
                                     claim.envelope.origin,
                                     claim.envelope.origin != systemId && claim.envelope.origin in authorizedNodeIds,
                                     nestedId, conversation),
                        before, database.runs, database.outbox, database.inbox, h)
    {
      hide BridgeDatabase.Valid, Consultations.TakeTurn, Performed, Admit, ValidRun, OutboxAfter, Consulted, Handles,
        EnsureRunSpec;
      ghost var s := Surroundings(known, child, collected, database.outbox, database.inbox, systemId, claim.envelope.origin,
                                  claim.envelope.origin != systemId && claim.envelope.origin in authorizedNodeIds,
                                  nestedId, conversation);
      ghost var ensured := database.runs;
      EnsuredRun(policy, claim.envelope, known, now, before);
      h := TakeTurn(r, claim, known, child, collected, now, later, replyId, nestedId, conversation, s);
      TurnHandles(policy, claim.envelope, known, now, before, ensured, database.runs, database.inbox, h, r, s);
      TurnIsConsulted(policy, claim.envelope, now, later, s, before, ensured, database.runs, database.outbox, database.inbox,
                      h, r);
    }

    /** Takes an authorized message through its turn. */
    method Consult(claim: ClaimedMessage, known: bool, child: Attempt<ChildTurn>, collected: Attempt<Bundle>,
                   now: int, later: int, replyId: Id, nestedId: Id, conversation: Id) returns (h: Handling)
      requires database.Valid() && ValidPolicy(policy)
      requires collected.Value? ==> ValidBundle(collected.value)
      requires claim.envelope.id in database.runs ==> AttemptDue(database.runs[claim.envelope.id], now)
      modifies database`outbox, database`inbox, database`runs
      ensures database.Valid()
      ensures Handles(policy, claim.envelope, known, now, old(database.runs), database.runs, database.inbox, h)
      ensures Consulted(policy, claim.envelope, now, later,
                        Surroundings(known, child, collected, old(database.outbox), old(database.inbox), systemId,
                                     claim.envelope.origin,
                                     claim.envelope.origin != systemId && claim.envelope.origin in authorizedNodeIds,
                                     nestedId, conversation),
                        old(database.runs), database.runs, database.outbox, database.inbox, h)
    {
      database.ValidHasTables();
      hide BridgeDatabase.Valid, Consultations.TakeTurn, Performed, Admit, ValidRun, RunsOk, OutboxOk, InboxOk, LinksOk,
        OutboxAfter, Consulted, Handles, TurnedAway, EnsureRunSpec, Declines, StandsAnswered, IsSettled, ValidBundle,
        ValidPolicy, AttemptDue, StartingRun;
      ghost var s := Surroundings(known, child, collected, database.outbox, database.inbox, systemId, claim.envelope.origin,
                                  claim.envelope.origin != systemId && claim.envelope.origin in authorizedNodeIds,
                                  nestedId, conversation);
      ghost var before := database.runs;
      var found := EnsureRun(claim.envelope, known, now);
      if found.Err? {
        NoStart(policy, claim.envelope, known, now, before);
        ThrownIsAway(claim.envelope, systemId, now, database.outbox, database.inbox);
        AwayIsConsulted(policy, claim.envelope, now, later, s, before, database.outbox, database.inbox, Raised);
        return Raised;
      }
      if found.value.None? {
        NoStart(policy, claim.envelope, known, now, before);
        h := SettleInitialFailure(claim, now, replyId);
        AwayIsConsulted(policy, claim.envelope, now, later, s, before, database.outbox, database.inbox, h);
        return;
      }
      h := ConsultRun(found.value.value, claim, known, child, collected, now, later, replyId, nestedId, conversation, before);
    }

    /** Processes one claim. A handled claim leaves its message settled with a
        recorded result, released with less potential left, or parked for
        approval; an error leaves the run as it was or one saved turn further. */
    method ProcessClaim(claim: ClaimedMessage, known: bool, child: Attempt<ChildTurn>, collected: Attempt<Bundle>,
                        now: int, later: int, replyId: Id, nestedId: Id, conversation: Id) returns (h: Handling)
      requires database.Valid()
      requires ValidPolicy(policy) && (collected.Value? ==> ValidBundle(collected.value))
      requires claim.envelope.id in database.runs ==> AttemptDue(database.runs[claim.envelope.id], now)
      modifies database
      ensures database.Valid()
      ensures h.Parked? ==> database.runs == old(database.runs)
      ensures h.Parked? <==> PendingFor(old(database.Contents()), claim, consumerId, systemId, now)
      ensures !h.Parked? ==>
        Handles(policy, claim.envelope, known, now, old(database.runs), database.runs, database.inbox, h)
      ensures ProcessOutcome(policy, claim, consumerId, systemId, now, later,
                             Surroundings(known, child, collected, old(database.outbox), old(database.inbox), systemId,
                                          claim.envelope.origin,
                                          claim.envelope.origin != systemId && claim.envelope.origin in authorizedNodeIds,
                                          nestedId, conversation),
                             old(database.Contents()), database.Contents(), h)
    {
      if claim.envelope.payload.project.None? {
        h := SettleInitialFailure(claim, now, replyId);
        AwayHandles(policy, claim.envelope, known, now, database.runs, systemId, old(database.outbox), database.outbox,
                    database.inbox, h);
        return;
      }
      database.ValidHasRows();
      hide BridgeDatabase.Valid, AuthorizeSpec, Consulted, TurnedAway, ApprovalsOk, Handles, Consultations.TakeTurn;
      if AuthorizedFor(database.Contents(), claim, consumerId, systemId, now) {
        AuthorizedKeepsInbox(database.Contents(), claim, consumerId, systemId, now);
      }
      var decision := database.AuthorizeClaimedResourceAccess(
        claim.envelope.id, consumerId, claim.token, claim.envelope.payload.project.value, systemId, now);
      AccessLeaves(old(database.Contents()), claim, consumerId, systemId, now);
      if decision.Err? {
        ThrownIsAway(claim.envelope, systemId, now, database.outbox, database.inbox);
        AwayHandles(policy, claim.envelope, known, now, database.runs, systemId, database.outbox, database.outbox,
                    database.inbox, Raised);
        return Raised;
      }
      if decision.value.ApprovalPending? {
        return Parked;
      }
      if !decision.value.Authorized? {
        h := SettleInitialFailure(claim, now, replyId);
        AwayHandles(policy, claim.envelope, known, now, database.runs, systemId, old(database.outbox), database.outbox,
                    database.inbox, h);
        return;
      }
      h := Consult(claim, known, child, collected, now, later, replyId, nestedId, conversation);
    }

    /** One round: claims the oldest consultation that is due, if any, and processes the
        claim. `token` and the other random values are drawn by the call. */
    method RunOnce(known: bool, child: Attempt<ChildTurn>, collected: Attempt<Bundle>, leaseSeconds: nat, now: int,
                   later: int, token: string, replyId: Id, nestedId: Id, conversation: Id)
      returns (claim: Option<ClaimedMessage>, h: Handling)
      requires database.Valid() && ValidPolicy(policy) && consumerId != "" && leaseSeconds > 0
      requires collected.Value? ==> ValidBundle(collected.value)
      requires CreatedBy(database.runs, now)
      modifies database
      ensures database.Valid() && CreatedBy(database.runs, now)
      ensures var ids := ClaimIds(old(database.inbox), AutonomousConsultation, old(database.runs), 1, now);
        if ids == [] then
          claim.None? && database.Contents() == old(database.Contents()).(inbox := LapsedClaims(old(database.inbox), now))
        else
          && claim.Some? && claim.value.envelope.id == ids[0] && claim.value.token == token
          && (h.Parked? ==> database.runs == old(database.runs))
          && (!h.Parked? ==>
                Handles(policy, claim.value.envelope, known, now, old(database.runs), database.runs, database.inbox, h))
      ensures claim.Some? ==>
        exists i ::
          && HandsOutFirst(old(database.inbox), i, old(database.runs), consumerId, 1, now + 1000 * leaseSeconds,
                           AutonomousConsultation, now, [claim.value])
          && ProcessOutcome(policy, claim.value, consumerId, systemId, now, later,
                            Surroundings(known, child, collected, old(database.outbox), i, systemId,
                                         claim.value.envelope.origin,
                                         claim.value.envelope.origin != systemId
                                         && claim.value.envelope.origin in authorizedNodeIds,
                                         nestedId, conversation),
                            old(database.Contents()).(inbox := i), database.Contents(), h)
    {
      h := Raised;
      hide BridgeDatabase.Valid, ProcessOutcome, HandsOutFirst, Handles, ClaimIds;
      var claims := ClaimDue(leaseSeconds, now, token);
      ghost var i := database.inbox;
      assert database.Contents() == old(database.Contents()).(inbox := i);
      if |claims| == 0 {
        return None, Raised;
      }
      claim := Some(claims[0]);
      assert claims == [claims[0]];
      h := ProcessClaim(claims[0], known, child, collected, now, later, replyId, nestedId, conversation);
      if !h.Parked? {
        HandledByNow(policy, claims[0].envelope, known, now, old(database.runs), database.runs, database.inbox, h);
      }
    }

    /** The claim alone: what is handed out is due. */
    method ClaimDue(leaseSeconds: nat, now: int, token: string) returns (claims: seq<ClaimedMessage>)
      requires database.Valid() && consumerId != "" && leaseSeconds > 0
      requires CreatedBy(database.runs, now)
      modifies database`inbox
      ensures database.Valid()
      ensures var ids := ClaimIds(old(database.inbox), AutonomousConsultation, database.runs, 1, now);
        && |claims| == |ids| <= 1
        && (ids == [] ==> database.inbox == LapsedClaims(old(database.inbox), now))
        && (ids != [] ==> claims[0].envelope.id == ids[0] && claims[0].token == token)
      ensures HandsOutFirst(old(database.inbox), database.inbox, database.runs, consumerId, 1, now + 1000 * leaseSeconds,
                            AutonomousConsultation, now, claims)
      ensures claims != [] && claims[0].envelope.id in database.runs ==>
                AttemptDue(database.runs[claims[0].envelope.id], now)
    {
      hide HandsOutFirst;
      ghost var i, ids := database.inbox, ClaimIds(database.inbox, AutonomousConsultation, database.runs, 1, now);
      OneAtMost(i, database.runs, now);
      if ids != [] {
        ConsultationClaimsAreDue(i, database.runs, 1, now, ids[0]);
      }
      assert forall id :: id in i ==> i[id].envelope.id == id;
      var claimed := database.ClaimInboxWhere(consumerId, 1, leaseSeconds, AutonomousConsultation, now, [token]);
      claims := claimed.value;
    }
  }

  /** The clock is not behind the creation of any run. */
  ghost predicate CreatedBy(runs: Runs, now: int) {
    forall id :: id in runs ==> runs[id].createdAt <= now
  }

  lemma HandledByNow(policy: Policy, e: Envelope, known: bool, now: int, runs: Runs, runs': Runs, i': Inbox, h: Handling)
    requires ValidPolicy(policy) && CreatedBy(runs, now) && Handles(policy, e, known, now, runs, runs', i', h)
    ensures CreatedBy(runs', now)
  {
  }

  lemma OneAtMost(i: Inbox, runs: Runs, now: int)
    ensures var ids := ClaimIds(i, AutonomousConsultation, runs, 1, now); |ids| <= 1 && forall id :: id in ids ==> id in i
  {
    ClaimPicksClaimableRows(i, AutonomousConsultation, runs, 1, now);
    var ids := ClaimIds(i, AutonomousConsultation, runs, 1, now);
    forall id | id in ids ensures id in i {
      var k :| 0 <= k < |ids| && ids[k] == id;
      assert ids[k] in i;
    }
  }

  lemma SettledMeansSettled(d: Database, id: Id, consumer: string, token: string, outcome: SettleOutcome,
                            reply: Envelope, now: int)
    ensures var (d', r) := SettleSpec(d, id, consumer, token, outcome, reply, now);
      && (r.Ok? && reply.key == ReplyKey(outcome, id) ==> IsSettled(d'.inbox, id, outcome))
      && (r.Err? ==> d' == d)
  {
  }

  /** A settlement that changes the outbox stores this very reply and links it. */
  lemma NewReplyIsLinked(d: Database, id: Id, consumer: string, token: string, outcome: SettleOutcome, reply: Envelope,
                         now: int)
    requires OutboxOk(d.outbox)
    ensures var (d', r) := SettleSpec(d, id, consumer, token, outcome, reply, now);
      r.Ok? && d'.outbox != d.outbox ==>
        && id in d'.inbox && d'.inbox[id].result.Some? && d'.inbox[id].result.value.id in d'.outbox
        && ReplyOf(d'.outbox, d'.inbox, id) == reply
  {
    hide ReplyAuthority, OutboxOk;
    var (d', r) := SettleSpec(d, id, consumer, token, outcome, reply, now);
    if r.Ok? && d'.outbox != d.outbox {
      AuthorityIsStored(d.outbox, id, reply);
    }
  }

  /** The decision is to wait for approval. */
  ghost predicate PendingFor(d: Database, claim: ClaimedMessage, consumer: string, self: NodeId, now: int) {
    && claim.envelope.payload.project.Some?
    && var project := claim.envelope.payload.project.value;
       var r := AuthorizeSpec(d, claim.envelope.id, consumer, claim.token, project, self, now).1;
       r.Ok? && r.value.ApprovalPending?
  }

  /** Deciding on access touches neither the outbox nor the runs. */
  lemma AccessLeaves(d: Database, claim: ClaimedMessage, consumer: string, self: NodeId, now: int)
    requires claim.envelope.payload.project.Some?
    ensures var project := claim.envelope.payload.project.value;
      var d' := AuthorizeSpec(d, claim.envelope.id, consumer, claim.token, project, self, now).0;
      d'.outbox == d.outbox && d'.runs == d.runs
  {
    var e := claim.envelope;
    ApprovalStepMoves(d, Authorize(e.id, consumer, claim.token, e.payload.project.value, self, now));
  }

  /** The claim may use the resource the message is about. */
  ghost predicate AuthorizedFor(d: Database, claim: ClaimedMessage, consumer: string, self: NodeId, now: int) {
    && claim.envelope.payload.project.Some?
    && var project := claim.envelope.payload.project.value;
       var r := AuthorizeSpec(d, claim.envelope.id, consumer, claim.token, project, self, now).1;
       r.Ok? && r.value.Authorized?
  }

  lemma AuthorizedKeepsInbox(d: Database, claim: ClaimedMessage, consumer: string, self: NodeId, now: int)
    requires ApprovalsOk(d) && AuthorizedFor(d, claim, consumer, self, now)
    ensures var project := claim.envelope.payload.project.value;
      AuthorizeSpec(d, claim.envelope.id, consumer, claim.token, project, self, now).0.inbox == d.inbox
  {
    hide AuthorizeSpec;
    AuthorizeIsRight(d, claim.envelope.id, consumer, claim.token, claim.envelope.payload.project.value, self, now);
  }

  /** No consultation takes place: the message is rejected, with a reply that says no more than
      that, or an error is thrown. */
  ghost predicate TurnedAway(e: Envelope, self: NodeId, now: int, o: Outbox, o': Outbox, i': Inbox, h: Handling) {
    || (h.Raised? && o' == o)
    || (&& h.Settled? && StandsAnswered(o', i', e.id, SettleRejected, e.origin, "consultation-failure:" + e.id)
        && (o' != o ==> Declines(ReplyOf(o', i', e.id), e.id, None, NOT_STARTED, e, self, now)))
  }

  /** A message that was authorized: its run takes exactly the turn it is due, or there can be no
      run and the message is turned away. */
  ghost predicate Consulted(policy: Policy, e: Envelope, now: int, later: int, s: Surroundings, runs: Runs, runs': Runs,
                            o': Outbox, i': Inbox, h: Handling)
  {
    match StartingRun(policy, e, s.known, now, runs)
    case None => runs' == runs && TurnedAway(e, s.self, now, s.outbox, o', i', h)
    case Some(r) =>
      var t := Consultations.TakeTurn(policy, r, s, now);
      && Performed(r, t, runs[r.requestId := r], runs', i', h)
      && OutboxAfter(t, e, s.self, now, later, s.outbox, o', i', h)
  }

  lemma ThrownIsAway(e: Envelope, self: NodeId, now: int, o: Outbox, i: Inbox)
    ensures TurnedAway(e, self, now, o, o, i, Raised)
  {
  }

  lemma AwayHandles(policy: Policy, e: Envelope, known: bool, now: int, runs: Runs, self: NodeId, o: Outbox, o': Outbox,
                    i': Inbox, h: Handling)
    requires ValidPolicy(policy) && TurnedAway(e, self, now, o, o', i', h)
    ensures Handles(policy, e, known, now, runs, runs, i', h)
  {
    hide StartingRun, Declines;
  }

  lemma AwayIsConsulted(policy: Policy, e: Envelope, now: int, later: int, s: Surroundings, runs: Runs, o': Outbox,
                        i': Inbox, h: Handling)
    requires ValidPolicy(policy) && TurnedAway(e, s.self, now, s.outbox, o', i', h)
    requires StartingRun(policy, e, s.known, now, runs).None?
    ensures Consulted(policy, e, now, later, s, runs, runs, o', i', h)
    ensures Handles(policy, e, s.known, now, runs, runs, i', h)
  {
    hide StartingRun, TurnedAway;
    AwayHandles(policy, e, s.known, now, runs, s.self, s.outbox, o', i', h);
  }

  lemma NoStart(policy: Policy, e: Envelope, known: bool, now: int, runs: Runs)
    requires Admit(policy, e, known, now).Admitted? ==>
               EnsureRunSpec(runs, Admit(policy, e, known, now).run).1.Err?
    ensures StartingRun(policy, e, known, now, runs).None?
    ensures Admit(policy, e, known, now).Admitted? ==>
              EnsureRunSpec(runs, Admit(policy, e, known, now).run).0 == runs
  {
    hide Admit, ValidRun;
  }

  lemma TurnIsConsulted(policy: Policy, e: Envelope, now: int, later: int, s: Surroundings, runs: Runs, ensured: Runs,
                        runs': Runs, o': Outbox, i': Inbox, h: Handling, r: ConsultationRun)
    requires Admit(policy, e, s.known, now).Admitted?
    requires EnsureRunSpec(runs, Admit(policy, e, s.known, now).run) == (ensured, Ok(r))
    requires ensured == runs[r.requestId := r]
    requires Performed(r, Consultations.TakeTurn(policy, r, s, now), ensured, runs', i', h)
    requires OutboxAfter(Consultations.TakeTurn(policy, r, s, now), e, s.self, now, later, s.outbox, o', i', h)
    ensures Consulted(policy, e, now, later, s, runs, runs', o', i', h)
  {
    hide Performed, OutboxAfter, Consultations.TakeTurn, EnsureRunSpec, Admit;
  }

  /** What processing a claim may do: consult about the message if that is authorized, park it
      if a decision is pending, and otherwise turn it away. */
  ghost predicate ProcessOutcome(policy: Policy, claim: ClaimedMessage, consumer: string, self: NodeId, now: int, later: int,
                                 s: Surroundings, d: Database, d': Database, h: Handling)
  {
    if AuthorizedFor(d, claim, consumer, self, now) then
      Consulted(policy, claim.envelope, now, later, s, d.runs, d'.runs, d'.outbox, d'.inbox, h)
    else if PendingFor(d, claim, consumer, self, now) then h.Parked? && d'.runs == d.runs && d'.outbox == d.outbox
    else d'.runs == d.runs && TurnedAway(claim.envelope, self, now, d.outbox, d'.outbox, d'.inbox, h)
  }

  /** The run a turn starts from: the stored one, or the one just admitted. */
  ghost function StartingRun(policy: Policy, e: Envelope, known: bool, now: int, runs: Runs): Option<ConsultationRun> {
    match Admit(policy, e, known, now)
    case Refused => None
    case Admitted(run) =>
      match EnsureRunSpec(runs, run).1
      case Ok(r) => Some(r)
      case Err(_) => None
  }

  /** What processing a message does to the runs and to the message. */
  ghost predicate Handles(policy: Policy, e: Envelope, known: bool, now: int, runs: Runs, runs': Runs, i': Inbox,
                          h: Handling)
    requires ValidPolicy(policy)
  {
    var start := StartingRun(policy, e, known, now, runs);
    && (runs' == runs || (start.Some? && e.id in runs' && runs' == runs[e.id := runs'[e.id]]
                          && LifeStep(policy, start.value, now, runs'[e.id])))
    && match h
       case Settled => IsSettled(i', e.id, SettleProcessed) || IsSettled(i', e.id, SettleRejected)
       case Released =>
         && IsReleased(i', e.id) && start.Some? && e.id in runs' && now < start.value.deadline
         && start.value.roundCount <= start.value.maxRounds && runs'[e.id].roundCount <= runs'[e.id].maxRounds
         && Potential(policy, runs'[e.id]) < Potential(policy, start.value)
       case Raised => true
       case _ => false
  }

  lemma EnsuredRun(policy: Policy, e: Envelope, known: bool, now: int, runs: Runs)
    requires RunsOk(runs) && Admit(policy, e, known, now).Admitted?
    requires e.id in runs ==> AttemptDue(runs[e.id], now)
    requires EnsureRunSpec(runs, Admit(policy, e, known, now).run).1.Ok?
    ensures var (runs', found) := EnsureRunSpec(runs, Admit(policy, e, known, now).run);
      && ValidRun(found.value) && found.value.requestId == e.id && AttemptDue(found.value, now)
      && e.id in runs' && runs' == runs[e.id := found.value]
  {
  }

  lemma PerformedHandles(policy: Policy, r: ConsultationRun, s: Surroundings, now: int, runs: Runs, runs': Runs, i': Inbox,
                         h: Handling)
    requires ValidPolicy(policy) && ValidRun(r) && AttemptDue(r, now) && r.requestId in runs && runs[r.requestId] == r
    requires Performed(r, Consultations.TakeTurn(policy, r, s, now), runs, runs', i', h)
    ensures r.requestId in runs' && runs' == runs[r.requestId := runs'[r.requestId]]
    ensures LifeStep(policy, r, now, runs'[r.requestId])
    ensures h.Settled? ==> IsSettled(i', r.requestId, SettleProcessed) || IsSettled(i', r.requestId, SettleRejected)
    ensures h.Released? ==>
      && IsReleased(i', r.requestId) && now < r.deadline
      && runs'[r.requestId].roundCount <= runs'[r.requestId].maxRounds
      && Potential(policy, runs'[r.requestId]) < Potential(policy, r)
    ensures h.Settled? || h.Released? || h.Raised?
  {
    hide Consultations.TakeTurn, IsSettled;
    var t := Consultations.TakeTurn(policy, r, s, now);
    assert t.Finish? ==> t.outcome == SettleProcessed || t.outcome == SettleRejected;
    TurnMoves(policy, r, s, now);
    HandledClaimProgresses(policy, r, s, now);
  }

  lemma TurnHandles(policy: Policy, e: Envelope, known: bool, now: int, runs: Runs, ensured: Runs, runs': Runs, i': Inbox,
                    h: Handling, r: ConsultationRun, s: Surroundings)
    requires ValidPolicy(policy) && RunsOk(runs) && Admit(policy, e, known, now).Admitted?
    requires e.id in runs ==> AttemptDue(runs[e.id], now)
    requires EnsureRunSpec(runs, Admit(policy, e, known, now).run) == (ensured, Ok(r))
    requires Performed(r, Consultations.TakeTurn(policy, r, s, now), ensured, runs', i', h)
    ensures Handles(policy, e, known, now, runs, runs', i', h)
  {
    hide Step;
    EnsuredRun(policy, e, known, now, runs);
    PerformedHandles(policy, r, s, now, ensured, runs', i', h);
    assert runs' == runs[e.id := runs'[e.id]];
  }
}
