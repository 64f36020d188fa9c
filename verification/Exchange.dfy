/** A consultation across two nodes: a run asks its peer, the peer's coordinator answers, and the
    answer is taken in by the run that asked. */
module Exchanges {
  import opened Envelopes
  import opened Tables
  import opened Text
  import opened Evidence
  import opened RunTable
  import opened Settlement
  import opened Consultations
  import opened Coordinators
  import opened TurnOutcomes

  /** What a run asked, of whom and when. */
  datatype Question = Question(run: ConsultationRun, peer: PeerRequest, self: NodeId, target: NodeId, id: Id,
                               conversation: Id, askedAt: int)

  function Task(q: Question): Envelope {
    NestedRequest(q.run, q.peer, q.self, q.target, q.id, q.conversation, q.askedAt)
  }

  /** A run that the node asked made for the task, under whatever policy, at any later point. */
  predicate MadeFor(q: Question, policy: Policy, admittedAt: int, r: ConsultationRun) {
    var a := Admit(policy, Task(q), true, admittedAt);
    a.Admitted? && SameTerms(a.run, r)
  }

  /** The run that asked, still waiting for its task before its deadline. */
  ghost predicate StillWaits(q: Question, w: ConsultationRun, s: Surroundings, now: int) {
    && ValidRun(w) && SameTerms(q.run, w) && now < w.deadline
    && w.state == WaitingPeer && w.peerRequest.Some? && w.nestedTaskId == Some(q.id)
    && s.self == q.self && q.id in s.outbox && s.outbox[q.id].envelope == Task(q)
  }

  /** The envelope is stored, with its provenance, and no result of the task came before it. */
  ghost predicate ArrivedFirst(q: Question, i: Inbox, e: Envelope) {
    && e.id in i && i[e.id].envelope == e && i[e.id].authenticated && i[e.id].state != Quarantined
    && forall x :: x in i && x != e.id && ResultOf(i[x], Task(q), q.self) ==> CameFirst(i, e.id, x)
  }

  /** Any reply of the peer's coordinator to the task is found as its result. */
  lemma ReplyIsResult(q: Question, i: Inbox, e: Envelope, answeredAt: int)
    requires ArrivedFirst(q, i, e) && RepliesTo(e, Task(q), q.target, answeredAt)
    ensures ReplyIsFirst(i, Task(q), q.self, Some(e.id))
  {
  }

  /** It belongs to the run that asked if it names the project. */
  lemma ReplyBelongs(q: Question, w: ConsultationRun, s: Surroundings, now: int, e: Envelope, answeredAt: int)
    requires StillWaits(q, w, s, now) && ArrivedFirst(q, s.inbox, e) && RepliesTo(e, Task(q), q.target, answeredAt)
    ensures Belongs(w, Task(q), s.inbox[e.id]) <==> e.payload.project == Some(q.run.project)
  {
  }

  lemma TurnTakesReply(policy: Policy, q: Question, w: ConsultationRun, s: Surroundings, now: int, e: Envelope,
                       answeredAt: int)
    requires StillWaits(q, w, s, now) && ArrivedFirst(q, s.inbox, e) && RepliesTo(e, Task(q), q.target, answeredAt)
    ensures AnswerOutcome(w, Task(q), s.inbox[e.id], TakeTurn(policy, w, s, now))
  {
    hide AnswerOutcome, AwaitPeer, ValidRun;
    ReplyIsResult(q, s.inbox, e, answeredAt);
    ValidRunHasBundle(w);
    AwaitIsRight(policy, w, s.outbox, s.inbox, s.self, now);
  }

  lemma ValidRunHasBundle(w: ConsultationRun)
    requires ValidRun(w)
    ensures ValidBundle(w.evidence) && w.evidence.project == w.project && 1 <= |w.project| <= 120
  {
  }

  lemma AnswerIsABundle(w: ConsultationRun, e: Envelope)
    requires 1 <= |w.project| <= 120 && |e.id| < 1000 && |e.payload.body| <= 48_000
    ensures ValidBundle(AnswerBundle(w, e))
  {
    Utf8Bounds(e.payload.body);
    var x := AnswerItem(e.id, e.payload.body);
    assert TotalBytes([x]) == x.byteLength by { assert [x][..0] == []; }
  }

  lemma MergedHolds(before: Bundle, x: EvidenceItem, added: Bundle, after: Bundle)
    requires added.items == [x] && Merged(before, added, after)
    ensures x in after.items
  {
    assert Last([x], MergeKey(x)) == Some(x);
    var k := LastFound(after.items, MergeKey(x));
  }

  /** The peer's completed answer makes the next turn of the run that asked go back to its child,
      with the peer's text among the evidence, under the id of the reply, beside everything that
      was there: exactly if that fits into a bundle. */
  lemma AnswerReachesTheChild(policy: Policy, q: Question, w: ConsultationRun, s: Surroundings, now: int,
                              policy': Policy, admittedAt: int, r: ConsultationRun, e: Envelope, answeredAt: int)
    requires StillWaits(q, w, s, now) && MadeFor(q, policy', admittedAt, r)
    requires Trim(q.run.project) == q.run.project
    requires Delivers(e, r, Task(q), q.target, answeredAt) && ValidRun(r) && |e.id| < 1000
    requires ArrivedFirst(q, s.inbox, e)
    ensures var t := TakeTurn(policy, w, s, now);
      var answer := AnswerItem(e.id, r.finalAnswer.value);
      if FitsBundle(MergedItems(w.evidence.items + [answer])) then
        && t.Release? && t.sent.None? && answer in t.run.evidence.items
        && t.run == Cleared(w).(state := PendingChild, evidence := t.run.evidence)
        && Merged(w.evidence, Bundle(w.project, answer.byteLength, None, [answer]), t.run.evidence)
      else t == Rethrow
  {
    hide FitsBundle, TakeTurn, ValidRun, Delivers, ValidBundle, Merged, ReplyIsFirst, ArrivedFirst;
    ProjectIsNamed(q, policy', admittedAt, r, e, answeredAt);
    TurnTakesReply(policy, q, w, s, now, e, answeredAt);
    ReplyBelongs(q, w, s, now, e, answeredAt);
    ValidRunHasBundle(w);
    AnswerIsABundle(w, e);
    StoredAsIs(q, s.inbox, e);
    var t := TakeTurn(policy, w, s, now);
    if t.Release? {
      MergedHolds(w.evidence, AnswerItem(e.id, e.payload.body), AnswerBundle(w, e), t.run.evidence);
    }
  }

  lemma StoredAsIs(q: Question, i: Inbox, e: Envelope)
    requires ArrivedFirst(q, i, e)
    ensures e.id in i && i[e.id].envelope == e
  {
  }

  /** What the delivered reply says in terms of the run that asked. */
  lemma ProjectIsNamed(q: Question, policy: Policy, admittedAt: int, r: ConsultationRun, e: Envelope, answeredAt: int)
    requires MadeFor(q, policy, admittedAt, r) && Trim(q.run.project) == q.run.project
    requires Delivers(e, r, Task(q), q.target, answeredAt) && ValidRun(r)
    ensures RepliesTo(e, Task(q), q.target, answeredAt) && e.payload.project == Some(q.run.project)
    ensures r.finalAnswer == Some(e.payload.body) && |e.payload.body| <= 48_000
    ensures e.payload.result == Some(CoordinationResult(q.id, Outcome.Completed))
  {
    hide ValidBundle, Cited;
  }

  /** A peer that stopped fails the run that asked; so does one that never started, whose reply
      names no project. */
  lemma RefusalFailsTheRun(policy: Policy, q: Question, w: ConsultationRun, s: Surroundings, now: int,
                           project: Option<string>, body: string, e: Envelope, answeredAt: int)
    requires StillWaits(q, w, s, now) && Trim(q.run.project) == q.run.project
    requires project == Some(q.run.project) || project.None?
    requires Declines(e, q.id, project, body, Task(q), q.target, answeredAt) && ArrivedFirst(q, s.inbox, e)
    ensures FailsWith(TakeTurn(policy, w, s, now), w,
                      if project.Some? then "CONSULTATION_PEER_FAILED" else "CONSULTATION_PEER_RESULT_INVALID")
  {
    hide TakeTurn, ValidRun, ArrivedFirst, FailsWith;
    TurnTakesReply(policy, q, w, s, now, e, answeredAt);
    ReplyBelongs(q, w, s, now, e, answeredAt);
    StoredAsIs(q, s.inbox, e);
  }
}
