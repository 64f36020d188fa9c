/** The audit is the history: the events of a request, in insertion order, form
    a word of a small language, and replaying them gives the request's state. */
module AuditTrail {
  import opened Envelopes
  import opened Tables

  datatype Progress = Unrequested | Reached(state: RequestState) | Broken

  /** What an event makes of a request. */
  function Advance(p: Progress, e: AuditEvent): Progress {
    match (p, e)
    case (Unrequested, AuditRequested) => Reached(AwaitingDecision)
    case (Reached(AwaitingDecision), AuditDenied) => Reached(Denied)
    case (Reached(AwaitingDecision), AuditApprovedOnce) => Reached(ApprovedOnce)
    case (Reached(AwaitingDecision), AuditApprovedTemporary) => Reached(ApprovedTemporary)
    case (Reached(ApprovedOnce), AuditConsumed) => Reached(Consumed)
    case (Reached(ApprovedOnce), AuditRevoked) => Reached(Revoked)
    case (Reached(ApprovedTemporary), AuditTemporaryUsed) => Reached(ApprovedTemporary)
    case (Reached(ApprovedTemporary), AuditRevoked) => Reached(Revoked)
    case (Reached(ApprovedTemporary), AuditExpired) => Reached(Expired)
    case _ => Broken
  }

  function Replay(w: seq<AuditEvent>): Progress {
    if w == [] then Unrequested else Advance(Replay(w[..|w| - 1]), w[|w| - 1])
  }

  /** The events of one request. */
  function EventsOf(audit: seq<AuditEntry>, id: Id): seq<AuditEvent> {
    if audit == [] then []
    else
      var before := EventsOf(audit[..|audit| - 1], id);
      var last := audit[|audit| - 1];
      if last.requestId == id then before + [last.event] else before
  }

  lemma {:induction false} EventsOfConcat(a: seq<AuditEntry>, b: seq<AuditEntry>, id: Id)
    ensures EventsOf(a + b, id) == EventsOf(a, id) + EventsOf(b, id)
  {
    if b == [] {
      assert a + b == a;
    } else {
      EventsOfConcat(a, b[..|b| - 1], id);
      assert (a + b)[..|a + b| - 1] == a + b[..|b| - 1];
    }
  }

  lemma EventsOfAppend(a: seq<AuditEntry>, x: AuditEntry, id: Id)
    ensures EventsOf(a + [x], id) == EventsOf(a, id) + if x.requestId == id then [x.event] else []
  {
    assert (a + [x])[..|a + [x]| - 1] == a;
  }

  lemma {:induction false} NoEvents(b: seq<AuditEntry>, id: Id)
    requires forall k :: 0 <= k < |b| ==> b[k].requestId != id
    ensures EventsOf(b, id) == []
  {
    if b != [] {
      NoEvents(b[..|b| - 1], id);
    }
  }

  /** A batch with one entry for each of some distinct requests. */
  lemma {:induction false} OneEvent(b: seq<AuditEntry>, k: nat)
    requires k < |b|
    requires forall i, j :: 0 <= i < j < |b| ==> b[i].requestId != b[j].requestId
    ensures EventsOf(b, b[k].requestId) == [b[k].event]
  {
    var n := |b| - 1;
    if k == n {
      NoEvents(b[..n], b[k].requestId);
    } else {
      OneEvent(b[..n], k);
    }
  }

  ghost predicate AuditOk(q: Requests, audit: seq<AuditEntry>) {
    forall id :: Replay(EventsOf(audit, id)) == if id in q then Reached(q[id].state) else Unrequested
  }

  // ---- The language -----------------------------------------------------

  function Uses(n: nat): seq<AuditEvent> { seq(n, _ => AuditTemporaryUsed) }

  function TemporaryWord(n: nat): seq<AuditEvent> { [AuditRequested, AuditApprovedTemporary] + Uses(n) }

  /** requested ( denied | approved_once (consumed | revoked)?
                | approved_temporary temporary_used* (revoked | expired)? )?  */
  ghost predicate InLanguage(w: seq<AuditEvent>) {
    || w == []
    || w == [AuditRequested]
    || w == [AuditRequested, AuditDenied]
    || w == [AuditRequested, AuditApprovedOnce]
    || w == [AuditRequested, AuditApprovedOnce, AuditConsumed]
    || w == [AuditRequested, AuditApprovedOnce, AuditRevoked]
    || exists n: nat ::
         || w == TemporaryWord(n)
         || w == TemporaryWord(n) + [AuditRevoked]
         || w == TemporaryWord(n) + [AuditExpired]
  }

  /** The words that lead to a state. */
  ghost predicate Leads(w: seq<AuditEvent>, p: Progress) {
    match p
    case Unrequested => w == []
    case Reached(AwaitingDecision) => w == [AuditRequested]
    case Reached(Denied) => w == [AuditRequested, AuditDenied]
    case Reached(ApprovedOnce) => w == [AuditRequested, AuditApprovedOnce]
    case Reached(Consumed) => w == [AuditRequested, AuditApprovedOnce, AuditConsumed]
    case Reached(ApprovedTemporary) => exists n: nat :: w == TemporaryWord(n)
    case Reached(Revoked) =>
      || w == [AuditRequested, AuditApprovedOnce, AuditRevoked]
      || exists n: nat :: w == TemporaryWord(n) + [AuditRevoked]
    case Reached(Expired) => exists n: nat :: w == TemporaryWord(n) + [AuditExpired]
    case Broken => !InLanguage(w)
  }

  lemma ReplaySnoc(w: seq<AuditEvent>, e: AuditEvent)
    ensures Replay(w + [e]) == Advance(Replay(w), e)
  {
    assert (w + [e])[..|w + [e]| - 1] == w;
  }

  lemma {:induction false} ReplayTemporary(n: nat)
    ensures Replay(TemporaryWord(n)) == Reached(ApprovedTemporary)
    ensures Replay(TemporaryWord(n) + [AuditRevoked]) == Reached(Revoked)
    ensures Replay(TemporaryWord(n) + [AuditExpired]) == Reached(Expired)
  {
    if n == 0 {
      assert TemporaryWord(0) == [AuditRequested] + [AuditApprovedTemporary];
      assert [AuditRequested] == [] + [AuditRequested];
      ReplaySnoc([], AuditRequested);
      ReplaySnoc([AuditRequested], AuditApprovedTemporary);
    } else {
      ReplayTemporary(n - 1);
      assert TemporaryWord(n) == TemporaryWord(n - 1) + [AuditTemporaryUsed];
      ReplaySnoc(TemporaryWord(n - 1), AuditTemporaryUsed);
    }
    ReplaySnoc(TemporaryWord(n), AuditRevoked);
    ReplaySnoc(TemporaryWord(n), AuditExpired);
  }

  lemma ReplayShort()
    ensures Replay([AuditRequested]) == Reached(AwaitingDecision)
    ensures Replay([AuditRequested, AuditDenied]) == Reached(Denied)
    ensures Replay([AuditRequested, AuditApprovedOnce]) == Reached(ApprovedOnce)
    ensures Replay([AuditRequested, AuditApprovedOnce, AuditConsumed]) == Reached(Consumed)
    ensures Replay([AuditRequested, AuditApprovedOnce, AuditRevoked]) == Reached(Revoked)
  {
    ReplaySnoc([], AuditRequested);
    assert [AuditRequested] == [] + [AuditRequested];
    ReplaySnoc([AuditRequested], AuditDenied);
    assert [AuditRequested, AuditDenied] == [AuditRequested] + [AuditDenied];
    ReplaySnoc([AuditRequested], AuditApprovedOnce);
    var once := [AuditRequested, AuditApprovedOnce];
    assert once == [AuditRequested] + [AuditApprovedOnce];
    ReplaySnoc(once, AuditConsumed);
    assert [AuditRequested, AuditApprovedOnce, AuditConsumed] == once + [AuditConsumed];
    ReplaySnoc(once, AuditRevoked);
    assert [AuditRequested, AuditApprovedOnce, AuditRevoked] == once + [AuditRevoked];
  }

  lemma LanguageReplays(w: seq<AuditEvent>)
    requires InLanguage(w)
    ensures Replay(w) != Broken
  {
    ReplayShort();
    if n: nat :| w == TemporaryWord(n) || w == TemporaryWord(n) + [AuditRevoked] || w == TemporaryWord(n) + [AuditExpired] {
      ReplayTemporary(n);
    }
  }

  lemma {:induction false} ReplayLeads(w: seq<AuditEvent>)
    requires Replay(w) != Broken
    ensures Leads(w, Replay(w)) && InLanguage(w)
  {
    if w != [] {
      var v, e := w[..|w| - 1], w[|w| - 1];
      assert w == v + [e];
      ReplayLeads(v);
      if Replay(v) == Reached(ApprovedTemporary) {
        var n: nat :| v == TemporaryWord(n);
        if e.AuditTemporaryUsed? {
          assert w == TemporaryWord(n + 1);
        }
      } else if v == [AuditRequested] && e.AuditApprovedTemporary? {
        assert w == TemporaryWord(0);
      }
    }
  }

  /** Replaying accepts exactly the language. */
  lemma ReplayAcceptsTheLanguage(w: seq<AuditEvent>)
    ensures Replay(w) != Broken <==> InLanguage(w)
  {
    if Replay(w) != Broken {
      ReplayLeads(w);
    }
    if InLanguage(w) {
      LanguageReplays(w);
    }
  }

  lemma {:induction false} NothingFollowsConsumption(w: seq<AuditEvent>, i: nat)
    requires i + 1 < |w| && w[i].AuditConsumed?
    ensures Replay(w) == Broken
  {
    var v := w[..|w| - 1];
    if i + 1 < |v| {
      NothingFollowsConsumption(v, i);
    } else {
      assert v[|v| - 1].AuditConsumed?;
      assert Replay(v) == Broken || Replay(v) == Reached(Consumed);
    }
  }

  /** A one-time approval is consumed at most once. */
  lemma ConsumedOnce(w: seq<AuditEvent>, i: nat, j: nat)
    requires Replay(w) != Broken && i < |w| && j < |w| && w[i].AuditConsumed? && w[j].AuditConsumed?
    ensures i == j
  {
    if i + 1 < |w| {
      NothingFollowsConsumption(w, i);
    } else if j + 1 < |w| {
      NothingFollowsConsumption(w, j);
    }
  }
}
