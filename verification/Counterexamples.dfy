/** Inputs on which the code does what one might not expect. Each belongs to a
    theorem that says for all inputs when it happens. */
module Counterexamples {
  import opened Envelopes
  import opened Ordering
  import opened Tables
  import opened Text
  import opened OutboxTable
  import opened InboxTable
  import opened Settlement
  import opened Approvals
  import opened Evidence
  import opened RunTable
  import opened Operations
  import opened Consultations
  import opened Conversations
  import opened Services
  import opened Coordinators

  /** A small valid message from "peer" to "self" about the project "p". */
  function Message(subject: string): Envelope {
    var payload := Payload(subject, "body", Some("p"), [], None, None, None, None);
    Envelope("m", "k", "peer", "self", TaskRequest, "c", None, None, "s", None, 0, None, payload, Sha256(payload))
  }

  lemma MessageIsValid(subject: string)
    requires 1 <= |subject| <= 200
    ensures ValidEnvelope(Message(subject))
  {
    assert |"body"| == 4 && |"p"| == 1 && |"k"| == 1 && |"s"| == 1;
    assert "peer"[0] == 'p' && "self"[0] == 's';
    assert |COORDINATION_STREAM| != |"s"|;
  }

  // ---- A small database -------------------------------------------------------------

  lemma FirstOfOne(m: Stamp)
    ensures FirstIds({m}, 1) == [m.id]
  {
    assert Earliest({m}) == m;
    assert {m} - {m} == {};
  }

  const ANY := OfKinds([])

  lemma ClaimsTheOnlyRow(row: InRow, token: string)
    requires row.state.Available? && row.envelope.id == "m" && row.envelope.expiresAt.None?
    ensures ClaimSpec(map["m" := row], map[], "consumer", 1, 60, ANY, 0, [token])
            == map["m" := ClaimedRow(row, "consumer", token, 60_000)]
  {
    var i := map["m" := row];
    var stamp := Stamp(row.firstReceivedAt, "m");
    assert LapsedClaims(i, 0) == i;
    assert i["m"] == row && Claimable(i["m"], ANY, map[], 0);
    assert forall x :: x in ClaimableStamps(i, ANY, map[], 0) <==> x == stamp;
    assert ClaimableStamps(i, ANY, map[], 0) == {stamp};
    FirstOfOne(stamp);
    assert ClaimRows(i, [], [token], "consumer", 60_000) == i;
    assert ["m"][..0] == [];
    assert ClaimRows(i, ["m"], [token], "consumer", 60_000) == i["m" := ClaimedRow(row, "consumer", token, 60_000)];
  }

  // ---- A processed message that is quarantined ----------------------------------------

  /** After another message with its id and origin has arrived, a processed message is
      quarantined (`Guarantees.SettledStateChangesIff`). */
  lemma ProcessedIsQuarantined()
    ensures var i := map["m" := NewInRow(Message("one"), 1, 0, true)];
      var i1 := ClaimSpec(i, map[], "consumer", 1, 60, ANY, 0, ["t"]);
      var i2 := AcknowledgeSpec(i1, "m", "consumer", "t", AckProcessed, 1).0;
      var i3 := PersistSpec(i2, Message("two"), 1, 2, true).0;
      && PersistSpec(map[], Message("one"), 1, 0, true) == (i, Ok(Inserted))
      && "m" in i2 && i2["m"].state.Processed?
      && "m" in i3 && i3["m"].state.Quarantined?
  {
    assert |"one"| == 3 && |"two"| == 3 && "one"[0] == 'o' && "two"[0] == 't';
    MessageIsValid("one");
    MessageIsValid("two");
    ClaimsTheOnlyRow(NewInRow(Message("one"), 1, 0, true), "t");
    SameInboundIsEquality(Message("one"), Message("two"));
  }

  // ---- A revoked peer whose one-time approval still serves -----------------------------

  lemma NothingLapses(d: Database, now: int)
    requires forall id :: id in d.requests ==> !d.requests[id].state.ApprovedTemporary?
    ensures ExpireSpec(d, now) == d
  {
    assert LapsedRequests(d.requests, now) == d.requests;
    LapsingIdsExact(d.requests, now);
    assert LapsingStamps(d.requests, now) == {};
  }

  lemma PIsAResource()
    ensures ParseResource("p") == Some("p")
  {
    assert TrimLeft("p") == "p" && TrimRight("p") == "p";
    assert Lower("p") == "p";
  }

  function Small(row: InRow, requests: Requests, audit: seq<AuditEntry>, grants: Grants): Database {
    Database(map[], map["m" := row], requests, audit, map["p" := true], grants, map[])
  }

  function Received(): InRow { NewInRow(Message("one"), 1, 0, true) }

  function Parked(): InRow { Unclaim(ClaimedRow(Received(), "consumer", "t", 60_000), Quarantined) }

  function Waiting(): InRow { Unclaim(ClaimedRow(Received(), "consumer", "t", 60_000), Available) }

  function Entry(event: AuditEvent): AuditEntry { AuditEntry("m", event, "operator", "peer", "p", 0) }

  function ApprovedRow(): RequestRow { DecidedRow(OpenRequest(Message("one"), "p"), Once, "operator") }

  function Approved(row: InRow, grants: Grants): Database {
    Small(row, map["m" := ApprovedRow()], [Entry(AuditRequested), Entry(AuditApprovedOnce)], grants)
  }

  const CLAIM := Op.Claim("consumer", 1, 60, ANY, 0, ["t"])
  const CLAIM_AGAIN := Op.Claim("consumer", 1, 60, ANY, 0, ["t2"])
  const ASK := Authorize("m", "consumer", "t", "p", "operator", 0)
  const APPROVE := Decide("m", Once, "operator", 0)
  const REVOKE := RevokeGrant("peer", "p", "operator", 0)

  /** The resource is registered, and the message received and claimed. */
  lemma FirstReceived()
    ensures Step(Step(Step(EmptyDatabase(), Register("p")), Persist(Message("one"), 1, 0, true)), CLAIM)
            == Small(ClaimedRow(Received(), "consumer", "t", 60_000), map[], [], map[])
  {
    PIsAResource();
    var d := EmptyDatabase().(resources := map["p" := true]);
    assert Step(EmptyDatabase(), Register("p")) == d;
    assert |"one"| == 3;
    MessageIsValid("one");
    assert d.inbox["m" := Received()] == map["m" := Received()];
    assert Step(d, Persist(Message("one"), 1, 0, true)) == Small(Received(), map[], [], map[]);
    ClaimsTheOnlyRow(Received(), "t");
  }

  /** The claim is parked: there is neither a grant nor an approval. */
  lemma ThenParked()
    ensures Step(Small(ClaimedRow(Received(), "consumer", "t", 60_000), map[], [], map[]), ASK)
            == Small(Parked(), map["m" := OpenRequest(Message("one"), "p")], [Entry(AuditRequested)], map[])
  {
    var row := ClaimedRow(Received(), "consumer", "t", 60_000);
    var d := Small(row, map[], [], map[]);
    NothingLapses(d, 0);
    PIsAResource();
    assert d.inbox["m"] == row;
    assert ServingApproval(d.requests, "peer", "p", 0).None?;
    assert FindIdentity(d.requests, IdentityOf(Message("one"), "p")).None?;
    assert d.inbox["m" := Parked()] == map["m" := Parked()];
    assert d.requests["m" := OpenRequest(Message("one"), "p")] == map["m" := OpenRequest(Message("one"), "p")];
    assert d.audit + [Entry(AuditRequested)] == [Entry(AuditRequested)];
    assert !Granted(d, "peer", "p") && Enabled(d.resources, "p");
    assert AccessSpec(d, "m", "p", "operator", 0) == ByRequest(d, "m", "p", "operator", 0);
  }

  /** The operator approves it once. */
  lemma ThenApproved()
    ensures Step(Small(Parked(), map["m" := OpenRequest(Message("one"), "p")], [Entry(AuditRequested)], map[]), APPROVE)
            == Approved(Waiting(), map[])
  {
    var d := Small(Parked(), map["m" := OpenRequest(Message("one"), "p")], [Entry(AuditRequested)], map[]);
    NothingLapses(d, 0);
    assert d.requests["m"] == OpenRequest(Message("one"), "p");
    assert d.requests["m" := ApprovedRow()] == map["m" := ApprovedRow()];
    assert d.inbox["m" := Waiting()] == map["m" := Waiting()];
    assert [Entry(AuditRequested)] + [Entry(AuditApprovedOnce)] == [Entry(AuditRequested), Entry(AuditApprovedOnce)];
  }

  /** Then the peer is granted the resource ... */
  lemma ThenGranted()
    ensures Step(Approved(Waiting(), map[]), Grant("peer", "p")) == Approved(Waiting(), map[("peer", "p") := true])
  {
    PIsAResource();
  }

  lemma RevokingIt()
    ensures RevokeGrantSpec(Approved(Waiting(), map[("peer", "p") := true]), "peer", "p", "operator", 0).0
            == Approved(Waiting(), map[("peer", "p") := false])
  {
    PIsAResource();
    var d := Approved(Waiting(), map[("peer", "p") := true]);
    assert PairStamps(d.requests, "peer", "p") == {};
    PairIdsExact(d.requests, "peer", "p");
    assert PairRevoked(d.requests, "peer", "p", "operator") == d.requests;
    assert d.grants[("peer", "p") := false] == map[("peer", "p") := false];
    assert d.audit + PairEntries([], "peer", "p", "operator", 0) == d.audit;
  }

  /** ... and the grant is revoked. */
  lemma ThenRevoked()
    ensures Step(Approved(Waiting(), map[("peer", "p") := true]), REVOKE)
            == Approved(Waiting(), map[("peer", "p") := false])
  {
    hide RevokeGrantSpec;
    RevokingIt();
  }

  lemma ThenClaimed(grants: Grants)
    ensures Step(Approved(Waiting(), grants), CLAIM_AGAIN)
            == Approved(ClaimedRow(Waiting(), "consumer", "t2", 60_000), grants)
  {
    ClaimsTheOnlyRow(Waiting(), "t2");
  }

  lemma ThenServed()
    ensures var d := Approved(ClaimedRow(Waiting(), "consumer", "t2", 60_000), map[("peer", "p") := false]);
      && !Granted(d, "peer", "p")
      && AuthorizeSpec(d, "m", "consumer", "t2", "p", "operator", 0).1 == Ok(Authorized(OneTimeApproval, Some("m")))
  {
    var row := ClaimedRow(Waiting(), "consumer", "t2", 60_000);
    var d := Approved(row, map[("peer", "p") := false]);
    NothingLapses(d, 0);
    PIsAResource();
    assert d.inbox["m"] == row && d.requests["m"] == ApprovedRow();
    assert ServingApproval(d.requests, "peer", "p", 0).None?;
    assert FindIdentity(d.requests, IdentityOf(Message("one"), "p")) == Some("m");
  }

  lemma EightSteps(a: Op, b: Op, c: Op, e: Op, f: Op, g: Op, h: Op, k: Op)
    ensures Run(EmptyDatabase(), [a, b, c, e, f, g, h, k])
            == Step(Step(Step(Step(Step(Step(Step(Step(EmptyDatabase(), a), b), c), e), f), g), h), k)
  {
    hide Step;
    assert [a] == [] + [a];
    RunExtend(EmptyDatabase(), [], a);
    RunExtend(EmptyDatabase(), [a], b);
    RunExtend(EmptyDatabase(), [a, b], c);
    RunExtend(EmptyDatabase(), [a, b, c], e);
    RunExtend(EmptyDatabase(), [a, b, c, e], f);
    RunExtend(EmptyDatabase(), [a, b, c, e, f], g);
    RunExtend(EmptyDatabase(), [a, b, c, e, f, g], h);
    RunExtend(EmptyDatabase(), [a, b, c, e, f, g, h], k);
    assert [a, b] == [a] + [b] && [a, b, c] == [a, b] + [c] && [a, b, c, e] == [a, b, c] + [e];
    assert [a, b, c, e, f] == [a, b, c, e] + [f] && [a, b, c, e, f, g] == [a, b, c, e, f] + [g];
    assert [a, b, c, e, f, g, h] == [a, b, c, e, f, g] + [h] && [a, b, c, e, f, g, h, k] == [a, b, c, e, f, g, h] + [k];
  }

  /** A run: a message of the peer is approved once, the peer is granted the resource, the
      grant is revoked, and the message is authorized all the same
      (`Decisions.RevocationLeavesOneTimeApprovals`). */
  lemma RevokedPeerIsServed()
    ensures var d := Run(EmptyDatabase(), [Register("p"), Persist(Message("one"), 1, 0, true), CLAIM, ASK, APPROVE,
                                           Grant("peer", "p"), REVOKE, CLAIM_AGAIN]);
      && ("peer", "p") in d.grants && !Granted(d, "peer", "p")
      && AuthorizeSpec(d, "m", "consumer", "t2", "p", "operator", 0).1 == Ok(Authorized(OneTimeApproval, Some("m")))
  {
    hide Step, AuthorizeSpec, Granted;
    EightSteps(Register("p"), Persist(Message("one"), 1, 0, true), CLAIM, ASK, APPROVE, Grant("peer", "p"), REVOKE,
               CLAIM_AGAIN);
    FirstReceived();
    ThenParked();
    ThenApproved();
    ThenGranted();
    ThenRevoked();
    ThenClaimed(map[("peer", "p") := false]);
    ThenServed();
  }

  // ---- A merge that throws ----------------------------------------------------------------

  function Letter(k: nat): EvidenceItem
    requires k < 26
  {
    EvidenceItem([('a' as int + k) as char], LocalProject, None, None, None, "", 0)
  }

  function Letters(n: nat): seq<EvidenceItem>
    requires n <= 26
  {
    seq(n, k requires 0 <= k < n => Letter(k))
  }

  lemma {:induction false} LettersAreEmpty(items: seq<EvidenceItem>)
    requires forall k :: 0 <= k < |items| ==> items[k].byteLength == 0
    ensures TotalBytes(items) == 0
  {
    if items != [] {
      LettersAreEmpty(items[..|items| - 1]);
    }
  }

  lemma LetterKey(k: nat)
    requires k < 26
    ensures MergeKey(Letter(k)) == ContractKey(Letter(k).path) == [('a' as int + k) as char]
  {
  }

  lemma LettersMergeToThemselves(n: nat)
    requires n <= 26
    ensures MergedItems(Letters(n)) == Letters(n)
  {
    forall i, j | 0 <= i < j < n ensures MergeKey(Letters(n)[i]) != MergeKey(Letters(n)[j]) {
      LetterKey(i);
      LetterKey(j);
    }
    DistinctItemsStay(Letters(n));
  }

  lemma LettersAreValid(items: seq<EvidenceItem>, from: nat)
    requires |items| <= 16 && from + |items| <= 26
    requires forall k :: 0 <= k < |items| ==> items[k] == Letter(from + k)
    ensures ValidBundle(Bundle("p", 0, None, items))
  {
    LettersAreEmpty(items);
    assert |"p"| == 1;
    forall i, j | 0 <= i < j < |items| ensures ContractKey(items[i].path) != ContractKey(items[j].path) {
      LetterKey(from + i);
      LetterKey(from + j);
    }
  }

  /** Sixteen items and one more: the merge throws instead of failing the run
      (`Evidence.MergedBundleIsValidIffItFits`). */
  lemma SeventeenthItemThrows(r: ConsultationRun)
    requires r.evidence == Bundle("p", 0, None, Letters(16))
    ensures var added := Bundle("p", 0, None, [Letter(16)]);
      ValidBundle(r.evidence) && ValidBundle(added) && Enrich(r, added) == Rethrow
  {
    var added := Bundle("p", 0, None, [Letter(16)]);
    LettersAreValid(Letters(16), 0);
    LettersAreValid([Letter(16)], 16);
    assert Letters(16) + [Letter(16)] == Letters(17);
    LettersMergeToThemselves(17);
  }

  // ---- A completed run that is rejected ----------------------------------------------------

  /** An answered consultation that is not settled by its deadline is failed
      (`Consultations.CompletedRunFailsIff`). */
  lemma AnsweredTooLateIsRejected(policy: Policy, s: Surroundings)
    ensures var r := ConsultationRun("m", "c", "m", "p", RunCompleted, 1, 0, 1, 1, [Sha256Text("f")], 1000,
                                     EmptyBundle("p"), [], None, None, None, None, Some("answer"), [], 1, 0);
      && ValidRun(r)
      && TakeTurn(policy, r, s, 999) == Finish(r, SettleProcessed)
      && TakeTurn(policy, r, s, 1000)
         == Finish(r.(state := RunFailed, errorCode := Some("CONSULTATION_TIMED_OUT")), SettleRejected)
  {
    assert |"p"| == 1 && |"answer"| == 6;
  }

  // ---- A reply adopted from another conversation --------------------------------------------

  /** The reply the service builds to the claimed message "m", and the same operation sent
      before, with its conversation chosen by the sender. */
  function ServiceReply(): Envelope {
    ReplyTo(Message("one"), "self", "r", "answer", Payload("subject", "body", Some("p"), [], None, None, None, None), 5)
  }

  function SentBefore(): Envelope {
    ServiceReply().(id := "before", conversation := "other", createdAt := 0)
  }

  /** Settling with the service's reply adopts an earlier reply that is the same operation
      although it stands in another conversation (`Settlement.SettledConversationIff`). */
  lemma ReplyElsewhereIsAdopted()
    ensures var row := ClaimedRow(NewInRow(Message("one"), 1, 0, true), "consumer", "t", 60_000);
      var d := Database(map["before" := NewOutRow(SentBefore())], map["m" := row], map[], [], map[], map[], map[]);
      var (d', r) := SettleSpec(d, "m", "consumer", "t", SettleProcessed, ServiceReply(), 5);
      && HoldsClaim(d.inbox, "m", "consumer", "t", 5) && ServiceReply().conversation == row.envelope.conversation
      && r.Ok? && d'.outbox == d.outbox
      && d'.inbox["m"].result == Some(ResultLink("before", "answer", ServiceReply().payloadSha))
      && d'.outbox["before"].envelope.conversation != row.envelope.conversation
  {
    var row := ClaimedRow(NewInRow(Message("one"), 1, 0, true), "consumer", "t", 60_000);
    var d := Database(map["before" := NewOutRow(SentBefore())], map["m" := row], map[], [], map[], map[], map[]);
    var reply := ServiceReply();
    assert |"answer"| == 6 && |"s"| == 1 && |"subject"| == 7 && |"body"| == 4 && |"p"| == 1;
    assert "peer"[0] == 'p' && "self"[0] == 's' && |COORDINATION_STREAM| != |"s"|;
    assert ValidEnvelope(reply);
    assert d.outbox["before"].envelope == SentBefore() && d.inbox["m"] == row;
    assert InSlot(d.outbox, "before", reply.target, reply.key);
    assert FindOperation(d.outbox, reply.target, reply.key) == Some("before");
    assert |"c"| != |"other"|;
  }

  // ---- A follow-up whose number lies below another ---------------------------------------------

  /** What this node asked, under the number 5: not a root. */
  function Asked(): Envelope {
    var q := Inquiry("asked", "subject", "body", Intent.Question, 60, Some(1000));
    Request(q, QuestionPayload(q, "p", false), "self", "peer", "c", None, 5, "q", 0)
  }

  function ResultId(k: nat): string
    requires k < 100
  {
    [(200 + k) as char]
  }

  /** The peer's results for it, which bear no numbers. */
  function Answer(k: nat): Envelope
    requires k < 100
  {
    var result := CoordinationResult("q", Outcome.Completed);
    var payload := Payload("subject", "body", Some("p"), [], None, None, Some(result), None);
    Envelope(ResultId(k), ResultId(k), "peer", "self", TaskResult, "c", None, Some("q"), COORDINATION_STREAM, None, 1 + k,
             None, payload, Sha256(payload))
  }

  function LongThread(): Database {
    Database(map["q" := NewOutRow(Asked()).(state := Sent)],
             map k: nat | 0 <= k < 100 :: ResultId(k) := NewInRow(Answer(k), 1, k, true),
             map[], [], map[], map[], map[])
  }

  function Turn(k: nat): Item
    requires k <= 100
  {
    if k == 0 then Item(Asked(), true) else Item(Answer(k - 1), false)
  }

  function Turns(): seq<Item> { seq(101, k requires 0 <= k < 101 => Turn(k)) }

  lemma ResultIdsDiffer(k: nat, l: nat)
    requires k < 100 && l < 100
    ensures ResultId(k) == ResultId(l) ==> k == l
  {
    assert ResultId(k)[0] == (200 + k) as char && ResultId(l)[0] == (200 + l) as char;
  }

  lemma AnswerIsStored(k: nat)
    requires k < 100
    ensures ResultId(k) in LongThread().inbox && LongThread().inbox[ResultId(k)].envelope == Answer(k)
    ensures ValidEnvelope(Answer(k)) && ValidEnvelope(Asked())
  {
    assert |"asked"| == 5 && |"subject"| == 7 && |"body"| == 4 && |"p"| == 1;
    assert "peer"[0] == 'p' && "self"[0] == 's';
  }

  lemma LongThreadIsOk()
    ensures DatabaseOk(LongThread())
  {
    hide Step;
    EmptyIsOk();
    var d := LongThread();
    forall id | id in d.inbox
      ensures d.inbox[id].envelope.id == id && Sealed(d.inbox[id].envelope) && ClaimColumns(d.inbox[id])
    {
      var k: nat :| k < 100 && id == ResultId(k);
      AnswerIsStored(k);
    }
  }

  lemma TurnIsRow(i: nat)
    requires i <= 100
    ensures Turn(i) in ConversationRows(LongThread(), "c") && OnRoute(Turn(i).envelope, ("self", "peer"))
  {
    var d := LongThread();
    if i > 0 {
      AnswerIsStored(i - 1);
      assert d.inbox[ResultId(i - 1)].authenticated;
    } else {
      assert d.outbox["q"].envelope == Asked();
    }
  }

  lemma RowIsTurn(x: Item)
    requires x in ConversationRows(LongThread(), "c")
    ensures x in Turns()
  {
    hide ValidEnvelope, InboxOk, Answer, Asked;
    var d, rows := LongThread(), Turns();
    if x.outbound {
      assert rows[0] == x;
    } else {
      var id :| id in d.inbox && Item(d.inbox[id].envelope, false) == x;
      var k: nat :| k < 100 && id == ResultId(k);
      AnswerIsStored(k);
      assert rows[k + 1] == x;
    }
  }

  lemma TurnsInOrder()
    ensures InOrder(Turns()) && Distinct(Turns())
  {
    var rows := Turns();
    forall i, j | 0 <= i < j < 101 ensures Before(rows[i], rows[j]) && rows[i] != rows[j] {
      BeforeTotal(rows[i], rows[j]);
    }
  }

  lemma TurnsAreTheRows()
    ensures Lists(Turns(), ConversationRows(LongThread(), "c"))
    ensures forall x :: x in Turns() ==> OnRoute(x.envelope, ("self", "peer"))
  {
    hide ConversationRows, Turn, OnRoute, LongThread;
    TurnsInOrder();
    var rows := Turns();
    forall x | x in rows ensures x in ConversationRows(LongThread(), "c") && OnRoute(x.envelope, ("self", "peer")) {
      var i :| 0 <= i < 101 && rows[i] == x;
      TurnIsRow(i);
    }
    forall x | x in ConversationRows(LongThread(), "c") ensures x in rows {
      RowIsTurn(x);
    }
  }

  lemma TurnsAreTheView()
    ensures Filter(Sort(Turns()), ("self", "peer")) == Turns()
    ensures ListConversation(Turns(), ("self", "peer"), WINDOW) == Turns()[1..]
  {
    hide ConversationRows, Turn, OnRoute, LongThread, Filter, Sort, DatabaseOk;
    LongThreadIsOk();
    RowsAreKeyed(LongThread(), "c");
    TurnsInOrder();
    TurnsAreTheRows();
    ViewIsOrdered(Turns(), ConversationRows(LongThread(), "c"), ("self", "peer"));
    OrderedListsAgree(Filter(Sort(Turns()), ("self", "peer")), Turns());
  }

  function Next(): Inquiry { Inquiry("next", "subject", "body", Intent.Question, 60, Some(1000)) }

  lemma OnlyTheFirstIsNumbered(x: Item)
    requires x in Turns()[1..]
    ensures !Numbered(x) && x.envelope.payload.project == Some("p")
  {
    var i :| 0 <= i < 100 && Turns()[1..][i] == x;
    assert x == Turns()[i + 1];
  }

  lemma ThreadMayContinue()
    ensures ContinuedProject(LongThread(), "self", {"peer"}, ResultId(99)) == Some("p")
    ensures MayContinue(LongThread(), "self", {"peer"}, ResultId(99), Next().key, Turns())
  {
    hide ConversationRows, Filter, Sort, ValidEnvelope;
    AnswerIsStored(99);
    TurnsAreTheRows();
    TurnsAreTheView();
    var d, view := LongThread(), Turns()[1..];
    assert view[99] == Turns()[100];
    assert |"next"| != |"asked"|;
    assert Promise(d.outbox, ("peer", Next().key)).None?;
    forall x | x in view ensures x.envelope.payload.project == Some("p") {
      OnlyTheFirstIsNumbered(x);
    }
  }

  lemma NumberIsZero()
    ensures IsNextSequence(ListConversation(Turns(), ("self", "peer"), WINDOW), 0)
    ensures !Fresh(Filter(Sort(Turns()), ("self", "peer")), 0)
  {
    TurnsAreTheView();
    forall x | x in Turns()[1..] ensures !Numbered(x) {
      OnlyTheFirstIsNumbered(x);
    }
    assert Turns()[0] in Turns();
  }

  /** A hundred unnumbered results stand behind a request numbered 5. The follow-up to the
      last of them is accepted under the number 0 (`Services.FollowUpOutcome`). */
  lemma FollowUpFallsBehind()
    ensures var d, id := LongThread(), ResultId(99);
      && DatabaseOk(d) && MayContinue(d, "self", {"peer"}, id, Next().key, Turns())
      && ContinuedProject(d, "self", {"peer"}, id) == Some("p")
      && IsNextSequence(ListConversation(Turns(), ("self", "peer"), WINDOW), 0)
      && !Fresh(Filter(Sort(Turns()), ("self", "peer")), 0)
      && EnqueueSpec(d.outbox, FollowUp(d, "self", id, Next(), "p", 0, "n", 200), FollowUpComparison(Next())).1
         == Ok(EnqueueResult("n", Pending, false))
  {
    hide DatabaseOk, MayContinue, Fresh, IsNextSequence, Filter, Sort;
    LongThreadIsOk();
    ThreadMayContinue();
    NumberIsZero();
    AnswerIsStored(99);
    var d := LongThread();
    var e := FollowUp(d, "self", ResultId(99), Next(), "p", 0, "n", 200);
    assert |"next"| == 4 && |"next"| != |"asked"| && |"subject"| == 7 && |"body"| == 4 && |"p"| == 1;
    assert "peer"[0] == 'p' && "self"[0] == 's' && "n"[0] == 'n' && "q"[0] == 'q';
    assert Promise(d.outbox, (e.target, e.key)).None?;
    NewRequestIsAcceptedIff(d.outbox, e, FollowUpComparison(Next()));
  }
}
