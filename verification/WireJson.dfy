/** Messages as JSON values: the members the contracts give them, in any order. The
    conversion loses nothing, so a canonical text determines its message. */
module WireJson {
  import opened Envelopes
  import opened CanonicalJson

  // ---- Texts ----------------------------------------------------------------------------

  /** The UTF-16 code units of a character; characters are code points, not surrogates. */
  function UnitsOf(c: char): Text {
    var n := c as int;
    if n < 0x1_0000 then [n] else [0xD800 + (n - 0x1_0000) / 0x400, 0xDC00 + (n - 0x1_0000) % 0x400]
  }

  function Utf16(s: string): Text {
    if s == "" then [] else UnitsOf(s[0]) + Utf16(s[1..])
  }

  lemma UnitsDetermine(c: char, x: Text, d: char, y: Text)
    requires UnitsOf(c) + x == UnitsOf(d) + y
    ensures c == d && x == y
  {
    var s, t := UnitsOf(c) + x, UnitsOf(d) + y;
    assert s[0] == UnitsOf(c)[0] && t[0] == UnitsOf(d)[0];
    assert |UnitsOf(c)| == 2 <==> IsHigh(s[0]);
    assert |UnitsOf(d)| == 2 <==> IsHigh(t[0]);
    assert s[|UnitsOf(c)|..] == x && t[|UnitsOf(d)|..] == y;
    if |UnitsOf(c)| == 2 {
      assert s[1] == UnitsOf(c)[1] && t[1] == UnitsOf(d)[1];
    }
  }

  lemma {:induction false} Utf16Injective(s: string, t: string)
    requires Utf16(s) == Utf16(t)
    ensures s == t
  {
    if s != "" && t != "" {
      UnitsDetermine(s[0], Utf16(s[1..]), t[0], Utf16(t[1..]));
      Utf16Injective(s[1..], t[1..]);
      assert s == [s[0]] + s[1..] && t == [t[0]] + t[1..];
    }
  }

  function Str(s: string): Json { String(Utf16(s)) }

  function OptionalStr(s: Option<string>): Option<Json> {
    if s.Some? then Some(Str(s.value)) else None
  }

  function OptionalNumber(n: Option<int>): Option<Json> {
    if n.Some? then Some(Number(n.value)) else None
  }

  /** A time stands for its text. */
  function Time(at: int): Json { String(Encode(Number(at))) }

  lemma TimeInjective(a: int, b: int)
    requires SameValue(Time(a), Time(b))
    ensures a == b
  {
    CanonicalIsFaithful(Number(a), Number(b));
  }

  function OptionalTime(at: Option<int>): Option<Json> {
    if at.Some? then Some(Time(at.value)) else None
  }

  lemma StrInjective(s: string, t: string)
    requires SameValue(Str(s), Str(t))
    ensures s == t
  {
    Utf16Injective(s, t);
  }

  lemma OptionalStrInjective(s: Option<string>, t: Option<string>)
    requires Agree(OptionalStr(s), OptionalStr(t))
    ensures s == t
  {
    if s.Some? {
      StrInjective(s.value, t.value);
    }
  }

  lemma OptionalNumberInjective(a: Option<int>, b: Option<int>)
    requires Agree(OptionalNumber(a), OptionalNumber(b))
    ensures a == b
  {
  }

  lemma NumberInjective(a: int, b: int)
    requires SameValue(Number(a), Number(b))
    ensures a == b
  {
  }

  lemma OptionalTimeInjective(a: Option<int>, b: Option<int>)
    requires Agree(OptionalTime(a), OptionalTime(b))
    ensures a == b
  {
    if a.Some? {
      TimeInjective(a.value, b.value);
    }
  }

  // ---- Objects ---------------------------------------------------------------------------

  /** The members of an object: absent values are left out. */
  function Fields(keys: seq<string>, values: seq<Option<Json>>): Members
    requires |keys| == |values|
  {
    if keys == [] then End
    else if values[0].Some? then Member(Utf16(keys[0]), values[0].value, Fields(keys[1..], values[1..]))
    else Fields(keys[1..], values[1..])
  }

  lemma {:induction false} FieldsHold(keys: seq<string>, values: seq<Option<Json>>, k: Text)
    requires |keys| == |values| && k in Keys(Fields(keys, values))
    ensures exists i :: 0 <= i < |keys| && Utf16(keys[i]) == k
  {
    if values[0].None? || Utf16(keys[0]) != k {
      FieldsHold(keys[1..], values[1..], k);
      var i :| 0 <= i < |keys[1..]| && Utf16(keys[1..][i]) == k;
      assert keys[i + 1] == keys[1..][i];
    }
  }

  lemma FirstKeyIsNew(keys: seq<string>, values: seq<Option<Json>>)
    requires |keys| == |values| && Distinct(keys) && keys != []
    ensures Utf16(keys[0]) !in Keys(Fields(keys[1..], values[1..]))
  {
    if Utf16(keys[0]) in Keys(Fields(keys[1..], values[1..])) {
      FieldsHold(keys[1..], values[1..], Utf16(keys[0]));
      var j :| 0 <= j < |keys[1..]| && Utf16(keys[1..][j]) == Utf16(keys[0]);
      Utf16Injective(keys[1..][j], keys[0]);
      assert false;
    }
  }

  lemma {:induction false} FieldsFind(keys: seq<string>, values: seq<Option<Json>>, i: nat)
    requires |keys| == |values| && Distinct(keys) && i < |keys|
    ensures Find(Fields(keys, values), Utf16(keys[i])) == values[i]
  {
    if i == 0 {
      FirstKeyIsNew(keys, values);
    } else {
      FieldsFind(keys[1..], values[1..], i - 1);
      if Utf16(keys[0]) == Utf16(keys[i]) {
        Utf16Injective(keys[0], keys[i]);
      }
    }
  }

  lemma {:induction false} FieldsWellFormed(keys: seq<string>, values: seq<Option<Json>>)
    requires |keys| == |values| && Distinct(keys)
    requires forall i :: 0 <= i < |values| && values[i].Some? ==> WellFormed(values[i].value)
    ensures WellFormed(Object(Fields(keys, values)))
  {
    if keys != [] {
      FieldsWellFormed(keys[1..], values[1..]);
      FirstKeyIsNew(keys, values);
    }
  }

  lemma {:induction false} SameMembersFind(l: Members, m: Members, k: Text)
    requires SameMembers(l, m) && k in Keys(l)
    ensures Find(m, k).Some? && SameValue(Find(l, k).value, Find(m, k).value)
  {
    if l.key != k {
      SameMembersFind(l.rest, m, k);
    }
  }

  predicate Agree(a: Option<Json>, b: Option<Json>) {
    (a.Some? <==> b.Some?) && (a.Some? ==> SameValue(a.value, b.value))
  }

  /** Objects over the same keys are the same value only if they agree member by member. */
  lemma FieldsAgree(keys: seq<string>, v: seq<Option<Json>>, w: seq<Option<Json>>)
    requires |keys| == |v| == |w| && Distinct(keys)
    requires SameValue(Object(Fields(keys, v)), Object(Fields(keys, w)))
    ensures forall i :: 0 <= i < |keys| ==> Agree(v[i], w[i])
  {
    forall i | 0 <= i < |keys| ensures Agree(v[i], w[i]) {
      FieldsFind(keys, v, i);
      FieldsFind(keys, w, i);
      if v[i].Some? {
        SameMembersFind(Fields(keys, v), Fields(keys, w), Utf16(keys[i]));
      }
    }
  }

  lemma ListsAgree(l: Items, m: Items)
    requires SameValue(Array(l), Array(m))
    ensures SameItems(l, m)
  {
  }

  // ---- Payloads ------------------------------------------------------------------------------

  const VERSION := "1.0"

  function ReferenceName(k: ReferenceKind): string {
    match k
    case RepositoryPath => "repository_path"
    case GitCommit => "git_commit"
    case ObsidianNote => "obsidian_note"
    case TestRun => "test_run"
    case BridgeMessage => "bridge_message"
  }

  function KindName(k: Kind): string {
    match k
    case Message => "message"
    case TaskRequest => "task_request"
    case TaskResult => "task_result"
    case Status => "status"
    case Acknowledgement => "acknowledgement"
    case Heartbeat => "heartbeat"
  }

  function IntentName(i: Intent): string {
    match i
    case Inspect => "inspect"
    case Question => "question"
    case Review => "review"
  }

  function OutcomeName(o: Outcome): string {
    match o
    case Completed => "completed"
    case Rejected => "rejected"
    case Failed => "failed"
  }

  lemma NamesInjective()
    ensures forall a, b :: ReferenceName(a) == ReferenceName(b) ==> a == b
    ensures forall a, b :: KindName(a) == KindName(b) ==> a == b
    ensures forall a, b :: IntentName(a) == IntentName(b) ==> a == b
    ensures forall a, b :: OutcomeName(a) == OutcomeName(b) ==> a == b
  {
    forall a, b | ReferenceName(a) == ReferenceName(b) ensures a == b {
      assert |ReferenceName(a)| == |ReferenceName(b)| && ReferenceName(a)[0] == ReferenceName(b)[0];
    }
    forall a, b | KindName(a) == KindName(b) ensures a == b {
      assert |KindName(a)| == |KindName(b)| && KindName(a)[0] == KindName(b)[0];
    }
    forall a, b | IntentName(a) == IntentName(b) ensures a == b {
      assert IntentName(a)[0] == IntentName(b)[0];
    }
    forall a, b | OutcomeName(a) == OutcomeName(b) ensures a == b {
      assert OutcomeName(a)[0] == OutcomeName(b)[0];
    }
  }

  const REFERENCE_KEYS := ["kind", "value"]

  function ReferenceFields(r: Reference): seq<Option<Json>> {
    [Some(Str(ReferenceName(r.kind))), Some(Str(r.value))]
  }

  function ReferenceJson(r: Reference): Json { Object(Fields(REFERENCE_KEYS, ReferenceFields(r))) }

  lemma ReferenceFaithful(a: Reference, b: Reference)
    ensures WellFormed(ReferenceJson(a))
    ensures SameValue(ReferenceJson(a), ReferenceJson(b)) ==> a == b
  {
    hide Fields, SameValue, Utf16;
    assert Distinct(REFERENCE_KEYS) by { assert |REFERENCE_KEYS[0]| != |REFERENCE_KEYS[1]|; }
    var v, w := ReferenceFields(a), ReferenceFields(b);
    FieldsWellFormed(REFERENCE_KEYS, v);
    if SameValue(ReferenceJson(a), ReferenceJson(b)) {
      FieldsAgree(REFERENCE_KEYS, v, w);
      assert Agree(v[0], w[0]) && Agree(v[1], w[1]);
      NamesInjective();
      StrInjective(ReferenceName(a.kind), ReferenceName(b.kind));
      StrInjective(a.value, b.value);
    }
  }

  function ReferenceItems(s: seq<Reference>): Items {
    if s == [] then Nil else Cons(ReferenceJson(s[0]), ReferenceItems(s[1..]))
  }

  lemma {:induction false} ReferencesFaithful(s: seq<Reference>, t: seq<Reference>)
    ensures WellFormedItems(ReferenceItems(s))
    ensures SameItems(ReferenceItems(s), ReferenceItems(t)) ==> s == t
  {
    if s != [] {
      ReferencesFaithful(s[1..], if t == [] then [] else t[1..]);
      ReferenceFaithful(s[0], if t == [] then s[0] else t[0]);
      if t != [] && SameItems(ReferenceItems(s), ReferenceItems(t)) {
        assert s == [s[0]] + s[1..] && t == [t[0]] + t[1..];
      }
    }
  }

  function FingerprintItems(s: seq<Fingerprint>): Items {
    if s == [] then Nil else Cons(Str(s[0].text), FingerprintItems(s[1..]))
  }

  lemma {:induction false} FingerprintsFaithful(s: seq<Fingerprint>, t: seq<Fingerprint>)
    ensures WellFormedItems(FingerprintItems(s))
    ensures SameItems(FingerprintItems(s), FingerprintItems(t)) ==> s == t
  {
    if s != [] {
      FingerprintsFaithful(s[1..], if t == [] then [] else t[1..]);
      if t != [] && SameItems(FingerprintItems(s), FingerprintItems(t)) {
        StrInjective(s[0].text, t[0].text);
        assert s == [s[0]] + s[1..] && t == [t[0]] + t[1..];
      }
    }
  }

  const DISPATCH_KEYS := ["executor", "access", "timeout_seconds", "evidence_mode"]

  function DispatchFields(d: Dispatch): seq<Option<Json>> {
    [Some(Str("codex_cli")), Some(Str("read_only")), OptionalNumber(d.timeoutSeconds),
     if d.pinnedGit then Some(Str("pinned_git")) else None]
  }

  function DispatchJson(d: Dispatch): Json { Object(Fields(DISPATCH_KEYS, DispatchFields(d))) }

  lemma DispatchFaithful(a: Dispatch, b: Dispatch)
    ensures WellFormed(DispatchJson(a))
    ensures SameValue(DispatchJson(a), DispatchJson(b)) ==> a == b
  {
    hide Fields, SameValue, Utf16;
    assert Distinct(DISPATCH_KEYS) by {
      assert forall i, j :: 0 <= i < j < 4 ==> |DISPATCH_KEYS[i]| != |DISPATCH_KEYS[j]|;
    }
    var v, w := DispatchFields(a), DispatchFields(b);
    FieldsWellFormed(DISPATCH_KEYS, v);
    if SameValue(DispatchJson(a), DispatchJson(b)) {
      FieldsAgree(DISPATCH_KEYS, v, w);
      assert Agree(v[2], w[2]) && Agree(v[3], w[3]);
      OptionalNumberInjective(a.timeoutSeconds, b.timeoutSeconds);
    }
  }

  const REQUEST_KEYS := ["protocol_version", "intent", "access_mode"]

  function RequestFields(r: CoordinationRequest): seq<Option<Json>> {
    [Some(Str(VERSION)), Some(Str(IntentName(r.intent))), Some(Str("read_only"))]
  }

  function RequestJson(r: CoordinationRequest): Json { Object(Fields(REQUEST_KEYS, RequestFields(r))) }

  lemma RequestFaithful(a: CoordinationRequest, b: CoordinationRequest)
    ensures WellFormed(RequestJson(a))
    ensures SameValue(RequestJson(a), RequestJson(b)) ==> a == b
  {
    hide Fields, SameValue, Utf16;
    assert Distinct(REQUEST_KEYS) by {
      assert forall i, j :: 0 <= i < j < 3 ==> |REQUEST_KEYS[i]| != |REQUEST_KEYS[j]|;
    }
    var v, w := RequestFields(a), RequestFields(b);
    FieldsWellFormed(REQUEST_KEYS, v);
    if SameValue(RequestJson(a), RequestJson(b)) {
      FieldsAgree(REQUEST_KEYS, v, w);
      assert Agree(v[1], w[1]);
      NamesInjective();
      StrInjective(IntentName(a.intent), IntentName(b.intent));
    }
  }

  const RESULT_KEYS := ["protocol_version", "request_message_id", "outcome"]

  function ResultFields(r: CoordinationResult): seq<Option<Json>> {
    [Some(Str(VERSION)), Some(Str(r.requestId)), Some(Str(OutcomeName(r.outcome)))]
  }

  function ResultJson(r: CoordinationResult): Json { Object(Fields(RESULT_KEYS, ResultFields(r))) }

  lemma ResultFaithful(a: CoordinationResult, b: CoordinationResult)
    ensures WellFormed(ResultJson(a))
    ensures SameValue(ResultJson(a), ResultJson(b)) ==> a == b
  {
    hide Fields, SameValue, Utf16;
    assert Distinct(RESULT_KEYS) by {
      assert forall i, j :: 0 <= i < j < 3 ==> |RESULT_KEYS[i]| != |RESULT_KEYS[j]|;
    }
    var v, w := ResultFields(a), ResultFields(b);
    FieldsWellFormed(RESULT_KEYS, v);
    if SameValue(ResultJson(a), ResultJson(b)) {
      FieldsAgree(RESULT_KEYS, v, w);
      assert Agree(v[1], w[1]) && Agree(v[2], w[2]);
      NamesInjective();
      StrInjective(a.requestId, b.requestId);
      StrInjective(OutcomeName(a.outcome), OutcomeName(b.outcome));
    }
  }

  const CONTEXT_KEYS := ["protocol_version", "root_request_id", "parent_request_id", "depth", "max_depth",
                         "ancestry_fingerprints"]

  function ContextFields(c: Context): seq<Option<Json>> {
    [Some(Str(VERSION)), Some(Str(c.rootId)), OptionalStr(c.parentId), Some(Number(c.depth)), Some(Number(c.maxDepth)),
     Some(Array(FingerprintItems(c.ancestry)))]
  }

  function ContextJson(c: Context): Json { Object(Fields(CONTEXT_KEYS, ContextFields(c))) }

  lemma ContextFaithful(a: Context, b: Context)
    ensures WellFormed(ContextJson(a))
    ensures SameValue(ContextJson(a), ContextJson(b)) ==> a == b
  {
    hide Fields, SameValue, Utf16;
    assert Distinct(CONTEXT_KEYS) by {
      assert forall i, j :: 0 <= i < j < 6 ==> |CONTEXT_KEYS[i]| != |CONTEXT_KEYS[j]|;
    }
    var v, w := ContextFields(a), ContextFields(b);
    FingerprintsFaithful(a.ancestry, b.ancestry);
    FieldsWellFormed(CONTEXT_KEYS, v);
    if SameValue(ContextJson(a), ContextJson(b)) {
      FieldsAgree(CONTEXT_KEYS, v, w);
      assert Agree(v[1], w[1]) && Agree(v[2], w[2]) && Agree(v[3], w[3]) && Agree(v[4], w[4]) && Agree(v[5], w[5]);
      StrInjective(a.rootId, b.rootId);
      OptionalStrInjective(a.parentId, b.parentId);
      NumberInjective(a.depth, b.depth);
      NumberInjective(a.maxDepth, b.maxDepth);
      ListsAgree(FingerprintItems(a.ancestry), FingerprintItems(b.ancestry));
    }
  }

  const PAYLOAD_KEYS := ["subject", "body", "project", "evidence", "dispatch", "coordination_request",
                         "coordination_result", "consultation_context"]

  function PayloadFields(p: Payload): seq<Option<Json>> {
    [Some(Str(p.subject)), Some(Str(p.body)), OptionalStr(p.project), Some(Array(ReferenceItems(p.evidence))),
     if p.dispatch.Some? then Some(DispatchJson(p.dispatch.value)) else None,
     if p.request.Some? then Some(RequestJson(p.request.value)) else None,
     if p.result.Some? then Some(ResultJson(p.result.value)) else None,
     if p.context.Some? then Some(ContextJson(p.context.value)) else None]
  }

  function PayloadJson(p: Payload): Json { Object(Fields(PAYLOAD_KEYS, PayloadFields(p))) }

  lemma PayloadKeysDistinct()
    ensures Distinct(PAYLOAD_KEYS)
  {
    forall i, j | 0 <= i < j < 8 ensures PAYLOAD_KEYS[i] != PAYLOAD_KEYS[j] {
      assert |PAYLOAD_KEYS[i]| != |PAYLOAD_KEYS[j]| || PAYLOAD_KEYS[i][0] != PAYLOAD_KEYS[j][0]
             || PAYLOAD_KEYS[i][13] != PAYLOAD_KEYS[j][13];
    }
  }

  lemma OptionalPartsFaithful(a: Payload, b: Payload)
    requires forall i :: 0 <= i < 8 ==> Agree(PayloadFields(a)[i], PayloadFields(b)[i])
    ensures a.dispatch == b.dispatch && a.request == b.request && a.result == b.result && a.context == b.context
  {
    hide Fields, SameValue, Utf16;
    var v, w := PayloadFields(a), PayloadFields(b);
    assert Agree(v[4], w[4]) && Agree(v[5], w[5]) && Agree(v[6], w[6]) && Agree(v[7], w[7]);
    if a.dispatch.Some? { DispatchFaithful(a.dispatch.value, b.dispatch.value); }
    if a.request.Some? { RequestFaithful(a.request.value, b.request.value); }
    if a.result.Some? { ResultFaithful(a.result.value, b.result.value); }
    if a.context.Some? { ContextFaithful(a.context.value, b.context.value); }
  }

  lemma PayloadWellFormed(p: Payload)
    ensures WellFormed(PayloadJson(p))
  {
    hide Fields, SameValue, Utf16;
    PayloadKeysDistinct();
    ReferencesFaithful(p.evidence, p.evidence);
    if p.dispatch.Some? { DispatchFaithful(p.dispatch.value, p.dispatch.value); }
    if p.request.Some? { RequestFaithful(p.request.value, p.request.value); }
    if p.result.Some? { ResultFaithful(p.result.value, p.result.value); }
    if p.context.Some? { ContextFaithful(p.context.value, p.context.value); }
    FieldsWellFormed(PAYLOAD_KEYS, PayloadFields(p));
  }

  lemma PayloadFaithful(a: Payload, b: Payload)
    requires SameValue(PayloadJson(a), PayloadJson(b))
    ensures a == b
  {
    hide Fields, SameValue, Utf16;
    PayloadKeysDistinct();
    var v, w := PayloadFields(a), PayloadFields(b);
    FieldsAgree(PAYLOAD_KEYS, v, w);
    assert Agree(v[0], w[0]) && Agree(v[1], w[1]) && Agree(v[2], w[2]) && Agree(v[3], w[3]);
    StrInjective(a.subject, b.subject);
    StrInjective(a.body, b.body);
    OptionalStrInjective(a.project, b.project);
    ReferencesFaithful(a.evidence, b.evidence);
    ListsAgree(ReferenceItems(a.evidence), ReferenceItems(b.evidence));
    OptionalPartsFaithful(a, b);
  }

  // ---- Envelopes ------------------------------------------------------------------------------

  /** An ideal hash stands for the canonical text it was computed from. */
  function HashJson(h: PayloadHash): Json { String(CanonicalText(PayloadJson(h.payload))) }

  lemma HashFaithful(a: PayloadHash, b: PayloadHash)
    requires SameValue(HashJson(a), HashJson(b))
    ensures a == b
  {
    PayloadWellFormed(a.payload);
    PayloadWellFormed(b.payload);
    CanonicalIsFaithful(PayloadJson(a.payload), PayloadJson(b.payload));
    PayloadFaithful(a.payload, b.payload);
  }

  const ENVELOPE_KEYS := ["schema_version", "message_id", "idempotency_key", "origin_system", "target_system", "kind",
                          "conversation_id", "correlation_id", "causation_id", "stream_id", "sequence_number",
                          "created_at_utc", "expires_at_utc", "payload", "payload_sha256"]

  function EnvelopeFields(e: Envelope): seq<Option<Json>> {
    [Some(Str(VERSION)), Some(Str(e.id)), Some(Str(e.key)), Some(Str(e.origin)), Some(Str(e.target)),
     Some(Str(KindName(e.kind))), Some(Str(e.conversation)), OptionalStr(e.correlation), OptionalStr(e.causation),
     Some(Str(e.stream)), if e.sequence.Some? then Some(Number(e.sequence.value)) else None,
     Some(Time(e.createdAt)), OptionalTime(e.expiresAt), Some(PayloadJson(e.payload)), Some(HashJson(e.payloadSha))]
  }

  function EnvelopeJson(e: Envelope): Json { Object(Fields(ENVELOPE_KEYS, EnvelopeFields(e))) }

  /** The keys differ in their length or in their first or last letter. */
  lemma EnvelopeKeysDistinct()
    ensures Distinct(ENVELOPE_KEYS)
  {
    forall i, j | 0 <= i < j < 15 ensures ENVELOPE_KEYS[i] != ENVELOPE_KEYS[j] {
      var a, b := ENVELOPE_KEYS[i], ENVELOPE_KEYS[j];
      assert |a| != |b| || a[0] != b[0] || a[|a| - 1] != b[|b| - 1];
    }
  }

  lemma EnvelopeWellFormed(e: Envelope)
    ensures WellFormed(EnvelopeJson(e))
  {
    hide Fields, SameValue, Utf16;
    EnvelopeKeysDistinct();
    PayloadWellFormed(e.payload);
    FieldsWellFormed(ENVELOPE_KEYS, EnvelopeFields(e));
  }

  lemma HeaderFaithful(a: Envelope, b: Envelope)
    requires forall i :: 0 <= i < 15 ==> Agree(EnvelopeFields(a)[i], EnvelopeFields(b)[i])
    ensures a.id == b.id && a.key == b.key && a.origin == b.origin && a.target == b.target && a.kind == b.kind
    ensures a.conversation == b.conversation && a.correlation == b.correlation && a.causation == b.causation
  {
    hide Fields, SameValue, Utf16;
    var v, w := EnvelopeFields(a), EnvelopeFields(b);
    assert Agree(v[1], w[1]) && Agree(v[2], w[2]) && Agree(v[3], w[3]) && Agree(v[4], w[4]) && Agree(v[5], w[5]);
    assert Agree(v[6], w[6]) && Agree(v[7], w[7]) && Agree(v[8], w[8]);
    NamesInjective();
    StrInjective(a.id, b.id);
    StrInjective(a.key, b.key);
    StrInjective(a.origin, b.origin);
    StrInjective(a.target, b.target);
    StrInjective(KindName(a.kind), KindName(b.kind));
    StrInjective(a.conversation, b.conversation);
    OptionalStrInjective(a.correlation, b.correlation);
    OptionalStrInjective(a.causation, b.causation);
  }

  lemma RestFaithful(a: Envelope, b: Envelope)
    requires forall i :: 0 <= i < 15 ==> Agree(EnvelopeFields(a)[i], EnvelopeFields(b)[i])
    ensures a.stream == b.stream && a.sequence == b.sequence && a.createdAt == b.createdAt && a.expiresAt == b.expiresAt
    ensures a.payload == b.payload && a.payloadSha == b.payloadSha
  {
    hide Fields, SameValue, Utf16;
    var v, w := EnvelopeFields(a), EnvelopeFields(b);
    assert Agree(v[9], w[9]) && Agree(v[10], w[10]) && Agree(v[11], w[11]) && Agree(v[12], w[12]);
    assert Agree(v[13], w[13]) && Agree(v[14], w[14]);
    StrInjective(a.stream, b.stream);
    if a.sequence.Some? { NumberInjective(a.sequence.value, b.sequence.value); }
    TimeInjective(a.createdAt, b.createdAt);
    OptionalTimeInjective(a.expiresAt, b.expiresAt);
    PayloadFaithful(a.payload, b.payload);
    HashFaithful(a.payloadSha, b.payloadSha);
  }

  /** The JSON value of an envelope determines the envelope. */
  lemma EnvelopeFaithful(a: Envelope, b: Envelope)
    requires SameValue(EnvelopeJson(a), EnvelopeJson(b))
    ensures a == b
  {
    hide Fields, SameValue, Utf16;
    EnvelopeKeysDistinct();
    FieldsAgree(ENVELOPE_KEYS, EnvelopeFields(a), EnvelopeFields(b));
    HeaderFaithful(a, b);
    RestFaithful(a, b);
  }
}
