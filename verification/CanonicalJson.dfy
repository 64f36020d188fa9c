/** Canonical JSON text: members sorted by key, no white space, and the escapes of
    `JSON.stringify`. Two values get the same text exactly when they are equal up
    to the order of their members. */
module CanonicalJson {
  import opened Envelopes

  /** A UTF-16 code unit; texts are sequences of them. */
  type Unit = u: int | 0 <= u < 0x1_0000
  type Text = seq<Unit>

  const QUOTE: Unit := 0x22
  const BACKSLASH: Unit := 0x5C
  const COMMA: Unit := 0x2C
  const COLON: Unit := 0x3A
  const MINUS: Unit := 0x2D
  const OPEN_LIST: Unit := 0x5B
  const CLOSE_LIST: Unit := 0x5D
  const OPEN_OBJECT: Unit := 0x7B
  const CLOSE_OBJECT: Unit := 0x7D

  datatype Json =
    | Null
    | Bool(value: bool)
    | Number(number: int)
    | String(text: Text)
    | Array(items: Items)
    | Object(members: Members)

  datatype Items = Nil | Cons(head: Json, tail: Items)

  datatype Members = End | Member(key: Text, value: Json, rest: Members)

  // ---- Strings --------------------------------------------------------------------

  predicate IsHigh(u: Unit) { 0xD800 <= u < 0xDC00 }
  predicate IsLow(u: Unit) { 0xDC00 <= u < 0xE000 }

  function HexDigit(d: int): Unit
    requires 0 <= d < 16
  {
    if d < 10 then 0x30 + d else 0x57 + d
  }

  function HexValue(u: Unit): int { if u < 0x3A then u - 0x30 else u - 0x57 }

  function Hex(u: Unit): (h: Text)
    ensures |h| == 4
  {
    var q0 := u / 16;
    var q1 := q0 / 16;
    [HexDigit(q1 / 16), HexDigit(q1 % 16), HexDigit(q0 % 16), HexDigit(u % 16)]
  }

  /** The letter of a short escape, if there is one. */
  function ShortEscape(u: Unit): Option<Unit> {
    if u == QUOTE then Some(QUOTE)
    else if u == BACKSLASH then Some(BACKSLASH)
    else if u == 0x08 then Some(0x62)
    else if u == 0x09 then Some(0x74)
    else if u == 0x0A then Some(0x6E)
    else if u == 0x0C then Some(0x66)
    else if u == 0x0D then Some(0x72)
    else None
  }

  function EscapeUnit(u: Unit): Text {
    if ShortEscape(u).Some? then [BACKSLASH, ShortEscape(u).value]
    else if u < 0x20 || IsHigh(u) || IsLow(u) then [BACKSLASH, 0x75] + Hex(u)
    else [u]
  }

  /** Surrogates stand for themselves in pairs and are escaped alone. */
  function Escape(s: Text): Text {
    if s == [] then []
    else if |s| >= 2 && IsHigh(s[0]) && IsLow(s[1]) then [s[0], s[1]] + Escape(s[2..])
    else EscapeUnit(s[0]) + Escape(s[1..])
  }

  function LongShort(letter: Unit): Unit {
    if letter == 0x62 then 0x08
    else if letter == 0x74 then 0x09
    else if letter == 0x6E then 0x0A
    else if letter == 0x66 then 0x0C
    else if letter == 0x72 then 0x0D
    else letter
  }

  function FromHex(a: Unit, b: Unit, c: Unit, d: Unit): Unit {
    var n := 0x1000 * HexValue(a) + 0x100 * HexValue(b) + 0x10 * HexValue(c) + HexValue(d);
    if 0 <= n < 0x1_0000 then n else 0
  }

  /** Reads a string up to its closing quote. */
  function Unescape(t: Text): (Text, Text) {
    if t == [] then ([], [])
    else if t[0] == QUOTE then ([], t[1..])
    else if t[0] == BACKSLASH && |t| >= 6 && t[1] == 0x75 then
      var (s, rest) := Unescape(t[6..]);
      ([FromHex(t[2], t[3], t[4], t[5])] + s, rest)
    else if t[0] == BACKSLASH && |t| >= 2 then
      var (s, rest) := Unescape(t[2..]);
      ([LongShort(t[1])] + s, rest)
    else
      var (s, rest) := Unescape(t[1..]);
      ([t[0]] + s, rest)
  }

  lemma HexRoundTrip(u: Unit)
    ensures var h := Hex(u); FromHex(h[0], h[1], h[2], h[3]) == u
  {
  }

  lemma UnescapePlain(u: Unit, t: Text)
    requires u != QUOTE && u != BACKSLASH
    ensures Unescape([u] + t) == ([u] + Unescape(t).0, Unescape(t).1)
  {
    assert ([u] + t)[1..] == t;
  }

  lemma UnescapeShort(u: Unit, t: Text)
    requires ShortEscape(u).Some?
    ensures Unescape([BACKSLASH, ShortEscape(u).value] + t) == ([u] + Unescape(t).0, Unescape(t).1)
  {
    var e := [BACKSLASH, ShortEscape(u).value] + t;
    assert e[2..] == t && e[0] == BACKSLASH && e[1] == ShortEscape(u).value;
  }

  lemma UnescapeHex(u: Unit, t: Text)
    ensures Unescape([BACKSLASH, 0x75] + Hex(u) + t) == ([u] + Unescape(t).0, Unescape(t).1)
  {
    var h := Hex(u);
    var e := [BACKSLASH, 0x75] + h + t;
    HexRoundTrip(u);
    assert e[6..] == t && e[0] == BACKSLASH && e[1] == 0x75;
    assert e[2] == h[0] && e[3] == h[1] && e[4] == h[2] && e[5] == h[3];
  }

  lemma UnescapeUnit(u: Unit, t: Text)
    ensures Unescape(EscapeUnit(u) + t) == ([u] + Unescape(t).0, Unescape(t).1)
  {
    if ShortEscape(u).Some? {
      UnescapeShort(u, t);
    } else if u < 0x20 || IsHigh(u) || IsLow(u) {
      UnescapeHex(u, t);
    } else {
      UnescapePlain(u, t);
    }
  }

  lemma UnescapePair(h: Unit, l: Unit, s: Text, t: Text, rest: Text)
    requires IsHigh(h) && IsLow(l) && Unescape(t) == (s, rest)
    ensures Unescape([h] + ([l] + t)) == ([h] + ([l] + s), rest)
  {
    UnescapePlain(l, t);
    UnescapePlain(h, [l] + t);
  }

  lemma UnescapeClose(t: Text)
    ensures Unescape([QUOTE] + t) == ([], t)
  {
    assert ([QUOTE] + t)[1..] == t;
  }

  lemma Regroup(p: Text, q: Text, x: Text)
    ensures (p + q) + x == p + (q + x)
  {
  }

  lemma RegroupPair(h: Unit, l: Unit, q: Text, x: Text)
    ensures ([h, l] + q) + x == [h] + ([l] + (q + x))
  {
  }

  /** Escaping loses nothing: the string and what follows it are read back. */
  lemma {:induction false} EscapeRoundTrip(s: Text, t: Text)
    ensures Unescape(Escape(s) + ([QUOTE] + t)) == (s, t)
    decreases |s|
  {
    var close := [QUOTE] + t;
    if s == [] {
      assert [] + close == close;
      UnescapeClose(t);
    } else if |s| >= 2 && IsHigh(s[0]) && IsLow(s[1]) {
      var r := Escape(s[2..]);
      EscapeRoundTrip(s[2..], t);
      RegroupPair(s[0], s[1], r, close);
      UnescapePair(s[0], s[1], s[2..], r + close, t);
      assert s == [s[0]] + ([s[1]] + s[2..]);
    } else {
      var r := Escape(s[1..]);
      EscapeRoundTrip(s[1..], t);
      Regroup(EscapeUnit(s[0]), r, close);
      UnescapeUnit(s[0], r + close);
      assert s == [s[0]] + s[1..];
    }
  }

  // ---- Numbers --------------------------------------------------------------------

  predicate IsDigit(u: Unit) { 0x30 <= u < 0x3A }

  function Digits(n: nat): (t: Text)
    ensures t != [] && forall i :: 0 <= i < |t| ==> IsDigit(t[i])
  {
    if n < 10 then [0x30 + n] else Digits(n / 10) + [0x30 + n % 10]
  }

  function Value(t: Text): int {
    if t == [] then 0 else 10 * Value(t[..|t| - 1]) + t[|t| - 1] as int - 0x30
  }

  lemma {:induction false} DigitsRoundTrip(n: nat)
    ensures Value(Digits(n)) == n
  {
    if n < 10 {
      assert Digits(n)[..0] == [];
    } else {
      DigitsRoundTrip(n / 10);
      assert Digits(n)[..|Digits(n)| - 1] == Digits(n / 10);
    }
  }

  function LeadingDigits(t: Text): Text {
    if t == [] || !IsDigit(t[0]) then [] else [t[0]] + LeadingDigits(t[1..])
  }

  /** Nothing after a number may read on as part of it. */
  predicate Stops(t: Text) { t == [] || !IsDigit(t[0]) }

  lemma {:induction false} LeadingDigitsOf(d: Text, t: Text)
    requires Stops(t) && forall i :: 0 <= i < |d| ==> IsDigit(d[i])
    ensures LeadingDigits(d + t) == d
  {
    if d == [] {
      assert d + t == t;
    } else {
      LeadingDigitsOf(d[1..], t);
      assert (d + t)[1..] == d[1..] + t;
    }
  }

  function NumberText(n: int): Text { if n < 0 then [MINUS] + Digits(-n) else Digits(n) }

  lemma DigitsSplit(m: nat, n: nat, x: Text, y: Text)
    requires Digits(m) + x == Digits(n) + y && Stops(x) && Stops(y)
    ensures m == n && x == y
  {
    LeadingDigitsOf(Digits(m), x);
    LeadingDigitsOf(Digits(n), y);
    DigitsRoundTrip(m);
    DigitsRoundTrip(n);
    assert x == (Digits(m) + x)[|Digits(m)|..] && y == (Digits(n) + y)[|Digits(n)|..];
  }

  lemma NumberSplit(m: int, n: int, x: Text, y: Text)
    requires NumberText(m) + x == NumberText(n) + y && Stops(x) && Stops(y)
    ensures m == n && x == y
  {
    SameStart(NumberText(m), x, NumberText(n), y);
    assert m < 0 <==> n < 0;
    if m < 0 {
      SameRest([MINUS], Digits(-m), x, Digits(-n), y);
      DigitsSplit(-m, -n, x, y);
    } else {
      DigitsSplit(m, n, x, y);
    }
  }

  lemma SameStart(p: Text, x: Text, q: Text, y: Text)
    requires p + x == q + y && p != [] && q != []
    ensures p[0] == q[0]
  {
    assert (p + x)[0] == p[0] && (q + y)[0] == q[0];
  }

  /** What follows a common prefix is the same. */
  lemma SameRest(c: Text, p: Text, x: Text, q: Text, y: Text)
    requires (c + p) + x == (c + q) + y
    ensures p + x == q + y
  {
    assert p + x == ((c + p) + x)[|c|..] && q + y == ((c + q) + y)[|c|..];
  }

  lemma SameTail(c: Text, x: Text, y: Text)
    requires c + x == c + y
    ensures x == y
  {
    assert x == (c + x)[|c|..] && y == (c + y)[|c|..];
  }

  // ---- Values in the order they stand ------------------------------------------------

  function Separator(first: bool): Text { if first then [] else [COMMA] }

  function Quote(s: Text): Text { [QUOTE] + Escape(s) + [QUOTE] }

  function Encode(v: Json): Text {
    match v
    case Null => [0x6E, 0x75, 0x6C, 0x6C]
    case Bool(b) => if b then [0x74, 0x72, 0x75, 0x65] else [0x66, 0x61, 0x6C, 0x73, 0x65]
    case Number(n) => NumberText(n)
    case String(s) => Quote(s)
    case Array(items) => [OPEN_LIST] + EncodeItems(items, true)
    case Object(members) => [OPEN_OBJECT] + EncodeMembers(members, true)
  }

  /** Items separated by commas, and the closing bracket. */
  function EncodeItems(l: Items, first: bool): Text {
    match l
    case Nil => [CLOSE_LIST]
    case Cons(v, rest) => Separator(first) + (Encode(v) + EncodeItems(rest, false))
  }

  function EncodeMembers(l: Members, first: bool): Text {
    match l
    case End => [CLOSE_OBJECT]
    case Member(k, v, rest) =>
      Separator(first) + (Quote(k) + ([COLON] + (Encode(v) + EncodeMembers(rest, false))))
  }

  lemma QuoteSplit(s: Text, t: Text, x: Text, y: Text)
    requires Quote(s) + x == Quote(t) + y
    ensures s == t && x == y
  {
    assert Quote(s) + x == [QUOTE] + (Escape(s) + ([QUOTE] + x));
    assert Quote(t) + y == [QUOTE] + (Escape(t) + ([QUOTE] + y));
    SameTail([QUOTE], Escape(s) + ([QUOTE] + x), Escape(t) + ([QUOTE] + y));
    EscapeRoundTrip(s, x);
    EscapeRoundTrip(t, y);
  }

  /** The first unit of a value tells what kind of value it is. */
  lemma EncodeStarts(v: Json)
    ensures Encode(v) != []
    ensures var u := Encode(v)[0];
      match v
      case Null => u == 0x6E
      case Bool(b) => u == if b then 0x74 else 0x66
      case Number(_) => u == MINUS || IsDigit(u)
      case String(_) => u == QUOTE
      case Array(_) => u == OPEN_LIST
      case Object(_) => u == OPEN_OBJECT
  {
  }

  lemma ItemsStop(l: Items, x: Text)
    ensures Stops(EncodeItems(l, false) + x)
  {
  }

  lemma MembersStop(l: Members, x: Text)
    ensures Stops(EncodeMembers(l, false) + x)
  {
  }

  lemma LiteralSplit(a: Json, x: Text, y: Text)
    requires Encode(a) + x == Encode(a) + y
    ensures x == y
  {
    SameTail(Encode(a), x, y);
  }

  /** Texts are uniquely decodable: a text that starts with two encodings starts
      with one. */
  lemma {:induction false} EncodeSplit(a: Json, b: Json, x: Text, y: Text)
    requires Encode(a) + x == Encode(b) + y && Stops(x) && Stops(y)
    ensures a == b && x == y
    decreases a
  {
    EncodeStarts(a);
    EncodeStarts(b);
    SameStart(Encode(a), x, Encode(b), y);
    match a
    case Null => LiteralSplit(a, x, y);
    case Bool(_) => LiteralSplit(a, x, y);
    case Number(m) => NumberSplit(m, b.number, x, y);
    case String(s) => QuoteSplit(s, b.text, x, y);
    case Array(l) =>
      SameRest([OPEN_LIST], EncodeItems(l, true), x, EncodeItems(b.items, true), y);
      ItemsSplit(l, b.items, true, x, y);
    case Object(l) =>
      SameRest([OPEN_OBJECT], EncodeMembers(l, true), x, EncodeMembers(b.members, true), y);
      MembersSplit(l, b.members, true, x, y);
  }

  lemma ItemsStart(l: Items, first: bool)
    ensures EncodeItems(l, first) != [] && (l.Nil? <==> EncodeItems(l, first)[0] == CLOSE_LIST)
  {
    if l.Cons? {
      EncodeStarts(l.head);
      var e := Encode(l.head) + EncodeItems(l.tail, false);
      assert e[0] == Encode(l.head)[0];
      assert EncodeItems(l, first)[0] == if first then e[0] else COMMA;
    }
  }

  lemma {:induction false} ItemsSplit(l: Items, m: Items, first: bool, x: Text, y: Text)
    requires EncodeItems(l, first) + x == EncodeItems(m, first) + y && Stops(x) && Stops(y)
    ensures l == m && x == y
    decreases l
  {
    ItemsStart(l, first);
    ItemsStart(m, first);
    SameStart(EncodeItems(l, first), x, EncodeItems(m, first), y);
    match l
    case Nil => SameTail([CLOSE_LIST], x, y);
    case Cons(v, rest) =>
      var p, q := EncodeItems(rest, false), EncodeItems(m.tail, false);
      SameRest(Separator(first), Encode(v) + p, x, Encode(m.head) + q, y);
      Regroup(Encode(v), p, x);
      Regroup(Encode(m.head), q, y);
      ItemsStop(rest, x);
      ItemsStop(m.tail, y);
      EncodeSplit(v, m.head, p + x, q + y);
      ItemsSplit(rest, m.tail, false, x, y);
  }

  lemma MembersStart(l: Members, first: bool)
    ensures EncodeMembers(l, first) != [] && (l.End? <==> EncodeMembers(l, first)[0] == CLOSE_OBJECT)
  {
    if l.Member? {
      var e := Quote(l.key) + ([COLON] + (Encode(l.value) + EncodeMembers(l.rest, false)));
      assert e[0] == QUOTE;
      assert EncodeMembers(l, first)[0] == if first then e[0] else COMMA;
    }
  }

  lemma {:induction false} MembersSplit(l: Members, m: Members, first: bool, x: Text, y: Text)
    requires EncodeMembers(l, first) + x == EncodeMembers(m, first) + y && Stops(x) && Stops(y)
    ensures l == m && x == y
    decreases l
  {
    MembersStart(l, first);
    MembersStart(m, first);
    SameStart(EncodeMembers(l, first), x, EncodeMembers(m, first), y);
    match l
    case End => SameTail([CLOSE_OBJECT], x, y);
    case Member(k, v, rest) =>
      var p, q := EncodeMembers(rest, false), EncodeMembers(m.rest, false);
      var p1, q1 := [COLON] + (Encode(v) + p), [COLON] + (Encode(m.value) + q);
      SameRest(Separator(first), Quote(k) + p1, x, Quote(m.key) + q1, y);
      Regroup(Quote(k), p1, x);
      Regroup(Quote(m.key), q1, y);
      QuoteSplit(k, m.key, p1 + x, q1 + y);
      SameRest([COLON], Encode(v) + p, x, Encode(m.value) + q, y);
      Regroup(Encode(v), p, x);
      Regroup(Encode(m.value), q, y);
      MembersStop(rest, x);
      MembersStop(m.rest, y);
      EncodeSplit(v, m.value, p + x, q + y);
      MembersSplit(rest, m.rest, false, x, y);
  }

  // ---- Sorting the members -------------------------------------------------------------

  /** The order of `<` on strings: by code units. */
  predicate Less(a: Text, b: Text) {
    if b == [] then false
    else if a == [] then true
    else if a[0] != b[0] then a[0] < b[0]
    else Less(a[1..], b[1..])
  }

  lemma {:induction false} LessTotal(a: Text, b: Text)
    ensures a == b || Less(a, b) || Less(b, a)
    ensures !(Less(a, b) && Less(b, a)) && !Less(a, a)
  {
    if a != [] {
      LessTotal(a[1..], a[1..]);
      if b != [] && a[0] == b[0] {
        LessTotal(a[1..], b[1..]);
        assert a == [a[0]] + a[1..] && b == [b[0]] + b[1..];
      }
    }
  }

  lemma {:induction false} LessTransitive(a: Text, b: Text, c: Text)
    requires Less(a, b) && Less(b, c)
    ensures Less(a, c)
  {
    if a != [] && a[0] == b[0] && b[0] == c[0] {
      LessTransitive(a[1..], b[1..], c[1..]);
    }
  }

  function Insert(k: Text, v: Json, l: Members): Members {
    match l
    case End => Member(k, v, End)
    case Member(j, w, rest) => if Less(j, k) then Member(j, w, Insert(k, v, rest)) else Member(k, v, l)
  }

  function Sort(l: Members): Members {
    match l
    case End => End
    case Member(k, v, rest) => Insert(k, v, Sort(rest))
  }

  /** A value with the members of all its objects sorted. */
  function Sorted(v: Json): Json {
    match v
    case Array(items) => Array(SortedItems(items))
    case Object(members) => Object(Sort(SortedMembers(members)))
    case _ => v
  }

  function SortedItems(l: Items): Items {
    match l
    case Nil => Nil
    case Cons(v, rest) => Cons(Sorted(v), SortedItems(rest))
  }

  function SortedMembers(l: Members): Members {
    match l
    case End => End
    case Member(k, v, rest) => Member(k, Sorted(v), SortedMembers(rest))
  }

  function CanonicalText(v: Json): Text { Encode(Sorted(v)) }

  // ---- Equality up to member order --------------------------------------------------------

  function Keys(l: Members): set<Text> {
    match l
    case End => {}
    case Member(k, _, rest) => {k} + Keys(rest)
  }

  function Find(l: Members, k: Text): (v: Option<Json>)
    ensures v.Some? <==> k in Keys(l)
  {
    match l
    case End => None
    case Member(j, w, rest) => if j == k then Some(w) else Find(rest, k)
  }

  /** Objects have each key once. */
  predicate WellFormed(v: Json) {
    match v
    case Array(items) => WellFormedItems(items)
    case Object(members) => WellFormedMembers(members)
    case _ => true
  }

  predicate WellFormedItems(l: Items) {
    l.Cons? ==> WellFormed(l.head) && WellFormedItems(l.tail)
  }

  predicate WellFormedMembers(l: Members) {
    l.Member? ==> WellFormed(l.value) && WellFormedMembers(l.rest) && l.key !in Keys(l.rest)
  }

  /** The same value, whatever order members stand in. */
  predicate SameValue(a: Json, b: Json)
    decreases a
  {
    match (a, b)
    case (Array(l), Array(m)) => SameItems(l, m)
    case (Object(l), Object(m)) => Keys(l) == Keys(m) && SameMembers(l, m)
    case _ => a == b
  }

  predicate SameItems(l: Items, m: Items)
    decreases l
  {
    match (l, m)
    case (Nil, Nil) => true
    case (Cons(v, rest), Cons(w, others)) => SameValue(v, w) && SameItems(rest, others)
    case _ => false
  }

  /** Every member on the left has an equal one on the right. */
  predicate SameMembers(l: Members, m: Members)
    decreases l
  {
    l.Member? ==>
      && Find(m, l.key).Some? && SameValue(l.value, Find(m, l.key).value)
      && SameMembers(l.rest, m)
  }

  predicate InOrder(l: Members) {
    l.Member? ==> (forall k :: k in Keys(l.rest) ==> Less(l.key, k)) && InOrder(l.rest)
  }

  lemma {:induction false} InsertFinds(k: Text, v: Json, l: Members, j: Text)
    requires k !in Keys(l)
    ensures Keys(Insert(k, v, l)) == Keys(l) + {k}
    ensures Find(Insert(k, v, l), j) == if j == k then Some(v) else Find(l, j)
  {
    if l.Member? {
      InsertFinds(k, v, l.rest, j);
    }
  }

  lemma {:induction false} InsertOrders(k: Text, v: Json, l: Members)
    requires k !in Keys(l) && InOrder(l)
    ensures InOrder(Insert(k, v, l))
  {
    if l.Member? {
      LessTotal(l.key, k);
      InsertFinds(k, v, l.rest, k);
      if Less(l.key, k) {
        InsertOrders(k, v, l.rest);
      } else {
        forall j | j in Keys(l) ensures Less(k, j) {
          if j != l.key { LessTransitive(k, l.key, j); }
        }
      }
    }
  }

  lemma {:induction false} SortFinds(l: Members, j: Text)
    requires WellFormedMembers(l)
    ensures Keys(Sort(SortedMembers(l))) == Keys(l)
    ensures Find(Sort(SortedMembers(l)), j) == if j in Keys(l) then Some(Sorted(Find(l, j).value)) else None
    ensures InOrder(Sort(SortedMembers(l)))
  {
    if l.Member? {
      SortFinds(l.rest, j);
      InsertFinds(l.key, Sorted(l.value), Sort(SortedMembers(l.rest)), j);
      InsertOrders(l.key, Sorted(l.value), Sort(SortedMembers(l.rest)));
    }
  }

  /** A sorted list of members is determined by what it holds under each key. */
  lemma {:induction false} OrderedMembersAgree(l: Members, m: Members)
    requires InOrder(l) && InOrder(m) && forall k :: Find(l, k) == Find(m, k)
    ensures l == m
  {
    assert m.Member? ==> Find(l, m.key) == Find(m, m.key);
    if l.Member? {
      assert Find(m, l.key).Some?;
      LessTotal(l.key, m.key);
      LessTotal(l.key, l.key);
      forall k ensures Find(l.rest, k) == Find(m.rest, k) {
        assert Find(l, k) == Find(m, k);
      }
      OrderedMembersAgree(l.rest, m.rest);
    }
  }

  lemma {:induction false} FoundIsWellFormed(l: Members, k: Text)
    requires WellFormedMembers(l) && k in Keys(l)
    ensures WellFormed(Find(l, k).value)
  {
    if k != l.key {
      FoundIsWellFormed(l.rest, k);
    }
  }

  ghost predicate AgreeUnder(l: Members, m: Members, k: Text) {
    Find(l, k).Some? && Find(m, k).Some? && Sorted(Find(l, k).value) == Sorted(Find(m, k).value)
  }

  lemma {:induction false} SameMembersAgree(l: Members, m: Members)
    requires WellFormedMembers(l) && WellFormedMembers(m)
    ensures SameMembers(l, m) <==> forall k :: k in Keys(l) ==> AgreeUnder(l, m, k)
    decreases l, 0
  {
    if l.Member? {
      SameMembersAgree(l.rest, m);
      if Find(m, l.key).Some? {
        FoundIsWellFormed(m, l.key);
        SameIsSorted(l.value, Find(m, l.key).value);
      }
      assert AgreeUnder(l, m, l.key) <==> Find(m, l.key).Some? && SameValue(l.value, Find(m, l.key).value);
      forall k | k in Keys(l.rest) ensures AgreeUnder(l, m, k) <==> AgreeUnder(l.rest, m, k) {
      }
    }
  }

  lemma {:induction false} SameItemsAgree(l: Items, m: Items)
    requires WellFormedItems(l) && WellFormedItems(m)
    ensures SameItems(l, m) <==> SortedItems(l) == SortedItems(m)
    decreases l, 0
  {
    if l.Cons? && m.Cons? {
      SameIsSorted(l.head, m.head);
      SameItemsAgree(l.tail, m.tail);
    }
  }

  lemma SortedObjectsAgree(l: Members, m: Members)
    requires WellFormedMembers(l) && WellFormedMembers(m)
    ensures Sorted(Object(l)) == Sorted(Object(m)) <==>
              Keys(l) == Keys(m) && forall k :: k in Keys(l) ==> AgreeUnder(l, m, k)
  {
    var s, t := Sort(SortedMembers(l)), Sort(SortedMembers(m));
    forall k
      ensures Find(s, k) == if k in Keys(l) then Some(Sorted(Find(l, k).value)) else None
      ensures Find(t, k) == if k in Keys(m) then Some(Sorted(Find(m, k).value)) else None
    {
      SortFinds(l, k);
      SortFinds(m, k);
    }
    SortFinds(l, []);
    SortFinds(m, []);
    if Keys(l) == Keys(m) && forall k :: k in Keys(l) ==> AgreeUnder(l, m, k) {
      forall k ensures Find(s, k) == Find(t, k) {
        assert k in Keys(l) ==> AgreeUnder(l, m, k);
      }
      OrderedMembersAgree(s, t);
    }
    if s == t {
      forall k | k in Keys(l) ensures AgreeUnder(l, m, k) {
        assert Find(s, k) == Find(t, k);
      }
    }
  }

  lemma {:induction false} SameIsSorted(a: Json, b: Json)
    requires WellFormed(a) && WellFormed(b)
    ensures SameValue(a, b) <==> Sorted(a) == Sorted(b)
    decreases a, 1
  {
    match (a, b)
    case (Array(l), Array(m)) => SameItemsAgree(l, m);
    case (Object(l), Object(m)) =>
      SameMembersAgree(l, m);
      SortedObjectsAgree(l, m);
    case _ =>
  }

  /** Canonical encoding is faithful: the texts are equal exactly when the values
      are equal up to member order. */
  lemma CanonicalIsFaithful(a: Json, b: Json)
    requires WellFormed(a) && WellFormed(b)
    ensures CanonicalText(a) == CanonicalText(b) <==> SameValue(a, b)
  {
    SameIsSorted(a, b);
    if CanonicalText(a) == CanonicalText(b) {
      assert Encode(Sorted(a)) + [] == Encode(Sorted(b)) + [];
      EncodeSplit(Sorted(a), Sorted(b), [], []);
    }
  }
}
