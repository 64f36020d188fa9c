/** The string operations the schemas apply: trimming, collapsing white space
    and lower-casing (of the ASCII letters). */
module Text {
  import opened Envelopes

  predicate IsSpace(c: char) {
    || c in {' ', '\t', '\n', '\r', '\U{B}', '\U{C}', '\U{A0}', '\U{1680}', '\U{202F}', '\U{205F}', '\U{3000}', '\U{FEFF}'}
    || '\U{2000}' <= c <= '\U{200A}'
    || '\U{2028}' <= c <= '\U{2029}'
  }

  /** The white space of ECMAScript, by code point. */
  lemma SpacesAre(c: char)
    ensures IsSpace(c) <==>
      c as int in {0x9, 0xA, 0xB, 0xC, 0xD, 0x20, 0xA0, 0x1680, 0x2000, 0x2001, 0x2002, 0x2003, 0x2004, 0x2005, 0x2006,
                   0x2007, 0x2008, 0x2009, 0x200A, 0x2028, 0x2029, 0x202F, 0x205F, 0x3000, 0xFEFF}
  {
  }

  function TrimLeft(s: string): (r: string) {
    if s != "" && IsSpace(s[0]) then TrimLeft(s[1..]) else s
  }

  function TrimRight(s: string): (r: string) {
    if s != "" && IsSpace(s[|s| - 1]) then TrimRight(s[..|s| - 1]) else s
  }

  function Trim(s: string): string {
    TrimRight(TrimLeft(s))
  }

  function LowerChar(c: char): char {
    if 'A' <= c <= 'Z' then (c as int + 32) as char else c
  }

  function Lower(s: string): (r: string)
    ensures |r| == |s| && forall k :: 0 <= k < |s| ==> r[k] == LowerChar(s[k])
  {
    seq(|s|, k requires 0 <= k < |s| => LowerChar(s[k]))
  }

  predicate IsAlphanumeric(c: char) {
    'a' <= c <= 'z' || 'A' <= c <= 'Z' || '0' <= c <= '9'
  }

  /** A resource id is trimmed, checked and lower-cased. */
  function ParseResource(s: string): Option<string> {
    var t := Trim(s);
    if && 1 <= |t| <= 120
       && IsAlphanumeric(t[0])
       && forall k :: 0 <= k < |t| ==> IsAlphanumeric(t[k]) || t[k] in {'.', '_', '-'}
    then Some(Lower(t))
    else None
  }

  // ---- Trimming twice is trimming once ---------------------------------------

  lemma {:induction false} TrimLeftStarts(s: string)
    ensures TrimLeft(s) == "" || !IsSpace(TrimLeft(s)[0])
  {
    if s != "" && IsSpace(s[0]) {
      TrimLeftStarts(s[1..]);
    }
  }

  lemma {:induction false} TrimRightKeeps(s: string)
    ensures TrimRight(s) <= s
    ensures TrimRight(s) == "" || !IsSpace(TrimRight(s)[|TrimRight(s)| - 1])
    ensures s != "" && !IsSpace(s[0]) ==> TrimRight(s) != ""
  {
    if s != "" && IsSpace(s[|s| - 1]) {
      TrimRightKeeps(s[..|s| - 1]);
    }
  }

  lemma TrimTwice(s: string)
    ensures Trim(Trim(s)) == Trim(s)
  {
    TrimLeftStarts(s);
    TrimRightKeeps(TrimLeft(s));
    assert TrimLeft(Trim(s)) == Trim(s);
  }

  lemma {:induction false} TrimShortens(s: string)
    ensures |Trim(s)| <= |s|
  {
    TrimLeftShortens(s);
    TrimRightKeeps(TrimLeft(s));
  }

  lemma {:induction false} TrimLeftShortens(s: string)
    ensures |TrimLeft(s)| <= |s|
  {
    if s != "" && IsSpace(s[0]) {
      TrimLeftShortens(s[1..]);
    }
  }

  predicate AllSpace(s: string) { forall k :: 0 <= k < |s| ==> IsSpace(s[k]) }

  lemma {:induction false} TrimLeftDrops(s: string) returns (dropped: string)
    ensures s == dropped + TrimLeft(s) && AllSpace(dropped)
  {
    dropped := "";
    if s != "" && IsSpace(s[0]) {
      var more := TrimLeftDrops(s[1..]);
      dropped := [s[0]] + more;
    }
  }

  lemma {:induction false} TrimRightDrops(s: string) returns (dropped: string)
    ensures s == TrimRight(s) + dropped && AllSpace(dropped)
  {
    dropped := "";
    if s != "" && IsSpace(s[|s| - 1]) {
      var more := TrimRightDrops(s[..|s| - 1]);
      dropped := more + [s[|s| - 1]];
    }
  }

  /** Trimming drops the white space at both ends, all of it and nothing else. */
  lemma TrimMeans(s: string) returns (before: string, after: string)
    ensures s == before + Trim(s) + after && AllSpace(before) && AllSpace(after)
    ensures Trim(s) != "" ==> !IsSpace(Trim(s)[0]) && !IsSpace(Trim(s)[|Trim(s)| - 1])
  {
    before := TrimLeftDrops(s);
    after := TrimRightDrops(TrimLeft(s));
    TrimLeftStarts(s);
    TrimRightKeeps(TrimLeft(s));
  }

  /** Letters, digits and the three signs, with a letter or digit in front. */
  predicate NamesResource(t: string) {
    && 1 <= |t| <= 120 && t[0] !in {'.', '_', '-'}
    && forall k :: 0 <= k < |t| ==>
         'a' <= t[k] <= 'z' || 'A' <= t[k] <= 'Z' || '0' <= t[k] <= '9' || t[k] in {'.', '_', '-'}
  }

  lemma NothingToTrim(t: string)
    requires forall k :: 0 <= k < |t| ==> !IsSpace(t[k])
    ensures Trim(t) == t
  {
  }

  /** The id of a resource is its name without the white space around it, in lower case; it
      names itself, so that any spelling leads to the same resource. */
  lemma ResourceIsNormal(s: string)
    ensures ParseResource(s).Some? <==> NamesResource(Trim(s))
    ensures ParseResource(s).Some? ==>
      var r := ParseResource(s).value;
      && |r| == |Trim(s)| && ParseResource(r) == Some(r)
      && forall k :: 0 <= k < |r| ==>
           r[k] as int == Trim(s)[k] as int + if 'A' <= Trim(s)[k] <= 'Z' then 32 else 0
  {
    var t := Trim(s);
    if ParseResource(s).Some? {
      NothingToTrim(Lower(t));
      assert Lower(Lower(t)) == Lower(t);
    }
  }

  // ---- Normalized text ---------------------------------------------------------

  /** Every run of white space becomes one space. */
  function Collapse(s: string): string
    decreases |s|
  {
    if s == "" then ""
    else if !IsSpace(s[0]) then [s[0]] + Collapse(s[1..])
    else
      TrimLeftShortens(s[1..]);
      [' '] + Collapse(TrimLeft(s))
  }

  function Normalize(s: string): string {
    Lower(Collapse(Trim(s)))
  }

  lemma NormalizeIgnoresTrim(s: string)
    ensures Normalize(Trim(s)) == Normalize(s)
  {
    TrimTwice(s);
  }

  lemma {:induction false} CollapseHasNoNewline(s: string)
    ensures forall k :: 0 <= k < |Collapse(s)| ==> Collapse(s)[k] != '\n'
    decreases |s|
  {
    if s != "" {
      if IsSpace(s[0]) {
        TrimLeftShortens(s[1..]);
        CollapseHasNoNewline(TrimLeft(s));
      } else {
        CollapseHasNoNewline(s[1..]);
      }
    }
  }

  lemma NormalizeHasNoNewline(s: string)
    ensures '\n' !in Normalize(s)
  {
    CollapseHasNoNewline(Trim(s));
    var c := Collapse(Trim(s));
    forall k | 0 <= k < |c| ensures Normalize(s)[k] != '\n' {
      assert c[k] != '\n';
    }
  }

  function FirstLine(s: string): string {
    if s == "" || s[0] == '\n' then "" else [s[0]] + FirstLine(s[1..])
  }

  lemma {:induction false} FirstLineIs(a: string, x: string)
    requires '\n' !in a
    ensures FirstLine(a + "\n" + x) == a
  {
    if a != "" {
      FirstLineIs(a[1..], x);
      assert (a + "\n" + x)[1..] == a[1..] + "\n" + x;
    } else {
      assert a + "\n" + x == "\n" + x;
    }
  }

  /** A line break separates texts that contain none. */
  lemma SplitAtNewline(a: string, x: string, b: string, y: string)
    requires '\n' !in a && '\n' !in b && a + "\n" + x == b + "\n" + y
    ensures a == b && x == y
  {
    FirstLineIs(a, x);
    FirstLineIs(b, y);
    assert x == (a + "\n" + x)[|a| + 1..] && y == (b + "\n" + y)[|b| + 1..];
  }

  // ---- Words ---------------------------------------------------------------------

  /** The text up to its first white space. */
  function Word(s: string): (w: string)
    ensures w <= s && forall k :: 0 <= k < |w| ==> !IsSpace(w[k])
    ensures |w| < |s| ==> IsSpace(s[|w|])
  {
    if s == "" || IsSpace(s[0]) then "" else [s[0]] + Word(s[1..])
  }

  /** The words of a text, wherever the white space is. */
  function Words(s: string): seq<string>
    decreases |s|
  {
    var t := TrimLeft(s);
    TrimLeftShortens(s);
    TrimLeftStarts(s);
    if t == "" then [] else [Word(t)] + Words(t[|Word(t)|..])
  }

  /** Words with one space between any two. */
  function Spaced(words: seq<string>): string {
    if |words| == 0 then "" else if |words| == 1 then words[0] else words[0] + " " + Spaced(words[1..])
  }

  predicate ProperWords(words: seq<string>) {
    forall w :: w in words ==> w != "" && forall k :: 0 <= k < |w| ==> !IsSpace(w[k])
  }

  lemma {:induction false} WordsAreProper(s: string)
    ensures ProperWords(Words(s))
    decreases |s|
  {
    var t := TrimLeft(s);
    TrimLeftShortens(s);
    TrimLeftStarts(s);
    if t != "" {
      WordsAreProper(t[|Word(t)|..]);
    }
  }

  lemma {:induction false} TrimLeftAppends(s: string, c: char)
    requires IsSpace(c)
    ensures TrimLeft(s + [c]) == if TrimLeft(s) == "" then "" else TrimLeft(s) + [c]
  {
    if s == "" {
      assert (s + [c])[1..] == "";
    } else if IsSpace(s[0]) {
      TrimLeftAppends(s[1..], c);
      assert (s + [c])[1..] == s[1..] + [c];
    }
  }

  lemma {:induction false} WordAppends(s: string, c: char)
    requires IsSpace(c)
    ensures Word(s + [c]) == Word(s)
  {
    if s != "" && !IsSpace(s[0]) {
      WordAppends(s[1..], c);
      assert (s + [c])[1..] == s[1..] + [c];
    }
  }

  lemma {:induction false} WordsAppend(s: string, c: char)
    requires IsSpace(c)
    ensures Words(s + [c]) == Words(s)
    decreases |s|
  {
    hide IsSpace;
    var t := TrimLeft(s);
    TrimLeftShortens(s);
    TrimLeftStarts(s);
    TrimLeftAppends(s, c);
    if t != "" {
      WordAppends(t, c);
      var n := |Word(t)|;
      assert (t + [c])[n..] == t[n..] + [c];
      WordsAppend(t[n..], c);
    }
  }

  lemma {:induction false} WordsIgnoreTrimRight(s: string)
    ensures Words(TrimRight(s)) == Words(s)
  {
    hide IsSpace;
    if s != "" && IsSpace(s[|s| - 1]) {
      WordsIgnoreTrimRight(s[..|s| - 1]);
      WordsAppend(s[..|s| - 1], s[|s| - 1]);
      assert s == s[..|s| - 1] + [s[|s| - 1]];
    }
  }

  lemma WordsIgnoreTrimLeft(s: string)
    ensures Words(TrimLeft(s)) == Words(s)
  {
    TrimLeftStarts(s);
    assert TrimLeft(TrimLeft(s)) == TrimLeft(s);
  }

  lemma {:induction false} CollapseWord(t: string)
    ensures Collapse(t) == Word(t) + Collapse(t[|Word(t)|..])
    decreases |t|
  {
    hide IsSpace, TrimLeft;
    if t != "" && !IsSpace(t[0]) {
      CollapseWord(t[1..]);
      assert t[|Word(t)|..] == t[1..][|Word(t[1..])|..];
    } else {
      assert t[0..] == t;
    }
  }

  lemma {:induction false} TrimLeftKeepsEnd(s: string)
    requires s != "" && !IsSpace(s[|s| - 1])
    ensures TrimLeft(s) != "" && TrimLeft(s)[|TrimLeft(s)| - 1] == s[|s| - 1]
  {
    hide IsSpace;
    if IsSpace(s[0]) {
      TrimLeftKeepsEnd(s[1..]);
    }
  }

  lemma {:induction false} CollapseIsWords(t: string)
    requires t != "" ==> !IsSpace(t[0]) && !IsSpace(t[|t| - 1])
    ensures Collapse(t) == Spaced(Words(t))
    decreases |t|
  {
    hide IsSpace;
    if t != "" {
      var rest := t[|Word(t)|..];
      CollapseWord(t);
      assert TrimLeft(t) == t;
      if rest != "" {
        assert IsSpace(rest[0]) && rest[|rest| - 1] == t[|t| - 1];
        TrimLeftKeepsEnd(rest);
        TrimLeftShortens(rest);
        TrimLeftStarts(rest);
        CollapseIsWords(TrimLeft(rest));
        WordsIgnoreTrimLeft(rest);
        assert Collapse(rest) == " " + Collapse(TrimLeft(rest));
        assert Words(t)[1..] == Words(rest) != [];
      } else {
        assert Words(t) == [Word(t)];
      }
    }
  }

  /** Normalizing leaves the words of a text, in lower case, with one space between them. */
  lemma NormalizeIsWords(s: string)
    ensures Normalize(s) == Lower(Spaced(Words(s)))
  {
    TrimLeftStarts(s);
    TrimRightKeeps(TrimLeft(s));
    WordsIgnoreTrimLeft(s);
    WordsIgnoreTrimRight(TrimLeft(s));
    CollapseIsWords(Trim(s));
  }

  function LowerWords(words: seq<string>): seq<string> {
    seq(|words|, k requires 0 <= k < |words| => Lower(words[k]))
  }

  /** The same words in the same order, up to the case of their letters. */
  predicate SameWords(a: string, b: string) {
    LowerWords(Words(a)) == LowerWords(Words(b))
  }

  lemma {:induction false} LowerSpaced(words: seq<string>)
    ensures Lower(Spaced(words)) == Spaced(LowerWords(words))
  {
    if |words| > 1 {
      LowerSpaced(words[1..]);
      assert LowerWords(words)[1..] == LowerWords(words[1..]);
      assert Lower(Spaced(words)) == Lower(words[0]) + " " + Lower(Spaced(words[1..]));
    }
  }

  lemma LowerWordsAreProper(words: seq<string>)
    requires ProperWords(words)
    ensures ProperWords(LowerWords(words))
  {
    forall w | w in LowerWords(words) ensures w != "" && forall k :: 0 <= k < |w| ==> !IsSpace(w[k]) {
      var i :| 0 <= i < |words| && w == Lower(words[i]);
      assert words[i] in words;
    }
  }

  lemma {:induction false} WordOfSpaced(words: seq<string>)
    requires ProperWords(words) && words != []
    ensures Word(Spaced(words)) == words[0]
    ensures |words| == 1 ==> Spaced(words) == words[0]
    ensures |words| > 1 ==> Spaced(words)[|words[0]| + 1..] == Spaced(words[1..]) && |words[0]| < |Spaced(words)|
  {
    assert IsSpace(' ');
    hide IsSpace;
    var w := words[0];
    assert w in words;
    if |words| == 1 {
      WordOf(w, "");
      assert w + "" == w;
    } else {
      WordOf(w, " " + Spaced(words[1..]));
      assert Spaced(words) == w + (" " + Spaced(words[1..]));
    }
  }

  lemma {:induction false} WordOf(w: string, more: string)
    requires (forall k :: 0 <= k < |w| ==> !IsSpace(w[k])) && (more != "" ==> IsSpace(more[0]))
    ensures Word(w + more) == w
  {
    hide IsSpace;
    if w == "" {
      assert w + more == more;
    } else {
      WordOf(w[1..], more);
      assert (w + more)[1..] == w[1..] + more;
    }
  }

  lemma SpacedIsEmptyIff(words: seq<string>)
    requires ProperWords(words)
    ensures Spaced(words) == "" <==> words == []
  {
    assert words != [] ==> words[0] in words;
  }

  lemma {:induction false} SpacedIsInjective(a: seq<string>, b: seq<string>)
    requires ProperWords(a) && ProperWords(b) && Spaced(a) == Spaced(b)
    ensures a == b
  {
    hide IsSpace;
    SpacedIsEmptyIff(a);
    SpacedIsEmptyIff(b);
    if a != [] && b != [] {
      WordOfSpaced(a);
      WordOfSpaced(b);
      if |a| > 1 && |b| > 1 {
        assert forall w :: w in a[1..] ==> w in a;
        assert forall w :: w in b[1..] ==> w in b;
        SpacedIsInjective(a[1..], b[1..]);
        assert a == [a[0]] + a[1..] && b == [b[0]] + b[1..];
      }
    }
  }

  /** Two texts are normalized to the same one exactly when they have the same words. */
  lemma NormalizedAlikeIff(a: string, b: string)
    ensures Normalize(a) == Normalize(b) <==> SameWords(a, b)
  {
    NormalizeIsWords(a);
    NormalizeIsWords(b);
    LowerSpaced(Words(a));
    LowerSpaced(Words(b));
    WordsAreProper(a);
    WordsAreProper(b);
    LowerWordsAreProper(Words(a));
    LowerWordsAreProper(Words(b));
    if Normalize(a) == Normalize(b) {
      SpacedIsInjective(LowerWords(Words(a)), LowerWords(Words(b)));
    }
  }
}
