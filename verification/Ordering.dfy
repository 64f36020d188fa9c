/** "ORDER BY time, id LIMIT n": the order in which rows are picked. */
module Ordering {

  datatype Stamp = Stamp(at: int, id: string)

  predicate StrLess(a: string, b: string) {
    if b == "" then false
    else if a == "" then true
    else if a[0] != b[0] then a[0] < b[0]
    else StrLess(a[1..], b[1..])
  }

  predicate Earlier(a: Stamp, b: Stamp) {
    a.at < b.at || (a.at == b.at && StrLess(a.id, b.id))
  }

  lemma {:induction false} StrTotal(a: string, b: string)
    ensures a == b || StrLess(a, b) || StrLess(b, a)
    ensures !(StrLess(a, b) && StrLess(b, a)) && !StrLess(a, a)
  {
    if a != "" {
      if b != "" && a[0] == b[0] {
        StrTotal(a[1..], b[1..]);
        assert a == [a[0]] + a[1..] && b == [b[0]] + b[1..];
      }
      StrTotal(a[1..], a[1..]);
    }
  }

  /** After a common beginning `a` ends first or has the smaller character. */
  ghost predicate InDictionaryOrder(a: string, b: string) {
    exists k :: 0 <= k <= |a| && k < |b| && a[..k] == b[..k] && (k == |a| || a[k] < b[k])
  }

  /** `StrLess` is the order of a dictionary. */
  lemma {:induction false} StrLessIsDictionaryOrder(a: string, b: string)
    ensures StrLess(a, b) <==> InDictionaryOrder(a, b)
  {
    assert a[..0] == b[..0];
    if a != "" && b != "" {
      StrLessIsDictionaryOrder(a[1..], b[1..]);
      if a[0] == b[0] && InDictionaryOrder(a[1..], b[1..]) {
        var k :| 0 <= k <= |a| - 1 && k < |b| - 1 && a[1..][..k] == b[1..][..k] && (k == |a| - 1 || a[1..][k] < b[1..][k]);
        assert a[..k + 1] == [a[0]] + a[1..][..k] && b[..k + 1] == [b[0]] + b[1..][..k];
      }
      if InDictionaryOrder(a, b) {
        var k :| 0 <= k <= |a| && k < |b| && a[..k] == b[..k] && (k == |a| || a[k] < b[k]);
        if k > 0 {
          assert a[0] == a[..k][0] && b[0] == b[..k][0];
          assert a[1..][..k - 1] == a[..k][1..] && b[1..][..k - 1] == b[..k][1..];
        }
      }
    }
  }

  lemma {:induction false} StrTransitive(a: string, b: string, c: string)
    requires StrLess(a, b) && StrLess(b, c)
    ensures StrLess(a, c)
  {
    if a != "" && a[0] == b[0] && b[0] == c[0] {
      StrTransitive(a[1..], b[1..], c[1..]);
    }
  }

  lemma EarlierTotal(a: Stamp, b: Stamp)
    ensures a == b || Earlier(a, b) || Earlier(b, a)
    ensures !(Earlier(a, b) && Earlier(b, a)) && !Earlier(a, a)
  {
    StrTotal(a.id, b.id);
    StrTotal(a.id, a.id);
  }

  lemma EarlierTransitive(a: Stamp, b: Stamp, c: Stamp)
    requires Earlier(a, b) && Earlier(b, c)
    ensures Earlier(a, c)
  {
    if a.at == b.at == c.at {
      StrTransitive(a.id, b.id, c.id);
    }
  }

  predicate IsEarliest(m: Stamp, s: set<Stamp>) {
    m in s && forall x :: x in s ==> x == m || Earlier(m, x)
  }

  lemma {:induction false} EarliestExists(s: set<Stamp>)
    requires s != {}
    ensures exists m :: IsEarliest(m, s)
    decreases |s|
  {
    var x :| x in s;
    var rest := s - {x};
    if rest == {} {
      assert s == {x};
      assert IsEarliest(x, s);
    } else {
      EarliestExists(rest);
      var m :| IsEarliest(m, rest);
      EarlierTotal(x, m);
      if Earlier(x, m) {
        forall y | y in s ensures y == x || Earlier(x, y) {
          if y != x && y != m {
            EarlierTransitive(x, m, y);
          }
        }
        assert IsEarliest(x, s);
      } else {
        assert IsEarliest(m, s);
      }
    }
  }

  lemma EarliestUnique(s: set<Stamp>, a: Stamp, b: Stamp)
    requires IsEarliest(a, s) && IsEarliest(b, s)
    ensures a == b
  {
    EarlierTotal(a, b);
  }

  function Earliest(s: set<Stamp>): (m: Stamp)
    requires s != {}
    ensures IsEarliest(m, s)
  {
    EarliestExists(s);
    assert forall a, b :: IsEarliest(a, s) && IsEarliest(b, s) ==> a == b by {
      forall a, b | IsEarliest(a, s) && IsEarliest(b, s) ensures a == b { EarliestUnique(s, a, b); }
    }
    var m :| IsEarliest(m, s); m
  }

  /** The ids of the first `n` rows, in order. */
  function FirstIds(s: set<Stamp>, n: nat): (ids: seq<string>)
    decreases n
  {
    if n == 0 || s == {} then []
    else
      var m := Earliest(s);
      [m.id] + FirstIds(s - {m}, n - 1)
  }

  /** No two stamps share an id. */
  ghost predicate OnePerId(s: set<Stamp>) {
    forall a, b :: a in s && b in s && a.id == b.id ==> a == b
  }

  ghost function IdsOf(s: set<Stamp>): set<string> {
    set x | x in s :: x.id
  }

  lemma {:induction false} FirstIdsDistinct(s: set<Stamp>, n: nat)
    requires OnePerId(s)
    ensures |FirstIds(s, n)| == if n < |s| then n else |s|
    ensures forall i :: 0 <= i < |FirstIds(s, n)| ==> FirstIds(s, n)[i] in IdsOf(s)
    ensures forall i, j :: 0 <= i < j < |FirstIds(s, n)| ==> FirstIds(s, n)[i] != FirstIds(s, n)[j]
    decreases n
  {
    if n != 0 && s != {} {
      var m := Earliest(s);
      var rest := s - {m};
      FirstIdsDistinct(rest, n - 1);
      assert IdsOf(rest) <= IdsOf(s) && m.id !in IdsOf(rest);
    }
  }

  lemma {:induction false} FirstIdsInOrder(s: set<Stamp>, n: nat, taken: Stamp, left: Stamp)
    requires OnePerId(s)
    requires taken in s && left in s && taken.id in FirstIds(s, n) && left.id !in FirstIds(s, n)
    ensures Earlier(taken, left)
    decreases n
  {
    var m := Earliest(s);
    if taken != m {
      FirstIdsInOrder(s - {m}, n - 1, taken, left);
    }
  }

  /** The rows are taken in order. */
  lemma {:induction false} FirstIdsAscend(s: set<Stamp>, n: nat, i: nat, j: nat)
    requires OnePerId(s) && i < j < |FirstIds(s, n)|
    ensures exists a, b :: a in s && b in s && a.id == FirstIds(s, n)[i] && b.id == FirstIds(s, n)[j] && Earlier(a, b)
    decreases n
  {
    var m := Earliest(s);
    var rest := s - {m};
    if i > 0 {
      FirstIdsAscend(rest, n - 1, i - 1, j - 1);
    } else {
      FirstIdsDistinct(rest, n - 1);
      assert FirstIds(rest, n - 1)[j - 1] in IdsOf(rest);
      var b :| b in rest && b.id == FirstIds(rest, n - 1)[j - 1];
      assert Earlier(m, b);
    }
  }

  /** What the query promises: distinct candidates, as many as the limit
      allows, and none left out that comes before one taken. */
  lemma FirstIdsPicks(s: set<Stamp>, n: nat)
    requires OnePerId(s)
    ensures var ids := FirstIds(s, n);
      && |ids| == (if n < |s| then n else |s|)
      && (forall i, j :: 0 <= i < j < |ids| ==> ids[i] != ids[j])
      && (forall i :: 0 <= i < |ids| ==> ids[i] in IdsOf(s))
      && (forall taken, left :: taken in s && left in s && taken.id in ids && left.id !in ids ==>
            Earlier(taken, left))
  {
    FirstIdsDistinct(s, n);
    forall taken, left | taken in s && left in s && taken.id in FirstIds(s, n) && left.id !in FirstIds(s, n)
      ensures Earlier(taken, left)
    {
      FirstIdsInOrder(s, n, taken, left);
    }
  }

  /** With no limit below the number of candidates, every candidate is taken. */
  lemma FirstIdsTakesAll(s: set<Stamp>, n: nat)
    requires OnePerId(s) && |s| <= n
    ensures forall id :: id in FirstIds(s, n) <==> id in IdsOf(s)
  {
    FirstIdsPicks(s, n);
    AllTaken(s, n);
  }

  lemma {:induction false} AllTaken(s: set<Stamp>, n: nat)
    requires |s| <= n
    ensures forall x :: x in s ==> x.id in FirstIds(s, n)
    decreases n
  {
    if s != {} && n != 0 {
      var m := Earliest(s);
      AllTaken(s - {m}, n - 1);
    }
  }
}
