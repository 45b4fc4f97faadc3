/** Python's order on strings and on tuples of strings, and its stable sort. */
module Lexicographic {

  predicate Less(a: string, b: string) {
    b != [] && (a == [] || a[0] < b[0] || (a[0] == b[0] && Less(a[1..], b[1..])))
  }

  predicate Leq(a: string, b: string) { a == b || Less(a, b) }

  lemma {:induction false} LessTotal(a: string, b: string)
    ensures Less(a, b) || a == b || Less(b, a)
  {
    if a != [] && b != [] && a[0] == b[0] {
      LessTotal(a[1..], b[1..]);
      if a[1..] == b[1..] { assert a == [a[0]] + a[1..] && b == [b[0]] + b[1..]; }
    }
  }

  lemma {:induction false} LessTransitive(a: string, b: string, c: string)
    requires Less(a, b) && Less(b, c)
    ensures Less(a, c)
  {
    if a != [] && a[0] == b[0] && b[0] == c[0] { LessTransitive(a[1..], b[1..], c[1..]); }
  }

  lemma {:induction false} LessIrreflexive(a: string)
    ensures !Less(a, a)
  {
    if a != [] { LessIrreflexive(a[1..]); }
  }

  /** Tuples of strings. */
  predicate KeyLess(a: seq<string>, b: seq<string>) {
    b != [] && (a == [] || Less(a[0], b[0]) || (a[0] == b[0] && KeyLess(a[1..], b[1..])))
  }

  predicate KeyLeq(a: seq<string>, b: seq<string>) { a == b || KeyLess(a, b) }

  lemma {:induction false} KeyTotal(a: seq<string>, b: seq<string>)
    ensures KeyLess(a, b) || a == b || KeyLess(b, a)
  {
    if a != [] && b != [] {
      LessTotal(a[0], b[0]);
      if a[0] == b[0] {
        KeyTotal(a[1..], b[1..]);
        if a[1..] == b[1..] { assert a == [a[0]] + a[1..] && b == [b[0]] + b[1..]; }
      }
    }
  }

  lemma {:induction false} KeyTransitive(a: seq<string>, b: seq<string>, c: seq<string>)
    requires KeyLess(a, b) && KeyLess(b, c)
    ensures KeyLess(a, c)
  {
    if a != [] {
      if Less(a[0], b[0]) && Less(b[0], c[0]) { LessTransitive(a[0], b[0], c[0]); }
      else if a[0] == b[0] && b[0] == c[0] { KeyTransitive(a[1..], b[1..], c[1..]); }
    }
  }

  lemma {:induction false} KeyIrreflexive(a: seq<string>)
    ensures !KeyLess(a, a)
  {
    if a != [] { LessIrreflexive(a[0]); KeyIrreflexive(a[1..]); }
  }

  lemma KeyLeqTransitive(a: seq<string>, b: seq<string>, c: seq<string>)
    requires KeyLeq(a, b) && KeyLeq(b, c)
    ensures KeyLeq(a, c)
  {
    if a != b && b != c { KeyTransitive(a, b, c); }
  }

  lemma KeyAntisymmetric(a: seq<string>, b: seq<string>)
    requires KeyLeq(a, b) && KeyLeq(b, a)
    ensures a == b
  {
    if a != b { KeyTransitive(a, b, a); KeyIrreflexive(a); }
  }

  // ---------------------------------------------------------------- least elements

  predicate IsLeast(s: set<string>, m: string) { m in s && forall x :: x in s ==> Leq(m, x) }

  lemma {:induction false} LeastExists(s: set<string>)
    requires s != {}
    ensures exists m :: IsLeast(s, m)
    decreases |s|
  {
    var x :| x in s;
    var rest := s - {x};
    assert s == rest + {x};
    if rest == {} { assert IsLeast(s, x); }
    else {
      LeastExists(rest);
      var m :| IsLeast(rest, m);
      LessTotal(m, x);
      if Leq(m, x) { assert IsLeast(s, m); }
      else {
        forall y | y in s ensures Leq(x, y) { if y != x && y != m { LessTransitive(x, m, y); } }
        assert IsLeast(s, x);
      }
    }
  }

  lemma LeastUnique(s: set<string>, a: string, b: string)
    requires IsLeast(s, a) && IsLeast(s, b)
    ensures a == b
  {
    if a != b { LessTransitive(a, b, a); LessIrreflexive(a); }
  }

  function Least(s: set<string>): (m: string)
    requires s != {}
    ensures IsLeast(s, m)
  {
    LeastExists(s);
    assert forall a, b | IsLeast(s, a) && IsLeast(s, b) :: a == b by {
      forall a, b | IsLeast(s, a) && IsLeast(s, b) ensures a == b { LeastUnique(s, a, b); }
    }
    var m :| m in s && IsLeast(s, m);
    m
  }

  // ---------------------------------------------------------------- sorting

  /** Inserts after every element whose key is not greater. */
  function Insert<T>(s: seq<T>, x: T, key: T -> seq<string>): (r: seq<T>)
    ensures multiset(r) == multiset(s) + multiset{x}
  {
    if s == [] then [x]
    else if KeyLess(key(x), key(s[|s| - 1]))
    then assert s == s[..|s| - 1] + [s[|s| - 1]]; Insert(s[..|s| - 1], x, key) + [s[|s| - 1]]
    else s + [x]
  }

  /** The stable sort. */
  function SortBy<T>(s: seq<T>, key: T -> seq<string>): (r: seq<T>)
    ensures multiset(r) == multiset(s)
  {
    if s == [] then []
    else assert s == s[..|s| - 1] + [s[|s| - 1]]; Insert(SortBy(s[..|s| - 1], key), s[|s| - 1], key)
  }

  ghost predicate Sorted<T(!new)>(s: seq<T>, key: T -> seq<string>) {
    forall i, j :: 0 <= i < j < |s| ==> KeyLeq(key(s[i]), key(s[j]))
  }

  lemma {:induction false} InsertSorted<T(!new)>(s: seq<T>, x: T, key: T -> seq<string>)
    requires Sorted(s, key)
    ensures Sorted(Insert(s, x, key), key)
  {
    if s != [] {
      var before, last := s[..|s| - 1], s[|s| - 1];
      KeyTotal(key(x), key(last));
      if KeyLess(key(x), key(last)) {
        InsertSorted(before, x, key);
        var r := Insert(before, x, key);
        forall i | 0 <= i < |r| ensures KeyLeq(key(r[i]), key(last)) {
          assert r[i] in multiset(r);
          assert r[i] in multiset(before) + multiset{x};
          if r[i] in multiset(before) { var k :| 0 <= k < |before| && before[k] == r[i]; assert s[k] == r[i]; }
        }
      } else {
        forall i | 0 <= i < |s| ensures KeyLeq(key(s[i]), key(x)) {
          if i < |s| - 1 { KeyLeqTransitive(key(s[i]), key(last), key(x)); }
        }
      }
    }
  }

  lemma {:induction false} SortBySorted<T(!new)>(s: seq<T>, key: T -> seq<string>)
    ensures Sorted(SortBy(s, key), key)
  {
    if s != [] { SortBySorted(s[..|s| - 1], key); InsertSorted(SortBy(s[..|s| - 1], key), s[|s| - 1], key); }
  }

  /** Equal keys mean equal items. */
  ghost predicate Faithful<T(!new)>(s: seq<T>, key: T -> seq<string>) {
    forall i, j :: 0 <= i < |s| && 0 <= j < |s| && key(s[i]) == key(s[j]) ==> s[i] == s[j]
  }

  lemma LastsAgree<T(!new)>(a: seq<T>, b: seq<T>, key: T -> seq<string>)
    requires Sorted(a, key) && Sorted(b, key) && multiset(a) == multiset(b) && Faithful(a, key) && a != []
    ensures b != [] && a[|a| - 1] == b[|b| - 1]
  {
    assert |multiset(a)| == |multiset(b)|;
    var x, y := a[|a| - 1], b[|b| - 1];
    assert x in multiset(b) && y in multiset(a);
    var i :| 0 <= i < |b| && b[i] == x;
    var j :| 0 <= j < |a| && a[j] == y;
    assert KeyLeq(key(b[i]), key(y)) && KeyLeq(key(a[j]), key(x));
    KeyAntisymmetric(key(x), key(y));
  }

  lemma DropLast<T(!new)>(a: seq<T>, key: T -> seq<string>)
    requires a != [] && Sorted(a, key) && Faithful(a, key)
    ensures var before := a[..|a| - 1]; Sorted(before, key) && Faithful(before, key)
  {}

  lemma DropLastCount<T>(a: seq<T>)
    requires a != []
    ensures multiset(a[..|a| - 1]) == multiset(a) - multiset{a[|a| - 1]}
  {
    assert a == a[..|a| - 1] + [a[|a| - 1]];
  }

  /** Two sorted arrangements of the same items are equal when equal keys mean equal items. */
  lemma {:induction false} SortedUnique<T(!new)>(a: seq<T>, b: seq<T>, key: T -> seq<string>)
    requires Sorted(a, key) && Sorted(b, key) && multiset(a) == multiset(b) && Faithful(a, key)
    ensures a == b
  {
    hide Sorted, Faithful;
    assert |a| == |b| by { assert |multiset(a)| == |multiset(b)|; }
    if a != [] {
      LastsAgree(a, b, key);
      FaithfulSame(a, b, key);
      DropLast(a, key);
      DropLast(b, key);
      DropLastCount(a);
      DropLastCount(b);
      SortedUnique(a[..|a| - 1], b[..|b| - 1], key);
      assert a == a[..|a| - 1] + [a[|a| - 1]] && b == b[..|b| - 1] + [b[|b| - 1]];
    }
  }

  lemma FaithfulSame<T(!new)>(a: seq<T>, b: seq<T>, key: T -> seq<string>)
    requires Faithful(a, key) && multiset(a) == multiset(b)
    ensures Faithful(b, key)
  {
    forall i, j | 0 <= i < |b| && 0 <= j < |b| && key(b[i]) == key(b[j]) ensures b[i] == b[j] {
      assert b[i] in multiset(a) && b[j] in multiset(a);
      var i' :| 0 <= i' < |a| && a[i'] == b[i];
      var j' :| 0 <= j' < |a| && a[j'] == b[j];
    }
  }

  /** Sorting forgets the order the items came in. */
  lemma SortForgetsOrder<T(!new)>(a: seq<T>, b: seq<T>, key: T -> seq<string>)
    requires multiset(a) == multiset(b) && Faithful(a, key)
    ensures SortBy(a, key) == SortBy(b, key)
  {
    SortBySorted(a, key);
    SortBySorted(b, key);
    FaithfulSame(a, SortBy(a, key), key);
    SortedUnique(SortBy(a, key), SortBy(b, key), key);
  }

  // ---------------------------------------------------------------- distinct keys

  ghost predicate DistinctKeys<T(!new)>(s: seq<T>, key: T -> seq<string>) {
    forall i, j :: 0 <= i < j < |s| ==> key(s[i]) != key(s[j])
  }

  ghost function KeySet<T(!new)>(s: seq<T>, key: T -> seq<string>): set<seq<string>> { set x | x in s :: key(x) }

  lemma SnocDistinct<T(!new)>(before: seq<T>, last: T, key: T -> seq<string>)
    ensures DistinctKeys(before + [last], key) <==> DistinctKeys(before, key) && key(last) !in KeySet(before, key)
  {
    var s := before + [last];
    if DistinctKeys(s, key) {
      forall i, j | 0 <= i < j < |before| ensures key(before[i]) != key(before[j]) {
        assert s[i] == before[i] && s[j] == before[j];
      }
      forall x | x in before ensures key(x) != key(last) {
        var i :| 0 <= i < |before| && before[i] == x;
        assert key(s[i]) != key(s[|before|]);
      }
    }
  }

  lemma SnocKeySet<T(!new)>(before: seq<T>, last: T, key: T -> seq<string>)
    ensures KeySet(before + [last], key) == KeySet(before, key) + {key(last)}
  {}

  lemma {:induction false} DistinctByCount<T(!new)>(s: seq<T>, key: T -> seq<string>)
    ensures |KeySet(s, key)| <= |s| && (DistinctKeys(s, key) <==> |KeySet(s, key)| == |s|)
  {
    if s != [] {
      hide DistinctKeys, KeySet;
      var before, last := s[..|s| - 1], s[|s| - 1];
      DistinctByCount(before, key);
      assert s == before + [last];
      SnocDistinct(before, last, key);
      SnocKeySet(before, last, key);
      if key(last) in KeySet(before, key) { assert KeySet(before, key) + {key(last)} == KeySet(before, key); }
    } else {
      assert KeySet(s, key) == {};
    }
  }

  lemma SameItems<T>(a: seq<T>, b: seq<T>)
    requires multiset(a) == multiset(b)
    ensures |a| == |b| && forall x :: x in a <==> x in b
  {
    assert |multiset(a)| == |multiset(b)|;
    forall x ensures x in a <==> x in b { assert x in a <==> x in multiset(a); assert x in b <==> x in multiset(b); }
  }

  lemma ItemAt<T>(a: seq<T>, b: seq<T>, i: int) returns (j: int)
    requires multiset(a) == multiset(b) && 0 <= i < |a|
    ensures 0 <= j < |b| && b[j] == a[i]
  {
    assert a[i] in multiset(b);
    j :| 0 <= j < |b| && b[j] == a[i];
  }

  /** Whether keys repeat does not depend on the arrangement. */
  lemma RearrangedDistinct<T(!new)>(a: seq<T>, b: seq<T>, key: T -> seq<string>)
    requires multiset(a) == multiset(b)
    ensures DistinctKeys(a, key) <==> DistinctKeys(b, key)
  {
    SameItems(a, b);
    DistinctByCount(a, key);
    DistinctByCount(b, key);
    assert KeySet(a, key) == KeySet(b, key);
  }

  lemma DistinctIsFaithful<T(!new)>(s: seq<T>, key: T -> seq<string>)
    requires DistinctKeys(s, key)
    ensures Faithful(s, key)
  {}
}
