/** Small vocabulary shared by every component: optional values, results,
    Python's tuple ordering, `min(..., key=...)` and `sorted(..., key=...)`. */
module Common {

  datatype Option<+T> = None | Some(value: T)

  datatype Result<+T, +E> = Ok(value: T) | Err(error: E)

  function Abs(x: int): int { if x < 0 then -x else x }

  function Min(x: int, y: int): int { if x < y then x else y }

  function Max(x: int, y: int): int { if x < y then y else x }

  ghost predicate Distinct<T>(s: seq<T>) {
    forall i, j :: 0 <= i < j < |s| ==> s[i] != s[j]
  }

  lemma {:induction false} DistinctCount<T>(s: seq<T>, x: T)
    requires Distinct(s)
    ensures multiset(s)[x] == if x in s then 1 else 0
  {
    if s != [] {
      assert s == [s[0]] + s[1..];
      DistinctCount(s[1..], x);
    }
  }

  /** Another order of different elements has different elements. */
  lemma SameMultisetDistinct<T>(a: seq<T>, b: seq<T>)
    requires Distinct(a) && multiset(a) == multiset(b)
    ensures Distinct(b) && |a| == |b|
  {
    assert |multiset(a)| == |multiset(b)|;
    forall i, j | 0 <= i < j < |b| ensures b[i] != b[j] {
      DistinctCount(a, b[i]);
      assert b == b[..i] + [b[i]] + b[i + 1..j] + [b[j]] + b[j + 1..];
    }
  }

  lemma SameSet(a: set<int>, b: set<int>)
    requires forall x :: x in a <==> x in b
    ensures a == b
  {
    forall x | x in a ensures x in b { }
    forall x | x in b ensures x in a { }
  }

  lemma NonEmpty(s: set<int>)
    ensures s != {} ==> exists x :: x in s
  {
    if forall x :: x !in s { assert s == {}; }
  }

  /** Python's `a <= b` on two tuples of integers. */
  predicate LexLeq(a: seq<int>, b: seq<int>) {
    if a == [] then true
    else if b == [] then false
    else a[0] < b[0] || (a[0] == b[0] && LexLeq(a[1..], b[1..]))
  }

  predicate LexLess(a: seq<int>, b: seq<int>) { LexLeq(a, b) && a != b }

  function Plus(a: seq<int>, b: seq<int>): (r: seq<int>)
    requires |a| == |b|
  {
    seq(|a|, i requires 0 <= i < |a| => a[i] + b[i])
  }

  lemma LexSingle(a: int, c: int)
    ensures LexLeq([a], [c]) <==> a <= c
  {
    assert [a][1..] == [] && [c][1..] == [];
  }

  lemma LexPair(a: int, b: int, c: int, d: int)
    ensures LexLeq([a, b], [c, d]) <==> a < c || (a == c && b <= d)
  {
    LexSingle(b, d);
    assert [a, b][1..] == [b] && [c, d][1..] == [d];
  }

  lemma {:induction false} LexReflexive(a: seq<int>)
    ensures LexLeq(a, a)
  {
    if a != [] { LexReflexive(a[1..]); }
  }

  lemma {:induction false} LexTotal(a: seq<int>, b: seq<int>)
    ensures LexLeq(a, b) || LexLeq(b, a)
  {
    if a != [] && b != [] { LexTotal(a[1..], b[1..]); }
  }

  lemma {:induction false} LexTransitive(a: seq<int>, b: seq<int>, c: seq<int>)
    requires LexLeq(a, b) && LexLeq(b, c)
    ensures LexLeq(a, c)
  {
    if a != [] && a[0] == b[0] == c[0] { LexTransitive(a[1..], b[1..], c[1..]); }
  }

  lemma {:induction false} LexAntisymmetric(a: seq<int>, b: seq<int>)
    requires LexLeq(a, b) && LexLeq(b, a)
    ensures a == b
  {
    if a != [] {
      LexAntisymmetric(a[1..], b[1..]);
      assert a == [a[0]] + a[1..] && b == [b[0]] + b[1..];
    }
  }

  /** The order is invariant under adding the same, or a larger, tuple. */
  lemma {:induction false} LexPlusMonotone(a: seq<int>, a': seq<int>, b: seq<int>, b': seq<int>)
    requires |a| == |a'| == |b| == |b'|
    requires LexLeq(a, a') && LexLeq(b, b')
    ensures LexLeq(Plus(a, b), Plus(a', b'))
  {
    if a != [] {
      assert Plus(a, b)[1..] == Plus(a[1..], b[1..]);
      assert Plus(a', b')[1..] == Plus(a'[1..], b'[1..]);
      if a[0] == a'[0] && b[0] == b'[0] {
        LexPlusMonotone(a[1..], a'[1..], b[1..], b'[1..]);
      }
    }
  }

  /** Comparing longer tuples compares their equally long prefixes. */
  lemma {:induction false} LexPrefix(a: seq<int>, b: seq<int>, s: seq<int>, t: seq<int>)
    requires |a| == |b| && LexLeq(a + s, b + t)
    ensures LexLeq(a, b)
  {
    if a != [] {
      assert (a + s)[1..] == a[1..] + s && (b + t)[1..] == b[1..] + t;
      if a[0] == b[0] {
        LexPrefix(a[1..], b[1..], s, t);
      }
    }
  }

  /** A tie on the tail follows the order of the heads. */
  lemma {:induction false} LexExtend(a: seq<int>, b: seq<int>, s: seq<int>)
    requires |a| == |b| && LexLeq(a, b)
    ensures LexLeq(a + s, b + s)
  {
    if a == [] {
      LexReflexive(s);
      assert a + s == s && b + s == s;
    } else {
      assert (a + s)[1..] == a[1..] + s && (b + s)[1..] == b[1..] + s;
      if a[0] == b[0] {
        LexExtend(a[1..], b[1..], s);
      }
    }
  }

  /** The position Python's `min(s, key=key)` returns. */
  function MinIndex<T>(s: seq<T>, key: T -> seq<int>): (i: nat)
    requires s != []
    ensures i < |s|
  {
    var n := |s| - 1;
    if n == 0 then 0
    else
      var m := MinIndex(s[..n], key);
      if LexLess(key(s[n]), key(s[m])) then n else m
  }

  /** It is the first place that holds a least key. */
  lemma {:induction false} MinIndexLeast<T>(s: seq<T>, key: T -> seq<int>)
    requires s != []
    ensures forall j :: 0 <= j < |s| ==> LexLeq(key(s[MinIndex(s, key)]), key(s[j]))
    ensures forall j :: 0 <= j < MinIndex(s, key) ==> key(s[j]) != key(s[MinIndex(s, key)])
  {
    var n := |s| - 1;
    if n == 0 {
      LexReflexive(key(s[0]));
    } else {
      MinIndexLeast(s[..n], key);
      var m := MinIndex(s[..n], key);
      LexTotal(key(s[m]), key(s[n]));
      LexReflexive(key(s[n]));
      forall j | 0 <= j < n
        ensures s[..n][j] == s[j]
        ensures LexLess(key(s[n]), key(s[m])) ==> LexLeq(key(s[n]), key(s[j])) && key(s[j]) != key(s[n])
      {
        if LexLess(key(s[n]), key(s[m])) {
          LexTransitive(key(s[n]), key(s[m]), key(s[j]));
          if key(s[j]) == key(s[n]) { LexAntisymmetric(key(s[m]), key(s[n])); }
        }
      }
    }
  }

  ghost predicate Sorted<T>(s: seq<T>, key: T -> seq<int>) {
    forall i, j :: 0 <= i < j < |s| ==> LexLeq(key(s[i]), key(s[j]))
  }

  ghost predicate StrictlySorted<T>(s: seq<T>, key: T -> seq<int>) {
    forall i, j :: 0 <= i < j < |s| ==> LexLess(key(s[i]), key(s[j]))
  }

  function Insert<T>(s: seq<T>, x: T, key: T -> seq<int>): (r: seq<T>)
    ensures multiset(r) == multiset(s) + multiset{x}
  {
    var n := |s| - 1;
    if s != [] && LexLess(key(x), key(s[n])) then
      assert s == s[..n] + [s[n]];
      Insert(s[..n], x, key) + [s[n]]
    else
      s + [x]
  }

  lemma {:induction false} InsertSorted<T>(s: seq<T>, x: T, key: T -> seq<int>)
    requires Sorted(s, key)
    ensures Sorted(Insert(s, x, key), key)
  {
    var n := |s| - 1;
    if s != [] && LexLess(key(x), key(s[n])) {
      var front := Insert(s[..n], x, key);
      InsertSorted(s[..n], x, key);
      forall i | 0 <= i < |front| ensures LexLeq(key(front[i]), key(s[n])) {
        assert front[i] in multiset(front);
        if front[i] != x { assert front[i] in s[..n]; }
      }
    } else {
      forall i | 0 <= i < |s| ensures LexLeq(key(s[i]), key(x)) {
        LexTotal(key(x), key(s[n]));
        LexReflexive(key(x));
        if i < n { LexTransitive(key(s[i]), key(s[n]), key(x)); }
      }
    }
  }

  /** Python's stable `sorted(s, key=key)`. */
  function SortBy<T>(s: seq<T>, key: T -> seq<int>): (r: seq<T>)
    ensures multiset(r) == multiset(s)
    ensures |r| == |s|
    ensures Sorted(r, key)
  {
    if s == [] then []
    else
      var n := |s| - 1;
      assert s == s[..n] + [s[n]];
      InsertSorted(SortBy(s[..n], key), s[n], key);
      var r := Insert(SortBy(s[..n], key), s[n], key);
      assert |multiset(r)| == |multiset(s)|;
      r
  }

  /** A strictly sorted arrangement is the only sorted one of its elements. */
  lemma {:induction false} SortedUnique<T>(a: seq<T>, b: seq<T>, key: T -> seq<int>)
    requires multiset(a) == multiset(b)
    requires StrictlySorted(a, key) && Sorted(b, key)
    ensures a == b
  {
    assert |a| == |multiset(a)| == |multiset(b)| == |b|;
    if a != [] {
      LeastFirst(a, b, key);
      assert a == [a[0]] + a[1..] && b == [b[0]] + b[1..];
      assert multiset(a[1..]) == multiset(a) - multiset{a[0]};
      assert multiset(b[1..]) == multiset(b) - multiset{b[0]};
      SortedUnique(a[1..], b[1..], key);
    }
  }

  lemma LeastFirst<T>(a: seq<T>, b: seq<T>, key: T -> seq<int>)
    requires a != [] && b != [] && multiset(a) == multiset(b)
    requires StrictlySorted(a, key) && Sorted(b, key)
    ensures a[0] == b[0]
  {
    hide LexLeq;
    assert b[0] in multiset(a) && a[0] in multiset(b);
    var j :| 0 <= j < |a| && a[j] == b[0];
    var k :| 0 <= k < |b| && b[k] == a[0];
    if j > 0 {
      LexReflexive(key(b[0]));
      LexAntisymmetric(key(a[0]), key(b[0]));
    }
  }

  lemma SortOfSorted<T>(s: seq<T>, key: T -> seq<int>)
    requires StrictlySorted(s, key)
    ensures SortBy(s, key) == s
  {
    SortedUnique(s, SortBy(s, key), key);
  }
}
