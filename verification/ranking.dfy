/**
 Selection and ordering primitives of the analysis code: order-preserving
 filters, Python's stable `sorted(..., reverse=True)` (also Rust's stable
 `sort_by` with a descending comparator), first and last maxima (`max` in
 Python, `max_by` in Rust), slicing and means.
 */
module Ranking {
  import opened Base

  /** Elements satisfying `p`, in their original order. */
  function Filter<T>(xs: seq<T>, p: T -> bool): (r: seq<T>)
    ensures |r| <= |xs|
    ensures forall i :: 0 <= i < |r| ==> r[i] in xs && p(r[i])
    ensures forall i :: 0 <= i < |xs| && p(xs[i]) ==> xs[i] in r
    ensures multiset(r) <= multiset(xs)
  {
    if |xs| == 0 then []
    else
      var init := Filter(xs[..|xs| - 1], p);
      var last := xs[|xs| - 1];
      assert xs == xs[..|xs| - 1] + [last];
      init + (if p(last) then [last] else [])
  }

  /** Filtering distributes over concatenation, so the kept elements keep their relative order. */
  lemma {:induction false} FilterAppend<T>(xs: seq<T>, ys: seq<T>, p: T -> bool)
    ensures Filter(xs + ys, p) == Filter(xs, p) + Filter(ys, p)
    decreases |ys|
  {
    if |ys| > 0 {
      assert (xs + ys)[..|xs + ys| - 1] == xs + ys[..|ys| - 1];
      FilterAppend(xs, ys[..|ys| - 1], p);
    } else {
      assert xs + ys == xs;
    }
  }

  lemma {:induction false} FilterAll<T>(xs: seq<T>, p: T -> bool)
    requires forall i :: 0 <= i < |xs| ==> p(xs[i])
    ensures Filter(xs, p) == xs
  {
    if |xs| > 0 {
      var init := xs[..|xs| - 1];
      forall i | 0 <= i < |init|
        ensures p(init[i])
      {
        assert init[i] == xs[i];
      }
      FilterAll(init, p);
      FilterSnoc(xs, p);
      LastSplit(xs);
    }
  }

  lemma LastSplit<T>(xs: seq<T>)
    requires |xs| > 0
    ensures xs == xs[..|xs| - 1] + [xs[|xs| - 1]]
  {
  }

  lemma FilterSnoc<T>(xs: seq<T>, p: T -> bool)
    requires |xs| > 0
    ensures Filter(xs, p) == Filter(xs[..|xs| - 1], p) + (if p(xs[|xs| - 1]) then [xs[|xs| - 1]] else [])
  {
  }

  lemma {:induction false} FilterNone<T>(xs: seq<T>, p: T -> bool)
    requires forall i :: 0 <= i < |xs| ==> !p(xs[i])
    ensures Filter(xs, p) == []
  {
    if |xs| > 0 {
      FilterNone(xs[..|xs| - 1], p);
    }
  }

  ghost predicate NonIncreasing<T>(xs: seq<T>, key: T -> real)
  {
    forall i, j :: 0 <= i < j < |xs| ==> key(xs[i]) >= key(xs[j])
  }

  lemma ConsNonIncreasing<T>(h: T, t: seq<T>, key: T -> real)
    requires NonIncreasing(t, key)
    requires |t| > 0 ==> key(h) >= key(t[0])
    ensures NonIncreasing([h] + t, key)
  {
    var s := [h] + t;
    forall i, j | 0 <= i < j < |s|
      ensures key(s[i]) >= key(s[j])
    {
      if i == 0 && j > 1 {
        assert key(t[0]) >= key(t[j - 1]);
      }
    }
  }

  lemma TailNonIncreasing<T>(ys: seq<T>, key: T -> real)
    requires NonIncreasing(ys, key) && |ys| > 0
    ensures NonIncreasing(ys[1..], key)
  {
    var t := ys[1..];
    forall i, j | 0 <= i < j < |t|
      ensures key(t[i]) >= key(t[j])
    {
      assert t[i] == ys[i + 1] && t[j] == ys[j + 1];
    }
  }

  /** Insert `x` after every element whose key is at least its own. */
  function Insert<T>(x: T, ys: seq<T>, key: T -> real): (r: seq<T>)
    requires NonIncreasing(ys, key)
    ensures |r| == |ys| + 1
    ensures multiset(r) == multiset(ys) + multiset{x}
    ensures NonIncreasing(r, key)
    ensures r[0] == x || (|ys| > 0 && r[0] == ys[0])
  {
    if |ys| == 0 then [x]
    else if key(ys[0]) >= key(x) then
      TailNonIncreasing(ys, key);
      var rest := Insert(x, ys[1..], key);
      InsertBehind(x, ys, rest, key);
      [ys[0]] + rest
    else
      ConsNonIncreasing(x, ys, key);
      [x] + ys
  }

  /** Putting the head back in front of the tail's insertion keeps the insertion's properties. */
  lemma InsertBehind<T>(x: T, ys: seq<T>, rest: seq<T>, key: T -> real)
    requires NonIncreasing(ys, key) && |ys| > 0 && key(ys[0]) >= key(x)
    requires |rest| == |ys| && multiset(rest) == multiset(ys[1..]) + multiset{x}
    requires NonIncreasing(rest, key) && (rest[0] == x || (|ys| > 1 && rest[0] == ys[1]))
    ensures multiset([ys[0]] + rest) == multiset(ys) + multiset{x}
    ensures NonIncreasing([ys[0]] + rest, key)
  {
    assert ys == [ys[0]] + ys[1..];
    ConsNonIncreasing(ys[0], rest, key);
  }

  /** A stable sort by descending key: ties keep their input order. */
  function SortDesc<T>(xs: seq<T>, key: T -> real): (r: seq<T>)
    ensures |r| == |xs|
    ensures multiset(r) == multiset(xs)
    ensures NonIncreasing(r, key)
  {
    if |xs| == 0 then []
    else
      assert xs == xs[..|xs| - 1] + [xs[|xs| - 1]];
      Insert(xs[|xs| - 1], SortDesc(xs[..|xs| - 1], key), key)
  }

  /** The elements of `xs` whose key equals `v`, in order. */
  function Ties<T>(xs: seq<T>, key: T -> real, v: real): seq<T>
  {
    if |xs| == 0 then []
    else Ties(xs[..|xs| - 1], key, v) + (if key(xs[|xs| - 1]) == v then [xs[|xs| - 1]] else [])
  }

  lemma {:induction false} TiesAppend<T>(xs: seq<T>, ys: seq<T>, key: T -> real, v: real)
    ensures Ties(xs + ys, key, v) == Ties(xs, key, v) + Ties(ys, key, v)
    decreases |ys|
  {
    if |ys| > 0 {
      assert (xs + ys)[..|xs + ys| - 1] == xs + ys[..|ys| - 1];
      TiesAppend(xs, ys[..|ys| - 1], key, v);
    } else {
      assert xs + ys == xs;
    }
  }

  /** `Ties` keeps exactly the elements whose key is `v`. */
  lemma {:induction false} TiesMembers<T>(xs: seq<T>, key: T -> real, v: real)
    ensures forall i :: 0 <= i < |Ties(xs, key, v)| ==> Ties(xs, key, v)[i] in xs && key(Ties(xs, key, v)[i]) == v
    ensures forall i :: 0 <= i < |xs| && key(xs[i]) == v ==> xs[i] in Ties(xs, key, v)
  {
    if |xs| > 0 {
      var init := xs[..|xs| - 1];
      TiesMembers(init, key, v);
      assert xs == init + [xs[|xs| - 1]];
      forall i | 0 <= i < |xs| && key(xs[i]) == v
        ensures xs[i] in Ties(xs, key, v)
      {
        if i < |xs| - 1 {
          assert xs[i] == init[i];
        }
      }
    }
  }

  predicate StrictlyIncreasing(vs: seq<real>)
  {
    forall i, j :: 0 <= i < j < |vs| ==> vs[i] < vs[j]
  }

  /** How many positions of `vs` hold `a`. */
  function Hits(vs: seq<real>, a: real): nat
  {
    if |vs| == 0 then 0 else Hits(vs[..|vs| - 1], a) + (if vs[|vs| - 1] == a then 1 else 0)
  }

  lemma {:induction false} HitsAbsent(vs: seq<real>, a: real)
    requires forall i :: 0 <= i < |vs| ==> vs[i] != a
    ensures Hits(vs, a) == 0
  {
    if |vs| > 0 {
      HitsAbsent(vs[..|vs| - 1], a);
    }
  }

  lemma {:induction false} HitsOnce(vs: seq<real>, a: real)
    requires StrictlyIncreasing(vs)
    requires a in vs
    ensures Hits(vs, a) == 1
  {
    var init := vs[..|vs| - 1];
    if vs[|vs| - 1] == a {
      HitsAbsent(init, a);
    } else {
      assert a in init;
      HitsOnce(init, a);
    }
  }

  /** Total size of the groups `Ties(xs, key, v)` for `v` in `vs`. */
  function GroupSizes<T>(xs: seq<T>, key: T -> real, vs: seq<real>): nat
  {
    if |vs| == 0 then 0 else GroupSizes(xs, key, vs[..|vs| - 1]) + |Ties(xs, key, vs[|vs| - 1])|
  }

  lemma {:induction false} GroupSizesStep<T>(init: seq<T>, last: T, key: T -> real, vs: seq<real>)
    ensures GroupSizes(init + [last], key, vs) == GroupSizes(init, key, vs) + Hits(vs, key(last))
  {
    if |vs| > 0 {
      GroupSizesStep(init, last, key, vs[..|vs| - 1]);
      assert (init + [last])[..|init + [last]| - 1] == init;
    }
  }

  /** Grouping by distinct key values partitions the input: every element lands in exactly one group. */
  lemma {:induction false} GroupsPartition<T>(xs: seq<T>, key: T -> real, vs: seq<real>)
    requires StrictlyIncreasing(vs)
    requires forall i :: 0 <= i < |xs| ==> key(xs[i]) in vs
    ensures GroupSizes(xs, key, vs) == |xs|
  {
    if |xs| == 0 {
      GroupSizesEmpty(key, vs);
    } else {
      var init := xs[..|xs| - 1];
      var last := xs[|xs| - 1];
      GroupsPartition(init, key, vs);
      assert xs == init + [last];
      GroupSizesStep(init, last, key, vs);
      HitsOnce(vs, key(last));
    }
  }

  lemma {:induction false} GroupSizesEmpty<T>(key: T -> real, vs: seq<real>)
    ensures GroupSizes([], key, vs) == 0
  {
    if |vs| > 0 {
      GroupSizesEmpty(key, vs[..|vs| - 1]);
    }
  }

  /** Insert `x` into a strictly increasing list unless it is already there. */
  function InsertDistinct(x: real, ys: seq<real>): (r: seq<real>)
    requires StrictlyIncreasing(ys)
    ensures StrictlyIncreasing(r)
    ensures x in r
    ensures forall i :: 0 <= i < |ys| ==> ys[i] in r
    ensures forall i :: 0 <= i < |r| ==> r[i] == x || r[i] in ys
    ensures |r| > 0 && (r[0] == x || r[0] == ys[0])
  {
    if |ys| == 0 then [x]
    else if x == ys[0] then ys
    else if x < ys[0] then [x] + ys
    else
      var rest := InsertDistinct(x, ys[1..]);
      DistinctBehind(x, ys, rest);
      [ys[0]] + rest
  }

  /** Putting a smaller head back in front of the tail's insertion keeps the insertion's properties. */
  lemma DistinctBehind(x: real, ys: seq<real>, rest: seq<real>)
    requires StrictlyIncreasing(ys) && |ys| > 0 && ys[0] < x
    requires StrictlyIncreasing(rest) && x in rest
    requires forall i :: 1 <= i < |ys| ==> ys[i] in rest
    requires forall i :: 0 <= i < |rest| ==> rest[i] == x || rest[i] in ys[1..]
    ensures StrictlyIncreasing([ys[0]] + rest)
    ensures forall i :: 0 <= i < |ys| ==> ys[i] in [ys[0]] + rest
    ensures forall i :: 0 <= i < |[ys[0]] + rest| ==> ([ys[0]] + rest)[i] == x || ([ys[0]] + rest)[i] in ys
  {
    var r := [ys[0]] + rest;
    forall i | 0 <= i < |rest|
      ensures ys[0] < rest[i]
    {
      if rest[i] != x {
        var k :| 1 <= k < |ys| && ys[k] == rest[i];
      }
    }
    forall i, j | 0 <= i < j < |r|
      ensures r[i] < r[j]
    {
      if i > 0 {
        assert r[i] == rest[i - 1] && r[j] == rest[j - 1];
      } else {
        assert r[j] == rest[j - 1];
      }
    }
  }

  /** `sorted(set(xs))`: the distinct values in ascending order. */
  function DistinctSorted(xs: seq<real>): (r: seq<real>)
    ensures StrictlyIncreasing(r)
    ensures forall i :: 0 <= i < |xs| ==> xs[i] in r
    ensures forall i :: 0 <= i < |r| ==> r[i] in xs
  {
    if |xs| == 0 then []
    else
      var init := xs[..|xs| - 1];
      var rest := DistinctSorted(init);
      var r := InsertDistinct(xs[|xs| - 1], rest);
      DistinctSortedStep(xs, rest, r);
      r
  }

  lemma DistinctSortedStep(xs: seq<real>, rest: seq<real>, r: seq<real>)
    requires |xs| > 0
    requires forall i :: 0 <= i < |xs| - 1 ==> xs[i] in rest
    requires forall i :: 0 <= i < |rest| ==> rest[i] in xs[..|xs| - 1]
    requires xs[|xs| - 1] in r
    requires forall i :: 0 <= i < |rest| ==> rest[i] in r
    requires forall i :: 0 <= i < |r| ==> r[i] == xs[|xs| - 1] || r[i] in rest
    ensures forall i :: 0 <= i < |xs| ==> xs[i] in r
    ensures forall i :: 0 <= i < |r| ==> r[i] in xs
  {
    forall i | 0 <= i < |xs|
      ensures xs[i] in r
    {
      if i < |xs| - 1 {
        var k :| 0 <= k < |rest| && rest[k] == xs[i];
        assert rest[k] in r;
      }
    }
    forall i | 0 <= i < |r|
      ensures r[i] in xs
    {
      if r[i] != xs[|xs| - 1] {
        var k :| 0 <= k < |rest| && rest[k] == r[i];
        assert rest[k] in xs[..|xs| - 1];
      }
    }
  }

  lemma {:induction false} TiesNone<T>(xs: seq<T>, key: T -> real, v: real)
    requires forall i :: 0 <= i < |xs| ==> key(xs[i]) < v
    ensures Ties(xs, key, v) == []
  {
    if |xs| > 0 {
      TiesNone(xs[..|xs| - 1], key, v);
    }
  }

  lemma TiesSingle<T>(a: T, key: T -> real, v: real)
    ensures Ties([a], key, v) == if key(a) == v then [a] else []
  {
    assert [a][..0] == [];
  }

  lemma {:induction false} InsertTies<T>(x: T, ys: seq<T>, key: T -> real, v: real)
    requires NonIncreasing(ys, key)
    ensures Ties(Insert(x, ys, key), key, v) == Ties(ys, key, v) + Ties([x], key, v)
    decreases |ys|, 1
  {
    TiesSingle(x, key, v);
    if |ys| == 0 {
      assert Insert(x, ys, key) == [x];
      assert ys + [x] == [x];
    } else if key(ys[0]) >= key(x) {
      InsertTiesPass(x, ys, key, v);
    } else {
      assert Insert(x, ys, key) == [x] + ys;
      TiesAppend([x], ys, key, v);
      if key(x) == v {
        AllBelowHead(ys, key, v);
        TiesNone(ys, key, v);
      }
    }
  }

  /** `x` goes past the head of `ys`, whose ties are listed first. */
  lemma {:induction false} InsertTiesPass<T>(x: T, ys: seq<T>, key: T -> real, v: real)
    requires NonIncreasing(ys, key) && |ys| > 0 && key(ys[0]) >= key(x)
    ensures Ties(Insert(x, ys, key), key, v) == Ties(ys, key, v) + Ties([x], key, v)
    decreases |ys|, 0
  {
    var t := ys[1..];
    TailNonIncreasing(ys, key);
    var it := Insert(x, t, key);
    assert Insert(x, ys, key) == [ys[0]] + it;
    InsertTies(x, t, key, v);
    TiesAppend([ys[0]], it, key, v);
    TiesAppend([ys[0]], t, key, v);
    assert ys == [ys[0]] + t;
    var h := Ties([ys[0]], key, v);
    ConcatAssoc(h, Ties(t, key, v), Ties([x], key, v));
  }

  lemma ConcatAssoc<T>(a: seq<T>, b: seq<T>, c: seq<T>)
    ensures a + (b + c) == (a + b) + c
  {
  }

  lemma AllBelowHead<T>(ys: seq<T>, key: T -> real, v: real)
    requires NonIncreasing(ys, key) && |ys| > 0 && key(ys[0]) < v
    ensures forall i :: 0 <= i < |ys| ==> key(ys[i]) < v
  {
    forall i | 0 <= i < |ys|
      ensures key(ys[i]) < v
    {
      if i > 0 {
        assert key(ys[0]) >= key(ys[i]);
      }
    }
  }

  lemma SortDescSnoc<T>(xs: seq<T>, key: T -> real)
    requires |xs| > 0
    ensures SortDesc(xs, key) == Insert(xs[|xs| - 1], SortDesc(xs[..|xs| - 1], key), key)
  {
  }

  lemma TiesSnoc<T>(xs: seq<T>, key: T -> real, v: real)
    requires |xs| > 0
    ensures Ties(xs, key, v) == Ties(xs[..|xs| - 1], key, v) + Ties([xs[|xs| - 1]], key, v)
  {
    assert xs == xs[..|xs| - 1] + [xs[|xs| - 1]];
    TiesAppend(xs[..|xs| - 1], [xs[|xs| - 1]], key, v);
  }

  /** Stability: restricted to any one key value, the sorted output lists the same elements in the same order as the input. */
  lemma {:induction false} SortDescStable<T>(xs: seq<T>, key: T -> real, v: real)
    ensures Ties(SortDesc(xs, key), key, v) == Ties(xs, key, v)
  {
    if |xs| > 0 {
      var init := xs[..|xs| - 1];
      SortDescSnoc(xs, key);
      SortDescStable(init, key, v);
      InsertTies(xs[|xs| - 1], SortDesc(init, key), key, v);
      TiesSnoc(xs, key, v);
    }
  }

  /** Python `xs[:n]`: a negative `n` drops that many elements from the end. */
  function SliceTo<T>(xs: seq<T>, n: int): (r: seq<T>)
    ensures n >= 0 ==> |r| == MinNat(n, |xs|)
    ensures n < 0 ==> |r| == (if |xs| + n > 0 then |xs| + n else 0)
    ensures r == xs[..|r|]
  {
    if n >= 0 then xs[..MinNat(n, |xs|)]
    else if |xs| + n > 0 then xs[..|xs| + n]
    else []
  }

  /** The first `n` elements of the stable descending sort: the best `n` by key, best first. */
  function TopN<T(!new)>(xs: seq<T>, key: T -> real, n: nat): (r: seq<T>)
    ensures |r| == MinNat(n, |xs|)
    ensures NonIncreasing(r, key)
    ensures multiset(r) <= multiset(xs)
    ensures forall x :: x in multiset(xs) - multiset(r) ==> forall i :: 0 <= i < |r| ==> key(x) <= key(r[i])
  {
    var s := SortDesc(xs, key);
    var m := MinNat(n, |xs|);
    TopNSplit(s, key, m);
    s[..m]
  }

  lemma TopNSplit<T(!new)>(s: seq<T>, key: T -> real, m: nat)
    requires NonIncreasing(s, key) && m <= |s|
    ensures NonIncreasing(s[..m], key)
    ensures multiset(s[..m]) <= multiset(s)
    ensures forall x :: x in multiset(s) - multiset(s[..m]) ==> forall i :: 0 <= i < m ==> key(x) <= key(s[i])
  {
    assert s == s[..m] + s[m..];
    assert multiset(s) == multiset(s[..m]) + multiset(s[m..]);
    forall x | x in multiset(s) - multiset(s[..m])
      ensures forall i :: 0 <= i < m ==> key(x) <= key(s[i])
    {
      assert x in multiset(s[m..]);
      var j :| 0 <= j < |s[m..]| && s[m..][j] == x;
      assert s[m + j] == x;
    }
  }

  /** Python `max(xs, key=...)`: the FIRST element of maximal key. */
  function MaxFirst<T>(xs: seq<T>, key: T -> real): (i: nat)
    requires |xs| > 0
    ensures i < |xs|
    ensures forall j :: 0 <= j < |xs| ==> key(xs[j]) <= key(xs[i])
    ensures forall j :: 0 <= j < i ==> key(xs[j]) < key(xs[i])
  {
    if |xs| == 1 then 0
    else
      var i := MaxFirst(xs[..|xs| - 1], key);
      if key(xs[|xs| - 1]) > key(xs[i]) then |xs| - 1 else i
  }

  /** Rust `iter().max_by(...)`: the LAST element of maximal key. */
  function MaxLast<T>(xs: seq<T>, key: T -> real): (i: nat)
    requires |xs| > 0
    ensures i < |xs|
    ensures forall j :: 0 <= j < |xs| ==> key(xs[j]) <= key(xs[i])
    ensures forall j :: i < j < |xs| ==> key(xs[j]) < key(xs[i])
  {
    if |xs| == 1 then 0
    else
      var i := MaxLast(xs[..|xs| - 1], key);
      if key(xs[|xs| - 1]) >= key(xs[i]) then |xs| - 1 else i
  }

  function Map<T, U>(xs: seq<T>, f: T -> U): (r: seq<U>)
    ensures |r| == |xs| && forall i :: 0 <= i < |xs| ==> r[i] == f(xs[i])
  {
    seq(|xs|, i requires 0 <= i < |xs| => f(xs[i]))
  }

  /** `statistics.mean` of a non-empty list. */
  function Mean(xs: seq<real>): real
    requires |xs| > 0
  {
    Sum(xs) / |xs| as real
  }

  lemma {:induction false} MeanBounds(xs: seq<real>, lo: real, hi: real)
    requires |xs| > 0
    requires forall i :: 0 <= i < |xs| ==> lo <= xs[i] <= hi
    ensures lo <= Mean(xs) <= hi
  {
    SumBounds(xs, lo, hi);
  }

  lemma {:induction false} SumBounds(xs: seq<real>, lo: real, hi: real)
    requires forall i :: 0 <= i < |xs| ==> lo <= xs[i] <= hi
    ensures lo * |xs| as real <= Sum(xs) <= hi * |xs| as real
  {
    if |xs| > 0 {
      SumBounds(xs[..|xs| - 1], lo, hi);
    }
  }
}
