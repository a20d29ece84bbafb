/**
 The parameter grid of the sweep drivers.

 `Product` is `itertools.product`: the first list is the outermost loop and
 the last list varies fastest. The Python scripts zip each tuple with the
 range names and then merge the fixed parameters into the dictionary; the
 Rust driver builds the same grid with nine nested loops into a typed record.
 */
module SweepGrid {
  import opened Base
  import opened Values

  /** Number of tuples in the product: the product of the list lengths. */
  function ProductSize<T>(lists: seq<seq<T>>): nat
  {
    if |lists| == 0 then 1 else |lists[0]| * ProductSize(lists[1..])
  }

  /** Each tail with `x` put in front. */
  function PrefixAll<T>(x: T, tails: seq<seq<T>>): (r: seq<seq<T>>)
    ensures |r| == |tails|
    ensures forall j :: 0 <= j < |r| ==> r[j] == [x] + tails[j]
  {
    seq(|tails|, j requires 0 <= j < |tails| => [x] + tails[j])
  }

  /** One block of tails per head value, in head order. */
  function Extend<T>(heads: seq<T>, tails: seq<seq<T>>): (r: seq<seq<T>>)
    ensures |r| == |heads| * |tails|
  {
    if |heads| == 0 then [] else PrefixAll(heads[0], tails) + Extend(heads[1..], tails)
  }

  lemma {:induction false} ExtendIndex<T>(heads: seq<T>, tails: seq<seq<T>>, i: nat, j: nat)
    requires i < |heads| && j < |tails|
    ensures i * |tails| + j < |Extend(heads, tails)|
    ensures Extend(heads, tails)[i * |tails| + j] == [heads[i]] + tails[j]
  {
    if i > 0 {
      ExtendIndex(heads[1..], tails, i - 1, j);
      assert i * |tails| + j == |tails| + ((i - 1) * |tails| + j);
    }
  }

  lemma {:induction false} ExtendMember<T>(heads: seq<T>, tails: seq<seq<T>>, t: seq<T>)
    ensures t in Extend(heads, tails) <==> |t| > 0 && t[0] in heads && t[1..] in tails
  {
    if |heads| > 0 {
      ExtendMember(heads[1..], tails, t);
      var p := PrefixAll(heads[0], tails);
      if t in p {
        var j :| 0 <= j < |p| && p[j] == t;
        assert t[1..] == tails[j];
      }
      if |t| > 0 && t[0] == heads[0] && t[1..] in tails {
        var j :| 0 <= j < |tails| && tails[j] == t[1..];
        assert p[j] == t;
      }
      if |t| > 0 {
        assert t[0] in heads <==> t[0] == heads[0] || t[0] in heads[1..] by {
          assert heads == [heads[0]] + heads[1..];
        }
      }
    }
  }

  /** `itertools.product(*lists)`. */
  function Product<T>(lists: seq<seq<T>>): (r: seq<seq<T>>)
    ensures forall k :: 0 <= k < |r| ==> |r[k]| == |lists|
  {
    if |lists| == 0 then [[]]
    else
      var rest := Product(lists[1..]);
      var r := Extend(lists[0], rest);
      assert forall k :: 0 <= k < |r| ==> |r[k]| == |lists| by {
        forall k | 0 <= k < |r|
          ensures |r[k]| == |lists|
        {
          assert r[k] in r;
          ExtendMember(lists[0], rest, r[k]);
          var t := r[k];
          assert t[1..] in rest;
        }
      }
      r
  }

  lemma {:induction false} ProductLength<T>(lists: seq<seq<T>>)
    ensures |Product(lists)| == ProductSize(lists)
  {
    if |lists| > 0 {
      ProductLength(lists[1..]);
    }
  }

  /** A tuple is produced iff it has one component per list, each drawn from its own list. */
  lemma {:induction false} ProductMember<T>(lists: seq<seq<T>>, t: seq<T>)
    ensures t in Product(lists) <==> |t| == |lists| && forall k :: 0 <= k < |t| ==> t[k] in lists[k]
  {
    if |lists| == 0 {
    } else if |t| == 0 {
      ExtendMember(lists[0], Product(lists[1..]), t);
    } else {
      ProductMember(lists[1..], t[1..]);
      ExtendMember(lists[0], Product(lists[1..]), t);
      if |t| == |lists| && (forall k :: 0 <= k < |t| ==> t[k] in lists[k]) {
        assert forall k :: 0 <= k < |t[1..]| ==> t[1..][k] == t[k + 1];
      }
      if t in Product(lists) {
        forall k | 0 <= k < |t|
          ensures t[k] in lists[k]
        {
          if k > 0 {
            assert t[k] == t[1..][k - 1];
          }
        }
      }
    }
  }

  /** Order of the product: the first list is the outermost loop. */
  lemma ProductOrder<T>(lists: seq<seq<T>>, i: nat, j: nat)
    requires |lists| > 0 && i < |lists[0]| && j < |Product(lists[1..])|
    ensures i * |Product(lists[1..])| + j < |Product(lists)|
    ensures Product(lists)[i * |Product(lists[1..])| + j] == [lists[0][i]] + Product(lists[1..])[j]
  {
    ExtendIndex(lists[0], Product(lists[1..]), i, j);
  }

  /** Order of the product: the last list varies fastest, cycling through its values. */
  lemma {:induction false} ProductLastFastest<T>(lists: seq<seq<T>>, k: nat)
    requires |lists| > 0 && k < |Product(lists)|
    ensures |lists[|lists| - 1]| > 0
    ensures Product(lists)[k][|lists| - 1] == lists[|lists| - 1][k % |lists[|lists| - 1]|]
    decreases |lists|, 1
  {
    var last := lists[|lists| - 1];
    ProductLength(lists);
    LastFactor(lists);
    if |lists| == 1 {
      assert Product(lists) == Extend(lists[0], [[]]);
      ExtendIndex(lists[0], [[]], k, 0);
      DivModUnique(k, |last|, 0, k);
    } else {
      var pr := Product(lists[1..]);
      ProductLength(lists[1..]);
      assert |pr| > 0;
      var i := k / |pr|;
      var j := k % |pr|;
      DivModSplit(k, |pr|);
      LastFastestStep(lists, k, i, j);
    }
  }

  lemma DivModSplit(k: nat, l: nat)
    requires l > 0
    ensures k == (k / l) * l + k % l && 0 <= k % l < l && k / l >= 0
  {
  }

  lemma {:induction false} LastFastestStep<T>(lists: seq<seq<T>>, k: nat, i: nat, j: nat)
    requires |lists| > 1 && k < |Product(lists)|
    requires j < |Product(lists[1..])| && k == i * |Product(lists[1..])| + j
    ensures |lists[|lists| - 1]| > 0
    ensures Product(lists)[k][|lists| - 1] == lists[|lists| - 1][k % |lists[|lists| - 1]|]
    decreases |lists|, 0
  {
    var last := lists[|lists| - 1];
    var rest := lists[1..];
    var pr := Product(rest);
    assert |Product(lists)| == |lists[0]| * |pr|;
    assert i < |lists[0]| by {
      if i >= |lists[0]| {
        MulMono(|lists[0]|, i, |pr|);
      }
    }
    ExtendIndex(lists[0], pr, i, j);
    assert Product(lists)[k] == [lists[0][i]] + pr[j];
    ProductLastFastest(rest, j);
    assert rest[|rest| - 1] == last;
    ProductLength(rest);
    LastFactor(rest);
    var q := ProductSize(rest[..|rest| - 1]);
    assert |pr| == q * |last|;
    MulAssoc(i, q, |last|);
    MulAddMod(i * q, |last|, j);
  }

  lemma MulAssoc(a: int, b: int, c: int)
    ensures a * (b * c) == (a * b) * c
  {
  }

  /** The product size is the size of all lists but the last, times the last list's length. */
  lemma {:induction false} LastFactor<T>(lists: seq<seq<T>>)
    requires |lists| > 0
    ensures ProductSize(lists) == ProductSize(lists[..|lists| - 1]) * |lists[|lists| - 1]|
  {
    var n := |lists|;
    if n == 1 {
      assert ProductSize(lists[..0]) == 1;
      assert ProductSize(lists[1..]) == 1;
    } else {
      LastFactor(lists[1..]);
      assert lists[1..][..n - 2] == lists[..n - 1][1..];
      assert lists[1..][n - 2] == lists[n - 1];
      var a := |lists[0]|;
      var b := ProductSize(lists[..n - 1][1..]);
      var c := |lists[n - 1]|;
      assert ProductSize(lists) == a * (b * c);
      assert ProductSize(lists[..n - 1]) == a * b;
      assert a * (b * c) == (a * b) * c;
    }
  }

  lemma MulMono(a: nat, b: nat, c: nat)
    requires a <= b
    ensures a * c <= b * c
  {
  }

  lemma DivModUnique(x: int, l: int, d: int, r: int)
    requires l > 0 && 0 <= r < l && x == d * l + r
    ensures x % l == r && x / l == d
  {
    var q := x / l;
    var r2 := x % l;
    assert x == q * l + r2;
    MulSub(q, d, l);
    assert (q - d) * l == r - r2;
    if q > d {
      MulAtLeast(q - d, l);
    } else if q < d {
      MulSub(d, q, l);
      MulAtLeast(d - q, l);
    }
  }

  lemma MulSub(a: int, b: int, l: int)
    ensures (a - b) * l == a * l - b * l
  {
  }

  lemma MulAtLeast(m: int, l: int)
    requires m >= 1 && l > 0
    ensures m * l >= l
  {
  }

  lemma MulAddMod(a: nat, l: nat, j: nat)
    requires l > 0
    ensures (a * l + j) % l == j % l
  {
    var q := j / l;
    var r := j % l;
    assert j == q * l + r;
    assert a * l + j == (a + q) * l + r;
    DivModUnique(a * l + j, l, a + q, r);
  }

  // ---------------------------------------------------------------------
  // Python: generate_combinations in param_sweep.py and param_sweep_targeted.py

  predicate DistinctKeys(keys: seq<string>)
  {
    forall a, b :: 0 <= a < b < |keys| ==> keys[a] != keys[b]
  }

  /** `dict(zip(keys, values))`. */
  function ZipMap(keys: seq<string>, vals: seq<Value>): (m: Row)
    requires |keys| == |vals|
    ensures m.Keys == set k | k in keys
  {
    if |keys| == 0 then map[]
    else ZipMap(keys[..|keys| - 1], vals[..|vals| - 1])[keys[|keys| - 1] := vals[|vals| - 1]]
  }

  lemma {:induction false} ZipMapLookup(keys: seq<string>, vals: seq<Value>, k: nat)
    requires |keys| == |vals| && DistinctKeys(keys) && k < |keys|
    ensures ZipMap(keys, vals)[keys[k]] == vals[k]
  {
    if k < |keys| - 1 {
      ZipMapLookup(keys[..|keys| - 1], vals[..|vals| - 1], k);
    }
  }

  /** One parameter dictionary per product tuple: the swept values zipped with their names, then the fixed parameters merged in with `update`. */
  function GenerateCombinations(keys: seq<string>, ranges: seq<seq<Value>>, fixed: Row): (r: seq<Row>)
    requires |keys| == |ranges|
    ensures |r| == ProductSize(ranges)
    ensures forall i :: 0 <= i < |r| ==> r[i].Keys == (set k | k in keys) + fixed.Keys
    ensures forall i, k :: 0 <= i < |r| && k in fixed ==> k in r[i] && r[i][k] == fixed[k]
  {
    var p := Product(ranges);
    ProductLength(ranges);
    seq(|p|, i requires 0 <= i < |p| => ZipMap(keys, p[i]) + fixed)
  }

  /** A swept key that is not also fixed holds a value from its own range, and every combination of range values appears. */
  lemma SweptValues(keys: seq<string>, ranges: seq<seq<Value>>, fixed: Row, i: nat, k: nat)
    requires |keys| == |ranges| && DistinctKeys(keys)
    requires i < |GenerateCombinations(keys, ranges, fixed)| && k < |keys| && keys[k] !in fixed
    ensures GenerateCombinations(keys, ranges, fixed)[i][keys[k]] in ranges[k]
  {
    var p := Product(ranges);
    ProductLength(ranges);
    ZipMapLookup(keys, p[i], k);
    ProductMember(ranges, p[i]);
  }

  /** Fixed parameters win on a name clash: `update` runs after `zip`. */
  lemma FixedOverridesSwept(keys: seq<string>, ranges: seq<seq<Value>>, fixed: Row, i: nat, k: nat)
    requires |keys| == |ranges|
    requires i < |GenerateCombinations(keys, ranges, fixed)| && k < |keys| && keys[k] in fixed
    ensures GenerateCombinations(keys, ranges, fixed)[i][keys[k]] == fixed[keys[k]]
  {
  }

  const SweptKeys: seq<string> := [
    "min_delta", "max_lvn_ratio", "min_impulse_size", "min_impulse_score",
    "take_profit", "trailing_stop", "stop_buffer", "breakout_threshold", "max_hunting_bars"]

  /** PARAM_RANGES of the full sweep. */
  const FullRanges: seq<seq<Value>> := [
    [VInt(10), VInt(15), VInt(20), VInt(25), VInt(30), VInt(40), VInt(50)],
    [VReal(0.15), VReal(0.20), VReal(0.25), VReal(0.30)],
    [VReal(15.0), VReal(20.0), VReal(25.0), VReal(30.0)],
    [VInt(3), VInt(4)],
    [VInt(20), VInt(25), VInt(30), VInt(35)],
    [VInt(6), VInt(8), VInt(10)],
    [VInt(2), VInt(3)],
    [VReal(2.0), VReal(3.0)],
    [VInt(600), VInt(900), VInt(1200)]]

  /** QUICK_RANGES of the full sweep (`--quick`). */
  const QuickRanges: seq<seq<Value>> := [
    [VInt(15), VInt(25), VInt(40)],
    [VReal(0.20), VReal(0.30)],
    [VReal(20.0)],
    [VInt(3), VInt(4)],
    [VInt(25), VInt(30)],
    [VInt(6), VInt(8)],
    [VInt(2)],
    [VReal(2.0)],
    [VInt(600)]]

  /** PARAM_RANGES of the targeted sweep. */
  const TargetedRanges: seq<seq<Value>> := [
    [VInt(15), VInt(20), VInt(25), VInt(30), VInt(35), VInt(40)],
    [VReal(0.25)],
    [VReal(20.0)],
    [VInt(4)],
    [VInt(25), VInt(30), VInt(35)],
    [VInt(5), VInt(6), VInt(7), VInt(8)],
    [VInt(2), VInt(3)],
    [VReal(2.0)],
    [VInt(600), VInt(900)]]

  /** FIXED_PARAMS, identical in both Python drivers. */
  const FixedParams: Row := map[
    "cache_dir" := VStr("cache_2025"),
    "contracts" := VInt(1),
    "start_hour" := VInt(9),
    "start_minute" := VInt(30),
    "end_hour" := VInt(16),
    "end_minute" := VInt(0),
    "level_tolerance" := VReal(2.0),
    "starting_balance" := VInt(50000),
    "max_impulse_bars" := VInt(300),
    "max_retrace_ratio" := VReal(0.7),
    "max_win_cap" := VInt(0),
    "outlier_threshold" := VInt(0)]

  lemma GridSizes()
    ensures |GenerateCombinations(SweptKeys, FullRanges, FixedParams)| == 32256
    ensures |GenerateCombinations(SweptKeys, QuickRanges, FixedParams)| == 48
    ensures |GenerateCombinations(SweptKeys, TargetedRanges, FixedParams)| == 288
  {
    FullGridSize();
    QuickGridSize();
    TargetedGridSize();
  }

  lemma FullGridSize()
    ensures ProductSize(FullRanges) == 32256
  {
    assert ProductSize(FullRanges[8..]) == 3;
    assert ProductSize(FullRanges[7..]) == 6;
    assert ProductSize(FullRanges[6..]) == 12;
    assert ProductSize(FullRanges[5..]) == 36;
    assert ProductSize(FullRanges[4..]) == 144;
    assert ProductSize(FullRanges[3..]) == 288;
    assert ProductSize(FullRanges[2..]) == 1152;
    assert ProductSize(FullRanges[1..]) == 4608;
  }

  lemma QuickGridSize()
    ensures ProductSize(QuickRanges) == 48
  {
    assert ProductSize(QuickRanges[8..]) == 1;
    assert ProductSize(QuickRanges[7..]) == 1;
    assert ProductSize(QuickRanges[6..]) == 1;
    assert ProductSize(QuickRanges[5..]) == 2;
    assert ProductSize(QuickRanges[4..]) == 4;
    assert ProductSize(QuickRanges[3..]) == 8;
    assert ProductSize(QuickRanges[2..]) == 8;
    assert ProductSize(QuickRanges[1..]) == 16;
  }

  lemma TargetedGridSize()
    ensures ProductSize(TargetedRanges) == 288
  {
    assert ProductSize(TargetedRanges[8..]) == 2;
    assert ProductSize(TargetedRanges[7..]) == 2;
    assert ProductSize(TargetedRanges[6..]) == 4;
    assert ProductSize(TargetedRanges[5..]) == 16;
    assert ProductSize(TargetedRanges[4..]) == 48;
    assert ProductSize(TargetedRanges[3..]) == 48;
    assert ProductSize(TargetedRanges[2..]) == 48;
    assert ProductSize(TargetedRanges[1..]) == 48;
  }

  /** No swept name is also a fixed name, so every swept value survives the merge. */
  lemma SweptAndFixedDisjoint()
    ensures forall k :: 0 <= k < |SweptKeys| ==> SweptKeys[k] !in FixedParams
    ensures DistinctKeys(SweptKeys)
  {
  }

  // ---------------------------------------------------------------------
  // Rust: sweep::generate_combinations

  datatype SweepParams = SweepParams(
    minDelta: int,
    maxLvnRatio: real,
    minImpulseSize: real,
    minImpulseScore: nat,
    takeProfit: real,
    trailingStop: real,
    stopBuffer: real,
    breakoutThreshold: real,
    maxHuntingBars: nat)

  function IntValues(xs: seq<int>): (r: seq<Value>)
    ensures |r| == |xs| && forall i :: 0 <= i < |xs| ==> r[i] == VInt(xs[i])
  {
    seq(|xs|, i requires 0 <= i < |xs| => VInt(xs[i]))
  }

  function RealValues(xs: seq<real>): (r: seq<Value>)
    ensures |r| == |xs| && forall i :: 0 <= i < |xs| ==> r[i] == VReal(xs[i])
  {
    seq(|xs|, i requires 0 <= i < |xs| => VReal(xs[i]))
  }

  function NatValues(xs: seq<nat>): (r: seq<Value>)
    ensures |r| == |xs| && forall i :: 0 <= i < |xs| ==> r[i] == VInt(xs[i])
  {
    seq(|xs|, i requires 0 <= i < |xs| => VInt(xs[i]))
  }

  function AsInt(v: Value): int { if v.VInt? then v.i else 0 }
  function AsReal(v: Value): real { if v.VReal? then v.x else 0.0 }
  function AsNat(v: Value): nat { if v.VInt? && v.i >= 0 then v.i else 0 }

  /** The nine parameter slices in loop order, outermost first. */
  datatype SweepSlices = SweepSlices(
    minDelta: seq<int>,
    maxLvnRatio: seq<real>,
    minImpulseSize: seq<real>,
    minImpulseScore: seq<nat>,
    takeProfit: seq<real>,
    trailingStop: seq<real>,
    stopBuffer: seq<real>,
    breakoutThreshold: seq<real>,
    maxHuntingBars: seq<nat>)
  {
    function Lists(): seq<seq<Value>>
    {
      [IntValues(minDelta), RealValues(maxLvnRatio), RealValues(minImpulseSize), NatValues(minImpulseScore),
       RealValues(takeProfit), RealValues(trailingStop), RealValues(stopBuffer), RealValues(breakoutThreshold),
       NatValues(maxHuntingBars)]
    }

    function Size(): nat
    {
      |minDelta| * (|maxLvnRatio| * (|minImpulseSize| * (|minImpulseScore| * (|takeProfit| * (|trailingStop|
        * (|stopBuffer| * (|breakoutThreshold| * |maxHuntingBars|)))))))
    }
  }

  function ToParams(t: seq<Value>): SweepParams
    requires |t| == 9
  {
    SweepParams(AsInt(t[0]), AsReal(t[1]), AsReal(t[2]), AsNat(t[3]), AsReal(t[4]), AsReal(t[5]),
                AsReal(t[6]), AsReal(t[7]), AsNat(t[8]))
  }

  /** The nine nested loops: one record per tuple, `min_delta` outermost and `max_hunting_bars` innermost. */
  function RustGenerateCombinations(s: SweepSlices): (r: seq<SweepParams>)
    ensures |r| == s.Size()
  {
    var p := Product(s.Lists());
    ProductLength(s.Lists());
    assert ProductSize(s.Lists()) == s.Size() by {
      var l := s.Lists();
      assert ProductSize(l[9..]) == 1;
      assert ProductSize(l[8..]) == |s.maxHuntingBars| * 1;
      assert ProductSize(l[7..]) == |s.breakoutThreshold| * ProductSize(l[8..]);
      assert ProductSize(l[6..]) == |s.stopBuffer| * ProductSize(l[7..]);
      assert ProductSize(l[5..]) == |s.trailingStop| * ProductSize(l[6..]);
      assert ProductSize(l[4..]) == |s.takeProfit| * ProductSize(l[5..]);
      assert ProductSize(l[3..]) == |s.minImpulseScore| * ProductSize(l[4..]);
      assert ProductSize(l[2..]) == |s.minImpulseSize| * ProductSize(l[3..]);
      assert ProductSize(l[1..]) == |s.maxLvnRatio| * ProductSize(l[2..]);
    }
    seq(|p|, i requires 0 <= i < |p| => ToParams(p[i]))
  }

  /** Each field of each record comes from its own slice; no value is cross-assigned. */
  lemma RustFieldsFromOwnSlices(s: SweepSlices, i: nat)
    requires i < |RustGenerateCombinations(s)|
    ensures var c := RustGenerateCombinations(s)[i];
      && c.minDelta in s.minDelta && c.maxLvnRatio in s.maxLvnRatio && c.minImpulseSize in s.minImpulseSize
      && c.minImpulseScore in s.minImpulseScore && c.takeProfit in s.takeProfit && c.trailingStop in s.trailingStop
      && c.stopBuffer in s.stopBuffer && c.breakoutThreshold in s.breakoutThreshold
      && c.maxHuntingBars in s.maxHuntingBars
  {
    var l := s.Lists();
    var p := Product(l);
    ProductLength(l);
    var t := p[i];
    ProductMember(l, t);
    assert forall k :: 0 <= k < 9 ==> t[k] in l[k];
    assert t[0] in IntValues(s.minDelta);
    assert t[8] in NatValues(s.maxHuntingBars);
  }

  /** Loop order: the innermost loop is `max_hunting_bars`, so it cycles fastest. */
  lemma RustInnermostHunting(s: SweepSlices, i: nat)
    requires i < |RustGenerateCombinations(s)|
    ensures |s.maxHuntingBars| > 0
    ensures RustGenerateCombinations(s)[i].maxHuntingBars == s.maxHuntingBars[i % |s.maxHuntingBars|]
  {
    var l := s.Lists();
    ProductLength(l);
    ProductLastFastest(l, i);
  }

  /** Loop order: the outermost loop is `min_delta`, so each value owns one contiguous block. */
  lemma RustOutermostDelta(s: SweepSlices, a: nat, j: nat)
    requires a < |s.minDelta| && j < |Product(s.Lists()[1..])|
    ensures a * |Product(s.Lists()[1..])| + j < |RustGenerateCombinations(s)|
    ensures RustGenerateCombinations(s)[a * |Product(s.Lists()[1..])| + j].minDelta == s.minDelta[a]
  {
    ProductOrder(s.Lists(), a, j);
  }
}
