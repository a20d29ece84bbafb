/**
 Volume-at-price profiles: the `HashMap<i64, u64>` histograms that
 `pipeline/levels.rs`, `trading_core/daily_levels.rs` and `pipeline/lvn.rs`
 build, kept here as a list of buckets in increasing key order (the order
 the value-area code sorts them into), and the value-area expansion that
 grows outward from the point of control until 70% of the volume is
 covered.
 */
module Profile {
  import opened Base

  datatype Bucket = Bucket(key: int, volume: nat)

  type Histogram = seq<Bucket>

  /** Keys strictly increase, so each key appears once. */
  predicate Ordered(h: Histogram)
  {
    forall i, j :: 0 <= i < j < |h| ==> h[i].key < h[j].key
  }

  function VolumeAt(h: Histogram, k: int): nat
  {
    if |h| == 0 then 0 else (if h[0].key == k then h[0].volume else 0) + VolumeAt(h[1..], k)
  }

  function Total(h: Histogram): nat
  {
    if |h| == 0 then 0 else h[0].volume + Total(h[1..])
  }

  function Keys(h: Histogram): set<int>
  {
    set i | 0 <= i < |h| :: h[i].key
  }

  lemma {:induction false} AbsentKey(h: Histogram, k: int)
    requires forall i :: 0 <= i < |h| ==> h[i].key != k
    ensures VolumeAt(h, k) == 0
  {
    if |h| > 0 {
      AbsentKey(h[1..], k);
    }
  }

  /** `*volume_at_price.entry(k).or_insert(0) += v`. */
  function Add(h: Histogram, k: int, v: nat): (r: Histogram)
    requires Ordered(h)
    ensures Ordered(r)
    ensures |r| > 0
    ensures |h| > 0 ==> r[0].key == h[0].key || r[0].key == k
  {
    if |h| == 0 then
      [Bucket(k, v)]
    else if h[0].key == k then
      [Bucket(k, h[0].volume + v)] + h[1..]
    else if k < h[0].key then
      [Bucket(k, v)] + h
    else
      [h[0]] + Add(h[1..], k, v)
  }

  /** Adding moves exactly `v` into key `k`'s bucket and nothing else. */
  lemma {:induction false} AddVolumeAt(h: Histogram, k: int, v: nat, x: int)
    requires Ordered(h)
    ensures VolumeAt(Add(h, k, v), x) == VolumeAt(h, x) + (if x == k then v else 0)
  {
    var r := Add(h, k, v);
    if |h| == 0 {
    } else if h[0].key == k {
      assert r[1..] == h[1..];
    } else if k < h[0].key {
      assert r[1..] == h;
    } else {
      AddVolumeAt(h[1..], k, v, x);
      assert r[1..] == Add(h[1..], k, v);
    }
  }

  lemma {:induction false} AddTotal(h: Histogram, k: int, v: nat)
    requires Ordered(h)
    ensures Total(Add(h, k, v)) == Total(h) + v
  {
    var r := Add(h, k, v);
    if |h| == 0 {
    } else if h[0].key == k {
      assert r[1..] == h[1..];
    } else if k < h[0].key {
      assert r[1..] == h;
    } else {
      AddTotal(h[1..], k, v);
      assert r[1..] == Add(h[1..], k, v);
    }
  }

  lemma {:induction false} AddKeys(h: Histogram, k: int, v: nat)
    requires Ordered(h)
    ensures Keys(Add(h, k, v)) == Keys(h) + {k}
  {
    var r := Add(h, k, v);
    if |h| == 0 {
      assert r[0].key == k;
      KeysCons(r);
    } else if h[0].key == k {
      assert r[1..] == h[1..];
      KeysCons(h);
      KeysCons(r);
    } else if k < h[0].key {
      assert r[1..] == h;
      KeysCons(r);
    } else {
      AddKeys(h[1..], k, v);
      assert r[1..] == Add(h[1..], k, v);
      KeysCons(h);
      KeysCons(r);
    }
  }

  lemma KeysCons(h: Histogram)
    requires |h| > 0
    ensures Keys(h) == {h[0].key} + Keys(h[1..])
  {
    forall x | x in Keys(h) ensures x in {h[0].key} + Keys(h[1..]) {
      var i :| 0 <= i < |h| && h[i].key == x;
      if i > 0 {
        assert h[1..][i - 1].key == x;
      }
    }
    forall x | x in Keys(h[1..]) ensures x in Keys(h) {
      var i :| 0 <= i < |h[1..]| && h[1..][i].key == x;
      assert h[i + 1].key == x;
    }
  }

  /** The histogram of a list of (key, volume) contributions, added in order. */
  function Build(entries: seq<Bucket>): (r: Histogram)
    ensures Ordered(r)
    ensures |r| > 0 <==> |entries| > 0
    ensures Keys(r) == set i | 0 <= i < |entries| :: entries[i].key
  {
    if |entries| == 0 then []
    else
      var init := entries[..|entries| - 1];
      var last := entries[|entries| - 1];
      var r := Add(Build(init), last.key, last.volume);
      AddKeys(Build(init), last.key, last.volume);
      assert (set i | 0 <= i < |entries| :: entries[i].key)
          == (set i | 0 <= i < |init| :: init[i].key) + {last.key};
      r
  }

  function EntrySum(entries: seq<Bucket>): nat
  {
    if |entries| == 0 then 0 else EntrySum(entries[..|entries| - 1]) + entries[|entries| - 1].volume
  }

  /** Volume contributed to key `k`. */
  function EntryVolume(entries: seq<Bucket>, k: int): nat
  {
    if |entries| == 0 then 0
    else EntryVolume(entries[..|entries| - 1], k) + (if entries[|entries| - 1].key == k then entries[|entries| - 1].volume else 0)
  }

  /** Every contribution lands in its bucket: the histogram holds, per key and in total, what was added. */
  lemma {:induction false} BuildVolumes(entries: seq<Bucket>)
    ensures Total(Build(entries)) == EntrySum(entries)
    ensures forall x :: VolumeAt(Build(entries), x) == EntryVolume(entries, x)
  {
    if |entries| > 0 {
      var init := entries[..|entries| - 1];
      BuildVolumes(init);
      var last := entries[|entries| - 1];
      AddTotal(Build(init), last.key, last.volume);
      forall x ensures VolumeAt(Build(entries), x) == EntryVolume(entries, x) {
        AddVolumeAt(Build(init), last.key, last.volume, x);
      }
    }
  }

  /** In an ordered histogram a key's volume is the volume of its one bucket. */
  lemma {:induction false} VolumeAtIndex(h: Histogram, i: nat)
    requires Ordered(h) && i < |h|
    ensures VolumeAt(h, h[i].key) == h[i].volume
  {
    if i == 0 {
      AbsentKey(h[1..], h[0].key);
    } else {
      VolumeAtIndex(h[1..], i - 1);
    }
  }

  // ---------------------------------------------------------------------
  // Value area

  /** Volume of buckets lo..hi-1. */
  function Span(h: Histogram, lo: nat, hi: nat): nat
    requires lo <= hi <= |h|
    decreases hi - lo
  {
    if lo == hi then 0 else h[lo].volume + Span(h, lo + 1, hi)
  }

  lemma {:induction false} SpanSplit(h: Histogram, lo: nat, mid: nat, hi: nat)
    requires lo <= mid <= hi <= |h|
    ensures Span(h, lo, hi) == Span(h, lo, mid) + Span(h, mid, hi)
    decreases mid - lo
  {
    if lo < mid {
      SpanSplit(h, lo + 1, mid, hi);
    }
  }

  lemma {:induction false} SpanTotal(h: Histogram)
    ensures Span(h, 0, |h|) == Total(h)
  {
    if |h| > 0 {
      SpanTotal(h[1..]);
      SpanShift(h, 1, |h|);
    }
  }

  lemma {:induction false} SpanShift(h: Histogram, lo: nat, hi: nat)
    requires 1 <= lo <= hi <= |h|
    ensures Span(h[1..], lo - 1, hi - 1) == Span(h, lo, hi)
    decreases hi - lo
  {
    if lo < hi {
      SpanShift(h, lo + 1, hi);
    }
  }

  /**
   The expansion loop: while the covered volume is below the target and a
   side is left, take the next lower bucket when it exists and holds at
   least as much as the next upper one (or there is no upper one), and
   otherwise the next upper bucket. The source's third branch ("else if
   can_go_lower") can only be reached when there is no upper bucket, so it
   is folded into the first.
   */
  function Expand(h: Histogram, lo: nat, hi: nat, acc: nat, target: nat): (r: (nat, nat))
    requires lo <= hi < |h|
    ensures r.0 <= lo && hi <= r.1 < |h|
    decreases lo + (|h| - hi)
  {
    if acc >= target then (lo, hi)
    else
      var canLower := lo > 0;
      var canHigher := hi < |h| - 1;
      if !canLower && !canHigher then (lo, hi)
      else
        var lowerVol := if canLower then h[lo - 1].volume else 0;
        var upperVol := if canHigher then h[hi + 1].volume else 0;
        if canLower && (lowerVol >= upperVol || !canHigher) then Expand(h, lo - 1, hi, acc + lowerVol, target)
        else Expand(h, lo, hi + 1, acc + upperVol, target)
  }

  /**
   The expansion covers a contiguous run of buckets around its start; the
   volume it counts is exactly the volume of that run; it stops only once
   the target is met or every bucket is covered.
   */
  lemma {:induction false} ExpandCovers(h: Histogram, lo: nat, hi: nat, acc: nat, target: nat)
    requires lo <= hi < |h|
    requires acc == Span(h, lo, hi + 1)
    ensures var r := Expand(h, lo, hi, acc, target);
            Span(h, r.0, r.1 + 1) >= target || (r.0 == 0 && r.1 == |h| - 1)
    decreases lo + (|h| - hi)
  {
    if acc < target {
      var canLower := lo > 0;
      var canHigher := hi < |h| - 1;
      if canLower || canHigher {
        var lowerVol := if canLower then h[lo - 1].volume else 0;
        var upperVol := if canHigher then h[hi + 1].volume else 0;
        if canLower && (lowerVol >= upperVol || !canHigher) {
          assert Span(h, lo - 1, hi + 1) == h[lo - 1].volume + Span(h, lo, hi + 1);
          assert Expand(h, lo, hi, acc, target) == Expand(h, lo - 1, hi, acc + lowerVol, target);
          ExpandCovers(h, lo - 1, hi, acc + lowerVol, target);
        } else {
          SpanSplit(h, lo, hi + 1, hi + 2);
          assert Span(h, hi + 1, hi + 2) == h[hi + 1].volume;
          assert Expand(h, lo, hi, acc, target) == Expand(h, lo, hi + 1, acc + upperVol, target);
          ExpandCovers(h, lo, hi + 1, acc + upperVol, target);
        }
      }
    }
  }

  /** The point of control: a bucket of maximal volume. */
  predicate IsPeak(h: Histogram, i: nat)
  {
    i < |h| && forall j :: 0 <= j < |h| ==> h[j].volume <= h[i].volume
  }

  /** The 70% target: `(total as f64 * 0.70) as u64`. */
  function Target(total: nat): (t: nat)
    ensures t as real <= total as real * 0.7 < t as real + 1.0
  {
    (total as real * 0.7).Floor
  }

  /**
   Value area of a non-empty histogram around the peak `poc`: the first and
   last bucket index of the covered run.
   */
  function ValueArea(h: Histogram, poc: nat): (r: (nat, nat))
    requires IsPeak(h, poc)
    ensures r.0 <= poc <= r.1 < |h|
    ensures Ordered(h) ==> h[r.0].key <= h[poc].key <= h[r.1].key
    ensures Span(h, r.0, r.1 + 1) >= Target(Total(h)) || (r.0 == 0 && r.1 == |h| - 1)
  {
    assert Span(h, poc, poc + 1) == h[poc].volume;
    ExpandCovers(h, poc, poc, h[poc].volume, Target(Total(h)));
    Expand(h, poc, poc, h[poc].volume, Target(Total(h)))
  }

  /** Every histogram that is not empty has a peak (the first bucket of maximal volume). */
  function Peak(h: Histogram): (i: nat)
    requires |h| > 0
    ensures IsPeak(h, i)
    ensures forall j :: 0 <= j < i ==> h[j].volume < h[i].volume
  {
    if |h| == 1 then 0
    else
      var i := Peak(h[..|h| - 1]);
      if h[|h| - 1].volume > h[i].volume then |h| - 1 else i
  }

  /** In an ordered histogram no key holds more volume than a peak bucket. */
  lemma PeakDominates(h: Histogram, i: nat, x: int)
    requires Ordered(h) && IsPeak(h, i)
    ensures VolumeAt(h, x) <= h[i].volume
  {
    if x in Keys(h) {
      var j :| 0 <= j < |h| && h[j].key == x;
      VolumeAtIndex(h, j);
    } else {
      AbsentKey(h, x);
    }
  }

  predicate IsEntryKey(entries: seq<Bucket>, k: int)
  {
    exists i :: 0 <= i < |entries| && entries[i].key == k
  }

  datatype AreaKeys = AreaKeys(poc: int, vah: int, val: int)

  /**
   The bucket keys of the point of control and of the value area's upper
   and lower edge, for a non-empty list of contributions.
   */
  function ValueAreaKeys(entries: seq<Bucket>): (r: AreaKeys)
    requires |entries| > 0
    ensures r.val <= r.poc <= r.vah
  {
    var h := Build(entries);
    var poc := Peak(h);
    var area := ValueArea(h, poc);
    AreaKeys(h[poc].key, h[area.1].key, h[area.0].key)
  }

  /** The three keys received volume, and none holds more than the POC's. */
  lemma ValueAreaKeysFacts(entries: seq<Bucket>)
    requires |entries| > 0
    ensures var r := ValueAreaKeys(entries);
            IsEntryKey(entries, r.poc) && IsEntryKey(entries, r.vah) && IsEntryKey(entries, r.val)
    ensures forall x :: EntryVolume(entries, x) <= EntryVolume(entries, ValueAreaKeys(entries).poc)
  {
    var h := Build(entries);
    var poc := Peak(h);
    var area := ValueArea(h, poc);
    BuildVolumes(entries);
    VolumeAtIndex(h, poc);
    forall x ensures EntryVolume(entries, x) <= EntryVolume(entries, h[poc].key) {
      PeakDominates(h, poc, x);
    }
    KeyOfBuild(entries, poc);
    KeyOfBuild(entries, area.0);
    KeyOfBuild(entries, area.1);
  }

  lemma KeyOfBuild(entries: seq<Bucket>, i: nat)
    requires i < |Build(entries)|
    ensures IsEntryKey(entries, Build(entries)[i].key)
  {
    assert Build(entries)[i].key in Keys(Build(entries));
  }

  /** POC, VAH and VAL prices of a one-point-bucket profile. */
  datatype ProfileLevels = ProfileLevels(poc: real, vah: real, val: real)

  /**
   `compute_volume_profile` with one-point buckets: zeros without input,
   otherwise the value area's edges around the POC.
   */
  function VolumeProfile(entries: seq<Bucket>): (r: ProfileLevels)
    ensures |entries| == 0 ==> r == ProfileLevels(0.0, 0.0, 0.0)
    ensures r.val <= r.poc <= r.vah
  {
    if |entries| == 0 then ProfileLevels(0.0, 0.0, 0.0)
    else
      var a := ValueAreaKeys(entries);
      ProfileLevels(a.poc as real, a.vah as real, a.val as real)
  }

  /**
   Each of the three prices is a bucket that received volume, and no
   bucket holds more volume than the POC's.
   */
  lemma VolumeProfileKeys(entries: seq<Bucket>)
    requires |entries| > 0
    ensures exists k: int :: IsEntryKey(entries, k) && VolumeProfile(entries).poc == k as real
                             && forall x: int :: EntryVolume(entries, x) <= EntryVolume(entries, k)
    ensures exists k: int :: IsEntryKey(entries, k) && VolumeProfile(entries).vah == k as real
    ensures exists k: int :: IsEntryKey(entries, k) && VolumeProfile(entries).val == k as real
  {
    var a := ValueAreaKeys(entries);
    ValueAreaKeysFacts(entries);
    assert VolumeProfile(entries).poc == a.poc as real;
  }
}
