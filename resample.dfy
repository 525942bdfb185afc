/** Feature.adjust_to_metagene: stretching or shrinking the counts of a
    feature's interval onto the `metagene_length` bins of the metagene. Counts
    are reals; input bin i is read as spread uniformly over [i, i + 1), and
    output bin j collects what falls in [j * s, (j + 1) * s) with
    s = len(feature_array) / metagene_length. */
module Resample {

  function Clamp01(x: real): (r: real)
    ensures 0.0 <= r <= 1.0
  {
    if x < 0.0 then 0.0 else if x > 1.0 then 1.0 else x
  }

  /** The counts `fraction` of a bin holding `bin` contributes. */
  function Share(bin: real, fraction: real): real {
    bin * fraction
  }

  lemma ShareDifference(bin: real, a: real, b: real)
    ensures Share(bin, a) - Share(bin, b) == Share(bin, a - b)
  {
  }

  /** The counts found in the first `x` units of `v`. */
  function Cum(v: seq<real>, x: real): real
    decreases |v|
  {
    if v == [] then 0.0 else Cum(v[..|v| - 1], x) + Share(v[|v| - 1], Clamp01(x - (|v| - 1) as real))
  }

  function Sum(v: seq<real>): real
    decreases |v|
  {
    if v == [] then 0.0 else Sum(v[..|v| - 1]) + v[|v| - 1]
  }

  /** The left end of output bin j. */
  function Edge(j: int, s: real): real {
    j as real * s
  }

  /** The counts output bin j collects: what falls between its two edges. */
  function BinMass(v: seq<real>, s: real, j: int): real {
    Cum(v, Edge(j + 1, s)) - Cum(v, Edge(j, s))
  }

  /** The result of adjust_to_metagene: an empty interval gives the single
      bin [0.0]. */
  function Resampled(v: seq<real>, m: nat): (r: seq<real>)
    requires m >= 1
    ensures |r| == if v == [] then 1 else m
  {
    if v == [] then [0.0]
    else
      var s := |v| as real / m as real;
      seq(m, j => BinMass(v, s, j))
  }

  lemma {:induction false} CumBefore(v: seq<real>, x: real)
    requires x <= 0.0
    ensures Cum(v, x) == 0.0
    decreases |v|
  {
    if v != [] {
      CumBefore(v[..|v| - 1], x);
    }
  }

  lemma {:induction false} CumBeyond(v: seq<real>, x: real)
    requires x >= |v| as real
    ensures Cum(v, x) == Sum(v)
    decreases |v|
  {
    if v != [] {
      CumBeyond(v[..|v| - 1], x);
    }
  }

  /** Inside input bin i the counts grow at rate v[i]. */
  lemma {:induction false} CumWithin(v: seq<real>, i: nat, x: real, a: real)
    requires i < |v| && a >= 0.0 && i as real <= x && x + a <= (i + 1) as real
    ensures Cum(v, x + a) - Cum(v, x) == Share(v[i], a)
    decreases |v|
  {
    var last := |v| - 1;
    var w := v[..last];
    if i == last {
      CumBeyond(w, x);
      CumBeyond(w, x + a);
    } else {
      CumWithin(w, i, x, a);
      assert w[i] == v[i];
    }
  }

  lemma ScaleLe(k: int, m: int, s: real)
    requires s > 0.0 && Edge(k, s) <= Edge(m, s)
    ensures k <= m
  {
  }

  lemma ScaleLt(k: int, m: int, s: real)
    requires s > 0.0 && Edge(k, s) < Edge(m, s)
    ensures k < m
  {
  }

  lemma EdgeOfShrink(n: nat, m: nat)
    requires m >= 1
    ensures Edge(m, n as real / m as real) == n as real
  {
  }

  lemma EdgeSucc(k: int, s: real)
    ensures Edge(k + 1, s) == Edge(k, s) + s
  {
  }

  /** The full output bins of adjust_to_metagene, each holding what falls in
      its stretch [j * s, (j + 1) * s) of the interval. */
  ghost predicate FullBins(v: seq<real>, s: real, out: seq<real>) {
    forall j :: 0 <= j < |out| ==> out[j] == BinMass(v, s, j)
  }

  lemma AppendBin(v: seq<real>, s: real, out: seq<real>, filled: real, count: real)
    requires FullBins(v, s, out) && filled == Edge(|out|, s)
    requires count == Cum(v, filled + s) - Cum(v, filled)
    ensures FullBins(v, s, out + [count])
  {
    EdgeSucc(|out|, s);
    var out' := out + [count];
    forall j | 0 <= j < |out'|
      ensures out'[j] == BinMass(v, s, j)
    {
      if j < |out| {
        assert out'[j] == out[j];
      }
    }
  }

  /** All m bins full: the result is the specification's. */
  lemma FullBinsResampled(v: seq<real>, m: nat, out: seq<real>)
    requires m >= 1 && |v| > 0 && |out| == m
    requires FullBins(v, |v| as real / m as real, out)
    ensures out == Resampled(v, m)
  {
  }

  /** The state of adjust_to_metagene after `consumed` units of the interval:
      `out` holds the full output bins, the open bin starts at `filled`, holds
      `count` so far and has `remaining` room left. */
  ghost predicate Pouring(v: seq<real>, s: real, consumed: real, filled: real,
                          out: seq<real>, count: real, remaining: real)
  {
    && 0.0 <= remaining <= s
    && filled == Edge(|out|, s)
    && filled + (s - remaining) == consumed
    && count == Cum(v, consumed) - Cum(v, filled)
    && FullBins(v, s, out)
  }

  /** Between two steps the open bin always has room. */
  ghost predicate Poured(v: seq<real>, s: real, consumed: real, filled: real,
                         out: seq<real>, count: real, remaining: real)
  {
    Pouring(v, s, consumed, filled, out, count, remaining) && remaining > 0.0
  }

  /** Pouring `a` units of input bin i into the open bin. */
  lemma Consume(v: seq<real>, s: real, i: nat, consumed: real, a: real,
                filled: real, out: seq<real>, count: real, remaining: real)
    requires Pouring(v, s, consumed, filled, out, count, remaining)
    requires i < |v| && i as real <= consumed && 0.0 <= a <= remaining && consumed + a <= (i + 1) as real
    ensures Pouring(v, s, consumed + a, filled, out, count + Share(v[i], a), remaining - a)
  {
    CumWithin(v, i, consumed, a);
  }

  /** Appending the open bin once it is full. */
  lemma CloseBin(v: seq<real>, m: nat, s: real, consumed: real,
                 filled: real, out: seq<real>, count: real)
    requires Pouring(v, s, consumed, filled, out, count, 0.0)
    requires s > 0.0 && consumed <= Edge(m, s)
    ensures Poured(v, s, consumed, filled + s, out + [count], 0.0, s)
    ensures |out| + 1 <= m
  {
    EdgeSucc(|out|, s);
    ScaleLe(|out| + 1, m, s);
    AppendBin(v, s, out, filled, count);
  }

  /** The inner loop of adjust_to_metagene: input bin i is poured into the
      output bins until it is used up. */
  method PourFeatureBin(ghost v: seq<real>, m: nat, i: nat, bin: real, shrinkFactor: real,
                        ghost filled0: real, metageneArray: seq<real>, metageneCount: real,
                        remainingMetageneBin: real)
    returns (ghost filled: real, out: seq<real>, count: real, remaining: real)
    requires i < |v| && bin == v[i] && Edge(m, shrinkFactor) == |v| as real
    requires Poured(v, shrinkFactor, i as real, filled0, metageneArray, metageneCount, remainingMetageneBin)
    requires |metageneArray| <= m
    ensures Poured(v, shrinkFactor, (i + 1) as real, filled, out, count, remaining)
    ensures |out| <= m
  {
    ghost var s := shrinkFactor;
    filled, out, count, remaining := filled0, metageneArray, metageneCount, remainingMetageneBin;
    var remainingFeatureBin := 1.0;
    while remainingFeatureBin > 0.0
      invariant 0.0 <= remainingFeatureBin <= 1.0
      invariant Poured(v, s, i as real + (1.0 - remainingFeatureBin), filled, out, count, remaining)
      invariant |out| <= m
      decreases 2 * (m - |out|) + (if remainingFeatureBin > 0.0 then 1 else 0)
    {
      ghost var consumed := i as real + (1.0 - remainingFeatureBin);
      if remainingFeatureBin <= remaining {
        Consume(v, s, i, consumed, remainingFeatureBin, filled, out, count, remaining);
        count := count + Share(bin, remainingFeatureBin);
        remaining := remaining - remainingFeatureBin;
        remainingFeatureBin := 0.0;
      } else {
        Consume(v, s, i, consumed, remaining, filled, out, count, remaining);
        count := count + Share(bin, remaining);
        remainingFeatureBin := remainingFeatureBin - remaining;
        remaining := 0.0;
      }
      if remaining == 0.0 {
        CloseBin(v, m, s, i as real + (1.0 - remainingFeatureBin), filled, out, count);
        out := out + [count];
        count := 0.0;
        remaining := shrinkFactor;
        filled := filled + s;
      }
    }
  }

  /** Feature.adjust_to_metagene: every input bin is poured into the current
      output bin until one of them is exhausted; a full output bin is
      appended. */
  method AdjustToMetagene(featureArray: seq<real>, metageneLength: nat) returns (metageneArray: seq<real>)
    requires metageneLength >= 1
    ensures metageneArray == Resampled(featureArray, metageneLength)
  {
    ghost var v, m := featureArray, metageneLength;
    metageneArray := [];
    var metageneCount := 0.0;
    var shrinkFactor := |featureArray| as real / metageneLength as real;
    ghost var s := shrinkFactor;
    EdgeOfShrink(|v|, m);
    var remainingMetageneBin := shrinkFactor;
    ghost var filled := 0.0;
    if |v| > 0 {
      CumBefore(v, 0.0);
    }
    for i := 0 to |featureArray|
      invariant |v| > 0 ==> Poured(v, s, i as real, filled, metageneArray, metageneCount, remainingMetageneBin)
      invariant |metageneArray| <= m
      invariant |v| == 0 ==> metageneArray == [] && metageneCount == 0.0
    {
      filled, metageneArray, metageneCount, remainingMetageneBin :=
        PourFeatureBin(v, metageneLength, i, featureArray[i], shrinkFactor,
                       filled, metageneArray, metageneCount, remainingMetageneBin);
    }
    if |v| > 0 {
      // the whole interval is used up, so the last bin is full as well
      EdgeSucc(m - 1, s);
      ScaleLt((m - 1) as int, |metageneArray|, s);
      assert |metageneArray| == m;
      FullBinsResampled(v, m, metageneArray);
    }
    // never taken for a non-empty interval: there the loop has appended all bins
    if |metageneArray| < metageneLength {
      metageneArray := metageneArray + [metageneCount];
    }
  }

  /** How much of input bin i lies between `lo` and `hi`. */
  function Overlap(i: int, lo: real, hi: real): (r: real)
    ensures r >= 0.0
  {
    var left := if lo > i as real then lo else i as real;
    var right := if hi < (i + 1) as real then hi else (i + 1) as real;
    if right > left then right - left else 0.0
  }

  /** Every input bin weighted by its overlap with [lo, hi]. */
  function OverlapSum(v: seq<real>, lo: real, hi: real): real
    decreases |v|
  {
    if v == [] then 0.0
    else OverlapSum(v[..|v| - 1], lo, hi) + Share(v[|v| - 1], Overlap(|v| - 1, lo, hi))
  }

  lemma ClampOverlap(i: int, lo: real, hi: real)
    requires lo <= hi
    ensures Clamp01(hi - i as real) - Clamp01(lo - i as real) == Overlap(i, lo, hi)
  {
  }

  /** The counts between two points are the input bins weighted by how much
      of each lies between them. */
  lemma {:induction false} CumOverlap(v: seq<real>, lo: real, hi: real)
    requires lo <= hi
    ensures Cum(v, hi) - Cum(v, lo) == OverlapSum(v, lo, hi)
    decreases |v|
  {
    if v != [] {
      var last := |v| - 1;
      CumOverlap(v[..last], lo, hi);
      ClampOverlap(last, lo, hi);
      ShareDifference(v[last], Clamp01(hi - last as real), Clamp01(lo - last as real));
    }
  }

  /** Output bin j of a non-empty interval is the overlap-weighted sum of the
      input bins over its stretch [j * s, (j + 1) * s], s = len / metagene_length. */
  lemma ResampledOverlap(v: seq<real>, m: nat, j: nat)
    requires m >= 1 && v != [] && j < m
    ensures var s := |v| as real / m as real;
            Resampled(v, m)[j] == OverlapSum(v, Edge(j, s), Edge(j + 1, s))
  {
    var s := |v| as real / m as real;
    EdgeSucc(j, s);
    CumOverlap(v, Edge(j, s), Edge(j + 1, s));
  }

  lemma {:induction false} SumOfBins(v: seq<real>, m: nat, k: nat)
    requires m >= 1 && v != [] && k <= m
    ensures Sum(Resampled(v, m)[..k]) == Cum(v, Edge(k, |v| as real / m as real))
    decreases k
  {
    var r := Resampled(v, m);
    if k == 0 {
      CumBefore(v, 0.0);
    } else {
      SumOfBins(v, m, k - 1);
      assert r[..k][..k - 1] == r[..k - 1];
    }
  }

  /** Resampling conserves the counts of a non-empty interval. */
  lemma ResampledConserves(v: seq<real>, m: nat)
    requires m >= 1 && v != []
    ensures Sum(Resampled(v, m)) == Sum(v)
  {
    var s := |v| as real / m as real;
    SumOfBins(v, m, m);
    assert Resampled(v, m)[..m] == Resampled(v, m);
    EdgeOfShrink(|v|, m);
    CumBeyond(v, |v| as real);
  }

  /** A feature whose interval already has the metagene's length is unchanged. */
  lemma ResampledSameLength(v: seq<real>)
    requires v != []
    ensures Resampled(v, |v|) == v
  {
    var r := Resampled(v, |v|);
    forall j | 0 <= j < |v|
      ensures r[j] == v[j]
    {
      assert |v| as real / |v| as real == 1.0;
      CumWithin(v, j, j as real, 1.0);
    }
  }

  /** At a bin boundary the counts so far are the sum of the bins before it. */
  lemma {:induction false} CumAtBoundary(v: seq<real>, k: nat)
    requires k <= |v|
    ensures Cum(v, k as real) == Sum(v[..k])
    decreases k
  {
    if k == 0 {
      CumBefore(v, 0.0);
    } else {
      CumAtBoundary(v, k - 1);
      CumWithin(v, k - 1, (k - 1) as real, 1.0);
      assert v[..k][..k - 1] == v[..k - 1];
    }
  }

  lemma CumPart(v: seq<real>, k: nat, f: real)
    requires k < |v| && 0.0 <= f <= 1.0
    ensures Cum(v, k as real + f) == Sum(v[..k]) + Share(v[k], f)
  {
    CumAtBoundary(v, k);
    CumWithin(v, k, k as real, f);
  }

  /** The stretching example of Tester_Feature: four bins onto eight. */
  lemma ResampledStretchExample()
    ensures Resampled([16.0, 8.0, 24.0, 4.0], 8) == [8.0, 8.0, 4.0, 4.0, 12.0, 12.0, 2.0, 2.0]
  {
    var v := [16.0, 8.0, 24.0, 4.0];
    var r := Resampled(v, 8);
    var expected := [8.0, 8.0, 4.0, 4.0, 12.0, 12.0, 2.0, 2.0];
    forall j | 0 <= j < 8
      ensures r[j] == expected[j]
    {
      assert Edge(j, 0.5) == (j / 2) as real + (if j % 2 == 0 then 0.0 else 0.5);
      EdgeSucc(j, 0.5);
      CumWithin(v, j / 2, Edge(j, 0.5), 0.5);
    }
  }

  lemma ShrinkExampleCounts(v: seq<real>)
    requires v == [6.0, 8.0, 6.0, 2.0, 4.0, 4.0, 2.0, 4.0, 24.0, 8.0]
    ensures Cum(v, 0.0) == 0.0 && Cum(v, 2.5) == 17.0 && Cum(v, 5.0) == 26.0
    ensures Cum(v, 7.5) == 34.0 && Cum(v, 10.0) == 68.0
  {
    CumPart(v, 0, 0.0);
    CumPart(v, 2, 0.5);
    CumPart(v, 5, 0.0);
    CumPart(v, 7, 0.5);
    CumAtBoundary(v, 10);
    assert v[..10] == v;
    forall k | 1 <= k <= 10
      ensures Sum(v[..k]) == Sum(v[..k - 1]) + v[k - 1]
    {
      assert v[..k][..k - 1] == v[..k - 1];
    }
    assert Sum(v[..2]) == 14.0;
    assert Sum(v[..5]) == 26.0;
    assert Sum(v[..7]) == 32.0;
  }

  /** The shrinking example of Tester_Feature: ten bins onto four. */
  lemma ResampledShrinkExample()
    ensures Resampled([6.0, 8.0, 6.0, 2.0, 4.0, 4.0, 2.0, 4.0, 24.0, 8.0], 4) == [17.0, 9.0, 8.0, 34.0]
  {
    var v := [6.0, 8.0, 6.0, 2.0, 4.0, 4.0, 2.0, 4.0, 24.0, 8.0];
    var r := Resampled(v, 4);
    ShrinkExampleCounts(v);
    assert |v| as real / 4 as real == 2.5;
    assert Edge(0, 2.5) == 0.0 && Edge(1, 2.5) == 2.5 && Edge(2, 2.5) == 5.0;
    assert Edge(3, 2.5) == 7.5 && Edge(4, 2.5) == 10.0;
    assert r[0] == 17.0 && r[1] == 9.0 && r[2] == 8.0 && r[3] == 34.0;
  }
}
