/** Feature.py: a genomic feature, the window of reference positions around it,
    and the count arrays that reads are added to. */
module Features {
  import opened Wrappers
  import opened Errors
  import opened Text
  import opened MetageneMethods
  import Metagene
  import Reads
  import Resample

  /** The `count_method` of the command line: the start, the end or all of a
      feature (and of a read). */
  datatype CountMethod = Start | End | All

  // ---------------------------------------------------------------- windows

  /** `range(lo, hi + 1)`: the positions lo .. hi. */
  function Span(lo: int, hi: int): (r: seq<int>)
    ensures |r| == if hi >= lo then hi - lo + 1 else 0
    ensures forall k :: 0 <= k < |r| ==> r[k] == lo + k
  {
    seq(if hi >= lo then hi - lo + 1 else 0, k => lo + k)
  }

  /** The `position_array` of Feature.__init__: the window around the feature
      (or around its start or end base), 5' to 3' with respect to the feature,
      so a minus-strand window runs from high to low positions. */
  function Window(countMethod: CountMethod, strand: Reads.Strand, start: int, end: int, up: nat, down: nat): (r: seq<int>)
    ensures Consecutive(r, strand)
    ensures start <= end ==> |r| == up + (if countMethod == All then end - start + 1 else 1) + down
  {
    if strand == Reads.Minus then
      // the chromosome start is the feature's end
      var first := if countMethod == Start then end else start;
      var last := if countMethod == End then start else end;
      assert start <= end ==> last - first == if countMethod == All then end - start else 0;
      Reads.Reversed(Span(first - down, last + up))
    else
      var first := if countMethod == End then end else start;
      var last := if countMethod == Start then start else end;
      assert start <= end ==> last - first == if countMethod == All then end - start else 0;
      Span(first - up, last + down)
  }

  /** Consecutive positions, ascending, or descending on the minus strand. */
  predicate Consecutive(window: seq<int>, strand: Reads.Strand) {
    forall k :: 0 <= k < |window| ==> window[k] == if strand == Reads.Minus then window[0] - k else window[0] + k
  }

  /** With count method `all` the window runs from `up` bases before the
      feature's 5' end to `down` bases after its 3' end. */
  lemma WindowOfFeature(strand: Reads.Strand, start: int, end: int, up: nat, down: nat)
    requires start <= end
    ensures var w := Window(All, strand, start, end, up, down);
            && |w| == up + (end - start + 1) + down
            && Consecutive(w, strand)
            && (strand != Reads.Minus ==> w[0] == start - up && w[up] == start && w[|w| - 1] == end + down)
            && (strand == Reads.Minus ==> w[0] == end + up && w[up] == end && w[|w| - 1] == start - down)
  {
  }

  /** The base that count method `start` or `end` reduces a feature to: its 5'
      or 3' end, which on the minus strand is the larger or smaller coordinate. */
  function BaseOf(countMethod: CountMethod, strand: Reads.Strand, start: int, end: int): int {
    if (countMethod == Start) == (strand != Reads.Minus) then start else end
  }

  /** With count method `start` or `end` the window shrinks to that one base
      plus the padding. */
  lemma WindowOfBase(countMethod: CountMethod, strand: Reads.Strand, start: int, end: int, up: nat, down: nat)
    requires countMethod != All
    ensures var w := Window(countMethod, strand, start, end, up, down);
            var base := BaseOf(countMethod, strand, start, end);
            && |w| == up + 1 + down
            && Consecutive(w, strand)
            && w[up] == base
            && w[0] == (if strand == Reads.Minus then base + up else base - up)
  {
    var base := BaseOf(countMethod, strand, start, end);
    var w := Window(countMethod, strand, start, end, up, down);
    if strand == Reads.Minus {
      assert w == Reads.Reversed(Span(base - down, base + up));
      ReversedSpanConsecutive(base - down, base + up);
    } else {
      assert w == Span(base - up, base + down);
      assert forall k :: 0 <= k < |w| ==> w[k] == w[0] + k;
    }
  }

  /** A reversed span counts down from its upper end. */
  lemma ReversedSpanConsecutive(lo: int, hi: int)
    requires lo <= hi
    ensures var w := Reads.Reversed(Span(lo, hi));
            |w| == hi - lo + 1 && w[0] == hi && Consecutive(w, Reads.Minus)
  {
    var span := Span(lo, hi);
    var w := Reads.Reversed(span);
    forall k | 0 <= k < |w| ensures w[k] == w[0] - k {
      assert w[k] == span[|span| - 1 - k];
    }
  }

  /** The windows of the feature tests: BED 20..40 on + (1-based 21..40) and
      GFF 10..39 on -, with padding 4 and 2. */
  lemma WindowExamples()
    ensures Window(All, Reads.Plus, 21, 40, 4, 2) == Span(17, 42)
    ensures Window(Start, Reads.Plus, 21, 40, 4, 2) == [17, 18, 19, 20, 21, 22, 23]
    ensures Window(End, Reads.Plus, 21, 40, 4, 2) == [36, 37, 38, 39, 40, 41, 42]
    ensures Window(Start, Reads.Minus, 10, 39, 4, 2) == [43, 42, 41, 40, 39, 38, 37]
    ensures Window(End, Reads.Minus, 10, 39, 4, 2) == [14, 13, 12, 11, 10, 9, 8]
  {
  }

  // ---------------------------------------------------------------- count keys

  /** A `counts_array` key "orientation:gap". */
  function Key(orientation: string, gap: string): string {
    orientation + ":" + gap
  }

  function Orientations(stranded: bool): seq<string> {
    if stranded then ["sense", "antisense"] else ["unstranded"]
  }

  function GapNames(gapCounting: bool): seq<string> {
    if gapCounting then ["ungapped", "gapped"] else ["allreads"]
  }

  function KeysFor(orientation: string, gaps: seq<string>): (r: seq<string>)
    ensures |r| == |gaps|
    ensures forall j :: 0 <= j < |gaps| ==> r[j] == Key(orientation, gaps[j])
  {
    seq(|gaps|, j requires 0 <= j < |gaps| => Key(orientation, gaps[j]))
  }

  /** Every orientation combined with every gap status, orientation by orientation. */
  function KeyProduct(orientations: seq<string>, gaps: seq<string>): seq<string>
    decreases |orientations|
  {
    if orientations == [] then []
    else KeyProduct(orientations[..|orientations| - 1], gaps) + KeysFor(orientations[|orientations| - 1], gaps)
  }

  /** A key of the product is a key of one orientation's row. */
  lemma {:induction false} KeyProductRows(orientations: seq<string>, gaps: seq<string>, key: string)
    ensures key in KeyProduct(orientations, gaps) <==>
              exists i :: 0 <= i < |orientations| && key in KeysFor(orientations[i], gaps)
    decreases |orientations|
  {
    if orientations != [] {
      var n := |orientations| - 1;
      var init := orientations[..n];
      assert KeyProduct(orientations, gaps) == KeyProduct(init, gaps) + KeysFor(orientations[n], gaps);
      KeyProductRows(init, gaps, key);
      if key in KeyProduct(init, gaps) {
        var i :| 0 <= i < n && key in KeysFor(init[i], gaps);
        assert init[i] == orientations[i];
      }
      if exists i :: 0 <= i < |orientations| && key in KeysFor(orientations[i], gaps) {
        var i :| 0 <= i < |orientations| && key in KeysFor(orientations[i], gaps);
        if i < n {
          assert init[i] == orientations[i];
        }
      }
    }
  }

  /** The keys of the product are exactly the keys "orientation:gap" of an
      orientation and a gap status. */
  lemma KeyProductMembers(orientations: seq<string>, gaps: seq<string>, key: string)
    ensures key in KeyProduct(orientations, gaps) <==>
              exists i, j :: 0 <= i < |orientations| && 0 <= j < |gaps| && key == Key(orientations[i], gaps[j])
  {
    KeyProductRows(orientations, gaps, key);
    if key in KeyProduct(orientations, gaps) {
      var i :| 0 <= i < |orientations| && key in KeysFor(orientations[i], gaps);
      var j :| 0 <= j < |gaps| && KeysFor(orientations[i], gaps)[j] == key;
    }
    if exists i, j :: 0 <= i < |orientations| && 0 <= j < |gaps| && key == Key(orientations[i], gaps[j]) {
      var i, j :| 0 <= i < |orientations| && 0 <= j < |gaps| && key == Key(orientations[i], gaps[j]);
      assert KeysFor(orientations[i], gaps)[j] == key;
    }
  }

  /** The keys Feature.__init__ creates. */
  function SubsetKeys(strand: Reads.Strand, gapCounting: bool): seq<string> {
    KeyProduct(Orientations(strand != Reads.Unstranded), GapNames(gapCounting))
  }

  /** An unstranded feature counts "unstranded" reads, a stranded one "sense"
      and "antisense" reads; each split into "ungapped" and "gapped" when gaps
      are counted and "allreads" when not. */
  lemma SubsetKeysMembers(strand: Reads.Strand, gapCounting: bool, key: string)
    ensures key in SubsetKeys(strand, gapCounting) <==>
              exists o, g :: o in Orientations(strand != Reads.Unstranded) && g in GapNames(gapCounting) && key == Key(o, g)
  {
    KeyProductMembers(Orientations(strand != Reads.Unstranded), GapNames(gapCounting), key);
  }

  /** All keys in the order `sorted(keys, reverse=True)` puts them. */
  const OrientationOrder: seq<string> := ["unstranded", "sense", "antisense"]
  const GapOrder: seq<string> := ["ungapped", "gapped", "allreads"]

  function AllKeys(): seq<string> {
    KeyProduct(OrientationOrder, GapOrder)
  }

  lemma SubsetKeysKnown(strand: Reads.Strand, gapCounting: bool, key: string)
    requires key in SubsetKeys(strand, gapCounting)
    ensures key in AllKeys()
  {
    var os, gs := Orientations(strand != Reads.Unstranded), GapNames(gapCounting);
    KeyProductMembers(os, gs, key);
    var i, j :| 0 <= i < |os| && 0 <= j < |gs| && key == Key(os[i], gs[j]);
    var i' := if os[i] == "unstranded" then 0 else if os[i] == "sense" then 1 else 2;
    var j' := if gs[j] == "ungapped" then 0 else if gs[j] == "gapped" then 1 else 2;
    assert OrientationOrder[i'] == os[i] && GapOrder[j'] == gs[j];
    KeyProductMembers(OrientationOrder, GapOrder, key);
  }

  /** Strictly decreasing in Python's string order. */
  predicate Descending(s: seq<string>) {
    forall i, j :: 0 <= i < j < |s| ==> LexLess(s[j], s[i])
  }

  /** Non-empty names whose first characters strictly decrease. */
  predicate FirstCharsDescending(s: seq<string>) {
    && (forall i :: 0 <= i < |s| ==> s[i] != [])
    && (forall i, j :: 0 <= i < j < |s| ==> s[j][0] < s[i][0])
  }

  lemma KeysForDescending(orientation: string, gaps: seq<string>)
    requires FirstCharsDescending(gaps)
    ensures Descending(KeysFor(orientation, gaps))
  {
    var r := KeysFor(orientation, gaps);
    forall i, j | 0 <= i < j < |r|
      ensures LexLess(r[j], r[i])
    {
      LexLessFirst(gaps[j], gaps[i]);
      LexLessPrefix(orientation + ":", gaps[j], gaps[i]);
    }
  }

  lemma {:induction false} KeyProductDescending(orientations: seq<string>, gaps: seq<string>)
    requires FirstCharsDescending(orientations) && FirstCharsDescending(gaps)
    ensures Descending(KeyProduct(orientations, gaps))
    decreases |orientations|
  {
    if orientations != [] {
      var n := |orientations| - 1;
      var front, o := orientations[..n], orientations[n];
      var p, q := KeyProduct(front, gaps), KeysFor(o, gaps);
      KeyProductDescending(front, gaps);
      KeysForDescending(o, gaps);
      var r := p + q;
      forall i, j | 0 <= i < j < |r|
        ensures LexLess(r[j], r[i])
      {
        if j < |p| {
          assert r[i] == p[i] && r[j] == p[j];
        } else if i >= |p| {
          assert r[i] == q[i - |p|] && r[j] == q[j - |p|];
        } else {
          assert r[i] in p && r[j] in q;
          KeyBelowRows(front, o, gaps, r[i], r[j]);
        }
      }
    }
  }

  /** A key of a later orientation, whose first character is smaller, sorts
      below every key of the earlier orientations. */
  lemma KeyBelowRows(front: seq<string>, o: string, gaps: seq<string>, x: string, y: string)
    requires o != [] && forall a :: 0 <= a < |front| ==> front[a] != [] && o[0] < front[a][0]
    requires x in KeyProduct(front, gaps) && y in KeysFor(o, gaps)
    ensures LexLess(y, x)
  {
    KeyProductRows(front, gaps, x);
    var a :| 0 <= a < |front| && x in KeysFor(front[a], gaps);
    var b :| 0 <= b < |gaps| && KeysFor(front[a], gaps)[b] == x;
    var c :| 0 <= c < |gaps| && KeysFor(o, gaps)[c] == y;
    assert x == Key(front[a], gaps[b]) && y == Key(o, gaps[c]);
    LexLessFirst(y, x);
  }

  /** `sorted(keys, reverse=True)` for keys from AllKeys. */
  function Filter(s: seq<string>, keys: set<string>): seq<string>
    decreases |s|
  {
    if s == [] then []
    else Filter(s[..|s| - 1], keys) + (if s[|s| - 1] in keys then [s[|s| - 1]] else [])
  }

  lemma {:induction false} FilterMembers(s: seq<string>, keys: set<string>, key: string)
    ensures key in Filter(s, keys) <==> key in s && key in keys
    decreases |s|
  {
    if s != [] {
      FilterMembers(s[..|s| - 1], keys, key);
      assert s == s[..|s| - 1] + [s[|s| - 1]];
    }
  }

  lemma {:induction false} FilterDescending(s: seq<string>, keys: set<string>)
    requires Descending(s)
    ensures Descending(Filter(s, keys))
    decreases |s|
  {
    if s != [] {
      var n := |s| - 1;
      FilterDescending(s[..n], keys);
      var f := Filter(s[..n], keys);
      if s[n] in keys {
        var r := f + [s[n]];
        forall i, j | 0 <= i < j < |r|
          ensures LexLess(r[j], r[i])
        {
          if j < |f| {
            assert r[i] == f[i] && r[j] == f[j];
          } else {
            FilterMembers(s[..n], keys, f[i]);
            var k :| 0 <= k < n && s[..n][k] == f[i];
            assert s[k] == f[i];
          }
        }
      }
    }
  }

  function PrintOrder(keys: set<string>): seq<string> {
    Filter(AllKeys(), keys)
  }

  /** print_metagene visits every key it knows of exactly once, in reverse
      sorted order: "unstranded" before "sense" before "antisense", and
      "ungapped" before "gapped" before "allreads". */
  lemma PrintOrderSorted(keys: set<string>)
    ensures Descending(PrintOrder(keys))
    ensures forall key :: key in PrintOrder(keys) <==> key in keys && key in AllKeys()
  {
    assert FirstCharsDescending(OrientationOrder);
    assert FirstCharsDescending(GapOrder);
    KeyProductDescending(OrientationOrder, GapOrder);
    FilterDescending(AllKeys(), keys);
    forall key
      ensures key in PrintOrder(keys) <==> key in keys && key in AllKeys()
    {
      FilterMembers(AllKeys(), keys, key);
    }
  }

  /** A zeroed count array. */
  function Zeros(n: nat): (r: seq<real>)
    ensures |r| == n && forall k :: 0 <= k < n ==> r[k] == 0.0
  {
    seq(n, k => 0.0)
  }

  /** The `counts_array` of a new feature: a zeroed array per key. */
  function ZeroCounts(keys: seq<string>, n: nat): (r: map<string, seq<real>>)
    ensures forall key :: key in r <==> key in keys
    ensures forall key :: key in r ==> r[key] == Zeros(n)
  {
    map key | key in keys :: Zeros(n)
  }

  // ---------------------------------------------------------------- construction

  /** What Feature.__init__ derives from its arguments. */
  datatype Layout = Layout(chromosome: string, strand: Reads.Strand, shape: Metagene.Shape, window: seq<int>)

  /** Feature.__init__ up to the count arrays: the chromosome is converted to
      the alignment's name, start and end must lie on that chromosome, and the
      feature's own metagene needs an interval of at least one base. */
  function Plan(countMethod: CountMethod, metagene: Metagene.Shape, chromosome: string, start: int, end: int,
                strand: string, conversion: map<string, string>, sizes: map<string, int>): (r: Result<Layout, Error>)
    ensures r.Success? ==>
              && r.value.shape.Valid()
              && r.value.shape.upstream == metagene.upstream
              && r.value.shape.downstream == metagene.downstream
              && |r.value.window| == r.value.shape.Length()
              && Consecutive(r.value.window, r.value.strand)
  {
    if chromosome !in conversion then Failure(KeyError(chromosome))
    else
      var name := conversion[chromosome];
      if name !in sizes then Failure(KeyError(name))
      else
        var _ :- ConfirmInteger(PyInt(start), "Start", Some(1), Some(sizes[name]));
        var _ :- ConfirmInteger(PyInt(end), "End", Some(1), Some(sizes[name]));
        var interval := if countMethod == All then end - start + 1 else 1;
        var shape :- Metagene.Create(PyInt(interval), PyInt(metagene.upstream), PyInt(metagene.downstream));
        var s := Reads.NormaliseStrand(strand);
        var window := Window(countMethod, s, start, end, metagene.upstream, metagene.downstream);
        assert |window| == shape.Length() && Consecutive(window, s) by {
          if countMethod == All {
            WindowOfFeature(s, start, end, metagene.upstream, metagene.downstream);
          } else {
            WindowOfBase(countMethod, s, start, end, metagene.upstream, metagene.downstream);
          }
        }
        Success(Layout(name, s, shape, window))
  }

  /** A feature can be built exactly when its chromosome converts, the
      converted name has a length, both coordinates lie in 1 .. that length and,
      when the whole feature is counted, start <= end. */
  lemma PlanSucceeds(countMethod: CountMethod, metagene: Metagene.Shape, chromosome: string, start: int, end: int,
                     strand: string, conversion: map<string, string>, sizes: map<string, int>)
    ensures Plan(countMethod, metagene, chromosome, start, end, strand, conversion, sizes).Success? <==>
              && chromosome in conversion && conversion[chromosome] in sizes
              && 1 <= start <= sizes[conversion[chromosome]]
              && 1 <= end <= sizes[conversion[chromosome]]
              && (countMethod == All ==> start <= end)
    ensures chromosome !in conversion ==>
              Plan(countMethod, metagene, chromosome, start, end, strand, conversion, sizes) == Failure(KeyError(chromosome))
  {
  }

  /** The layout of a feature that can be built. */
  lemma PlanLayout(countMethod: CountMethod, metagene: Metagene.Shape, chromosome: string, start: int, end: int,
                   strand: string, conversion: map<string, string>, sizes: map<string, int>)
    requires Plan(countMethod, metagene, chromosome, start, end, strand, conversion, sizes).Success?
    ensures var layout := Plan(countMethod, metagene, chromosome, start, end, strand, conversion, sizes).value;
            && layout.chromosome == conversion[chromosome]
            && layout.strand == Reads.NormaliseStrand(strand)
            && layout.shape.interval == (if countMethod == All then end - start + 1 else 1)
            && layout.window == Window(countMethod, layout.strand, start, end, metagene.upstream, metagene.downstream)
  {
  }

  // ---------------------------------------------------------------- counting reads

  /** The outcome of count_read: False when the read does not fit in the
      window and partial reads are not counted, None otherwise. */
  datatype Outcome = Refused | Done

  /** The orientation part of the key a read is counted under. */
  function OrientationOf(featureStrand: Reads.Strand, readStrand: Reads.Strand): (r: Result<string, Error>)
    ensures r.Failure? <==> featureStrand != Reads.Unstranded && readStrand == Reads.Unstranded
    ensures r.Success? ==> r.value in Orientations(featureStrand != Reads.Unstranded)
    ensures r.Success? && featureStrand != Reads.Unstranded ==> (r.value == "sense" <==> readStrand == featureStrand)
  {
    if featureStrand == Reads.Unstranded then Success("unstranded")
    else if readStrand != Reads.Unstranded then Success(if featureStrand == readStrand then "sense" else "antisense")
    else Failure(UnstrandedReadOnStrandedFeature)
  }

  function Abs(x: int): nat {
    if x < 0 then -x else x
  }

  /** A read is gapped when the distance between its ends is longer than the
      bases it covers. */
  predicate Gapped(positions: seq<int>)
    requires positions != []
  {
    Abs(positions[0] - positions[|positions| - 1]) + 1 > |positions|
  }

  /** A read without gaps covers every base between its ends once. */
  lemma ContiguousNotGapped(p: int, n: nat)
    requires n >= 1
    ensures !Gapped(Reads.Range(p, n))
  {
  }

  /** The gap part of the key. */
  function GapOf(positions: seq<int>, countGaps: bool): (r: Result<string, Error>)
    ensures r.Failure? <==> countGaps && positions == []
    ensures r.Success? ==> r.value in GapNames(countGaps)
    ensures r.Success? && countGaps ==> (r.value == "gapped" <==> Gapped(positions))
  {
    if !countGaps then Success("allreads")
    else if positions == [] then Failure(IndexError)
    else Success(if Gapped(positions) then "gapped" else "ungapped")
  }

  /** The key a read is counted under. */
  function SubsetOf(featureStrand: Reads.Strand, read: Reads.Read, countGaps: bool): (r: Result<string, Error>)
    ensures r.Success? ==> r.value in SubsetKeys(featureStrand, countGaps)
  {
    var orientation :- OrientationOf(featureStrand, read.strand);
    var gap :- GapOf(read.positions, countGaps);
    SubsetKeyOf(featureStrand, countGaps, orientation, gap);
    Success(Key(orientation, gap))
  }

  /** The key of a known orientation and gap status is one of the feature's keys. */
  lemma SubsetKeyOf(strand: Reads.Strand, gapCounting: bool, orientation: string, gap: string)
    requires orientation in Orientations(strand != Reads.Unstranded) && gap in GapNames(gapCounting)
    ensures Key(orientation, gap) in SubsetKeys(strand, gapCounting)
  {
    SubsetKeysMembers(strand, gapCounting, Key(orientation, gap));
  }

  /** The read positions that count: its 5' end, its 3' end or all of them. */
  function Selected(positions: seq<int>, countMethod: CountMethod): (r: Result<seq<int>, Error>)
    ensures r.Failure? <==> countMethod != All && positions == []
    ensures r.Success? ==> forall p :: p in r.value ==> p in positions
    ensures countMethod == Start && positions != [] ==> r == Success([positions[0]])
    ensures countMethod == End && positions != [] ==> r == Success([positions[|positions| - 1]])
    ensures countMethod == All ==> r == Success(positions)
  {
    match countMethod
    case Start => if positions == [] then Failure(IndexError) else Success([positions[0]])
    case End => if positions == [] then Failure(IndexError) else Success([positions[|positions| - 1]])
    case All => Success(positions)
  }

  /** What one read adds at each position: its abundance shared among its mappings. */
  function Weight(read: Reads.Read): real
    requires read.mappings >= 1
  {
    read.abundance as real / read.mappings as real
  }

  /** `list.index`: the first place `p` occurs. */
  function IndexOf(window: seq<int>, p: int): (i: nat)
    requires p in window
    ensures i < |window| && window[i] == p
    ensures forall k :: 0 <= k < i ==> window[k] != p
  {
    if window[0] == p then 0 else 1 + IndexOf(window[1..], p)
  }

  /** Some selected position lies in the window. */
  predicate Touches(window: seq<int>, selected: seq<int>) {
    exists i :: 0 <= i < |selected| && selected[i] in window
  }

  /** The counts loop of count_read on one array: every selected position in
      the window adds `w` at its place in the window, in order. */
  function Accumulate(row: seq<real>, window: seq<int>, selected: seq<int>, w: real): (r: seq<real>)
    requires |row| == |window|
    ensures |r| == |row|
    decreases |selected|
  {
    if selected == [] then row
    else
      var before := Accumulate(row, window, selected[..|selected| - 1], w);
      var p := selected[|selected| - 1];
      if p in window then before[IndexOf(window, p) := before[IndexOf(window, p)] + w] else before
  }

  /** Every count array has one entry per window position. */
  predicate RowsFit(counts: map<string, seq<real>>, window: seq<int>) {
    forall key :: key in counts ==> |counts[key]| == |window|
  }

  /** count_read on the count arrays of a feature with the given window,
      chromosome and strand: the outcome and the new count arrays, or the
      exception raised (the arrays are then untouched). */
  function CountEffect(counts: map<string, seq<real>>, window: seq<int>, chromosome: string, strand: Reads.Strand,
                       read: Reads.Read, countMethod: CountMethod, countGaps: bool, countPartialReads: bool)
    : Result<(Outcome, map<string, seq<real>>), Error>
    requires RowsFit(counts, window) && read.mappings >= 1
  {
    var subset :- SubsetOf(strand, read, countGaps);
    var p := read.positions;
    if !countPartialReads && p == [] then Failure(IndexError)
    else if !countPartialReads && !(p[0] in window && p[|p| - 1] in window) then Success((Refused, counts))
    else if chromosome != read.chromosome then Success((Done, counts))
    else
      var selected :- Selected(p, countMethod);
      var after :- AddEffect(counts, window, subset, selected, Weight(read));
      Success((Done, after))
  }

  /** The counts loop of count_read: the first selected position in the window
      raises KeyError when there is no array for the key. */
  function AddEffect(counts: map<string, seq<real>>, window: seq<int>, subset: string, selected: seq<int>, w: real)
    : (r: Result<map<string, seq<real>>, Error>)
    requires RowsFit(counts, window)
    ensures r.Failure? <==> subset !in counts && Touches(window, selected)
    ensures r.Failure? ==> r.error == KeyError(subset)
    ensures r.Success? ==> r.value.Keys == counts.Keys && RowsFit(r.value, window)
    ensures r.Success? ==> forall key :: key in counts && key != subset ==> r.value[key] == counts[key]
  {
    if !Touches(window, selected) then Success(counts)
    else if subset !in counts then Failure(KeyError(subset))
    else Success(counts[subset := Accumulate(counts[subset], window, selected, w)])
  }

  /** The counts loop of count_read, position by position. */
  method AddCounts(counts: map<string, seq<real>>, window: seq<int>, subset: string, selected: seq<int>, w: real)
    returns (r: Result<map<string, seq<real>>, Error>)
    requires RowsFit(counts, window)
    ensures r == AddEffect(counts, window, subset, selected, w)
  {
    var c := counts;
    for i := 0 to |selected|
      invariant subset in counts ==> c == counts[subset := Accumulate(counts[subset], window, selected[..i], w)]
      invariant subset !in counts ==> c == counts && !Touches(window, selected[..i])
    {
      assert selected[..i + 1][..i] == selected[..i];
      var q := selected[i];
      if q in window {
        if subset !in counts {
          return Failure(KeyError(subset));
        }
        var k := IndexOf(window, q);
        c := c[subset := c[subset][k := c[subset][k] + w]];
      }
    }
    assert selected[..|selected|] == selected;
    if subset in counts && !Touches(window, selected) {
      AccumulateUntouched(counts[subset], window, selected, w);
    }
    return Success(c);
  }

  /** Only stranded reads can be counted on a stranded feature, and this is
      checked before anything else. */
  lemma CountRejectsUnstrandedRead(counts: map<string, seq<real>>, window: seq<int>, chromosome: string, strand: Reads.Strand,
                                   read: Reads.Read, countMethod: CountMethod, countGaps: bool, countPartialReads: bool)
    requires RowsFit(counts, window) && read.mappings >= 1
    ensures CountEffect(counts, window, chromosome, strand, read, countMethod, countGaps, countPartialReads)
              == Failure(UnstrandedReadOnStrandedFeature)
            <==> strand != Reads.Unstranded && read.strand == Reads.Unstranded
  {
  }

  /** A read is refused exactly when partial reads are not counted and one of
      its ends lies outside the window; a refused read, or one on another
      chromosome, changes nothing. */
  lemma CountRefused(counts: map<string, seq<real>>, window: seq<int>, chromosome: string, strand: Reads.Strand,
                     read: Reads.Read, countMethod: CountMethod, countGaps: bool, countPartialReads: bool)
    requires RowsFit(counts, window) && read.mappings >= 1
    ensures var e := CountEffect(counts, window, chromosome, strand, read, countMethod, countGaps, countPartialReads);
            var p := read.positions;
            && (e.Success? && e.value.0 == Refused <==>
                  SubsetOf(strand, read, countGaps).Success? && !countPartialReads && p != []
                  && !(p[0] in window && p[|p| - 1] in window))
            && (e.Success? && e.value.0 == Refused ==> e.value.1 == counts)
            && (e.Success? && chromosome != read.chromosome ==> e.value.1 == counts)
  {
  }

  /** Counting changes at most the array of the read's own key, never the set
      of keys and never the length of an array. */
  lemma CountChangesOneSubset(counts: map<string, seq<real>>, window: seq<int>, chromosome: string, strand: Reads.Strand,
                              read: Reads.Read, countMethod: CountMethod, countGaps: bool, countPartialReads: bool)
    requires RowsFit(counts, window) && read.mappings >= 1
    requires CountEffect(counts, window, chromosome, strand, read, countMethod, countGaps, countPartialReads).Success?
    ensures var after := CountEffect(counts, window, chromosome, strand, read, countMethod, countGaps, countPartialReads).value.1;
            && SubsetOf(strand, read, countGaps).Success?
            && after.Keys == counts.Keys
            && RowsFit(after, window)
            && forall key :: key in counts && key != SubsetOf(strand, read, countGaps).value ==> after[key] == counts[key]
  {
  }

  /** A key the feature has no array for, as for a gapped count on a feature
      made without gap counting, raises KeyError when the read reaches the window. */
  lemma CountMissingSubset(counts: map<string, seq<real>>, window: seq<int>, chromosome: string, strand: Reads.Strand,
                           read: Reads.Read, countMethod: CountMethod, countPartialReads: bool)
    requires RowsFit(counts, window) && read.mappings >= 1
    requires counts.Keys == set key | key in SubsetKeys(strand, false)
    requires strand == Reads.Unstranded || read.strand != Reads.Unstranded
    requires read.chromosome == chromosome && read.positions != []
    requires read.positions[0] in window && read.positions[|read.positions| - 1] in window
    ensures CountEffect(counts, window, chromosome, strand, read, countMethod, true, countPartialReads).Failure?
  {
    var subset := SubsetOf(strand, read, true).value;
    var orientation, gap := OrientationOf(strand, read.strand).value, GapOf(read.positions, true).value;
    assert subset == Key(orientation, gap);
    assert subset[|subset| - 1] == 'd';
    forall o, g | o in Orientations(strand != Reads.Unstranded) && g in GapNames(false)
      ensures subset != Key(o, g)
    {
      assert Key(o, g)[|Key(o, g)| - 1] == 's';
    }
    SubsetKeysMembers(strand, false, subset);
    var selected := Selected(read.positions, countMethod).value;
    assert selected[|selected| - 1] in window;
  }

  // ---------------------------------------------------------------- what a count adds

  /** `n` times `w`. */
  function Times(n: nat, w: real): real {
    if n == 0 then 0.0 else Times(n - 1, w) + w
  }

  lemma {:induction false} TimesIsProduct(n: nat, w: real)
    ensures Times(n, w) == n as real * w
  {
    if n > 0 {
      TimesIsProduct(n - 1, w);
    }
  }

  /** How often `x` occurs in `s`. */
  function Occurrences(s: seq<int>, x: int): nat
    decreases |s|
  {
    if s == [] then 0 else Occurrences(s[..|s| - 1], x) + (if s[|s| - 1] == x then 1 else 0)
  }

  /** How many elements of `s` lie in the window. */
  function InWindow(window: seq<int>, s: seq<int>): nat
    decreases |s|
  {
    if s == [] then 0 else InWindow(window, s[..|s| - 1]) + (if s[|s| - 1] in window then 1 else 0)
  }

  predicate Distinct(s: seq<int>) {
    forall i, j :: 0 <= i < j < |s| ==> s[i] != s[j]
  }

  /** On a window without repeated positions, each position gains `w` once
      for every time it was selected. */
  lemma {:induction false} AccumulateGains(row: seq<real>, window: seq<int>, selected: seq<int>, w: real, k: nat)
    requires |row| == |window| && Distinct(window) && k < |window|
    ensures Accumulate(row, window, selected, w)[k] == row[k] + Times(Occurrences(selected, window[k]), w)
    decreases |selected|
  {
    if selected != [] {
      var n := |selected| - 1;
      AccumulateGains(row, window, selected[..n], w, k);
      var p := selected[n];
      if p in window {
        var i := IndexOf(window, p);
        assert i == k <==> p == window[k];
      }
    }
  }

  lemma {:induction false} SumUpdate(row: seq<real>, i: nat, w: real)
    requires i < |row|
    ensures Resample.Sum(row[i := row[i] + w]) == Resample.Sum(row) + w
    decreases |row|
  {
    var n := |row| - 1;
    assert row[i := row[i] + w][..n] == if i == n then row[..n] else row[..n][i := row[i] + w];
    if i < n {
      SumUpdate(row[..n], i, w);
    }
  }

  /** The count array gains `w` for every selected position in the window:
      no weight is lost or counted twice. */
  lemma {:induction false} AccumulateTotal(row: seq<real>, window: seq<int>, selected: seq<int>, w: real)
    requires |row| == |window|
    ensures Resample.Sum(Accumulate(row, window, selected, w)) == Resample.Sum(row) + Times(InWindow(window, selected), w)
    decreases |selected|
  {
    if selected != [] {
      var n := |selected| - 1;
      AccumulateTotal(row, window, selected[..n], w);
      var p := selected[n];
      if p in window {
        SumUpdate(Accumulate(row, window, selected[..n], w), IndexOf(window, p), w);
      }
    }
  }

  /** A window of consecutive positions holds each position at its offset from
      the first one. */
  lemma ConsecutiveIndex(window: seq<int>, strand: Reads.Strand, p: int)
    requires Consecutive(window, strand) && window != []
    ensures Distinct(window)
    ensures var offset := if strand == Reads.Minus then window[0] - p else p - window[0];
            && (p in window <==> 0 <= offset < |window|)
            && (p in window ==> IndexOf(window, p) == offset)
  {
    var offset := if strand == Reads.Minus then window[0] - p else p - window[0];
    if 0 <= offset < |window| {
      assert window[offset] == p;
    }
  }

  // ---------------------------------------------------------------- regions

  /** The smallest and largest chromosome position of a window. */
  function Ends(window: seq<int>, strand: Reads.Strand): (r: (int, int))
    requires window != [] && Consecutive(window, strand)
    ensures r.0 <= r.1 && r.0 in window && r.1 in window
    ensures forall k :: 0 <= k < |window| ==> r.0 <= window[k] <= r.1
    ensures r.1 - r.0 + 1 == |window|
  {
    if strand == Reads.Minus then (window[|window| - 1], window[0]) else (window[0], window[|window| - 1])
  }

  /** The ends of a whole-feature window are the feature's coordinates widened
      by the padding, upstream padding on the 5' side. */
  lemma EndsOfFeature(strand: Reads.Strand, start: int, end: int, up: nat, down: nat)
    requires start <= end
    ensures var w := Window(All, strand, start, end, up, down);
            && w != [] && Consecutive(w, strand)
            && Ends(w, strand) == if strand == Reads.Minus then (start - down, end + up) else (start - up, end + down)
  {
    WindowOfFeature(strand, start, end, up, down);
  }

  /** "chromosome:start-end", the region syntax of samtools. */
  function Region(chromosome: string, lo: int, hi: int): (r: string)
    ensures |r| == |chromosome| + |IntToString(lo)| + |IntToString(hi)| + 2
    ensures r[..|chromosome| + 1] == chromosome + ":"
    ensures r[|r| - |IntToString(hi)|..] == IntToString(hi)
  {
    chromosome + ":" + IntToString(lo) + "-" + IntToString(hi)
  }

  lemma {:induction false} NatToStringNoSign(n: nat)
    ensures '-' !in NatToString(n) && ':' !in NatToString(n)
  {
    var s := NatToString(n);
    NatToStringAllDigits(n);
    assert forall i :: 0 <= i < |s| ==> IsDigit(s[i]);
  }

  /** A region of positive coordinates on a chromosome name without ':' can be
      taken apart again into the name and the two coordinates. */
  lemma RegionFields(chromosome: string, lo: nat, hi: nat)
    requires ':' !in chromosome
    ensures Split(Region(chromosome, lo, hi), ':') == [chromosome, IntToString(lo) + "-" + IntToString(hi)]
    ensures Split(IntToString(lo) + "-" + IntToString(hi), '-') == [IntToString(lo), IntToString(hi)]
    ensures ParseInt(IntToString(lo)) == Some(lo as int) && ParseInt(IntToString(hi)) == Some(hi as int)
  {
    NatToStringNoSign(lo);
    NatToStringNoSign(hi);
    var tail := IntToString(lo) + "-" + IntToString(hi);
    assert ':' !in tail;
    assert Region(chromosome, lo, hi) == Join([chromosome, tail], ':');
    SplitJoin([chromosome, tail], ':');
    assert tail == Join([IntToString(lo), IntToString(hi)], '-');
    SplitJoin([IntToString(lo), IntToString(hi)], '-');
    ParseIntToString(lo);
    ParseIntToString(hi);
  }

  /** get_samtools_region: the window's ends clamped to the chromosome, which
      must have a known length. */
  function SamtoolsEnds(window: seq<int>, strand: Reads.Strand, chromosome: string, sizes: map<string, int>)
    : (r: Result<(int, int), Error>)
    requires window != [] && Consecutive(window, strand)
    ensures r.Success? <==> chromosome in sizes
    ensures r.Failure? ==> r.error == ChromosomeNotInLengthTable(chromosome)
    ensures r.Success? ==>
              var (lo, hi) := Ends(window, strand);
              && 1 <= r.value.0 && r.value.1 <= sizes[chromosome]
              && lo <= r.value.0 && r.value.1 <= hi
              && (lo >= 1 ==> r.value.0 == lo)
              && (hi <= sizes[chromosome] ==> r.value.1 == hi)
              && (lo < 1 ==> r.value.0 == 1)
              && (hi > sizes[chromosome] ==> r.value.1 == sizes[chromosome])
  {
    var (lo, hi) := Ends(window, strand);
    var start := if lo < 1 then 1 else lo;
    if chromosome !in sizes then Failure(ChromosomeNotInLengthTable(chromosome))
    else Success((start, if hi > sizes[chromosome] then sizes[chromosome] else hi))
  }

  /** For a feature that could be built, the samtools region lies on the
      chromosome, is not empty and covers the whole feature. */
  lemma SamtoolsCoversFeature(countMethod: CountMethod, metagene: Metagene.Shape, chromosome: string, start: int, end: int,
                              strand: string, conversion: map<string, string>, sizes: map<string, int>)
    requires Plan(countMethod, metagene, chromosome, start, end, strand, conversion, sizes).Success?
    ensures var layout := Plan(countMethod, metagene, chromosome, start, end, strand, conversion, sizes).value;
            var r := SamtoolsEnds(layout.window, layout.strand, layout.chromosome, sizes);
            && r.Success?
            && 1 <= r.value.0 <= r.value.1 <= sizes[layout.chromosome]
            && (countMethod == All ==> r.value.0 <= start && end <= r.value.1)
  {
    var layout := Plan(countMethod, metagene, chromosome, start, end, strand, conversion, sizes).value;
    PlanSucceeds(countMethod, metagene, chromosome, start, end, strand, conversion, sizes);
    PlanLayout(countMethod, metagene, chromosome, start, end, strand, conversion, sizes);
    var size := sizes[layout.chromosome];
    assert 1 <= start <= size && 1 <= end <= size;
    var (lo, hi) := Ends(layout.window, layout.strand);
    var up, down := metagene.upstream, metagene.downstream;
    // some position of the window lies on the chromosome
    var inside: int;
    if countMethod == All {
      EndsOfFeature(layout.strand, start, end, up, down);
      inside := start;
    } else {
      WindowOfBase(countMethod, layout.strand, start, end, up, down);
      inside := BaseOf(countMethod, layout.strand, start, end);
      assert layout.window[up] == inside;
    }
    assert lo <= inside <= hi && 1 <= inside <= size;
  }

  // ---------------------------------------------------------------- metagene rows

  /** One line of print_metagene: the feature's name, the key, and the counts. */
  datatype Row = Row(name: string, subset: string, values: seq<real>)

  /** A count array as print_metagene writes it: the padding unchanged and the
      feature's interval resampled to the metagene interval. */
  function MetageneRow(row: seq<real>, shape: Metagene.Shape, metageneLength: nat): seq<real>
    requires |row| == shape.Length() && metageneLength >= 1
  {
    var up, interval := shape.upstream, shape.interval;
    row[..up] + Resample.Resampled(row[up..up + interval], metageneLength) + row[up + interval..]
  }

  /** A printed row is as long as the metagene, keeps the padding counts and
      carries the interval's total count. */
  lemma MetageneRowParts(row: seq<real>, shape: Metagene.Shape, metageneLength: nat)
    requires |row| == shape.Length() && shape.Valid() && metageneLength >= 1
    ensures var r := MetageneRow(row, shape, metageneLength);
            var up, interval := shape.upstream, shape.interval;
            && |r| == up + metageneLength + shape.downstream
            && r[..up] == row[..up]
            && r[up + metageneLength..] == row[up + interval..]
            && Resample.Sum(r[up..up + metageneLength]) == Resample.Sum(row[up..up + interval])
  {
    var up, interval := shape.upstream, shape.interval;
    var r := MetageneRow(row, shape, metageneLength);
    var middle := Resample.Resampled(row[up..up + interval], metageneLength);
    assert r[up..up + metageneLength] == middle;
    Resample.ResampledConserves(row[up..up + interval], metageneLength);
  }

  /** The rows for the keys in `order`. */
  function RowsOf(name: string, order: seq<string>, counts: map<string, seq<real>>, shape: Metagene.Shape, metageneLength: nat)
    : (rows: seq<Row>)
    requires metageneLength >= 1
    requires forall i :: 0 <= i < |order| ==> order[i] in counts && |counts[order[i]]| == shape.Length()
    ensures |rows| == |order|
    ensures forall i :: 0 <= i < |order| ==>
              rows[i] == Row(name, order[i], MetageneRow(counts[order[i]], shape, metageneLength))
  {
    seq(|order|, i requires 0 <= i < |order| => Row(name, order[i], MetageneRow(counts[order[i]], shape, metageneLength)))
  }

  /** The header print_metagene starts with, when asked to. */
  function HeaderOf(shape: Metagene.Shape, metageneLength: nat, pretty: bool, header: bool): string
    requires metageneLength >= 1
  {
    var metagene := Metagene.Shape(metageneLength, shape.upstream, shape.downstream);
    if !header then "" else if pretty then Metagene.PrettyHeader(metagene) else Metagene.PlainHeader(metagene)
  }

  lemma PrintOrderOfCounts(counts: map<string, seq<real>>, strand: Reads.Strand, gapCounting: bool)
    requires forall key :: key in counts <==> key in SubsetKeys(strand, gapCounting)
    ensures forall key :: key in PrintOrder(counts.Keys) <==> key in counts
  {
    PrintOrderSorted(counts.Keys);
    forall key | key in counts
      ensures key in AllKeys()
    {
      SubsetKeysKnown(strand, gapCounting, key);
    }
  }

  // ---------------------------------------------------------------- the feature object

  /** A feature: its name, converted chromosome and strand, its own metagene
      shape, the interval length of the metagene it is resampled to, its window
      of positions, and its count arrays, the one part that changes. */
  class Feature {
    const name: string
    const chromosome: string
    const strand: Reads.Strand
    const shape: Metagene.Shape
    const metageneLength: nat
    const positionArray: seq<int>
    /** Whether the count arrays were split by gap status. */
    ghost const gapCounting: bool
    var counts: map<string, seq<real>>

    ghost predicate Valid()
      reads this
    {
      && shape.Valid() && metageneLength >= 1
      && |positionArray| == shape.Length()
      && Consecutive(positionArray, strand)
      && (forall key :: key in counts <==> key in SubsetKeys(strand, gapCounting))
      && RowsFit(counts, positionArray)
    }

    /** The fields Feature.__init__ sets from a layout, with zeroed count arrays. */
    ghost predicate Built(name: string, layout: Layout, metageneLength: nat, gapCounting: bool)
      reads this
    {
      && this.name == name && chromosome == layout.chromosome && strand == layout.strand
      && shape == layout.shape && positionArray == layout.window
      && this.metageneLength == metageneLength && this.gapCounting == gapCounting
      && counts == ZeroCounts(SubsetKeys(strand, gapCounting), shape.Length())
    }

    /** The end of Feature.__init__: one zeroed array per key, built by nested loops. */
    constructor (name: string, layout: Layout, metageneLength: nat, gapCounting: bool)
      requires layout.shape.Valid() && metageneLength >= 1
      requires |layout.window| == layout.shape.Length() && Consecutive(layout.window, layout.strand)
      ensures Built(name, layout, metageneLength, gapCounting)
      ensures Valid()
    {
      this.name := name;
      chromosome := layout.chromosome;
      strand := layout.strand;
      shape := layout.shape;
      this.metageneLength := metageneLength;
      positionArray := layout.window;
      this.gapCounting := gapCounting;
      var c := BuildCounts(Orientations(layout.strand != Reads.Unstranded), GapNames(gapCounting), layout.shape.Length());
      counts := c;
      new;
      forall key
        ensures key in counts <==> key in SubsetKeys(strand, gapCounting)
      {
      }
    }

    /** Feature.__init__: the feature, or the exception its arguments raise. */
    static method Create(countMethod: CountMethod, metagene: Metagene.Shape, name: string, chromosome: string,
                         start: int, end: int, strand: string, gapCounting: bool,
                         conversion: map<string, string>, sizes: map<string, int>)
      returns (r: Result<Feature, Error>)
      requires metagene.Valid()
      ensures var plan := Plan(countMethod, metagene, chromosome, start, end, strand, conversion, sizes);
              && (r.Success? <==> plan.Success?)
              && (r.Failure? ==> r.error == plan.error)
              && (r.Success? ==> fresh(r.value) && r.value.Valid() && r.value.Built(name, plan.value, metagene.interval, gapCounting))
    {
      var layout :- Plan(countMethod, metagene, chromosome, start, end, strand, conversion, sizes);
      var feature := new Feature(name, layout, metagene.interval, gapCounting);
      return Success(feature);
    }

    /** count_read: the read's weight is added to the array of its key at every
      selected position inside the window. */
    method CountRead(read: Reads.Read, countMethod: CountMethod, countGaps: bool, countPartialReads: bool)
      returns (r: Result<Outcome, Error>)
      modifies this
      requires Valid() && read.mappings >= 1
      ensures Valid()
      ensures var e := CountEffect(old(counts), positionArray, chromosome, strand, read, countMethod, countGaps, countPartialReads);
              && (r.Success? <==> e.Success?)
              && (e.Success? ==> r.value == e.value.0 && counts == e.value.1)
              && (e.Failure? ==> r.error == e.error && counts == old(counts))
    {
      ghost var e := CountEffect(counts, positionArray, chromosome, strand, read, countMethod, countGaps, countPartialReads);
      var subset :- SubsetOf(strand, read, countGaps);
      var p := read.positions;
      if !countPartialReads {
        if p == [] {
          assert e == Failure(IndexError);
          return Failure(IndexError);
        }
        if !(p[0] in positionArray && p[|p| - 1] in positionArray) {
          assert e == Success((Refused, counts));
          return Success(Refused);
        }
      }
      if chromosome != read.chromosome {
        assert e == Success((Done, counts));
        return Success(Done);
      }
      var selected :- Selected(p, countMethod);
      ghost var added := AddEffect(counts, positionArray, subset, selected, Weight(read));
      assert e == if added.Success? then Success((Done, added.value)) else Failure(added.error);
      var after :- AddCounts(counts, positionArray, subset, selected, Weight(read));
      counts := after;
      return Success(Done);
    }

    /** get_chromosome_region. */
    function ChromosomeRegion(): string
      reads this
      requires Valid()
    {
      var (lo, hi) := Ends(positionArray, strand);
      Region(chromosome, lo, hi)
    }

    /** get_samtools_region. */
    function SamtoolsRegion(sizes: map<string, int>): Result<string, Error>
      reads this
      requires Valid()
    {
      var (lo, hi) :- SamtoolsEnds(positionArray, strand, chromosome, sizes);
      Success(Region(chromosome, lo, hi))
    }

    /** print_metagene: the optional header and one resampled row per key, in
      reverse sorted key order. */
    method PrintMetagene(pretty: bool, header: bool) returns (heading: string, rows: seq<Row>)
      requires Valid()
      ensures heading == HeaderOf(shape, metageneLength, pretty, header)
      ensures forall key :: key in PrintOrder(counts.Keys) <==> key in counts
      ensures Descending(PrintOrder(counts.Keys))
      ensures rows == RowsOf(name, PrintOrder(counts.Keys), counts, shape, metageneLength)
    {
      heading := "";
      if header {
        var metagene := Metagene.Create(PyInt(metageneLength), PyInt(shape.upstream), PyInt(shape.downstream));
        heading := Metagene.PrintFull(metagene.value, pretty);
      }
      PrintOrderOfCounts(counts, strand, gapCounting);
      PrintOrderSorted(counts.Keys);
      rows := ResampleRows(name, PrintOrder(counts.Keys), counts, shape, metageneLength);
    }
  }

  /** A zeroed count array, one position at a time. */
  method ZeroRow(n: nat) returns (row: seq<real>)
    ensures row == Zeros(n)
  {
    row := [];
    for p := 0 to n
      invariant row == Zeros(p)
    {
      row := row + [0.0];
    }
  }

  /** The nested loops of Feature.__init__: a zeroed array for every
      orientation and gap status. */
  method BuildCounts(orientation: seq<string>, gaps: seq<string>, n: nat) returns (c: map<string, seq<real>>)
    ensures c == ZeroCounts(KeyProduct(orientation, gaps), n)
  {
    c := map[];
    for i := 0 to |orientation|
      invariant c == ZeroCounts(KeyProduct(orientation[..i], gaps), n)
    {
      c := ZeroOrientation(c, KeyProduct(orientation[..i], gaps), orientation[i], gaps, n);
      assert orientation[..i + 1][..i] == orientation[..i];
      assert KeyProduct(orientation[..i + 1], gaps) == KeyProduct(orientation[..i], gaps) + KeysFor(orientation[i], gaps);
    }
    assert orientation[..|orientation|] == orientation;
  }

  /** The inner loop of Feature.__init__: a zeroed array for every gap status
      of one orientation. */
  method ZeroOrientation(c: map<string, seq<real>>, ghost done: seq<string>, o: string, gaps: seq<string>, n: nat)
    returns (c': map<string, seq<real>>)
    requires c == ZeroCounts(done, n)
    ensures c' == ZeroCounts(done + KeysFor(o, gaps), n)
  {
    c' := c;
    for j := 0 to |gaps|
      invariant c' == ZeroCounts(done + KeysFor(o, gaps[..j]), n)
    {
      var row := ZeroRow(n);
      ZeroCountsExtend(done + KeysFor(o, gaps[..j]), Key(o, gaps[j]), n);
      assert KeysFor(o, gaps[..j + 1]) == KeysFor(o, gaps[..j]) + [Key(o, gaps[j])];
      assert done + KeysFor(o, gaps[..j + 1]) == (done + KeysFor(o, gaps[..j])) + [Key(o, gaps[j])];
      c' := c'[Key(o, gaps[j]) := row];
    }
    assert gaps[..|gaps|] == gaps;
  }

  /** The subset loop of print_metagene: each array with its interval resampled. */
  method ResampleRows(name: string, order: seq<string>, counts: map<string, seq<real>>, shape: Metagene.Shape, metageneLength: nat)
    returns (rows: seq<Row>)
    requires metageneLength >= 1
    requires forall i :: 0 <= i < |order| ==> order[i] in counts && |counts[order[i]]| == shape.Length()
    ensures rows == RowsOf(name, order, counts, shape, metageneLength)
  {
    var up, interval := shape.upstream, shape.interval;
    rows := [];
    for i := 0 to |order|
      invariant |rows| == i
      invariant forall j :: 0 <= j < i ==> rows[j] == Row(name, order[j], MetageneRow(counts[order[j]], shape, metageneLength))
    {
      var row := counts[order[i]];
      var adjusted := Resample.AdjustToMetagene(row[up..up + interval], metageneLength);
      rows := rows + [Row(name, order[i], row[..up] + adjusted + row[up + interval..])];
    }
  }

  lemma ZeroCountsExtend(keys: seq<string>, key: string, n: nat)
    ensures ZeroCounts(keys, n)[key := Zeros(n)] == ZeroCounts(keys + [key], n)
  {
  }

  lemma {:induction false} AccumulateUntouched(row: seq<real>, window: seq<int>, selected: seq<int>, w: real)
    requires |row| == |window| && !Touches(window, selected)
    ensures Accumulate(row, window, selected, w) == row
    decreases |selected|
  {
    if selected != [] {
      var n := |selected| - 1;
      assert !Touches(window, selected[..n]) by {
        forall i | 0 <= i < n ensures selected[..n][i] !in window {
          assert selected[..n][i] == selected[i];
        }
      }
      AccumulateUntouched(row, window, selected[..n], w);
    }
  }

  // ---------------------------------------------------------------- what one count adds

  /** Adding weight `w` for the selected positions: every window position
      gains `w` once for each time it was selected, and the array's total gains
      `w` for every selected position inside the window. */
  lemma AddGains(counts: map<string, seq<real>>, window: seq<int>, subset: string, selected: seq<int>, w: real, k: nat)
    requires RowsFit(counts, window) && Distinct(window) && k < |window|
    requires subset in counts
    ensures var r := AddEffect(counts, window, subset, selected, w);
            && r.Success?
            && r.value[subset][k] == counts[subset][k] + Times(Occurrences(selected, window[k]), w)
            && Resample.Sum(r.value[subset]) == Resample.Sum(counts[subset]) + Times(InWindow(window, selected), w)
  {
    var row := counts[subset];
    AccumulateGains(row, window, selected, w, k);
    AccumulateTotal(row, window, selected, w);
    if !Touches(window, selected) {
      AccumulateUntouched(row, window, selected, w);
    }
  }

  /** A read counted on the feature's chromosome, and not refused, is added
      through AddEffect under its key with its selected positions and weight. */
  lemma CountAdds(counts: map<string, seq<real>>, window: seq<int>, chromosome: string, strand: Reads.Strand,
                  read: Reads.Read, countMethod: CountMethod, countGaps: bool, countPartialReads: bool,
                  after: map<string, seq<real>>)
    requires RowsFit(counts, window) && read.mappings >= 1
    requires CountEffect(counts, window, chromosome, strand, read, countMethod, countGaps, countPartialReads) == Success((Done, after))
    requires read.chromosome == chromosome
    ensures SubsetOf(strand, read, countGaps).Success? && Selected(read.positions, countMethod).Success?
    ensures AddEffect(counts, window, SubsetOf(strand, read, countGaps).value, Selected(read.positions, countMethod).value, Weight(read))
              == Success(after)
  {
  }

  /** What a counted read adds at window index `k` of its key's array, in terms
      of the read's own positions: the weight once for its 5' end (`start`), once
      for its 3' end (`end`), or once per occurrence among all its positions (`all`).
      A key without an array is left without one, and nothing changes. */
  lemma CountGains(counts: map<string, seq<real>>, window: seq<int>, chromosome: string, strand: Reads.Strand,
                   read: Reads.Read, countMethod: CountMethod, countGaps: bool, countPartialReads: bool,
                   after: map<string, seq<real>>, k: nat)
    requires RowsFit(counts, window) && read.mappings >= 1 && Distinct(window) && k < |window|
    requires CountEffect(counts, window, chromosome, strand, read, countMethod, countGaps, countPartialReads) == Success((Done, after))
    requires read.chromosome == chromosome
    ensures SubsetOf(strand, read, countGaps).Success? && (countMethod != All ==> read.positions != [])
    ensures var key, p, w := SubsetOf(strand, read, countGaps).value, read.positions, Weight(read);
            && (key !in counts ==> after == counts)
            && (key in counts && countMethod == Start && p != [] ==>
                  after[key][k] == counts[key][k] + (if p[0] == window[k] then w else 0.0))
            && (key in counts && countMethod == End && p != [] ==>
                  after[key][k] == counts[key][k] + (if p[|p| - 1] == window[k] then w else 0.0))
            && (key in counts && countMethod == All ==>
                  after[key][k] == counts[key][k] + Times(Occurrences(p, window[k]), w))
  {
    CountAdds(counts, window, chromosome, strand, read, countMethod, countGaps, countPartialReads, after);
    SelectedGains(counts, window, SubsetOf(strand, read, countGaps).value, read.positions, countMethod, Weight(read), after, k);
  }

  /** CountGains once the read's key, positions and weight are known. */
  lemma SelectedGains(counts: map<string, seq<real>>, window: seq<int>, key: string, p: seq<int>,
                      countMethod: CountMethod, w: real, after: map<string, seq<real>>, k: nat)
    requires RowsFit(counts, window) && Distinct(window) && k < |window|
    requires Selected(p, countMethod).Success?
    requires AddEffect(counts, window, key, Selected(p, countMethod).value, w) == Success(after)
    ensures key !in counts ==> after == counts
    ensures key in counts && countMethod == Start && p != [] ==>
              after[key][k] == counts[key][k] + (if p[0] == window[k] then w else 0.0)
    ensures key in counts && countMethod == End && p != [] ==>
              after[key][k] == counts[key][k] + (if p[|p| - 1] == window[k] then w else 0.0)
    ensures key in counts && countMethod == All ==>
              after[key][k] == counts[key][k] + Times(Occurrences(p, window[k]), w)
  {
    var selected := Selected(p, countMethod).value;
    if key in counts {
      AddGains(counts, window, key, selected, w, k);
      SelectedGain(p, countMethod, window[k], w);
    } else {
      MissingKeyUnchanged(counts, window, key, selected, w);
    }
  }

  /** The weight the selected positions give one window position, per count method. */
  lemma SelectedGain(p: seq<int>, countMethod: CountMethod, x: int, w: real)
    requires Selected(p, countMethod).Success?
    ensures var gain := Times(Occurrences(Selected(p, countMethod).value, x), w);
            && (countMethod == Start && p != [] ==> gain == if p[0] == x then w else 0.0)
            && (countMethod == End && p != [] ==> gain == if p[|p| - 1] == x then w else 0.0)
            && (countMethod == All ==> gain == Times(Occurrences(p, x), w))
  {
    var selected := Selected(p, countMethod).value;
    if countMethod != All {
      assert selected[..0] == [];
    }
  }

  /** Counting into a key without an array, when that succeeds, changes nothing. */
  lemma MissingKeyUnchanged(counts: map<string, seq<real>>, window: seq<int>, subset: string, selected: seq<int>, w: real)
    requires RowsFit(counts, window) && subset !in counts
    requires AddEffect(counts, window, subset, selected, w).Success?
    ensures AddEffect(counts, window, subset, selected, w).value == counts
  {
    var after := AddEffect(counts, window, subset, selected, w).value;
    assert after.Keys == counts.Keys;
    assert forall x :: x in counts ==> after[x] == counts[x];
  }

  // ---------------------------------------------------------------- feature lines

  /** The arguments a feature line gives Feature.__init__. */
  datatype FeatureArgs = FeatureArgs(name: string, chromosome: string, start: int, end: int, strand: string)

  /** `int(parts[k])`. */
  function IntField(parts: seq<string>, k: nat): (r: Result<int, Error>)
    ensures r.Success? <==> k < |parts| && IntOfText(parts[k]).Some?
    ensures r.Success? ==> Some(r.value) == IntOfText(parts[k])
    ensures k >= |parts| ==> r == Failure(IndexError)
  {
    if k >= |parts| then Failure(IndexError)
    else match IntOfText(parts[k])
      case None => Failure(ValueError(parts[k]))
      case Some(n) => Success(n)
  }

  /** create_from_bed up to the call of Feature.__init__: 0-based starts
      become 1-based; a start past the end is only accepted, and taken as a
      swapped 0-based pair, on a minus-strand line of six or more columns. A
      short (BED3 or BED4) line has no strand and may lack a name. */
  function BedArgs(line: string, short: bool): (r: Result<FeatureArgs, Error>)
    ensures r.Success? ==> r.value.start <= r.value.end + 1
    ensures r.Success? && short ==> r.value.strand == "."
  {
    BedFields(Split(Strip(line), '\t'), short)
  }

  /** create_from_bed on the columns of the line. */
  function BedFields(parts: seq<string>, short: bool): (r: Result<FeatureArgs, Error>)
    ensures r.Success? ==> r.value.start <= r.value.end + 1
    ensures r.Success? && short ==> r.value.strand == "."
  {
    var first :- IntField(parts, 1);
    var second :- IntField(parts, 2);
    var (start, end) :-
      if first <= second then Success((first + 1, second))
      else if !short && |parts| < 6 then Failure(IndexError)
      else if !short && parts[5] == "-" then Success((second, first + 1))
      else Failure(StartLargerThanEnd("BED"));
    if short then Success(FeatureArgs(if |parts| < 4 then "Unknown_name" else parts[3], parts[0], start, end, "."))
    else if |parts| < 6 then Failure(IndexError)
    else Success(FeatureArgs(parts[3], parts[0], start, end, parts[5]))
  }

  /** create_from_gff up to the call of Feature.__init__: the commas of the
      attribute column become ';' in the name, and a start past the end is only
      accepted, and swapped, on the minus strand. */
  function GffArgs(line: string): (r: Result<FeatureArgs, Error>)
    ensures r.Success? ==> r.value.start <= r.value.end && ',' !in r.value.name
  {
    GffFields(Split(Strip(line), '\t'))
  }

  /** create_from_gff on the columns of the line. */
  function GffFields(parts: seq<string>): (r: Result<FeatureArgs, Error>)
    ensures r.Success? ==> r.value.start <= r.value.end && ',' !in r.value.name
  {
    if |parts| < 9 then Failure(IndexError)
    else
      var name := Join(Split(parts[8], ','), ';');
      SplitPieces(parts[8], ',');
      JoinAvoids(Split(parts[8], ','), ';', ',');
      var first :- IntField(parts, 3);
      var second :- IntField(parts, 4);
      if first > second && parts[6] != "-" then Failure(StartLargerThanEnd("GFF"))
      else if first > second then Success(FeatureArgs(name, parts[0], second, first, parts[6]))
      else Success(FeatureArgs(name, parts[0], first, second, parts[6]))
  }

  /** Columns of a feature line: no tabs inside, and nothing `strip` would eat
      at the ends of the line. */
  predicate LineFields(parts: seq<string>) {
    && |parts| >= 1
    && (forall i :: 0 <= i < |parts| ==> '\t' !in parts[i])
    && parts[0] != [] && !IsWhitespace(parts[0][0])
    && parts[|parts| - 1] != [] && !IsWhitespace(parts[|parts| - 1][|parts[|parts| - 1]| - 1])
  }

  lemma LineSplits(parts: seq<string>)
    requires LineFields(parts)
    ensures Split(Strip(Join(parts, '\t')), '\t') == parts
  {
    JoinFirst(parts, '\t');
    JoinLast(parts, '\t');
    StripUnchanged(Join(parts, '\t'));
    SplitJoin(parts, '\t');
  }

  /** A six-column BED line of integers `chromStart` and `chromEnd` gives the
      1-based coordinates `chromStart + 1` and `chromEnd`, or, on the minus
      strand only, the swapped pair `chromEnd` and `chromStart + 1`. */
  lemma BedLine(chromosome: string, chromStart: int, chromEnd: int, name: string, score: string, strand: string)
    requires LineFields([chromosome, IntToString(chromStart), IntToString(chromEnd), name, score, strand])
    ensures var r := BedArgs(Join([chromosome, IntToString(chromStart), IntToString(chromEnd), name, score, strand], '\t'), false);
            && (chromStart <= chromEnd ==> r == Success(FeatureArgs(name, chromosome, chromStart + 1, chromEnd, strand)))
            && (chromStart > chromEnd && strand == "-" ==> r == Success(FeatureArgs(name, chromosome, chromEnd, chromStart + 1, strand)))
            && (chromStart > chromEnd && strand != "-" ==> r == Failure(StartLargerThanEnd("BED")))
  {
    var parts := [chromosome, IntToString(chromStart), IntToString(chromEnd), name, score, strand];
    TypedColumns(parts, 1, chromStart, chromEnd);
    assert BedArgs(Join(parts, '\t'), false) == BedFields(parts, false);
    BedColumns(parts, chromStart, chromEnd);
  }

  /** BedFields of six or more columns once both coordinate columns are known integers. */
  lemma BedColumns(parts: seq<string>, first: int, second: int)
    requires |parts| >= 6 && IntField(parts, 1) == Success(first) && IntField(parts, 2) == Success(second)
    ensures var r := BedFields(parts, false);
            && (first <= second ==> r == Success(FeatureArgs(parts[3], parts[0], first + 1, second, parts[5])))
            && (first > second && parts[5] == "-" ==> r == Success(FeatureArgs(parts[3], parts[0], second, first + 1, parts[5])))
            && (first > second && parts[5] != "-" ==> r == Failure(StartLargerThanEnd("BED")))
  {
  }

  /** BedFields of a short line once both coordinate columns are known integers. */
  lemma ShortBedColumns(parts: seq<string>, first: int, second: int)
    requires IntField(parts, 1) == Success(first) && IntField(parts, 2) == Success(second)
    ensures var r := BedFields(parts, true);
            var name := if |parts| < 4 then "Unknown_name" else parts[3];
            && (first <= second ==> r == Success(FeatureArgs(name, parts[0], first + 1, second, ".")))
            && (first > second ==> r == Failure(StartLargerThanEnd("BED")))
  {
  }

  /** A three-column BED line gives an unnamed, unstranded feature; its start
      may not lie past its end. */
  lemma ShortBedLine(chromosome: string, chromStart: int, chromEnd: int)
    requires chromosome != [] && !IsWhitespace(chromosome[0]) && '\t' !in chromosome
    ensures var r := BedArgs(Join([chromosome, IntToString(chromStart), IntToString(chromEnd)], '\t'), true);
            && (chromStart <= chromEnd ==> r == Success(FeatureArgs("Unknown_name", chromosome, chromStart + 1, chromEnd, ".")))
            && (chromStart > chromEnd ==> r == Failure(StartLargerThanEnd("BED")))
  {
    var parts := [chromosome, IntToString(chromStart), IntToString(chromEnd)];
    ShortBedFields(chromosome, chromStart, chromEnd);
    TypedColumns(parts, 1, chromStart, chromEnd);
    assert BedArgs(Join(parts, '\t'), true) == BedFields(parts, true);
    ShortBedColumns(parts, chromStart, chromEnd);
  }

  /** The columns of a three-column BED line of integers. */
  lemma ShortBedFields(chromosome: string, chromStart: int, chromEnd: int)
    requires chromosome != [] && !IsWhitespace(chromosome[0]) && '\t' !in chromosome
    ensures LineFields([chromosome, IntToString(chromStart), IntToString(chromEnd)])
  {
    var e := IntToString(chromEnd);
    NatToStringDigits(if chromEnd < 0 then -chromEnd else chromEnd);
    assert e[|e| - 1] in e;
    IntToStringChars(chromStart, '\t');
    IntToStringChars(chromEnd, '\t');
  }

  /** A nine-column GFF line of integer start and end, as 1-based coordinates. */
  lemma GffLine(chromosome: string, source: string, kind: string, start: int, end: int,
                score: string, strand: string, frame: string, attributes: string)
    requires LineFields([chromosome, source, kind, IntToString(start), IntToString(end), score, strand, frame, attributes])
    ensures var r := GffArgs(Join([chromosome, source, kind, IntToString(start), IntToString(end), score, strand, frame, attributes], '\t'));
            var name := Join(Split(attributes, ','), ';');
            && (start <= end ==> r == Success(FeatureArgs(name, chromosome, start, end, strand)))
            && (start > end && strand == "-" ==> r == Success(FeatureArgs(name, chromosome, end, start, strand)))
            && (start > end && strand != "-" ==> r == Failure(StartLargerThanEnd("GFF")))
  {
    var parts := [chromosome, source, kind, IntToString(start), IntToString(end), score, strand, frame, attributes];
    TypedColumns(parts, 3, start, end);
    assert GffArgs(Join(parts, '\t')) == GffFields(parts);
    GffColumns(parts, start, end);
  }

  /** A line of columns without tabs reads back as those columns, and two
      integer columns written side by side, from `k` on, read back as integers. */
  lemma TypedColumns(parts: seq<string>, k: nat, first: int, second: int)
    requires LineFields(parts) && k + 1 < |parts|
    requires parts[k] == IntToString(first) && parts[k + 1] == IntToString(second)
    ensures Split(Strip(Join(parts, '\t')), '\t') == parts
    ensures IntField(parts, k) == Success(first) && IntField(parts, k + 1) == Success(second)
  {
    LineSplits(parts);
    IntOfTextToString(first);
    IntOfTextToString(second);
  }

  /** GffFields once both coordinate columns are known integers. */
  lemma GffColumns(parts: seq<string>, first: int, second: int)
    requires |parts| >= 9 && IntField(parts, 3) == Success(first) && IntField(parts, 4) == Success(second)
    ensures var r := GffFields(parts);
            var name := Join(Split(parts[8], ','), ';');
            && (first <= second ==> r == Success(FeatureArgs(name, parts[0], first, second, parts[6])))
            && (first > second && parts[6] == "-" ==> r == Success(FeatureArgs(name, parts[0], second, first, parts[6])))
            && (first > second && parts[6] != "-" ==> r == Failure(StartLargerThanEnd("GFF")))
  {
  }

  /** create_from_bed: the line's feature, never counting gaps. */
  method CreateFromBed(countMethod: CountMethod, metagene: Metagene.Shape, line: string, short: bool,
                       conversion: map<string, string>, sizes: map<string, int>)
    returns (r: Result<Feature, Error>)
    requires metagene.Valid()
    ensures var args := BedArgs(line, short);
            var plan := if args.Success? then Plan(countMethod, metagene, args.value.chromosome, args.value.start, args.value.end,
                                                    args.value.strand, conversion, sizes)
                        else Failure(args.error);
            && (r.Success? <==> plan.Success?)
            && (r.Failure? ==> r.error == plan.error)
            && (r.Success? ==> fresh(r.value) && r.value.Valid() && r.value.Built(args.value.name, plan.value, metagene.interval, false))
  {
    var args :- BedArgs(line, short);
    r := Feature.Create(countMethod, metagene, args.name, args.chromosome, args.start, args.end, args.strand, false, conversion, sizes);
  }

  /** create_from_gff: the line's feature, never counting gaps. */
  method CreateFromGff(countMethod: CountMethod, metagene: Metagene.Shape, line: string,
                       conversion: map<string, string>, sizes: map<string, int>)
    returns (r: Result<Feature, Error>)
    requires metagene.Valid()
    ensures var args := GffArgs(line);
            var plan := if args.Success? then Plan(countMethod, metagene, args.value.chromosome, args.value.start, args.value.end,
                                                    args.value.strand, conversion, sizes)
                        else Failure(args.error);
            && (r.Success? <==> plan.Success?)
            && (r.Failure? ==> r.error == plan.error)
            && (r.Success? ==> fresh(r.value) && r.value.Valid() && r.value.Built(args.value.name, plan.value, metagene.interval, false))
  {
    var args :- GffArgs(line);
    r := Feature.Create(countMethod, metagene, args.name, args.chromosome, args.start, args.end, args.strand, false, conversion, sizes);
  }
}
