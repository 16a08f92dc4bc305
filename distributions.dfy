/**
  The region finder and pairer of distributions.py: maximal runs of column
  sums above a fixed threshold, and a two-pointer merge that pairs a blue run
  with the green run that follows it.
 */
module Distributions {
  import opened Common

  /** Column sums strictly above this value are high (`distribution > 10000`). */
  const HighThreshold: int := 10000

  /** A run of column indices `start..end`, both inclusive. */
  datatype Region = Region(start: int, end: int)

  /** A blue region and the green region paired with it. */
  datatype Pair = Pair(blue: Region, green: Region)

  predicate IsHigh(v: int) {
    v > HighThreshold
  }

  /** Column `x` lies in one of the regions. */
  ghost predicate Covered(regions: seq<Region>, x: int) {
    exists k :: 0 <= k < |regions| && regions[k].start <= x <= regions[k].end
  }

  /**
    `regions` lists exactly the maximal runs of high columns of `d`, left to
    right: each run lies in range and is all high, runs are separated by at
    least one low column, no run can be extended on either side, and every
    high column is in a run.
   */
  ghost predicate IsRunDecomposition(d: seq<int>, regions: seq<Region>) {
    && (forall k :: 0 <= k < |regions| ==> 0 <= regions[k].start <= regions[k].end < |d|)
    && (forall k, x :: 0 <= k < |regions| && regions[k].start <= x <= regions[k].end ==> IsHigh(d[x]))
    && (forall k, k' :: 0 <= k < k' < |regions| ==> regions[k].end + 1 < regions[k'].start)
    && (forall k :: 0 <= k < |regions| ==> regions[k].start == 0 || !IsHigh(d[regions[k].start - 1]))
    && (forall k :: 0 <= k < |regions| ==> regions[k].end == |d| - 1 || !IsHigh(d[regions[k].end + 1]))
    && (forall x :: 0 <= x < |d| && IsHigh(d[x]) ==> Covered(regions, x))
  }

  lemma CoveredByAppend(regions: seq<Region>, r: Region, x: int)
    requires Covered(regions, x) || r.start <= x <= r.end
    ensures Covered(regions + [r], x)
  {
    if r.start <= x <= r.end {
      assert (regions + [r])[|regions|] == r;
    } else {
      var k :| 0 <= k < |regions| && regions[k].start <= x <= regions[k].end;
      assert (regions + [r])[k] == regions[k];
    }
  }

  /** The loop's view of the runs closed before column `i`. */
  ghost predicate ClosedRuns(d: seq<int>, regions: seq<Region>, i: int) {
    && i <= |d|
    && (forall k :: 0 <= k < |regions| ==> 0 <= regions[k].start <= regions[k].end && regions[k].end + 1 < i)
    && (forall k, x :: 0 <= k < |regions| && regions[k].start <= x <= regions[k].end ==> IsHigh(d[x]))
    && (forall k, k' :: 0 <= k < k' < |regions| ==> regions[k].end + 1 < regions[k'].start)
    && (forall k :: 0 <= k < |regions| ==> regions[k].start == 0 || !IsHigh(d[regions[k].start - 1]))
    && (forall k :: 0 <= k < |regions| ==> !IsHigh(d[regions[k].end + 1]))
  }

  /** The run open since `s` is all high up to `i` and starts after a low column. */
  ghost predicate OpenRun(d: seq<int>, regions: seq<Region>, s: int, i: int)
    requires i <= |d|
  {
    && 0 <= s < i
    && (s == 0 || !IsHigh(d[s - 1]))
    && (forall x :: s <= x < i ==> IsHigh(d[x]))
    && (forall k :: 0 <= k < |regions| ==> regions[k].end + 1 < s)
  }

  /** Every high column before `i` is in a closed run or in the open one. */
  ghost predicate CoveredBefore(d: seq<int>, regions: seq<Region>, start: Option<int>, i: int)
    requires i <= |d|
  {
    forall x :: 0 <= x < i && IsHigh(d[x]) ==> Covered(regions, x) || (start.Some? && start.value <= x)
  }

  /** The loop's invariant before column `i`. */
  ghost predicate ScanState(d: seq<int>, regions: seq<Region>, start: Option<int>, i: int) {
    && 0 <= i
    && ClosedRuns(d, regions, i)
    && (start.Some? ==> OpenRun(d, regions, start.value, i))
    && (start.None? ==> i == 0 || !IsHigh(d[i - 1]))
    && CoveredBefore(d, regions, start, i)
  }

  /** A step on which no run is closed. */
  lemma ScanStep(d: seq<int>, regions: seq<Region>, start: Option<int>, i: int)
    requires 0 <= i < |d| && ScanState(d, regions, start, i)
    requires start.Some? ==> IsHigh(d[i])
    ensures var start' := if IsHigh(d[i]) && start.None? then Some(i) else start;
      ScanState(d, regions, start', i + 1)
  {
  }

  /** Closing the open run at `n - 1` keeps every high column before `n` covered. */
  lemma CloseCovers(d: seq<int>, regions: seq<Region>, s: int, n: int)
    requires 0 <= n <= |d| && CoveredBefore(d, regions, Some(s), n)
    ensures CoveredBefore(d, regions + [Region(s, n - 1)], None, n)
  {
    forall x | 0 <= x < n && IsHigh(d[x]) ensures Covered(regions + [Region(s, n - 1)], x) {
      CoveredByAppend(regions, Region(s, n - 1), x);
    }
  }

  /** The closed runs plus the open run closed at `n - 1` lie before column `n`. */
  lemma CloseRuns(d: seq<int>, regions: seq<Region>, s: int, n: int)
    requires n <= |d| && ClosedRuns(d, regions, n) && OpenRun(d, regions, s, n)
    ensures var regions' := regions + [Region(s, n - 1)];
      && (forall k :: 0 <= k < |regions'| ==> 0 <= regions'[k].start <= regions'[k].end < n)
      && (forall k, x :: 0 <= k < |regions'| && regions'[k].start <= x <= regions'[k].end ==> IsHigh(d[x]))
      && (forall k, k' :: 0 <= k < k' < |regions'| ==> regions'[k].end + 1 < regions'[k'].start)
      && (forall k :: 0 <= k < |regions'| ==> regions'[k].start == 0 || !IsHigh(d[regions'[k].start - 1]))
      && (forall k :: 0 <= k < |regions| ==> !IsHigh(d[regions'[k].end + 1]))
  {
    var regions' := regions + [Region(s, n - 1)];
    assert forall k :: 0 <= k < |regions| ==> regions'[k] == regions[k];
  }

  /** A step on which the open run is closed at the low column `i`. */
  lemma ScanClose(d: seq<int>, regions: seq<Region>, s: int, i: int)
    requires 0 <= i < |d| && ScanState(d, regions, Some(s), i) && !IsHigh(d[i])
    ensures ScanState(d, regions + [Region(s, i - 1)], None, i + 1)
  {
    CloseCovers(d, regions, s, i);
    CloseRuns(d, regions, s, i);
  }

  /** At the end of the scan with no run open, the closed runs are the decomposition. */
  lemma ScanFinishClosed(d: seq<int>, regions: seq<Region>)
    requires ScanState(d, regions, None, |d|)
    ensures IsRunDecomposition(d, regions)
  {
  }

  /** Closing the open run at the last index: every run is in range and cannot be extended. */
  lemma FinishBounds(d: seq<int>, regions: seq<Region>, s: int)
    requires ScanState(d, regions, Some(s), |d|)
    ensures var regions' := regions + [Region(s, |d| - 1)];
      forall k :: 0 <= k < |regions'| ==>
        && 0 <= regions'[k].start <= regions'[k].end < |d|
        && (regions'[k].start == 0 || !IsHigh(d[regions'[k].start - 1]))
        && (regions'[k].end == |d| - 1 || !IsHigh(d[regions'[k].end + 1]))
  {
    var regions' := regions + [Region(s, |d| - 1)];
    forall k | 0 <= k < |regions'|
      ensures 0 <= regions'[k].start <= regions'[k].end < |d|
      ensures regions'[k].start == 0 || !IsHigh(d[regions'[k].start - 1])
      ensures regions'[k].end == |d| - 1 || !IsHigh(d[regions'[k].end + 1])
    {
      if k < |regions| {
        assert regions'[k] == regions[k];
      }
    }
  }

  /** Closing the open run at the last index: every run is all high. */
  lemma FinishHigh(d: seq<int>, regions: seq<Region>, s: int)
    requires ScanState(d, regions, Some(s), |d|)
    ensures var regions' := regions + [Region(s, |d| - 1)];
      forall k, x :: 0 <= k < |regions'| && regions'[k].start <= x <= regions'[k].end ==> IsHigh(d[x])
  {
    var regions' := regions + [Region(s, |d| - 1)];
    forall k, x | 0 <= k < |regions'| && regions'[k].start <= x <= regions'[k].end ensures IsHigh(d[x]) {
      if k < |regions| {
        assert regions'[k] == regions[k];
      }
    }
  }

  /** Closing the open run at the last index: runs stay separated by a low column. */
  lemma FinishSeparated(d: seq<int>, regions: seq<Region>, s: int)
    requires ScanState(d, regions, Some(s), |d|)
    ensures var regions' := regions + [Region(s, |d| - 1)];
      forall k, k' :: 0 <= k < k' < |regions'| ==> regions'[k].end + 1 < regions'[k'].start
  {
    var regions' := regions + [Region(s, |d| - 1)];
    forall k, k' | 0 <= k < k' < |regions'| ensures regions'[k].end + 1 < regions'[k'].start {
      assert regions'[k] == regions[k];
      if k' < |regions| {
        assert regions'[k'] == regions[k'];
      }
    }
  }

  /** At the end of the scan with a run open since `s`, closing it at the last index gives the decomposition. */
  lemma ScanFinishOpen(d: seq<int>, regions: seq<Region>, s: int)
    requires ScanState(d, regions, Some(s), |d|)
    ensures IsRunDecomposition(d, regions + [Region(s, |d| - 1)])
  {
    CloseCovers(d, regions, s, |d|);
    FinishBounds(d, regions, s);
    FinishHigh(d, regions, s);
    FinishSeparated(d, regions, s);
  }

  /**
    `detect_high_intensity_regions` (mask and run extraction): scan the
    columns, open a run at the first high column, close it at the next low
    one, and close a run still open at the end with the last index.
   */
  method DetectHighIntensityRegions(distribution: seq<int>) returns (regions: seq<Region>)
    ensures IsRunDecomposition(distribution, regions)
  {
    regions := [];
    var start: Option<int> := None;
    for i := 0 to |distribution|
      invariant ScanState(distribution, regions, start, i)
    {
      var isHigh := distribution[i] > HighThreshold;
      if isHigh && start.None? {
        ScanStep(distribution, regions, start, i);
        start := Some(i);
      } else if !isHigh && start.Some? {
        ScanClose(distribution, regions, start.value, i);
        regions := regions + [Region(start.value, i - 1)];
        start := None;
      } else {
        ScanStep(distribution, regions, start, i);
      }
    }
    if start.Some? {
      ScanFinishOpen(distribution, regions, start.value);
      regions := regions + [Region(start.value, |distribution| - 1)];
    } else {
      ScanFinishClosed(distribution, regions);
    }
  }

  /** Each high column lies in exactly one region of a run decomposition. */
  lemma CoveringRegionUnique(d: seq<int>, regions: seq<Region>, x: int, k1: int, k2: int)
    requires IsRunDecomposition(d, regions)
    requires 0 <= k1 < |regions| && regions[k1].start <= x <= regions[k1].end
    requires 0 <= k2 < |regions| && regions[k2].start <= x <= regions[k2].end
    ensures k1 == k2
  {
  }

  /** A decomposition is empty exactly when no column is high (so an empty distribution has none). */
  lemma NoRegionsIffNoHighColumn(d: seq<int>, regions: seq<Region>)
    requires IsRunDecomposition(d, regions)
    ensures regions == [] <==> forall x :: 0 <= x < |d| ==> !IsHigh(d[x])
  {
    if regions != [] {
      assert IsHigh(d[regions[0].start]);
    }
  }

  ghost predicate StartsIncreasing(rs: seq<Region>) {
    forall k, k' :: 0 <= k < k' < |rs| ==> rs[k].start < rs[k'].start
  }

  /** Every region of one run decomposition is a region of any other. */
  lemma RegionInOtherDecomposition(d: seq<int>, r1: seq<Region>, r2: seq<Region>, k: int)
    requires IsRunDecomposition(d, r1) && IsRunDecomposition(d, r2) && 0 <= k < |r1|
    ensures r1[k] in r2
  {
    var s, e := r1[k].start, r1[k].end;
    assert IsHigh(d[s]);
    assert Covered(r2, s);
    var m :| 0 <= m < |r2| && r2[m].start <= s <= r2[m].end;
    var s2, e2 := r2[m].start, r2[m].end;
    assert r2[m] == r1[k];
  }

  lemma FirstStartIsLeast(rs: seq<Region>, k: int)
    requires StartsIncreasing(rs) && 0 <= k < |rs|
    ensures rs[0].start <= rs[k].start
  {
  }

  /** Past a shared first element, the elements of `a`'s tail are in `b`'s tail. */
  lemma TailSubset(a: seq<Region>, b: seq<Region>)
    requires StartsIncreasing(a) && a != [] && b != [] && a[0] == b[0]
    requires forall r :: r in a ==> r in b
    ensures forall r :: r in a[1..] ==> r in b[1..]
  {
    forall r | r in a[1..] ensures r in b[1..] {
      var i :| 1 <= i < |a| && a[i] == r;
      assert a[0].start < r.start;
      assert r in a;
      var j :| 0 <= j < |b| && b[j] == r;
    }
  }

  /** Two region lists with strictly increasing starts and the same elements are equal. */
  lemma {:induction false} IncreasingSameElementsEqual(a: seq<Region>, b: seq<Region>)
    requires StartsIncreasing(a) && StartsIncreasing(b)
    requires forall r :: r in a <==> r in b
    ensures a == b
    decreases |a|
  {
    if a != [] {
      assert a[0] in b;
    }
    if b != [] {
      assert b[0] in a;
    }
    if a != [] && b != [] {
      var m :| 0 <= m < |b| && b[m] == a[0];
      var n :| 0 <= n < |a| && a[n] == b[0];
      FirstStartIsLeast(a, n);
      FirstStartIsLeast(b, m);
      assert m == 0;
      TailSubset(a, b);
      TailSubset(b, a);
      IncreasingSameElementsEqual(a[1..], b[1..]);
      assert a == [a[0]] + a[1..];
      assert b == [b[0]] + b[1..];
    }
  }

  /** The decomposition into maximal runs is unique: the contract fixes the output. */
  lemma RunDecompositionUnique(d: seq<int>, r1: seq<Region>, r2: seq<Region>)
    requires IsRunDecomposition(d, r1) && IsRunDecomposition(d, r2)
    ensures r1 == r2
  {
    forall r | r in r1 ensures r in r2 {
      var k :| 0 <= k < |r1| && r1[k] == r;
      RegionInOtherDecomposition(d, r1, r2, k);
    }
    forall r | r in r2 ensures r in r1 {
      var k :| 0 <= k < |r2| && r2[k] == r;
      RegionInOtherDecomposition(d, r2, r1, k);
    }
    IncreasingSameElementsEqual(r1, r2);
  }

  predicate EndsNondecreasing(rs: seq<Region>) {
    forall k, k' :: 0 <= k < k' < |rs| ==> rs[k].end <= rs[k'].end
  }

  /** Region lists produced by the finder have non-decreasing ends, as the pairer's exact contract needs. */
  lemma RunDecompositionEndsNondecreasing(d: seq<int>, regions: seq<Region>)
    requires IsRunDecomposition(d, regions)
    ensures EndsNondecreasing(regions)
  {
  }

  /**
    The three conditions under which the merge emits blue region `i` with green
    region `j`: blue lies left of green, the green region before `j` ends
    before blue starts, and the blue region after `i` starts after green ends.
   */
  predicate Emittable(blue: seq<Region>, green: seq<Region>, i: int, j: int)
    requires 0 <= i < |blue| && 0 <= j < |green|
  {
    && blue[i].end < green[j].start
    && (j == 0 || green[j - 1].end < blue[i].start)
    && (i + 1 >= |blue| || blue[i + 1].start > green[j].end)
  }

  ghost predicate EmittedAt(blue: seq<Region>, green: seq<Region>, pair: Pair, i: int, j: int) {
    && 0 <= i < |blue| && 0 <= j < |green|
    && pair == Pair(blue[i], green[j])
    && Emittable(blue, green, i, j)
  }

  /** The first green region that starts after column `e`, or `|green|`. */
  function FirstStartAfter(green: seq<Region>, e: int): (j: int)
    ensures 0 <= j <= |green|
    ensures forall j' :: 0 <= j' < j ==> green[j'].start <= e
    ensures j < |green| ==> green[j].start > e
  {
    if green == [] then 0
    else if green[0].start > e then 0
    else 1 + FirstStartAfter(green[1..], e)
  }

  /** The pair, if any, that blue region `i` contributes when blue ends are sorted. */
  function PairFor(blue: seq<Region>, green: seq<Region>, i: int): seq<Pair>
    requires 0 <= i < |blue|
  {
    var j := FirstStartAfter(green, blue[i].end);
    if j < |green| && Emittable(blue, green, i, j) then [Pair(blue[i], green[j])] else []
  }

  /** The pairs the merge emits for the first `n` blue regions, stated without pointers. */
  function ExpectedPairs(blue: seq<Region>, green: seq<Region>, n: int): seq<Pair>
    requires 0 <= n <= |blue|
  {
    if n == 0 then [] else ExpectedPairs(blue, green, n - 1) + PairFor(blue, green, n - 1)
  }

  /** A blue region ending at or after every green start is paired with nothing. */
  lemma NoPairPastAllGreen(blue: seq<Region>, green: seq<Region>, k: int)
    requires 0 <= k < |blue| && forall j' :: 0 <= j' < |green| ==> green[j'].start <= blue[k].end
    ensures PairFor(blue, green, k) == []
  {
    assert FirstStartAfter(green, blue[k].end) == |green|;
  }

  /** Once every green region starts before blue region `i` ends, later blue regions add no pair. */
  lemma {:induction false} ExpectedPairsStable(blue: seq<Region>, green: seq<Region>, i: int, n: int)
    requires EndsNondecreasing(blue) && 0 <= i <= n <= |blue| && i < |blue|
    requires forall j' :: 0 <= j' < |green| ==> green[j'].start <= blue[i].end
    ensures ExpectedPairs(blue, green, n) == ExpectedPairs(blue, green, i)
    decreases n
  {
    if n > i {
      ExpectedPairsStable(blue, green, i, n - 1);
      NoPairPastAllGreen(blue, green, n - 1);
      assert ExpectedPairs(blue, green, n) == ExpectedPairs(blue, green, n - 1) + [];
    }
  }

  /** The merge's invariant about the pairs emitted before pointers `i` and `j`. */
  ghost predicate MergeIndexed(blue: seq<Region>, green: seq<Region>, pairs: seq<Pair>,
                               blueIndex: seq<int>, greenIndex: seq<int>, i: int, j: int) {
    && 0 <= i <= |blue| && 0 <= j <= |green|
    && |blueIndex| == |pairs| && |greenIndex| == |pairs|
    && (forall p :: 0 <= p < |pairs| ==>
          EmittedAt(blue, green, pairs[p], blueIndex[p], greenIndex[p]) && blueIndex[p] < i && greenIndex[p] <= j)
    && (forall p, q :: 0 <= p < q < |pairs| ==> blueIndex[p] < blueIndex[q] && greenIndex[p] <= greenIndex[q])
  }

  /** With sorted blue ends, the pairs so far are the expected ones and green `j` is the first candidate. */
  ghost predicate MergeExact(blue: seq<Region>, green: seq<Region>, pairs: seq<Pair>, i: int, j: int)
    requires 0 <= i <= |blue| && 0 <= j <= |green|
  {
    EndsNondecreasing(blue) ==>
      && pairs == ExpectedPairs(blue, green, i)
      && (i < |blue| ==> forall j' :: 0 <= j' < j ==> green[j'].start <= blue[i].end)
  }

  /** Emitting blue region `i` with green region `j` and advancing past blue `i`. */
  lemma MergeEmit(blue: seq<Region>, green: seq<Region>, pairs: seq<Pair>,
                  blueIndex: seq<int>, greenIndex: seq<int>, i: int, j: int)
    requires MergeIndexed(blue, green, pairs, blueIndex, greenIndex, i, j) && i < |blue| && j < |green|
    requires MergeExact(blue, green, pairs, i, j) && Emittable(blue, green, i, j)
    ensures MergeIndexed(blue, green, pairs + [Pair(blue[i], green[j])], blueIndex + [i], greenIndex + [j], i + 1, j)
    ensures MergeExact(blue, green, pairs + [Pair(blue[i], green[j])], i + 1, j)
  {
    if EndsNondecreasing(blue) {
      FirstStartAfterIs(green, blue[i].end, j);
    }
  }

  /** Advancing past blue region `i`, which lies left of green `j` but is not emitted. */
  lemma MergeSkipBlue(blue: seq<Region>, green: seq<Region>, pairs: seq<Pair>,
                      blueIndex: seq<int>, greenIndex: seq<int>, i: int, j: int)
    requires MergeIndexed(blue, green, pairs, blueIndex, greenIndex, i, j) && i < |blue| && j < |green|
    requires MergeExact(blue, green, pairs, i, j)
    requires blue[i].end < green[j].start && !Emittable(blue, green, i, j)
    ensures MergeIndexed(blue, green, pairs, blueIndex, greenIndex, i + 1, j)
    ensures MergeExact(blue, green, pairs, i + 1, j)
  {
    if EndsNondecreasing(blue) {
      FirstStartAfterIs(green, blue[i].end, j);
    }
  }

  /** `FirstStartAfter` is pinned down by its two bounds. */
  lemma {:induction false} FirstStartAfterIs(green: seq<Region>, e: int, j: int)
    requires 0 <= j < |green| && green[j].start > e
    requires forall j' :: 0 <= j' < j ==> green[j'].start <= e
    ensures FirstStartAfter(green, e) == j
    decreases j
  {
    if j > 0 {
      FirstStartAfterIs(green[1..], e, j - 1);
    }
  }

  /** Advancing past green region `j`, which starts no later than blue region `i` ends. */
  lemma MergeExactGreen(blue: seq<Region>, green: seq<Region>, pairs: seq<Pair>, i: int, j: int)
    requires 0 <= i < |blue| && 0 <= j < |green| && MergeExact(blue, green, pairs, i, j)
    requires green[j].start <= blue[i].end
    ensures MergeExact(blue, green, pairs, i, j + 1)
  {
  }

  /**
    `find_consecutive_pairs`: a two-pointer merge that emits blue region `i`
    with green region `j` when the three conditions hold and then advances
    `i`, and otherwise advances `j`. The ghost outputs name the indices of
    each emitted pair.
   */
  method FindConsecutivePairs(blue: seq<Region>, green: seq<Region>)
    returns (pairs: seq<Pair>, ghost blueIndex: seq<int>, ghost greenIndex: seq<int>)
    ensures |blueIndex| == |pairs| && |greenIndex| == |pairs|
    ensures forall p :: 0 <= p < |pairs| ==> EmittedAt(blue, green, pairs[p], blueIndex[p], greenIndex[p])
    ensures forall p, q :: 0 <= p < q < |pairs| ==> blueIndex[p] < blueIndex[q] && greenIndex[p] <= greenIndex[q]
    ensures EndsNondecreasing(blue) ==> pairs == ExpectedPairs(blue, green, |blue|)
  {
    pairs, blueIndex, greenIndex := [], [], [];
    var i, j := 0, 0;
    while i < |blue| && j < |green|
      invariant MergeIndexed(blue, green, pairs, blueIndex, greenIndex, i, j)
      invariant MergeExact(blue, green, pairs, i, j)
      decreases |blue| + |green| - (i + j)
    {
      var blueStart, blueEnd := blue[i].start, blue[i].end;
      var greenStart, greenEnd := green[j].start, green[j].end;
      if blueEnd < greenStart {
        ghost var emitted := false;
        if j == 0 || green[j - 1].end < blueStart {
          if i + 1 >= |blue| || blue[i + 1].start > greenEnd {
            MergeEmit(blue, green, pairs, blueIndex, greenIndex, i, j);
            pairs := pairs + [Pair(Region(blueStart, blueEnd), Region(greenStart, greenEnd))];
            blueIndex := blueIndex + [i];
            greenIndex := greenIndex + [j];
            emitted := true;
          }
        }
        if !emitted {
          MergeSkipBlue(blue, green, pairs, blueIndex, greenIndex, i, j);
        }
        i := i + 1;
      } else {
        MergeExactGreen(blue, green, pairs, i, j);
        j := j + 1;
      }
    }
    if EndsNondecreasing(blue) && i < |blue| {
      ExpectedPairsStable(blue, green, i, |blue|);
    }
  }
}
