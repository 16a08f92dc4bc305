/**
  The reduction that the detection step applies to the detector's output:
  keep every box, and pick the person box of largest area.
  Both flight scripts run the same loop (main.py:209-222 and
  WebApplication/main.py:148-160).
 */
module Detections {
  import opened Common

  /** A detector box in pixel coordinates: (x1, y1) top-left, (x2, y2) bottom-right. */
  datatype Box = Box(x1: int, y1: int, x2: int, y2: int)

  /** One detector result as the loop stores it: box, class label and confidence. */
  datatype Detection = Detection(box: Box, className: string, conf: real)

  /** The area the loop compares, `(x2 - x1) * (y2 - y1)`. */
  function Area(b: Box): int {
    (b.x2 - b.x1) * (b.y2 - b.y1)
  }

  predicate IsPerson(d: Detection) {
    d.className == "person"
  }

  /** No person box among the first `n` results has a positive area. */
  ghost predicate NoPositivePerson(results: seq<Detection>, n: int)
    requires n <= |results|
  {
    forall j :: 0 <= j < n && IsPerson(results[j]) ==> Area(results[j].box) <= 0
  }

  /**
    Index `k` holds, among the first `n` results, a person box of positive area
    that no person box exceeds, and every earlier person box is strictly smaller:
    the first box of maximal area.
   */
  ghost predicate FirstLargestPerson(results: seq<Detection>, k: int, n: int)
    requires n <= |results|
  {
    && 0 <= k < n
    && IsPerson(results[k])
    && Area(results[k].box) > 0
    && (forall j :: 0 <= j < n && IsPerson(results[j]) ==> Area(results[j].box) <= Area(results[k].box))
    && (forall j :: 0 <= j < k && IsPerson(results[j]) ==> Area(results[j].box) < Area(results[k].box))
  }

  /** `personBox` is what the reduction must produce for `results`. */
  ghost predicate IsPersonReduction(results: seq<Detection>, personBox: Option<Box>) {
    && (personBox.None? <==> NoPositivePerson(results, |results|))
    && (personBox.Some? ==>
          exists k :: FirstLargestPerson(results, k, |results|) && results[k].box == personBox.value)
  }

  /** The first largest person box is unique, so the reduction's answer is determined. */
  lemma FirstLargestPersonUnique(results: seq<Detection>, k1: int, k2: int, n: int)
    requires n <= |results|
    requires FirstLargestPerson(results, k1, n) && FirstLargestPerson(results, k2, n)
    ensures k1 == k2
  {
  }

  /**
    The reduction loop: `dets` collects every box in input order, `personBox`
    tracks the person box of largest area, starting from `largest_area = 0`
    with a strict comparison.
   */
  method ReducePersonBox(results: seq<Detection>) returns (dets: seq<Detection>, personBox: Option<Box>)
    ensures dets == results
    ensures IsPersonReduction(results, personBox)
  {
    dets := [];
    personBox := None;
    var largestArea := 0;
    ghost var best := 0;
    for i := 0 to |results|
      invariant dets == results[..i]
      invariant personBox.None? ==> largestArea == 0 && NoPositivePerson(results, i)
      invariant personBox.Some? ==>
        && FirstLargestPerson(results, best, i)
        && personBox.value == results[best].box
        && largestArea == Area(results[best].box)
    {
      var d := results[i];
      dets := dets + [d];
      if IsPerson(d) {
        var area := Area(d.box);
        if area > largestArea {
          largestArea := area;
          personBox := Some(d.box);
          best := i;
        }
      }
    }
    assert results[..|results|] == results;
  }
}
