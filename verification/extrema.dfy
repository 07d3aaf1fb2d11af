/**
  `minMax` (main.js): one left-to-right pass that replaces the running
  minimum only on a strictly smaller value and the running maximum only on
  a strictly larger one, so ties go to the earliest sample.
*/
module Extrema {
  import opened Samples

  /** `points[k]` has the least value of `points`, and no earlier sample has a value that small. */
  ghost predicate IsFirstMin(points: seq<Sample>, k: int) {
    && 0 <= k < |points|
    && (forall j :: 0 <= j < |points| ==> points[k].y <= points[j].y)
    && (forall j :: 0 <= j < k ==> points[j].y > points[k].y)
  }

  /** `points[k]` has the greatest value of `points`, and no earlier sample has a value that large. */
  ghost predicate IsFirstMax(points: seq<Sample>, k: int) {
    && 0 <= k < |points|
    && (forall j :: 0 <= j < |points| ==> points[k].y >= points[j].y)
    && (forall j :: 0 <= j < k ==> points[j].y < points[k].y)
  }

  /** `m` is the first sample of `points` with the least value. */
  ghost predicate IsFirstMinOf(points: seq<Sample>, m: Sample) {
    exists k :: IsFirstMin(points, k) && points[k] == m
  }

  /** `m` is the first sample of `points` with the greatest value. */
  ghost predicate IsFirstMaxOf(points: seq<Sample>, m: Sample) {
    exists k :: IsFirstMax(points, k) && points[k] == m
  }

  /**
    `minMax(points)`. `minMax` reads `points[0]` before the loop, so an
    empty array yields undefined fields; callers must pass a sample.
  */
  method MinMax(points: seq<Sample>) returns (min: Sample, max: Sample)
    requires |points| > 0
    ensures min in points && max in points
    ensures forall p :: p in points ==> min.y <= p.y <= max.y
    ensures IsFirstMinOf(points, min)
    ensures IsFirstMaxOf(points, max)
    ensures |points| == 1 ==> min == points[0] && max == points[0]
  {
    min, max := points[0], points[0];
    ghost var kmin, kmax := 0, 0;
    var i := 0;
    while i < |points|
      invariant 0 <= i <= |points|
      invariant 0 <= kmin < |points| && kmin <= i && min == points[kmin]
      invariant 0 <= kmax < |points| && kmax <= i && max == points[kmax]
      invariant forall j :: 0 <= j < i ==> min.y <= points[j].y
      invariant forall j :: 0 <= j < i ==> max.y >= points[j].y
      invariant forall j :: 0 <= j < kmin ==> points[j].y > min.y
      invariant forall j :: 0 <= j < kmax ==> points[j].y < max.y
    {
      var p := points[i];
      if p.y < min.y {
        min, kmin := p, i;
      }
      if p.y > max.y {
        max, kmax := p, i;
      }
      i := i + 1;
    }
    assert IsFirstMin(points, kmin);
    assert IsFirstMax(points, kmax);
  }

  /**
    The tie-breaking rule determines the minimum: two samples that are both
    the first minimum of `points` are the same sample.
  */
  lemma FirstMinDetermined(points: seq<Sample>, m1: Sample, m2: Sample)
    requires IsFirstMinOf(points, m1) && IsFirstMinOf(points, m2)
    ensures m1 == m2
  {
  }

  /**
    The tie-breaking rule determines the maximum: two samples that are both
    the first maximum of `points` are the same sample.
  */
  lemma FirstMaxDetermined(points: seq<Sample>, m1: Sample, m2: Sample)
    requires IsFirstMaxOf(points, m1) && IsFirstMaxOf(points, m2)
    ensures m1 == m2
  {
  }
}
