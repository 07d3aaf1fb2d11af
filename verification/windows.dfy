/**
  The two time filters of main.js: the initial horizon cut of `init`, driven
  by the `RANGE_HOURS` table, and `filterByX`, the viewport filter used on
  every pan or zoom.
*/
module Windows {
  import opened Wrappers
  import Seqs
  import opened Samples

  /** The keys of `RANGE_HOURS`. */
  datatype RangeKey = OneHour | ThreeHours | SixHours | TwelveHours | OneDay

  /** The range the dashboard starts with (`currentRange`, never reassigned). */
  const CurrentRange: string := "1d"

  const MillisPerHour: int := 3600 * 1000

  /** The key's spelling in `RANGE_HOURS`. */
  function Name(k: RangeKey): string {
    match k
    case OneHour => "1h"
    case ThreeHours => "3h"
    case SixHours => "6h"
    case TwelveHours => "12h"
    case OneDay => "1d"
  }

  /** Looking a name up in `RANGE_HOURS`; names outside the table have no entry. */
  function FromName(name: string): (k: Option<RangeKey>)
    ensures k.Some? ==> Name(k.value) == name
  {
    if name == "1h" then Some(OneHour)
    else if name == "3h" then Some(ThreeHours)
    else if name == "6h" then Some(SixHours)
    else if name == "12h" then Some(TwelveHours)
    else if name == "1d" then Some(OneDay)
    else None
  }

  /** Every key of the table is found under its own name. */
  lemma FromNameOfName(k: RangeKey)
    ensures FromName(Name(k)) == Some(k)
  {
  }

  /** Position of a key in the table, shortest horizon first. */
  function Rank(k: RangeKey): nat {
    match k
    case OneHour => 0
    case ThreeHours => 1
    case SixHours => 2
    case TwelveHours => 3
    case OneDay => 4
  }

  /** The `RANGE_HOURS` value of a key. */
  function Hours(k: RangeKey): (h: nat)
    ensures 1 <= h <= 24
  {
    match k
    case OneHour => 1
    case ThreeHours => 3
    case SixHours => 6
    case TwelveHours => 12
    case OneDay => 24
  }

  /** Later keys of the table span strictly more hours. */
  lemma HoursIncreasing(k1: RangeKey, k2: RangeKey)
    ensures Rank(k1) < Rank(k2) <==> Hours(k1) < Hours(k2)
  {
  }

  /** `now - hours * 3600 * 1000`: the oldest timestamp the horizon still shows. */
  function Cutoff(now: int, hours: nat): (cut: int)
    ensures cut <= now
  {
    now - hours * MillisPerHour
  }

  /** The condition of `init`'s filter: at or after `cut`. */
  function Since(cut: int): Sample -> bool {
    (p: Sample) => p.x >= cut
  }

  /** The condition of `filterByX`: inside the closed interval `[t0, t1]`. */
  function Between(t0: int, t1: int): Sample -> bool {
    (p: Sample) => t0 <= p.x && p.x <= t1
  }

  /**
    `init`'s `allPoints.filter(p => p.x.getTime() >= cut)` with
    `cut = now - hours * 3600 * 1000`: the samples of the last `hours` hours,
    in order.
  */
  function RangeCut(points: seq<Sample>, now: int, hours: nat): (r: seq<Sample>)
    ensures Seqs.IsSubseq(r, points)
    ensures forall i :: 0 <= i < |r| ==> r[i].x >= now - hours * MillisPerHour
    ensures forall p :: p in r <==> p in points && p.x >= now - hours * MillisPerHour
  {
    Seqs.Filter(points, Since(Cutoff(now, hours)))
  }

  /** The horizon cut keeps each recent sample exactly as often as the series holds it, and no older one. */
  lemma RangeCutCounts(points: seq<Sample>, now: int, hours: nat)
    ensures forall p ::
      multiset(RangeCut(points, now, hours))[p] == if p.x >= now - hours * MillisPerHour then multiset(points)[p] else 0
  {
    Seqs.FilterCounts(points, Since(Cutoff(now, hours)));
  }

  /**
    `init`'s cut for the range called `name`: `RANGE_HOURS[name]` hours back
    from `now`. A name outside the table reads `undefined`, which makes the
    cut NaN; `x >= NaN` is false for every sample, so nothing is kept.
  */
  function InitialWindow(points: seq<Sample>, now: int, name: string): seq<Sample> {
    match FromName(name)
    case Some(k) => RangeCut(points, now, Hours(k))
    case None => []
  }

  /** Looked up under its own name, a key of `RANGE_HOURS` cuts the series at its hour count. */
  lemma InitialWindowOfKey(points: seq<Sample>, now: int, k: RangeKey)
    ensures InitialWindow(points, now, Name(k)) == RangeCut(points, now, Hours(k))
  {
  }

  /** A range name missing from `RANGE_HOURS` leaves the initial window empty. */
  lemma UnknownRangeKeepsNothing(points: seq<Sample>, now: int, name: string)
    requires FromName(name).None?
    ensures InitialWindow(points, now, name) == []
  {
  }

  /**
    A shorter horizon selects a subsequence of a longer one: cutting the
    longer horizon's samples again at the shorter cutoff gives exactly the
    shorter horizon's samples.
  */
  lemma RangeCutNested(points: seq<Sample>, now: int, h1: nat, h2: nat)
    requires h1 <= h2
    ensures RangeCut(RangeCut(points, now, h2), now, h1) == RangeCut(points, now, h1)
    ensures Seqs.IsSubseq(RangeCut(points, now, h1), RangeCut(points, now, h2))
  {
    var c1, c2 := Cutoff(now, h1), Cutoff(now, h2);
    assert h1 * MillisPerHour <= h2 * MillisPerHour by {
      assert (h2 - h1) * MillisPerHour >= 0;
    }
    assert c2 <= c1;
    Seqs.FilterFilter(points, Since(c1), Since(c2));
    var longer := RangeCut(points, now, h2);
    assert RangeCut(longer, now, h1) == Seqs.Filter(longer, Since(c1));
  }

  /** Along the `RANGE_HOURS` table, each key's window is contained in every later key's window. */
  lemma InitialWindowsNested(points: seq<Sample>, now: int, k1: RangeKey, k2: RangeKey)
    requires Rank(k1) <= Rank(k2)
    ensures Seqs.IsSubseq(InitialWindow(points, now, Name(k1)), InitialWindow(points, now, Name(k2)))
  {
    InitialWindowOfKey(points, now, k1);
    InitialWindowOfKey(points, now, k2);
    RangeCutNested(points, now, Hours(k1), Hours(k2));
  }

  /**
    `filterByX(points, x0, x1)` once both bounds are read as epoch
    milliseconds `t0` and `t1`: the samples with `t0 <= x <= t1`, both ends
    included, in order.
  */
  function FilterByX(points: seq<Sample>, t0: int, t1: int): (r: seq<Sample>)
    ensures Seqs.IsSubseq(r, points)
    ensures forall i :: 0 <= i < |r| ==> t0 <= r[i].x <= t1
    ensures forall p :: p in r <==> p in points && t0 <= p.x <= t1
  {
    Seqs.Filter(points, Between(t0, t1))
  }

  /** `filterByX` keeps each sample inside `[t0, t1]` exactly as often as the series holds it, and no other. */
  lemma FilterByXCounts(points: seq<Sample>, t0: int, t1: int)
    ensures forall p ::
      multiset(FilterByX(points, t0, t1))[p] == if t0 <= p.x <= t1 then multiset(points)[p] else 0
  {
    Seqs.FilterCounts(points, Between(t0, t1));
  }

  /** Applying `filterByX` twice with the same bounds equals applying it once. */
  lemma FilterByXIdempotent(points: seq<Sample>, t0: int, t1: int)
    ensures FilterByX(FilterByX(points, t0, t1), t0, t1) == FilterByX(points, t0, t1)
  {
    Seqs.FilterIdempotent(points, Between(t0, t1));
  }

  /** Zooming into `[a0, a1]` from the already filtered `[b0, b1]` gives the same samples as filtering the full series. */
  lemma FilterByXZoomIn(points: seq<Sample>, b0: int, b1: int, a0: int, a1: int)
    requires b0 <= a0 && a1 <= b1
    ensures FilterByX(FilterByX(points, b0, b1), a0, a1) == FilterByX(points, a0, a1)
  {
    Seqs.FilterFilter(points, Between(a0, a1), Between(b0, b1));
  }

  /**
    When no sample lies in the future, the horizon cut is the viewport filter
    over `[now - hours * 3600 * 1000, now]`.
  */
  lemma RangeCutAsViewport(points: seq<Sample>, now: int, hours: nat)
    requires forall i :: 0 <= i < |points| ==> points[i].x <= now
    ensures RangeCut(points, now, hours) == FilterByX(points, Cutoff(now, hours), now)
  {
    Seqs.FilterCongruent(points, Since(Cutoff(now, hours)), Between(Cutoff(now, hours), now));
  }
}
