/**
  Pressure samples and the cleaning step of `loadData` (main.js): every feed
  row becomes a `{x, y}` pair and only the pairs whose value is a finite
  number are kept, in feed order.
*/
module Samples {
  import Seqs

  /** The outcome of `parseFloat` on a feed field: a finite value, or one of the non-finite numbers. */
  datatype Number = Finite(value: real) | NaN | PosInfinity | NegInfinity {
    /** `Number.isFinite`. */
    predicate IsFinite() {
      Finite?
    }
  }

  /** A feed row after `map`: `x` is the creation time in epoch milliseconds, `y` the parsed field. */
  datatype Reading = Reading(x: int, y: Number)

  /** A cleaned pressure sample: epoch milliseconds and a finite value in hPa. */
  datatype Sample = Sample(x: int, y: real)

  /** The reading a sample came from. */
  function AsReading(p: Sample): Reading {
    Reading(p.x, Finite(p.y))
  }

  /** The readings a sequence of samples came from, position by position. */
  function AsReadings(ps: seq<Sample>): (rs: seq<Reading>)
    ensures |rs| == |ps|
    ensures forall i :: 0 <= i < |ps| ==> rs[i] == AsReading(ps[i])
  {
    if |ps| == 0 then [] else [AsReading(ps[0])] + AsReadings(ps[1..])
  }

  /** The filter condition of `loadData`. */
  function IsFiniteReading(): Reading -> bool {
    (r: Reading) => r.y.IsFinite()
  }

  /**
    `loadData`'s `filter(p => Number.isFinite(p.y))`: the finite readings of
    the feed, as samples, in feed order.
  */
  function CleanFeed(feed: seq<Reading>): (ps: seq<Sample>)
    ensures |ps| <= |feed|
    ensures forall i :: 0 <= i < |ps| ==> AsReading(ps[i]) in feed
    ensures forall j :: 0 <= j < |feed| && feed[j].y.Finite? ==> Sample(feed[j].x, feed[j].y.value) in ps
  {
    if |feed| == 0 then []
    else
      var rest := CleanFeed(feed[1..]);
      match feed[0].y
      case Finite(v) => [Sample(feed[0].x, v)] + rest
      case _ => rest
  }

  /**
    Cleaning is exactly order-preserving selection of the finite readings:
    read back as readings, the cleaned feed is `Filter(feed, IsFiniteReading())`,
    so it is a subsequence of the feed and keeps every finite reading as often
    as it occurs.
  */
  lemma {:induction false} CleanFeedIsFilter(feed: seq<Reading>)
    ensures AsReadings(CleanFeed(feed)) == Seqs.Filter(feed, IsFiniteReading())
  {
    if |feed| > 0 {
      CleanFeedIsFilter(feed[1..]);
      var rest := CleanFeed(feed[1..]);
      if feed[0].y.Finite? {
        var p := Sample(feed[0].x, feed[0].y.value);
        assert CleanFeed(feed) == [p] + rest;
        assert AsReadings([p] + rest) == [AsReading(p)] + AsReadings(rest);
      }
    }
  }

  /**
    The cleaned feed, read back as readings, keeps the feed order, contains
    exactly the finite readings, and keeps each of them as often as the feed
    holds it.
  */
  lemma CleanFeedKeepsExactlyFinite(feed: seq<Reading>)
    ensures Seqs.IsSubseq(AsReadings(CleanFeed(feed)), feed)
    ensures forall r :: r in AsReadings(CleanFeed(feed)) <==> r in feed && r.y.IsFinite()
    ensures forall r :: multiset(AsReadings(CleanFeed(feed)))[r] == if r.y.IsFinite() then multiset(feed)[r] else 0
  {
    CleanFeedIsFilter(feed);
    Seqs.FilterCounts(feed, IsFiniteReading());
  }
}
