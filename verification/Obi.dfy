/** Order-book imbalance: one smoothed value per exchange, averaged by volume into a bounded nudge. */
module Obi {
  import opened Reals

  datatype ExchangeId = Binance | Okx | Lighter

  const ALL: seq<ExchangeId> := [Binance, Okx, Lighter]

  const EPSILON: real := 0.000000000001

  datatype TopOfBook = TopOfBook(bidVol: real, askVol: real)

  datatype Tracker = Tracker(id: ExchangeId, smoothed: real, weight: real)

  function Imbalance(bid: real, ask: real): real
    requires bid + ask != 0.0
  {
    (bid - ask) / (bid + ask)
  }

  /** An empty or vanishing book leaves the smoothed imbalance alone. */
  function Smooth(alpha: real, smoothed: real, tob: TopOfBook): real {
    var total := tob.bidVol + tob.askVol;
    if (tob.bidVol == 0.0 && tob.askVol == 0.0) || total < EPSILON then smoothed
    else Mix(alpha, Imbalance(tob.bidVol, tob.askVol), smoothed)
  }

  function Refreshed(alpha: real, t: Tracker, tob: TopOfBook): Tracker {
    Tracker(t.id, Smooth(alpha, t.smoothed, tob), tob.bidVol + tob.askVol)
  }

  function Update(alpha: real, trackers: seq<Tracker>, id: ExchangeId, tob: TopOfBook): seq<Tracker> {
    if trackers == [] then []
    else if trackers[0].id == id then [Refreshed(alpha, trackers[0], tob)] + trackers[1..]
    else [trackers[0]] + Update(alpha, trackers[1..], id, tob)
  }

  function TotalWeight(trackers: seq<Tracker>): real {
    if trackers == [] then 0.0 else TotalWeight(trackers[..|trackers| - 1]) + trackers[|trackers| - 1].weight
  }

  function PlainSum(trackers: seq<Tracker>, maxDrift: real): real {
    if trackers == [] then 0.0
    else PlainSum(trackers[..|trackers| - 1], maxDrift) + OwnNudge(trackers[|trackers| - 1], maxDrift)
  }

  function OwnNudge(t: Tracker, maxDrift: real): real {
    t.smoothed * maxDrift
  }

  /** One exchange's nudge times its share of the volume. */
  function Term(t: Tracker, maxDrift: real, total: real): real
    requires total > 0.0
  {
    OwnNudge(t, maxDrift) * t.weight / total
  }

  function WeightedSum(trackers: seq<Tracker>, maxDrift: real, total: real): real
    requires total > 0.0
  {
    if trackers == [] then 0.0
    else
      WeightedSum(trackers[..|trackers| - 1], maxDrift, total) + Term(trackers[|trackers| - 1], maxDrift, total)
  }

  function Nudge(trackers: seq<Tracker>, maxDrift: real): real {
    var total := TotalWeight(trackers);
    if total >= EPSILON then WeightedSum(trackers, maxDrift, total)
    else if trackers == [] then 0.0
    else PlainSum(trackers, maxDrift) / |trackers| as real
  }

  /** `i` is where the search for the exchange stops. */
  lemma {:induction false} UpdateAt(alpha: real, trackers: seq<Tracker>, id: ExchangeId, tob: TopOfBook, i: nat)
    requires i <= |trackers| && (forall j :: 0 <= j < i ==> trackers[j].id != id)
    requires i < |trackers| ==> trackers[i].id == id
    ensures Update(alpha, trackers, id, tob) ==
              if i < |trackers| then trackers[i := Refreshed(alpha, trackers[i], tob)] else trackers
  {
    if i > 0 {
      UpdateAt(alpha, trackers[1..], id, tob, i - 1);
    }
  }

  class MultiExchangeObi {
    const alpha: real
    const maxDrift: real
    var trackers: seq<Tracker>

    constructor (alpha: real, maxDrift: real)
      ensures this.alpha == alpha && this.maxDrift == maxDrift && trackers == Fresh()
    {
      this.alpha, this.maxDrift := alpha, maxDrift;
      trackers := seq(|ALL|, i requires 0 <= i < |ALL| => Tracker(ALL[i], 0.0, 0.0));
    }

    /** The first tracker of that exchange, and no other. */
    method OnSnapshot(id: ExchangeId, tob: TopOfBook)
      modifies this
      ensures trackers == Update(alpha, old(trackers), id, tob)
    {
      var i := 0;
      while i < |trackers| && trackers[i].id != id
        invariant 0 <= i <= |trackers|
        invariant forall j :: 0 <= j < i ==> trackers[j].id != id
      {
        i := i + 1;
      }
      UpdateAt(alpha, trackers, id, tob, i);
      if i < |trackers| {
        trackers := trackers[i := Refreshed(alpha, trackers[i], tob)];
      }
    }

    method DriftNudge() returns (nudge: real)
      ensures nudge == Nudge(trackers, maxDrift)
    {
      var totalWeight := SumWeights();
      if totalWeight < EPSILON {
        var n := |trackers|;
        if n == 0 {
          return 0.0;
        }
        var sum := 0.0;
        assert trackers[..|trackers|] == trackers;
        for i := 0 to |trackers|
          invariant sum == PlainSum(trackers[..i], maxDrift)
        {
          assert trackers[..i + 1][..i] == trackers[..i];
          sum := sum + OwnNudge(trackers[i], maxDrift);
        }
        return sum / n as real;
      }
      nudge := SumWeighted(totalWeight);
    }

    method SumWeights() returns (total: real)
      ensures total == TotalWeight(trackers)
    {
      assert trackers[..|trackers|] == trackers;
      total := 0.0;
      for i := 0 to |trackers|
        invariant total == TotalWeight(trackers[..i])
      {
        assert trackers[..i + 1][..i] == trackers[..i];
        total := total + trackers[i].weight;
      }
    }

    method SumWeighted(total: real) returns (nudge: real)
      requires total > 0.0
      ensures nudge == WeightedSum(trackers, maxDrift, total)
    {
      assert trackers[..|trackers|] == trackers;
      nudge := 0.0;
      for i := 0 to |trackers|
        invariant nudge == WeightedSum(trackers[..i], maxDrift, total)
      {
        assert trackers[..i + 1][..i] == trackers[..i];
        nudge := nudge + Term(trackers[i], maxDrift, total);
      }
    }
  }

  // ─── Any sequence of snapshots ──────────────────────────────────────────────

  function Fresh(): seq<Tracker> {
    seq(|ALL|, i requires 0 <= i < |ALL| => Tracker(ALL[i], 0.0, 0.0))
  }

  function After(alpha: real, snapshots: seq<(ExchangeId, TopOfBook)>): seq<Tracker> {
    if snapshots == [] then Fresh()
    else
      var last := snapshots[|snapshots| - 1];
      Update(alpha, After(alpha, snapshots[..|snapshots| - 1]), last.0, last.1)
  }

  ghost predicate Bounded(t: Tracker) {
    -1.0 <= t.smoothed <= 1.0 && t.weight >= 0.0
  }

  ghost predicate AllBounded(trackers: seq<Tracker>) {
    forall i :: 0 <= i < |trackers| ==> Bounded(trackers[i])
  }

  ghost predicate Sane(tob: TopOfBook) {
    tob.bidVol >= 0.0 && tob.askVol >= 0.0
  }

  lemma ImbalanceInRange(bid: real, ask: real)
    requires bid >= 0.0 && ask >= 0.0 && bid + ask > 0.0
    ensures -1.0 <= Imbalance(bid, ask) <= 1.0
  {
    QuotientBound(bid - ask, bid + ask, 1.0);
    QuotientBound(bid - ask, bid + ask, -1.0);
  }

  lemma SmoothBounded(alpha: real, smoothed: real, tob: TopOfBook)
    requires 0.0 <= alpha <= 1.0 && -1.0 <= smoothed <= 1.0 && Sane(tob)
    ensures -1.0 <= Smooth(alpha, smoothed, tob) <= 1.0
  {
    if tob.bidVol + tob.askVol >= EPSILON {
      ImbalanceInRange(tob.bidVol, tob.askVol);
      Between(alpha, Imbalance(tob.bidVol, tob.askVol), smoothed, -1.0, 1.0);
    }
  }

  /** An update reaches the first tracker of that exchange and no other. */
  lemma {:induction false} UpdateReaches(alpha: real, trackers: seq<Tracker>, id: ExchangeId, tob: TopOfBook)
    ensures var next := Update(alpha, trackers, id, tob);
            && |next| == |trackers|
            && (forall i :: 0 <= i < |next| ==> next[i].id == trackers[i].id)
            && (forall i :: 0 <= i < |next| && trackers[i].id != id ==> next[i] == trackers[i])
            && (forall i :: 0 <= i < |next| && trackers[i].id == id && (forall j :: 0 <= j < i ==> trackers[j].id != id) ==>
                  next[i] == Refreshed(alpha, trackers[i], tob))
  {
    if trackers != [] && trackers[0].id != id {
      var rest := trackers[1..];
      UpdateReaches(alpha, rest, id, tob);
      forall i | 0 < i < |trackers| && trackers[i].id == id && (forall j :: 0 <= j < i ==> trackers[j].id != id)
        ensures Update(alpha, trackers, id, tob)[i] == Refreshed(alpha, trackers[i], tob)
      {
        assert forall j :: 0 <= j < i - 1 ==> rest[j] == trackers[j + 1];
      }
    }
  }

  /** An update keeps every bound. */
  lemma {:induction false} UpdateBounded(alpha: real, trackers: seq<Tracker>, id: ExchangeId, tob: TopOfBook)
    requires 0.0 <= alpha <= 1.0 && AllBounded(trackers) && Sane(tob)
    ensures AllBounded(Update(alpha, trackers, id, tob))
  {
    if trackers != [] {
      if trackers[0].id == id {
        SmoothBounded(alpha, trackers[0].smoothed, tob);
      } else {
        UpdateBounded(alpha, trackers[1..], id, tob);
      }
    }
  }

  /** One tracker per exchange, always. */
  ghost predicate OnePerExchange(trackers: seq<Tracker>) {
    |trackers| == |ALL| && forall i :: 0 <= i < |ALL| ==> trackers[i].id == ALL[i]
  }

  lemma {:induction false} TrackersOfAll(alpha: real, snapshots: seq<(ExchangeId, TopOfBook)>)
    ensures OnePerExchange(After(alpha, snapshots))
  {
    if snapshots != [] {
      var n := |snapshots| - 1;
      TrackersOfAll(alpha, snapshots[..n]);
      UpdateReaches(alpha, After(alpha, snapshots[..n]), snapshots[n].0, snapshots[n].1);
    }
  }

  lemma {:induction false} SmoothedInRange(alpha: real, snapshots: seq<(ExchangeId, TopOfBook)>)
    requires 0.0 <= alpha <= 1.0 && forall i :: 0 <= i < |snapshots| ==> Sane(snapshots[i].1)
    ensures AllBounded(After(alpha, snapshots)) && OnePerExchange(After(alpha, snapshots))
  {
    TrackersOfAll(alpha, snapshots);
    if snapshots != [] {
      var n := |snapshots| - 1;
      SmoothedInRange(alpha, snapshots[..n]);
      UpdateBounded(alpha, After(alpha, snapshots[..n]), snapshots[n].0, snapshots[n].1);
    }
  }

  // ─── The nudge is a mean ────────────────────────────────────────────────────

  /** Every weighted sum is the moment over the total weight. */
  ghost function Moment(trackers: seq<Tracker>, maxDrift: real): real {
    if trackers == [] then 0.0
    else
      var t := trackers[|trackers| - 1];
      Moment(trackers[..|trackers| - 1], maxDrift) + OwnNudge(t, maxDrift) * t.weight
  }

  lemma {:induction false} MomentIs(trackers: seq<Tracker>, maxDrift: real, total: real)
    requires total > 0.0
    ensures WeightedSum(trackers, maxDrift, total) * total == Moment(trackers, maxDrift)
  {
    if trackers != [] {
      var n := |trackers| - 1;
      var t := trackers[n];
      MomentIs(trackers[..n], maxDrift, total);
      QuotientBound(OwnNudge(t, maxDrift) * t.weight, total, 0.0);
      ProductOfSum(WeightedSum(trackers[..n], maxDrift, total), Term(t, maxDrift, total), total);
    }
  }

  /** Values of at least `lo` have a moment of at least `lo` times the weights' total. */
  lemma {:induction false} MomentAbove(trackers: seq<Tracker>, maxDrift: real, lo: real)
    requires AllBounded(trackers) && forall i :: 0 <= i < |trackers| ==> lo <= OwnNudge(trackers[i], maxDrift)
    ensures Moment(trackers, maxDrift) >= lo * TotalWeight(trackers)
  {
    if trackers != [] {
      var n := |trackers| - 1;
      MomentAbove(trackers[..n], maxDrift, lo);
      NonNegative(OwnNudge(trackers[n], maxDrift) - lo, trackers[n].weight);
      ProductOfSum(OwnNudge(trackers[n], maxDrift) - lo, lo, trackers[n].weight);
      ProductOfSum(TotalWeight(trackers[..n]), trackers[n].weight, lo);
    }
  }

  lemma {:induction false} MomentBelow(trackers: seq<Tracker>, maxDrift: real, hi: real)
    requires AllBounded(trackers) && forall i :: 0 <= i < |trackers| ==> OwnNudge(trackers[i], maxDrift) <= hi
    ensures Moment(trackers, maxDrift) <= hi * TotalWeight(trackers)
  {
    if trackers != [] {
      var n := |trackers| - 1;
      MomentBelow(trackers[..n], maxDrift, hi);
      NonNegative(hi - OwnNudge(trackers[n], maxDrift), trackers[n].weight);
      ProductOfSum(hi - OwnNudge(trackers[n], maxDrift), OwnNudge(trackers[n], maxDrift), trackers[n].weight);
      ProductOfSum(TotalWeight(trackers[..n]), trackers[n].weight, hi);
    }
  }

  lemma {:induction false} PlainBounds(trackers: seq<Tracker>, maxDrift: real, lo: real, hi: real)
    requires forall i :: 0 <= i < |trackers| ==> lo <= OwnNudge(trackers[i], maxDrift) <= hi
    ensures lo * |trackers| as real <= PlainSum(trackers, maxDrift) <= hi * |trackers| as real
  {
    if trackers != [] {
      PlainBounds(trackers[..|trackers| - 1], maxDrift, lo, hi);
    }
  }

  lemma MeanAbove(trackers: seq<Tracker>, maxDrift: real, total: real, lo: real)
    requires AllBounded(trackers) && total == TotalWeight(trackers) > 0.0
    requires forall i :: 0 <= i < |trackers| ==> lo <= OwnNudge(trackers[i], maxDrift)
    ensures lo <= WeightedSum(trackers, maxDrift, total)
  {
    MomentIs(trackers, maxDrift, total);
    MomentAbove(trackers, maxDrift, lo);
    SameSign(lo - WeightedSum(trackers, maxDrift, total), total);
  }

  lemma MeanBelow(trackers: seq<Tracker>, maxDrift: real, total: real, hi: real)
    requires AllBounded(trackers) && total == TotalWeight(trackers) > 0.0
    requires forall i :: 0 <= i < |trackers| ==> OwnNudge(trackers[i], maxDrift) <= hi
    ensures WeightedSum(trackers, maxDrift, total) <= hi
  {
    MomentIs(trackers, maxDrift, total);
    MomentBelow(trackers, maxDrift, hi);
    SameSign(WeightedSum(trackers, maxDrift, total) - hi, total);
  }

  /** On both branches the aggregate lies within any bounds the exchanges' own nudges keep. */
  lemma NudgeIsMean(trackers: seq<Tracker>, maxDrift: real, lo: real, hi: real)
    requires AllBounded(trackers) && trackers != []
    requires forall i :: 0 <= i < |trackers| ==> lo <= OwnNudge(trackers[i], maxDrift) <= hi
    ensures lo <= Nudge(trackers, maxDrift) <= hi
  {
    var total := TotalWeight(trackers);
    if total >= EPSILON {
      MeanAbove(trackers, maxDrift, total, lo);
      MeanBelow(trackers, maxDrift, total, hi);
    } else {
      PlainBounds(trackers, maxDrift, lo, hi);
      QuotientBound(PlainSum(trackers, maxDrift), |trackers| as real, hi);
      QuotientBound(PlainSum(trackers, maxDrift), |trackers| as real, lo);
    }
  }

  /** Whatever snapshots arrive, the nudge stays within ±maxDrift. */
  lemma NudgeInRange(alpha: real, maxDrift: real, snapshots: seq<(ExchangeId, TopOfBook)>)
    requires 0.0 <= alpha <= 1.0 && maxDrift >= 0.0
    requires forall i :: 0 <= i < |snapshots| ==> Sane(snapshots[i].1)
    ensures -maxDrift <= Nudge(After(alpha, snapshots), maxDrift) <= maxDrift
  {
    SmoothedInRange(alpha, snapshots);
    var trackers := After(alpha, snapshots);
    forall i | 0 <= i < |trackers| ensures -maxDrift <= OwnNudge(trackers[i], maxDrift) <= maxDrift {
      assert Bounded(trackers[i]);
      NonNegative(1.0 - trackers[i].smoothed, maxDrift);
      NonNegative(1.0 + trackers[i].smoothed, maxDrift);
    }
    NudgeIsMean(trackers, maxDrift, -maxDrift, maxDrift);
  }

  // ─── In closed form ─────────────────────────────────────────────────────────

  /** A book with volume moves the smoothed imbalance `alpha` of the way to (bids - asks) / (bids + asks);
      an empty or vanishing one does not. Either way its volume is the new weight. */
  lemma RefreshedBy(alpha: real, t: Tracker, tob: TopOfBook)
    ensures var next, volume := Refreshed(alpha, t, tob), tob.bidVol + tob.askVol;
            && next.id == t.id && next.weight == volume
            && if volume < EPSILON then next.smoothed == t.smoothed
               else volume * (next.smoothed - t.smoothed) == alpha * (tob.bidVol - tob.askVol - volume * t.smoothed)
  {
    var volume := tob.bidVol + tob.askVol;
    if volume >= EPSILON {
      QuotientBound(tob.bidVol - tob.askVol, volume, 0.0);
      MovedTowards(alpha, Imbalance(tob.bidVol, tob.askVol), t.smoothed, volume, tob.bidVol - tob.askVol);
    }
  }

  lemma MovedTowards(alpha: real, x: real, prev: real, volume: real, d: real)
    requires x * volume == d
    ensures volume * (Mix(alpha, x, prev) - prev) == alpha * (d - volume * prev)
  {
    assert Mix(alpha, x, prev) - prev == alpha * (x - prev);
    assert volume * (alpha * (x - prev)) == alpha * (x * volume - volume * prev);
  }

  /** Over the three exchanges: the mean of the imbalances weighted by volume while there is volume, else
      the plain mean, times the drift bound. */
  lemma NudgeIs(trackers: seq<Tracker>, maxDrift: real)
    requires |trackers| == 3
    ensures var a, b, c := trackers[0], trackers[1], trackers[2];
            var volume := a.weight + b.weight + c.weight;
            && (volume >= 0.000000000001 ==>
                  Nudge(trackers, maxDrift) * volume
                    == a.smoothed * maxDrift * a.weight + b.smoothed * maxDrift * b.weight + c.smoothed * maxDrift * c.weight)
            && (volume < 0.000000000001 ==>
                  Nudge(trackers, maxDrift) * 3.0 == a.smoothed * maxDrift + b.smoothed * maxDrift + c.smoothed * maxDrift)
  {
    var one, two := trackers[..1], trackers[..2];
    assert trackers[..2][..1] == one && one[..0] == [] && two[1] == trackers[1] && one[0] == trackers[0];
    assert TotalWeight(one) == trackers[0].weight && TotalWeight(two) == TotalWeight(one) + trackers[1].weight;
    if TotalWeight(trackers) >= EPSILON {
      MomentIs(trackers, maxDrift, TotalWeight(trackers));
      assert Moment(one, maxDrift) == OwnNudge(trackers[0], maxDrift) * trackers[0].weight;
      assert Moment(two, maxDrift) == Moment(one, maxDrift) + OwnNudge(trackers[1], maxDrift) * trackers[1].weight;
    } else {
      assert PlainSum(one, maxDrift) == OwnNudge(trackers[0], maxDrift);
      assert PlainSum(two, maxDrift) == PlainSum(one, maxDrift) + OwnNudge(trackers[1], maxDrift);
      QuotientBound(PlainSum(trackers, maxDrift), 3.0, 0.0);
    }
  }

  // ─── An exchange that falls silent ──────────────────────────────────────────

  function Position(id: ExchangeId): (k: nat)
    ensures k < |ALL| && forall i :: 0 <= i < |ALL| ==> (ALL[i] == id <==> i == k)
  {
    match id
    case Binance => 0
    case Okx => 1
    case Lighter => 2
  }

  ghost predicate NotFrom(id: ExchangeId, snapshots: seq<(ExchangeId, TopOfBook)>) {
    forall i :: 0 <= i < |snapshots| ==> snapshots[i].0 != id
  }

  lemma AfterSnoc(alpha: real, snapshots: seq<(ExchangeId, TopOfBook)>, id: ExchangeId, tob: TopOfBook)
    ensures var k := Position(id);
            && OnePerExchange(After(alpha, snapshots)) && OnePerExchange(After(alpha, snapshots + [(id, tob)]))
            && After(alpha, snapshots + [(id, tob)])[k] == Refreshed(alpha, After(alpha, snapshots)[k], tob)
            && forall i :: 0 <= i < |ALL| && i != k ==>
                 After(alpha, snapshots + [(id, tob)])[i] == After(alpha, snapshots)[i]
  {
    assert (snapshots + [(id, tob)])[..|snapshots|] == snapshots;
    TrackersOfAll(alpha, snapshots);
    UpdateReaches(alpha, After(alpha, snapshots), id, tob);
  }

  /** While an exchange sends nothing its tracker stays as it is. */
  lemma {:induction false} OthersKeepTracker(alpha: real, before: seq<(ExchangeId, TopOfBook)>, id: ExchangeId,
                                             later: seq<(ExchangeId, TopOfBook)>)
    requires NotFrom(id, later)
    ensures OnePerExchange(After(alpha, before)) && OnePerExchange(After(alpha, before + later))
    ensures After(alpha, before + later)[Position(id)] == After(alpha, before)[Position(id)]
    decreases |later|
  {
    TrackersOfAll(alpha, before);
    if later == [] {
      assert before + later == before;
    } else {
      var n := |later| - 1;
      OthersKeepTracker(alpha, before, id, later[..n]);
      AfterSnoc(alpha, before + later[..n], later[n].0, later[n].1);
      assert before + later == (before + later[..n]) + [(later[n].0, later[n].1)];
    }
  }

  function Without(trackers: seq<Tracker>, k: nat): seq<Tracker>
    requires k < |trackers|
  {
    trackers[..k] + trackers[k + 1..]
  }

  /** A tracker of no weight adds nothing to either sum. */
  lemma {:induction false} WeightlessTracker(trackers: seq<Tracker>, k: nat, maxDrift: real, total: real)
    requires k < |trackers| && trackers[k].weight == 0.0 && total > 0.0
    ensures TotalWeight(Without(trackers, k)) == TotalWeight(trackers)
    ensures WeightedSum(Without(trackers, k), maxDrift, total) == WeightedSum(trackers, maxDrift, total)
    decreases |trackers|
  {
    var n := |trackers| - 1;
    if k == n {
      assert Without(trackers, k) == trackers[..n];
      assert Term(trackers[k], maxDrift, total) == 0.0;
    } else {
      var fewer := Without(trackers, k);
      WeightlessTracker(trackers[..n], k, maxDrift, total);
      assert fewer[|fewer| - 1] == trackers[n] && fewer[..|fewer| - 1] == Without(trackers[..n], k);
    }
  }

  /** From an exchange's empty book until its next snapshot, whatever the others send: its smoothed
      imbalance stays what it was before that book, its weight is 0, and while the others have volume
      the nudge is the one computed without that exchange. */
  lemma SilentExchangeDropsOut(alpha: real, maxDrift: real, before: seq<(ExchangeId, TopOfBook)>, id: ExchangeId,
                               later: seq<(ExchangeId, TopOfBook)>)
    requires NotFrom(id, later)
    ensures var k, now := Position(id), After(alpha, before + [(id, TopOfBook(0.0, 0.0))] + later);
            && OnePerExchange(After(alpha, before)) && OnePerExchange(now)
            && now[k] == Tracker(id, After(alpha, before)[k].smoothed, 0.0)
            && (TotalWeight(now) >= EPSILON ==> Nudge(now, maxDrift) == Nudge(Without(now, k), maxDrift))
  {
    var k, silent := Position(id), before + [(id, TopOfBook(0.0, 0.0))];
    AfterSnoc(alpha, before, id, TopOfBook(0.0, 0.0));
    OthersKeepTracker(alpha, silent, id, later);
    var now := After(alpha, silent + later);
    if TotalWeight(now) >= EPSILON {
      WeightlessTracker(now, k, maxDrift, TotalWeight(now));
    }
  }
}
