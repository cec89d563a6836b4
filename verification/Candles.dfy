/** Streaming OHLC candles with capped history, against the runs of equal-bucket ticks they summarise. */
module Candles {
  import opened Types
  import opened Integers
  import opened Reals

  datatype Candle = Candle(open: real, high: real, low: real, close: real, start: int)

  datatype PriceTick = PriceTick(price: real, secs: int)

  /** Integer division of the source language: towards zero. */
  function TruncDiv(a: int, b: int): int
    requires b != 0
  {
    var q := (if a < 0 then -a else a) / (if b < 0 then -b else b);
    if (a < 0) == (b < 0) then q else -q
  }

  /** Sizes divide as naturals do, rounded down, and the sign is that of the product. */
  lemma TruncDivIs(a: int, b: int)
    requires b != 0
    ensures var m, n := if a < 0 then -a else a, if b < 0 then -b else b;
            var size := m / n;
            && size * n <= m < (size + 1) * n
            && TruncDiv(a, b) == if (a >= 0) == (b > 0) then size else -size
  {
    var m, n := if a < 0 then -a else a, if b < 0 then -b else b;
    Quotient(m, n);
  }

  lemma Quotient(m: nat, n: nat)
    requires n > 0
    ensures (m / n) * n <= m < (m / n + 1) * n
  {
    assert m == (m / n) * n + m % n;
  }

  function Bucket(b: int, t: PriceTick): int
    requires b != 0
  {
    TruncDiv(t.secs, b)
  }

  /** A candle's start bounds its ticks exactly for times at or after the epoch, or on a boundary:
      below zero the division rounds up. */
  lemma AlignedIff(b: int, secs: int)
    requires b > 0
    ensures var start := TruncDiv(secs, b) * b;
            start <= secs < start + b <==> secs >= 0 || secs % b == 0
  {
    var m := if secs < 0 then -secs else secs;
    var q := m / b;
    assert m == q * b + m % b;
    if secs < 0 {
      assert (-q) * b == -(q * b);
      assert secs == (-q) * b - m % b;
      Remainder(secs, -q, m % b, b);
    }
  }

  lemma Remainder(secs: int, k: int, r: int, b: int)
    requires b > 0 && 0 <= r < b && secs == k * b - r
    ensures secs % b == 0 <==> r == 0
  {
    var j := secs / b;
    assert secs == j * b + secs % b;
    Distributes(k, j, b);
    Distance(k - j, b);
  }

  // ─── The aggregator ─────────────────────────────────────────────────────────

  datatype Agg = Agg(current: Option<(int, Candle)>, closed: seq<Candle>)

  function Opening(b: int, t: PriceTick): (int, Candle)
    requires b != 0
  {
    (Bucket(b, t), Candle(t.price, t.price, t.price, t.price, Bucket(b, t) * b))
  }

  function Extended(c: Candle, price: real): Candle {
    c.(high := Max(c.high, price), low := Min(c.low, price), close := price)
  }

  /** Drop the oldest when at capacity, then append: a capacity of 0 still keeps one. */
  function Push(cap: nat, closed: seq<Candle>, c: Candle): seq<Candle> {
    (if |closed| >= cap && closed != [] then closed[1..] else closed) + [c]
  }

  function Closes(b: int, a: Agg, t: PriceTick): Option<Candle>
    requires b != 0
  {
    if a.current.Some? && Bucket(b, t) != a.current.value.0 then Some(a.current.value.1) else None
  }

  function Step(b: int, cap: nat, a: Agg, t: PriceTick): Agg
    requires b != 0
  {
    match a.current
    case None => a.(current := Some(Opening(b, t)))
    case Some((bucket, c)) =>
      if Bucket(b, t) == bucket then a.(current := Some((bucket, Extended(c, t.price))))
      else Agg(Some(Opening(b, t)), Push(cap, a.closed, c))
  }

  class CandleAggregator {
    const bucketSecs: int
    const cap: nat
    var current: Option<(int, Candle)>
    var closed: seq<Candle>

    function View(): Agg reads this {
      Agg(current, closed)
    }

    constructor (bucketSecs: int, cap: nat)
      ensures this.bucketSecs == bucketSecs && this.cap == cap && View() == Agg(None, [])
    {
      this.bucketSecs, this.cap := bucketSecs, cap;
      current, closed := None, [];
    }

    /** A width of zero is a division by zero in the source. */
    method OnTick(price: real, secs: int) returns (finished: Option<Candle>)
      requires bucketSecs != 0
      modifies this
      ensures finished == Closes(bucketSecs, old(View()), PriceTick(price, secs))
      ensures View() == Step(bucketSecs, cap, old(View()), PriceTick(price, secs))
    {
      var bucketId := TruncDiv(secs, bucketSecs);
      finished := None;
      match current {
        case None =>
          current := Some((bucketId, Candle(price, price, price, price, bucketId * bucketSecs)));
        case Some((currentBucket, candle)) =>
          if bucketId == currentBucket {
            var high := if candle.high >= price then candle.high else price;
            var low := if candle.low <= price then candle.low else price;
            current := Some((currentBucket, candle.(high := high, low := low, close := price)));
          } else {
            if |closed| >= cap && closed != [] {
              closed := closed[1..];
            }
            closed := closed + [candle];
            current := Some((bucketId, Candle(price, price, price, price, bucketId * bucketSecs)));
            finished := Some(candle);
          }
      }
    }
  }

  function Fold(b: int, cap: nat, ticks: seq<PriceTick>): Agg
    requires b != 0
  {
    if ticks == [] then Agg(None, []) else Step(b, cap, Fold(b, cap, ticks[..|ticks| - 1]), ticks[|ticks| - 1])
  }

  // ─── Runs of equal-bucket ticks ─────────────────────────────────────────────

  function Flat(runs: seq<seq<PriceTick>>): seq<PriceTick> {
    if runs == [] then [] else Flat(runs[..|runs| - 1]) + runs[|runs| - 1]
  }

  /** `runs` cut `ticks` into non-empty stretches of one bucket each, as long as possible. */
  ghost predicate MaximalRuns(b: int, ticks: seq<PriceTick>, runs: seq<seq<PriceTick>>)
    requires b != 0
  {
    && Flat(runs) == ticks
    && (forall i :: 0 <= i < |runs| ==> runs[i] != [])
    && (forall i, k :: 0 <= i < |runs| && 0 <= k < |runs[i]| ==> Bucket(b, runs[i][k]) == Bucket(b, runs[i][0]))
    && (forall i :: 0 < i < |runs| ==> Bucket(b, runs[i - 1][0]) != Bucket(b, runs[i][0]))
  }

  /** First, greatest, least and last price, and the bucket's start. Exactly one candle fits a run. */
  ghost predicate Summarises(b: int, run: seq<PriceTick>, c: Candle)
    requires b != 0
  {
    && run != [] && c.open == run[0].price && c.close == run[|run| - 1].price
    && c.start == Bucket(b, run[0]) * b
    && (forall k :: 0 <= k < |run| ==> c.low <= run[k].price <= c.high)
    && (exists k :: 0 <= k < |run| && run[k].price == c.high)
    && (exists k :: 0 <= k < |run| && run[k].price == c.low)
  }

  lemma ExtendSummary(b: int, run: seq<PriceTick>, c: Candle, t: PriceTick)
    requires b != 0 && Summarises(b, run, c)
    ensures Summarises(b, run + [t], Extended(c, t.price))
  {
    var more, d := run + [t], Extended(c, t.price);
    var hi :| 0 <= hi < |run| && run[hi].price == c.high;
    var lo :| 0 <= lo < |run| && run[lo].price == c.low;
    assert more[|run|] == t && more[hi] == run[hi] && more[lo] == run[lo];
    assert more[if t.price >= c.high then |run| else hi].price == d.high;
    assert more[if t.price <= c.low then |run| else lo].price == d.low;
  }

  /** The closed history summarises the last max(cap, 1) completed runs, and the candle in progress the current one. */
  ghost predicate Describes(b: int, cap: nat, runs: seq<seq<PriceTick>>, a: Agg)
    requires b != 0
  {
    var done := |runs| - 1;
    var keep := if cap == 0 then 1 else cap;
    && runs != [] && |a.closed| == (if done < keep then done else keep)
    && (forall i :: 0 <= i < |a.closed| ==> Summarises(b, runs[done - |a.closed| + i], a.closed[i]))
    && a.current.Some? && Summarises(b, runs[done], a.current.value.1)
    && a.current.value.0 == Bucket(b, runs[done][0])
  }

  lemma NewRun(b: int, cap: nat, runs: seq<seq<PriceTick>>, a: Agg, t: PriceTick)
    requires b != 0 && Describes(b, cap, runs, a) && a.current.value.0 != Bucket(b, t)
    ensures Describes(b, cap, runs + [[t]], Step(b, cap, a, t))
  {
    var next, more := Step(b, cap, a, t), runs + [[t]];
    var done := |runs| - 1;
    var dropped := |a.closed| >= cap && a.closed != [];
    forall i | 0 <= i < |next.closed| ensures Summarises(b, more[done + 1 - |next.closed| + i], next.closed[i]) {
      if i < |next.closed| - 1 {
        assert next.closed[i] == a.closed[if dropped then i + 1 else i];
      }
    }
    assert more[done + 1] == [t] && [t][0].price == t.price;
  }

  lemma SameRun(b: int, cap: nat, runs: seq<seq<PriceTick>>, run: seq<PriceTick>, a: Agg, t: PriceTick)
    requires b != 0 && run != [] && Describes(b, cap, runs + [run], a) && a.current.value.0 == Bucket(b, t)
    ensures Describes(b, cap, runs + [run + [t]], Step(b, cap, a, t))
  {
    var next := Step(b, cap, a, t);
    ExtendSummary(b, run, a.current.value.1, t);
    forall i | 0 <= i < |next.closed| ensures Summarises(b, (runs + [run + [t]])[|runs| - |next.closed| + i], next.closed[i]) {
      assert (runs + [run])[|runs| - |a.closed| + i] == runs[|runs| - |a.closed| + i];
    }
  }

  lemma FlatSnoc(runs: seq<seq<PriceTick>>, run: seq<PriceTick>)
    ensures Flat(runs + [run]) == Flat(runs) + run
  {
    assert (runs + [run])[..|runs|] == runs;
  }

  /** Cutting off the last tick shortens the last run, or removes it. */
  lemma WithoutLast(b: int, ticks: seq<PriceTick>, runs: seq<seq<PriceTick>>)
    requires b != 0 && ticks != [] && MaximalRuns(b, ticks, runs)
    ensures runs != []
    ensures var n := |runs| - 1;
            var run := runs[n][..|runs[n]| - 1];
            && runs[n] == run + [ticks[|ticks| - 1]]
            && MaximalRuns(b, ticks[..|ticks| - 1], if run == [] then runs[..n] else runs[..n] + [run])
  {
    assert runs != [];
    var n := |runs| - 1;
    var last := runs[n];
    var run := last[..|last| - 1];
    assert ticks == Flat(runs[..n]) + last;
    assert last == run + [last[|last| - 1]];
    assert ticks[..|ticks| - 1] == Flat(runs[..n]) + run;
    if run == [] {
      assert ticks[..|ticks| - 1] == Flat(runs[..n]);
      SameRuns(b, runs, runs[..n]);
    } else {
      FlatSnoc(runs[..n], run);
      SameRuns(b, runs, runs[..n] + [run]);
    }
  }

  /** Dropping runs or ticks at the end leaves runs of one bucket each, as long as possible. */
  lemma SameRuns(b: int, runs: seq<seq<PriceTick>>, fewer: seq<seq<PriceTick>>)
    requires b != 0 && MaximalRuns(b, Flat(runs), runs)
    requires |fewer| <= |runs| && forall i :: 0 <= i < |fewer| ==> fewer[i] != [] && fewer[i] <= runs[i]
    ensures MaximalRuns(b, Flat(fewer), fewer)
  {
    forall i, k | 0 <= i < |fewer| && 0 <= k < |fewer[i]| ensures Bucket(b, fewer[i][k]) == Bucket(b, fewer[i][0]) {
      assert fewer[i][k] == runs[i][k] && fewer[i][0] == runs[i][0];
    }
    forall i | 0 < i < |fewer| ensures Bucket(b, fewer[i - 1][0]) != Bucket(b, fewer[i][0]) {
      assert fewer[i - 1][0] == runs[i - 1][0] && fewer[i][0] == runs[i][0];
    }
  }

  lemma {:induction false} AtLeastOnePerRun(runs: seq<seq<PriceTick>>)
    requires forall i :: 0 <= i < |runs| ==> runs[i] != []
    ensures |Flat(runs)| >= |runs|
  {
    if runs != [] {
      AtLeastOnePerRun(runs[..|runs| - 1]);
    }
  }

  lemma FirstTick(b: int, cap: nat, t: PriceTick, runs: seq<seq<PriceTick>>)
    requires b != 0 && MaximalRuns(b, [t], runs)
    ensures Describes(b, cap, runs, Fold(b, cap, [t]))
  {
    AtLeastOnePerRun(runs);
    assert Flat([]) == [];
    assert |runs| == 1;
    assert runs[..0] == [] && Flat(runs) == Flat(runs[..0]) + runs[0] == runs[0];
    assert runs == [[t]];
    assert Fold(b, cap, [t]) == Step(b, cap, Fold(b, cap, []), t);
    assert [t][0].price == t.price;
  }

  /** Streaming equals batch: for any cut of the ticks into maximal runs. */
  lemma {:induction false} StreamingEqualsBatch(b: int, cap: nat, ticks: seq<PriceTick>, runs: seq<seq<PriceTick>>)
    requires b != 0 && ticks != [] && MaximalRuns(b, ticks, runs)
    ensures Describes(b, cap, runs, Fold(b, cap, ticks))
    decreases |ticks|
  {
    var init, t := ticks[..|ticks| - 1], ticks[|ticks| - 1];
    assert ticks == init + [t];
    if init == [] {
      FirstTick(b, cap, t, runs);
    } else {
      WithoutLast(b, ticks, runs);
      var n := |runs| - 1;
      var run := runs[n][..|runs[n]| - 1];
      var rest := runs[..n];
      assert runs == rest + [run + [t]];
      if run == [] {
        assert rest != [] by { assert Flat([]) == []; }
        StreamingEqualsBatch(b, cap, init, rest);
        assert runs == rest + [[t]];
        BucketChanges(b, ticks, rest, t);
        NewRun(b, cap, rest, Fold(b, cap, init), t);
      } else {
        StreamingEqualsBatch(b, cap, init, rest + [run]);
        BucketStays(b, ticks, rest, run, t);
        SameRun(b, cap, rest, run, Fold(b, cap, init), t);
      }
    }
  }

  lemma BucketChanges(b: int, ticks: seq<PriceTick>, rest: seq<seq<PriceTick>>, t: PriceTick)
    requires b != 0 && rest != [] && MaximalRuns(b, ticks, rest + [[t]])
    ensures rest[|rest| - 1] != [] && Bucket(b, rest[|rest| - 1][0]) != Bucket(b, t)
  {
    var runs := rest + [[t]];
    assert runs[|rest|] == [t] && runs[|rest| - 1] == rest[|rest| - 1];
    assert Bucket(b, runs[|rest| - 1][0]) != Bucket(b, runs[|rest|][0]);
  }

  lemma BucketStays(b: int, ticks: seq<PriceTick>, rest: seq<seq<PriceTick>>, run: seq<PriceTick>, t: PriceTick)
    requires b != 0 && run != [] && MaximalRuns(b, ticks, rest + [run + [t]])
    ensures Bucket(b, run[0]) == Bucket(b, t)
  {
    var runs := rest + [run + [t]];
    var n := |rest|;
    assert runs[n] == run + [t];
    assert Bucket(b, runs[n][|run|]) == Bucket(b, runs[n][0]);
  }

  /** Every tick sequence has such a cut. */
  lemma {:induction false} RunsExist(b: int, ticks: seq<PriceTick>)
    requires b != 0
    ensures exists runs :: MaximalRuns(b, ticks, runs)
    decreases |ticks|
  {
    if ticks == [] {
      assert MaximalRuns(b, ticks, []);
    } else {
      var init, t := ticks[..|ticks| - 1], ticks[|ticks| - 1];
      assert ticks == init + [t];
      RunsExist(b, init);
      var runs :| MaximalRuns(b, init, runs);
      if runs != [] && Bucket(b, runs[|runs| - 1][0]) == Bucket(b, t) {
        GrowRun(b, init, runs, t);
      } else {
        NextRun(b, init, runs, t);
      }
    }
  }

  lemma NextRun(b: int, ticks: seq<PriceTick>, runs: seq<seq<PriceTick>>, t: PriceTick)
    requires b != 0 && MaximalRuns(b, ticks, runs)
    requires runs == [] || Bucket(b, runs[|runs| - 1][0]) != Bucket(b, t)
    ensures MaximalRuns(b, ticks + [t], runs + [[t]])
  {
    FlatSnoc(runs, [t]);
    var n, longer := |runs|, runs + [[t]];
    assert longer[n] == [t];
    forall i, k | 0 <= i < |longer| && 0 <= k < |longer[i]| ensures Bucket(b, longer[i][k]) == Bucket(b, longer[i][0]) {
      assert i < n ==> longer[i] == runs[i];
    }
    forall i | 0 < i < |longer| ensures Bucket(b, longer[i - 1][0]) != Bucket(b, longer[i][0]) {
      assert longer[i - 1] == runs[i - 1] && (i < n ==> longer[i] == runs[i]);
    }
  }

  lemma GrowRun(b: int, ticks: seq<PriceTick>, runs: seq<seq<PriceTick>>, t: PriceTick)
    requires b != 0 && MaximalRuns(b, ticks, runs) && runs != []
    requires Bucket(b, runs[|runs| - 1][0]) == Bucket(b, t)
    ensures MaximalRuns(b, ticks + [t], runs[..|runs| - 1] + [runs[|runs| - 1] + [t]])
  {
    var n := |runs| - 1;
    var longer := runs[..n] + [runs[n] + [t]];
    FlatSnoc(runs[..n], runs[n] + [t]);
    assert Flat(longer) == (Flat(runs[..n]) + runs[n]) + [t];
    forall i | 0 <= i < |longer| ensures longer[i] != [] && longer[i][0] == runs[i][0] {
    }
    forall i, k | 0 <= i < |longer| && 0 <= k < |longer[i]| ensures Bucket(b, longer[i][k]) == Bucket(b, longer[i][0]) {
      if i < n || k < |runs[n]| {
        assert longer[i][k] == runs[i][k];
      }
    }
    forall i | 0 < i < |longer| ensures Bucket(b, longer[i - 1][0]) != Bucket(b, longer[i][0]) {
    }
  }

  // ─── Capped against unbounded history ───────────────────────────────────────

  function LastOf(n: nat, s: seq<Candle>): seq<Candle> {
    if |s| <= n then s else s[|s| - n..]
  }

  /** The whole history: with a capacity no run can reach. */
  function Unbounded(b: int, ticks: seq<PriceTick>): Agg
    requires b != 0
  {
    Fold(b, |ticks| + 1, ticks)
  }

  lemma {:induction false} CapOnlyForgets(b: int, cap: nat, big: nat, ticks: seq<PriceTick>)
    requires b != 0 && big > |ticks|
    ensures Fold(b, cap, ticks).current == Fold(b, big, ticks).current
    ensures |Fold(b, big, ticks).closed| <= |ticks|
    ensures Fold(b, cap, ticks).closed == LastOf(if cap == 0 then 1 else cap, Fold(b, big, ticks).closed)
    decreases |ticks|
  {
    if ticks != [] {
      CapOnlyForgets(b, cap, big, ticks[..|ticks| - 1]);
    }
  }

  /** The candle a tick closes does not depend on the capacity at all. */
  lemma EmissionIgnoresCap(b: int, cap: nat, ticks: seq<PriceTick>, t: PriceTick)
    requires b != 0
    ensures Closes(b, Fold(b, cap, ticks), t) == Closes(b, Unbounded(b, ticks), t)
  {
    CapOnlyForgets(b, cap, |ticks| + 1, ticks);
  }
}

/** Momentum and acceleration over the closed candles. */
module Momentum {
  import opened Candles
  import opened Reals

  function Body(c: Candle): real {
    c.close - c.open
  }

  function Sign(x: real): int {
    if x > 0.0 then 1 else if x < 0.0 then -1 else 0
  }

  function MicroMomentum(candles: seq<Candle>): int {
    var n := |candles|;
    if n < 2 then 0 else Sign(Body(candles[n - 1]) + Body(candles[n - 2]))
  }

  function Acceleration(candles: seq<Candle>): int {
    var n := |candles|;
    if n < 3 then 0
    else
      var latest, reference := Body(candles[n - 1]), Body(candles[n - 3]);
      if latest * reference > 0.0 && Abs(latest) > Abs(reference) then (if latest > 0.0 then 1 else -1)
      else (if latest > 0.0 then -1 else 1)
  }

  /** The direction of the last two bodies taken together; none before there are two. */
  lemma MomentumIff(candles: seq<Candle>)
    ensures |candles| < 2 ==> MicroMomentum(candles) == 0
    ensures |candles| >= 2 ==>
              var last, before := candles[|candles| - 1], candles[|candles| - 2];
              && (MicroMomentum(candles) == 1 <==> last.close + before.close > last.open + before.open)
              && (MicroMomentum(candles) == -1 <==> last.close + before.close < last.open + before.open)
              && -1 <= MicroMomentum(candles) <= 1
  {
  }

  /** The latest body has the direction of the one two back, and is larger. */
  ghost predicate Accelerating(candles: seq<Candle>)
    requires |candles| >= 3
  {
    var latest, reference := Body(candles[|candles| - 1]), Body(candles[|candles| - 3]);
    latest > reference > 0.0 || latest < reference < 0.0
  }

  /** The documented reading, +1 for accelerating and -1 otherwise, is what the code returns exactly
      when the latest candle rises; for a flat or falling one the code returns the opposite. */
  lemma AccelerationReading(candles: seq<Candle>)
    requires |candles| >= 3
    ensures var documented := if Accelerating(candles) then 1 else -1;
            var rising := Body(candles[|candles| - 1]) > 0.0;
            && Acceleration(candles) == (if rising then documented else -documented)
            && (Acceleration(candles) == documented <==> rising)
  {
    var latest, reference := Body(candles[|candles| - 1]), Body(candles[|candles| - 3]);
    ProductSign(latest, reference);
  }

  lemma ProductSign(x: real, y: real)
    ensures x * y > 0.0 <==> (x > 0.0 && y > 0.0) || (x < 0.0 && y < 0.0)
  {
    if x > 0.0 && y <= 0.0 { assert x * (-y) >= 0.0; }
    if x < 0.0 && y >= 0.0 { assert (-x) * y >= 0.0; }
    if x > 0.0 && y > 0.0 { assert x * y > 0.0; }
    if x < 0.0 && y < 0.0 { assert (-x) * (-y) > 0.0; }
  }

  /** Keeping three candles is enough: both signals equal what the unbounded history gives. With a
      capacity of two, acceleration is 0 whatever happened. */
  lemma ThreeCandlesSuffice(b: int, cap: nat, ticks: seq<PriceTick>)
    requires b != 0
    ensures cap >= 2 ==> MicroMomentum(Fold(b, cap, ticks).closed) == MicroMomentum(Unbounded(b, ticks).closed)
    ensures cap >= 3 ==> Acceleration(Fold(b, cap, ticks).closed) == Acceleration(Unbounded(b, ticks).closed)
    ensures cap < 3 ==> Acceleration(Fold(b, cap, ticks).closed) == 0
  {
    CapOnlyForgets(b, cap, |ticks| + 1, ticks);
  }
}
