/** Exponential moving averages and their crossover. */
module Ema {
  import opened Types
  import opened Reals

  function K(period: nat): real {
    2.0 / (period as real + 1.0)
  }

  function Smooth(period: nat, value: Option<real>, x: real): real {
    match value
    case None => x
    case Some(prev) => Mix(K(period), x, prev)
  }

  function Fold(period: nat, xs: seq<real>): Option<real> {
    if xs == [] then None else Some(Smooth(period, Fold(period, xs[..|xs| - 1]), xs[|xs| - 1]))
  }

  class Ema {
    const period: nat
    var value: Option<real>
    var count: nat

    /** The state after the samples `xs`. */
    ghost predicate Fed(xs: seq<real>) reads this {
      value == Fold(period, xs) && count == |xs|
    }

    constructor (period: nat)
      requires period >= 1
      ensures this.period == period && Fed([])
    {
      this.period := period;
      value, count := None, 0;
    }

    method Update(x: real, ghost xs: seq<real>)
      requires Fed(xs)
      modifies this
      ensures Fed(xs + [x])
    {
      assert (xs + [x])[..|xs|] == xs;
      count := count + 1;
      match value {
        case None => value := Some(x);
        case Some(prev) =>
          var k := K(period);
          value := Some(Mix(k, x, prev));
      }
    }

    predicate Warm() reads this {
      count >= period
    }
  }

  /** 1 while the fast average is above the slow one, -1 below, 0 when equal or not both warm. */
  method CrossoverSign(fast: Ema, slow: Ema, ghost xs: seq<real>) returns (sign: int)
    requires fast.Fed(xs) && slow.Fed(xs)
    ensures sign == Sign(fast.period, slow.period, xs)
  {
    if !fast.Warm() || !slow.Warm() {
      return 0;
    }
    match (fast.value, slow.value) {
      case (Some(f), Some(s)) => sign := if f > s then 1 else if f < s then -1 else 0;
      case _ => sign := 0;
    }
  }

  function Sign(p: nat, q: nat, xs: seq<real>): int {
    if |xs| < p || |xs| < q || xs == [] then 0
    else
      var f, s := Fold(p, xs).value, Fold(q, xs).value;
      if f > s then 1 else if f < s then -1 else 0
  }

  // ─── Bounds ─────────────────────────────────────────────────────────────────

  lemma KRange(p: nat, q: nat)
    requires 1 <= p <= q
    ensures 0.0 < K(q) <= K(p) <= 1.0
    ensures p < q ==> K(q) < K(p)
    ensures q >= 2 ==> K(q) < 1.0
  {
    var a, b := p as real + 1.0, q as real + 1.0;
    QuotientBound(2.0, a, 1.0);
    QuotientBound(2.0, b, 1.0);
    QuotientBound(2.0, a, 0.0);
    QuotientBound(2.0, b, 0.0);
    QuotientBound(2.0, b, K(p));
    NonNegative(K(p), b - a);
    if p < q {
      Positive(K(p), b - a);
    }
  }

  /** The first sample is the average; each later one moves it 2 / (period + 1) of the way. */
  lemma UpdateMoves(period: nat, xs: seq<real>, x: real)
    ensures Fold(period, [x]) == Some(x)
    ensures xs != [] ==> Fold(period, xs).Some? && Fold(period, xs + [x]).Some?
                         && (period + 1) as real * (Fold(period, xs + [x]).value - Fold(period, xs).value)
                              == 2.0 * (x - Fold(period, xs).value)
  {
    assert (xs + [x])[..|xs|] == xs;
    assert [x][..0] == [];
    if xs != [] {
      var prev, n := Fold(period, xs).value, period as real + 1.0;
      QuotientBound(2.0, n, 0.0);
      MovedBy(K(period), n, x, prev);
    }
  }

  lemma MovedBy(k: real, n: real, x: real, prev: real)
    requires k * n == 2.0
    ensures n * (Mix(k, x, prev) - prev) == 2.0 * (x - prev)
  {
    assert Mix(k, x, prev) - prev == k * (x - prev);
    assert n * (k * (x - prev)) == (k * n) * (x - prev);
  }

  /** The average stays within any bounds its samples keep. */
  lemma {:induction false} WithinSamples(period: nat, xs: seq<real>, lo: real, hi: real)
    requires period >= 1 && xs != []
    requires forall i :: 0 <= i < |xs| ==> lo <= xs[i] <= hi
    ensures Fold(period, xs).Some? && lo <= Fold(period, xs).value <= hi
  {
    var n := |xs| - 1;
    if n > 0 {
      WithinSamples(period, xs[..n], lo, hi);
      KRange(period, period);
      Between(K(period), xs[n], Fold(period, xs[..n]).value, lo, hi);
    }
  }

  // ─── Monotone closes ────────────────────────────────────────────────────────

  ghost predicate NonDecreasing(xs: seq<real>) {
    forall i, j :: 0 <= i <= j < |xs| ==> xs[i] <= xs[j]
  }

  /** One step towards a sample above both averages: the gap left is smaller for the larger weight. */
  lemma CloserGap(k: real, j: real, x: real, f: real, s: real)
    requires 0.0 < j < k <= 1.0 && x >= f >= s
    ensures Mix(j, x, s) <= Mix(k, x, f) <= x
  {
    NonNegative(1.0 - k, x - f);
    NonNegative(1.0 - k, f - s);
    NonNegative(k - j, x - s);
  }

  lemma StrictGap(k: real, j: real, x: real, f: real, s: real)
    requires 0.0 < j < k <= 1.0 && x >= f >= s && x > s
    ensures Mix(j, x, s) < Mix(k, x, f) && Mix(j, x, s) < x
  {
    NonNegative(1.0 - k, f - s);
    Positive(k - j, x - s);
    Positive(1.0 - j, x - s);
  }

  lemma NoGap(k: real, x: real)
    ensures Mix(k, x, x) == x
  {
  }

  lemma FoldSnoc(period: nat, xs: seq<real>)
    requires |xs| > 1
    ensures Fold(period, xs[..|xs| - 1]).Some?
    ensures Fold(period, xs) == Some(Mix(K(period), xs[|xs| - 1], Fold(period, xs[..|xs| - 1]).value))
  {
  }

  ghost predicate Leads(f: real, s: real, first: real, x: real) {
    s <= f <= x && (first < x <==> s < x) && (first < x <==> s < f)
  }

  lemma LeadsNext(k: real, j: real, f: real, s: real, first: real, x: real, next: real)
    requires 0.0 < j < k <= 1.0 && first <= x <= next && first <= s && Leads(f, s, first, x)
    ensures Leads(Mix(k, next, f), Mix(j, next, s), first, next)
  {
    CloserGap(k, j, next, f, s);
    if next > s {
      StrictGap(k, j, next, f, s);
    } else {
      NoGap(k, next);
      NoGap(j, next);
    }
  }

  /** On non-decreasing samples the slow average trails the fast one, strictly as soon as there was any rise. */
  lemma {:induction false} FastLeads(p: nat, q: nat, xs: seq<real>)
    requires 1 <= p < q && xs != [] && NonDecreasing(xs)
    ensures Fold(p, xs).Some? && Fold(q, xs).Some?
    ensures Leads(Fold(p, xs).value, Fold(q, xs).value, xs[0], xs[|xs| - 1])
  {
    var n := |xs| - 1;
    if n > 0 {
      var init := xs[..n];
      assert init[n - 1] == xs[n - 1] && init[0] == xs[0];
      FastLeads(p, q, init);
      WithinSamples(q, init, xs[0], xs[n]);
      KRange(p, q);
      FoldSnoc(p, xs);
      FoldSnoc(q, xs);
      LeadsNext(K(p), K(q), Fold(p, init).value, Fold(q, init).value, xs[0], xs[n - 1], xs[n]);
    }
  }

  /** The sign on non-decreasing closes, exactly: never -1, and 1 just when both are warm and there was a rise. */
  lemma CrossoverRisingIff(p: nat, q: nat, xs: seq<real>)
    requires 1 <= p < q && NonDecreasing(xs)
    ensures Sign(p, q, xs) == if |xs| >= q && xs[0] < xs[|xs| - 1] then 1 else 0
  {
    if xs != [] {
      FastLeads(p, q, xs);
    }
  }

  function Negated(xs: seq<real>): seq<real> {
    seq(|xs|, i requires 0 <= i < |xs| => -xs[i])
  }

  lemma {:induction false} NegatedFold(period: nat, xs: seq<real>)
    ensures xs != [] ==> Fold(period, xs).Some? && Fold(period, Negated(xs)) == Some(-Fold(period, xs).value)
  {
    if |xs| > 1 {
      var n := |xs| - 1;
      NegatedFold(period, xs[..n]);
      assert Negated(xs)[..n] == Negated(xs[..n]);
      FoldSnoc(period, xs);
      FoldSnoc(period, Negated(xs));
      Opposite(K(period), xs[n], Fold(period, xs[..n]).value);
    }
  }

  lemma Opposite(k: real, x: real, v: real)
    ensures Mix(k, -x, -v) == -Mix(k, x, v)
  {
  }

  /** On non-increasing closes: never 1, and -1 just when both are warm and there was a fall. */
  lemma CrossoverFallingIff(p: nat, q: nat, xs: seq<real>)
    requires 1 <= p < q && forall i, j :: 0 <= i <= j < |xs| ==> xs[i] >= xs[j]
    ensures Sign(p, q, xs) == if |xs| >= q && xs[0] > xs[|xs| - 1] then -1 else 0
  {
    CrossoverRisingIff(p, q, Negated(xs));
    NegatedFold(p, xs);
    NegatedFold(q, xs);
  }
}

/** Wilder's relative strength index. */
module Rsi {
  import opened Types
  import opened Reals

  datatype State = State(avgGain: real, avgLoss: real, lastClose: Option<real>, count: nat)

  function Gain(change: real): real {
    if change > 0.0 then change else 0.0
  }

  /** Wilder smoothing. */
  function Averaged(period: nat, x: real, avg: real): real
    requires period >= 1
  {
    Mix(1.0 / period as real, x, avg)
  }

  function Next(period: nat, s: State, close: real): State
    requires period >= 1
  {
    match s.lastClose
    case None => s.(lastClose := Some(close))
    case Some(prev) =>
      var gain, loss := Gain(close - prev), Gain(prev - close);
      if s.count == 0 then State(gain, loss, Some(close), 1)
      else State(Averaged(period, gain, s.avgGain), Averaged(period, loss, s.avgLoss), Some(close), s.count + 1)
  }

  function Fold(period: nat, closes: seq<real>): State
    requires period >= 1
  {
    if closes == [] then State(0.0, 0.0, None, 0)
    else Next(period, Fold(period, closes[..|closes| - 1]), closes[|closes| - 1])
  }

  function Value(period: nat, s: State): Option<real> {
    if s.count < period then None
    else if s.avgLoss == 0.0 then Some(100.0)
    else
      var sum := s.avgGain / s.avgLoss + 1.0;
      if sum == 0.0 then None else Some(100.0 - 100.0 / sum)
  }

  class Rsi {
    const period: nat
    var avgGain: real
    var avgLoss: real
    var lastClose: Option<real>
    var count: nat

    function View(): State reads this {
      State(avgGain, avgLoss, lastClose, count)
    }

    constructor (period: nat)
      requires period >= 2
      ensures this.period == period && View() == Fold(period, [])
    {
      this.period := period;
      avgGain, avgLoss, lastClose, count := 0.0, 0.0, None, 0;
    }

    method Update(close: real)
      requires period >= 2
      modifies this
      ensures View() == Next(period, old(View()), close)
    {
      if lastClose.Some? {
        var change := close - lastClose.value;
        var gain := if change > 0.0 then change else 0.0;
        var loss := if change < 0.0 then -change else 0.0;
        if count == 0 {
          avgGain, avgLoss := gain, loss;
        } else {
          avgGain := Averaged(period, gain, avgGain);
          avgLoss := Averaged(period, loss, avgLoss);
        }
        count := count + 1;
      }
      lastClose := Some(close);
    }
  }

  /** The first change seeds both averages; each later one enters with weight 1 / period. */
  lemma WilderStep(period: nat, s: State, close: real)
    requires period >= 2 && s.lastClose.Some?
    ensures var prev, next := s.lastClose.value, Next(period, s, close);
            var up, down := if close > prev then close - prev else 0.0, if close < prev then prev - close else 0.0;
            && next.count == s.count + 1 && next.lastClose == Some(close)
            && (s.count == 0 ==> next.avgGain == up && next.avgLoss == down)
            && (s.count > 0 ==> period as real * next.avgGain == s.avgGain * (period - 1) as real + up
                                && period as real * next.avgLoss == s.avgLoss * (period - 1) as real + down)
  {
    var p := period as real;
    QuotientBound(1.0, p, 0.0);
    WeightedBy(1.0 / p, p, Gain(close - s.lastClose.value), s.avgGain);
    WeightedBy(1.0 / p, p, Gain(s.lastClose.value - close), s.avgLoss);
    assert (period - 1) as real == p - 1.0;
  }

  lemma WeightedBy(k: real, p: real, x: real, avg: real)
    requires k * p == 1.0
    ensures p * Mix(k, x, avg) == avg * (p - 1.0) + x
  {
    assert Mix(k, x, avg) == avg + k * (x - avg);
    assert p * (k * (x - avg)) == (k * p) * (x - avg);
  }

  /** A reading is the gains' share of all movement, in percent. */
  lemma ReadingIsShare(period: nat, s: State)
    requires s.avgGain >= 0.0 && s.avgLoss >= 0.0 && s.count >= period
    ensures Value(period, s).Some?
    ensures s.avgLoss == 0.0 ==> Value(period, s).value == 100.0
    ensures Value(period, s).value * (s.avgGain + s.avgLoss) == 100.0 * s.avgGain
  {
    if s.avgLoss > 0.0 {
      Share(s.avgGain, s.avgLoss);
    }
  }

  lemma Share(gain: real, loss: real)
    requires gain >= 0.0 && loss > 0.0
    ensures gain / loss + 1.0 > 0.0
    ensures (100.0 - 100.0 / (gain / loss + 1.0)) * (gain + loss) == 100.0 * gain
  {
    QuotientBound(gain, loss, 0.0);
    var ratio := gain / loss;
    var sum := ratio + 1.0;
    QuotientBound(100.0, sum, 0.0);
    var part := 100.0 / sum;
    assert sum * loss == gain + loss;
    assert part * (gain + loss) == (part * sum) * loss;
  }

  ghost predicate Rose(closes: seq<real>) {
    exists i :: 0 < i < |closes| && closes[i] > closes[i - 1]
  }

  ghost predicate Fell(closes: seq<real>) {
    exists i :: 0 < i < |closes| && closes[i] < closes[i - 1]
  }

  lemma RoseSnoc(closes: seq<real>)
    requires |closes| >= 2
    ensures var n := |closes| - 1; Rose(closes) <==> Rose(closes[..n]) || closes[n] > closes[n - 1]
  {
    var n := |closes| - 1;
    var init := closes[..n];
    if i :| 0 < i < |closes| && closes[i] > closes[i - 1] {
      assert i < n ==> init[i] > init[i - 1];
    }
    if i :| 0 < i < |init| && init[i] > init[i - 1] {
      assert closes[i] > closes[i - 1];
    }
  }

  lemma FellSnoc(closes: seq<real>)
    requires |closes| >= 2
    ensures var n := |closes| - 1; Fell(closes) <==> Fell(closes[..n]) || closes[n] < closes[n - 1]
  {
    var n := |closes| - 1;
    var init := closes[..n];
    if i :| 0 < i < |closes| && closes[i] < closes[i - 1] {
      assert i < n ==> init[i] < init[i - 1];
    }
    if i :| 0 < i < |init| && init[i] < init[i - 1] {
      assert closes[i] < closes[i - 1];
    }
  }

  lemma MoveSnoc(closes: seq<real>)
    requires |closes| >= 2
    ensures var n := |closes| - 1;
            && (Rose(closes) <==> Rose(closes[..n]) || closes[n] > closes[n - 1])
            && (Fell(closes) <==> Fell(closes[..n]) || closes[n] < closes[n - 1])
  {
    RoseSnoc(closes);
    FellSnoc(closes);
  }

  /** A smoothed average of non-negative values is positive as soon as any of them was. */
  lemma Persists(period: nat, avg: real, x: real)
    requires period >= 2 && avg >= 0.0 && x >= 0.0
    ensures Averaged(period, x, avg) >= 0.0
    ensures Averaged(period, x, avg) > 0.0 <==> x > 0.0 || avg > 0.0
  {
    var alpha := 1.0 / period as real;
    QuotientBound(1.0, period as real, 0.0);
    QuotientBound(1.0, period as real, 1.0);
    NonNegative(alpha, x);
    NonNegative(1.0 - alpha, avg);
    if x > 0.0 { Positive(alpha, x); }
    if avg > 0.0 { Positive(1.0 - alpha, avg); }
  }

  /** The averages are zero exactly while no close has moved their way; the count is the number of changes. */
  ghost predicate Tracks(s: State, closes: seq<real>) {
    && s.avgGain >= 0.0 && s.avgLoss >= 0.0
    && (s.avgGain > 0.0 <==> Rose(closes)) && (s.avgLoss > 0.0 <==> Fell(closes))
    && s.count == (if closes == [] then 0 else |closes| - 1)
    && s.lastClose == (if closes == [] then None else Some(closes[|closes| - 1]))
  }

  lemma TracksNext(period: nat, s: State, closes: seq<real>)
    requires period >= 2 && |closes| > 1 && Tracks(s, closes[..|closes| - 1])
    ensures Tracks(Next(period, s, closes[|closes| - 1]), closes)
  {
    var n := |closes| - 1;
    MoveSnoc(closes);
    assert s.lastClose == Some(closes[n - 1]);
    var gain, loss := Gain(closes[n] - closes[n - 1]), Gain(closes[n - 1] - closes[n]);
    var next := Next(period, s, closes[n]);
    if n == 1 {
      assert next == State(gain, loss, Some(closes[n]), 1);
    } else {
      Persists(period, s.avgGain, gain);
      Persists(period, s.avgLoss, loss);
      assert next.avgGain == Averaged(period, gain, s.avgGain) && next.avgLoss == Averaged(period, loss, s.avgLoss);
    }
  }

  lemma {:induction false} Averages(period: nat, closes: seq<real>)
    requires period >= 2
    ensures Tracks(Fold(period, closes), closes)
  {
    if closes != [] {
      Averages(period, closes[..|closes| - 1]);
      if |closes| > 1 {
        TracksNext(period, Fold(period, closes[..|closes| - 1]), closes);
      }
    }
  }

  lemma Range(gain: real, loss: real)
    requires gain >= 0.0 && loss > 0.0
    ensures gain / loss + 1.0 >= 1.0
    ensures 0.0 <= 100.0 - 100.0 / (gain / loss + 1.0) < 100.0
    ensures 100.0 - 100.0 / (gain / loss + 1.0) == 0.0 <==> gain == 0.0
  {
    QuotientBound(gain, loss, 0.0);
    var sum := gain / loss + 1.0;
    QuotientBound(100.0, sum, 0.0);
    QuotientBound(100.0, sum, 100.0);
  }

  /** Over any closes: a reading exists exactly after more than `period` of them, lies in [0, 100], is
      100 exactly when no close ever fell, and 0 exactly when one fell and none ever rose. */
  lemma ReadingIff(period: nat, closes: seq<real>)
    requires period >= 2
    ensures var v := Value(period, Fold(period, closes));
            && (v.Some? <==> |closes| > period)
            && (v.Some? ==> 0.0 <= v.value <= 100.0)
            && (v.Some? ==> (v.value == 100.0 <==> !Fell(closes)))
            && (v.Some? ==> (v.value == 0.0 <==> Fell(closes) && !Rose(closes)))
  {
    Averages(period, closes);
    var s := Fold(period, closes);
    if s.avgLoss > 0.0 {
      Range(s.avgGain, s.avgLoss);
    }
  }
}
