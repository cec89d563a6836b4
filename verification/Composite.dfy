/** The composite strategy: five streaming indicators, a time gate and a signed score. */
module Composite {
  import opened Types
  import opened Reals
  import opened Candles
  import M = Momentum
  import E = Ema
  import R = Rsi
  import T = TickTrend

  datatype Weights = Weights(
    t1Pct: real, t1W: real, t2Pct: real, t2W: real, t3Pct: real, t3W: real, t4Pct: real, t4W: real,
    microMomentum: real, acceleration: real, emaCross: real, rsi: real, tickTrend: real)

  datatype Config = Config(
    entryWindowSecs: int, dangerZoneSecs: int, minConfidence: real, candleSecs: int, candleHistory: nat,
    tickTrendWindow: nat, weights: Weights, scoreNorm: real)
  {
    /** What the constructors of the parts and the divisions need. */
    predicate Usable() {
      candleSecs != 0 && tickTrendWindow >= 2 && scoreNorm > 0.0
    }
  }

  datatype Decision = Hold | Enter(outcome: Outcome, confidence: real)

  const FAST: nat := 9
  const SLOW: nat := 21
  const RSI_PERIOD: nat := 14

  // ─── What a tick history determines ─────────────────────────────────────────

  function Prices(ticks: seq<PriceTick>): seq<real> {
    seq(|ticks|, i requires 0 <= i < |ticks| => ticks[i].price)
  }

  /** Closing prices of the candles closed so far: what the averages and the RSI are fed. */
  function ClosesOf(b: int, ticks: seq<PriceTick>): seq<real>
    requires b != 0
  {
    if ticks == [] then []
    else
      var init, t := ticks[..|ticks| - 1], ticks[|ticks| - 1];
      ClosesOf(b, init) + (match Closes(b, Unbounded(b, init), t) case Some(c) => [c.close] case None => [])
  }

  function Pct(spot: real, strike: real): real
    requires strike > 0.0
  {
    (spot - strike) / strike * 100.0
  }

  function Tier(w: Weights, size: real): real {
    if size > w.t1Pct then w.t1W else if size > w.t2Pct then w.t2W
    else if size > w.t3Pct then w.t3W else if size > w.t4Pct then w.t4W else 0.0
  }

  function WindowDelta(w: Weights, spot: real, strike: real): real
    requires strike > 0.0
  {
    M.Sign(Pct(spot, strike)) as real * Tier(w, Abs(Pct(spot, strike)))
  }

  function RsiPart(w: Weights, reading: Option<real>): real {
    if reading.None? then 0.0
    else if reading.value > 75.0 then -w.rsi
    else if reading.value < 25.0 then w.rsi
    else 0.0
  }

  function Weigh(w: Weights, delta: real, momentum: int, acceleration: int, cross: int, rsiPart: real, trend: int): real {
    delta + momentum as real * w.microMomentum + acceleration as real * w.acceleration
    + cross as real * w.emaCross + rsiPart + trend as real * w.tickTrend
  }

  function Score(w: Weights, spot: real, strike: real, candles: seq<Candle>, cross: int, reading: Option<real>, trend: int): real
    requires strike > 0.0
  {
    Weigh(w, WindowDelta(w, spot, strike), M.MicroMomentum(candles), M.Acceleration(candles), cross, RsiPart(w, reading), trend)
  }

  function ScoreOf(cfg: Config, ticks: seq<PriceTick>, spot: real, strike: real): real
    requires cfg.Usable() && strike > 0.0
  {
    var closes := ClosesOf(cfg.candleSecs, ticks);
    Score(cfg.weights, spot, strike, Fold(cfg.candleSecs, cfg.candleHistory, ticks).closed,
          E.Sign(FAST, SLOW, closes), R.Value(RSI_PERIOD, R.Fold(RSI_PERIOD, closes)),
          T.SignalOf(cfg.tickTrendWindow, T.Window(cfg.tickTrendWindow, Prices(ticks))))
  }

  function SecsToCutoff(now: int, closesAt: int): int {
    TruncDiv(closesAt, 1000) - TruncDiv(now, 1000)
  }

  predicate InWindow(cfg: Config, now: int, closesAt: int) {
    cfg.dangerZoneSecs < SecsToCutoff(now, closesAt) <= cfg.entryWindowSecs
  }

  function Gate(cfg: Config, score: real): Decision
    requires cfg.Usable()
  {
    var confidence := Min(Abs(score) / cfg.scoreNorm, 1.0);
    if confidence < cfg.minConfidence then Hold
    else Enter(if score > 0.0 then Up else Down, confidence)
  }

  /** The decision as a function of the valid ticks seen (the current one included) and the clock. */
  function Decide(cfg: Config, ticks: seq<PriceTick>, spot: real, strike: real, now: int, closesAt: int): Decision
    requires cfg.Usable() && strike > 0.0
  {
    if !InWindow(cfg, now, closesAt) then Hold else Gate(cfg, ScoreOf(cfg, ticks, spot, strike))
  }

  // ─── The strategy ───────────────────────────────────────────────────────────

  class CompositeStrategy {
    const cfg: Config
    const agg: CandleAggregator
    const emaFast: E.Ema
    const emaSlow: E.Ema
    const rsi: R.Rsi
    const tickTrend: T.TickTrend
    ghost var ticks: seq<PriceTick>

    /** Every indicator is where the tick history puts it. */
    ghost predicate Valid()
      reads this, agg, emaFast, emaSlow, rsi, tickTrend
    {
      && cfg.Usable() && emaFast != emaSlow
      && agg.bucketSecs == cfg.candleSecs && agg.cap == cfg.candleHistory
      && emaFast.period == FAST && emaSlow.period == SLOW && rsi.period == RSI_PERIOD
      && tickTrend.window == cfg.tickTrendWindow
      && agg.View() == Fold(cfg.candleSecs, cfg.candleHistory, ticks)
      && emaFast.Fed(ClosesOf(cfg.candleSecs, ticks)) && emaSlow.Fed(ClosesOf(cfg.candleSecs, ticks))
      && rsi.View() == R.Fold(RSI_PERIOD, ClosesOf(cfg.candleSecs, ticks))
      && tickTrend.buf == T.Window(cfg.tickTrendWindow, Prices(ticks))
    }

    constructor (cfg: Config)
      requires cfg.Usable()
      ensures Valid() && this.cfg == cfg && ticks == []
      ensures fresh(agg) && fresh(emaFast) && fresh(emaSlow) && fresh(rsi) && fresh(tickTrend)
    {
      this.cfg := cfg;
      agg := new CandleAggregator(cfg.candleSecs, cfg.candleHistory);
      emaFast := new E.Ema(FAST);
      emaSlow := new E.Ema(SLOW);
      rsi := new R.Rsi(RSI_PERIOD);
      tickTrend := new T.TickTrend(cfg.tickTrendWindow);
      ticks := [];
    }

    /** Indicators are updated on every tick with a positive price and strike, inside the window or not. */
    method Evaluate(price: real, strike: real, now: int, closesAt: int) returns (decision: Decision)
      requires Valid()
      modifies this`ticks, agg, emaFast, emaSlow, rsi, tickTrend
      ensures Valid()
      ensures price > 0.0 && strike > 0.0 ==>
                && ticks == old(ticks) + [PriceTick(price, TruncDiv(now, 1000))]
                && decision == Decide(cfg, ticks, price, strike, now, closesAt)
      ensures !(price > 0.0 && strike > 0.0) ==> ticks == old(ticks) && decision == Hold
    {
      if price <= 0.0 || strike <= 0.0 {
        return Hold;
      }
      var secsLeft := TruncDiv(closesAt, 1000) - TruncDiv(now, 1000);
      Observe(price, TruncDiv(now, 1000));
      if secsLeft > cfg.entryWindowSecs || secsLeft <= cfg.dangerZoneSecs {
        return Hold;
      }
      var cross := E.CrossoverSign(emaFast, emaSlow, ClosesOf(cfg.candleSecs, ticks));
      var trend := tickTrend.Signal();
      var score := Score(cfg.weights, price, strike, agg.closed, cross, R.Value(RSI_PERIOD, rsi.View()), trend);
      decision := Gate(cfg, score);
    }

    method Observe(price: real, secs: int)
      requires Valid()
      modifies this`ticks, agg, emaFast, emaSlow, rsi, tickTrend
      ensures Valid() && ticks == old(ticks) + [PriceTick(price, secs)]
    {
      ghost var t := PriceTick(price, secs);
      ghost var closes := ClosesOf(cfg.candleSecs, ticks);
      HistorySnoc(cfg.candleSecs, cfg.candleHistory, ticks, t);
      tickTrend.Push(price, Prices(ticks));
      var finished := agg.OnTick(price, secs);
      if finished.Some? {
        emaFast.Update(finished.value.close, closes);
        emaSlow.Update(finished.value.close, closes);
        rsi.Update(finished.value.close);
        RsiSnoc(closes, finished.value.close);
        closes := closes + [finished.value.close];
      }
      assert closes == ClosesOf(cfg.candleSecs, ticks + [t]);
      ticks := ticks + [t];
    }
  }

  lemma HistorySnoc(b: int, cap: nat, ticks: seq<PriceTick>, t: PriceTick)
    requires b != 0
    ensures Fold(b, cap, ticks + [t]) == Step(b, cap, Fold(b, cap, ticks), t)
    ensures Prices(ticks + [t]) == Prices(ticks) + [t.price]
    ensures ClosesOf(b, ticks + [t]) == ClosesOf(b, ticks) +
              match Closes(b, Fold(b, cap, ticks), t) case Some(c) => [c.close] case None => []
  {
    assert (ticks + [t])[..|ticks|] == ticks;
    EmissionIgnoresCap(b, cap, ticks, t);
  }

  lemma RsiSnoc(closes: seq<real>, close: real)
    ensures R.Fold(RSI_PERIOD, closes + [close]) == R.Next(RSI_PERIOD, R.Fold(RSI_PERIOD, closes), close)
  {
    assert (closes + [close])[..|closes|] == closes;
  }

  // ─── What the closes are ────────────────────────────────────────────────────

  ghost predicate RunEnds(closes: seq<real>, runs: seq<seq<PriceTick>>) {
    && |closes| == |runs| - 1
    && forall i :: 0 <= i < |closes| ==> runs[i] != [] && closes[i] == runs[i][|runs[i]| - 1].price
  }

  /** What a tick closes is the candle of the run before it, if it starts a new one. */
  lemma ClosedCandle(b: int, ticks: seq<PriceTick>, rest: seq<seq<PriceTick>>, t: PriceTick)
    requires b != 0 && ticks != [] && MaximalRuns(b, ticks, rest)
    ensures rest != [] && rest[|rest| - 1] != []
    ensures var run := rest[|rest| - 1]; var c := Closes(b, Unbounded(b, ticks), t);
            && (c.None? <==> Bucket(b, run[0]) == Bucket(b, t))
            && (c.Some? ==> c.value.close == run[|run| - 1].price)
  {
    StreamingEqualsBatch(b, |ticks| + 1, ticks, rest);
  }

  lemma ClosesSnoc(b: int, ticks: seq<PriceTick>, t: PriceTick)
    requires b != 0
    ensures ClosesOf(b, ticks + [t]) == ClosesOf(b, ticks) +
              match Closes(b, Unbounded(b, ticks), t) case Some(c) => [c.close] case None => []
  {
    assert (ticks + [t])[..|ticks|] == ticks;
  }

  lemma FirstRunEnds(b: int, t: PriceTick, runs: seq<seq<PriceTick>>)
    requires b != 0 && MaximalRuns(b, [t], runs)
    ensures RunEnds(ClosesOf(b, [t]), runs)
  {
    AtLeastOnePerRun(runs);
    assert Flat([]) == [];
    assert [] + [t] == [t];
    ClosesSnoc(b, [], t);
  }

  lemma NextRunEnds(b: int, ticks: seq<PriceTick>, rest: seq<seq<PriceTick>>, t: PriceTick)
    requires b != 0 && ticks != [] && MaximalRuns(b, ticks, rest) && RunEnds(ClosesOf(b, ticks), rest)
    requires MaximalRuns(b, ticks + [t], rest + [[t]])
    ensures RunEnds(ClosesOf(b, ticks + [t]), rest + [[t]])
  {
    ClosedCandle(b, ticks, rest, t);
    ClosesSnoc(b, ticks, t);
    BucketChanges(b, ticks + [t], rest, t);
  }

  lemma SameRunEnds(b: int, ticks: seq<PriceTick>, rest: seq<seq<PriceTick>>, run: seq<PriceTick>, t: PriceTick)
    requires b != 0 && ticks != [] && run != []
    requires MaximalRuns(b, ticks, rest + [run]) && RunEnds(ClosesOf(b, ticks), rest + [run])
    requires MaximalRuns(b, ticks + [t], rest + [run + [t]])
    ensures RunEnds(ClosesOf(b, ticks + [t]), rest + [run + [t]])
  {
    ClosedCandle(b, ticks, rest + [run], t);
    ClosesSnoc(b, ticks, t);
    BucketStays(b, ticks + [t], rest, run, t);
    assert forall i :: 0 <= i < |rest| ==> (rest + [run])[i] == (rest + [run + [t]])[i];
  }

  /** The averages and the RSI are fed the last price of every completed run of equal-bucket ticks, whatever the capacity. */
  lemma {:induction false} ClosesAreRunEnds(b: int, ticks: seq<PriceTick>, runs: seq<seq<PriceTick>>)
    requires b != 0 && ticks != [] && MaximalRuns(b, ticks, runs)
    ensures RunEnds(ClosesOf(b, ticks), runs)
    decreases |ticks|
  {
    var init, t := ticks[..|ticks| - 1], ticks[|ticks| - 1];
    assert ticks == init + [t];
    if init == [] {
      FirstRunEnds(b, t, runs);
    } else {
      WithoutLast(b, ticks, runs);
      var k := |runs| - 1;
      var run := runs[k][..|runs[k]| - 1];
      assert runs == runs[..k] + [run + [t]];
      if run == [] {
        ClosesAreRunEnds(b, init, runs[..k]);
        assert runs == runs[..k] + [[t]];
        NextRunEnds(b, init, runs[..k], t);
      } else {
        ClosesAreRunEnds(b, init, runs[..k] + [run]);
        SameRunEnds(b, init, runs[..k], run, t);
      }
    }
  }

  // ─── The score ──────────────────────────────────────────────────────────────

  /** The window delta by displacements instead of percentages: the weight of the first tier whose
      threshold the displacement passes, with its sign. */
  lemma DeltaIs(w: Weights, spot: real, strike: real)
    requires strike > 0.0
    ensures var size := 100.0 * (if spot < strike then strike - spot else spot - strike);
            var tier := if size > w.t1Pct * strike then w.t1W else if size > w.t2Pct * strike then w.t2W
                        else if size > w.t3Pct * strike then w.t3W else if size > w.t4Pct * strike then w.t4W else 0.0;
            WindowDelta(w, spot, strike) == if spot > strike then tier else if spot < strike then -tier else 0.0
  {
    PctSize(spot, strike, w.t1Pct);
    PctSize(spot, strike, w.t2Pct);
    PctSize(spot, strike, w.t3Pct);
    PctSize(spot, strike, w.t4Pct);
  }

  lemma PctSize(spot: real, strike: real, limit: real)
    requires strike > 0.0
    ensures Pct(spot, strike) > 0.0 <==> spot > strike
    ensures Pct(spot, strike) < 0.0 <==> spot < strike
    ensures Abs(Pct(spot, strike)) > limit <==> 100.0 * (if spot < strike then strike - spot else spot - strike) > limit * strike
  {
    var d := spot - strike;
    QuotientBound(d, strike, 0.0);
    QuotientBound(d, strike, limit / 100.0);
    QuotientBound(-d, strike, limit / 100.0);
    assert (-d) / strike == -(d / strike) by {
      QuotientBound(-d, strike, -(d / strike));
    }
    assert (limit / 100.0) * strike * 100.0 == limit * strike;
  }

  /** An overbought reading votes down, an oversold one up, any other and none at all not. */
  lemma RsiVotes(w: Weights, v: real)
    ensures RsiPart(w, None) == 0.0
    ensures v > 75.0 ==> RsiPart(w, Some(v)) == -w.rsi
    ensures v < 25.0 ==> RsiPart(w, Some(v)) == w.rsi
    ensures 25.0 <= v <= 75.0 ==> RsiPart(w, Some(v)) == 0.0
  {
  }

  lemma WeighIs(w: Weights, delta: real, momentum: int, acceleration: int, cross: int, rsiPart: real, trend: int)
    ensures Weigh(w, delta, momentum, acceleration, cross, rsiPart, trend) ==
              delta + momentum as real * w.microMomentum + acceleration as real * w.acceleration
              + cross as real * w.emaCross + rsiPart + trend as real * w.tickTrend
  {
  }

  /** Each of the six signals enters the score once, with its own sign and its own weight. */
  lemma ScoreIs(cfg: Config, ticks: seq<PriceTick>, spot: real, strike: real,
                momentum: int, acceleration: int, cross: int, rsiPart: real, trend: int)
    requires cfg.Usable() && strike > 0.0
    requires momentum == M.MicroMomentum(Fold(cfg.candleSecs, cfg.candleHistory, ticks).closed)
    requires acceleration == M.Acceleration(Fold(cfg.candleSecs, cfg.candleHistory, ticks).closed)
    requires cross == E.Sign(9, 21, ClosesOf(cfg.candleSecs, ticks))
    requires rsiPart == RsiPart(cfg.weights, R.Value(14, R.Fold(14, ClosesOf(cfg.candleSecs, ticks))))
    requires trend == T.SignalOf(cfg.tickTrendWindow, T.Window(cfg.tickTrendWindow, Prices(ticks)))
    ensures ScoreOf(cfg, ticks, spot, strike) ==
              WindowDelta(cfg.weights, spot, strike) + momentum as real * cfg.weights.microMomentum
              + acceleration as real * cfg.weights.acceleration + cross as real * cfg.weights.emaCross
              + rsiPart + trend as real * cfg.weights.tickTrend
  {
    WeighIs(cfg.weights, WindowDelta(cfg.weights, spot, strike), momentum, acceleration, cross, rsiPart, trend);
  }

  // ─── Entering ───────────────────────────────────────────────────────────────

  lemma EnterWith(cfg: Config, score: real, now: int, closesAt: int, d: Decision)
    requires cfg.Usable() && 0.0 < cfg.minConfidence
    requires d == if InWindow(cfg, now, closesAt) then Gate(cfg, score) else Hold
    ensures && (d.Enter? <==> TruncDiv(closesAt, 1000) - TruncDiv(now, 1000) > cfg.dangerZoneSecs
                              && TruncDiv(closesAt, 1000) - TruncDiv(now, 1000) <= cfg.entryWindowSecs
                              && cfg.minConfidence <= 1.0 && Abs(score) >= cfg.minConfidence * cfg.scoreNorm)
            && (d.Enter? ==> cfg.minConfidence <= d.confidence <= 1.0)
            && (d.Enter? ==> score != 0.0 && (d.outcome == Up <==> score > 0.0))
            && (d.Enter? ==> if Abs(score) >= cfg.scoreNorm then d.confidence == 1.0
                             else d.confidence * cfg.scoreNorm == Abs(score))
  {
    GateIff(cfg, score);
  }

  /** Exactly when the strategy enters, and with what. */
  lemma EnterIff(cfg: Config, ticks: seq<PriceTick>, spot: real, strike: real, now: int, closesAt: int, score: real)
    requires cfg.Usable() && 0.0 < cfg.minConfidence && strike > 0.0 && score == ScoreOf(cfg, ticks, spot, strike)
    ensures var d := Decide(cfg, ticks, spot, strike, now, closesAt);
            && (d.Enter? <==> TruncDiv(closesAt, 1000) - TruncDiv(now, 1000) > cfg.dangerZoneSecs
                              && TruncDiv(closesAt, 1000) - TruncDiv(now, 1000) <= cfg.entryWindowSecs
                              && cfg.minConfidence <= 1.0 && Abs(score) >= cfg.minConfidence * cfg.scoreNorm)
            && (d.Enter? ==> cfg.minConfidence <= d.confidence <= 1.0)
            && (d.Enter? ==> score != 0.0 && (d.outcome == Up <==> score > 0.0))
            && (d.Enter? ==> if Abs(score) >= cfg.scoreNorm then d.confidence == 1.0
                             else d.confidence * cfg.scoreNorm == Abs(score))
  {
    var d := Decide(cfg, ticks, spot, strike, now, closesAt);
    assert d == if InWindow(cfg, now, closesAt) then Gate(cfg, score) else Hold;
    EnterWith(cfg, score, now, closesAt, d);
  }

  lemma GateIff(cfg: Config, score: real)
    requires cfg.Usable() && 0.0 < cfg.minConfidence
    ensures var d := Gate(cfg, score);
            && (d.Enter? <==> cfg.minConfidence <= 1.0 && Abs(score) >= cfg.minConfidence * cfg.scoreNorm)
            && (d.Enter? ==> cfg.minConfidence <= d.confidence <= 1.0)
            && (d.Enter? ==> score != 0.0 && (d.outcome == Up <==> score > 0.0))
            && (d.Enter? ==> if Abs(score) >= cfg.scoreNorm then d.confidence == 1.0
                             else d.confidence * cfg.scoreNorm == Abs(score))
  {
    QuotientBound(Abs(score), cfg.scoreNorm, cfg.minConfidence);
    QuotientBound(Abs(score), cfg.scoreNorm, 1.0);
    Positive(cfg.minConfidence, cfg.scoreNorm);
  }

  lemma TruncatedSeconds(ms: int)
    ensures var s := TruncDiv(ms, 1000);
            && (ms >= 0 ==> 1000 * s <= ms < 1000 * s + 1000 && s >= 0)
            && (ms < 0 ==> 1000 * s - 1000 < ms <= 1000 * s && s <= 0)
  {
  }

  /** More than the danger zone, and less than the entry window plus one second, is left at an entry. Seconds
      are truncated, so this needs times after the epoch, or a danger zone that is not negative for the lower bound. */
  lemma TimeLeftAtEntry(cfg: Config, ticks: seq<PriceTick>, spot: real, strike: real, now: int, closesAt: int)
    requires cfg.Usable() && strike > 0.0 && Decide(cfg, ticks, spot, strike, now, closesAt).Enter?
    ensures cfg.dangerZoneSecs >= 0 || (now >= 0 && closesAt >= 0) ==> closesAt - now > cfg.dangerZoneSecs * 1000
    ensures now >= 0 && closesAt >= 0 ==> closesAt - now < (cfg.entryWindowSecs + 1) * 1000
  {
    TruncatedSeconds(now);
    TruncatedSeconds(closesAt);
  }

  /** Three candles of history are as good as any number: the capacity does not change a decision. */
  lemma HistoryOfThreeSuffices(cfg: Config, more: nat, ticks: seq<PriceTick>, spot: real, strike: real, now: int, closesAt: int)
    requires cfg.Usable() && strike > 0.0 && cfg.candleHistory >= 3 && more >= 3
    ensures Decide(cfg, ticks, spot, strike, now, closesAt)
              == Decide(cfg.(candleHistory := more), ticks, spot, strike, now, closesAt)
  {
    M.ThreeCandlesSuffice(cfg.candleSecs, cfg.candleHistory, ticks);
    M.ThreeCandlesSuffice(cfg.candleSecs, more, ticks);
    assert ScoreOf(cfg, ticks, spot, strike) == ScoreOf(cfg.(candleHistory := more), ticks, spot, strike);
  }

  // ─── A market that only rises ───────────────────────────────────────────────

  ghost predicate Rising(ticks: seq<PriceTick>) {
    forall i, j :: 0 <= i <= j < |ticks| ==> 0.0 < ticks[i].price <= ticks[j].price
  }

  ghost predicate BodiesUp(a: Agg) {
    && (forall i :: 0 <= i < |a.closed| ==> M.Body(a.closed[i]) >= 0.0)
    && (a.current.Some? ==> M.Body(a.current.value.1) >= 0.0)
  }

  lemma {:induction false} RisingBodies(b: int, cap: nat, ticks: seq<PriceTick>)
    requires b != 0 && Rising(ticks)
    ensures BodiesUp(Fold(b, cap, ticks))
    ensures ticks != [] ==> var c := Fold(b, cap, ticks).current; c.Some? && c.value.1.close == ticks[|ticks| - 1].price
  {
    if ticks != [] {
      RisingBodies(b, cap, ticks[..|ticks| - 1]);
    }
  }

  lemma {:induction false} RisingCloses(b: int, ticks: seq<PriceTick>)
    requires b != 0 && Rising(ticks)
    ensures E.NonDecreasing(ClosesOf(b, ticks))
    ensures forall i :: 0 <= i < |ClosesOf(b, ticks)| ==> ClosesOf(b, ticks)[i] <= ticks[|ticks| - 1].price && ticks != []
  {
    if ticks != [] {
      var init := ticks[..|ticks| - 1];
      RisingCloses(b, init);
      if init != [] {
        RisingBodies(b, |init| + 1, init);
        assert init[|init| - 1] == ticks[|init| - 1];
      }
    }
  }

  /** On a history that never falls, momentum, crossover and trend never vote down, and the RSI, once it
      has a reading, always votes down: it reads 100. */
  lemma RisingVotes(cfg: Config, ticks: seq<PriceTick>)
    requires cfg.Usable() && Rising(ticks)
    ensures var closes := ClosesOf(cfg.candleSecs, ticks);
            && M.MicroMomentum(Fold(cfg.candleSecs, cfg.candleHistory, ticks).closed) >= 0
            && E.Sign(9, 21, closes) == (if |closes| >= 21 && closes[0] < closes[|closes| - 1] then 1 else 0)
            && T.SignalOf(cfg.tickTrendWindow, T.Window(cfg.tickTrendWindow, Prices(ticks))) >= 0
            && RsiPart(cfg.weights, R.Value(14, R.Fold(14, closes)))
                 == (if |closes| > 14 then -cfg.weights.rsi else 0.0)
  {
    var closes := ClosesOf(cfg.candleSecs, ticks);
    RisingBodies(cfg.candleSecs, cfg.candleHistory, ticks);
    RisingCloses(cfg.candleSecs, ticks);
    E.CrossoverRisingIff(FAST, SLOW, closes);
    R.ReadingIff(RSI_PERIOD, closes);
    assert !R.Fell(closes);
    RisingTrend(cfg.tickTrendWindow, ticks);
  }

  lemma RisingTrend(n: nat, ticks: seq<PriceTick>)
    requires Rising(ticks)
    ensures T.SignalOf(n, T.Window(n, Prices(ticks))) >= 0
  {
    var window := T.Window(n, Prices(ticks));
    if window != [] {
      T.NetSign(window);
    }
  }

  // ─── And one that only falls ────────────────────────────────────────────────

  ghost predicate Falling(ticks: seq<PriceTick>) {
    forall i, j :: 0 <= i <= j < |ticks| ==> ticks[i].price >= ticks[j].price > 0.0
  }

  ghost predicate BodiesDown(a: Agg) {
    && (forall i :: 0 <= i < |a.closed| ==> M.Body(a.closed[i]) <= 0.0)
    && (a.current.Some? ==> M.Body(a.current.value.1) <= 0.0)
  }

  ghost predicate NonIncreasing(xs: seq<real>) {
    forall i, j :: 0 <= i <= j < |xs| ==> xs[i] >= xs[j]
  }

  lemma {:induction false} FallingBodies(b: int, cap: nat, ticks: seq<PriceTick>)
    requires b != 0 && Falling(ticks)
    ensures BodiesDown(Fold(b, cap, ticks))
    ensures ticks != [] ==> var c := Fold(b, cap, ticks).current; c.Some? && c.value.1.close == ticks[|ticks| - 1].price
  {
    if ticks != [] {
      FallingBodies(b, cap, ticks[..|ticks| - 1]);
    }
  }

  lemma {:induction false} FallingCloses(b: int, ticks: seq<PriceTick>)
    requires b != 0 && Falling(ticks)
    ensures NonIncreasing(ClosesOf(b, ticks))
    ensures forall i :: 0 <= i < |ClosesOf(b, ticks)| ==> ticks != [] && ClosesOf(b, ticks)[i] >= ticks[|ticks| - 1].price
  {
    if ticks != [] {
      var init := ticks[..|ticks| - 1];
      FallingCloses(b, init);
      if init != [] {
        FallingBodies(b, |init| + 1, init);
        assert init[|init| - 1] == ticks[|init| - 1];
      }
    }
  }

  /** A non-increasing sequence fell at some step exactly when it ends lower than it began. */
  lemma {:induction false} FellIff(xs: seq<real>)
    requires xs != [] && NonIncreasing(xs)
    ensures !R.Rose(xs) && (R.Fell(xs) <==> xs[0] > xs[|xs| - 1])
  {
    if |xs| > 1 {
      var init := xs[..|xs| - 1];
      FellIff(init);
      R.MoveSnoc(xs);
    }
  }

  /** On a history that never rises, momentum, crossover and trend never vote up; the RSI, once it has a
      reading, votes up if any close fell, and down if all closes were equal. */
  lemma FallingVotes(cfg: Config, ticks: seq<PriceTick>)
    requires cfg.Usable() && Falling(ticks)
    ensures M.MicroMomentum(Fold(cfg.candleSecs, cfg.candleHistory, ticks).closed) <= 0
    ensures var closes := ClosesOf(cfg.candleSecs, ticks);
            E.Sign(9, 21, closes) == if |closes| >= 21 && closes[0] > closes[|closes| - 1] then -1 else 0
    ensures T.SignalOf(cfg.tickTrendWindow, T.Window(cfg.tickTrendWindow, Prices(ticks))) <= 0
    ensures var closes := ClosesOf(cfg.candleSecs, ticks);
            RsiPart(cfg.weights, R.Value(14, R.Fold(14, closes))) ==
              if |closes| <= 14 then 0.0
              else if closes[0] > closes[|closes| - 1] then cfg.weights.rsi else -cfg.weights.rsi
  {
    var closes := ClosesOf(cfg.candleSecs, ticks);
    FallingBodies(cfg.candleSecs, cfg.candleHistory, ticks);
    FallingCloses(cfg.candleSecs, ticks);
    E.CrossoverFallingIff(FAST, SLOW, closes);
    FallingRsi(cfg.weights, closes);
    FallingTrend(cfg, ticks);
  }

  lemma FallingRsi(w: Weights, closes: seq<real>)
    requires NonIncreasing(closes)
    ensures RsiPart(w, R.Value(RSI_PERIOD, R.Fold(RSI_PERIOD, closes))) ==
              if |closes| <= RSI_PERIOD then 0.0
              else if closes[0] > closes[|closes| - 1] then w.rsi else -w.rsi
  {
    R.ReadingIff(RSI_PERIOD, closes);
    if closes != [] {
      FellIff(closes);
    }
  }

  lemma FallingTrend(cfg: Config, ticks: seq<PriceTick>)
    requires cfg.Usable() && Falling(ticks)
    ensures T.SignalOf(cfg.tickTrendWindow, T.Window(cfg.tickTrendWindow, Prices(ticks))) <= 0
  {
    var window := T.Window(cfg.tickTrendWindow, Prices(ticks));
    if window != [] {
      T.NetSign(window);
    }
  }

  // ─── Window delta ───────────────────────────────────────────────────────────

  /** The heaviest tier whose threshold the displacement exceeds, the first listed one. */
  lemma TierGrows(w: Weights, small: real, large: real)
    requires small <= large && w.t1W >= w.t2W >= w.t3W >= w.t4W >= 0.0
    ensures 0.0 <= Tier(w, small) <= Tier(w, large)
  {
  }

  /** With tier weights in descending order the contribution never falls as the spot rises, has the sign
      of the displacement, and vanishes at the strike, whatever the thresholds. */
  lemma DeltaMonotone(w: Weights, low: real, high: real, strike: real)
    requires strike > 0.0 && low <= high && w.t1W >= w.t2W >= w.t3W >= w.t4W >= 0.0
    ensures WindowDelta(w, low, strike) <= WindowDelta(w, high, strike)
    ensures WindowDelta(w, strike, strike) == 0.0
    ensures low > strike ==> WindowDelta(w, low, strike) >= 0.0
    ensures high < strike ==> WindowDelta(w, high, strike) <= 0.0
  {
    PctMonotone(low, high, strike);
    if strike <= low { PctMonotone(strike, low, strike); }
    if high <= strike { PctMonotone(high, strike, strike); }
    var a, b := Pct(low, strike), Pct(high, strike);
    if b <= 0.0 {
      TierGrows(w, Abs(b), Abs(a));
    } else if a >= 0.0 {
      TierGrows(w, Abs(a), Abs(b));
    } else {
      TierGrows(w, Abs(a), Abs(a));
      TierGrows(w, Abs(b), Abs(b));
    }
  }

  lemma PctMonotone(low: real, high: real, strike: real)
    requires strike > 0.0 && low <= high
    ensures Pct(low, strike) <= Pct(high, strike) && Pct(strike, strike) == 0.0
  {
    QuotientBound(low - strike, strike, (high - strike) / strike);
    QuotientBound(high - strike, strike, 0.0);
  }
}
