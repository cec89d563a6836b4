/** Stride-sampled variance of log returns. The logarithm is a parameter: nothing here depends on which function it is. */
module Volatility {
  import opened Types
  import opened Integers
  import opened Reals

  type Ln = real -> real

  datatype Config = Config(alpha: real, stride: nat, ln: Ln)

  datatype State = State(ewmaVar: real, lastPrice: Option<real>, ticks: nat, updates: nat)

  function Square(x: real): real {
    x * x
  }

  function Sample(c: Config, s: State, price: real): State {
    if s.lastPrice.Some? && s.lastPrice.value > 0.0 && price > 0.0 then
      var logRet := c.ln(price / s.lastPrice.value);
      s.(ewmaVar := Mix(c.alpha, Square(logRet), s.ewmaVar), updates := s.updates + 1, lastPrice := Some(price))
    else s.(lastPrice := Some(price))
  }

  function Next(c: Config, s: State, price: real): State
    requires c.stride >= 1
  {
    var s' := s.(ticks := s.ticks + 1);
    if s'.ticks % c.stride != 0 then s' else Sample(c, s', price)
  }

  function Fold(c: Config, prices: seq<real>): State
    requires c.stride >= 1
  {
    if prices == [] then State(0.0, None, 0, 0)
    else Next(c, Fold(c, prices[..|prices| - 1]), prices[|prices| - 1])
  }

  class VolEstimator {
    const alpha: real
    const stride: nat
    var ewmaVar: real
    var lastPrice: Option<real>
    var tickCounter: nat
    var updateCount: nat

    function View(): State reads this {
      State(ewmaVar, lastPrice, tickCounter, updateCount)
    }

    /** A stride of 0 is taken as 1. */
    constructor (alpha: real, stride: nat)
      ensures this.alpha == alpha && this.stride >= 1 && (stride >= 1 ==> this.stride == stride)
      ensures View() == State(0.0, None, 0, 0)
    {
      this.alpha, this.stride := alpha, if stride >= 1 then stride else 1;
      ewmaVar, lastPrice, tickCounter, updateCount := 0.0, None, 0, 0;
    }

    method Update(price: real, ln: Ln)
      requires stride >= 1
      modifies this
      ensures View() == Next(Config(alpha, stride, ln), old(View()), price)
      ensures tickCounter == old(tickCounter) + 1
      ensures tickCounter % stride != 0 ==> ewmaVar == old(ewmaVar) && lastPrice == old(lastPrice) && updateCount == old(updateCount)
      ensures tickCounter % stride == 0 ==> lastPrice == Some(price)
      ensures tickCounter % stride == 0 ==>
                if price > 0.0 && old(lastPrice).Some? && old(lastPrice).value > 0.0 then
                  var r := ln(price / old(lastPrice).value);
                  ewmaVar == alpha * (r * r) + (1.0 - alpha) * old(ewmaVar) && updateCount == old(updateCount) + 1
                else ewmaVar == old(ewmaVar) && updateCount == old(updateCount)
    {
      tickCounter := tickCounter + 1;
      if tickCounter % stride != 0 {
        return;
      }
      if lastPrice.Some? && lastPrice.value > 0.0 && price > 0.0 {
        var logRet := ln(price / lastPrice.value);
        ewmaVar := Mix(alpha, Square(logRet), ewmaVar);
        updateCount := updateCount + 1;
      }
      lastPrice := Some(price);
    }
  }

  // ─── Subsampling ────────────────────────────────────────────────────────────

  /** Every `stride`-th price: positions stride-1, 2·stride-1, … */
  function Sampled(stride: nat, prices: seq<real>): seq<real>
    requires stride >= 1
  {
    if prices == [] then []
    else
      var init := Sampled(stride, prices[..|prices| - 1]);
      if |prices| % stride == 0 then init + [prices[|prices| - 1]] else init
  }

  lemma {:induction false} SampledLength(stride: nat, prices: seq<real>)
    requires stride >= 1
    ensures |Sampled(stride, prices)| == |prices| / stride
  {
    if prices != [] {
      SampledLength(stride, prices[..|prices| - 1]);
      Multiples(|prices|, stride);
    }
  }

  lemma {:induction false} SampledAt(stride: nat, prices: seq<real>, i: nat)
    requires stride >= 1 && i < |prices| / stride
    ensures |Sampled(stride, prices)| == |prices| / stride
    ensures 0 <= (i + 1) * stride - 1 < |prices| && Sampled(stride, prices)[i] == prices[(i + 1) * stride - 1]
    decreases |prices|
  {
    var n := |prices|;
    SampledLength(stride, prices);
    SampledLength(stride, prices[..n - 1]);
    Multiples(n, stride);
    if i == (n - 1) / stride {
      assert i + 1 == n / stride;
      AtLeastOne(i + 1, stride);
    } else {
      SampledAt(stride, prices[..n - 1], i);
    }
  }

  lemma AtLeastOne(k: nat, d: nat)
    requires k >= 1 && d >= 1
    ensures k * d >= 1
  {
  }

  lemma Multiples(n: nat, stride: nat)
    requires n >= 1 && stride >= 1
    ensures n / stride == (n - 1) / stride + if n % stride == 0 then 1 else 0
    ensures n % stride == 0 ==> (n / stride) * stride == n
  {
    var q, r := n / stride, n % stride;
    assert n == q * stride + r;
    if r == 0 {
      assert n - 1 == (q - 1) * stride + (stride - 1);
      Divides(n - 1, stride, q - 1, stride - 1);
    } else {
      Divides(n - 1, stride, q, r - 1);
    }
  }

  lemma Divides(n: int, d: nat, q: int, r: int)
    requires d >= 1 && 0 <= r < d && n == q * d + r
    ensures n / d == q
  {
    var k := n / d;
    assert n == k * d + n % d;
    assert (k - q) * d == r - n % d;
    Distance(k - q, d);
  }

  /** A strided estimator is the unstrided one fed every stride-th tick: same variance, same last price, same count. */
  lemma {:induction false} StrideIsSubsampling(c: Config, prices: seq<real>)
    requires c.stride >= 1
    ensures Fold(c, prices).ticks == |prices|
    ensures Fold(c, prices).(ticks := 0) == Fold(c.(stride := 1), Sampled(c.stride, prices)).(ticks := 0)
  {
    if prices != [] {
      var init := prices[..|prices| - 1];
      StrideIsSubsampling(c, init);
      if |prices| % c.stride == 0 {
        var samples := Sampled(c.stride, init) + [prices[|prices| - 1]];
        assert samples[..|samples| - 1] == Sampled(c.stride, init);
      }
    }
  }

  /** On positive prices the estimator has one update fewer than samples: max(0, ⌊t/stride⌋ - 1). */
  lemma UpdateCount(c: Config, prices: seq<real>)
    requires c.stride >= 1 && forall i :: 0 <= i < |prices| ==> prices[i] > 0.0
    ensures var n := |prices| / c.stride; Fold(c, prices).updates == if n == 0 then 0 else n - 1
  {
    StrideIsSubsampling(c, prices);
    SampledLength(c.stride, prices);
    forall i | 0 <= i < |Sampled(c.stride, prices)| ensures Sampled(c.stride, prices)[i] > 0.0 {
      SampledAt(c.stride, prices, i);
    }
    CountUnstrided(c.(stride := 1), Sampled(c.stride, prices));
  }

  lemma {:induction false} CountUnstrided(c: Config, prices: seq<real>)
    requires c.stride == 1 && forall i :: 0 <= i < |prices| ==> prices[i] > 0.0
    ensures var s := Fold(c, prices);
            && s.updates == (if prices == [] then 0 else |prices| - 1)
            && s.lastPrice == (if prices == [] then None else Some(prices[|prices| - 1]))
  {
    if prices != [] {
      CountUnstrided(c, prices[..|prices| - 1]);
    }
  }

  ghost predicate ReturnsWithin(c: Config, prices: seq<real>, bound: real) {
    forall i, j :: 0 <= i < |prices| && 0 <= j < |prices| && prices[i] > 0.0 && prices[j] > 0.0 ==>
      Square(c.ln(prices[j] / prices[i])) <= bound
  }

  lemma {:induction false} LastPriceSeen(c: Config, prices: seq<real>)
    requires c.stride >= 1
    ensures var last := Fold(c, prices).lastPrice;
            last.Some? ==> exists k :: 0 <= k < |prices| && prices[k] == last.value
  {
    if prices != [] {
      var n := |prices| - 1;
      LastPriceSeen(c, prices[..n]);
      var last := Fold(c, prices[..n]).lastPrice;
      if last.Some? {
        var k :| 0 <= k < n && prices[..n][k] == last.value;
        assert prices[k] == last.value;
      }
      assert prices[n] == prices[n];
    }
  }

  lemma StepBounded(c: Config, s: State, price: real, bound: real)
    requires c.stride >= 1 && 0.0 <= c.alpha <= 1.0 && 0.0 <= s.ewmaVar <= bound
    requires s.lastPrice.Some? && s.lastPrice.value > 0.0 && price > 0.0 ==>
               Square(c.ln(price / s.lastPrice.value)) <= bound
    ensures 0.0 <= Next(c, s, price).ewmaVar <= bound
  {
    if s.lastPrice.Some? && s.lastPrice.value > 0.0 && price > 0.0 {
      var x := c.ln(price / s.lastPrice.value);
      SquareNonNegative(x);
      Between(c.alpha, Square(x), s.ewmaVar, 0.0, bound);
    }
  }

  /** With alpha in [0, 1] the variance never leaves [0, bound], for any bound on the squared log return
      of two positive prices; whatever prices come, positive or not. */
  lemma {:induction false} VarianceBounded(c: Config, prices: seq<real>, bound: real)
    requires c.stride >= 1 && 0.0 <= c.alpha <= 1.0 && bound >= 0.0 && ReturnsWithin(c, prices, bound)
    ensures 0.0 <= Fold(c, prices).ewmaVar <= bound
  {
    if prices != [] {
      var n := |prices| - 1;
      var init := prices[..n];
      assert ReturnsWithin(c, init, bound) by {
        forall i, j | 0 <= i < n && 0 <= j < n && init[i] > 0.0 && init[j] > 0.0
          ensures Square(c.ln(init[j] / init[i])) <= bound
        {
          assert Square(c.ln(prices[j] / prices[i])) <= bound;
        }
      }
      VarianceBounded(c, init, bound);
      LastPriceSeen(c, init);
      var s := Fold(c, init);
      if s.lastPrice.Some? && s.lastPrice.value > 0.0 && prices[n] > 0.0 {
        var k :| 0 <= k < n && init[k] == s.lastPrice.value;
        assert Square(c.ln(prices[n] / prices[k])) <= bound;
      }
      StepBounded(c, s, prices[n], bound);
    }
  }

  lemma SquareNonNegative(x: real)
    ensures Square(x) >= 0.0
  {
    if x >= 0.0 { NonNegative(x, x); } else { NonNegative(-x, -x); }
  }
}
