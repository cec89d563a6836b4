/** The decision center: the gates before an order intent, its size, and its limit price on the market's grid. */
module DecisionCenter {
  import opened Types
  import opened State
  import opened Reals
  import Protocol
  import SimExchange

  datatype Decision = Hold | Enter(outcome: Outcome, confidence: Option<real>)

  const MAX_ENTRY_PRICE: real := 0.95

  // ─── Rounding ───────────────────────────────────────────────────────────────

  /** Nearest integer, halves to the even one: the decimal library's `round`. */
  function RoundHalfEven(x: real): (r: int)
    ensures x - 0.5 <= r as real <= x + 0.5
    ensures x == x.Floor as real ==> r == x.Floor
  {
    var f := x.Floor;
    var frac := x - f as real;
    if frac < 0.5 then f else if frac > 0.5 then f + 1 else if f % 2 == 0 then f else f + 1
  }

  /** No other integer is nearer, and between two equally near ones the even one is taken. */
  lemma RoundsToNearest(x: real, k: int)
    ensures var r := RoundHalfEven(x);
            && Abs(x - r as real) <= Abs(x - k as real)
            && (Abs(x - r as real) == Abs(x - k as real) && k != r ==> r % 2 == 0)
  {
    var f := x.Floor;
    assert k <= f || k >= f + 1;
  }

  function Snap(price: real, tick: real): real
    requires tick > 0.0
  {
    RoundHalfEven(price / tick) as real * tick
  }

  /** One tick above the ask, no higher than one tick below 1, rounded to the grid. */
  function LimitPrice(ask: real, tick: real): real {
    var buffered := Min(ask + tick, 1.0 - tick);
    if tick > 0.0 then Snap(buffered, tick) else buffered
  }

  // ─── The task ───────────────────────────────────────────────────────────────

  type Sizing = (real, real) -> real

  /** The intent sent, in its own terms: an open market with a strike, a free slot, a wish to enter, and
      for the first outcome of the wished name a cached ask below 0.95 and a size that is not zero. */
  ghost predicate Warranted(slot: RoundSlotState, market: Market, d: Decision, books: Books,
                            bankroll: real, sizing: Sizing, ask: real) {
    && slot.Empty? && market.status == MarketStatus.Open && market.strike.Some? && d.Enter?
    && AskedFor(market.outcomes, d.outcome.AsStr(), books, ask)
    && ask < 0.95 && sizing(bankroll, ask) > 0.0
  }

  ghost predicate AskedFor(outcomes: seq<MarketOutcome>, name: string, books: Books, ask: real) {
    exists k :: Protocol.FirstNamed(outcomes, name, k) && outcomes[k].tokenId in books
                && books[outcomes[k].tokenId].buyPrice == Some(ask)
  }

  /** There is one such ask, or none: the cached one of the outcome the search finds. */
  lemma AskIs(outcomes: seq<MarketOutcome>, name: string, books: Books)
    ensures var mo := Protocol.FindOutcome(outcomes, name);
            forall ask: real :: AskedFor(outcomes, name, books, ask) <==>
              mo.Some? && PriceIn(books, mo.value.tokenId, Buy) == Some(ask)
  {
    Protocol.FindsFirst(outcomes, name);
    if Protocol.FindOutcome(outcomes, name).Some? {
      var k :| Protocol.FirstNamed(outcomes, name, k);
    }
  }

  /** The size asked for, raised to the market's minimum if below it. */
  ghost predicate SizedFor(i: Intent, raw: real, minSize: real) {
    i.shares > 0.0 && i.shares >= raw && i.shares >= minSize && (i.shares == raw || i.shares == minSize)
  }

  class DecisionCenter {
    const bookCache: OutcomeBookCache
    const sizing: Sizing

    constructor (bookCache: OutcomeBookCache, sizing: Sizing)
      ensures this.bookCache == bookCache && this.sizing == sizing
    {
      this.bookCache, this.sizing := bookCache, sizing;
    }

    /** One tick. `decide` is what the strategy answers for the market it is asked about. */
    method OnTick(slot: RoundSlotState, market: Option<Market>, decide: Market -> Decision, bankroll: real)
      returns (intent: Option<Intent>)
      ensures intent.Some? <==>
                market.Some? && exists ask: real :: Warranted(slot, market.value, decide(market.value), bookCache.books, bankroll, sizing, ask)
      ensures intent.Some? ==>
                && intent.value.side == Buy && decide(market.value) == Enter(intent.value.outcome, decide(market.value).confidence)
                && exists ask: real :: Warranted(slot, market.value, decide(market.value), bookCache.books, bankroll, sizing, ask)
                     && SizedFor(intent.value, sizing(bankroll, ask), market.value.minSize)
                     && intent.value.limitPrice == LimitPrice(ask, market.value.minTick)
    {
      if !slot.Empty? {
        return None;
      }
      if market.None? {
        return None;
      }
      var m := market.value;
      if m.status != MarketStatus.Open || m.strike.None? {
        return None;
      }
      var decision := decide(m);
      if decision.Hold? {
        return None;
      }
      AskIs(m.outcomes, decision.outcome.AsStr(), bookCache.books);
      var mo := Protocol.FindOutcome(m.outcomes, decision.outcome.AsStr());
      if mo.None? {
        return None;
      }
      var ask := bookCache.Price(mo.value.tokenId, Buy);
      if ask.None? || ask.value >= MAX_ENTRY_PRICE {
        return None;
      }
      var raw := sizing(bankroll, ask.value);
      if raw <= 0.0 {
        return None;
      }
      var shares := if raw < m.minSize then m.minSize else raw;
      var tick := m.minTick;
      var buffered := if ask.value + tick <= 1.0 - tick then ask.value + tick else 1.0 - tick;
      var limit;
      if tick > 0.0 {
        limit := RoundHalfEven(buffered / tick) as real * tick;
      } else {
        limit := buffered;
      }
      intent := Some(Intent(decision.outcome, Buy, shares, limit));
      assert Warranted(slot, m, decision, bookCache.books, bankroll, sizing, ask.value);
    }
  }

  // ─── The limit price ────────────────────────────────────────────────────────

  lemma TickOf(n: nat)
    requires n >= 1
    ensures var tick := 1.0 / n as real; tick > 0.0 && tick * n as real == 1.0
  {
    QuotientBound(1.0, n as real, 0.0);
  }

  lemma InTicks(ask: real, tick: real, n: real)
    requires tick * n == 1.0
    ensures (ask + tick) * n == ask * n + 1.0 && (1.0 - tick) * n == n - 1.0
    ensures (ask + 1.5 * tick) * n == ask * n + 1.5
  {
  }

  lemma Compare(x: real, y: real, n: real)
    requires n > 0.0
    ensures x < y <==> x * n < y * n
    ensures x <= y <==> x * n <= y * n
  {
    SameSign(y - x, n);
    assert (y - x) * n == y * n - x * n;
  }

  lemma ScaledMin(x: real, xn: real, y: real, yn: real, n: real)
    requires n > 0.0 && x * n == xn && y * n == yn
    ensures Min(x, y) * n == Min(xn, yn)
  {
    InOrder(x, xn, y, yn, n);
  }

  lemma ByTick(x: real, tick: real, n: real)
    requires tick > 0.0 && tick * n == 1.0
    ensures x / tick == x * n
  {
    assert (x * n) * tick == x * (tick * n);
    QuotientBound(x, tick, x * n);
  }

  lemma Rescaled(x: real, tick: real, n: real)
    requires tick * n == 1.0
    ensures (x * tick) * n == x
  {
    assert (x * tick) * n == x * (tick * n);
  }

  lemma SnapInTicks(x: real, xn: real, tick: real, n: real)
    requires tick > 0.0 && n > 0.0 && tick * n == 1.0 && x * n == xn
    ensures Snap(x, tick) * n == RoundHalfEven(xn) as real
  {
    ByTick(x, tick, n);
    assert x / tick == xn;
    Rescaled(RoundHalfEven(xn) as real, tick, n);
  }

  /** On the grid, in ticks (`an` is the ask in ticks): the ask plus one rounded, but at most n - 1. */
  lemma LimitInTicks(ask: real, an: real, tick: real, n: real)
    requires tick > 0.0 && n > 0.0 && tick * n == 1.0 && ask * n == an
    ensures LimitPrice(ask, tick) * n == RoundHalfEven(Min(an + 1.0, n - 1.0)) as real
  {
    InTicks(ask, tick, n);
    ScaledMin(ask + tick, an + 1.0, 1.0 - tick, n - 1.0, n);
    SnapInTicks(Min(ask + tick, 1.0 - tick), Min(an + 1.0, n - 1.0), tick, n);
  }

  ghost predicate OnGrid(price: real, n: nat, r: int) {
    price * n as real == r as real
  }

  /** For a tick of 1/n the limit is a whole number of ticks, at most one below 1, and at most a tick and
      a half above the ask; it is above the ask exactly when the ask is below the last grid price. */
  lemma LimitOnGrid(ask: real, n: nat)
    requires n >= 1
    ensures var tick := 1.0 / n as real;
            var limit := LimitPrice(ask, tick);
            && (exists r: int :: OnGrid(limit, n, r) && r <= n - 1)
            && limit <= 1.0 - tick
            && limit - ask <= 1.5 * tick
            && (ask < limit <==> ask < 1.0 - tick)
  {
    var tick, size := 1.0 / n as real, n as real;
    TickOf(n);
    var an := ask * size;
    LimitInTicks(ask, an, tick, size);
    var r := RoundHalfEven(Min(an + 1.0, size - 1.0));
    AtMost(an, n, r);
    assert OnGrid(LimitPrice(ask, tick), n, r);
    GridFacts(ask, an, tick, size, LimitPrice(ask, tick), r as real);
  }

  /** Everything compared n times over; `an` is the ask in ticks. */
  lemma GridFacts(ask: real, an: real, tick: real, n: real, limit: real, r: real)
    requires n > 0.0 && tick * n == 1.0 && ask * n == an && limit * n == r
    requires r <= n - 1.0 && r <= an + 1.5 && (an < r <==> an < n - 1.0)
    ensures limit <= 1.0 - tick && limit - ask <= 1.5 * tick && (ask < limit <==> ask < 1.0 - tick)
  {
    InTicks(ask, tick, n);
    InOrder(limit, r, 1.0 - tick, n - 1.0, n);
    InOrder(limit, r, ask + 1.5 * tick, an + 1.5, n);
    InOrder(ask, an, limit, r, n);
    InOrder(ask, an, 1.0 - tick, n - 1.0, n);
  }

  lemma InOrder(x: real, xn: real, y: real, yn: real, n: real)
    requires n > 0.0 && x * n == xn && y * n == yn
    ensures x < y <==> xn < yn
    ensures x <= y <==> xn <= yn
  {
    Compare(x, y, n);
  }

  lemma AtMost(a: real, n: nat, r: int)
    requires n >= 1 && r == RoundHalfEven(Min(a + 1.0, n as real - 1.0))
    ensures r <= n - 1 && r as real <= a + 1.5
    ensures a < r as real <==> a < n as real - 1.0
  {
    var top := (n - 1) as real;
    assert top == n as real - 1.0 && top.Floor == n - 1;
    if a + 1.0 >= top {
      assert Min(a + 1.0, n as real - 1.0) == top;
      assert r == n - 1;
    } else {
      assert (a + 1.0).Floor <= n - 2;
    }
  }

  ghost predicate IsTicks(price: real, tick: real, r: int) {
    price == r as real * tick
  }

  /** Whatever the ask and the positive tick, the limit is the multiple of the tick nearest to one tick
      above the ask, or to one tick below 1 if that is less. */
  lemma LimitIsNearest(ask: real, tick: real)
    requires tick > 0.0
    ensures exists r: int :: IsTicks(LimitPrice(ask, tick), tick, r)
    ensures var target := if ask + tick < 1.0 - tick then ask + tick else 1.0 - tick;
            target - 0.5 * tick <= LimitPrice(ask, tick) <= target + 0.5 * tick
  {
    var target := Min(ask + tick, 1.0 - tick);
    var q, r := target / tick, RoundHalfEven(target / tick);
    assert IsTicks(LimitPrice(ask, tick), tick, r);
    QuotientBound(target, tick, 0.0);
    InOrder(r as real, r as real * tick, q + 0.5, target + 0.5 * tick, tick);
    InOrder(q - 0.5, target - 0.5 * tick, r as real, r as real * tick, tick);
  }

  /** For ticks of 1/20 and finer, every ask the edge guard lets through gets a limit strictly above it. */
  lemma LimitIsMarketable(ask: real, n: nat)
    requires n >= 20 && 0.0 < ask < MAX_ENTRY_PRICE
    ensures var tick := 1.0 / n as real;
            ask < LimitPrice(ask, tick) <= 1.0 - tick && LimitPrice(ask, tick) - ask <= 1.5 * tick
  {
    LimitOnGrid(ask, n);
    QuotientBound(1.0, n as real, 0.05);
  }

  /** For coarser ticks the guard is not enough: an ask at or above the last grid price gets a limit no higher than itself. */
  lemma CoarseTickMissesIff(ask: real, n: nat)
    requires 1 <= n && 0.0 < ask < MAX_ENTRY_PRICE
    ensures ask < LimitPrice(ask, 1.0 / n as real) <==> ask * n as real < n as real - 1.0
  {
    LimitOnGrid(ask, n);
    TickOf(n);
    InTicks(ask, 1.0 / n as real, n as real);
    InOrder(ask, ask * n as real, 1.0 - 1.0 / n as real, n as real - 1.0, n as real);
  }

  /** At a tick of 1/n the limit lies above the ask it was computed from, so the order can trade at once. */
  ghost predicate Marketable(ask: real, n: nat)
    requires n >= 1
  {
    ask < LimitPrice(ask, 1.0 / n as real)
  }

  /** Every ask the edge guard lets through gets such a limit exactly for ticks of 1/20 and finer. */
  lemma GuardSufficesIff(n: nat)
    requires n >= 1
    ensures (forall ask :: 0.0 < ask < MAX_ENTRY_PRICE ==> Marketable(ask, n)) <==> n >= 20
  {
    if n >= 20 {
      forall ask | 0.0 < ask < MAX_ENTRY_PRICE ensures Marketable(ask, n) {
        LimitIsMarketable(ask, n);
      }
    } else {
      var ask := if n == 1 then 0.5 else 1.0 - 1.0 / n as real;
      LastGridPrice(n);
      LimitOnGrid(ask, n);
      assert !Marketable(ask, n);
    }
  }

  lemma LastGridPrice(n: nat)
    requires 1 <= n < 20
    ensures n >= 2 ==> 0.0 < 1.0 - 1.0 / n as real < MAX_ENTRY_PRICE
    ensures n == 1 ==> 1.0 / n as real == 1.0
  {
    QuotientBound(1.0, n as real, 1.0);
    QuotientBound(1.0, n as real, 0.05);
  }

  /** At the real tick of 0.1: an ask of 0.92 passes the guard and gets a limit below itself. */
  lemma CoarseTickMisses()
    ensures 0.92 < MAX_ENTRY_PRICE && LimitPrice(0.92, 0.1) == 0.9
  {
    assert (0.9 / 0.1) == 9.0;
  }

  /** Rounding stays at or below k up to the half above it, the half itself included for an even k. */
  lemma RoundAtMost(x: real, k: int)
    ensures RoundHalfEven(x) <= k <==> x < k as real + 0.5 || (x == k as real + 0.5 && k % 2 == 0)
  {
  }

  lemma OneLess(q: real, tick: real)
    requires q * tick == 1.0
    ensures (q - 1.0) * tick == 1.0 - tick
  {
  }

  lemma StepsToCap(tick: real)
    requires tick > 0.0
    ensures (1.0 - tick) / tick == 1.0 / tick - 1.0
  {
    QuotientBound(1.0, tick, 0.0);
    OneLess(1.0 / tick, tick);
    QuotientBound(1.0 - tick, tick, 1.0 / tick - 1.0);
  }

  /** A whole number of ticks is at most 1 - tick exactly when it is at most the last whole one below. */
  lemma WholeTicks(r: int, tick: real)
    requires tick > 0.0
    ensures r as real * tick <= 1.0 - tick <==> r <= (1.0 / tick).Floor - 1
  {
    StepsToCap(tick);
    QuotientBound(1.0 - tick, tick, 0.0);
    InOrder(r as real, r as real * tick, 1.0 / tick - 1.0, 1.0 - tick, tick);
  }

  lemma HalfTick(price: real, half: real, tick: real)
    requires tick > 0.0
    ensures price / tick < half <==> price < half * tick
    ensures price / tick == half <==> price == half * tick
  {
    QuotientBound(price, tick, half);
  }

  /** Whatever the ask and the positive tick: with `last` the last whole number of ticks up to one tick
      below 1, the documented cap survives the rounding exactly while the price before rounding lies
      below the half tick above `last`, the half itself included when `last` is even. */
  lemma CapHoldsIff(ask: real, tick: real)
    requires tick > 0.0
    ensures var buffered := Min(ask + tick, 1.0 - tick);
            var last := (1.0 / tick).Floor - 1;
            var half := (last as real + 0.5) * tick;
            LimitPrice(ask, tick) <= 1.0 - tick <==> buffered < half || (buffered == half && last % 2 == 0)
  {
    var buffered := Min(ask + tick, 1.0 - tick);
    var last := (1.0 / tick).Floor - 1;
    var r := RoundHalfEven(buffered / tick);
    WholeTicks(r, tick);
    RoundAtMost(buffered / tick, last);
    HalfTick(buffered, last as real + 0.5, tick);
  }

  /** Inputs where it does not: the price before rounding is 0.55 under a cap of 0.65, or 0.6 at a cap of 0.6. */
  lemma CapCanFail()
    ensures LimitPrice(0.2, 0.35) == 0.7 > 1.0 - 0.35
    ensures LimitPrice(0.5, 0.4) == 0.8 > 1.0 - 0.4
  {
    assert 0.55 / 0.35 > 1.5 && 0.55 / 0.35 < 2.0;
    assert 0.6 / 0.4 == 1.5;
  }

  /** A tick that is not positive is used unrounded: no limit lies above the ask, and for a negative tick it lies below. */
  lemma NonPositiveTick(ask: real, tick: real)
    requires tick <= 0.0 && ask < MAX_ENTRY_PRICE
    ensures LimitPrice(ask, tick) == ask + tick <= ask
  {
  }

  /** An order at this limit passes the dry-run exchange's cross test for any later ask no higher than the original. */
  lemma CrossesLaterAsk(ask: real, later: real, n: nat, order: SimExchange.SimOrder)
    requires n >= 20 && 0.0 < ask < MAX_ENTRY_PRICE && later <= ask
    requires order.side.Buy? && order.limitPrice == LimitPrice(ask, 1.0 / n as real)
    ensures SimExchange.WouldTrade(order.side, order.limitPrice, Some(later))
  {
    LimitIsMarketable(ask, n);
  }
}
