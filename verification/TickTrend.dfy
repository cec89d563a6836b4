/** The tick-trend indicator: a rolling window and the signal read off it. */
module TickTrend {
  import opened Reals

  /** Moves in the given direction between consecutive prices. */
  function Ups(prices: seq<real>): nat {
    if |prices| < 2 then 0
    else
      var n := |prices| - 1;
      Ups(prices[..n]) + if prices[n] > prices[n - 1] then 1 else 0
  }

  function Downs(prices: seq<real>): nat {
    if |prices| < 2 then 0
    else
      var n := |prices| - 1;
      Downs(prices[..n]) + if prices[n] < prices[n - 1] then 1 else 0
  }

  /** The last `window` of all prices ever pushed. */
  function Window(window: nat, prices: seq<real>): seq<real> {
    if |prices| <= window then prices else prices[|prices| - window..]
  }

  function NetPct(prices: seq<real>): real
    requires prices != [] && prices[0] != 0.0
  {
    (prices[|prices| - 1] - prices[0]) / prices[0] * 100.0
  }

  class TickTrend {
    const window: nat
    var buf: seq<real>

    constructor (window: nat)
      requires window >= 2
      ensures this.window == window && buf == []
    {
      this.window := window;
      buf := [];
    }

    method Push(price: real, ghost prices: seq<real>)
      requires window >= 2 && buf == Window(window, prices)
      modifies this
      ensures buf == Window(window, prices + [price])
      ensures |buf| <= window && |buf| <= |prices| + 1 && (|buf| == window || |buf| == |prices| + 1)
      ensures buf == (prices + [price])[|prices| + 1 - |buf|..]
    {
      if |buf| >= window {
        buf := buf[1..];
      }
      buf := buf + [price];
    }

    method Signal() returns (signal: int)
      requires window >= 2
      ensures signal == SignalOf(window, buf)
      ensures signal != 0 <==> Moving(window, buf)
      ensures signal != 0 ==> signal == if (buf[|buf| - 1] - buf[0]) / buf[0] > 0.0 then 1 else -1
    {
      TrendingIff(window, buf);
      var half := window / 2;
      var minSamples := if half >= 2 then half else 2;
      if |buf| < minSamples {
        return 0;
      }
      var up, down := CountMoves(buf);
      var totalMoves := up + down;
      if totalMoves == 0 {
        return 0;
      }
      var first := buf[0];
      if first == 0.0 {
        return 0;
      }
      var netPct := (buf[|buf| - 1] - first) / first * 100.0;
      var dominant := if up >= down then up else down;
      var consistency := dominant as real / totalMoves as real;
      QuotientBound(dominant as real, totalMoves as real, 0.6);
      if consistency < 0.60 || (-0.005 <= netPct <= 0.005) {
        return 0;
      }
      signal := if netPct > 0.0 then 1 else -1;
    }
  }

  /** Half a window of samples and at least two, three of five moves one way, and a net move of more than
      0.005 percent of the oldest price. */
  ghost predicate Moving(window: nat, prices: seq<real>) {
    && |prices| >= 2 && |prices| >= window / 2 && prices[0] != 0.0
    && var up, down := |UpMoves(prices)|, |DownMoves(prices)|;
       && up + down > 0 && (10 * up >= 6 * (up + down) || 10 * down >= 6 * (up + down))
       && var pct := (prices[|prices| - 1] - prices[0]) / prices[0] * 100.0; pct > 0.005 || pct < -0.005
  }

  ghost predicate RisesAt(prices: seq<real>, i: nat) {
    0 < i < |prices| && prices[i] > prices[i - 1]
  }

  ghost predicate FallsAt(prices: seq<real>, i: nat) {
    0 < i < |prices| && prices[i] < prices[i - 1]
  }

  /** Positions that end a rise, and a fall. */
  ghost function UpMoves(prices: seq<real>): set<nat> {
    set i: nat | i < |prices| && RisesAt(prices, i)
  }

  ghost function DownMoves(prices: seq<real>): set<nat> {
    set i: nat | i < |prices| && FallsAt(prices, i)
  }

  lemma {:induction false} UpsCounted(prices: seq<real>)
    ensures Ups(prices) == |UpMoves(prices)|
  {
    if |prices| < 2 {
      assert UpMoves(prices) == {};
    } else {
      var n := |prices| - 1;
      var init := prices[..n];
      UpsCounted(init);
      assert forall i: nat :: i < n ==> (RisesAt(prices, i) <==> RisesAt(init, i));
      if prices[n] > prices[n - 1] {
        assert UpMoves(prices) == UpMoves(init) + {n};
      } else {
        assert UpMoves(prices) == UpMoves(init);
      }
    }
  }

  lemma {:induction false} DownsCounted(prices: seq<real>)
    ensures Downs(prices) == |DownMoves(prices)|
  {
    if |prices| < 2 {
      assert DownMoves(prices) == {};
    } else {
      var n := |prices| - 1;
      var init := prices[..n];
      DownsCounted(init);
      assert forall i: nat :: i < n ==> (FallsAt(prices, i) <==> FallsAt(init, i));
      if prices[n] < prices[n - 1] {
        assert DownMoves(prices) == DownMoves(init) + {n};
      } else {
        assert DownMoves(prices) == DownMoves(init);
      }
    }
  }

  lemma TrendingIff(window: nat, prices: seq<real>)
    ensures Trending(window, prices) <==> Moving(window, prices)
  {
    UpsCounted(prices);
    DownsCounted(prices);
  }

  method CountMoves(prices: seq<real>) returns (up: nat, down: nat)
    requires prices != []
    ensures up == Ups(prices) && down == Downs(prices)
    ensures up == |UpMoves(prices)| && down == |DownMoves(prices)|
  {
    UpsCounted(prices);
    DownsCounted(prices);
    up, down := 0, 0;
    for i := 1 to |prices|
      invariant up == Ups(prices[..i]) && down == Downs(prices[..i])
    {
      assert prices[..i + 1][..i] == prices[..i];
      if prices[i] > prices[i - 1] {
        up := up + 1;
      } else if prices[i] < prices[i - 1] {
        down := down + 1;
      }
    }
    assert prices[..|prices|] == prices;
  }

  /** Enough samples, at least three of five moves one way, and a net move above 0.005 percent. */
  predicate Trending(window: nat, prices: seq<real>) {
    var up, down := Ups(prices), Downs(prices);
    && |prices| >= 2 && |prices| >= window / 2 && prices[0] != 0.0
    && up + down > 0 && (5 * up >= 3 * (up + down) || 5 * down >= 3 * (up + down))
    && Abs(NetPct(prices)) > 0.005
  }

  function SignalOf(window: nat, prices: seq<real>): int {
    if !Trending(window, prices) then 0 else if NetPct(prices) > 0.0 then 1 else -1
  }

  // ─── Moves and the net change ───────────────────────────────────────────────

  lemma {:induction false} NetNeedsMoves(prices: seq<real>)
    requires prices != []
    ensures prices[|prices| - 1] > prices[0] ==> Ups(prices) > 0
    ensures prices[|prices| - 1] < prices[0] ==> Downs(prices) > 0
    ensures Ups(prices) + Downs(prices) <= |prices| - 1
  {
    if |prices| > 1 {
      NetNeedsMoves(prices[..|prices| - 1]);
    }
  }

  lemma NetSign(prices: seq<real>)
    requires prices != [] && prices[0] > 0.0
    ensures NetPct(prices) > 0.0 <==> prices[|prices| - 1] > prices[0]
    ensures NetPct(prices) < 0.0 <==> prices[|prices| - 1] < prices[0]
  {
    var d := prices[|prices| - 1] - prices[0];
    QuotientBound(d, prices[0], 0.0);
  }

  /** The documentation's reading of a signal: at least 60% of the moves go the signal's way. */
  ghost predicate Consistent(prices: seq<real>, up: bool) {
    var total := Ups(prices) + Downs(prices);
    if up then 5 * Ups(prices) >= 3 * total else 5 * Downs(prices) >= 3 * total
  }

  /** On positive prices, a signal agrees with its documentation exactly when the net change goes the
      way most moves went; nothing in the code compares the two. Either way some move goes the signal's way. */
  lemma SignalConsistentIff(window: nat, prices: seq<real>)
    requires SignalOf(window, prices) != 0 && prices[0] > 0.0
    ensures var up := SignalOf(window, prices) == 1;
            && (up <==> prices[|prices| - 1] > prices[0])
            && (up ==> Ups(prices) > 0) && (!up ==> Downs(prices) > 0)
            && (Consistent(prices, up) <==> (up <==> Ups(prices) > Downs(prices)))
  {
    NetSign(prices);
    NetNeedsMoves(prices);
  }

  /** Two small falls and one large rise: the signal is upward although two moves of three fall. */
  lemma MajorityCanBeOverruled()
    ensures var prices := [100.0, 99.0, 98.0, 101.0];
            SignalOf(4, prices) == 1 && !Consistent(prices, true)
  {
    var prices := [100.0, 99.0, 98.0, 101.0];
    assert prices[..3] == [100.0, 99.0, 98.0] && prices[..3][..2] == [100.0, 99.0];
    assert prices[..3][..2][..1] == [100.0];
    assert Ups([100.0, 99.0]) == 0 && Downs([100.0, 99.0]) == 1;
    assert Ups(prices[..3]) == 0 && Downs(prices[..3]) == 2;
    assert Ups(prices) == 1 && Downs(prices) == 2;
    QuotientBound(1.0, 100.0, 0.01);
  }
}
