/** Settlement's 50-tick buffer and its cutoff snapshot, against the whole tick history. */
module ResolutionPrices {
  import opened Types
  import opened MarketRotation

  const TICK_CACHE := 50

  /** Price of the newest tick at or before `cutoff`. */
  function Newest(ticks: seq<Tick>, cutoff: int): Option<real> {
    if ticks == [] then None
    else
      var last := ticks[|ticks| - 1];
      if last.at <= cutoff then Some(last.price) else Newest(ticks[..|ticks| - 1], cutoff)
  }

  /** The `n` newest of all ticks ever received. */
  function Ring(n: nat, ticks: seq<Tick>): seq<Tick> {
    if |ticks| <= n then ticks else ticks[|ticks| - n..]
  }

  /** Newest, said without recursion: position `i` is the last one at or before the cutoff. */
  ghost predicate NewestAt(ticks: seq<Tick>, cutoff: int, i: int) {
    0 <= i < |ticks| && ticks[i].at <= cutoff && forall k :: i < k < |ticks| ==> ticks[k].at > cutoff
  }

  lemma {:induction false} NewestIff(ticks: seq<Tick>, cutoff: int)
    ensures Newest(ticks, cutoff).None? <==> forall k :: 0 <= k < |ticks| ==> ticks[k].at > cutoff
    ensures forall i :: NewestAt(ticks, cutoff, i) ==> Newest(ticks, cutoff) == Some(ticks[i].price)
    ensures Newest(ticks, cutoff).Some? ==> exists i :: NewestAt(ticks, cutoff, i)
  {
    if ticks != [] {
      var n := |ticks| - 1;
      if ticks[n].at <= cutoff {
        assert NewestAt(ticks, cutoff, n);
      } else {
        NewestIff(ticks[..n], cutoff);
        forall i ensures NewestAt(ticks, cutoff, i) <==> NewestAt(ticks[..n], cutoff, i) {
          NewestShorter(ticks, cutoff, i);
        }
      }
    }
  }

  /** A tick past the cutoff at the end does not matter. */
  lemma NewestShorter(ticks: seq<Tick>, cutoff: int, i: int)
    requires ticks != [] && ticks[|ticks| - 1].at > cutoff
    ensures NewestAt(ticks, cutoff, i) <==> NewestAt(ticks[..|ticks| - 1], cutoff, i)
  {
    var init := ticks[..|ticks| - 1];
    if NewestAt(init, cutoff, i) {
      forall k | i < k < |ticks| ensures ticks[k].at > cutoff {
        assert k < |init| ==> init[k] == ticks[k];
      }
    }
  }

  /** The backwards scan. */
  method ResolutionPrice(ticks: seq<Tick>, closesAt: int) returns (price: Option<real>)
    ensures price == Newest(ticks, closesAt)
  {
    var i := |ticks|;
    assert ticks[..i] == ticks;
    while i > 0
      invariant 0 <= i <= |ticks|
      invariant Newest(ticks, closesAt) == Newest(ticks[..i], closesAt)
    {
      i := i - 1;
      if ticks[i].at <= closesAt {
        return Some(ticks[i].price);
      }
      assert ticks[..i + 1][..i] == ticks[..i];
    }
    price := None;
  }

  // ─── The buffer refines the full history ────────────────────────────────────

  /** The buffer's answer is the full history's answer exactly when the full history has none either,
      or the tick it rests on is among the 50 newest. It is never a different price. */
  lemma BufferRefinesHistory(ticks: seq<Tick>, n: nat, cutoff: int)
    ensures Newest(Ring(n, ticks), cutoff).Some? ==> Newest(Ring(n, ticks), cutoff) == Newest(ticks, cutoff)
    ensures Newest(Ring(n, ticks), cutoff) == Newest(ticks, cutoff) <==>
              forall i :: NewestAt(ticks, cutoff, i) ==> i >= |ticks| - n
  {
    var ring := Ring(n, ticks);
    var shift := |ticks| - |ring|;
    NewestIff(ticks, cutoff);
    NewestIff(ring, cutoff);
    forall i ensures NewestAt(ring, cutoff, i - shift) <==> NewestAt(ticks, cutoff, i) && i >= shift {
      InRing(ticks, n, cutoff, i);
    }
    if Newest(ring, cutoff).Some? {
      var k :| NewestAt(ring, cutoff, k);
      InRing(ticks, n, cutoff, shift + k);
    }
    if i :| NewestAt(ticks, cutoff, i) && i < shift {
      forall k | 0 <= k < |ring| ensures ring[k].at > cutoff {
        assert ring[k] == ticks[shift + k];
      }
    }
  }

  /** The buffer holds the end of the history. */
  lemma InRing(ticks: seq<Tick>, n: nat, cutoff: int, i: int)
    ensures var shift := |ticks| - |Ring(n, ticks)|;
            NewestAt(Ring(n, ticks), cutoff, i - shift) <==> NewestAt(ticks, cutoff, i) && i >= shift
  {
    var ring := Ring(n, ticks);
    var shift := |ticks| - |ring|;
    if NewestAt(ring, cutoff, i - shift) {
      forall k | i < k < |ticks| ensures ticks[k].at > cutoff {
        assert ring[k - shift] == ticks[k];
      }
    }
  }

  ghost predicate NonDecreasing(ticks: seq<Tick>) {
    forall i, j :: 0 <= i < j < |ticks| ==> ticks[i].at <= ticks[j].at
  }

  /** With ticks in time order, the chosen tick is a latest one among those at or before the cutoff. */
  lemma NewestIsLatest(ticks: seq<Tick>, cutoff: int, i: int)
    requires NonDecreasing(ticks) && NewestAt(ticks, cutoff, i)
    ensures Newest(ticks, cutoff) == Some(ticks[i].price)
    ensures forall k :: 0 <= k < |ticks| ==>
              (ticks[k].at <= cutoff <==> k <= i) && (ticks[k].at <= cutoff ==> ticks[k].at <= ticks[i].at)
  {
    NewestIff(ticks, cutoff);
  }

  /** A scan made later that still finds a price agrees with the snapshot, when all ticks since are past the cutoff. */
  lemma LateScanAgrees(ticks: seq<Tick>, later: seq<Tick>, n: nat, cutoff: int)
    requires forall t :: t in later ==> t.at > cutoff
    requires Newest(Ring(n, ticks + later), cutoff).Some?
    ensures Newest(Ring(n, ticks + later), cutoff) == Newest(Ring(n, ticks), cutoff)
  {
    var all := ticks + later;
    BufferRefinesHistory(all, n, cutoff);
    NewestIff(all, cutoff);
    var i :| NewestAt(all, cutoff, i);
    assert i >= |all| - n;
    assert forall k :: |ticks| <= k < |all| ==> all[k] == later[k - |ticks|] && all[k] in later;
    assert i < |ticks|;
    assert forall k :: 0 <= k < |ticks| ==> all[k] == ticks[k];
    assert NewestAt(ticks, cutoff, i);
    NewestIff(ticks, cutoff);
    BufferRefinesHistory(ticks, n, cutoff);
    forall j | NewestAt(ticks, cutoff, j) ensures j == i {
    }
  }

  // ─── The task's fold over ticks and lifecycle events ────────────────────────

  datatype Input = OnTick(tick: Tick) | OnLifecycle(event: Lifecycle)

  datatype Memory = Memory(ticks: seq<Tick>, cutoffPrice: Option<real>)

  function React(m: Memory, i: Input): Memory {
    match i
    case OnTick(t) => m.(ticks := (if |m.ticks| == TICK_CACHE then m.ticks[1..] else m.ticks) + [t])
    case OnLifecycle(TradingCutoff(market)) => m.(cutoffPrice := Newest(m.ticks, market.closesAt))
    case OnLifecycle(Resolved(_)) => m.(cutoffPrice := None)
  }

  /** The price settlement goes on at a resolution: the snapshot, or else a scan of the buffer. */
  function PriceAtResolved(m: Memory, market: Market): Option<real> {
    if m.cutoffPrice.Some? then m.cutoffPrice else Newest(m.ticks, market.closesAt)
  }

  function Fold(inputs: seq<Input>): Memory {
    if inputs == [] then Memory([], None)
    else React(Fold(inputs[..|inputs| - 1]), inputs[|inputs| - 1])
  }

  function TicksOf(inputs: seq<Input>): seq<Tick> {
    if inputs == [] then []
    else
      var last := inputs[|inputs| - 1];
      TicksOf(inputs[..|inputs| - 1]) + (if last.OnTick? then [last.tick] else [])
  }

  function LifecycleOf(inputs: seq<Input>): seq<Lifecycle> {
    if inputs == [] then []
    else
      var last := inputs[|inputs| - 1];
      LifecycleOf(inputs[..|inputs| - 1]) + (if last.OnLifecycle? then [last.event] else [])
  }

  lemma FoldSnoc(inputs: seq<Input>, i: Input)
    ensures Fold(inputs + [i]) == React(Fold(inputs), i)
    ensures TicksOf(inputs + [i]) == TicksOf(inputs) + if i.OnTick? then [i.tick] else []
  {
    assert (inputs + [i])[..|inputs|] == inputs;
  }

  /** The buffer is always the 50 newest ticks. */
  lemma {:induction false} BufferIsRing(inputs: seq<Input>)
    ensures Fold(inputs).ticks == Ring(50, TicksOf(inputs))
  {
    if inputs != [] {
      BufferIsRing(inputs[..|inputs| - 1]);
    }
  }

  /** A held snapshot was taken at position `c`: the last lifecycle event so far, a cutoff. */
  ghost predicate TakenAt(inputs: seq<Input>, c: int) {
    && 0 <= c < |inputs| && inputs[c].OnLifecycle? && inputs[c].event.TradingCutoff?
    && (forall k :: c < k < |inputs| ==> inputs[k].OnTick?)
    && Fold(inputs).cutoffPrice == Newest(Ring(50, TicksOf(inputs[..c])), inputs[c].event.market.closesAt)
    && LifecycleOf(inputs) != [] && LifecycleOf(inputs)[|LifecycleOf(inputs)| - 1] == inputs[c].event
  }

  lemma {:induction false} SnapshotSource(inputs: seq<Input>)
    ensures Fold(inputs).cutoffPrice.Some? ==> exists c :: TakenAt(inputs, c)
  {
    if inputs != [] && Fold(inputs).cutoffPrice.Some? {
      var n := |inputs| - 1;
      var init := inputs[..n];
      match inputs[n]
      case OnTick(_) =>
        SnapshotSource(init);
        var c :| TakenAt(init, c);
        assert init[..c] == inputs[..c];
        assert TakenAt(inputs, c);
      case OnLifecycle(e) =>
        BufferIsRing(init);
        assert TakenAt(inputs, n);
    }
  }

  /** The snapshot consumed at a resolution never belongs to another market: over any interleaving of
      ticks with the lifecycle stream rotation emits, it is the price at the cutoff of that very market,
      and nothing but ticks came in between. */
  lemma SnapshotBelongsToMarket(inputs: seq<Input>, market: Market)
    requires Paired(LifecycleOf(inputs + [OnLifecycle(Lifecycle.Resolved(market))]))
    requires Fold(inputs).cutoffPrice.Some?
    ensures exists c :: TakenAt(inputs, c) && inputs[c].event.market.slug == market.slug
                        && PriceAtResolved(Fold(inputs), market)
                             == Newest(Ring(50, TicksOf(inputs[..c])), inputs[c].event.market.closesAt)
  {
    SnapshotSource(inputs);
    var c :| TakenAt(inputs, c);
    var all := inputs + [OnLifecycle(Lifecycle.Resolved(market))];
    assert all[..|all| - 1] == inputs;
    var stream := LifecycleOf(inputs);
    assert LifecycleOf(all) == stream + [Lifecycle.Resolved(market)];
    assert LifecycleOf(all)[|stream| - 1] == stream[|stream| - 1];
    assert LifecycleOf(all)[|stream|] == Lifecycle.Resolved(market);
  }

  /** Whatever path it takes, a price used at a resolution comes from the full tick history: it is the
      newest tick at or before the cutoff time it was taken for. */
  lemma ResolutionPriceIsHistorical(inputs: seq<Input>, market: Market)
    requires Paired(LifecycleOf(inputs + [OnLifecycle(Lifecycle.Resolved(market))]))
    requires PriceAtResolved(Fold(inputs), market).Some?
    ensures PriceAtResolved(Fold(inputs), market) == Newest(TicksOf(inputs), market.closesAt)
            || exists c :: TakenAt(inputs, c) && inputs[c].event.market.slug == market.slug
                 && PriceAtResolved(Fold(inputs), market) == Newest(TicksOf(inputs[..c]), inputs[c].event.market.closesAt)
  {
    if Fold(inputs).cutoffPrice.Some? {
      SnapshotBelongsToMarket(inputs, market);
      var c :| TakenAt(inputs, c) && inputs[c].event.market.slug == market.slug;
      BufferRefinesHistory(TicksOf(inputs[..c]), 50, inputs[c].event.market.closesAt);
      assert TakenAt(inputs, c);
    } else {
      BufferIsRing(inputs);
      BufferRefinesHistory(TicksOf(inputs), 50, market.closesAt);
    }
  }
}
