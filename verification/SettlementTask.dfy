/** The settlement task: ticks and lifecycle events in, every position of a resolved market settled. */
module SettlementTask {
  import opened Types
  import opened Store
  import opened Settling
  import opened Protocol
  import opened SharedWorld
  import ResolutionPrices
  import MarketRotation

  /** How the ports answer per position: does the store take the marker, and what does redeeming give. */
  datatype Answers = Answers(marked: nat -> bool, redeemed: nat -> Option<Receipt>)

  /** The steps one position of the snapshot goes through. */
  function StepsFor(pid: nat, row: Row, winner: string, a: Answers): seq<Event> {
    if !a.marked(pid) then [Mark(pid, false)]
    else if !Wins(row, winner) then [Mark(pid, true), AnnounceLost]
    else match a.redeemed(pid)
         case None => [Mark(pid, true), RedeemErr]
         case Some(r) =>
           [Mark(pid, true), AnnounceWon(r)] + if r.transactionId.Some? then [Event.SendPending] else []
  }

  /** What is announced about one position of the snapshot. */
  function NewsFor(pid: nat, row: Row, winner: string, a: Answers): seq<SettledEvent> {
    if !a.marked(pid) then []
    else if !Wins(row, winner) then [LostEvent(pid, row)]
    else match a.redeemed(pid)
         case None => []
         case Some(r) => [WonEvent(pid, row, r.payout)]
  }

  /** What is handed to the redeem poller about one position of the snapshot. */
  function HandedFor(pid: nat, row: Row, winner: string, a: Answers): seq<Redemption> {
    if !a.marked(pid) || !Wins(row, winner) then []
    else match a.redeemed(pid)
         case None => []
         case Some(r) => if r.transactionId.Some? then [Redemption(pid, r.payout)] else []
  }

  function StepsOver(order: seq<nat>, snapshot: Rows, winner: string, a: Answers): seq<Event>
    requires forall p :: p in order ==> p in snapshot
  {
    if order == [] then []
    else
      var pid := order[|order| - 1];
      StepsOver(order[..|order| - 1], snapshot, winner, a) + StepsFor(pid, snapshot[pid], winner, a)
  }

  function NewsOver(order: seq<nat>, snapshot: Rows, winner: string, a: Answers): seq<SettledEvent>
    requires forall p :: p in order ==> p in snapshot
  {
    if order == [] then []
    else
      var pid := order[|order| - 1];
      NewsOver(order[..|order| - 1], snapshot, winner, a) + NewsFor(pid, snapshot[pid], winner, a)
  }

  function HandedOver(order: seq<nat>, snapshot: Rows, winner: string, a: Answers): seq<Redemption>
    requires forall p :: p in order ==> p in snapshot
  {
    if order == [] then []
    else
      var pid := order[|order| - 1];
      HandedOver(order[..|order| - 1], snapshot, winner, a) + HandedFor(pid, snapshot[pid], winner, a)
  }

  // ─── The same in the source's terms ─────────────────────────────────────────

  /** Price × shares: the price of the fill, or the limit where no fill price is stored. */
  ghost predicate CostIs(row: Row, cost: real) {
    cost == (if row.avgPrice.Some? then row.avgPrice.value else row.limitPrice) * row.shares
  }

  /** A row whose outcome is the winner's name, ASCII case aside, wins its payout less its cost, if it
      could be redeemed; any other loses its cost. */
  ghost predicate NewsOf(v: SettledEvent, row: Row, winner: string, redeemed: Option<Receipt>) {
    && CostIs(row, v.cost)
    && if SameIgnoringCase(row.outcomeName, winner)
       then redeemed.Some? && v.status.Won? && v.realizedPnl == redeemed.value.payout - v.cost
       else v.status.Lost? && v.realizedPnl == -v.cost
  }

  /** One announcement, and the right one, for each position marked, except winners not redeemed. */
  ghost predicate Announces(news: seq<SettledEvent>, pids: set<nat>, snapshot: Rows, winner: string, a: Answers) {
    && (forall i, j :: 0 <= i < j < |news| ==> news[i].pid != news[j].pid)
    && (forall v :: v in news ==>
          v.pid in pids && v.pid in snapshot && a.marked(v.pid) && NewsOf(v, snapshot[v.pid], winner, a.redeemed(v.pid)))
    && (forall p :: p in pids && p in snapshot && ToldIf(p, snapshot[p], winner, a) ==> exists v :: v in news && v.pid == p)
  }

  ghost predicate ToldIf(p: nat, row: Row, winner: string, a: Answers) {
    a.marked(p) && (a.redeemed(p).Some? || !SameIgnoringCase(row.outcomeName, winner))
  }

  ghost predicate HandedIf(p: nat, row: Row, winner: string, a: Answers) {
    && a.marked(p) && SameIgnoringCase(row.outcomeName, winner)
    && a.redeemed(p).Some? && a.redeemed(p).value.transactionId.Some?
  }

  /** One redemption handed over, for its payout, for each winner redeemed with a transaction id. */
  ghost predicate HandsOver(handed: seq<Redemption>, pids: set<nat>, snapshot: Rows, winner: string, a: Answers) {
    && (forall i, j :: 0 <= i < j < |handed| ==> handed[i].pid != handed[j].pid)
    && (forall r :: r in handed ==>
          r.pid in pids && r.pid in snapshot && HandedIf(r.pid, snapshot[r.pid], winner, a) && r.payout == a.redeemed(r.pid).value.payout)
    && (forall p :: p in pids && p in snapshot && HandedIf(p, snapshot[p], winner, a) ==> exists r :: r in handed && r.pid == p)
  }

  lemma OneAnnounced(news: seq<SettledEvent>, pids: set<nat>, snapshot: Rows, winner: string, a: Answers, pid: nat)
    requires Announces(news, pids, snapshot, winner, a) && pid !in pids && pid in snapshot
    ensures Announces(news + NewsFor(pid, snapshot[pid], winner, a), pids + {pid}, snapshot, winner, a)
  {
    var more := news + NewsFor(pid, snapshot[pid], winner, a);
    WinsIff(snapshot[pid], winner);
    forall v | v in more ensures v in news || NewsFor(pid, snapshot[pid], winner, a) == [v] {
    }
    forall p | p in pids + {pid} && p in snapshot && ToldIf(p, snapshot[p], winner, a)
      ensures exists v :: v in more && v.pid == p
    {
      if p == pid {
        assert more[|news|].pid == pid;
      } else {
        var v :| v in news && v.pid == p;
        assert v in more;
      }
    }
  }

  lemma OneHanded(handed: seq<Redemption>, pids: set<nat>, snapshot: Rows, winner: string, a: Answers, pid: nat)
    requires HandsOver(handed, pids, snapshot, winner, a) && pid !in pids && pid in snapshot
    ensures HandsOver(handed + HandedFor(pid, snapshot[pid], winner, a), pids + {pid}, snapshot, winner, a)
  {
    var more := handed + HandedFor(pid, snapshot[pid], winner, a);
    WinsIff(snapshot[pid], winner);
    forall r | r in more ensures r in handed || HandedFor(pid, snapshot[pid], winner, a) == [r] {
    }
    forall p | p in pids + {pid} && p in snapshot && HandedIf(p, snapshot[p], winner, a)
      ensures exists r :: r in more && r.pid == p
    {
      if p == pid {
        assert more[|handed|].pid == pid;
      } else {
        var r :| r in handed && r.pid == p;
        assert r in more;
      }
    }
  }

  lemma {:induction false} AllAnnounced(order: seq<nat>, pids: set<nat>, snapshot: Rows, winner: string, a: Answers)
    requires Enumerates(order, pids) && pids <= snapshot.Keys
    ensures Announces(NewsOver(order, snapshot, winner, a), pids, snapshot, winner, a)
    ensures HandsOver(HandedOver(order, snapshot, winner, a), pids, snapshot, winner, a)
    decreases |order|
  {
    if order == [] {
      assert pids == {};
    } else {
      var n := |order| - 1;
      var pid, init := order[n], order[..n];
      assert pid in order;
      assert Enumerates(init, pids - {pid}) by {
        forall p: nat ensures p in init <==> p in pids - {pid} {
          if p in pids - {pid} {
            var i :| 0 <= i <= n && order[i] == p;
            assert init[i] == p;
          }
          if p in init {
            var i :| 0 <= i < n && init[i] == p;
            assert order[i] == p && p in order;
          }
        }
      }
      AllAnnounced(init, pids - {pid}, snapshot, winner, a);
      OneAnnounced(NewsOver(init, snapshot, winner, a), pids - {pid}, snapshot, winner, a, pid);
      OneHanded(HandedOver(init, snapshot, winner, a), pids - {pid}, snapshot, winner, a, pid);
      assert pids - {pid} + {pid} == pids;
    }
  }

  /** When the store takes every marker and every redeem call is answered, every row of the snapshot is
      announced, as Won exactly if its outcome is the winner's name, ASCII case aside. */
  lemma EveryRowAnnounced(news: seq<SettledEvent>, snapshot: Rows, winner: string, a: Answers, pid: nat)
    requires Announces(news, snapshot.Keys, snapshot, winner, a) && pid in snapshot
    requires forall p :: p in snapshot ==> a.marked(p) && a.redeemed(p).Some?
    ensures exists v :: v in news && v.pid == pid
                        && (if SameIgnoringCase(snapshot[pid].outcomeName, winner) then v.status.Won? else v.status.Lost?)
  {
    assert ToldIf(pid, snapshot[pid], winner, a);
    var v :| v in news && v.pid == pid;
  }

  ghost predicate Ahead(positions: Rows, order: seq<nat>, rest: Rows) {
    && rest.Keys <= positions.Keys && Enumerates(order, positions.Keys - rest.Keys)
    && forall p :: p in rest ==> rest[p] == positions[p]
  }

  lemma StillAhead(positions: Rows, order: seq<nat>, rest: Rows, pid: nat)
    requires Ahead(positions, order, rest) && pid in rest
    ensures Ahead(positions, order + [pid], rest - {pid}) && pid !in positions.Keys - rest.Keys
    ensures rest[pid] == positions[pid]
  {
    assert positions.Keys - (rest - {pid}).Keys == (positions.Keys - rest.Keys) + {pid};
    assert forall p: nat :: p in order + [pid] <==> p in order || p == pid;
  }

  lemma OneFewer(positions: Rows, order: seq<nat>, rest: Rows, winner: string, a: Answers, pid: nat,
                 was: seq<Event>, news: seq<SettledEvent>, handed: seq<Redemption>)
    requires Ahead(positions, order, rest) && pid in rest
    ensures Ahead(positions, order + [pid], rest - {pid})
    ensures was + StepsOver(order + [pid], positions, winner, a)
              == (was + StepsOver(order, positions, winner, a)) + StepsFor(pid, rest[pid], winner, a)
    ensures news + NewsOver(order + [pid], positions, winner, a)
              == (news + NewsOver(order, positions, winner, a)) + NewsFor(pid, rest[pid], winner, a)
    ensures handed + HandedOver(order + [pid], positions, winner, a)
              == (handed + HandedOver(order, positions, winner, a)) + HandedFor(pid, rest[pid], winner, a)
  {
    StillAhead(positions, order, rest, pid);
    assert (order + [pid])[..|order|] == order;
  }

  /** The snapshot is exactly the market's filled and settling rows, as they are after whatever the
      others did while the call was under way; it is empty when no call is made or it fails. */
  ghost predicate TakenFrom(s: System, slug: string, taken: bool, others: seq<Event>, snapshot: Rows) {
    && Meanwhile(Settlement, s, others)
    && (!taken ==> snapshot == map[])
    && (taken ==> OfMarket(snapshot, After(s, others).db.rows, slug))
  }

  ghost predicate OfMarket(snapshot: Rows, rows: Rows, slug: string) {
    && (forall p :: p in snapshot <==>
          p in rows && rows[p].marketSlug == slug && (rows[p].status.Filled? || rows[p].status.Settling?))
    && (forall p :: p in snapshot ==> snapshot[p] == rows[p])
  }

  lemma PickedIs(rows: Rows, slug: string)
    ensures OfMarket(ToSettle(rows, slug), rows, slug)
  {
  }

  /** The catalog's verdict, or else the side the price is on, if there are a strike and a price. */
  ghost predicate Decides(market: Market, price: Option<real>, winner: Option<string>) {
    if market.resolvedOutcome.Some? then winner == market.resolvedOutcome
    else if market.strike.None? || price.None? then winner.None?
    else winner == Some(if price.value > market.strike.value then "Up" else "Down")
  }

  lemma DecidesWinner(market: Market, price: Option<real>)
    ensures Decides(market, price, WinningOutcomeName(market, price))
  {
    WinnerIs(market, price);
  }

  class Settler {
    const world: World
    var ticks: seq<Tick>
    var cutoffPrice: Option<real>
    ghost var inputs: seq<ResolutionPrices.Input>

    ghost predicate Valid() reads this, world, world.store {
      world.Valid() && world.sys.settle.phase.SettleIdle?
    }

    /** The task's own memory: the tick buffer and the cutoff snapshot. */
    function Memory(): ResolutionPrices.Memory reads this {
      ResolutionPrices.Memory(ticks, cutoffPrice)
    }

    /** The memory is what the inputs so far leave. */
    ghost predicate Remembers() reads this {
      Memory() == ResolutionPrices.Fold(inputs)
    }

    constructor (world: World)
      requires world.Valid() && world.sys.settle.phase.SettleIdle?
      ensures Valid() && Remembers() && this.world == world && inputs == []
    {
      this.world := world;
      ticks, cutoffPrice, inputs := [], None, [];
    }

    ghost method Note(i: ResolutionPrices.Input)
      requires Memory() == ResolutionPrices.React(ResolutionPrices.Fold(inputs), i)
      modifies this`inputs
      ensures Remembers() && inputs == old(inputs) + [i]
    {
      ResolutionPrices.FoldSnoc(inputs, i);
      inputs := inputs + [i];
    }

    /** The buffer holds the 50 newest of all the ticks there have been. */
    method OnTick(t: Tick)
      requires Remembers()
      modifies this`ticks, this`inputs
      ensures Remembers() && inputs == old(inputs) + [ResolutionPrices.OnTick(t)]
      ensures var all := ResolutionPrices.TicksOf(old(inputs)) + [t];
              ticks == if |all| <= 50 then all else all[|all| - 50..]
    {
      if |ticks| == ResolutionPrices.TICK_CACHE {
        ticks := ticks[1..];
      }
      ticks := ticks + [t];
      ResolutionPrices.FoldSnoc(inputs, ResolutionPrices.OnTick(t));
      Note(ResolutionPrices.OnTick(t));
      ResolutionPrices.BufferIsRing(inputs);
    }

    /** The snapshot is the newest price at or before the market's close among those 50 ticks. */
    method OnCutoff(market: Market)
      requires Remembers()
      modifies this`cutoffPrice, this`inputs
      ensures Remembers()
      ensures inputs == old(inputs) + [ResolutionPrices.OnLifecycle(MarketRotation.TradingCutoff(market))]
      ensures cutoffPrice == ResolutionPrices.Newest(
                               ResolutionPrices.Ring(50, ResolutionPrices.TicksOf(old(inputs))),
                               market.closesAt)
    {
      ResolutionPrices.BufferIsRing(inputs);
      cutoffPrice := ResolutionPrices.ResolutionPrice(ticks, market.closesAt);
      Note(ResolutionPrices.OnLifecycle(MarketRotation.TradingCutoff(market)));
    }

    /** The snapshot is used up, then every filled or settling position of the market is gone through,
        as the store has them once the other tasks have done `others`. */
    method OnResolved(market: Market, storeUp: bool, a: Answers)
      returns (winner: Option<string>, ghost others: seq<Event>, ghost snapshot: Rows, ghost order: seq<nat>)
      requires Valid() && Remembers()
      modifies this`cutoffPrice, this`inputs, world, world.store
      ensures Valid() && Remembers()
      ensures inputs == old(inputs) + [ResolutionPrices.OnLifecycle(MarketRotation.Resolved(market))]
      ensures Decides(market, ResolutionPrices.PriceAtResolved(old(Memory()), market), winner)
      ensures TakenFrom(old(world.sys), market.slug, winner.Some? && storeUp, others, snapshot)
      ensures Enumerates(order, snapshot.Keys)
      ensures Own(Settlement, world.trace) == old(Own(Settlement, world.trace)) + WholeSteps(market.slug, winner, storeUp, order, snapshot, a)
      ensures Told(old(world.settled), world.settled, old(world.pending), world.pending, winner, storeUp, snapshot, a)
    {
      var price := cutoffPrice;
      cutoffPrice := None;
      Note(ResolutionPrices.OnLifecycle(MarketRotation.Resolved(market)));
      if price.None? {
        price := ResolutionPrices.ResolutionPrice(ticks, market.closesAt);
      }
      winner, others, snapshot, order := SettleMarketPositions(market, price, storeUp, a);
    }

    /** The steps of this task: none without a winner or without the store. */
    ghost function WholeSteps(slug: string, winner: Option<string>, storeUp: bool, order: seq<nat>, snapshot: Rows, a: Answers): seq<Event>
      requires forall p :: p in order ==> p in snapshot
    {
      if winner.None? || !storeUp then []
      else [BeginSettle(slug, winner.value)] + StepsOver(order, snapshot, winner.value, a) + [EndSettle]
    }

    /** What the queues gained: the right announcement and hand-over for every row of the snapshot. */
    ghost predicate Told(settled: seq<SettledEvent>, settledNow: seq<SettledEvent>, pending: seq<Redemption>, pendingNow: seq<Redemption>,
                         winner: Option<string>, storeUp: bool, snapshot: Rows, a: Answers) {
      && settled <= settledNow && pending <= pendingNow
      && if winner.None? || !storeUp then settledNow == settled && pendingNow == pending
         else
           && Announces(settledNow[|settled|..], snapshot.Keys, snapshot, winner.value, a)
           && HandsOver(pendingNow[|pending|..], snapshot.Keys, snapshot, winner.value, a)
    }

    method SettleMarketPositions(market: Market, price: Option<real>, storeUp: bool, a: Answers)
      returns (winner: Option<string>, ghost others: seq<Event>, ghost snapshot: Rows, ghost order: seq<nat>)
      requires Valid()
      modifies world, world.store
      ensures Valid() && Decides(market, price, winner)
      ensures TakenFrom(old(world.sys), market.slug, winner.Some? && storeUp, others, snapshot)
      ensures Enumerates(order, snapshot.Keys)
      ensures Own(Settlement, world.trace) == old(Own(Settlement, world.trace)) + WholeSteps(market.slug, winner, storeUp, order, snapshot, a)
      ensures Told(old(world.settled), world.settled, old(world.pending), world.pending, winner, storeUp, snapshot, a)
    {
      winner, others, snapshot, order := None, [], map[], [];
      if market.resolvedOutcome.Some? {
        winner := market.resolvedOutcome;
      } else if market.strike.Some? && price.Some? {
        winner := Some((if price.value > market.strike.value then Up else Down).AsStr());
      } else {
        return;
      }
      others := world.Pause(Settlement);
      if !storeUp {
        return;
      }
      PickedIs(world.store.rows, market.slug);
      snapshot, order := SettleAll(market.slug, winner.value, a);
    }

    method SettleAll(slug: string, winner: string, a: Answers) returns (ghost snapshot: Rows, ghost order: seq<nat>)
      requires Valid()
      modifies world, world.store
      ensures Valid() && snapshot == ToSettle(old(world.sys).db.rows, slug) && Enumerates(order, snapshot.Keys)
      ensures Own(Settlement, world.trace) == old(Own(Settlement, world.trace)) +
                ([BeginSettle(slug, winner)] + StepsOver(order, snapshot, winner, a) + [EndSettle])
      ensures Told(old(world.settled), world.settled, old(world.pending), world.pending, Some(winner), true, snapshot, a)
    {
      ghost var was, news, handed := Own(Settlement, world.trace), world.settled, world.pending;
      var positions := Begin(slug, winner);
      snapshot := positions;
      order := SettleEach(positions, winner, a);
      ghost var none: Rows := map[];
      assert positions.Keys - none.Keys == positions.Keys;
      End();
      Join(was, BeginSettle(slug, winner), StepsOver(order, positions, winner, a), EndSettle);
      AllAnnounced(order, positions.Keys, positions, winner, a);
      assert world.settled[|news|..] == NewsOver(order, positions, winner, a);
      assert world.pending[|handed|..] == HandedOver(order, positions, winner, a);
    }

    method End()
      requires world.Valid() && world.sys.settle.phase.SettleLoop? && world.sys.settle.phase.todo == map[]
      modifies world
      ensures Valid() && world.settled == old(world.settled) && world.pending == old(world.pending)
      ensures Own(Settlement, world.trace) == old(Own(Settlement, world.trace)) + [EndSettle]
    {
      world.Silently(EndSettle);
    }

    /** The filled and settling positions of the market, out of the open set. */
    method Begin(slug: string, winner: string) returns (positions: Rows)
      requires Valid()
      modifies world, world.store
      ensures world.Valid() && world.settled == old(world.settled) && world.pending == old(world.pending)
      ensures positions == ToSettle(old(world.sys).db.rows, slug)
      ensures world.sys.settle.phase == SettleLoop(positions, winner)
      ensures Own(Settlement, world.trace) == old(Own(Settlement, world.trace)) + [BeginSettle(slug, winner)]
    {
      var open := world.store.OpenPositions();
      positions := map pid | pid in open && Settleable(open[pid], slug) :: open[pid];
      assert positions == ToSettle(world.store.rows, slug);
      world.Silently(BeginSettle(slug, winner));
    }

    /** Part-way: `rest` is still ahead. */
    ghost predicate Settled(steps: seq<Event>, news: seq<SettledEvent>, handed: seq<Redemption>, winner: string, rest: Rows)
      reads this, world, world.store
    {
      && world.Valid() && world.sys.settle.phase == SettleLoop(rest, winner)
      && Own(Settlement, world.trace) == steps && world.settled == news && world.pending == handed
    }

    method SettleEach(positions: Rows, winner: string, a: Answers) returns (ghost order: seq<nat>)
      requires world.Valid() && world.sys.settle.phase == SettleLoop(positions, winner)
      modifies world, world.store
      ensures Ahead(positions, order, map[])
      ensures Settled(old(Own(Settlement, world.trace)) + StepsOver(order, positions, winner, a),
                      old(world.settled) + NewsOver(order, positions, winner, a),
                      old(world.pending) + HandedOver(order, positions, winner, a), winner, map[])
    {
      var rest := positions;
      order := [];
      ghost var was, news, handed := Own(Settlement, world.trace), world.settled, world.pending;
      while rest != map[]
        invariant Ahead(positions, order, rest)
        invariant Settled(was + StepsOver(order, positions, winner, a),
                          news + NewsOver(order, positions, winner, a),
                          handed + HandedOver(order, positions, winner, a), winner, rest)
        decreases rest.Keys
      {
        var pid :| pid in rest;
        OneFewer(positions, order, rest, winner, a, pid, was, news, handed);
        SettleNext(was + StepsOver(order, positions, winner, a), news + NewsOver(order, positions, winner, a),
                   handed + HandedOver(order, positions, winner, a), winner, a, rest, pid);
        rest := rest - {pid};
        order := order + [pid];
      }
    }

    method SettleNext(ghost steps: seq<Event>, ghost news: seq<SettledEvent>, ghost handed: seq<Redemption>,
                      winner: string, a: Answers, rest: Rows, pid: nat)
      requires Settled(steps, news, handed, winner, rest) && pid in rest
      modifies world, world.store
      ensures Settled(steps + StepsFor(pid, rest[pid], winner, a), news + NewsFor(pid, rest[pid], winner, a),
                      handed + HandedFor(pid, rest[pid], winner, a), winner, rest - {pid})
    {
      SettleOne(pid, rest[pid], winner, a);
    }

    /** One position: marked Settling before anything else, skipped when that fails. */
    method SettleOne(pid: nat, pos: Row, winner: string, a: Answers)
      requires world.Valid() && world.sys.settle.phase.SettleLoop?
      requires var p := world.sys.settle.phase; p.winner == winner && pid in p.todo && p.todo[pid] == pos
      modifies world, world.store
      ensures world.Valid()
      ensures world.sys.settle.phase == SettleLoop(old(world.sys).settle.phase.todo - {pid}, winner)
      ensures Own(Settlement, world.trace) == old(Own(Settlement, world.trace)) + StepsFor(pid, pos, winner, a)
      ensures world.settled == old(world.settled) + NewsFor(pid, pos, winner, a)
      ensures world.pending == old(world.pending) + HandedFor(pid, pos, winner, a)
    {
      world.GiveWay(Settlement);
      var ok := a.marked(pid);
      MarkOne(pid, ok);
      if ok {
        Announce(pid, pos, winner, a);
      }
    }

    /** A marked position is paid out or written off. */
    method Announce(pid: nat, pos: Row, winner: string, a: Answers)
      requires world.Valid() && world.sys.settle.phase.Marked? && a.marked(pid)
      requires var p := world.sys.settle.phase; p.pid == pid && p.row == pos && p.winner == winner
      modifies world, world.store
      ensures world.Valid()
      ensures world.sys.settle.phase == SettleLoop(old(world.sys).settle.phase.todo, winner)
      ensures Own(Settlement, world.trace) == old(Own(Settlement, world.trace)) + StepsFor(pid, pos, winner, a)[1..]
      ensures world.settled == old(world.settled) + NewsFor(pid, pos, winner, a)
      ensures world.pending == old(world.pending) + HandedFor(pid, pos, winner, a)
    {
      var entry := if pos.avgPrice.Some? then pos.avgPrice.value else pos.limitPrice;
      var cost := entry * pos.shares;
      if Lower(pos.outcomeName) == Lower(winner) {
        Redeem(pid, pos, cost, winner, a);
      } else {
        WriteOff(pid, pos, cost, winner);
      }
    }

    method WriteOff(pid: nat, pos: Row, cost: real, winner: string)
      requires world.Valid() && world.sys.settle.phase.Marked? && cost == CostOf(pos) && !Wins(pos, winner)
      requires var p := world.sys.settle.phase; p.pid == pid && p.row == pos && p.winner == winner
      modifies world
      ensures world.Valid()
      ensures world.sys.settle.phase == SettleLoop(old(world.sys).settle.phase.todo, winner)
      ensures Own(Settlement, world.trace) == old(Own(Settlement, world.trace)) + [AnnounceLost]
      ensures world.settled == old(world.settled) + [LostEvent(pid, pos)] && world.pending == old(world.pending)
    {
      world.SendSettled(SettledEvent(pid, PositionStatus.Lost, -cost, cost), AnnounceLost);
    }

    method MarkOne(pid: nat, ok: bool)
      requires world.Valid() && world.sys.settle.phase.SettleLoop? && pid in world.sys.settle.phase.todo
      modifies world, world.store
      ensures world.Valid() && world.settled == old(world.settled) && world.pending == old(world.pending)
      ensures var p := old(world.sys).settle.phase;
              world.sys.settle.phase == if ok then Marked(pid, p.todo[pid], p.todo - {pid}, p.winner)
                                        else SettleLoop(p.todo - {pid}, p.winner)
      ensures Own(Settlement, world.trace) == old(Own(Settlement, world.trace)) + [Mark(pid, ok)]
    {
      world.UpdatePosition(pid, SetSettling, ok, Mark(pid, ok));
      world.GiveWay(Settlement);
    }

    /** A winner is redeemed, announced, and handed to the redeem poller if a transaction came back. */
    method Redeem(pid: nat, pos: Row, cost: real, winner: string, a: Answers)
      requires world.Valid() && world.sys.settle.phase.Marked? && cost == CostOf(pos) && Wins(pos, winner)
      requires var p := world.sys.settle.phase; p.pid == pid && p.row == pos && p.winner == winner
      modifies world, world.store
      ensures world.Valid()
      ensures world.sys.settle.phase == SettleLoop(old(world.sys).settle.phase.todo, winner)
      ensures Own(Settlement, world.trace) == old(Own(Settlement, world.trace)) +
                match a.redeemed(pid)
                case None => [RedeemErr]
                case Some(r) => [AnnounceWon(r)] + if r.transactionId.Some? then [Event.SendPending] else []
      ensures world.settled == old(world.settled) +
                match a.redeemed(pid) case None => [] case Some(r) => [WonEvent(pid, pos, r.payout)]
      ensures world.pending == old(world.pending) +
                match a.redeemed(pid)
                case None => []
                case Some(r) => if r.transactionId.Some? then [Redemption(pid, r.payout)] else []
    {
      world.GiveWay(Settlement);
      match a.redeemed(pid) {
        case None =>
          world.Silently(RedeemErr);
        case Some(receipt) =>
          world.SendSettled(SettledEvent(pid, PositionStatus.Won, receipt.payout - cost, cost), AnnounceWon(receipt));
          if receipt.transactionId.Some? {
            Queue(pid, receipt.payout);
          }
      }
    }

    method Queue(pid: nat, payout: real)
      requires world.Valid() && world.sys.settle.phase.Announcing?
      requires world.sys.settle.phase.pid == pid && world.sys.settle.phase.payout == payout
      modifies world, world.store
      ensures world.Valid() && world.settled == old(world.settled)
      ensures world.pending == old(world.pending) + [Redemption(pid, payout)]
      ensures world.sys.settle.phase == SettleLoop(old(world.sys).settle.phase.todo, old(world.sys).settle.phase.winner)
      ensures Own(Settlement, world.trace) == old(Own(Settlement, world.trace)) + [Event.SendPending]
    {
      world.GiveWay(Settlement);
      world.SendPending(Redemption(pid, payout));
    }
  }
}
