/** Money accounting over whole runs: the bankroll's three totals against what happened to positions. */
module Money {
  import opened Types
  import opened State
  import opened Store
  import opened Reals
  import opened Sums
  import opened Bankroll
  import opened Persistence
  import opened Settling
  import opened Protocol
  import opened OrderSafety
  import opened SettleSafety

  // ─── What the logs add up to ────────────────────────────────────────────────

  function FillTotal(log: seq<OrderUpdate>): real {
    if log == [] then 0.0
    else
      var u := log[|log| - 1];
      FillTotal(log[..|log| - 1]) + (if u.OrderFilled? then FillInfo(u.avgPrice, u.sizeMatched).Cost() else 0.0)
  }

  function CostTotal(log: seq<SettledEvent>): real {
    if log == [] then 0.0 else CostTotal(log[..|log| - 1]) + log[|log| - 1].cost
  }

  function PnlTotal(log: seq<SettledEvent>): real {
    if log == [] then 0.0 else PnlTotal(log[..|log| - 1]) + log[|log| - 1].realizedPnl
  }

  function PayoutTotal(log: seq<Redemption>): real {
    if log == [] then 0.0 else PayoutTotal(log[..|log| - 1]) + log[|log| - 1].payout
  }

  // ─── The account is a function of what was consumed ─────────────────────────

  /** No broadcast reaching the bankroll is skipped. */
  predicate Lossless(e: Event) {
    !e.LagBankOrders? && !e.LagBankSettled?
  }

  ghost predicate BankOk(b: BankState, bus: Bus, initial: real) {
    && b.orders <= |bus.orders| && b.settled <= |bus.settled| && b.redeemed <= |bus.redeemed|
    && b.account == Account(
         initial - FillTotal(bus.orders[..b.orders]) + PayoutTotal(bus.redeemed[..b.redeemed]),
         FillTotal(bus.orders[..b.orders]) - CostTotal(bus.settled[..b.settled]),
         CostTotal(bus.settled[..b.settled]) + PnlTotal(bus.settled[..b.settled])
           - PayoutTotal(bus.redeemed[..b.redeemed]))
  }

  lemma BankStep(b: BankState, bus: Bus, e: Event, initial: real)
    requires BankOk(b, bus, initial) && BankEnabled(b, bus, e) && Lossless(e)
    ensures BankOk(BankNext(b, bus, e), bus, initial)
  {
    match e
    case BankOrder => assert bus.orders[..b.orders + 1][..b.orders] == bus.orders[..b.orders];
    case BankSettlement => assert bus.settled[..b.settled + 1][..b.settled] == bus.settled[..b.settled];
    case BankRedemption => assert bus.redeemed[..b.redeemed + 1][..b.redeemed] == bus.redeemed[..b.redeemed];
  }

  lemma BankFrame(b: BankState, bus: Bus, more: Bus, initial: real)
    requires BankOk(b, bus, initial)
    requires bus.orders <= more.orders && bus.settled <= more.settled && bus.redeemed <= more.redeemed
    ensures BankOk(b, more, initial)
  {
    assert more.orders[..b.orders] == bus.orders[..b.orders];
    assert more.settled[..b.settled] == bus.settled[..b.settled];
    assert more.redeemed[..b.redeemed] == bus.redeemed[..b.redeemed];
  }

  ghost predicate LosslessRun(events: seq<Event>) {
    forall e :: e in events ==> Lossless(e)
  }

  lemma {:induction false} BankRun(s: System, events: seq<Event>, initial: real)
    requires BankOk(s.bank, s.bus, initial) && Run(s, events) && LosslessRun(events)
    ensures BankOk(After(s, events).bank, After(s, events).bus, initial)
    decreases |events|
  {
    if events != [] {
      var e := events[0];
      BankRunStep(s, e, initial);
      assert LosslessRun(events[1..]);
      BankRun(Next(s, e), events[1..], initial);
    }
  }

  lemma BankRunStep(s: System, e: Event, initial: real)
    requires BankOk(s.bank, s.bus, initial) && Enabled(s, e) && Lossless(e)
    ensures BankOk(Next(s, e).bank, Next(s, e).bus, initial)
  {
    if Owner(e).Banker? {
      BankStep(s.bank, s.bus, e, initial);
    } else {
      BusGrows(s, e);
      assert Next(s, e).bank == s.bank;
      BankFrame(s.bank, s.bus, Next(s, e).bus, initial);
    }
  }

  /** In every state of every lossless run, the three totals add up to the starting bankroll plus the
      realized PnL consumed so far, in whatever order the three streams were drained. */
  lemma TotalIsStartPlusPnl(s: System, events: seq<Event>)
    requires Init(s) && Run(s, events) && LosslessRun(events)
    ensures var b := After(s, events).bank;
            && b.settled <= |After(s, events).bus.settled|
            && b.account.Total() == s.bank.account.bankroll + PnlTotal(After(s, events).bus.settled[..b.settled])
  {
    BankRun(s, events, s.bank.account.bankroll);
  }

  // ─── Totals per position ────────────────────────────────────────────────────

  datatype FillInfo = FillInfo(avgPrice: real, size: real)
  {
    function Cost(): real {
      avgPrice * size
    }

    /** Price × (size filled − shares ordered): what the fill put in beyond what a settlement takes off. */
    function Short(shares: real): real {
      avgPrice * (size - shares)
    }
  }

  /** The fill each position got. */
  function Fills(log: seq<OrderUpdate>): map<nat, FillInfo> {
    if log == [] then map[]
    else
      var u := log[|log| - 1];
      var before := Fills(log[..|log| - 1]);
      if u.OrderFilled? then before[u.pid := FillInfo(u.avgPrice, u.sizeMatched)] else before
  }

  ghost function FillCosts(log: seq<OrderUpdate>): map<nat, real> {
    map p | p in Fills(log) :: Fills(log)[p].Cost()
  }

  lemma {:induction false} FillsAreFinished(log: seq<OrderUpdate>)
    ensures Fills(log).Keys <= Finished(log)
  {
    if log != [] {
      var n := |log| - 1;
      FillsAreFinished(log[..n]);
      assert log == log[..n] + [log[n]];
      FinishedSnoc(log[..n], log[n]);
    }
  }

  lemma FillsSnoc(log: seq<OrderUpdate>, u: OrderUpdate)
    ensures Fills(log + [u]) ==
              if u.OrderFilled? then Fills(log)[u.pid := FillInfo(u.avgPrice, u.sizeMatched)] else Fills(log)
  {
    assert (log + [u])[..|log|] == log;
  }

  lemma {:induction false} FillTotalIsSum(log: seq<OrderUpdate>)
    requires OneTerminal(log)
    ensures FillTotal(log) == MapSum(FillCosts(log))
  {
    if log == [] {
      assert FillCosts(log) == map[];
    } else {
      var n := |log| - 1;
      var u := log[n];
      FillTotalIsSum(log[..n]);
      assert log == log[..n] + [u];
      FillsSnoc(log[..n], u);
      if u.OrderFilled? {
        NotYetFinished(log, n);
        FillsAreFinished(log[..n]);
        var cost := FillInfo(u.avgPrice, u.sizeMatched).Cost();
        assert Fills(log) == Fills(log[..n])[u.pid := FillInfo(u.avgPrice, u.sizeMatched)];
        assert FillCosts(log) == FillCosts(log[..n])[u.pid := cost];
        MapSumInsert(FillCosts(log[..n]), u.pid, cost);
      } else {
        assert FillCosts(log) == FillCosts(log[..n]);
      }
    }
  }

  lemma {:induction false} FillLookup(log: seq<OrderUpdate>, i: nat)
    requires OneTerminal(log) && i < |log| && log[i].OrderFilled?
    ensures log[i].pid in Fills(log) && Fills(log)[log[i].pid] == FillInfo(log[i].avgPrice, log[i].sizeMatched)
  {
    var n := |log| - 1;
    assert log == log[..n] + [log[n]];
    FillsSnoc(log[..n], log[n]);
    if i < n {
      FillLookup(log[..n], i);
    }
  }

  /** Settled cost per position. */
  function SettledCosts(log: seq<SettledEvent>): map<nat, real> {
    if log == [] then map[] else SettledCosts(log[..|log| - 1])[log[|log| - 1].pid := log[|log| - 1].cost]
  }

  lemma {:induction false} SettledCostIds(log: seq<SettledEvent>)
    ensures SettledCosts(log).Keys == SettledIds(log)
  {
    if log != [] {
      var n := |log| - 1;
      SettledCostIds(log[..n]);
      assert log == log[..n] + [log[n]];
      SettledSnoc(log[..n], log[n]);
    }
  }

  lemma {:induction false} SettledCostSum(log: seq<SettledEvent>)
    requires SettledOnce(log)
    ensures CostTotal(log) == MapSum(SettledCosts(log))
  {
    if log != [] {
      var n := |log| - 1;
      SettledCostSum(log[..n]);
      SettledCostIds(log[..n]);
      SettledAhead(log, n);
      MapSumInsert(SettledCosts(log[..n]), log[n].pid, log[n].cost);
    }
  }

  lemma {:induction false} SettledCostAt(log: seq<SettledEvent>, e: SettledEvent)
    requires SettledOnce(log) && e in log
    ensures e.pid in SettledCosts(log) && SettledCosts(log)[e.pid] == e.cost
  {
    var n := |log| - 1;
    assert log == log[..n] + [log[n]];
    SettledAhead(log, n);
    if e != log[n] {
      SettledCostAt(log[..n], e);
      assert e.pid in SettledIds(log[..n]);
    }
  }

  lemma SettledCostsOk(log: seq<SettledEvent>)
    requires SettledOnce(log)
    ensures SettledCosts(log).Keys == SettledIds(log)
    ensures forall e :: e in log ==> e.pid in SettledCosts(log) && SettledCosts(log)[e.pid] == e.cost
    ensures CostTotal(log) == MapSum(SettledCosts(log))
  {
    SettledCostIds(log);
    SettledCostSum(log);
    forall e | e in log ensures e.pid in SettledCosts(log) && SettledCosts(log)[e.pid] == e.cost {
      SettledCostAt(log, e);
    }
  }

  /** Payout of each settled winner. */
  function WonPayouts(log: seq<SettledEvent>): map<nat, real> {
    if log == [] then map[]
    else
      var e := log[|log| - 1];
      var before := WonPayouts(log[..|log| - 1]);
      if e.status == PositionStatus.Won then before[e.pid := e.cost + e.realizedPnl] else before
  }

  /** A loss is the whole cost. */
  ghost predicate LossesAreWhole(log: seq<SettledEvent>) {
    forall e :: e in log && e.status != PositionStatus.Won ==> e.realizedPnl == -e.cost
  }

  lemma {:induction false} WonPayoutIds(log: seq<SettledEvent>)
    ensures WonPayouts(log).Keys <= SettledIds(log)
  {
    if log != [] {
      var n := |log| - 1;
      WonPayoutIds(log[..n]);
      assert log == log[..n] + [log[n]];
      SettledSnoc(log[..n], log[n]);
    }
  }

  lemma LossesPrefix(log: seq<SettledEvent>)
    requires log != [] && SettledOnce(log) && LossesAreWhole(log)
    ensures SettledOnce(log[..|log| - 1]) && LossesAreWhole(log[..|log| - 1])
    ensures var e := log[|log| - 1]; e.status == PositionStatus.Won || e.realizedPnl == -e.cost
    ensures log[|log| - 1].pid !in WonPayouts(log[..|log| - 1])
  {
    assert log[|log| - 1] in log;
    WonPayoutIds(log[..|log| - 1]);
    SettledAhead(log, |log| - 1);
  }

  lemma {:induction false} WonPayoutsSum(log: seq<SettledEvent>)
    requires SettledOnce(log) && LossesAreWhole(log)
    ensures CostTotal(log) + PnlTotal(log) == MapSum(WonPayouts(log))
  {
    if log != [] {
      var init, e := log[..|log| - 1], log[|log| - 1];
      LossesPrefix(log);
      WonPayoutsSum(init);
      if e.status == PositionStatus.Won {
        MapSumInsert(WonPayouts(init), e.pid, e.cost + e.realizedPnl);
      }
    }
  }

  /** A winner's entry is its payout. */
  lemma {:induction false} WonPayoutAt(log: seq<SettledEvent>, v: SettledEvent)
    requires SettledOnce(log) && v in log && v.status == PositionStatus.Won
    ensures v.pid in WonPayouts(log) && WonPayouts(log)[v.pid] == v.cost + v.realizedPnl
  {
    var n := |log| - 1;
    assert log == log[..n] + [log[n]];
    if v != log[n] {
      WonPayoutAt(log[..n], v);
      assert v.pid in SettledIds(log[..n]);
      SettledAhead(log, n);
    }
  }

  lemma WonPayoutsOk(log: seq<SettledEvent>)
    requires SettledOnce(log) && LossesAreWhole(log)
    ensures WonPayouts(log).Keys <= SettledIds(log)
    ensures forall r :: Owes(log, r) ==> r.pid in WonPayouts(log) && WonPayouts(log)[r.pid] == r.payout
    ensures CostTotal(log) + PnlTotal(log) == MapSum(WonPayouts(log))
  {
    WonPayoutIds(log);
    WonPayoutsSum(log);
    forall r | Owes(log, r) ensures r.pid in WonPayouts(log) && WonPayouts(log)[r.pid] == r.payout {
      var v :| v in log && v.pid == r.pid && v.status == PositionStatus.Won && v.cost + v.realizedPnl == r.payout;
      WonPayoutAt(log, v);
    }
  }

  function Payouts(log: seq<Redemption>): map<nat, real> {
    if log == [] then map[] else Payouts(log[..|log| - 1])[log[|log| - 1].pid := log[|log| - 1].payout]
  }

  lemma {:induction false} PayoutsOk(log: seq<Redemption>)
    requires Distinct(log)
    ensures Payouts(log).Keys == Ids(log)
    ensures forall p :: p in Payouts(log) ==> Redemption(p, Payouts(log)[p]) in log
    ensures PayoutTotal(log) == MapSum(Payouts(log))
  {
    if log != [] {
      var n := |log| - 1;
      PayoutsOk(log[..n]);
      assert log == log[..n] + [log[n]];
      IdsSnoc(log[..n], log[n]);
      IdsAhead(log, n);
      MapSumInsert(Payouts(log[..n]), log[n].pid, log[n].payout);
    }
  }

  // ─── Stored costs ───────────────────────────────────────────────────────────

  predicate HasCost(status: PositionStatus) {
    status.Filled? || status.Settling? || status.Won? || status.Lost? || status.Redeemed?
  }

  /** A filled row carries the price of its fill. */
  ghost predicate FillPriceOk(db: Db, orders: seq<OrderUpdate>) {
    forall p :: Fresh(db, p) && HasCost(db.rows[p].status) ==>
      p in Fills(orders) && db.rows[p].avgPrice == Some(Fills(orders)[p].avgPrice)
  }

  ghost predicate CostsOk(rows: Rows, log: seq<SettledEvent>) {
    LossesAreWhole(log) && forall e :: e in log ==> e.pid in rows && e.cost == CostOf(rows[e.pid])
  }

  ghost predicate MoneyInv(s: System) {
    FillPriceOk(s.db, s.bus.orders) && CostsOk(s.db.rows, s.bus.settled)
  }

  /** A write that is not a fill leaves prices and costs alone. */
  lemma CostRewritten(s: System, p: nat, w: PositionUpdate)
    requires MoneyInv(s) && !w.SetFilled?
    requires p in s.db.rows && HasCost(Apply(s.db.rows[p], w).status) ==> HasCost(s.db.rows[p].status)
    ensures var db := s.db.(rows := UpdateRows(s.db.rows, p, w));
            FillPriceOk(db, s.bus.orders) && CostsOk(db.rows, s.bus.settled)
  {
    var db := s.db.(rows := UpdateRows(s.db.rows, p, w));
    assert forall q :: q in db.rows ==> CostOf(db.rows[q]) == CostOf(s.db.rows[q]);
    assert forall q :: Fresh(db, q) <==> Fresh(s.db, q);
  }

  lemma InsertMoneyKeeps(s: System)
    requires DbOk(s.db) && MoneyInv(s) && Enabled(s, Insert(true))
    ensures MoneyInv(Next(s, Insert(true)))
  {
    var t := Next(s, Insert(true));
    assert s.db.lastId + 1 !in s.db.rows;
    assert forall q :: q in s.db.rows ==> t.db.rows[q] == s.db.rows[q];
  }

  lemma ExecMoneyKeeps(s: System, e: Event)
    requires Inv(s) && MoneyInv(s) && Enabled(s, e) && Owner(e).Executor?
    ensures MoneyInv(Next(s, e))
  {
    if e == Insert(true) {
      InsertMoneyKeeps(s);
    } else if e.ExecWrite? {
      RowInHand(s);
      ExecWriteMoneyKeeps(s, e.ok);
    } else {
      ExecQuietMoneyKeeps(s, e);
    }
  }

  lemma ExecWriteMoneyKeeps(s: System, ok: bool)
    requires MoneyInv(s) && Enabled(s, ExecWrite(ok)) && s.exec.phase.pid in s.db.rows
    ensures MoneyInv(Next(s, ExecWrite(ok)))
  {
    CostRewritten(s, s.exec.phase.pid,
      if s.exec.phase.Placed? then SetSubmitted(s.exec.phase.orderId) else SetRejected);
  }

  lemma ExecQuietMoneyKeeps(s: System, e: Event)
    requires MoneyInv(s) && Enabled(s, e) && Owner(e).Executor? && !e.ExecWrite? && e != Insert(true)
    ensures MoneyInv(Next(s, e))
  {
    if e.PlaceOk? {
      FillsSnoc(s.bus.orders, OrderSubmitted(e.orderId, s.exec.phase.pid));
    }
  }

  lemma PollMoneyKeeps(s: System, pid: nat, reply: Option<OrderUpdate>)
    requires Inv(s) && MoneyInv(s) && Enabled(s, PollOrder(pid, reply))
    ensures MoneyInv(Next(s, PollOrder(pid, reply)))
  {
    if reply.Some? {
      PolledIsUnfinished(s, pid);
      MessageMoneyKeeps(s, reply.value);
      AnswerMoves(s, pid, reply.value);
    }
  }

  lemma PolledIsUnfinished(s: System, pid: nat)
    requires Inv(s) && s.poll.phase.Polling? && pid in s.poll.phase.todo
    ensures pid !in Fills(s.bus.orders)
  {
    FillsAreFinished(s.bus.orders);
  }

  lemma AnswerMoves(s: System, pid: nat, u: OrderUpdate)
    requires Enabled(s, PollOrder(pid, Some(u)))
    ensures var t := Next(s, PollOrder(pid, Some(u)));
            t.db == s.db && t.bus == s.bus.(orders := s.bus.orders + [u])
  {
  }

  /** A first fill changes no position's entry but its own, and no stored cost. */
  lemma MessageMoneyKeeps(s: System, u: OrderUpdate)
    requires MoneyInv(s) && u.pid !in Fills(s.bus.orders)
    ensures FillPriceOk(s.db, s.bus.orders + [u])
  {
    FillsSnoc(s.bus.orders, u);
  }

  lemma TerminalMoneyWrite(s: System, w: PositionUpdate)
    requires Inv(s) && SettleInv(s) && MoneyInv(s) && s.persist.orders < |s.bus.orders|
    requires OrderWrite(s.bus.orders[s.persist.orders]) == Some(w)
    ensures var db := s.db.(rows := UpdateRows(s.db.rows, s.bus.orders[s.persist.orders].pid, w));
            FillPriceOk(db, s.bus.orders) && CostsOk(db.rows, s.bus.settled)
  {
    var u := s.bus.orders[s.persist.orders];
    TerminalWrite(s, w);
    if u.OrderFilled? {
      FillLookup(s.bus.orders, s.persist.orders);
      FillStored(s, u.pid, w);
    } else {
      CostRewritten(s, u.pid, w);
    }
  }

  lemma PersistOrderMoneyKeeps(s: System, ok: bool)
    requires MoneyInv(s) && Enabled(s, PersistOrder(ok))
    requires OrderWrite(s.bus.orders[s.persist.orders]).Some? ==>
               var u := s.bus.orders[s.persist.orders];
               var rows := UpdateRows(s.db.rows, u.pid, OrderWrite(u).value);
               FillPriceOk(s.db.(rows := rows), s.bus.orders) && CostsOk(rows, s.bus.settled)
    ensures MoneyInv(Next(s, PersistOrder(ok)))
  {
  }

  lemma FillStored(s: System, p: nat, w: PositionUpdate)
    requires SettleInv(s) && MoneyInv(s) && w.SetFilled? && Fresh(s.db, p) && s.db.rows[p].status == Submitted
    requires p in Fills(s.bus.orders) && Fills(s.bus.orders)[p].avgPrice == w.avgPrice
    ensures var db := s.db.(rows := UpdateRows(s.db.rows, p, w));
            FillPriceOk(db, s.bus.orders) && CostsOk(db.rows, s.bus.settled)
  {
    var db := s.db.(rows := UpdateRows(s.db.rows, p, w));
    assert forall q :: q in db.rows && q != p ==> db.rows[q] == s.db.rows[q];
    assert forall e :: e in s.bus.settled ==> e.pid != p;
  }

  lemma PersistMoneyKeeps(s: System, e: Event)
    requires Inv(s) && SettleInv(s) && MoneyInv(s) && Enabled(s, e) && Owner(e).Persister?
    ensures MoneyInv(Next(s, e))
  {
    if e.PersistOrder? {
      OrderMoneyWrite(s);
      PersistOrderMoneyKeeps(s, e.ok);
    } else if e.PersistSettlement? {
      PersistSettlementMoneyKeeps(s, e.ok);
    } else {
      LagMoneyKeeps(s, e);
    }
  }

  lemma LagMoneyKeeps(s: System, e: Event)
    requires MoneyInv(s) && Enabled(s, e) && (e.LagPersistOrders? || e.LagPersistSettled?)
    ensures MoneyInv(Next(s, e))
  {
  }

  lemma OrderMoneyWrite(s: System)
    requires Inv(s) && SettleInv(s) && MoneyInv(s) && s.persist.orders < |s.bus.orders|
    ensures var u := s.bus.orders[s.persist.orders];
            OrderWrite(u).Some? ==>
              var rows := UpdateRows(s.db.rows, u.pid, OrderWrite(u).value);
              FillPriceOk(s.db.(rows := rows), s.bus.orders) && CostsOk(rows, s.bus.settled)
  {
    match OrderWrite(s.bus.orders[s.persist.orders])
    case Some(w) => TerminalMoneyWrite(s, w);
    case None =>
  }

  lemma PersistSettlementMoneyKeeps(s: System, ok: bool)
    requires SettleInv(s) && MoneyInv(s) && Enabled(s, PersistSettlement(ok))
    ensures MoneyInv(Next(s, PersistSettlement(ok)))
  {
    StoringSettlement(s);
    var ev := s.bus.settled[s.persist.settled];
    CostRewritten(s, ev.pid, SettledWrite(ev).value);
  }

  lemma AnnounceMoneyKeeps(s: System, e: Event)
    requires SettlePhaseOk(s.db.rows, s.settle.phase, s.bus) && MoneyInv(s) && Enabled(s, e) && (e.AnnounceLost? || e.AnnounceWon?)
    ensures MoneyInv(Next(s, e))
  {
    var p := s.settle.phase;
    var ev := if e.AnnounceLost? then LostEvent(p.pid, p.row) else WonEvent(p.pid, p.row, e.receipt.payout);
    SettledSnoc(s.bus.settled, ev);
    assert ev.cost == CostOf(s.db.rows[p.pid]);
  }

  lemma MarkMoneyKeeps(s: System, pid: nat, ok: bool)
    requires SettleInv(s) && MoneyInv(s) && Enabled(s, Mark(pid, ok))
    ensures MoneyInv(Next(s, Mark(pid, ok)))
  {
    CostRewritten(s, pid, SetSettling);
  }

  lemma SettleMoneyKeeps(s: System, e: Event)
    requires SettleInv(s) && MoneyInv(s) && Enabled(s, e) && Owner(e).Settlement?
    ensures MoneyInv(Next(s, e))
  {
    match e
    case Mark(pid, ok) => MarkMoneyKeeps(s, pid, ok);
    case AnnounceLost => AnnounceMoneyKeeps(s, e);
    case AnnounceWon(_) => AnnounceMoneyKeeps(s, e);
    case _ =>
  }

  lemma RedeemMoneyKeeps(s: System, e: Event)
    requires SettleInv(s) && MoneyInv(s) && Enabled(s, e) && Owner(e).Redeemer?
    ensures MoneyInv(Next(s, e))
  {
    match e
    case Confirm(pid, ok) =>
      InPending(s, pid);
      var ev :| ev in s.bus.settled && ev.pid == pid;
      CostRewritten(s, pid, SetRedeemed);
    case _ =>
  }

  lemma MoneyStepKeeps(s: System, e: Event)
    requires Inv(s) && SettleInv(s) && MoneyInv(s) && Enabled(s, e)
    ensures MoneyInv(Next(s, e))
  {
    match Owner(e)
    case Rotation =>
    case Executor => ExecMoneyKeeps(s, e);
    case Poller => if e.PollOrder? { PollMoneyKeeps(s, e.pid, e.reply); }
    case Persister => PersistMoneyKeeps(s, e);
    case Banker =>
    case Settlement => SettleMoneyKeeps(s, e);
    case Redeemer => RedeemMoneyKeeps(s, e);
  }

  lemma {:induction false} MoneyRunKeeps(s: System, events: seq<Event>)
    requires Inv(s) && SettleInv(s) && MoneyInv(s) && Run(s, events) && RunPicksNew(s, events)
    ensures MoneyInv(After(s, events))
    decreases |events|
  {
    if events != [] {
      StepKeeps(s, events[0]);
      SettleStepKeeps(s, events[0]);
      MoneyStepKeeps(s, events[0]);
      MoneyRunKeeps(Next(s, events[0]), events[1..]);
    }
  }

  // ─── What the totals mean once the queues have drained ──────────────────────

  predicate Drained(s: System) {
    s.bank.orders == |s.bus.orders| && s.bank.settled == |s.bus.settled| && s.bank.redeemed == |s.bus.redeemed|
  }

  /** Cost of each position filled and not settled. */
  ghost function OpenCosts(s: System): map<nat, real> {
    FillCosts(s.bus.orders) - SettledIds(s.bus.settled)
  }

  /** Payout of each winner settled and not confirmed redeemed. */
  ghost function Outstanding(s: System): map<nat, real> {
    WonPayouts(s.bus.settled) - Ids(s.bus.redeemed)
  }

  /** What a settled position's fill cost beyond what settlement took off: price × (size filled − shares ordered). */
  ghost function Shortfalls(s: System): map<nat, real> {
    map p | p in SettledIds(s.bus.settled) && p in Fills(s.bus.orders) && p in s.db.rows
      :: Fills(s.bus.orders)[p].Short(s.db.rows[p].shares)
  }

  /** Settled costs of positions an earlier session had filled, and of this session's. */
  ghost function CarriedCosts(s: System): map<nat, real> {
    map p | p in SettledCosts(s.bus.settled) && p in s.db.start :: SettledCosts(s.bus.settled)[p]
  }

  ghost function FreshCosts(s: System): map<nat, real> {
    SettledCosts(s.bus.settled) - s.db.start.Keys
  }

  /** Every settled position of this session was filled, and settled at its fill price for the shares ordered. */
  lemma SettledWasFilled(s: System, e: SettledEvent)
    requires AnnouncedOk(s.db.rows, s.bus.settled, s.persist.persisted) && MoneyInv(s)
    requires e in s.bus.settled && e.pid !in s.db.start
    ensures e.pid in Fills(s.bus.orders) && e.pid in s.db.rows
    ensures e.cost == Fills(s.bus.orders)[e.pid].avgPrice * s.db.rows[e.pid].shares
  {
    var p := e.pid;
    assert p in s.db.rows && HasCost(s.db.rows[p].status);
    assert Fresh(s.db, p);
    assert s.db.rows[p].avgPrice == Some(Fills(s.bus.orders)[p].avgPrice);
  }

  lemma ShortfallOf(s: System, e: SettledEvent)
    requires SettledOnce(s.bus.settled) && AnnouncedOk(s.db.rows, s.bus.settled, s.persist.persisted) && MoneyInv(s)
    requires e in s.bus.settled && e.pid !in s.db.start
    ensures e.pid in FillCosts(s.bus.orders) && e.pid in SettledCosts(s.bus.settled) && e.pid in Shortfalls(s)
    ensures FillCosts(s.bus.orders)[e.pid] - SettledCosts(s.bus.settled)[e.pid] == Shortfalls(s)[e.pid]
  {
    SettledCostAt(s.bus.settled, e);
    SettledWasFilled(s, e);
    ShortfallAt(s, e.pid);
  }

  /** Nothing carried over is filled again: the poller only ever tracks this session's positions. */
  lemma FillsAreFresh(s: System)
    requires Inv(s)
    ensures FillCosts(s.bus.orders).Keys !! s.db.start.Keys
  {
    FillsAreFinished(s.bus.orders);
  }

  lemma SettledWereFilled(s: System)
    requires SettledOnce(s.bus.settled) && AnnouncedOk(s.db.rows, s.bus.settled, s.persist.persisted) && MoneyInv(s)
    requires FillCosts(s.bus.orders).Keys !! s.db.start.Keys
    ensures FreshCosts(s).Keys <= FillCosts(s.bus.orders).Keys
    ensures Excess(FillCosts(s.bus.orders), FreshCosts(s)) == Shortfalls(s)
  {
    var fills, costs, short := FillCosts(s.bus.orders), FreshCosts(s), Shortfalls(s);
    SettledCostsOk(s.bus.settled);
    forall p | p in costs ensures p in fills && p in short && fills[p] - costs[p] == short[p] {
      var e :| e in s.bus.settled && e.pid == p;
      ShortfallOf(s, e);
    }
    ExcessIs(fills, costs, short);
  }

  lemma ExcessIs(whole: map<nat, real>, part: map<nat, real>, rest: map<nat, real>)
    requires part.Keys <= whole.Keys && rest.Keys == part.Keys
    requires forall p :: p in part ==> whole[p] - part[p] == rest[p]
    ensures Excess(whole, part) == rest
  {
  }

  lemma ShortfallAt(s: System, p: nat)
    requires p in SettledIds(s.bus.settled) && p in Fills(s.bus.orders) && p in s.db.rows
    requires p in SettledCosts(s.bus.settled)
    requires SettledCosts(s.bus.settled)[p] == Fills(s.bus.orders)[p].avgPrice * s.db.rows[p].shares
    ensures FillCosts(s.bus.orders)[p] - SettledCosts(s.bus.settled)[p] == Shortfalls(s)[p]
  {
    FillCostAt(s.bus.orders, p);
    ShortfallEntry(s, p);
    Gap(Fills(s.bus.orders)[p], s.db.rows[p].shares);
  }

  lemma FillCostAt(log: seq<OrderUpdate>, p: nat)
    requires p in Fills(log)
    ensures p in FillCosts(log) && FillCosts(log)[p] == Fills(log)[p].Cost()
  {
  }

  lemma ShortfallEntry(s: System, p: nat)
    requires p in SettledIds(s.bus.settled) && p in Fills(s.bus.orders) && p in s.db.rows
    ensures p in Shortfalls(s)
    ensures Shortfalls(s)[p] == Fills(s.bus.orders)[p].Short(s.db.rows[p].shares)
  {
  }

  lemma Gap(fill: FillInfo, shares: real)
    ensures fill.Cost() - fill.avgPrice * shares == fill.Short(shares)
  {
    ProductOfDifference(fill.avgPrice, fill.size, shares);
  }

  /** Every settled cost is either carried over or of this session. */
  lemma CostsSplit(s: System)
    ensures MapSum(SettledCosts(s.bus.settled)) == MapSum(FreshCosts(s)) + MapSum(CarriedCosts(s))
  {
    var all, carried := SettledCosts(s.bus.settled), CarriedCosts(s);
    assert carried.Keys <= all.Keys;
    MapSumSubtract(all, carried);
    MapSumZero(Excess(all, carried));
    assert all - carried.Keys == FreshCosts(s);
  }

  lemma OpenIsUnsettled(s: System)
    requires SettledOnce(s.bus.settled) && FillCosts(s.bus.orders).Keys !! s.db.start.Keys
    ensures FillCosts(s.bus.orders) - FreshCosts(s).Keys == OpenCosts(s)
  {
    SettledCostsOk(s.bus.settled);
    assert FreshCosts(s).Keys == SettledIds(s.bus.settled) - s.db.start.Keys;
  }

  lemma DrainedInPlay(s: System, initial: real)
    requires Inv(s) && SettleInv(s) && MoneyInv(s) && BankOk(s.bank, s.bus, initial) && Drained(s)
    ensures s.bank.account.inPlay == MapSum(OpenCosts(s)) + MapSum(Shortfalls(s)) - MapSum(CarriedCosts(s))
  {
    var bus := s.bus;
    assert bus.orders[..s.bank.orders] == bus.orders && bus.settled[..s.bank.settled] == bus.settled;
    FillTotalIsSum(bus.orders);
    SettledCostsOk(bus.settled);
    FillsAreFresh(s);
    SettledWereFilled(s);
    OpenIsUnsettled(s);
    CostsSplit(s);
    MapSumSubtract(FillCosts(bus.orders), FreshCosts(s));
  }

  lemma DrainedOwed(s: System, initial: real)
    requires SettleInv(s) && MoneyInv(s) && BankOk(s.bank, s.bus, initial) && Drained(s)
    ensures s.bank.account.owed == MapSum(Outstanding(s))
  {
    var bus := s.bus;
    assert bus.settled[..s.bank.settled] == bus.settled && bus.redeemed[..s.bank.redeemed] == bus.redeemed;
    WonPayoutsOk(bus.settled);
    PayoutsOk(bus.redeemed);
    ConfirmedWereOwed(s);
    MapSumSubtract(WonPayouts(bus.settled), Payouts(bus.redeemed));
    MapSumZero(Excess(WonPayouts(bus.settled), Payouts(bus.redeemed)));
  }

  /** Each confirmed redemption pays exactly what its position won. */
  lemma ConfirmedWereOwed(s: System)
    requires SettleInv(s) && CostsOk(s.db.rows, s.bus.settled)
    ensures Payouts(s.bus.redeemed).Keys == Ids(s.bus.redeemed)
    ensures Payouts(s.bus.redeemed).Keys <= WonPayouts(s.bus.settled).Keys
    ensures forall p :: p in Payouts(s.bus.redeemed) ==> Payouts(s.bus.redeemed)[p] == WonPayouts(s.bus.settled)[p]
  {
    PayoutsOk(s.bus.redeemed);
    WonPayoutsOk(s.bus.settled);
    forall p | p in Payouts(s.bus.redeemed)
      ensures p in WonPayouts(s.bus.settled) && Payouts(s.bus.redeemed)[p] == WonPayouts(s.bus.settled)[p]
    {
      var r := Redemption(p, Payouts(s.bus.redeemed)[p]);
      assert r in s.bus.pending[..s.redeem.seen] && r in s.bus.pending;
      assert Owes(s.bus.settled, r);
    }
  }

  lemma MoneyReached(s: System, events: seq<Event>)
    requires Init(s) && Run(s, events)
    requires RunPicksNew(s, events) && LosslessRun(events)
    ensures var t := After(s, events);
            Inv(t) && SettleInv(t) && MoneyInv(t) && BankOk(t.bank, t.bus, s.bank.account.bankroll)
  {
    InitInv(s);
    InitSettleInv(s);
    SettleReached(s, events);
    MoneyRunKeeps(s, events);
    BankRun(s, events, s.bank.account.bankroll);
  }

  /** With the queues drained, money in play is the cost of the filled, unsettled positions, plus the
      shortfalls of partly filled settled ones, less the settled cost of positions taken over from an
      earlier session; and the owed total is the unconfirmed winners' payouts. */
  lemma DrainedMoney(s: System, events: seq<Event>)
    requires Init(s) && Run(s, events)
    requires RunPicksNew(s, events) && LosslessRun(events) && Drained(After(s, events))
    ensures var t := After(s, events);
            && t.bank.account.inPlay == MapSum(OpenCosts(t)) + MapSum(Shortfalls(t)) - MapSum(CarriedCosts(t))
            && t.bank.account.owed == MapSum(Outstanding(t))
  {
    MoneyReached(s, events);
    DrainedInPlay(After(s, events), s.bank.account.bankroll);
    DrainedOwed(After(s, events), s.bank.account.bankroll);
  }

  /** Fills at positive prices, never larger than the order. */
  ghost predicate FillsWithinOrders(t: System) {
    forall p :: p in Fills(t.bus.orders) && p in t.db.rows ==>
      Fills(t.bus.orders)[p].avgPrice > 0.0 && Fills(t.bus.orders)[p].size <= t.db.rows[p].shares
  }

  ghost predicate SettledFilledInFull(t: System) {
    forall p :: p in SettledIds(t.bus.settled) && p in Fills(t.bus.orders) && p in t.db.rows ==>
      Fills(t.bus.orders)[p].size == t.db.rows[p].shares
  }

  lemma NoShortfallIff(t: System)
    requires FillsWithinOrders(t)
    ensures MapSum(Shortfalls(t)) <= 0.0
    ensures MapSum(Shortfalls(t)) == 0.0 <==> SettledFilledInFull(t)
  {
    var short := Shortfalls(t);
    forall p | p in short
      ensures short[p] <= 0.0 && (short[p] == 0.0 <==> Fills(t.bus.orders)[p].size == t.db.rows[p].shares)
    {
      SignOfProduct(Fills(t.bus.orders)[p].avgPrice, Fills(t.bus.orders)[p].size - t.db.rows[p].shares);
    }
    MapSumZeroIff(short);
  }

  lemma NothingCarriedIff(t: System)
    requires SettledOnce(t.bus.settled) && forall e :: e in t.bus.settled ==> e.cost > 0.0
    ensures MapSum(CarriedCosts(t)) >= 0.0
    ensures MapSum(CarriedCosts(t)) == 0.0 <==> SettledIds(t.bus.settled) !! t.db.start.Keys
  {
    SettledCostsOk(t.bus.settled);
    var carried := CarriedCosts(t);
    forall p | p in carried ensures carried[p] > 0.0 {
      var e :| e in t.bus.settled && e.pid == p;
    }
    MapSumPositive(carried);
    forall p: nat ensures p in carried <==> p in SettledIds(t.bus.settled) && p in t.db.start.Keys {
    }
    if carried != map[] {
      var p: nat :| p in carried;
      assert p in SettledIds(t.bus.settled) && p in t.db.start.Keys;
    }
  }

  /** When fills never exceed the order and every settled position cost something, money in play is
      exactly the open positions' cost if and only if every settled position was filled in full and
      none was taken over from an earlier session. */
  lemma InPlayIsOpenCostIff(s: System, events: seq<Event>)
    requires Init(s) && Run(s, events)
    requires RunPicksNew(s, events) && LosslessRun(events) && Drained(After(s, events))
    requires FillsWithinOrders(After(s, events))
    requires forall e :: e in After(s, events).bus.settled ==> e.cost > 0.0
    ensures var t := After(s, events);
            t.bank.account.inPlay == MapSum(OpenCosts(t))
            <==> SettledFilledInFull(t) && SettledIds(t.bus.settled) !! t.db.start.Keys
  {
    DrainedMoney(s, events);
    SettleReached(s, events);
    NoShortfallIff(After(s, events));
    NothingCarriedIff(After(s, events));
  }

  lemma SignOfProduct(a: real, d: real)
    requires a > 0.0 && d <= 0.0
    ensures a * d <= 0.0 && (a * d == 0.0 <==> d == 0.0)
  {
  }

  lemma {:induction false} MapSumZeroIff(m: map<nat, real>)
    requires forall p :: p in m ==> m[p] <= 0.0
    ensures MapSum(m) <= 0.0
    ensures MapSum(m) == 0.0 <==> forall p :: p in m ==> m[p] == 0.0
    decreases |m|
  {
    if m != map[] {
      var p :| p in m;
      var rest := m - {p};
      MapSumAt(m, p);
      MapSumZeroIff(rest);
      if MapSum(m) == 0.0 {
        assert m[p] == 0.0 && MapSum(rest) == 0.0;
        forall q | q in m ensures m[q] == 0.0 {
          assert q == p || (q in rest && rest[q] == m[q]);
        }
      }
    }
  }
}
