/** What the bankroll's three amounts mean in every state of a run, queues drained or not, and exactly
    when each of them is not negative. */
module Solvency {
  import opened Types
  import opened Reals
  import opened Sums
  import opened Protocol
  import opened OrderSafety
  import opened SettleSafety
  import opened Money

  // ─── What the bankroll task has consumed ────────────────────────────────────

  ghost predicate Cursors(s: System) {
    s.bank.orders <= |s.bus.orders| && s.bank.settled <= |s.bus.settled| && s.bank.redeemed <= |s.bus.redeemed|
  }

  /** Costs of the fills consumed, costs taken off and payouts made due by the settlements consumed, and
      payouts of the redemptions consumed. */
  ghost function FilledSoFar(s: System): map<nat, real>
    requires Cursors(s)
  {
    FillCosts(s.bus.orders[..s.bank.orders])
  }

  ghost function TakenOffSoFar(s: System): map<nat, real>
    requires Cursors(s)
  {
    SettledCosts(s.bus.settled[..s.bank.settled])
  }

  ghost function WonSoFar(s: System): map<nat, real>
    requires Cursors(s)
  {
    WonPayouts(s.bus.settled[..s.bank.settled])
  }

  ghost function PaidSoFar(s: System): map<nat, real>
    requires Cursors(s)
  {
    Payouts(s.bus.redeemed[..s.bank.redeemed])
  }

  ghost function ShortOf(s: System, p: nat): real
    requires p in Fills(s.bus.orders) && p in s.db.rows
  {
    Fills(s.bus.orders)[p].Short(s.db.rows[p].shares)
  }

  /** The shortfalls of the positions whose fill and settlement are both consumed. */
  ghost function ShortSoFar(s: System): map<nat, real>
    requires Cursors(s)
  {
    map p | p in FilledSoFar(s) && p in TakenOffSoFar(s) && p in Fills(s.bus.orders) && p in s.db.rows :: ShortOf(s, p)
  }

  // ─── Prefixes of the logs ───────────────────────────────────────────────────

  lemma PrefixesOk(s: System)
    requires Inv(s) && SettleInv(s) && MoneyInv(s) && Cursors(s)
    ensures OneTerminal(s.bus.orders[..s.bank.orders])
    ensures var S := s.bus.settled[..s.bank.settled]; SettledOnce(S) && LossesAreWhole(S)
    ensures Distinct(s.bus.redeemed[..s.bank.redeemed])
  {
    var S := s.bus.settled[..s.bank.settled];
    assert forall v :: v in S ==> v in s.bus.settled;
  }

  lemma {:induction false} FilledAt(log: seq<OrderUpdate>, p: nat)
    requires p in Fills(log)
    ensures exists i :: 0 <= i < |log| && log[i].OrderFilled? && log[i].pid == p
                        && Fills(log)[p] == FillInfo(log[i].avgPrice, log[i].sizeMatched)
  {
    var n := |log| - 1;
    if log[n].OrderFilled? && log[n].pid == p {
      assert Fills(log)[p] == FillInfo(log[n].avgPrice, log[n].sizeMatched);
    } else {
      FilledAt(log[..n], p);
      var i :| 0 <= i < n && log[..n][i].OrderFilled? && log[..n][i].pid == p
               && Fills(log[..n])[p] == FillInfo(log[..n][i].avgPrice, log[..n][i].sizeMatched);
      assert log[i] == log[..n][i];
    }
  }

  /** A fill consumed is the position's one fill. */
  lemma FilledPrefix(log: seq<OrderUpdate>, n: nat, p: nat)
    requires OneTerminal(log) && n <= |log| && p in Fills(log[..n])
    ensures p in Fills(log) && Fills(log)[p] == Fills(log[..n])[p]
  {
    FilledAt(log[..n], p);
    var i :| 0 <= i < n && log[..n][i].OrderFilled? && log[..n][i].pid == p
             && Fills(log[..n])[p] == FillInfo(log[..n][i].avgPrice, log[..n][i].sizeMatched);
    assert log[i] == log[..n][i];
    FillLookup(log, i);
  }

  lemma {:induction false} WonFrom(log: seq<SettledEvent>, p: nat)
    requires p in WonPayouts(log)
    ensures exists v :: v in log && v.pid == p && v.status == PositionStatus.Won && WonPayouts(log)[p] == v.cost + v.realizedPnl
  {
    var n := |log| - 1;
    var e := log[n];
    if e.status == PositionStatus.Won && e.pid == p {
      assert e in log;
    } else {
      WonFrom(log[..n], p);
      var v :| v in log[..n] && v.pid == p && v.status == PositionStatus.Won
               && WonPayouts(log[..n])[p] == v.cost + v.realizedPnl;
      assert v in log;
    }
  }

  lemma RedeemedIsOwed(s: System, r: Redemption)
    requires RedeemOk(s.redeem, s.bus) && PendingOk(s.bus) && r in s.bus.redeemed
    ensures Owes(s.bus.settled, r)
  {
    assert r in s.bus.pending[..s.redeem.seen] && r in s.bus.pending;
  }

  /** A payout consumed is what its settlement made due. */
  lemma PaidIsDue(s: System, p: nat)
    requires SettleInv(s) && Cursors(s) && p in PaidSoFar(s) && p in WonSoFar(s)
    requires Distinct(s.bus.redeemed[..s.bank.redeemed])
    ensures PaidSoFar(s)[p] == WonSoFar(s)[p]
  {
    var S, R := s.bus.settled[..s.bank.settled], s.bus.redeemed[..s.bank.redeemed];
    PayoutsOk(R);
    var r := Redemption(p, Payouts(R)[p]);
    assert r in R && r in s.bus.redeemed;
    RedeemedIsOwed(s, r);
    WonFrom(S, p);
    var v :| v in S && v.pid == p && v.status == PositionStatus.Won && WonPayouts(S)[p] == v.cost + v.realizedPnl;
    assert v in s.bus.settled;
    SameSettlement(s.bus.settled, r, v);
  }

  lemma SameSettlement(log: seq<SettledEvent>, r: Redemption, v: SettledEvent)
    requires SettledOnce(log) && Owes(log, r) && v in log && v.pid == r.pid
    ensures v.cost + v.realizedPnl == r.payout
  {
    var w :| w in log && w.pid == r.pid && w.status == PositionStatus.Won && w.cost + w.realizedPnl == r.payout;
    var i :| 0 <= i < |log| && log[i] == w;
    var j :| 0 <= j < |log| && log[j] == v;
    assert i == j;
  }

  /** What was taken off for a position that was filled this session: the fill price, for the shares ordered. */
  lemma TakenOffAt(s: System, p: nat)
    requires AnnouncedOk(s.db.rows, s.bus.settled, s.persist.persisted) && MoneyInv(s) && Cursors(s)
    requires SettledOnce(s.bus.settled[..s.bank.settled]) && p in TakenOffSoFar(s) && p !in s.db.start
    ensures p in Fills(s.bus.orders) && p in s.db.rows
    ensures TakenOffSoFar(s)[p] == Fills(s.bus.orders)[p].avgPrice * s.db.rows[p].shares
  {
    var S := s.bus.settled[..s.bank.settled];
    SettledCostsOk(S);
    var e :| e in S && e.pid == p;
    SettledCostAt(S, e);
    assert e in s.bus.settled;
    SettledWasFilled(s, e);
  }

  lemma FilledNotCarried(s: System, p: nat)
    requires Inv(s) && Cursors(s) && p in FilledSoFar(s)
    ensures p in Fills(s.bus.orders) && p !in s.db.start
    ensures FilledSoFar(s)[p] == Fills(s.bus.orders)[p].Cost()
  {
    FilledPrefix(s.bus.orders, s.bank.orders, p);
    FillsAreFresh(s);
    assert p in FillCosts(s.bus.orders);
  }

  /** A fill and a settlement both consumed differ by the shortfall. */
  lemma DifferenceIsShort(s: System, p: nat)
    requires Cursors(s) && p in FilledSoFar(s) && p in TakenOffSoFar(s)
    requires p in Fills(s.bus.orders) && p in s.db.rows && FilledSoFar(s)[p] == Fills(s.bus.orders)[p].Cost()
    requires TakenOffSoFar(s)[p] == Fills(s.bus.orders)[p].avgPrice * s.db.rows[p].shares
    ensures FilledSoFar(s)[p] - TakenOffSoFar(s)[p] == ShortOf(s, p)
  {
    Gap(Fills(s.bus.orders)[p], s.db.rows[p].shares);
  }

  lemma DifferencesAreShort(s: System)
    requires Inv(s) && SettleInv(s) && MoneyInv(s) && Cursors(s)
    ensures Differences(FilledSoFar(s), TakenOffSoFar(s)) == ShortSoFar(s)
  {
    forall p | p in FilledSoFar(s) && p in TakenOffSoFar(s)
      ensures p in ShortSoFar(s) && FilledSoFar(s)[p] - TakenOffSoFar(s)[p] == ShortSoFar(s)[p]
    {
      FilledNotCarried(s, p);
      PrefixesOk(s);
      TakenOffAt(s, p);
      DifferenceIsShort(s, p);
    }
    SameEntries(FilledSoFar(s), TakenOffSoFar(s), ShortSoFar(s));
  }

  lemma SameEntries(a: map<nat, real>, b: map<nat, real>, d: map<nat, real>)
    requires forall p :: p in d <==> p in a && p in b
    requires forall p :: p in d ==> d[p] == a[p] - b[p]
    ensures Differences(a, b) == d
  {
  }

  // ─── The account in every state ─────────────────────────────────────────────

  lemma InPlayNow(s: System, initial: real)
    requires Inv(s) && SettleInv(s) && MoneyInv(s) && BankOk(s.bank, s.bus, initial)
    ensures s.bank.account.inPlay ==
              MapSum(FilledSoFar(s) - TakenOffSoFar(s).Keys) - MapSum(TakenOffSoFar(s) - FilledSoFar(s).Keys)
              + MapSum(ShortSoFar(s))
  {
    PrefixesOk(s);
    FillTotalIsSum(s.bus.orders[..s.bank.orders]);
    SettledCostsOk(s.bus.settled[..s.bank.settled]);
    SumDifference(FilledSoFar(s), TakenOffSoFar(s));
    DifferencesAreShort(s);
  }

  lemma OwedNow(s: System, initial: real)
    requires Inv(s) && SettleInv(s) && MoneyInv(s) && BankOk(s.bank, s.bus, initial)
    ensures s.bank.account.owed ==
              MapSum(WonSoFar(s) - PaidSoFar(s).Keys) - MapSum(PaidSoFar(s) - WonSoFar(s).Keys)
  {
    PrefixesOk(s);
    WonPayoutsOk(s.bus.settled[..s.bank.settled]);
    PayoutsOk(s.bus.redeemed[..s.bank.redeemed]);
    SumDifference(WonSoFar(s), PaidSoFar(s));
    forall p | p in PaidSoFar(s) && p in WonSoFar(s) ensures PaidSoFar(s)[p] == WonSoFar(s)[p] {
      PaidIsDue(s, p);
    }
    MapSumZero(Differences(WonSoFar(s), PaidSoFar(s)));
  }

  lemma BankrollNow(s: System, initial: real)
    requires Inv(s) && SettleInv(s) && MoneyInv(s) && BankOk(s.bank, s.bus, initial)
    ensures s.bank.account.bankroll == initial - MapSum(FilledSoFar(s)) + MapSum(PaidSoFar(s))
  {
    PrefixesOk(s);
    FillTotalIsSum(s.bus.orders[..s.bank.orders]);
    PayoutsOk(s.bus.redeemed[..s.bank.redeemed]);
  }

  /** In every reachable state: in play is the consumed fills not taken off yet, less what was taken off
      before its fill came (or for a fill of an earlier session), plus the shortfalls; owed is the
      payouts due and not paid, less those paid before they were due. */
  lemma AccountMeans(s: System, events: seq<Event>)
    requires Init(s) && Run(s, events) && RunPicksNew(s, events) && LosslessRun(events)
    ensures var t := After(s, events);
            && Cursors(t)
            && t.bank.account.bankroll == s.bank.account.bankroll - MapSum(FilledSoFar(t)) + MapSum(PaidSoFar(t))
            && t.bank.account.inPlay ==
                 MapSum(FilledSoFar(t) - TakenOffSoFar(t).Keys) - MapSum(TakenOffSoFar(t) - FilledSoFar(t).Keys)
                 + MapSum(ShortSoFar(t))
            && t.bank.account.owed ==
                 MapSum(WonSoFar(t) - PaidSoFar(t).Keys) - MapSum(PaidSoFar(t) - WonSoFar(t).Keys)
  {
    MoneyReached(s, events);
    BankrollNow(After(s, events), s.bank.account.bankroll);
    InPlayNow(After(s, events), s.bank.account.bankroll);
    OwedNow(After(s, events), s.bank.account.bankroll);
  }

  /** Exactly when each amount is not negative. */
  lemma SolventIff(s: System, events: seq<Event>)
    requires Init(s) && Run(s, events) && RunPicksNew(s, events) && LosslessRun(events)
    ensures var t := After(s, events);
            && Cursors(t)
            && (t.bank.account.bankroll >= 0.0 <==>
                  MapSum(FilledSoFar(t)) <= s.bank.account.bankroll + MapSum(PaidSoFar(t)))
            && (t.bank.account.inPlay >= 0.0 <==>
                  MapSum(TakenOffSoFar(t) - FilledSoFar(t).Keys)
                    <= MapSum(FilledSoFar(t) - TakenOffSoFar(t).Keys) + MapSum(ShortSoFar(t)))
            && (t.bank.account.owed >= 0.0 <==>
                  MapSum(PaidSoFar(t) - WonSoFar(t).Keys) <= MapSum(WonSoFar(t) - PaidSoFar(t).Keys))
  {
    AccountMeans(s, events);
  }

  /** While no redemption is consumed before its settlement, owed is the sum of the payouts due, none of
      them negative when no payout is. */
  lemma OwedInOrder(s: System, events: seq<Event>)
    requires Init(s) && Run(s, events) && RunPicksNew(s, events) && LosslessRun(events)
    requires var t := After(s, events); Cursors(t) && PaidSoFar(t).Keys <= WonSoFar(t).Keys
    requires forall p :: p in WonSoFar(After(s, events)) ==> WonSoFar(After(s, events))[p] >= 0.0
    ensures var t := After(s, events);
            t.bank.account.owed == MapSum(WonSoFar(t) - PaidSoFar(t).Keys) >= 0.0
  {
    var t := After(s, events);
    AccountMeans(s, events);
    assert PaidSoFar(t) - WonSoFar(t).Keys == map[];
    MapSumNonNegative(WonSoFar(t) - PaidSoFar(t).Keys);
  }
}
