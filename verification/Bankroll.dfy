/** The bankroll task: three event streams folded into one running account. */
module Bankroll {
  import opened Sums

  datatype Account = Account(bankroll: real, inPlay: real, owed: real)
  {
    function Total(): real {
      bankroll + inPlay + owed
    }
  }

  /** What the task reacts to; every other message leaves the account alone. */
  datatype BankEvent =
    | Fill(pid: nat, cost: real)
    | Settle(pid: nat, cost: real, pnl: real)
    | Redeem(pid: nat, payout: real)

  function OnFill(a: Account, cost: real): Account {
    a.(inPlay := a.inPlay + cost, bankroll := a.bankroll - cost)
  }

  function OnSettlement(a: Account, cost: real, pnl: real): Account {
    a.(inPlay := a.inPlay - cost, owed := a.owed + cost + pnl)
  }

  function OnRedemption(a: Account, payout: real): Account {
    a.(bankroll := a.bankroll + payout, owed := a.owed - payout)
  }

  function OnEvent(a: Account, e: BankEvent): Account {
    match e
    case Fill(_, cost) => OnFill(a, cost)
    case Settle(_, cost, pnl) => OnSettlement(a, cost, pnl)
    case Redeem(_, payout) => OnRedemption(a, payout)
  }

  function Fold(a: Account, events: seq<BankEvent>): Account {
    if events == [] then a
    else OnEvent(Fold(a, events[..|events| - 1]), events[|events| - 1])
  }

  // ─── The shared account and its task ────────────────────────────────────────

  class BankrollState {
    var bankroll: real
    var moneyInPlay: real
    var aboutToBeRedeemed: real

    function View(): Account reads this {
      Account(bankroll, moneyInPlay, aboutToBeRedeemed)
    }

    constructor (start: real)
      ensures View() == Account(start, 0.0, 0.0)
    {
      bankroll, moneyInPlay, aboutToBeRedeemed := start, 0.0, 0.0;
    }

    method UpdateOnFill(cost: real)
      modifies this
      ensures View() == OnFill(old(View()), cost)
    {
      moneyInPlay := moneyInPlay + cost;
      bankroll := bankroll - cost;
    }

    method UpdateOnSettlement(cost: real, realizedPnl: real)
      modifies this
      ensures View() == OnSettlement(old(View()), cost, realizedPnl)
    {
      moneyInPlay := moneyInPlay - cost;
      aboutToBeRedeemed := aboutToBeRedeemed + (cost + realizedPnl);
    }

    method UpdateOnRedemption(payout: real)
      modifies this
      ensures View() == OnRedemption(old(View()), payout)
    {
      bankroll := bankroll + payout;
      aboutToBeRedeemed := aboutToBeRedeemed - payout;
    }

    /** The task's loop over the messages it happens to receive, in the order it receives them. */
    method Run(events: seq<BankEvent>)
      modifies this
      ensures View() == Fold(old(View()), events)
    {
      for i := 0 to |events|
        invariant View() == Fold(old(View()), events[..i])
      {
        assert events[..i + 1][..i] == events[..i];
        match events[i] {
          case Fill(_, cost) => UpdateOnFill(cost);
          case Settle(_, cost, pnl) => UpdateOnSettlement(cost, pnl);
          case Redeem(_, payout) => UpdateOnRedemption(payout);
        }
      }
      assert events[..|events|] == events;
    }
  }

  // ─── Conservation ───────────────────────────────────────────────────────────

  function RealizedPnl(events: seq<BankEvent>): real {
    if events == [] then 0.0
    else
      var last := events[|events| - 1];
      RealizedPnl(events[..|events| - 1]) + (if last.Settle? then last.pnl else 0.0)
  }

  /** Money only appears or disappears as realized PnL, whatever arrives in whatever order. */
  lemma {:induction false} MoneyIsConserved(a: Account, events: seq<BankEvent>)
    ensures Fold(a, events).Total() == a.Total() + RealizedPnl(events)
  {
    if events != [] {
      MoneyIsConserved(a, events[..|events| - 1]);
    }
  }

  // ─── Order independence ─────────────────────────────────────────────────────

  /** Moving one event to the end does not change the fold. */
  lemma {:induction false} MoveToEnd(a: Account, before: seq<BankEvent>, e: BankEvent, after: seq<BankEvent>)
    ensures Fold(a, before + [e] + after) == OnEvent(Fold(a, before + after), e)
    decreases |after|
  {
    var all := before + [e] + after;
    if after == [] {
      assert all[..|all| - 1] == before && before + after == before;
    } else {
      var init, last := after[..|after| - 1], after[|after| - 1];
      MoveToEnd(a, before, e, init);
      assert all[..|all| - 1] == before + [e] + init;
      assert (before + after)[..|before + after| - 1] == before + init;
    }
  }

  /** The final account depends only on which events arrived, not on their order. */
  lemma {:induction false} OrderDoesNotMatter(a: Account, xs: seq<BankEvent>, ys: seq<BankEvent>)
    requires multiset(xs) == multiset(ys)
    ensures Fold(a, xs) == Fold(a, ys)
    decreases |xs|
  {
    if xs == [] {
      assert |multiset(ys)| == 0;
    } else {
      var init, last := xs[..|xs| - 1], xs[|xs| - 1];
      assert xs == init + [last];
      assert last in multiset(ys);
      var k :| 0 <= k < |ys| && ys[k] == last;
      var rest := ys[..k] + ys[k + 1..];
      assert ys == ys[..k] + [last] + ys[k + 1..];
      MoveToEnd(a, ys[..k], last, ys[k + 1..]);
      assert multiset(init) == multiset(xs) - multiset{last} == multiset(rest);
      OrderDoesNotMatter(a, init, rest);
    }
  }

  // ─── Non-negativity ─────────────────────────────────────────────────────────

  /** The events of one position, in order. */
  function Project(events: seq<BankEvent>, pid: nat): seq<BankEvent> {
    if events == [] then []
    else
      var last := events[|events| - 1];
      Project(events[..|events| - 1], pid) + (if last.pid == pid then [last] else [])
  }

  /** A position's own events: filled, then settled at the fill's cost, then redeemed for cost + PnL. */
  ghost predicate OneLife(own: seq<BankEvent>) {
    && |own| <= 3
    && (|own| >= 1 ==> own[0].Fill? && own[0].cost >= 0.0)
    && (|own| >= 2 ==> own[1].Settle? && own[1].cost == own[0].cost && own[1].cost + own[1].pnl >= 0.0)
    && (|own| >= 3 ==> own[2].Redeem? && own[2].payout == own[1].cost + own[1].pnl)
  }

  ghost predicate EachInOrder(events: seq<BankEvent>) {
    forall pid :: OneLife(Project(events, pid))
  }

  function TotalFillCost(events: seq<BankEvent>): real {
    if events == [] then 0.0
    else
      var last := events[|events| - 1];
      TotalFillCost(events[..|events| - 1]) + (if last.Fill? then last.cost else 0.0)
  }

  // What each position's fill cost, what its settlement took off and made due, and what was paid out.

  function FillsIn(events: seq<BankEvent>): map<nat, real> {
    if events == [] then map[]
    else
      var last := events[|events| - 1];
      var m := FillsIn(events[..|events| - 1]);
      if last.Fill? then m[last.pid := last.cost] else m
  }

  function SettlesIn(events: seq<BankEvent>): map<nat, real> {
    if events == [] then map[]
    else
      var last := events[|events| - 1];
      var m := SettlesIn(events[..|events| - 1]);
      if last.Settle? then m[last.pid := last.cost] else m
  }

  function DueIn(events: seq<BankEvent>): map<nat, real> {
    if events == [] then map[]
    else
      var last := events[|events| - 1];
      var m := DueIn(events[..|events| - 1]);
      if last.Settle? then m[last.pid := last.cost + last.pnl] else m
  }

  function PaidIn(events: seq<BankEvent>): map<nat, real> {
    if events == [] then map[]
    else
      var last := events[|events| - 1];
      var m := PaidIn(events[..|events| - 1]);
      if last.Redeem? then m[last.pid := last.payout] else m
  }

  /** No position has two events of a kind. */
  ghost predicate OneOfEach(events: seq<BankEvent>) {
    events == [] ||
    var init, last := events[..|events| - 1], events[|events| - 1];
    && OneOfEach(init)
    && (match last
        case Fill(pid, _) => pid !in FillsIn(init)
        case Settle(pid, _, _) => pid !in SettlesIn(init) && pid !in DueIn(init)
        case Redeem(pid, _) => pid !in PaidIn(init))
  }

  /** Settlements take off what fills put in, and redemptions pay what settlements made due. */
  ghost predicate Agreeing(events: seq<BankEvent>) {
    && (forall p :: p in FillsIn(events) && p in SettlesIn(events) ==> FillsIn(events)[p] == SettlesIn(events)[p])
    && (forall p :: p in DueIn(events) && p in PaidIn(events) ==> DueIn(events)[p] == PaidIn(events)[p])
  }

  lemma {:induction false} LedgerSums(a: Account, events: seq<BankEvent>)
    requires OneOfEach(events)
    ensures Fold(a, events).bankroll == a.bankroll - MapSum(FillsIn(events)) + MapSum(PaidIn(events))
    ensures Fold(a, events).inPlay == a.inPlay + MapSum(FillsIn(events)) - MapSum(SettlesIn(events))
    ensures Fold(a, events).owed == a.owed + MapSum(DueIn(events)) - MapSum(PaidIn(events))
  {
    if events != [] {
      var init := events[..|events| - 1];
      LedgerSums(a, init);
      match events[|events| - 1]
      case Fill(pid, cost) =>
        MapSumInsert(FillsIn(init), pid, cost);
      case Settle(pid, cost, pnl) =>
        MapSumInsert(SettlesIn(init), pid, cost);
        MapSumInsert(DueIn(init), pid, cost + pnl);
      case Redeem(pid, payout) =>
        MapSumInsert(PaidIn(init), pid, payout);
    }
  }

  // Cost of fills not settled yet, and of settlements whose fill has not arrived; likewise for payouts.

  ghost function OpenCosts(events: seq<BankEvent>): map<nat, real> {
    FillsIn(events) - SettlesIn(events).Keys
  }

  ghost function EarlyCosts(events: seq<BankEvent>): map<nat, real> {
    SettlesIn(events) - FillsIn(events).Keys
  }

  ghost function Outstanding(events: seq<BankEvent>): map<nat, real> {
    DueIn(events) - PaidIn(events).Keys
  }

  ghost function EarlyPayouts(events: seq<BankEvent>): map<nat, real> {
    PaidIn(events) - DueIn(events).Keys
  }

  /** In whatever order the events arrive, at every moment: in play is the open costs less those settled
      early, and owed the outstanding payouts less those paid early. */
  lemma AnyOrderTotals(a: Account, events: seq<BankEvent>)
    requires OneOfEach(events) && Agreeing(events)
    ensures Fold(a, events).inPlay == a.inPlay + MapSum(OpenCosts(events)) - MapSum(EarlyCosts(events))
    ensures Fold(a, events).owed == a.owed + MapSum(Outstanding(events)) - MapSum(EarlyPayouts(events))
  {
    LedgerSums(a, events);
    SumDifference(FillsIn(events), SettlesIn(events));
    MapSumZero(Differences(FillsIn(events), SettlesIn(events)));
    SumDifference(DueIn(events), PaidIn(events));
    MapSumZero(Differences(DueIn(events), PaidIn(events)));
  }

  /** Exactly when each component is not negative, in any order of arrival. */
  lemma NonNegativeIff(start: real, events: seq<BankEvent>)
    requires OneOfEach(events) && Agreeing(events)
    ensures var a := Fold(Account(start, 0.0, 0.0), events);
            && (a.bankroll >= 0.0 <==> MapSum(FillsIn(events)) <= start + MapSum(PaidIn(events)))
            && (a.inPlay >= 0.0 <==> MapSum(EarlyCosts(events)) <= MapSum(OpenCosts(events)))
            && (a.owed >= 0.0 <==> MapSum(EarlyPayouts(events)) <= MapSum(Outstanding(events)))
  {
    LedgerSums(Account(start, 0.0, 0.0), events);
    AnyOrderTotals(Account(start, 0.0, 0.0), events);
  }

  // ─── Each position's events in order ────────────────────────────────────────

  lemma PrefixInOrder(events: seq<BankEvent>)
    requires events != [] && EachInOrder(events)
    ensures EachInOrder(events[..|events| - 1])
  {
    var init, last := events[..|events| - 1], events[|events| - 1];
    forall pid ensures OneLife(Project(init, pid)) {
      assert OneLife(Project(events, pid));
      if pid == last.pid {
        assert Project(events, pid) == Project(init, pid) + [last];
      }
    }
  }

  /** The newest event extends its own position's life and nobody else's. */
  lemma ProjectSnoc(init: seq<BankEvent>, last: BankEvent, pid: nat)
    ensures Project(init + [last], pid) == Project(init, pid) + (if last.pid == pid then [last] else [])
  {
    assert (init + [last])[..|init|] == init;
  }

  /** What the four ledgers hold of a position whose own events are `own`. */
  ghost predicate LifeRecorded(events: seq<BankEvent>, pid: nat) {
    var own := Project(events, pid);
    && OneLife(own)
    && (pid in FillsIn(events) <==> |own| >= 1) && (|own| >= 1 ==> FillsIn(events)[pid] == own[0].cost)
    && (pid in SettlesIn(events) <==> |own| >= 2) && (|own| >= 2 ==> SettlesIn(events)[pid] == own[1].cost)
    && (pid in DueIn(events) <==> |own| >= 2) && (|own| >= 2 ==> DueIn(events)[pid] == own[1].cost + own[1].pnl)
    && (pid in PaidIn(events) <==> |own| >= 3) && (|own| >= 3 ==> PaidIn(events)[pid] == own[2].payout)
  }

  lemma LifeSnoc(init: seq<BankEvent>, last: BankEvent, pid: nat)
    requires OneLife(Project(init + [last], pid)) && LifeRecorded(init, pid)
    ensures LifeRecorded(init + [last], pid)
  {
    ProjectSnoc(init, last, pid);
    assert (init + [last])[..|init|] == init;
  }

  lemma {:induction false} LivesRecorded(events: seq<BankEvent>)
    requires EachInOrder(events)
    ensures OneOfEach(events) && forall pid: nat :: LifeRecorded(events, pid)
  {
    if events != [] {
      var init, last := events[..|events| - 1], events[|events| - 1];
      PrefixInOrder(events);
      LivesRecorded(init);
      assert events == init + [last];
      forall pid: nat ensures LifeRecorded(events, pid) {
        LifeSnoc(init, last, pid);
      }
      ProjectSnoc(init, last, last.pid);
      assert OneLife(Project(events, last.pid)) && LifeRecorded(init, last.pid);
    }
  }

  /** In order, nothing is ever early, ledgers agree, and no amount is negative. */
  lemma InOrderNothingEarly(events: seq<BankEvent>)
    requires EachInOrder(events)
    ensures OneOfEach(events) && Agreeing(events)
    ensures EarlyCosts(events) == map[] && EarlyPayouts(events) == map[]
    ensures forall p :: p in OpenCosts(events) ==> OpenCosts(events)[p] >= 0.0
    ensures forall p :: p in Outstanding(events) ==> Outstanding(events)[p] >= 0.0
    ensures forall p :: p in PaidIn(events) ==> PaidIn(events)[p] >= 0.0
  {
    LivesRecorded(events);
    forall p: nat
      ensures p in SettlesIn(events) ==> p in FillsIn(events) && FillsIn(events)[p] == SettlesIn(events)[p]
      ensures p in PaidIn(events) ==> p in DueIn(events) && DueIn(events)[p] == PaidIn(events)[p]
      ensures p in FillsIn(events) ==> FillsIn(events)[p] >= 0.0
      ensures p in DueIn(events) ==> DueIn(events)[p] >= 0.0
    {
      assert LifeRecorded(events, p);
    }
  }

  /** In order, the running totals are exactly the open costs and the outstanding payouts. */
  lemma TotalsAreLedgers(a: Account, events: seq<BankEvent>)
    requires EachInOrder(events)
    ensures Fold(a, events).inPlay == a.inPlay + MapSum(OpenCosts(events))
    ensures Fold(a, events).owed == a.owed + MapSum(Outstanding(events))
  {
    InOrderNothingEarly(events);
    AnyOrderTotals(a, events);
  }

  lemma {:induction false} PrefixCost(events: seq<BankEvent>, n: nat)
    requires EachInOrder(events) && n <= |events|
    ensures EachInOrder(events[..n]) && TotalFillCost(events[..n]) <= TotalFillCost(events)
    decreases |events|
  {
    if n == |events| {
      assert events[..n] == events;
    } else {
      var init, last := events[..|events| - 1], events[|events| - 1];
      PrefixInOrder(events);
      PrefixCost(init, n);
      assert init[..n] == events[..n];
      assert OneLife(Project(events, last.pid));
      assert Project(events, last.pid) == Project(init, last.pid) + [last];
    }
  }

  lemma {:induction false} FillCostIsSum(events: seq<BankEvent>)
    requires OneOfEach(events)
    ensures MapSum(FillsIn(events)) == TotalFillCost(events)
  {
    if events != [] {
      var init, last := events[..|events| - 1], events[|events| - 1];
      FillCostIsSum(init);
      if last.Fill? {
        MapSumInsert(FillsIn(init), last.pid, last.cost);
      }
    }
  }

  /** The corollary of NonNegativeIff for orderly arrivals: with every fill covered by the start, no
      component is ever negative. */
  lemma NeverNegative(start: real, events: seq<BankEvent>, n: nat)
    requires EachInOrder(events) && n <= |events|
    requires TotalFillCost(events) <= start
    ensures var a := Fold(Account(start, 0.0, 0.0), events[..n]);
            a.bankroll >= 0.0 && a.inPlay >= 0.0 && a.owed >= 0.0
  {
    var past := events[..n];
    PrefixCost(events, n);
    InOrderNothingEarly(past);
    FillCostIsSum(past);
    MapSumNonNegative(OpenCosts(past));
    MapSumNonNegative(Outstanding(past));
    MapSumNonNegative(PaidIn(past));
    NonNegativeIff(start, past);
  }

  /** A redemption seen before its settlement: its payout is early, and owed goes negative for a while. */
  lemma OutOfOrderGoesNegative()
    ensures var events := [Fill(1, 4.0), Redeem(1, 10.0), Settle(1, 4.0, 6.0)];
            && Fold(Account(100.0, 0.0, 0.0), events[..2]).owed < 0.0
            && Fold(Account(100.0, 0.0, 0.0), events) == Account(106.0, 0.0, 0.0)
  {
    var events := [Fill(1, 4.0), Redeem(1, 10.0), Settle(1, 4.0, 6.0)];
    assert events[..2] == [Fill(1, 4.0), Redeem(1, 10.0)];
    assert events[..2][..1] == [Fill(1, 4.0)] && events[..2][..1][..0] == [];
    assert Fold(Account(100.0, 0.0, 0.0), [Fill(1, 4.0)]) == Account(96.0, 4.0, 0.0);
  }
}
