/** Runs from start-up that show the conditions of the whole-run results are needed. */
module Witnesses {
  import opened Types
  import opened State
  import opened Store
  import opened Sums
  import Bankroll
  import opened OrderPolling
  import opened Settling
  import opened Protocol
  import opened OrderSafety
  import opened SettleSafety
  import opened Lifecycle
  import opened Money

  // ─── Walking through the machine ────────────────────────────────────────────

  /** A run in which every delivery picks new positions and no receiver lags. */
  ghost predicate Path(s: System, events: seq<Event>, t: System) {
    Run(s, events) && RunPicksNew(s, events) && LosslessRun(events) && After(s, events) == t
  }

  ghost predicate Reaches(s: System, t: System) {
    exists events :: Path(s, events, t)
  }

  lemma Here(s: System)
    ensures Reaches(s, s)
  {
    assert Path(s, [], s);
  }

  lemma Onward(s: System, t: System, e: Event)
    requires Reaches(s, t) && Enabled(t, e) && PicksNew(t, e) && Lossless(e)
    ensures Reaches(s, Next(t, e))
  {
    var events :| Path(s, events, t);
    RunSnoc(s, events, e);
    PicksNewSnoc(s, events, e);
    assert Path(s, events + [e], Next(t, e));
  }

  // ─── One filled position, found at start-up ─────────────────────────────────

  function TheRow(): Row {
    Row("m", Buy, "Up", "t", Some("o"), 10.0, 0.4, Some(0.4), None, PositionStatus.Filled, None)
  }

  function OneFilled(): System {
    System(Db(map[1 := TheRow()], map[1 := TheRow()], 1),
           ExecState(None, false, RoundSlotState.Empty, ExecIdle, 0),
           PollState(false, PollIdle, Tracking({}, map[])),
           SettleState(SettleIdle, {}),
           RedeemState(RedeemIdle, map[], 0),
           Bus([], [], [], []),
           PersistState(0, 0, {}),
           BankState(0, 0, 0, Bankroll.Account(100.0, 0.0, 0.0)))
  }

  /** Nothing but settlement has moved, and nothing is stored but the marker. */
  ghost predicate OnlySettling(s: System) {
    && s.bus.orders == [] && s.bus.pending == [] && s.bus.redeemed == []
    && s.redeem == RedeemState(RedeemIdle, map[], 0)
    && s.bank == BankState(0, 0, 0, Bankroll.Account(100.0, 0.0, 0.0))
    && s.persist == PersistState(0, 0, {})
    && s.db.start == map[1 := TheRow()] && s.db.rows.Keys == {1}
  }

  ghost predicate AtRow(s: System, winner: string) {
    && OnlySettling(s) && s.bus.settled == [] && s.settle.phase == SettleLoop(map[1 := TheRow()], winner)
    && s.db.rows[1] == TheRow()
  }

  ghost predicate AtMark(s: System, winner: string) {
    && OnlySettling(s) && s.bus.settled == [] && s.settle.phase == Marked(1, TheRow(), map[], winner)
    && s.db.rows[1] == TheRow().(status := PositionStatus.Settling)
  }

  lemma BeginOne(winner: string) returns (t: System)
    ensures Init(OneFilled()) && Reaches(OneFilled(), t) && AtRow(t, winner)
  {
    var s, e := OneFilled(), BeginSettle("m", winner);
    Here(s);
    Onward(s, s, e);
    t := Next(s, e);
    assert ToSettle(map[1 := TheRow()], "m") == map[1 := TheRow()];
  }

  lemma MarkOne(winner: string) returns (t: System)
    ensures Init(OneFilled()) && Reaches(OneFilled(), t) && AtMark(t, winner)
  {
    var s := BeginOne(winner);
    Onward(OneFilled(), s, Mark(1, true));
    t := Next(s, Mark(1, true));
    assert map[1 := TheRow()] - {1} == map[];
  }

  // ─── A win confirmed before anything about it is stored or counted ──────────

  ghost predicate StillSettling(s: System) {
    && s.db.rows.Keys == {1} && s.db.rows[1].status == PositionStatus.Settling && s.persist.persisted == {}
    && s.bank == BankState(0, 0, 0, Bankroll.Account(100.0, 0.0, 0.0)) && s.bus.redeemed == []
  }

  lemma AnnounceWin() returns (t: System)
    ensures Init(OneFilled()) && Reaches(OneFilled(), t) && StillSettling(t)
    ensures t.settle.phase == Announcing(1, 10.0, map[], "Up")
    ensures t.bus.pending == [] && t.redeem == RedeemState(RedeemIdle, map[], 0)
  {
    var s := MarkOne("Up");
    var e := AnnounceWon(Receipt(Some("tx"), 10.0));
    Onward(OneFilled(), s, e);
    t := Next(s, e);
  }

  lemma QueueWin() returns (t: System)
    ensures Init(OneFilled()) && Reaches(OneFilled(), t) && StillSettling(t)
    ensures t.bus.pending == [Redemption(1, 10.0)] && t.redeem == RedeemState(RedeemIdle, map[], 0)
  {
    var s := AnnounceWin();
    Onward(OneFilled(), s, SendPending);
    t := Next(s, SendPending);
  }

  lemma TakeWin() returns (t: System)
    ensures Init(OneFilled()) && Reaches(OneFilled(), t) && StillSettling(t)
    ensures t.redeem == RedeemState(RedeemIdle, map[1 := 10.0], 1)
  {
    var s := QueueWin();
    Onward(OneFilled(), s, TakePending);
    t := Next(s, TakePending);
  }

  lemma CheckWin() returns (t: System)
    ensures Init(OneFilled()) && Reaches(OneFilled(), t) && StillSettling(t)
    ensures t.redeem == RedeemState(Checking({1}, {}), map[1 := 10.0], 1)
  {
    var s := TakeWin();
    Onward(OneFilled(), s, BeginCheck);
    t := Next(s, BeginCheck);
    assert map[1 := 10.0].Keys == {1};
  }

  lemma {:induction false} IllegalSnoc(s: System, events: seq<Event>, e: Event)
    requires Run(s, events + [e]) && Run(s, events) && Enabled(After(s, events), e)
    requires !LegalStep(After(s, events), e)
    ensures !LegalRun(s, events + [e])
    decreases |events|
  {
    if events == [] {
      assert events + [e] == [e];
    } else {
      assert (events + [e])[1..] == events[1..] + [e] && (events + [e])[0] == events[0];
      IllegalSnoc(Next(s, events[0]), events[1..], e);
    }
  }

  /** The order the lifecycle needs is not automatic: the redeem poller can confirm before persistence stores the win. */
  lemma ConfirmationCanComeFirst()
    ensures exists s, events ::
              Init(s) && Run(s, events) && RunPicksNew(s, events) && !LegalRun(s, events)
  {
    var s := OneFilled();
    var t := CheckWin();
    var e := Confirm(1, true);
    assert Next(t, e).db.rows[1].status == PositionStatus.Redeemed;
    assert !LegalStep(t, e);
    var events :| Path(s, events, t);
    RunSnoc(s, events, e);
    PicksNewSnoc(s, events, e);
    IllegalSnoc(s, events, e);
  }

  lemma ConfirmWin() returns (t: System)
    ensures Init(OneFilled()) && Reaches(OneFilled(), t)
    ensures t.bank == BankState(0, 0, 0, Bankroll.Account(100.0, 0.0, 0.0)) && t.bus.redeemed == []
    ensures t.redeem.phase == Written(1, 10.0, {}, {})
  {
    var s := CheckWin();
    Onward(OneFilled(), s, Confirm(1, true));
    t := Next(s, Confirm(1, true));
  }

  lemma AnnounceConfirmed() returns (t: System)
    ensures Init(OneFilled()) && Reaches(OneFilled(), t)
    ensures t.bank == BankState(0, 0, 0, Bankroll.Account(100.0, 0.0, 0.0)) && t.bus.redeemed == [Redemption(1, 10.0)]
  {
    var s := ConfirmWin();
    Onward(OneFilled(), s, SendRedeemed);
    t := Next(s, SendRedeemed);
  }

  /** Without lag and with one resolution only, the owed amount can go negative: the redemption is
      consumed while the settlement still waits in its queue. */
  lemma OwedCanGoNegative()
    ensures exists t :: Init(OneFilled()) && Reaches(OneFilled(), t) && t.bank.account.owed == -10.0
  {
    var s := AnnounceConfirmed();
    Onward(OneFilled(), s, BankRedemption);
    assert Next(s, BankRedemption).bank.account.owed == -10.0;
  }

  // ─── A loss taken over from an earlier session ──────────────────────────────

  lemma AnnounceLoss() returns (t: System)
    ensures Init(OneFilled()) && Reaches(OneFilled(), t) && OnlySettling(t)
    ensures t.settle.phase == SettleLoop(map[], "Down")
    ensures t.bus.settled == [LostEvent(1, TheRow())] && t.db.rows[1] == TheRow().(status := PositionStatus.Settling)
  {
    var s := MarkOne("Down");
    LowerDiffers();
    Onward(OneFilled(), s, AnnounceLost);
    t := Next(s, AnnounceLost);
  }

  lemma LowerDiffers()
    ensures !Wins(TheRow(), "Down")
  {
    assert Lower("Up")[0] == 'u' && Lower("Down")[0] == 'd';
  }

  /** The other side of InPlayIsOpenCostIff: with everything drained and nothing open, the cost of a
      position filled before start-up has left money in play below zero. */
  lemma CarriedLossGoesNegative()
    ensures exists t :: Init(OneFilled()) && Reaches(OneFilled(), t) && Drained(t)
                        && MapSum(OpenCosts(t)) == 0.0 && t.bank.account.inPlay == -4.0
  {
    var t := ConsumeLoss();
    NothingFilled();
    assert OpenCosts(t) == map[];
    assert MapSum(OpenCosts(t)) == 0.0;
  }

  lemma NothingFilled()
    ensures FillCosts([]) == map[]
  {
  }

  lemma ConsumeLoss() returns (t: System)
    ensures Init(OneFilled()) && Reaches(OneFilled(), t) && Drained(t) && t.bus.orders == []
    ensures t.bank.account.inPlay == -4.0
  {
    var s := AnnounceLoss();
    Onward(OneFilled(), s, BankSettlement);
    t := Next(s, BankSettlement);
    LossBanked(s);
  }

  lemma LossBanked(s: System)
    requires OnlySettling(s) && s.bus.settled == [LostEvent(1, TheRow())]
    ensures Enabled(s, BankSettlement)
    ensures Next(s, BankSettlement) == s.(bank := s.bank.(settled := 1, account := Bankroll.OnSettlement(s.bank.account, 4.0, -4.0)))
  {
    assert CostOf(TheRow()) == 4.0;
  }

  // ─── A resolution delivered again ───────────────────────────────────────────

  lemma IdleAfterLoss() returns (t: System)
    ensures Init(OneFilled()) && Reaches(OneFilled(), t) && OnlySettling(t) && t.settle.phase.SettleIdle?
    ensures t.bus.settled == [LostEvent(1, TheRow())] && t.db.rows[1] == TheRow().(status := PositionStatus.Settling)
  {
    var s := AnnounceLoss();
    Onward(OneFilled(), s, EndSettle);
    t := Next(s, EndSettle);
  }

  /** A market announced resolved twice, as rotation does when it finds one already resolved, can have a
      position settled and announced twice. */
  lemma RepeatedResolutionSettlesTwice()
    ensures exists s, events :: Init(s) && Run(s, events) && !SettledOnce(After(s, events).bus.settled)
  {
    var t := IdleAfterLoss();
    var events :| Path(OneFilled(), events, t);
    SecondDelivery(events, t);
  }

  lemma SecondDelivery(events: seq<Event>, t: System)
    requires Init(OneFilled()) && Run(OneFilled(), events) && After(OneFilled(), events) == t
    requires RunPicksNew(OneFilled(), events) && t.settle.phase.SettleIdle? && t.persist.persisted == {}
    requires t.bus.settled == [LostEvent(1, TheRow())] && t.db.rows.Keys == {1}
    requires t.db.rows[1] == TheRow().(status := PositionStatus.Settling)
    ensures exists s, more :: Init(s) && Run(s, more) && !SettledOnce(After(s, more).bus.settled)
  {
    var s, again, v := OneFilled(), BeginSettle("m", "Down"), LostEvent(1, TheRow());
    assert v in t.bus.settled && Unfinished(t, v, "m");
    SettledAgainIff(s, events, "m", "Down");
    var rest :| Resettles(t, "m", "Down", rest);
    RunCons(t, again, rest);
    RunJoin(s, events, [again] + rest);
  }

  // ─── One position from publication to redemption ────────────────────────────

  function TheMarket(): Market {
    Market("m", [MarketOutcome("Up", "tU"), MarketOutcome("Down", "tD")], Some(100.0), 0, 300000, MarketStatus.Open, None, 0.01, 5.0)
  }

  function TheIntent(): Intent {
    Intent(Up, Buy, 10.0, 0.4)
  }

  /** Its row, by what changes about it. */
  function RowAt(orderId: Option<string>, price: Option<real>, status: PositionStatus, pnl: Option<real>): Row {
    Row("m", Buy, "Up", "tU", orderId, 10.0, 0.4, price, Some(100.0), status, pnl)
  }

  function Quiet(): System {
    System(Db(map[], map[], 0), ExecState(None, false, RoundSlotState.Empty, ExecIdle, 0),
           PollState(false, PollIdle, Tracking({}, map[])), SettleState(SettleIdle, {}), RedeemState(RedeemIdle, map[], 0),
           Bus([], [], [], []), PersistState(0, 0, {}), BankState(0, 0, 0, Bankroll.Account(100.0, 0.0, 0.0)))
  }

  const PLACED := OrderSubmitted("o", 1)
  const FILLED := OrderFilled("o", 1, 0.4, 10.0)
  const WIN := SettledEvent(1, PositionStatus.Won, 6.0, 4.0)
  const PAID := Redemption(1, 10.0)

  /** After the executor has placed the order. */
  function Ordered(): System {
    Quiet().(db := Db(map[], map[1 := RowAt(Some("o"), None, PositionStatus.Submitted, None)], 1),
             exec := ExecState(Some(TheMarket()), false, RoundSlotState.Pending(1), ExecIdle, 1),
             poll := PollState(true, PollIdle, Tracking({}, map[])),
             bus := Bus([PLACED], [], [], []))
  }

  /** After the poller has noticed the position, found its order id, polled it and heard of the fill. */
  function Heard(): System {
    Ordered().(poll := PollState(false, PollIdle, Tracking({}, map[])), bus := Bus([PLACED, FILLED], [], [], []))
  }

  /** After persistence and the bankroll task have taken in both order messages. */
  function Stored(): System {
    Heard().(db := Db(map[], map[1 := RowAt(Some("o"), Some(0.4), PositionStatus.Filled, None)], 1),
             persist := PersistState(2, 0, {}), bank := BankState(2, 0, 0, Bankroll.Account(96.0, 4.0, 0.0)))
  }

  /** After settlement has marked it, redeemed it, announced the win and handed the redemption over. */
  function Decided(): System {
    Stored().(db := Db(map[], map[1 := RowAt(Some("o"), Some(0.4), PositionStatus.Settling, None)], 1),
              settle := SettleState(SettleIdle, {"m"}), bus := Bus([PLACED, FILLED], [WIN], [PAID], []))
  }

  function Booked(): System {
    Decided().(db := Db(map[], map[1 := RowAt(Some("o"), Some(0.4), PositionStatus.Won, Some(6.0))], 1),
               persist := PersistState(2, 1, {1}), bank := BankState(2, 1, 0, Bankroll.Account(96.0, 0.0, 10.0)))
  }

  /** After the redeem poller has confirmed it and the bankroll task has the payout. */
  function Done(): System {
    Booked().(db := Db(map[], map[1 := RowAt(Some("o"), Some(0.4), PositionStatus.Redeemed, Some(6.0))], 1),
              redeem := RedeemState(RedeemIdle, map[], 1), bus := Bus([PLACED, FILLED], [WIN], [PAID], [PAID]),
              bank := BankState(2, 1, 1, Bankroll.Account(106.0, 0.0, 0.0)))
  }

  lemma Went(s: System, e: Event, t: System)
    requires Reaches(Quiet(), s) && Enabled(s, e) && PicksNew(s, e) && Lossless(e) && Next(s, e) == t
    ensures Reaches(Quiet(), t)
  {
    Onward(Quiet(), s, e);
  }

  function Open(): System {
    Quiet().(exec := ExecState(Some(TheMarket()), false, RoundSlotState.Empty, ExecIdle, 0), poll := Quiet().poll.(slotUnseen := true))
  }

  function Drafting(): System {
    Open().(exec := Open().exec.(phase := Drafted(TheMarket(), MarketOutcome("Up", "tU"), TheIntent())))
  }

  lemma DraftIt()
    ensures Reaches(Quiet(), Drafting())
  {
    Here(Quiet());
    var s := Quiet().(exec := Quiet().exec.(market := Some(TheMarket()), marketUnseen := true));
    Went(Quiet(), Publish(Some(TheMarket())), s);
    Went(s, Rotate, Open());
    assert TheMarket().outcomes[0].name == TheIntent().outcome.AsStr();
    Went(Open(), Draft(TheIntent()), Drafting());
  }

  function Entered(): System {
    Open().(db := Db(map[], map[1 := RowAt(None, None, PositionStatus.Submitted, None)], 1),
            exec := Open().exec.(phase := Inserted(1, TheIntent(), "tU")))
  }

  function Claiming(): System {
    Entered().(exec := Open().exec.(slot := RoundSlotState.Pending(1), phase := Claimed(1, TheIntent(), "tU")))
  }

  lemma ClaimIt()
    ensures Reaches(Quiet(), Claiming())
  {
    DraftIt();
    Went(Drafting(), Insert(true), Entered());
    Went(Entered(), ClaimSlot, Claiming());
  }

  lemma OrderIt()
    ensures Reaches(Quiet(), Ordered())
  {
    ClaimIt();
    var s := Claiming().(exec := Ordered().exec.(phase := Placed(1, "o")), bus := Ordered().bus);
    Went(Claiming(), PlaceOk("o"), s);
    Went(s, ExecWrite(true), Ordered());
  }

  function Noticed(): System {
    Ordered().(poll := PollState(false, PollIdle, Tracking({1}, map[])))
  }

  function Asking(): System {
    Ordered().(poll := PollState(false, Polling({1}, {}), Tracking({}, map[1 := "o"])))
  }

  lemma NoticeIt()
    ensures Reaches(Quiet(), Noticed())
  {
    OrderIt();
    Went(Ordered(), SeeSlot, Noticed());
  }

  lemma ResolveIt()
    ensures Reaches(Quiet(), Asking())
  {
    NoticeIt();
    var known: map<nat, string> := map[1 := "o"];
    var s := Noticed().(poll := Noticed().poll.(phase := Fetched(known)));
    assert OrderIdsOf(Noticed().db.rows) == known;
    Went(Noticed(), Fetch(true), s);
    ResolvedOne();
    Went(s, ResolveIds, Asking());
  }

  lemma ResolvedOne()
    ensures Resolve(Tracking({1}, map[]), map[1 := "o"]) == Tracking({}, map[1 := "o"])
    ensures Tracking({}, map[1 := "o"]).tracked.Keys == {1}
  {
    var t := Resolve(Tracking({1}, map[]), map[1 := "o"]);
    assert t.awaiting == {};
    assert t.tracked == Tracking({}, map[1 := "o"]).tracked;
  }

  lemma HearIt()
    ensures Reaches(Quiet(), Heard())
  {
    ResolveIt();
    var s := Asking().(poll := Asking().poll.(phase := Polling({}, {1})), bus := Heard().bus);
    assert {1} - {1} == {} && {} + {1} == {1};
    Went(Asking(), PollOrder(1, Some(FILLED)), s);
    assert Retire(s.poll.tracking, {1}).tracked == map[];
    Went(s, PollDone, Heard());
  }

  lemma StoreIt()
    ensures Reaches(Quiet(), Stored())
  {
    HearIt();
    var s := Heard().(persist := PersistState(1, 0, {}));
    var t := Heard().(db := Stored().db, persist := PersistState(2, 0, {}));
    Went(Heard(), PersistOrder(true), s);
    Went(s, PersistOrder(true), t);
    CountIt(t);
  }

  lemma CountIt(t: System)
    requires Reaches(Quiet(), t) && t == Heard().(db := Stored().db, persist := PersistState(2, 0, {}))
    ensures Reaches(Quiet(), Stored())
  {
    var u := t.(bank := BankState(1, 0, 0, Bankroll.Account(100.0, 0.0, 0.0)));
    Went(t, BankOrder, u);
    Went(u, BankOrder, Stored());
  }

  function Picking(): System {
    Stored().(settle := SettleState(SettleLoop(Stored().db.rows, "Up"), {"m"}))
  }

  function InHand(): System {
    Stored().(db := Decided().db,
              settle := SettleState(Marked(1, RowAt(Some("o"), Some(0.4), PositionStatus.Filled, None), map[], "Up"), {"m"}))
  }

  lemma PickIt()
    ensures Reaches(Quiet(), Picking())
  {
    StoreIt();
    assert ToSettle(Stored().db.rows, "m") == Stored().db.rows;
    Went(Stored(), BeginSettle("m", "Up"), Picking());
  }

  lemma MarkIt()
    ensures Reaches(Quiet(), InHand())
  {
    PickIt();
    assert Picking().settle.phase.todo - {1} == map[];
    Went(Picking(), Mark(1, true), InHand());
  }

  function Won(): System {
    InHand().(settle := SettleState(Announcing(1, 10.0, map[], "Up"), {"m"}), bus := Bus([PLACED, FILLED], [WIN], [], []))
  }

  lemma WinIt()
    ensures Reaches(Quiet(), Won())
  {
    MarkIt();
    assert WonEvent(1, InHand().settle.phase.row, 10.0) == WIN;
    Went(InHand(), AnnounceWon(Receipt(Some("tx"), 10.0)), Won());
  }

  lemma DecideIt()
    ensures Reaches(Quiet(), Decided())
  {
    WinIt();
    var s := Decided().(settle := SettleState(SettleLoop(map[], "Up"), {"m"}));
    Went(Won(), SendPending, s);
    Went(s, EndSettle, Decided());
  }

  lemma BookIt()
    ensures Reaches(Quiet(), Booked())
  {
    DecideIt();
    var s := Decided().(db := Booked().db, persist := Booked().persist);
    Went(Decided(), PersistSettlement(true), s);
    Went(s, BankSettlement, Booked());
  }

  function Tracked(): System {
    Booked().(redeem := RedeemState(RedeemIdle, map[1 := 10.0], 1))
  }

  function Confirmed(): System {
    Booked().(db := Done().db, redeem := RedeemState(Written(1, 10.0, {}, {}), map[1 := 10.0], 1))
  }

  lemma TrackIt()
    ensures Reaches(Quiet(), Tracked())
  {
    BookIt();
    Went(Booked(), TakePending, Tracked());
  }

  lemma ConfirmIt()
    ensures Reaches(Quiet(), Confirmed())
  {
    TrackIt();
    var s := Tracked().(redeem := RedeemState(Checking({1}, {}), map[1 := 10.0], 1));
    assert Tracked().redeem.tracked.Keys == {1};
    Went(Tracked(), BeginCheck, s);
    assert {1} - {1} == {};
    Went(s, Confirm(1, true), Confirmed());
  }

  lemma FinishIt()
    ensures Reaches(Quiet(), Done().(bank := Booked().bank))
  {
    ConfirmIt();
    var s := Done().(bank := Booked().bank, redeem := RedeemState(Checking({}, {1}), map[1 := 10.0], 1));
    assert Confirmed().redeem.phase.done + {1} == {1};
    Went(Confirmed(), SendRedeemed, s);
    assert s.redeem.tracked - {1} == map[];
    Went(s, EndCheck, Done().(bank := Booked().bank));
  }

  /** The whole way: published, drafted, entered, claimed, placed, noticed, resolved, polled, filled, stored,
      counted, settled as won, redeemed and paid out, from an empty database at 100 to 106. */
  lemma WholeLife()
    ensures Init(Quiet()) && Reaches(Quiet(), Done())
    ensures Done().bus == Bus([OrderSubmitted("o", 1), OrderFilled("o", 1, 0.4, 10.0)], [SettledEvent(1, PositionStatus.Won, 6.0, 4.0)],
                              [Redemption(1, 10.0)], [Redemption(1, 10.0)])
    ensures Done().db.rows.Keys == {1} && Done().db.rows[1].status.Redeemed?
    ensures Done().bank.account == Bankroll.Account(106.0, 0.0, 0.0)
  {
    FinishIt();
    Went(Done().(bank := Booked().bank), BankRedemption, Done());
  }
}
