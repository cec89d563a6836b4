/** What the tasks share: the store, the queues and the watch channels, with the event machine run
    alongside as history. A task's method is proved to perform exactly its own events of that
    machine, whatever the other tasks do wherever the method awaits. */
module SharedWorld {
  import opened Types
  import opened State
  import opened Store
  import opened Protocol
  import OrderPolling
  import Bankroll

  // ─── Whose event it is ──────────────────────────────────────────────────────

  ghost predicate Foreign(me: Task, events: seq<Event>) {
    forall i :: 0 <= i < |events| ==> Owner(events[i]) != me
  }

  /** Steps of the other tasks, taken from `s` on. */
  ghost predicate Meanwhile(me: Task, s: System, others: seq<Event>) {
    Foreign(me, others) && Run(s, others)
  }

  /** A task's own events, in order. */
  ghost function Own(me: Task, events: seq<Event>): seq<Event> {
    if events == [] then []
    else
      var init := Own(me, events[..|events| - 1]);
      if Owner(events[|events| - 1]) == me then init + [events[|events| - 1]] else init
  }

  lemma OwnSnoc(me: Task, events: seq<Event>, e: Event)
    ensures Own(me, events + [e]) == if Owner(e) == me then Own(me, events) + [e] else Own(me, events)
  {
    assert (events + [e])[..|events|] == events;
  }

  lemma {:induction false} OwnForeign(me: Task, events: seq<Event>, others: seq<Event>)
    requires Foreign(me, others)
    ensures Own(me, events + others) == Own(me, events)
    decreases |others|
  {
    if others == [] {
      assert events + others == events;
    } else {
      var n := |others| - 1;
      OwnForeign(me, events, others[..n]);
      OwnSnoc(me, events + others[..n], others[n]);
      assert events + others == (events + others[..n]) + [others[n]];
    }
  }

  lemma Join(was: seq<Event>, first: Event, steps: seq<Event>, last: Event)
    ensures ((was + [first]) + steps) + [last] == was + ([first] + steps + [last])
  {
  }

  /** Each of `pids` once, in whatever order a hash map or a query yields them. */
  ghost predicate Enumerates(order: seq<nat>, pids: set<nat>) {
    && (forall p: nat :: p in order <==> p in pids)
    && (forall i, j :: 0 <= i < j < |order| ==> order[i] != order[j])
  }

  // ─── What other tasks leave alone ───────────────────────────────────────────

  /** The part of the state only task `me` changes, and the queues, which others only extend. */
  ghost predicate LeftAlone(me: Task, s: System, t: System) {
    && (me.Executor? ==> t.exec.(market := s.exec.market, marketUnseen := s.exec.marketUnseen) == s.exec)
    && (me.Poller? ==> t.poll.(slotUnseen := s.poll.slotUnseen) == s.poll)
    && (me.Persister? ==> t.persist == s.persist)
    && (me.Banker? ==> t.bank == s.bank)
    && (me.Settlement? ==> t.settle == s.settle && t.bus.settled == s.bus.settled && t.bus.pending == s.bus.pending)
    && (me.Redeemer? ==> t.redeem == s.redeem && t.bus.redeemed == s.bus.redeemed)
    && s.bus.orders <= t.bus.orders && s.bus.settled <= t.bus.settled
    && s.bus.pending <= t.bus.pending && s.bus.redeemed <= t.bus.redeemed
  }

  /** An announcement leaves the store and the watch channels alone. */
  lemma AnnounceReach(s: System, e: Event)
    requires Enabled(s, e) && (e.AnnounceLost? || e.AnnounceWon? || e.SendPending? || e.SendRedeemed?)
    ensures var t := Next(s, e); t.db == s.db && t.exec == s.exec && t.poll == s.poll
  {
    if e.SendRedeemed? {
      SendRedeemedReach(s);
    } else {
      SettlementReach(s, e);
      SettlementSendsOnly(s, e);
    }
  }

  lemma SettlementSendsOnly(s: System, e: Event)
    requires Enabled(s, e) && (e.AnnounceLost? || e.AnnounceWon? || e.SendPending?)
    ensures Next(s, e).db == s.db
  {
  }

  lemma SendRedeemedReach(s: System)
    requires Enabled(s, SendRedeemed)
    ensures var t := Next(s, SendRedeemed);
            && t.db == s.db && t.exec == s.exec && t.poll == s.poll
            && t.bus == s.bus.(redeemed := s.bus.redeemed + [Redemption(s.redeem.phase.pid, s.redeem.phase.payout)])
  {
  }

  lemma SendPendingReach(s: System)
    requires Enabled(s, Event.SendPending)
    ensures Next(s, Event.SendPending).bus
              == s.bus.(pending := s.bus.pending + [Redemption(s.settle.phase.pid, s.settle.phase.payout)])
  {
  }

  /** What a write leaves alone: the queues, the ids given out, and what the watch channels hold. */
  ghost predicate WriteOnly(s: System, t: System) {
    && t.bus == s.bus && t.db.lastId == s.db.lastId
    && t.exec.(phase := s.exec.phase) == s.exec && t.poll == s.poll
  }

  lemma WriteReach(s: System, e: Event)
    requires Enabled(s, e) && (e.ExecWrite? || e.PersistOrder? || e.PersistSettlement? || e.Mark? || e.Confirm?)
    ensures WriteOnly(s, Next(s, e))
  {
    match e
    case ExecWrite(ok) => ExecWriteReach(s, ok);
    case PersistOrder(ok) => PersistOrderReach(s, ok);
    case PersistSettlement(ok) => PersistSettlementReach(s, ok);
    case Mark(pid, ok) => MarkReach(s, pid, ok);
    case Confirm(pid, ok) => ConfirmReach(s, pid, ok);
  }

  lemma ExecWriteReach(s: System, ok: bool)
    requires Enabled(s, ExecWrite(ok))
    ensures WriteOnly(s, Next(s, ExecWrite(ok)))
  {
  }

  lemma PersistOrderReach(s: System, ok: bool)
    requires Enabled(s, PersistOrder(ok))
    ensures WriteOnly(s, Next(s, PersistOrder(ok)))
  {
  }

  lemma PersistSettlementReach(s: System, ok: bool)
    requires Enabled(s, PersistSettlement(ok))
    ensures WriteOnly(s, Next(s, PersistSettlement(ok)))
  {
  }

  lemma MarkReach(s: System, pid: nat, ok: bool)
    requires Enabled(s, Mark(pid, ok))
    ensures WriteOnly(s, Next(s, Mark(pid, ok)))
  {
  }

  lemma ConfirmReach(s: System, pid: nat, ok: bool)
    requires Enabled(s, Confirm(pid, ok))
    ensures WriteOnly(s, Next(s, Confirm(pid, ok)))
  {
  }

  /** An order message leaves the store, the slot and the market alone. */
  lemma OrderReach(s: System, e: Event)
    requires Enabled(s, e) && (e.PlaceOk? || e.PollOrder?)
    ensures var t := Next(s, e);
            && t.db == s.db && t.exec.market == s.exec.market && t.exec.marketUnseen == s.exec.marketUnseen
            && t.exec.slot == s.exec.slot && t.poll.slotUnseen == s.poll.slotUnseen
  {
  }

  lemma StepLeavesAlone(me: Task, s: System, e: Event)
    requires Enabled(s, e) && Owner(e) != me
    ensures LeftAlone(me, s, Next(s, e))
  {
    match Owner(e)
    case Executor => ExecutorReach(s, e);
    case Poller => PollerReach(s, e);
    case Persister => PersisterReach(s, e);
    case Settlement => SettlementReach(s, e);
    case Redeemer => RedeemerReach(s, e);
    case _ =>
  }

  lemma {:induction false} OthersLeaveAlone(me: Task, s: System, others: seq<Event>)
    requires Run(s, others) && Foreign(me, others)
    ensures LeftAlone(me, s, After(s, others))
    decreases |others|
  {
    if others != [] {
      assert others[0] == others[0];
      StepLeavesAlone(me, s, others[0]);
      OthersLeaveAlone(me, Next(s, others[0]), others[1..]);
    }
  }

  // ─── What no step changes about a row ───────────────────────────────────────

  /** What was decided when the position was entered. */
  ghost predicate SameTerms(a: Row, b: Row) {
    && a.marketSlug == b.marketSlug && a.side == b.side && a.outcomeName == b.outcomeName && a.tokenId == b.tokenId
    && a.shares == b.shares && a.limitPrice == b.limitPrice && a.strike == b.strike
  }

  ghost predicate TermsKept(before: Rows, after: Rows) {
    forall p :: p in before ==> p in after && SameTerms(before[p], after[p])
  }

  ghost predicate OrderIdsKept(before: Rows, after: Rows) {
    forall p :: p in before ==> p in after && before[p].orderId == after[p].orderId
  }

  ghost predicate IdsGiven(db: Db) {
    forall p :: p in db.rows ==> p <= db.lastId
  }

  lemma WriteKeepsTerms(rows: Rows, pid: nat, u: PositionUpdate)
    ensures TermsKept(rows, UpdateRows(rows, pid, u))
    ensures !u.SetSubmitted? ==> OrderIdsKept(rows, UpdateRows(rows, pid, u))
  {
  }

  lemma StepKeepsTerms(s: System, e: Event)
    requires Enabled(s, e) && IdsGiven(s.db)
    ensures var t := Next(s, e); IdsGiven(t.db) && t.db.lastId >= s.db.lastId && TermsKept(s.db.rows, t.db.rows)
    ensures Owner(e) != Executor ==> OrderIdsKept(s.db.rows, Next(s, e).db.rows)
  {
    StoreStep(s, e);
    LastIdGrows(s, e);
    match WriteOf(s, e)
    case Some(w) => WriteKeepsTerms(s.db.rows, w.0, w.1);
    case None =>
  }

  lemma LastIdGrows(s: System, e: Event)
    requires Enabled(s, e)
    ensures Next(s, e).db.lastId == if e == Insert(true) then s.db.lastId + 1 else s.db.lastId
  {
    match Owner(e)
    case Poller => PollerReach(s, e);
    case _ =>
  }

  /** Whatever the others do, no row disappears or changes its terms, and only the executor gives out order ids. */
  lemma {:induction false} OthersKeepRows(s: System, others: seq<Event>)
    requires IdsGiven(s.db) && Run(s, others) && Foreign(Executor, others)
    ensures var t := After(s, others);
            && IdsGiven(t.db) && t.db.lastId >= s.db.lastId
            && TermsKept(s.db.rows, t.db.rows) && OrderIdsKept(s.db.rows, t.db.rows)
    decreases |others|
  {
    if others != [] {
      assert others[0] == others[0];
      StepKeepsTerms(s, others[0]);
      OthersKeepRows(Next(s, others[0]), others[1..]);
    }
  }

  // ─── The shared state ───────────────────────────────────────────────────────

  class World {
    const store: SqliteStore
    var market: Option<Market>
    var marketUnseen: bool
    var slot: RoundSlotState
    var slotUnseen: bool
    var orders: seq<OrderUpdate>
    var settled: seq<SettledEvent>
    var pending: seq<Redemption>
    var redeemed: seq<Redemption>
    ghost var start: System
    ghost var sys: System
    ghost var trace: seq<Event>

    /** The history is a run of the machine. */
    ghost predicate Recorded() reads this {
      Run(start, trace) && After(start, trace) == sys
    }

    /** What is stored, queued and watched is what the machine says. */
    ghost predicate Agrees() reads this, store {
      && store.Valid() && store.rows == sys.db.rows && store.lastId == sys.db.lastId
      && market == sys.exec.market && marketUnseen == sys.exec.marketUnseen
      && slot == sys.exec.slot && slotUnseen == sys.poll.slotUnseen
      && Bus(orders, settled, pending, redeemed) == sys.bus
    }

    ghost predicate Valid() reads this, store {
      Recorded() && Agrees()
    }

    constructor (bankroll: real)
      ensures fresh(store) && Valid() && Init(sys) && sys == start
    {
      store := new SqliteStore();
      market, marketUnseen := None, false;
      slot, slotUnseen := RoundSlotState.Empty, false;
      orders, settled, pending, redeemed := [], [], [], [];
      var s := System(
        Db(map[], map[], 0), ExecState(None, false, RoundSlotState.Empty, ExecIdle, 0),
        PollState(false, PollIdle, OrderPolling.Tracking({}, map[])), SettleState(SettleIdle, {}),
        RedeemState(RedeemIdle, map[], 0), Bus([], [], [], []), PersistState(0, 0, {}),
        BankState(0, 0, 0, Bankroll.Account(bankroll, 0.0, 0.0)));
      start, sys, trace := s, s, [];
    }

    /** A task gives way. Its caller knows only this contract: the others may have made any steps. */
    method Await(me: Task) returns (ghost others: seq<Event>)
      requires Valid()
      modifies this, store
      ensures Valid() && start == old(start)
      ensures Foreign(me, others) && Run(old(sys), others) && sys == After(old(sys), others)
      ensures trace == old(trace) + others
    {
      others := [];
      assert trace == old(trace) + others;
    }

    /** A task gives way and finds its own part of the state as it left it. */
    method GiveWay(me: Task)
      requires Valid()
      modifies this, store
      ensures Valid() && start == old(start)
      ensures LeftAlone(me, old(sys), sys) && Own(me, trace) == old(Own(me, trace))
    {
      ghost var _ := Pause(me);
    }

    /** The same, naming what the others did meanwhile. */
    method Pause(me: Task) returns (ghost others: seq<Event>)
      requires Valid()
      modifies this, store
      ensures Valid() && start == old(start)
      ensures LeftAlone(me, old(sys), sys) && Own(me, trace) == old(Own(me, trace))
      ensures Meanwhile(me, old(sys), others) && sys == After(old(sys), others)
    {
      others := Await(me);
      OthersLeaveAlone(me, old(sys), others);
      OwnForeign(me, old(trace), others);
    }

    ghost method Record(e: Event)
      requires Recorded() && Enabled(sys, e)
      modifies this`sys, this`trace
      ensures Recorded() && sys == Next(old(sys), e) && trace == old(trace) + [e]
      ensures Own(Owner(e), trace) == old(Own(Owner(e), trace)) + [e]
    {
      RunSnoc(start, trace, e);
      OwnSnoc(Owner(e), trace, e);
      sys, trace := Next(sys, e), trace + [e];
    }

    // Each port call is one event. The caller supplies the value; the precondition says it is the
    // one the machine would have used.

    /** A step that changes nothing shared. */
    ghost method Silently(e: Event)
      requires Valid() && Enabled(sys, e)
      requires var t := Next(sys, e);
               && t.db == sys.db && t.bus == sys.bus
               && t.exec.market == sys.exec.market && t.exec.marketUnseen == sys.exec.marketUnseen
               && t.exec.slot == sys.exec.slot && t.poll.slotUnseen == sys.poll.slotUnseen
      modifies this`sys, this`trace
      ensures Valid() && sys == Next(old(sys), e)
      ensures Own(Owner(e), trace) == old(Own(Owner(e), trace)) + [e]
    {
      Record(e);
    }

    method InsertPosition(record: Row) returns (id: nat)
      requires Valid() && sys.exec.phase.Drafted?
      requires record == SubmittedRow(sys.exec.phase.market, sys.exec.phase.outcome, sys.exec.phase.intent)
      modifies this`sys, this`trace, store
      ensures Valid() && sys == Next(old(sys), Insert(true)) && id == old(sys).db.lastId + 1
      ensures Own(Executor, trace) == old(Own(Executor, trace)) + [Insert(true)]
    {
      id := store.InsertPosition(record);
      Record(Insert(true));
    }

    /** The write happens when `ok`; the other effects of the event are private to its task. */
    method UpdatePosition(pid: nat, u: PositionUpdate, ok: bool, ghost e: Event)
      requires Valid() && Enabled(sys, e) && (e.ExecWrite? || e.PersistOrder? || e.PersistSettlement? || e.Mark? || e.Confirm?)
      requires WriteOf(sys, e) == if ok then Some((pid, u)) else None
      modifies this`sys, this`trace, store`rows
      ensures Valid() && sys == Next(old(sys), e)
      ensures Own(Owner(e), trace) == old(Own(Owner(e), trace)) + [e]
    {
      StoreStep(sys, e);
      WriteReach(sys, e);
      if ok {
        store.UpdatePosition(pid, u);
      }
      Record(e);
    }

    /** The market watch is marked seen and the rotated slot sent. */
    method TakeMarket(next: RoundSlotState)
      requires Valid() && sys.exec.phase.ExecIdle? && marketUnseen && next == sys.exec.slot.Rotate()
      modifies this
      ensures Valid() && start == old(start) && sys == Next(old(sys), Rotate)
      ensures Own(Executor, trace) == old(Own(Executor, trace)) + [Rotate]
    {
      marketUnseen := false;
      slot, slotUnseen := next, true;
      Record(Rotate);
    }

    method SendSlot(next: RoundSlotState, ghost e: Event)
      requires Valid() && Enabled(sys, e) && (e.ClaimSlot? || e.PlaceErr?) && SendsSlot(sys.exec, e)
      requires next == Next(sys, e).exec.slot
      modifies this
      ensures Valid() && start == old(start) && sys == Next(old(sys), e)
      ensures Own(Executor, trace) == old(Own(Executor, trace)) + [e]
    {
      slot, slotUnseen := next, true;
      Record(e);
    }

    method SendOrder(u: OrderUpdate, ghost e: Event)
      requires Valid() && Enabled(sys, e) && (e.PlaceOk? || e.PollOrder?)
      requires Next(sys, e).bus == sys.bus.(orders := sys.bus.orders + [u])
      modifies this`orders, this`sys, this`trace
      ensures Valid() && sys == Next(old(sys), e) && orders == old(orders) + [u]
      ensures Own(Owner(e), trace) == old(Own(Owner(e), trace)) + [e]
    {
      OrderReach(sys, e);
      orders := orders + [u];
      Record(e);
    }

    method SendSettled(v: SettledEvent, ghost e: Event)
      requires Valid() && Enabled(sys, e) && (e.AnnounceLost? || e.AnnounceWon?)
      requires Next(sys, e).bus == sys.bus.(settled := sys.bus.settled + [v])
      modifies this`settled, this`sys, this`trace
      ensures Valid() && sys == Next(old(sys), e) && settled == old(settled) + [v]
      ensures Own(Settlement, trace) == old(Own(Settlement, trace)) + [e]
    {
      AnnounceReach(sys, e);
      assert Owner(e) == Settlement;
      settled := settled + [v];
      Record(e);
    }

    method SendPending(r: Redemption)
      requires Valid() && sys.settle.phase.Announcing?
      requires r == Redemption(sys.settle.phase.pid, sys.settle.phase.payout)
      modifies this`pending, this`sys, this`trace
      ensures Valid() && sys == Next(old(sys), Event.SendPending) && pending == old(pending) + [r]
      ensures Own(Settlement, trace) == old(Own(Settlement, trace)) + [Event.SendPending]
    {
      AnnounceReach(sys, Event.SendPending);
      SendPendingReach(sys);
      pending := pending + [r];
      Record(Event.SendPending);
    }

    method SendRedeemed(r: Redemption)
      requires Valid() && sys.redeem.phase.Written?
      requires r == Redemption(sys.redeem.phase.pid, sys.redeem.phase.payout)
      modifies this`redeemed, this`sys, this`trace
      ensures Valid() && sys == Next(old(sys), Event.SendRedeemed) && redeemed == old(redeemed) + [r]
      ensures Own(Redeemer, trace) == old(Own(Redeemer, trace)) + [Event.SendRedeemed]
    {
      SendRedeemedReach(sys);
      redeemed := redeemed + [r];
      Record(Event.SendRedeemed);
    }

    method TakeSlot() returns (now: RoundSlotState)
      requires Valid() && sys.poll.phase.PollIdle? && slotUnseen
      modifies this`slotUnseen, this`sys, this`trace
      ensures Valid() && sys == Next(old(sys), SeeSlot) && now == slot
      ensures Own(Poller, trace) == old(Own(Poller, trace)) + [SeeSlot]
    {
      now := slot;
      slotUnseen := false;
      Record(SeeSlot);
    }
  }
}
