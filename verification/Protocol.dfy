/** The whole bot as one event machine: every task's atomic steps over the shared store and queues.

    A broadcast channel is its append-only log plus one cursor per receiver; a lagging receiver's
    cursor jumps. An mpsc channel is a log with a single cursor. Watch channels hold a value and
    one "changed" flag per receiver. Whatever a client or the store may answer is an event argument. */
module Protocol {
  import opened Types
  import opened State
  import opened Store
  import opened Bankroll
  import opened OrderPolling
  import opened Persistence
  import opened Settling

  // ─── Where each task stands ─────────────────────────────────────────────────

  datatype ExecPhase =
    | ExecIdle
    | Drafted(market: Market, outcome: MarketOutcome, intent: Intent)
    | Inserted(pid: nat, intent: Intent, tokenId: string)
    | Claimed(pid: nat, intent: Intent, tokenId: string)
    | Placed(pid: nat, orderId: string)
    | PlaceFailed(pid: nat)
  {
    /** A row has been inserted and not yet given its order id or its rejection. */
    predicate HoldsRow() {
      !ExecIdle? && !Drafted?
    }
  }

  datatype PollPhase =
    | PollIdle
    | Fetched(known: map<nat, string>)
    | Polling(todo: set<nat>, done: set<nat>)

  /** `todo` holds the rows of the store snapshot still to be settled. */
  datatype SettlePhase =
    | SettleIdle
    | SettleLoop(todo: Rows, winner: string)
    | Marked(pid: nat, row: Row, todo: Rows, winner: string)
    | Announcing(pid: nat, payout: real, todo: Rows, winner: string)

  datatype RedeemPhase =
    | RedeemIdle
    | Checking(todo: set<nat>, done: set<nat>)
    | Written(pid: nat, payout: real, todo: set<nat>, done: set<nat>)

  /** `start` is what the database held when the process came up. */
  datatype Db = Db(start: Rows, rows: Rows, lastId: nat)

  /** The rotation → executor watch and the executor's slot; `placements` counts orders since the last rotation. */
  datatype ExecState = ExecState(
    market: Option<Market>, marketUnseen: bool, slot: RoundSlotState, phase: ExecPhase, placements: nat)

  datatype PollState = PollState(slotUnseen: bool, phase: PollPhase, tracking: Tracking)

  datatype SettleState = SettleState(phase: SettlePhase, resolved: set<string>)

  datatype RedeemState = RedeemState(phase: RedeemPhase, tracked: map<nat, real>, seen: nat)

  datatype Bus = Bus(
    orders: seq<OrderUpdate>, settled: seq<SettledEvent>, pending: seq<Redemption>, redeemed: seq<Redemption>)

  /** Persistence (`persisted` are the positions whose settlement it stored). */
  datatype PersistState = PersistState(orders: nat, settled: nat, persisted: set<nat>)

  datatype BankState = BankState(orders: nat, settled: nat, redeemed: nat, account: Account)

  datatype System = System(
    db: Db, exec: ExecState, poll: PollState, settle: SettleState, redeem: RedeemState,
    bus: Bus, persist: PersistState, bank: BankState)

  datatype Event =
    | Publish(market: Option<Market>)
    // executor
    | Rotate
    | Draft(intent: Intent)
    | Insert(ok: bool)
    | ClaimSlot
    | PlaceOk(orderId: string)
    | PlaceErr
    | ExecWrite(ok: bool)
    // order-status poller
    | SeeSlot
    | Fetch(ok: bool)
    | ResolveIds
    | PollOrder(pid: nat, reply: Option<OrderUpdate>)
    | PollDone
    // persistence
    | PersistOrder(ok: bool)
    | PersistSettlement(ok: bool)
    | LagPersistOrders(n: nat) // the receiver fell behind and skips its `n` oldest messages
    | LagPersistSettled(n: nat)
    // bankroll
    | BankOrder
    | BankSettlement
    | BankRedemption
    | LagBankOrders(n: nat)
    | LagBankSettled(n: nat)
    // settlement
    | BeginSettle(slug: string, winner: string)
    | Mark(pid: nat, ok: bool)
    | AnnounceLost
    | AnnounceWon(receipt: Receipt)
    | RedeemErr
    | SendPending
    | EndSettle
    // redeem poller
    | TakePending
    | BeginCheck
    | Confirm(pid: nat, ok: bool)
    | SendRedeemed
    | RedeemFailed(pid: nat)
    | StillPending(pid: nat)
    | EndCheck

  // ─── Executor ───────────────────────────────────────────────────────────────

  /** The order reply names the position the poller asked about, and no other. */
  predicate ReplyFor(reply: Option<OrderUpdate>, pid: nat) {
    reply.Some? ==> reply.value.pid == pid
  }

  /** The first outcome of that name, as `find` picks it. */
  function FindOutcome(outcomes: seq<MarketOutcome>, name: string): Option<MarketOutcome> {
    if outcomes == [] then None
    else if outcomes[0].name == name then Some(outcomes[0])
    else FindOutcome(outcomes[1..], name)
  }

  /** Position `k` holds the first outcome of that name. */
  ghost predicate FirstNamed(outcomes: seq<MarketOutcome>, name: string, k: int) {
    0 <= k < |outcomes| && outcomes[k].name == name && forall j :: 0 <= j < k ==> outcomes[j].name != name
  }

  /** What is found is the first outcome of the name, and nothing is found exactly when none has it. */
  lemma {:induction false} FindsFirst(outcomes: seq<MarketOutcome>, name: string)
    ensures FindOutcome(outcomes, name).None? <==> forall k :: 0 <= k < |outcomes| ==> outcomes[k].name != name
    ensures forall k :: FirstNamed(outcomes, name, k) ==> FindOutcome(outcomes, name) == Some(outcomes[k])
    ensures FindOutcome(outcomes, name).Some? ==> exists k :: FirstNamed(outcomes, name, k)
  {
    if outcomes != [] && outcomes[0].name != name {
      var rest := outcomes[1..];
      FindsFirst(rest, name);
      forall k | FirstNamed(outcomes, name, k) ensures FirstNamed(rest, name, k - 1) {
        assert forall j :: 0 <= j < k - 1 ==> rest[j] == outcomes[j + 1];
      }
      if k :| FirstNamed(rest, name, k) {
        assert FirstNamed(outcomes, name, k + 1);
      }
    } else if outcomes != [] {
      assert FirstNamed(outcomes, name, 0);
    }
  }

  function SubmittedRow(m: Market, o: MarketOutcome, i: Intent): Row {
    Row(m.slug, i.side, o.name, o.tokenId, None, i.shares, i.limitPrice, None, m.strike, Submitted, None)
  }

  predicate ExecEnabled(x: ExecState, e: Event) {
    match e
    case Rotate => x.phase.ExecIdle? && x.marketUnseen
    case Draft(i) =>
      x.phase.ExecIdle? && x.market.Some? && FindOutcome(x.market.value.outcomes, i.outcome.AsStr()).Some?
    case Insert(_) => x.phase.Drafted?
    case ClaimSlot => x.phase.Inserted?
    case PlaceOk(_) => x.phase.Claimed?
    case PlaceErr => x.phase.Claimed?
    case ExecWrite(_) => x.phase.Placed? || x.phase.PlaceFailed?
    case _ => false
  }

  /** The executor's own state after a step; `id` is the row id an insert was given. */
  function ExecNext(x: ExecState, e: Event, id: nat): ExecState
    requires ExecEnabled(x, e)
  {
    match e
    case Rotate => x.(slot := x.slot.Rotate(), marketUnseen := false, placements := 0)
    case Draft(i) =>
      x.(phase := Drafted(x.market.value, FindOutcome(x.market.value.outcomes, i.outcome.AsStr()).value, i))
    case Insert(ok) => x.(phase := if ok then Inserted(id, x.phase.intent, x.phase.outcome.tokenId) else ExecIdle)
    case ClaimSlot =>
      (match x.slot.Claim(x.phase.pid)
       case Some(claimed) => x.(slot := claimed, phase := Claimed(x.phase.pid, x.phase.intent, x.phase.tokenId))
       case None => x.(phase := ExecIdle))
    case PlaceOk(oid) => x.(placements := x.placements + 1, phase := Placed(x.phase.pid, oid))
    case PlaceErr => x.(slot := FreeOrEmpty(x.slot), phase := PlaceFailed(x.phase.pid))
    case ExecWrite(_) => x.(phase := ExecIdle)
  }

  /** `free().unwrap_or(Empty)`. */
  function FreeOrEmpty(slot: RoundSlotState): RoundSlotState {
    match slot.Free()
    case Some(freed) => freed
    case None => RoundSlotState.Empty
  }

  /** The steps that send on the slot watch. */
  predicate SendsSlot(x: ExecState, e: Event) {
    e.Rotate? || e.PlaceErr? || (e.ClaimSlot? && x.phase.Inserted? && x.slot.Claim(x.phase.pid).Some?)
  }

  function ExecStep(s: System, e: Event): System
    requires ExecEnabled(s.exec, e)
  {
    var id := s.db.lastId + 1;
    var s1 := s.(exec := ExecNext(s.exec, e, id),
                 poll := s.poll.(slotUnseen := s.poll.slotUnseen || SendsSlot(s.exec, e)));
    match e
    case Insert(true) =>
      var p := s.exec.phase;
      s1.(db := s.db.(rows := s.db.rows[id := SubmittedRow(p.market, p.outcome, p.intent)], lastId := id))
    case PlaceOk(oid) =>
      s1.(bus := s.bus.(orders := s.bus.orders + [OrderSubmitted(oid, s.exec.phase.pid)]))
    case ExecWrite(true) =>
      var u := if s.exec.phase.Placed? then SetSubmitted(s.exec.phase.orderId) else SetRejected;
      s1.(db := s.db.(rows := UpdateRows(s.db.rows, s.exec.phase.pid, u)))
    case _ => s1
  }

  // ─── Order-status poller ────────────────────────────────────────────────────

  predicate PollEnabled(p: PollState, e: Event) {
    match e
    case SeeSlot => p.phase.PollIdle? && p.slotUnseen
    case Fetch(_) => p.phase.PollIdle?
    case ResolveIds => p.phase.Fetched?
    case PollOrder(pid, reply) => p.phase.Polling? && pid in p.phase.todo && ReplyFor(reply, pid)
    case PollDone => p.phase.Polling? && p.phase.todo == {}
    case _ => false
  }

  function PollNext(p: PollState, slot: RoundSlotState, rows: Rows, e: Event): PollState
    requires PollEnabled(p, e)
  {
    match e
    case SeeSlot => p.(slotUnseen := false, tracking := NoteSlot(p.tracking, slot))
    case Fetch(ok) =>
      if p.tracking.awaiting == {} || !ok then p.(phase := Polling(p.tracking.tracked.Keys, {}))
      else p.(phase := Fetched(OrderIdsOf(rows)))
    case ResolveIds =>
      var t := Resolve(p.tracking, p.phase.known);
      p.(tracking := t, phase := Polling(t.tracked.Keys, {}))
    case PollOrder(pid, reply) =>
      p.(phase := Polling(p.phase.todo - {pid},
                          if reply.Some? && reply.value.Terminal() then p.phase.done + {pid} else p.phase.done))
    case PollDone => p.(tracking := Retire(p.tracking, p.phase.done), phase := PollIdle)
  }

  function PollStep(s: System, e: Event): System
    requires PollEnabled(s.poll, e)
  {
    var s1 := s.(poll := PollNext(s.poll, s.exec.slot, s.db.rows, e));
    if e.PollOrder? && e.reply.Some? then s1.(bus := s.bus.(orders := s.bus.orders + [e.reply.value])) else s1
  }

  // ─── Persistence ────────────────────────────────────────────────────────────

  predicate PersistEnabled(s: System, e: Event) {
    match e
    case PersistOrder(_) => s.persist.orders < |s.bus.orders|
    case PersistSettlement(_) => s.persist.settled < |s.bus.settled|
    case LagPersistOrders(n) => s.persist.orders + n <= |s.bus.orders|
    case LagPersistSettled(n) => s.persist.settled + n <= |s.bus.settled|
    case _ => false
  }

  function PersistStep(s: System, e: Event): System
    requires PersistEnabled(s, e)
  {
    match e
    case PersistOrder(ok) => AfterPersistOrder(s, ok)
    case PersistSettlement(ok) => AfterPersistSettlement(s, ok)
    case LagPersistOrders(n) => s.(persist := s.persist.(orders := s.persist.orders + n))
    case LagPersistSettled(n) => s.(persist := s.persist.(settled := s.persist.settled + n))
  }

  function AfterPersistOrder(s: System, ok: bool): System
    requires s.persist.orders < |s.bus.orders|
  {
    var u := s.bus.orders[s.persist.orders];
    var s1 := s.(persist := s.persist.(orders := s.persist.orders + 1));
    match OrderWrite(u)
    case Some(w) => if ok then s1.(db := s.db.(rows := UpdateRows(s.db.rows, u.pid, w))) else s1
    case None => s1
  }

  function AfterPersistSettlement(s: System, ok: bool): System
    requires s.persist.settled < |s.bus.settled|
  {
    var ev := s.bus.settled[s.persist.settled];
    var next := s.persist.(settled := s.persist.settled + 1);
    match SettledWrite(ev)
    case Some(w) =>
      if ok then s.(persist := next.(persisted := next.persisted + {ev.pid}),
                    db := s.db.(rows := UpdateRows(s.db.rows, ev.pid, w)))
      else s.(persist := next)
    case None => s.(persist := next)
  }

  // ─── Bankroll ───────────────────────────────────────────────────────────────

  predicate BankEnabled(b: BankState, bus: Bus, e: Event) {
    match e
    case BankOrder => b.orders < |bus.orders|
    case BankSettlement => b.settled < |bus.settled|
    case BankRedemption => b.redeemed < |bus.redeemed|
    case LagBankOrders(n) => b.orders + n <= |bus.orders|
    case LagBankSettled(n) => b.settled + n <= |bus.settled|
    case _ => false
  }

  function BankNext(b: BankState, bus: Bus, e: Event): BankState
    requires BankEnabled(b, bus, e)
  {
    match e
    case BankOrder =>
      var u := bus.orders[b.orders];
      b.(orders := b.orders + 1,
         account := if u.OrderFilled? then OnFill(b.account, u.avgPrice * u.sizeMatched) else b.account)
    case BankSettlement =>
      var ev := bus.settled[b.settled];
      b.(settled := b.settled + 1, account := OnSettlement(b.account, ev.cost, ev.realizedPnl))
    case BankRedemption =>
      b.(redeemed := b.redeemed + 1, account := OnRedemption(b.account, bus.redeemed[b.redeemed].payout))
    case LagBankOrders(n) => b.(orders := b.orders + n)
    case LagBankSettled(n) => b.(settled := b.settled + n)
  }

  // ─── Settlement ─────────────────────────────────────────────────────────────

  predicate SettleEnabled(p: SettlePhase, e: Event) {
    match e
    case BeginSettle(_, _) => p.SettleIdle?
    case Mark(pid, _) => p.SettleLoop? && pid in p.todo
    case AnnounceLost => p.Marked? && !Wins(p.row, p.winner)
    case AnnounceWon(_) => p.Marked? && Wins(p.row, p.winner)
    case RedeemErr => p.Marked? && Wins(p.row, p.winner)
    case SendPending => p.Announcing?
    case EndSettle => p.SettleLoop? && p.todo == map[]
    case _ => false
  }

  function SettleNext(p: SettlePhase, rows: Rows, e: Event): SettlePhase
    requires SettleEnabled(p, e)
  {
    match e
    case BeginSettle(slug, winner) => SettleLoop(ToSettle(rows, slug), winner)
    case Mark(pid, ok) =>
      if ok then Marked(pid, p.todo[pid], p.todo - {pid}, p.winner) else SettleLoop(p.todo - {pid}, p.winner)
    case AnnounceWon(receipt) =>
      if receipt.transactionId.Some? then Announcing(p.pid, receipt.payout, p.todo, p.winner)
      else SettleLoop(p.todo, p.winner)
    case AnnounceLost => SettleLoop(p.todo, p.winner)
    case RedeemErr => SettleLoop(p.todo, p.winner)
    case SendPending => SettleLoop(p.todo, p.winner)
    case EndSettle => SettleIdle
  }

  function SettleStep(s: System, e: Event): System
    requires SettleEnabled(s.settle.phase, e)
  {
    var p := s.settle.phase;
    var s1 := s.(settle := s.settle.(phase := SettleNext(p, s.db.rows, e)));
    match e
    case BeginSettle(slug, _) => s1.(settle := s1.settle.(resolved := s.settle.resolved + {slug}))
    case Mark(pid, true) => s1.(db := s.db.(rows := UpdateRows(s.db.rows, pid, SetSettling)))
    case AnnounceLost => s1.(bus := s.bus.(settled := s.bus.settled + [LostEvent(p.pid, p.row)]))
    case AnnounceWon(receipt) =>
      s1.(bus := s.bus.(settled := s.bus.settled + [WonEvent(p.pid, p.row, receipt.payout)]))
    case SendPending => s1.(bus := s.bus.(pending := s.bus.pending + [Redemption(p.pid, p.payout)]))
    case _ => s1
  }

  // ─── Redeem poller ──────────────────────────────────────────────────────────

  predicate RedeemEnabled(r: RedeemState, bus: Bus, e: Event) {
    match e
    case TakePending => r.phase.RedeemIdle? && r.seen < |bus.pending|
    case BeginCheck => r.phase.RedeemIdle?
    case Confirm(pid, _) => r.phase.Checking? && pid in r.phase.todo && pid in r.tracked
    case SendRedeemed => r.phase.Written?
    case RedeemFailed(pid) => r.phase.Checking? && pid in r.phase.todo
    case StillPending(pid) => r.phase.Checking? && pid in r.phase.todo
    case EndCheck => r.phase.Checking? && r.phase.todo == {}
    case _ => false
  }

  function RedeemNext(r: RedeemState, bus: Bus, e: Event): RedeemState
    requires RedeemEnabled(r, bus, e)
  {
    match e
    case TakePending =>
      var p := bus.pending[r.seen];
      r.(seen := r.seen + 1, tracked := r.tracked[p.pid := p.payout])
    case BeginCheck => r.(phase := Checking(r.tracked.Keys, {}))
    case Confirm(pid, _) => r.(phase := Written(pid, r.tracked[pid], r.phase.todo - {pid}, r.phase.done))
    case SendRedeemed => r.(phase := Checking(r.phase.todo, r.phase.done + {r.phase.pid}))
    case RedeemFailed(pid) => r.(phase := Checking(r.phase.todo - {pid}, r.phase.done + {pid}))
    case StillPending(pid) => r.(phase := Checking(r.phase.todo - {pid}, r.phase.done))
    case EndCheck => r.(tracked := r.tracked - r.phase.done, phase := RedeemIdle)
  }

  function RedeemStep(s: System, e: Event): System
    requires RedeemEnabled(s.redeem, s.bus, e)
  {
    var s1 := s.(redeem := RedeemNext(s.redeem, s.bus, e));
    match e
    case Confirm(pid, true) => s1.(db := s.db.(rows := UpdateRows(s.db.rows, pid, SetRedeemed)))
    case SendRedeemed =>
      s1.(bus := s.bus.(redeemed := s.bus.redeemed + [Redemption(s.redeem.phase.pid, s.redeem.phase.payout)]))
    case _ => s1
  }

  // ─── Runs ───────────────────────────────────────────────────────────────────

  datatype Task = Rotation | Executor | Poller | Persister | Banker | Settlement | Redeemer

  function Owner(e: Event): Task {
    match e
    case Publish(_) => Rotation
    case Rotate => Executor
    case Draft(_) => Executor
    case Insert(_) => Executor
    case ClaimSlot => Executor
    case PlaceOk(_) => Executor
    case PlaceErr => Executor
    case ExecWrite(_) => Executor
    case SeeSlot => Poller
    case Fetch(_) => Poller
    case ResolveIds => Poller
    case PollOrder(_, _) => Poller
    case PollDone => Poller
    case PersistOrder(_) => Persister
    case PersistSettlement(_) => Persister
    case LagPersistOrders(_) => Persister
    case LagPersistSettled(_) => Persister
    case BankOrder => Banker
    case BankSettlement => Banker
    case BankRedemption => Banker
    case LagBankOrders(_) => Banker
    case LagBankSettled(_) => Banker
    case BeginSettle(_, _) => Settlement
    case Mark(_, _) => Settlement
    case AnnounceLost => Settlement
    case AnnounceWon(_) => Settlement
    case RedeemErr => Settlement
    case SendPending => Settlement
    case EndSettle => Settlement
    case _ => Redeemer
  }

  predicate Enabled(s: System, e: Event) {
    match Owner(e)
    case Rotation => true
    case Executor => ExecEnabled(s.exec, e)
    case Poller => PollEnabled(s.poll, e)
    case Persister => PersistEnabled(s, e)
    case Banker => BankEnabled(s.bank, s.bus, e)
    case Settlement => SettleEnabled(s.settle.phase, e)
    case Redeemer => RedeemEnabled(s.redeem, s.bus, e)
  }

  function Next(s: System, e: Event): System
    requires Enabled(s, e)
  {
    match Owner(e)
    case Rotation => s.(exec := s.exec.(market := e.market, marketUnseen := true))
    case Executor => ExecStep(s, e)
    case Poller => PollStep(s, e)
    case Persister => PersistStep(s, e)
    case Banker => s.(bank := BankNext(s.bank, s.bus, e))
    case Settlement => SettleStep(s, e)
    case Redeemer => RedeemStep(s, e)
  }

  /** A fresh process over whatever rows the database already holds. */
  ghost predicate Init(s: System) {
    && s.db.rows == s.db.start && (forall id :: id in s.db.start ==> id <= s.db.lastId)
    && s.exec == ExecState(None, false, RoundSlotState.Empty, ExecIdle, 0)
    && s.poll == PollState(false, PollIdle, Tracking({}, map[]))
    && s.settle == SettleState(SettleIdle, {})
    && s.redeem == RedeemState(RedeemIdle, map[], 0)
    && s.bus == Bus([], [], [], [])
    && s.persist == PersistState(0, 0, {})
    && s.bank == BankState(0, 0, 0, Account(s.bank.account.bankroll, 0.0, 0.0))
  }

  ghost predicate Run(s: System, events: seq<Event>)
    decreases |events|
  {
    events == [] || (Enabled(s, events[0]) && Run(Next(s, events[0]), events[1..]))
  }

  ghost function After(s: System, events: seq<Event>): System
    requires Run(s, events)
    decreases |events|
  {
    if events == [] then s else After(Next(s, events[0]), events[1..])
  }

  /** One more step in front. */
  lemma RunCons(s: System, e: Event, rest: seq<Event>)
    requires Enabled(s, e) && Run(Next(s, e), rest)
    ensures Run(s, [e] + rest) && After(s, [e] + rest) == After(Next(s, e), rest)
  {
    assert ([e] + rest)[1..] == rest;
  }

  /** One more step at the end. */
  lemma {:induction false} RunSnoc(s: System, events: seq<Event>, e: Event)
    requires Run(s, events) && Enabled(After(s, events), e)
    ensures Run(s, events + [e]) && After(s, events + [e]) == Next(After(s, events), e)
    decreases |events|
  {
    if events == [] {
      assert events + [e] == [e];
      RunCons(s, e, []);
    } else {
      RunSnoc(Next(s, events[0]), events[1..], e);
      assert events + [e] == [events[0]] + (events[1..] + [e]);
      RunCons(s, events[0], events[1..] + [e]);
    }
  }

  /** One run after another. */
  lemma {:induction false} RunJoin(s: System, a: seq<Event>, b: seq<Event>)
    requires Run(s, a) && Run(After(s, a), b)
    ensures Run(s, a + b) && After(s, a + b) == After(After(s, a), b)
    decreases |a|
  {
    if a == [] {
      assert a + b == b;
    } else {
      RunJoin(Next(s, a[0]), a[1..], b);
      assert a + b == [a[0]] + (a[1..] + b);
      RunCons(s, a[0], a[1..] + b);
    }
  }

  // ─── The store over one step ────────────────────────────────────────────────

  /** The row an event writes, and with what. */
  function WriteOf(s: System, e: Event): Option<(nat, PositionUpdate)>
    requires Enabled(s, e)
  {
    match e
    case ExecWrite(true) =>
      Some((s.exec.phase.pid,
            if s.exec.phase.Placed? then SetSubmitted(s.exec.phase.orderId) else SetRejected))
    case PersistOrder(true) =>
      var u := s.bus.orders[s.persist.orders];
      (match OrderWrite(u) case Some(w) => Some((u.pid, w)) case None => None)
    case PersistSettlement(true) =>
      var ev := s.bus.settled[s.persist.settled];
      (match SettledWrite(ev) case Some(w) => Some((ev.pid, w)) case None => None)
    case Mark(p, true) => Some((p, SetSettling))
    case Confirm(p, true) => Some((p, SetRedeemed))
    case _ => None
  }

  /** Every step either inserts one Submitted row, or makes the one write WriteOf names, or leaves the store alone. */
  lemma StoreStep(s: System, e: Event)
    requires Enabled(s, e)
    ensures Next(s, e).db.start == s.db.start
    ensures e != Insert(true) ==>
              Next(s, e).db.rows ==
                (match WriteOf(s, e) case Some(w) => UpdateRows(s.db.rows, w.0, w.1) case None => s.db.rows)
    ensures e == Insert(true) ==>
              exists row: Row ::
                && Next(s, e).db == s.db.(rows := s.db.rows[s.db.lastId + 1 := row], lastId := s.db.lastId + 1)
                && row.status == Submitted && row.orderId == None && row.avgPrice == None
  {
    if e == Insert(true) {
      var p := s.exec.phase;
      var row := SubmittedRow(p.market, p.outcome, p.intent);
      assert Next(s, e).db == s.db.(rows := s.db.rows[s.db.lastId + 1 := row], lastId := s.db.lastId + 1);
    }
  }

  // ─── How far a task's steps reach ───────────────────────────────────────────

  lemma ExecutorReach(s: System, e: Event)
    requires Enabled(s, e) && Owner(e).Executor?
    ensures var t := Next(s, e);
            && t.poll.(slotUnseen := s.poll.slotUnseen) == s.poll && t.settle == s.settle && t.redeem == s.redeem
            && t.persist == s.persist && t.bank == s.bank
            && s.bus.orders <= t.bus.orders && t.bus.(orders := s.bus.orders) == s.bus
  {
  }

  lemma ExecutorMoves(s: System, e: Event)
    requires Enabled(s, e) && Owner(e).Executor?
    ensures ExecEnabled(s.exec, e) && Next(s, e).exec == ExecNext(s.exec, e, s.db.lastId + 1)
  {
  }

  /** What the executor does next, and about what, only it decides. */
  lemma OthersKeepExecutor(s: System, e: Event)
    requires Enabled(s, e) && !Owner(e).Executor?
    ensures var x := Next(s, e).exec; x.(market := s.exec.market, marketUnseen := s.exec.marketUnseen) == s.exec
  {
    match Owner(e)
    case Poller => PollerReach(s, e);
    case Persister => PersisterReach(s, e);
    case Settlement => SettlementReach(s, e);
    case Redeemer => RedeemerReach(s, e);
    case _ =>
  }

  lemma PollerReach(s: System, e: Event)
    requires Enabled(s, e) && Owner(e).Poller?
    ensures var t := Next(s, e);
            && t.(poll := s.poll, bus := s.bus) == s
            && s.bus.orders <= t.bus.orders && t.bus.(orders := s.bus.orders) == s.bus
  {
  }

  lemma PersisterReach(s: System, e: Event)
    requires Enabled(s, e) && Owner(e).Persister?
    ensures Next(s, e).(persist := s.persist, db := s.db) == s
  {
  }

  lemma SettlementReach(s: System, e: Event)
    requires Enabled(s, e) && Owner(e).Settlement?
    ensures var t := Next(s, e);
            && t.(settle := s.settle, db := s.db, bus := s.bus) == s
            && s.bus.settled <= t.bus.settled && s.bus.pending <= t.bus.pending
            && t.bus.(settled := s.bus.settled, pending := s.bus.pending) == s.bus
  {
  }

  lemma RedeemerReach(s: System, e: Event)
    requires Enabled(s, e) && Owner(e).Redeemer?
    ensures var t := Next(s, e);
            && t.(redeem := s.redeem, db := s.db, bus := s.bus) == s
            && s.bus.redeemed <= t.bus.redeemed && t.bus.(redeemed := s.bus.redeemed) == s.bus
  {
  }

  /** Every queue only grows. */
  lemma BusGrows(s: System, e: Event)
    requires Enabled(s, e)
    ensures var t := Next(s, e).bus;
            s.bus.orders <= t.orders && s.bus.settled <= t.settled && s.bus.pending <= t.pending && s.bus.redeemed <= t.redeemed
  {
    match Owner(e)
    case Executor => ExecutorReach(s, e);
    case Poller => PollerReach(s, e);
    case Persister => PersisterReach(s, e);
    case Settlement => SettlementReach(s, e);
    case Redeemer => RedeemerReach(s, e);
    case _ =>
  }

  // ─── Disciplines some claims need ───────────────────────────────────────────

  /** A delivered resolution picks no position that was announced settled before. */
  ghost predicate PicksNew(s: System, e: Event) {
    e.BeginSettle? ==> forall v :: v in s.bus.settled ==> v.pid !in ToSettle(s.db.rows, e.slug)
  }

  ghost predicate RunPicksNew(s: System, events: seq<Event>)
    requires Run(s, events)
    decreases |events|
  {
    events == [] || (PicksNew(s, events[0]) && RunPicksNew(Next(s, events[0]), events[1..]))
  }

  lemma {:induction false} PicksNewSnoc(s: System, events: seq<Event>, e: Event)
    requires Run(s, events) && RunPicksNew(s, events)
    requires Enabled(After(s, events), e) && PicksNew(After(s, events), e)
    ensures Run(s, events + [e]) && RunPicksNew(s, events + [e])
    decreases |events|
  {
    RunSnoc(s, events, e);
    if events == [] {
      assert events + [e] == [e] && [e][1..] == [];
    } else {
      PicksNewSnoc(Next(s, events[0]), events[1..], e);
      assert (events + [e])[1..] == events[1..] + [e];
    }
  }

  /** Stronger than needed, but visible in the deliveries alone: each market's Resolved comes at most once. */
  predicate ResolvedOnce(s: System, e: Event) {
    e.BeginSettle? ==> e.slug !in s.settle.resolved
  }

  ghost predicate RunResolvedOnce(s: System, events: seq<Event>)
    requires Run(s, events)
    decreases |events|
  {
    events == [] || (ResolvedOnce(s, events[0]) && RunResolvedOnce(Next(s, events[0]), events[1..]))
  }

  /** No market is settled twice among these events. */
  ghost predicate DistinctSettles(events: seq<Event>) {
    forall i, j :: 0 <= i < j < |events| && events[i].BeginSettle? && events[j].BeginSettle? ==>
      events[i].slug != events[j].slug
  }

  ghost predicate NoneOf(slugs: set<string>, events: seq<Event>) {
    forall i :: 0 <= i < |events| && events[i].BeginSettle? ==> events[i].slug !in slugs
  }

  lemma ResolvedGrows(s: System, e: Event)
    requires Enabled(s, e)
    ensures Next(s, e).settle.resolved == s.settle.resolved + if e.BeginSettle? then {e.slug} else {}
  {
    match Owner(e)
    case Settlement =>
    case _ => OthersKeepSettlement(s, e);
  }

  lemma OthersKeepSettlement(s: System, e: Event)
    requires Enabled(s, e) && !Owner(e).Settlement?
    ensures Next(s, e).settle == s.settle
  {
    match Owner(e)
    case Executor => ExecutorReach(s, e);
    case Poller => PollerReach(s, e);
    case Persister => PersisterReach(s, e);
    case Redeemer => RedeemerReach(s, e);
    case _ =>
  }

  /** The discipline is one on the resolutions delivered, whatever else the run does. */
  lemma {:induction false} ResolvedOnceIff(s: System, events: seq<Event>)
    requires Run(s, events)
    ensures RunResolvedOnce(s, events) <==> DistinctSettles(events) && NoneOf(s.settle.resolved, events)
    decreases |events|
  {
    if events != [] {
      var e, rest := events[0], events[1..];
      ResolvedGrows(s, e);
      ResolvedOnceIff(Next(s, e), rest);
      if DistinctSettles(events) && NoneOf(s.settle.resolved, events) {
        assert forall i :: 0 <= i < |rest| ==> rest[i] == events[i + 1];
      }
      if RunResolvedOnce(s, events) {
        ConsDistinct(s.settle.resolved, e, rest);
        assert events == [e] + rest;
      }
    }
  }

  lemma ConsDistinct(resolved: set<string>, e: Event, rest: seq<Event>)
    requires DistinctSettles(rest) && (e.BeginSettle? ==> e.slug !in resolved)
    requires NoneOf(resolved + if e.BeginSettle? then {e.slug} else {}, rest)
    ensures DistinctSettles([e] + rest) && NoneOf(resolved, [e] + rest)
  {
  }
}
