/** The bot against the dry-run exchange: every order reply and payout the machine receives is the one
    the simulated exchange gives, with its status call in two sections and everything else in between. */
module DryRun {
  import opened Types
  import opened Sums
  import opened Store
  import opened Settling
  import opened Protocol
  import opened OrderSafety
  import opened SettleSafety
  import opened Money
  import opened SimExchange
  import Solvency

  /** `placing` is the counter the executor's order was minted from, until it rests. */
  datatype Dry = Dry(bot: System, sim: World, placing: Option<nat>)

  datatype DryEvent =
    | Bot(event: Event)
    | MintOrder(now: int)
    | RestOrder
    | OpenPoll(pid: nat, now: int)
    | ClosePoll(price: Option<real>)
    | RedeemWin

  /** The poller's one status call. */
  const POLL: nat := 0

  /** Machine events whose argument is the exchange's to choose; this exchange never refuses. */
  predicate ForTheExchange(e: Event) {
    e.PlaceOk? || e.PlaceErr? || e.PollOrder? || e.AnnounceWon? || e.RedeemErr?
  }

  predicate CanPoll(p: PollState, pid: nat) {
    p.phase.Polling? && pid in p.phase.todo
  }

  predicate Can(d: Dry, e: DryEvent) {
    match e
    case Bot(b) => Enabled(d.bot, b) && !ForTheExchange(b)
    case MintOrder(_) => d.bot.exec.phase.Claimed? && d.placing.None?
    case RestOrder => d.bot.exec.phase.Claimed? && d.placing.Some? && d.placing.value in d.sim.placing
    case OpenPoll(pid, _) => CanPoll(d.bot.poll, pid) && pid in d.bot.poll.tracking.tracked && POLL !in d.sim.calls
    case ClosePoll(_) => POLL in d.sim.calls && CanPoll(d.bot.poll, d.sim.calls[POLL].pid)
    case RedeemWin => d.bot.settle.phase.Marked? && Wins(d.bot.settle.phase.row, d.bot.settle.phase.winner)
  }

  /** What the exchange does. */
  function SimEventOf(d: Dry, e: DryEvent): Option<SimEvent>
    requires Can(d, e)
  {
    match e
    case Bot(_) => None
    case MintOrder(now) => Some(DoMint(d.bot.exec.phase.intent, d.bot.exec.phase.tokenId, now))
    case RestOrder => Some(DoRest(d.placing.value))
    case OpenPoll(pid, now) => Some(DoOpen(POLL, d.bot.poll.tracking.tracked[pid], pid, now))
    case ClosePoll(price) => Some(DoClose(POLL, price))
    case RedeemWin => Some(DoRedeem)
  }

  /** The update a poll step hands to the bot: none after a first section that goes on, or after the panic. */
  function Answer(d: Dry, config: SimConfig, e: DryEvent): Option<OrderUpdate>
    requires Can(d, e)
  {
    match e
    case OpenPoll(pid, now) =>
      (match OpenStatus(d.sim.ledger, config, d.bot.poll.tracking.tracked[pid], pid, now)
       case Answered(_, u) => Some(u)
       case Dropped(_, _) => None)
    case ClosePoll(price) =>
      var c := d.sim.calls[POLL];
      (match CloseStatus(d.sim.ledger, c.order, c.oid, c.pid, price)
       case Some(closed) => Some(closed.1)
       case None => None)
    case _ => None
  }

  /** The machine event this is, if any. */
  function BotEventOf(d: Dry, config: SimConfig, e: DryEvent): Option<Event>
    requires Can(d, e)
  {
    match e
    case Bot(b) => Some(b)
    case MintOrder(_) => None
    case RestOrder => Some(PlaceOk(OrderId(d.placing.value)))
    case OpenPoll(_, _) =>
      (match Answer(d, config, e) case Some(u) => Some(PollOrder(u.pid, Some(u))) case None => None)
    case ClosePoll(_) =>
      (match Answer(d, config, e) case Some(u) => Some(PollOrder(u.pid, Some(u))) case None => None)
    case RedeemWin => Some(AnnounceWon(Receipt(Some(TransactionId(d.sim.ledger.counter)), d.bot.settle.phase.row.shares)))
  }

  function SimNext(d: Dry, config: SimConfig, e: DryEvent): World
    requires Can(d, e)
  {
    match SimEventOf(d, e) case Some(x) => Step(d.sim, config, x) case None => d.sim
  }

  function DryNext(d: Dry, config: SimConfig, e: DryEvent): Dry
    requires Can(d, e)
  {
    Dry(match BotEventOf(d, config, e) case Some(b) => Next(d.bot, b) case None => d.bot,
        SimNext(d, config, e),
        if e.MintOrder? then Some(d.sim.ledger.counter) else if e.RestOrder? then None else d.placing)
  }

  ghost predicate DrySteps(d: Dry, config: SimConfig, events: seq<DryEvent>)
    decreases |events|
  {
    events == [] || (Can(d, events[0]) && DrySteps(DryNext(d, config, events[0]), config, events[1..]))
  }

  ghost function DryAfter(d: Dry, config: SimConfig, events: seq<DryEvent>): Dry
    requires DrySteps(d, config, events)
    decreases |events|
  {
    if events == [] then d else DryAfter(DryNext(d, config, events[0]), config, events[1..])
  }

  // ─── The bot's side is a run of the machine ─────────────────────────────────

  ghost function BotRun(d: Dry, config: SimConfig, events: seq<DryEvent>): seq<Event>
    requires DrySteps(d, config, events)
    decreases |events|
  {
    if events == [] then []
    else
      (match BotEventOf(d, config, events[0]) case Some(b) => [b] case None => [])
      + BotRun(DryNext(d, config, events[0]), config, events[1..])
  }

  lemma {:induction false} BotRuns(d: Dry, config: SimConfig, events: seq<DryEvent>)
    requires DrySteps(d, config, events)
    ensures Run(d.bot, BotRun(d, config, events))
    ensures After(d.bot, BotRun(d, config, events)) == DryAfter(d, config, events).bot
    decreases |events|
  {
    if events != [] {
      var next, rest := DryNext(d, config, events[0]), events[1..];
      BotRuns(next, config, rest);
      match BotEventOf(d, config, events[0])
      case Some(b) => RunCons(d.bot, b, BotRun(next, config, rest));
      case None => assert BotRun(d, config, events) == BotRun(next, config, rest);
    }
  }

  // ─── What every dry run keeps ───────────────────────────────────────────────

  predicate SameDeal(shares: real, limit: real, row: Row) {
    shares == row.shares && limit == row.limitPrice
  }

  /** An id the exchange has minted and put to rest, whether it still rests or not. */
  ghost predicate Known(sim: World, oid: string) {
    exists n: nat :: n < sim.ledger.counter && n !in sim.placing && oid == OrderId(n)
  }

  /** If the order still rests it is on the row's terms. */
  ghost predicate OnTerms(sim: World, oid: string, row: Row) {
    Known(sim, oid) &&
    (oid in sim.ledger.resting ==> SameDeal(sim.ledger.resting[oid].shares, sim.ledger.resting[oid].limitPrice, row))
  }

  ghost predicate RowsOnTerms(db: Db, sim: World) {
    forall p :: Fresh(db, p) && db.rows[p].orderId.Some? ==> OnTerms(sim, db.rows[p].orderId.value, db.rows[p])
  }

  /** The executor's row, its intent, and the order on its way agree. */
  ghost predicate InHandOnTerms(rows: Rows, phase: ExecPhase, sim: World, placing: Option<nat>) {
    && (phase.Inserted? || phase.Claimed? ==>
          phase.pid in rows && SameDeal(phase.intent.shares, phase.intent.limitPrice, rows[phase.pid]))
    && (phase.Placed? ==> phase.pid in rows && OnTerms(sim, phase.orderId, rows[phase.pid]))
    && (placing.Some? ==>
          && phase.Claimed? && placing.value in sim.placing
          && sim.placing[placing.value].shares == phase.intent.shares
          && sim.placing[placing.value].limitPrice == phase.intent.limitPrice)
  }

  /** Only the poller's call is ever in flight, for a position of this session and its own order. */
  ghost predicate CallOk(db: Db, sim: World) {
    && sim.calls.Keys <= {POLL}
    && (POLL in sim.calls ==>
          Fresh(db, sim.calls[POLL].pid) && db.rows[sim.calls[POLL].pid].orderId == Some(sim.calls[POLL].oid))
  }

  /** Every fill is for the shares ordered, at the limit price. */
  ghost predicate FillsOnTerms(rows: Rows, log: seq<OrderUpdate>) {
    forall u :: u in log && u.OrderFilled? ==> u.pid in rows && SameDeal(u.sizeMatched, u.avgPrice, rows[u.pid])
  }

  /** The rows settlement works on are the stored ones as to shares, and every win announced paid one unit a share. */
  ghost predicate WinsOnTerms(rows: Rows, phase: SettlePhase, log: seq<SettledEvent>) {
    && (!phase.SettleIdle? ==> forall p :: p in phase.todo ==> p in rows && phase.todo[p].shares == rows[p].shares)
    && (phase.Marked? ==> phase.pid in rows && phase.row.shares == rows[phase.pid].shares)
    && (forall v :: v in log && v.status.Won? ==> v.pid in rows && v.cost + v.realizedPnl == rows[v.pid].shares)
  }

  ghost predicate DryOk(d: Dry, config: SimConfig) {
    && Inv(d.bot) && WorldOk(d.sim, config) && CallsOk(d.sim)
    && RowsOnTerms(d.bot.db, d.sim)
    && InHandOnTerms(d.bot.db.rows, d.bot.exec.phase, d.sim, d.placing)
    && CallOk(d.bot.db, d.sim)
    && FillsOnTerms(d.bot.db.rows, d.bot.bus.orders)
    && WinsOnTerms(d.bot.db.rows, d.bot.settle.phase, d.bot.bus.settled)
  }

  ghost predicate DryInit(d: Dry, config: SimConfig) {
    Init(d.bot) && d.sim == Start(config) && d.placing.None?
  }

  lemma DryInitOk(d: Dry, config: SimConfig)
    requires DryInit(d, config)
    ensures DryOk(d, config)
  {
    InitInv(d.bot);
    StartOk(config);
  }

  // ─── Steps of the bot alone ─────────────────────────────────────────────────

  /** No write changes a row's terms, and only the executor's changes an order id, to the one in its hand. */
  lemma TermsOfRows(s: System, e: Event, p: nat)
    requires DbOk(s.db) && Enabled(s, e) && p in s.db.rows
    ensures var t := Next(s, e);
            && p in t.db.rows && t.db.rows[p].shares == s.db.rows[p].shares && t.db.rows[p].limitPrice == s.db.rows[p].limitPrice
            && (t.db.rows[p].orderId == s.db.rows[p].orderId
                || (s.exec.phase.Placed? && p == s.exec.phase.pid && t.db.rows[p].orderId == Some(s.exec.phase.orderId)))
  {
    StoreStep(s, e);
  }

  lemma NewRow(s: System, e: Event, p: nat)
    requires DbOk(s.db) && Enabled(s, e) && p !in s.db.rows && p in Next(s, e).db.rows
    ensures e == Insert(true) && p == s.db.lastId + 1
    ensures var row := Next(s, e).db.rows[p];
            row.orderId.None? && SameDeal(s.exec.phase.intent.shares, s.exec.phase.intent.limitPrice, row)
  {
    StoreStep(s, e);
  }

  lemma BotRows(d: Dry, config: SimConfig, b: Event)
    requires DryOk(d, config) && Can(d, Bot(b))
    ensures RowsOnTerms(Next(d.bot, b).db, d.sim)
  {
    var t := Next(d.bot, b);
    StartKept(d.bot, b);
    forall p | Fresh(t.db, p) && t.db.rows[p].orderId.Some?
      ensures OnTerms(d.sim, t.db.rows[p].orderId.value, t.db.rows[p])
    {
      if p in d.bot.db.rows {
        TermsOfRows(d.bot, b, p);
        assert Fresh(d.bot.db, p);
      } else {
        NewRow(d.bot, b, p);
      }
    }
  }

  lemma StartKept(s: System, e: Event)
    requires Enabled(s, e)
    ensures Next(s, e).db.start == s.db.start
  {
    StoreStep(s, e);
  }

  /** What the bot's own events can make of the executor's phase. */
  lemma PhaseAfter(s: System, b: Event)
    requires Enabled(s, b) && !ForTheExchange(b)
    ensures var x, y := s.exec.phase, Next(s, b).exec.phase;
            && (y.Claimed? || y.Placed? ==> y == x || (y.Claimed? && x.Inserted? && y == Claimed(x.pid, x.intent, x.tokenId)))
            && (y.Inserted? ==> y == x || (b == Insert(true) && x.Drafted? && y == Inserted(s.db.lastId + 1, x.intent, x.outcome.tokenId)))
            && (x.Claimed? ==> y == x)
  {
    match Owner(b)
    case Executor =>
    case Poller => PollerReach(s, b);
    case Persister => PersisterReach(s, b);
    case Settlement => SettlementReach(s, b);
    case Redeemer => RedeemerReach(s, b);
    case _ =>
  }

  lemma BotInHand(d: Dry, config: SimConfig, b: Event)
    requires DryOk(d, config) && Can(d, Bot(b))
    ensures InHandOnTerms(Next(d.bot, b).db.rows, Next(d.bot, b).exec.phase, d.sim, d.placing)
  {
    var t := Next(d.bot, b);
    PhaseAfter(d.bot, b);
    var x := d.bot.exec.phase;
    if x.HoldsRow() {
      TermsOfRows(d.bot, b, x.pid);
    }
    if b == Insert(true) {
      NewRow(d.bot, b, d.bot.db.lastId + 1);
    }
  }

  lemma BotCall(d: Dry, config: SimConfig, b: Event)
    requires DryOk(d, config) && Can(d, Bot(b))
    ensures CallOk(Next(d.bot, b).db, d.sim)
  {
    StartKept(d.bot, b);
    if POLL in d.sim.calls {
      TermsOfRows(d.bot, b, d.sim.calls[POLL].pid);
      NotPlacing(d.bot, d.sim.calls[POLL].pid);
    }
  }

  /** A row that has its order id is not in the executor's hand. */
  lemma NotPlacing(s: System, p: nat)
    requires Inv(s) && p in s.db.rows && s.db.rows[p].orderId.Some?
    ensures s.exec.phase.HoldsRow() ==> s.exec.phase.pid != p
  {
  }

  lemma BotFills(d: Dry, config: SimConfig, b: Event)
    requires DryOk(d, config) && Can(d, Bot(b))
    ensures FillsOnTerms(Next(d.bot, b).db.rows, Next(d.bot, b).bus.orders)
  {
    var t := Next(d.bot, b);
    OrdersKept(d.bot, b);
    forall u | u in t.bus.orders && u.OrderFilled? ensures u.pid in t.db.rows && SameDeal(u.sizeMatched, u.avgPrice, t.db.rows[u.pid]) {
      TermsOfRows(d.bot, b, u.pid);
    }
  }

  lemma OrdersKept(s: System, b: Event)
    requires Enabled(s, b) && !ForTheExchange(b)
    ensures Next(s, b).bus.orders == s.bus.orders
  {
    match Owner(b)
    case Executor =>
    case Poller =>
    case Persister => PersisterReach(s, b);
    case Settlement => SettlementReach(s, b);
    case Redeemer => RedeemerReach(s, b);
    case _ =>
  }

  lemma WinsFrame(rows: Rows, after: Rows, phase: SettlePhase, log: seq<SettledEvent>)
    requires WinsOnTerms(rows, phase, log)
    requires forall p :: p in rows ==> p in after && after[p].shares == rows[p].shares
    ensures WinsOnTerms(after, phase, log)
  {
  }

  lemma SharesKept(s: System, e: Event)
    requires DbOk(s.db) && Enabled(s, e)
    ensures forall p :: p in s.db.rows ==> p in Next(s, e).db.rows && Next(s, e).db.rows[p].shares == s.db.rows[p].shares
  {
    forall p | p in s.db.rows ensures p in Next(s, e).db.rows && Next(s, e).db.rows[p].shares == s.db.rows[p].shares {
      TermsOfRows(s, e, p);
    }
  }

  lemma BotWins(d: Dry, config: SimConfig, b: Event)
    requires DryOk(d, config) && Can(d, Bot(b))
    ensures var t := Next(d.bot, b); WinsOnTerms(t.db.rows, t.settle.phase, t.bus.settled)
  {
    var s, t := d.bot, Next(d.bot, b);
    SharesKept(s, b);
    WinsFrame(s.db.rows, t.db.rows, s.settle.phase, s.bus.settled);
    if Owner(b).Settlement? {
      SettlementWins(s, b, t.db.rows);
    } else {
      SettlementKept(s, b);
    }
  }

  lemma SettlementKept(s: System, b: Event)
    requires Enabled(s, b) && !Owner(b).Settlement?
    ensures Next(s, b).settle == s.settle && Next(s, b).bus.settled == s.bus.settled
  {
    match Owner(b)
    case Executor => ExecutorReach(s, b);
    case Poller => PollerReach(s, b);
    case Persister => PersisterReach(s, b);
    case Redeemer => RedeemerReach(s, b);
    case _ =>
  }

  /** Only the exchange's answer makes a win; what is picked up is picked from the rows. */
  lemma SettlementWins(s: System, b: Event, rows: Rows)
    requires Enabled(s, b) && Owner(b).Settlement? && !b.AnnounceWon? && rows == Next(s, b).db.rows
    requires WinsOnTerms(s.db.rows, s.settle.phase, s.bus.settled) && WinsOnTerms(rows, s.settle.phase, s.bus.settled)
    ensures WinsOnTerms(rows, Next(s, b).settle.phase, Next(s, b).bus.settled)
  {
    var t := Next(s, b);
    if b.AnnounceLost? {
      forall v | v in t.bus.settled && v.status.Won? ensures v in s.bus.settled {
      }
    }
  }

  lemma BotKeeps(d: Dry, config: SimConfig, b: Event)
    requires DryOk(d, config) && Can(d, Bot(b))
    ensures DryOk(DryNext(d, config, Bot(b)), config)
  {
    StepKeeps(d.bot, b);
    BotRows(d, config, b);
    BotInHand(d, config, b);
    BotCall(d, config, b);
    BotFills(d, config, b);
    BotWins(d, config, b);
  }

  // ─── Steps of the exchange ──────────────────────────────────────────────────

  /** What rests keeps its terms, what is known stays known, and nothing known starts to rest. */
  lemma SimKeepsTerms(sim: World, config: SimConfig, x: SimEvent, oid: string, row: Row)
    requires WorldOk(sim, config) && CanStep(sim, x) && OnTerms(sim, oid, row)
    ensures OnTerms(Step(sim, config, x), oid, row)
  {
    var n: nat :| n < sim.ledger.counter && n !in sim.placing && oid == OrderId(n);
    var next := Step(sim, config, x);
    OnlyRestAdds(sim, config, x);
    assert n < next.ledger.counter && n !in next.placing;
    if oid in next.ledger.resting {
      if x.DoRest? && OrderId(x.n) == oid {
        OrderIdInjective(x.n, n);
      }
      TermsKeptStep(sim, config, x, oid);
    }
  }

  lemma SimRows(d: Dry, config: SimConfig, x: SimEvent)
    requires DryOk(d, config) && CanStep(d.sim, x)
    ensures RowsOnTerms(d.bot.db, Step(d.sim, config, x))
    ensures d.bot.exec.phase.Placed? ==>
              OnTerms(Step(d.sim, config, x), d.bot.exec.phase.orderId, d.bot.db.rows[d.bot.exec.phase.pid])
  {
    forall p | Fresh(d.bot.db, p) && d.bot.db.rows[p].orderId.Some?
      ensures OnTerms(Step(d.sim, config, x), d.bot.db.rows[p].orderId.value, d.bot.db.rows[p])
    {
      SimKeepsTerms(d.sim, config, x, d.bot.db.rows[p].orderId.value, d.bot.db.rows[p]);
    }
    if d.bot.exec.phase.Placed? {
      SimKeepsTerms(d.sim, config, x, d.bot.exec.phase.orderId, d.bot.db.rows[d.bot.exec.phase.pid]);
    }
  }

  /** A call begins only while none is in flight, so it is alone. */
  lemma DryIsAlone(d: Dry, config: SimConfig, e: DryEvent)
    requires CallOk(d.bot.db, d.sim) && Can(d, e) && SimEventOf(d, e).Some?
    ensures CanStep(d.sim, SimEventOf(d, e).value) && Alone(d.sim, SimEventOf(d, e).value)
  {
  }

  lemma SimSide(d: Dry, config: SimConfig, e: DryEvent)
    requires DryOk(d, config) && Can(d, e) && SimEventOf(d, e).Some?
    ensures WorldOk(SimNext(d, config, e), config) && CallsOk(SimNext(d, config, e))
    ensures RowsOnTerms(d.bot.db, SimNext(d, config, e))
  {
    DryIsAlone(d, config, e);
    StepOk(d.sim, config, SimEventOf(d, e).value);
    CallsStep(d.sim, config, SimEventOf(d, e).value);
    SimRows(d, config, SimEventOf(d, e).value);
  }

  lemma MintKeeps(d: Dry, config: SimConfig, now: int)
    requires DryOk(d, config) && Can(d, MintOrder(now))
    ensures DryOk(DryNext(d, config, MintOrder(now)), config)
  {
    SimSide(d, config, MintOrder(now));
  }

  lemma RedeemKeeps(d: Dry, config: SimConfig)
    requires DryOk(d, config) && Can(d, RedeemWin)
    ensures DryOk(DryNext(d, config, RedeemWin), config)
  {
    var b := BotEventOf(d, config, RedeemWin).value;
    SimSide(d, config, RedeemWin);
    SimRows(d, config, DoRedeem);
    RedeemBot(d.bot, b.receipt);
  }

  lemma RedeemBot(s: System, r: Receipt)
    requires Inv(s) && Enabled(s, AnnounceWon(r)) && r.payout == s.settle.phase.row.shares
    requires WinsOnTerms(s.db.rows, s.settle.phase, s.bus.settled)
    ensures var t := Next(s, AnnounceWon(r));
            && Inv(t) && t.db == s.db && t.exec == s.exec && t.bus.orders == s.bus.orders
            && WinsOnTerms(s.db.rows, t.settle.phase, t.bus.settled)
  {
    StepKeeps(s, AnnounceWon(r));
    SettlementReach(s, AnnounceWon(r));
    WinPaid(s, r);
  }

  lemma WinPaid(s: System, r: Receipt)
    requires WinsOnTerms(s.db.rows, s.settle.phase, s.bus.settled)
    requires Enabled(s, AnnounceWon(r)) && r.payout == s.settle.phase.row.shares
    ensures var t := Next(s, AnnounceWon(r)); WinsOnTerms(s.db.rows, t.settle.phase, t.bus.settled)
  {
    var t, ev := Next(s, AnnounceWon(r)), WonEvent(s.settle.phase.pid, s.settle.phase.row, r.payout);
    forall v | v in t.bus.settled && v.status.Won? ensures v in s.bus.settled || v == ev {
    }
    assert ev.cost + ev.realizedPnl == r.payout;
  }

  lemma RestKeeps(d: Dry, config: SimConfig)
    requires DryOk(d, config) && Can(d, RestOrder)
    ensures DryOk(DryNext(d, config, RestOrder), config)
  {
    var n := d.placing.value;
    SimSide(d, config, RestOrder);
    StepKeeps(d.bot, PlaceOk(OrderId(n)));
    PlaceOkMoves(d.bot, OrderId(n));
    RestedOnTerms(d.sim, config, n, d.bot.db.rows[d.bot.exec.phase.pid]);
    MessageOnTerms(d.bot.db.rows, d.bot.bus.orders, OrderSubmitted(OrderId(n), d.bot.exec.phase.pid));
  }

  /** The order put to rest is known from then on, on the terms it was minted with. */
  lemma RestedOnTerms(sim: World, config: SimConfig, n: nat, row: Row)
    requires WorldOk(sim, config) && CanStep(sim, DoRest(n))
    requires SameDeal(sim.placing[n].shares, sim.placing[n].limitPrice, row)
    ensures OnTerms(Step(sim, config, DoRest(n)), OrderId(n), row)
  {
    var next := Step(sim, config, DoRest(n));
    assert n < next.ledger.counter && n !in next.placing;
  }

  lemma MessageOnTerms(rows: Rows, log: seq<OrderUpdate>, u: OrderUpdate)
    requires FillsOnTerms(rows, log)
    requires u.OrderFilled? ==> u.pid in rows && SameDeal(u.sizeMatched, u.avgPrice, rows[u.pid])
    ensures FillsOnTerms(rows, log + [u])
  {
    forall v | v in log + [u] && v.OrderFilled? ensures v.pid in rows && SameDeal(v.sizeMatched, v.avgPrice, rows[v.pid]) {
      assert v in log || v == u;
    }
  }

  /** An answer about a position is a fill only on its row's terms. */
  lemma AnswerOnTerms(d: Dry, config: SimConfig, e: DryEvent)
    requires DryOk(d, config) && Can(d, e) && Answer(d, config, e).Some?
    ensures var u := Answer(d, config, e).value;
            && Fresh(d.bot.db, u.pid) && Enabled(d.bot, PollOrder(u.pid, Some(u)))
            && (u.OrderFilled? ==> SameDeal(u.sizeMatched, u.avgPrice, d.bot.db.rows[u.pid]))
  {
    if e.OpenPoll? {
      TrackedIsStored(d.bot, e.pid);
      assert OnTerms(d.sim, d.bot.poll.tracking.tracked[e.pid], d.bot.db.rows[e.pid]);
    } else {
      assert OnTerms(d.sim, d.sim.calls[POLL].oid, d.bot.db.rows[d.sim.calls[POLL].pid]);
    }
  }

  lemma PollAnswerKeeps(d: Dry, config: SimConfig, u: OrderUpdate)
    requires DryOk(d, config) && Enabled(d.bot, PollOrder(u.pid, Some(u))) && Fresh(d.bot.db, u.pid)
    requires u.OrderFilled? ==> SameDeal(u.sizeMatched, u.avgPrice, d.bot.db.rows[u.pid])
    ensures var t := Next(d.bot, PollOrder(u.pid, Some(u)));
            && Inv(t) && t.db == d.bot.db && t.exec == d.bot.exec && FillsOnTerms(t.db.rows, t.bus.orders)
  {
    StepKeeps(d.bot, PollOrder(u.pid, Some(u)));
    PollerReach(d.bot, PollOrder(u.pid, Some(u)));
    MessageOnTerms(d.bot.db.rows, d.bot.bus.orders, u);
  }

  lemma PollSim(d: Dry, config: SimConfig, e: DryEvent)
    requires DryOk(d, config) && Can(d, e) && (e.OpenPoll? || e.ClosePoll?)
    ensures InHandOnTerms(d.bot.db.rows, d.bot.exec.phase, SimNext(d, config, e), d.placing)
    ensures CallOk(d.bot.db, SimNext(d, config, e))
  {
    SimRows(d, config, SimEventOf(d, e).value);
    if e.OpenPoll? {
      TrackedIsStored(d.bot, e.pid);
    }
  }

  lemma TrackedIsStored(s: System, p: nat)
    requires Inv(s) && p in s.poll.tracking.tracked
    ensures Fresh(s.db, p) && s.db.rows[p].orderId == Some(s.poll.tracking.tracked[p])
  {
  }

  lemma PollKeepsDry(d: Dry, config: SimConfig, e: DryEvent)
    requires DryOk(d, config) && Can(d, e) && (e.OpenPoll? || e.ClosePoll?)
    ensures DryOk(DryNext(d, config, e), config)
  {
    SimSide(d, config, e);
    PollSim(d, config, e);
    if Answer(d, config, e).Some? {
      AnswerOnTerms(d, config, e);
      PollAnswerKeeps(d, config, Answer(d, config, e).value);
    }
  }

  lemma DryStepKeeps(d: Dry, config: SimConfig, e: DryEvent)
    requires DryOk(d, config) && Can(d, e)
    ensures DryOk(DryNext(d, config, e), config)
  {
    match e
    case Bot(b) => BotKeeps(d, config, b);
    case MintOrder(now) => MintKeeps(d, config, now);
    case RestOrder => RestKeeps(d, config);
    case OpenPoll(_, _) => PollKeepsDry(d, config, e);
    case ClosePoll(_) => PollKeepsDry(d, config, e);
    case RedeemWin => RedeemKeeps(d, config);
  }

  lemma {:induction false} DryRunKeeps(d: Dry, config: SimConfig, events: seq<DryEvent>)
    requires DryOk(d, config) && DrySteps(d, config, events)
    ensures DryOk(DryAfter(d, config, events), config)
    decreases |events|
  {
    if events != [] {
      DryStepKeeps(d, config, events[0]);
      DryRunKeeps(DryNext(d, config, events[0]), config, events[1..]);
    }
  }

  // ─── Results ────────────────────────────────────────────────────────────────

  /** Whatever interleaves: the exchange never panics, its books balance, and every fill the bot hears of
      is for exactly the shares in its row, at the row's limit price. */
  lemma FillsMatchRows(d: Dry, config: SimConfig, events: seq<DryEvent>)
    requires DryInit(d, config) && DrySteps(d, config, events)
    ensures var t := DryAfter(d, config, events);
            && !t.sim.panicked && LedgerOk(t.sim.ledger, config.virtualBankroll)
            && forall u :: u in t.bot.bus.orders && u.OrderFilled? ==>
                 && u.pid in t.bot.db.rows && u.sizeMatched == t.bot.db.rows[u.pid].shares
                 && u.avgPrice == t.bot.db.rows[u.pid].limitPrice
  {
    DryInitOk(d, config);
    DryRunKeeps(d, config, events);
  }

  /** And every win announced was paid one unit a share. */
  lemma WinsPayShares(d: Dry, config: SimConfig, events: seq<DryEvent>)
    requires DryInit(d, config) && DrySteps(d, config, events)
    ensures var t := DryAfter(d, config, events).bot;
            forall v :: v in t.bus.settled && v.status == PositionStatus.Won ==>
              v.pid in t.db.rows && v.cost + v.realizedPnl == t.db.rows[v.pid].shares
  {
    DryInitOk(d, config);
    DryRunKeeps(d, config, events);
  }

  /** So settlement always takes off what the fill put in, without any assumption on sizes. */
  lemma SettlesInFull(d: Dry, config: SimConfig, events: seq<DryEvent>)
    requires DryInit(d, config) && DrySteps(d, config, events)
    ensures SettledFilledInFull(DryAfter(d, config, events).bot)
    ensures MapSum(Shortfalls(DryAfter(d, config, events).bot)) == 0.0
  {
    var t := DryAfter(d, config, events).bot;
    FillsMatchRows(d, config, events);
    forall p | p in Fills(t.bus.orders) && p in t.db.rows ensures Fills(t.bus.orders)[p].size == t.db.rows[p].shares {
      Solvency.FilledAt(t.bus.orders, p);
      var i :| 0 <= i < |t.bus.orders| && t.bus.orders[i].OrderFilled? && t.bus.orders[i].pid == p
               && Fills(t.bus.orders)[p] == FillInfo(t.bus.orders[i].avgPrice, t.bus.orders[i].sizeMatched);
      assert t.bus.orders[i] in t.bus.orders;
    }
    MapSumZero(Shortfalls(t));
  }

  /** In a dry run with drained queues, money in play is the open positions' cost less what was settled
      of positions taken over from an earlier session. */
  lemma DryInPlay(d: Dry, config: SimConfig, events: seq<DryEvent>)
    requires DryInit(d, config) && DrySteps(d, config, events)
    requires Run(d.bot, BotRun(d, config, events)) && RunPicksNew(d.bot, BotRun(d, config, events))
    requires LosslessRun(BotRun(d, config, events)) && Drained(DryAfter(d, config, events).bot)
    ensures var t := DryAfter(d, config, events).bot;
            t.bank.account.inPlay == MapSum(OpenCosts(t)) - MapSum(CarriedCosts(t))
  {
    BotRuns(d, config, events);
    DrainedMoney(d.bot, BotRun(d, config, events));
    SettlesInFull(d, config, events);
  }
}
