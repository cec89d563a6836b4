/** The dry-run exchange: a ledger of resting orders whose status call is two critical sections. */
module SimExchange {
  import opened Types
  import opened State
  import opened Sums

  // ─── Minted ids ─────────────────────────────────────────────────────────────

  function Digit(d: nat): char
    requires d < 10
  {
    d as char + '0'
  }

  function Decimal(n: nat): (s: string)
    ensures |s| >= 1
  {
    if n < 10 then [Digit(n)] else Decimal(n / 10) + [Digit(n % 10)]
  }

  lemma {:induction false} DecimalInjective(a: nat, b: nat)
    requires Decimal(a) == Decimal(b)
    ensures a == b
  {
    var s, t := Decimal(a), Decimal(b);
    assert s[|s| - 1] == Digit(a % 10) && t[|t| - 1] == Digit(b % 10);
    if a >= 10 && b >= 10 {
      assert s[..|s| - 1] == Decimal(a / 10) && t[..|t| - 1] == Decimal(b / 10);
      DecimalInjective(a / 10, b / 10);
    }
  }

  function OrderId(n: nat): string {
    "sim-" + Decimal(n)
  }

  function TransactionId(n: nat): string {
    "sim-tx-" + Decimal(n)
  }

  lemma OrderIdInjective(a: nat, b: nat)
    requires OrderId(a) == OrderId(b)
    ensures a == b
  {
    assert OrderId(a)[4..] == Decimal(a) && OrderId(b)[4..] == Decimal(b);
    DecimalInjective(a, b);
  }

  lemma TransactionIdInjective(a: nat, b: nat)
    requires TransactionId(a) == TransactionId(b)
    ensures a == b
  {
    assert TransactionId(a)[7..] == Decimal(a) && TransactionId(b)[7..] == Decimal(b);
    DecimalInjective(a, b);
  }

  // ─── The ledger ─────────────────────────────────────────────────────────────

  datatype SimConfig = SimConfig(virtualBankroll: real, fillLatencyMs: int, alwaysFill: bool)

  datatype SimOrder = SimOrder(
    positionId: nat, tokenId: string, side: Side, limitPrice: real, shares: real, submittedAt: int)

  datatype Ledger = Ledger(resting: map<string, SimOrder>, balance: real, reserved: real, counter: nat)

  function Opening(config: SimConfig): Ledger {
    Ledger(map[], config.virtualBankroll, 0.0, 1)
  }

  function Reservation(o: SimOrder): real {
    o.limitPrice * o.shares
  }

  function Reserve(l: Ledger, amount: real): Ledger {
    l.(reserved := l.reserved + amount, balance := l.balance - amount)
  }

  function Release(l: Ledger, amount: real): Ledger {
    l.(reserved := l.reserved - amount, balance := l.balance + amount)
  }

  function OrderFor(i: Intent, tokenId: string, now: int): SimOrder {
    SimOrder(0, tokenId, i.side, i.limitPrice, i.shares, now)
  }

  /** Placing is two steps: an id is minted from the atomic counter, and then, under the lock, the order rests. */
  function Mint(l: Ledger): Ledger {
    l.(counter := l.counter + 1)
  }

  function Rest(l: Ledger, oid: string, o: SimOrder): Ledger {
    Reserve(l, Reservation(o)).(resting := l.resting[oid := o])
  }

  /** Drop a resting order and give its whole reservation back; the cost is never debited. */
  function Remove(l: Ledger, oid: string): Ledger
    requires oid in l.resting
  {
    Release(l, Reservation(l.resting[oid])).(resting := l.resting - {oid})
  }

  function FilledUpdate(oid: string, pid: nat, o: SimOrder): OrderUpdate {
    OrderFilled(oid, pid, o.limitPrice, o.shares)
  }

  predicate Crosses(o: SimOrder, bookPrice: Option<real>) {
    match bookPrice
    case None => false
    case Some(price) => if o.side.Buy? then price <= o.limitPrice else price >= o.limitPrice
  }

  /** The cached price is there, and no worse for the order than its limit. */
  ghost predicate WouldTrade(side: Side, limit: real, bookPrice: Option<real>) {
    bookPrice.Some? && (side == Buy ==> bookPrice.value <= limit) && (side == Sell ==> bookPrice.value >= limit)
  }

  lemma CrossesIff(o: SimOrder, bookPrice: Option<real>)
    ensures Crosses(o, bookPrice) <==> WouldTrade(o.side, o.limitPrice, bookPrice)
  {
  }

  /** The order is gone and its price × shares is back in the balance; nothing else has changed. */
  ghost predicate TakenOut(before: Ledger, after: Ledger, oid: string) {
    oid in before.resting &&
    var held := before.resting[oid].limitPrice * before.resting[oid].shares;
    && after.resting == before.resting - {oid} && after.counter == before.counter
    && after.reserved == before.reserved - held && after.balance == before.balance + held
  }

  /** What the first critical section of a status call decides. */
  datatype Opened = Answered(ledger: Ledger, update: OrderUpdate) | Dropped(ledger: Ledger, order: SimOrder)

  /** First section: note the position, gate on latency, and fill at once only under `alwaysFill`. */
  function OpenStatus(l: Ledger, config: SimConfig, oid: string, pid: nat, now: int): Opened {
    if oid !in l.resting then Answered(l, OrderCancelled(oid, pid))
    else
      var o := l.resting[oid].(positionId := pid);
      var noted := l.(resting := l.resting[oid := o]);
      if now - o.submittedAt < config.fillLatencyMs && !config.alwaysFill then Answered(noted, OrderSubmitted(oid, pid))
      else if config.alwaysFill then Answered(Remove(noted, oid), FilledUpdate(oid, pid, o))
      else Dropped(noted, o)
  }

  /** Second section, after the book was read with the lock released. None is the `unwrap` panic. */
  function CloseStatus(l: Ledger, order: SimOrder, oid: string, pid: nat, bookPrice: Option<real>): Option<(Ledger, OrderUpdate)> {
    if !Crosses(order, bookPrice) then Some((l, OrderSubmitted(oid, pid)))
    else if oid !in l.resting then None
    else Some((Remove(l, oid), FilledUpdate(oid, pid, l.resting[oid])))
  }

  function Cancel(l: Ledger, oid: string): Ledger {
    if oid in l.resting then Remove(l, oid) else l
  }

  // ─── The client ─────────────────────────────────────────────────────────────

  class SimMarketClient {
    const config: SimConfig
    const cache: OutcomeBookCache
    var resting: map<string, SimOrder>
    var balance: real
    var reserved: real
    var counter: nat

    function View(): Ledger reads this {
      Ledger(resting, balance, reserved, counter)
    }

    constructor (config: SimConfig, cache: OutcomeBookCache)
      ensures this.config == config && this.cache == cache && View() == Opening(config)
    {
      this.config := config;
      this.cache := cache;
      resting := map[];
      balance := config.virtualBankroll;
      reserved := 0.0;
      counter := 1;
    }

    method MintId() returns (id: string)
      modifies this`counter
      ensures counter == old(counter) + 1 && id == OrderId(old(counter))
    {
      id := OrderId(counter);
      counter := counter + 1;
    }

    method ReserveAmount(amount: real)
      modifies this`reserved, this`balance
      ensures View() == Reserve(old(View()), amount)
    {
      reserved := reserved + amount;
      balance := balance - amount;
    }

    method ReleaseReservation(amount: real)
      modifies this`reserved, this`balance
      ensures View() == Release(old(View()), amount)
    {
      reserved := reserved - amount;
      balance := balance + amount;
    }

    /** The critical section of placing. */
    method RestOrder(oid: string, order: SimOrder)
      modifies this
      ensures View() == Rest(old(View()), oid, order)
      ensures resting == old(resting)[oid := order] && counter == old(counter)
      ensures var held := order.limitPrice * order.shares;
              reserved == old(reserved) + held && balance == old(balance) - held
    {
      ReserveAmount(order.limitPrice * order.shares);
      resting := resting[oid := order];
    }

    /** With nothing between its two steps. */
    method PlaceOrder(i: Intent, tokenId: string, now: int) returns (oid: string)
      modifies this
      ensures oid == OrderId(old(counter))
      ensures View() == Rest(Mint(old(View())), OrderId(old(counter)), OrderFor(i, tokenId, now))
      ensures resting == old(resting)[oid := SimOrder(0, tokenId, i.side, i.limitPrice, i.shares, now)]
      ensures counter == old(counter) + 1
    {
      oid := MintId();
      RestOrder(oid, SimOrder(0, tokenId, i.side, i.limitPrice, i.shares, now));
    }

    /** First critical section. None leaves it to the second section, with the order as noted. */
    method BeginStatus(oid: string, pid: nat, now: int) returns (answer: Option<OrderUpdate>, order: Option<SimOrder>)
      modifies this
      ensures match OpenStatus(old(View()), config, oid, pid, now)
              case Answered(l, u) => View() == l && answer == Some(u)
              case Dropped(l, o) => View() == l && answer.None? && order == Some(o)
      ensures oid !in old(resting) ==> answer == Some(OrderCancelled(oid, pid)) && View() == old(View())
      ensures oid in old(resting) ==>
                var o := old(resting)[oid].(positionId := pid);
                var noted := old(View()).(resting := old(resting)[oid := o]);
                if config.alwaysFill then
                  answer == Some(OrderFilled(oid, pid, o.limitPrice, o.shares)) && TakenOut(noted, View(), oid)
                else
                  && View() == noted
                  && (now - o.submittedAt < config.fillLatencyMs ==> answer == Some(OrderSubmitted(oid, pid)))
                  && (now - o.submittedAt >= config.fillLatencyMs ==> answer.None? && order == Some(o))
    {
      order := None;
      if oid !in resting {
        return Some(OrderCancelled(oid, pid)), None;
      }
      resting := resting[oid := resting[oid].(positionId := pid)];
      var o := resting[oid];
      order := Some(o);
      var elapsed := now - o.submittedAt;
      if elapsed < config.fillLatencyMs && !config.alwaysFill {
        answer := Some(OrderSubmitted(oid, pid));
      } else if config.alwaysFill {
        var fill := TakeOut(oid, pid);
        answer := Some(fill);
      } else {
        answer := None;
      }
    }

    /** Second critical section, with a book price read in between. None is the `unwrap` panic. */
    method EndStatus(order: SimOrder, oid: string, pid: nat, bookPrice: Option<real>) returns (update: Option<OrderUpdate>)
      modifies this
      ensures match CloseStatus(old(View()), order, oid, pid, bookPrice)
              case Some(closed) => View() == closed.0 && update == Some(closed.1)
              case None => View() == old(View()) && update.None?
      ensures !WouldTrade(order.side, order.limitPrice, bookPrice) ==>
                update == Some(OrderSubmitted(oid, pid)) && View() == old(View())
      ensures WouldTrade(order.side, order.limitPrice, bookPrice) ==>
                if oid !in old(resting) then update.None? && View() == old(View())
                else
                  var o := old(resting)[oid];
                  update == Some(OrderFilled(oid, pid, o.limitPrice, o.shares)) && TakenOut(old(View()), View(), oid)
    {
      var shouldFill := false;
      if bookPrice.Some? {
        match order.side {
          case Buy => shouldFill := bookPrice.value <= order.limitPrice;
          case Sell => shouldFill := bookPrice.value >= order.limitPrice;
        }
      }
      if !shouldFill {
        return Some(OrderSubmitted(oid, pid));
      }
      if oid !in resting {
        return None;
      }
      var fill := TakeOut(oid, pid);
      update := Some(fill);
    }

    /** A fill releases the whole reservation and debits nothing. */
    method TakeOut(oid: string, pid: nat) returns (update: OrderUpdate)
      requires oid in resting
      modifies this
      ensures View() == Remove(old(View()), oid) && update == FilledUpdate(oid, pid, old(resting)[oid])
    {
      var order := resting[oid];
      resting := resting - {oid};
      ReleaseReservation(order.limitPrice * order.shares);
      update := OrderFilled(oid, pid, order.limitPrice, order.shares);
    }

    /** A buy against the cached ask of its token, a sell against the bid. */
    ghost predicate CacheTrades(o: SimOrder) reads cache {
      && o.tokenId in cache.books
      && var b := cache.books[o.tokenId];
         if o.side == Buy then b.buyPrice.Some? && b.buyPrice.value <= o.limitPrice
         else b.sellPrice.Some? && b.sellPrice.value >= o.limitPrice
    }

    /** One status call with nothing in between: the second section always finds its order. */
    method OrderStatus(oid: string, pid: nat, now: int) returns (update: OrderUpdate)
      modifies this
      ensures match OpenStatus(old(View()), config, oid, pid, now)
              case Answered(l, u) => View() == l && update == u
              case Dropped(l, o) =>
                CloseStatus(l, o, oid, pid, PriceIn(cache.books, o.tokenId, o.side)) == Some((View(), update))
      ensures update.OrderFilled? <==>
                oid in old(resting) &&
                var o := old(resting)[oid];
                config.alwaysFill || (now - o.submittedAt >= config.fillLatencyMs && CacheTrades(o))
      ensures update.OrderCancelled? <==> oid !in old(resting)
      ensures update.OrderFilled? ==>
                var o := old(resting)[oid];
                update == OrderFilled(oid, pid, o.limitPrice, o.shares) && TakenOut(old(View()), View(), oid)
      ensures !update.OrderFilled? ==>
                View() == old(View()).(resting := if oid in old(resting) then old(resting)[oid := old(resting)[oid].(positionId := pid)]
                                                  else old(resting))
    {
      var answer, order := BeginStatus(oid, pid, now);
      if answer.Some? {
        return answer.value;
      }
      var bookPrice := cache.Price(order.value.tokenId, order.value.side);
      var closed := EndStatus(order.value, oid, pid, bookPrice);
      update := closed.value;
    }

    method CancelOrder(oid: string)
      modifies this
      ensures View() == Cancel(old(View()), oid)
      ensures if oid in old(resting) then TakenOut(old(View()), View(), oid) else View() == old(View())
    {
      if oid in resting {
        var order := resting[oid];
        resting := resting - {oid};
        ReleaseReservation(order.limitPrice * order.shares);
      }
    }

    method Redeem(position: Row) returns (receipt: Receipt)
      modifies this`counter
      ensures counter == old(counter) + 1
      ensures receipt == Receipt(Some(TransactionId(old(counter))), position.shares)
    {
      receipt := Receipt(Some(TransactionId(counter)), position.shares);
      counter := counter + 1;
    }
  }

  // ─── Concurrent callers ─────────────────────────────────────────────────────

  /** A status call between its two sections. */
  datatype Call = Call(oid: string, pid: nat, order: SimOrder)

  /** `placing` holds, by the counter their id was minted from, the orders that do not rest yet. */
  datatype World = World(ledger: Ledger, placing: map<nat, SimOrder>, calls: map<nat, Call>, panicked: bool)

  datatype SimEvent =
    | DoMint(intent: Intent, tokenId: string, now: int)
    | DoRest(n: nat)
    | DoOpen(call: nat, oid: string, pid: nat, now: int)
    | DoClose(call: nat, bookPrice: Option<real>)
    | DoCancel(oid: string)
    | DoRedeem

  function Start(config: SimConfig): World {
    World(Opening(config), map[], map[], false)
  }

  predicate CanStep(w: World, e: SimEvent) {
    match e
    case DoRest(n) => n in w.placing
    case DoOpen(c, _, _, _) => c !in w.calls
    case DoClose(c, _) => c in w.calls
    case _ => true
  }

  function Step(w: World, config: SimConfig, e: SimEvent): World
    requires CanStep(w, e)
  {
    match e
    case DoMint(i, tokenId, now) =>
      w.(ledger := Mint(w.ledger), placing := w.placing[w.ledger.counter := OrderFor(i, tokenId, now)])
    case DoRest(n) => w.(ledger := Rest(w.ledger, OrderId(n), w.placing[n]), placing := w.placing - {n})
    case DoOpen(c, oid, pid, now) =>
      (match OpenStatus(w.ledger, config, oid, pid, now)
       case Answered(l, _) => w.(ledger := l)
       case Dropped(l, o) => w.(ledger := l, calls := w.calls[c := Call(oid, pid, o)]))
    case DoClose(c, bookPrice) =>
      var call := w.calls[c];
      (match CloseStatus(w.ledger, call.order, call.oid, call.pid, bookPrice)
       case Some(closed) => w.(ledger := closed.0, calls := w.calls - {c})
       case None => w.(calls := w.calls - {c}, panicked := true))
    case DoCancel(oid) => w.(ledger := Cancel(w.ledger, oid))
    case DoRedeem => w.(ledger := Mint(w.ledger))
  }

  ghost predicate SimRun(w: World, config: SimConfig, events: seq<SimEvent>)
    decreases |events|
  {
    events == [] || (CanStep(w, events[0]) && SimRun(Step(w, config, events[0]), config, events[1..]))
  }

  ghost function SimAfter(w: World, config: SimConfig, events: seq<SimEvent>): World
    requires SimRun(w, config, events)
    decreases |events|
  {
    if events == [] then w else SimAfter(Step(w, config, events[0]), config, events[1..])
  }

  // ─── What every interleaving keeps ──────────────────────────────────────────

  ghost function Reservations(resting: map<string, SimOrder>): map<string, real> {
    map id | id in resting :: Reservation(resting[id])
  }

  ghost predicate LedgerOk(l: Ledger, bankroll: real) {
    && l.balance + l.reserved == bankroll
    && l.reserved == MapSum(Reservations(l.resting))
    && forall id :: id in l.resting ==> exists n: nat :: n < l.counter && id == OrderId(n)
  }

  /** Ids minted and not resting yet are not taken. */
  ghost predicate PlacingOk(w: World) {
    forall n :: n in w.placing ==> n < w.ledger.counter && OrderId(n) !in w.ledger.resting
  }

  ghost predicate WorldOk(w: World, config: SimConfig) {
    LedgerOk(w.ledger, config.virtualBankroll) && PlacingOk(w)
  }

  lemma RestOk(l: Ledger, bankroll: real, n: nat, o: SimOrder)
    requires LedgerOk(l, bankroll) && n < l.counter && OrderId(n) !in l.resting
    ensures LedgerOk(Rest(l, OrderId(n), o), bankroll)
  {
    var after, id := Rest(l, OrderId(n), o), OrderId(n);
    assert Reservations(after.resting) == Reservations(l.resting)[id := Reservation(o)];
    MapSumInsert(Reservations(l.resting), id, Reservation(o));
  }

  lemma RemoveOk(l: Ledger, bankroll: real, oid: string)
    requires LedgerOk(l, bankroll) && oid in l.resting
    ensures LedgerOk(Remove(l, oid), bankroll)
  {
    MapSumAt(Reservations(l.resting), oid);
    assert Reservations(l.resting - {oid}) == Reservations(l.resting) - {oid};
  }

  lemma NoteOk(l: Ledger, bankroll: real, oid: string, pid: nat)
    requires LedgerOk(l, bankroll) && oid in l.resting
    ensures LedgerOk(l.(resting := l.resting[oid := l.resting[oid].(positionId := pid)]), bankroll)
  {
    var noted := l.resting[oid := l.resting[oid].(positionId := pid)];
    assert Reservation(noted[oid]) == Reservation(l.resting[oid]);
    assert Reservations(noted) == Reservations(l.resting);
  }

  lemma MintOk(l: Ledger, bankroll: real)
    requires LedgerOk(l, bankroll)
    ensures LedgerOk(Mint(l), bankroll)
  {
    forall x | x in l.resting ensures exists n: nat :: n < l.counter + 1 && x == OrderId(n) {
      var n: nat :| n < l.counter && x == OrderId(n);
      assert n < l.counter + 1;
    }
  }

  lemma LedgerStep(w: World, config: SimConfig, e: SimEvent)
    requires WorldOk(w, config) && CanStep(w, e)
    ensures LedgerOk(Step(w, config, e).ledger, config.virtualBankroll)
  {
    var bankroll := config.virtualBankroll;
    match e
    case DoMint(_, _, _) => MintOk(w.ledger, bankroll);
    case DoRest(n) => RestOk(w.ledger, bankroll, n, w.placing[n]);
    case DoOpen(c, oid, pid, now) =>
      if oid in w.ledger.resting {
        NoteOk(w.ledger, bankroll, oid, pid);
        RemoveOk(w.ledger.(resting := w.ledger.resting[oid := w.ledger.resting[oid].(positionId := pid)]), bankroll, oid);
      }
    case DoClose(c, _) =>
      if w.calls[c].oid in w.ledger.resting { RemoveOk(w.ledger, bankroll, w.calls[c].oid); }
    case DoCancel(oid) =>
      if oid in w.ledger.resting { RemoveOk(w.ledger, bankroll, oid); }
    case DoRedeem => MintOk(w.ledger, bankroll);
  }

  /** Only the insertion under the lock makes an id rest that did not rest before. */
  lemma OnlyRestAdds(w: World, config: SimConfig, e: SimEvent)
    requires CanStep(w, e)
    ensures var added := if e.DoRest? then {OrderId(e.n)} else {};
            Step(w, config, e).ledger.resting.Keys <= w.ledger.resting.Keys + added
    ensures w.ledger.counter <= Step(w, config, e).ledger.counter
  {
  }

  lemma PlacingStep(w: World, config: SimConfig, e: SimEvent)
    requires WorldOk(w, config) && CanStep(w, e)
    ensures PlacingOk(Step(w, config, e))
  {
    var next := Step(w, config, e);
    OnlyRestAdds(w, config, e);
    forall n | n in next.placing ensures n < next.ledger.counter && OrderId(n) !in next.ledger.resting {
      if e.DoRest? && OrderId(n) == OrderId(e.n) {
        OrderIdInjective(n, e.n);
      }
      if n == w.ledger.counter && OrderId(n) in w.ledger.resting {
        var m: nat :| m < w.ledger.counter && OrderId(n) == OrderId(m);
        OrderIdInjective(n, m);
      }
    }
  }

  lemma StepOk(w: World, config: SimConfig, e: SimEvent)
    requires WorldOk(w, config) && CanStep(w, e)
    ensures WorldOk(Step(w, config, e), config)
  {
    LedgerStep(w, config, e);
    PlacingStep(w, config, e);
  }

  /** However calls interleave, the books balance: balance plus reserved is the virtual bankroll, and
      reserved is what the resting orders hold. */
  lemma {:induction false} BooksBalance(w: World, config: SimConfig, events: seq<SimEvent>)
    requires WorldOk(w, config) && SimRun(w, config, events)
    ensures WorldOk(SimAfter(w, config, events), config)
    decreases |events|
  {
    if events != [] {
      StepOk(w, config, events[0]);
      BooksBalance(Step(w, config, events[0]), config, events[1..]);
    }
  }

  lemma StartOk(config: SimConfig)
    ensures WorldOk(Start(config), config)
  {
    assert Reservations(map[]) == map[];
  }

  /** Whatever ran since start-up, and whatever runs between an order's mint and its insertion, the
      insertion overwrites no resting order. */
  lemma MintedIsNew(config: SimConfig, events: seq<SimEvent>, n: nat)
    requires SimRun(Start(config), config, events) && n in SimAfter(Start(config), config, events).placing
    ensures OrderId(n) !in SimAfter(Start(config), config, events).ledger.resting
  {
    StartOk(config);
    BooksBalance(Start(config), config, events);
  }

  /** Since fills give the reservation back undebited, the balance depends only on what still rests. */
  lemma BalanceForgetsFills(config: SimConfig, a: seq<SimEvent>, b: seq<SimEvent>)
    requires SimRun(Start(config), config, a) && SimRun(Start(config), config, b)
    requires Reservations(SimAfter(Start(config), config, a).ledger.resting)
               == Reservations(SimAfter(Start(config), config, b).ledger.resting)
    ensures SimAfter(Start(config), config, a).ledger.balance == SimAfter(Start(config), config, b).ledger.balance
  {
    StartOk(config);
    BooksBalance(Start(config), config, a);
    BooksBalance(Start(config), config, b);
  }

  /** Nothing stops an order larger than the balance: after any run the balance is negative exactly when
      the resting orders hold more than the virtual bankroll. */
  lemma BalanceNegativeIff(config: SimConfig, events: seq<SimEvent>)
    requires SimRun(Start(config), config, events)
    ensures var l := SimAfter(Start(config), config, events).ledger;
            l.balance < 0.0 <==> MapSum(Reservations(l.resting)) > config.virtualBankroll
  {
    StartOk(config);
    BooksBalance(Start(config), config, events);
  }

  /** One order is enough. */
  lemma BalanceCanGoNegative(config: SimConfig, i: Intent, tokenId: string, now: int)
    ensures Rest(Mint(Opening(config)), OrderId(1), OrderFor(i, tokenId, now)).balance < 0.0
            <==> i.limitPrice * i.shares > config.virtualBankroll
  {
  }

  // ─── The two-section status call ────────────────────────────────────────────

  /** The steps that take a resting order away: a cancel, a crossing second section, or an immediate fill. */
  predicate Takes(w: World, config: SimConfig, e: SimEvent, oid: string)
    requires CanStep(w, e)
  {
    match e
    case DoCancel(id) => id == oid
    case DoClose(c, price) => w.calls[c].oid == oid && Crosses(w.calls[c].order, price)
    case DoOpen(_, id, _, _) => id == oid && config.alwaysFill
    case _ => false
  }

  ghost predicate TakenDuring(w: World, config: SimConfig, events: seq<SimEvent>, oid: string)
    requires SimRun(w, config, events)
    decreases |events|
  {
    events != [] && (Takes(w, config, events[0], oid) || TakenDuring(Step(w, config, events[0]), config, events[1..], oid))
  }

  lemma TakenOnce(w: World, config: SimConfig, e: SimEvent, oid: string)
    requires CanStep(w, e) && oid in w.ledger.resting
    ensures oid in Step(w, config, e).ledger.resting <==> !Takes(w, config, e, oid)
  {
  }

  /** Ids are never minted twice, so an order that is gone stays gone. */
  lemma {:induction false} GoneForGood(w: World, config: SimConfig, events: seq<SimEvent>, n: nat)
    requires SimRun(w, config, events)
    requires n < w.ledger.counter && n !in w.placing && OrderId(n) !in w.ledger.resting
    ensures OrderId(n) !in SimAfter(w, config, events).ledger.resting
    decreases |events|
  {
    if events != [] {
      var e := events[0];
      OnlyRestAdds(w, config, e);
      if e.DoRest? && OrderId(e.n) == OrderId(n) {
        OrderIdInjective(e.n, n);
      }
      GoneForGood(Step(w, config, e), config, events[1..], n);
    }
  }

  lemma RestingWasMinted(w: World, config: SimConfig, oid: string) returns (n: nat)
    requires WorldOk(w, config) && oid in w.ledger.resting
    ensures n < w.ledger.counter && n !in w.placing && oid == OrderId(n)
  {
    n :| n < w.ledger.counter && oid == OrderId(n);
  }

  lemma {:induction false} RestsUntilTaken(w: World, config: SimConfig, events: seq<SimEvent>, oid: string)
    requires WorldOk(w, config) && SimRun(w, config, events) && oid in w.ledger.resting
    ensures oid in SimAfter(w, config, events).ledger.resting <==> !TakenDuring(w, config, events, oid)
    decreases |events|
  {
    if events != [] {
      var next := Step(w, config, events[0]);
      TakenOnce(w, config, events[0], oid);
      if Takes(w, config, events[0], oid) {
        var n := RestingWasMinted(w, config, oid);
        OnlyRestAdds(w, config, events[0]);
        GoneForGood(next, config, events[1..], n);
      } else {
        StepOk(w, config, events[0]);
        RestsUntilTaken(next, config, events[1..], oid);
      }
    }
  }

  /** Only its own second section takes a call out of flight. */
  lemma {:induction false} StillInFlight(w: World, config: SimConfig, events: seq<SimEvent>, c: nat)
    requires SimRun(w, config, events) && c in w.calls
    requires forall e :: e in events && e.DoClose? ==> e.call != c
    ensures c in SimAfter(w, config, events).calls && SimAfter(w, config, events).calls[c] == w.calls[c]
    decreases |events|
  {
    if events != [] {
      assert events[0] in events;
      assert forall e :: e in events[1..] ==> e in events;
      StillInFlight(Step(w, config, events[0]), config, events[1..], c);
    }
  }

  /** The `unwrap` of a status call panics exactly when the book crosses and some other step took the
      same order while the lock was released; in every other interleaving it succeeds. */
  lemma PanicsIffTakenMeanwhile(w: World, config: SimConfig, c: nat, oid: string, pid: nat, now: int,
                                between: seq<SimEvent>, price: Option<real>)
    requires WorldOk(w, config) && !w.panicked && c !in w.calls
    requires OpenStatus(w.ledger, config, oid, pid, now).Dropped?
    requires var begun := Step(w, config, DoOpen(c, oid, pid, now));
             && SimRun(begun, config, between) && !SimAfter(begun, config, between).panicked
             && forall e :: e in between && e.DoClose? ==> e.call != c
    ensures var begun := Step(w, config, DoOpen(c, oid, pid, now));
            var later := SimAfter(begun, config, between);
            && c in later.calls
            && (Step(later, config, DoClose(c, price)).panicked <==>
                  WouldTrade(begun.calls[c].order.side, begun.calls[c].order.limitPrice, price)
                  && TakenDuring(begun, config, between, oid))
  {
    var begun := Step(w, config, DoOpen(c, oid, pid, now));
    StepOk(w, config, DoOpen(c, oid, pid, now));
    RestsUntilTaken(begun, config, between, oid);
    StillInFlight(begun, config, between, c);
    CrossesIff(begun.calls[c].order, price);
  }

  /** A status or cancel call begins only while no status call on the same order is in flight. */
  ghost predicate Alone(w: World, e: SimEvent) {
    match e
    case DoOpen(_, oid, _, _) => forall c :: c in w.calls ==> w.calls[c].oid != oid
    case DoCancel(oid) => forall c :: c in w.calls ==> w.calls[c].oid != oid
    case _ => true
  }

  ghost predicate AloneRun(w: World, config: SimConfig, events: seq<SimEvent>)
    requires SimRun(w, config, events)
    decreases |events|
  {
    events == [] || (Alone(w, events[0]) && AloneRun(Step(w, config, events[0]), config, events[1..]))
  }

  /** Every call in flight is about a resting order, and no two about the same one. */
  ghost predicate CallsOk(w: World) {
    && !w.panicked
    && (forall c :: c in w.calls ==> w.calls[c].oid in w.ledger.resting)
    && (forall c, d :: c in w.calls && d in w.calls && c != d ==> w.calls[c].oid != w.calls[d].oid)
  }

  lemma CallsStep(w: World, config: SimConfig, e: SimEvent)
    requires CallsOk(w) && CanStep(w, e) && Alone(w, e)
    ensures CallsOk(Step(w, config, e))
  {
    forall c | c in w.calls && !(e.DoClose? && e.call == c) ensures w.calls[c].oid in Step(w, config, e).ledger.resting {
      TakenOnce(w, config, e, w.calls[c].oid);
    }
  }

  /** Over any run in which no status or cancel call begins on an order whose status call is still in
      flight, whatever places, redeems and other calls interleave, no `unwrap` ever fails. */
  lemma {:induction false} SolePollerIsSafe(w: World, config: SimConfig, events: seq<SimEvent>)
    requires CallsOk(w) && SimRun(w, config, events) && AloneRun(w, config, events)
    ensures CallsOk(SimAfter(w, config, events)) && !SimAfter(w, config, events).panicked
    decreases |events|
  {
    if events != [] {
      CallsStep(w, config, events[0]);
      SolePollerIsSafe(Step(w, config, events[0]), config, events[1..]);
    }
  }

  /** Two overlapping status calls on one crossing order: the second one's `unwrap` panics. */
  lemma OverlappingCallsPanic(config: SimConfig, i: Intent)
    requires config.fillLatencyMs <= 0 && !config.alwaysFill && i.side.Buy?
    ensures exists events ::
              SimRun(Start(config), config, events) && SimAfter(Start(config), config, events).panicked
  {
    var w := Start(config);
    var oid := OrderId(1);
    var e0, e1, e2, e3 := DoMint(i, "t", 0), DoRest(1), DoOpen(1, oid, 1, 0), DoOpen(2, oid, 1, 0);
    var e4, e5 := DoClose(1, Some(i.limitPrice)), DoClose(2, Some(i.limitPrice));
    var w0 := Step(w, config, e0);
    var w1 := Step(w0, config, e1);
    var w2 := Step(w1, config, e2);
    var w3 := Step(w2, config, e3);
    var w4 := Step(w3, config, e4);
    var w5 := Step(w4, config, e5);
    SimCons(w4, config, e5, []);
    SimCons(w3, config, e4, [e5] + []);
    SimCons(w2, config, e3, [e4] + ([e5] + []));
    SimCons(w1, config, e2, [e3] + ([e4] + ([e5] + [])));
    SimCons(w0, config, e1, [e2] + ([e3] + ([e4] + ([e5] + []))));
    SimCons(w, config, e0, [e1] + ([e2] + ([e3] + ([e4] + ([e5] + [])))));
  }

  lemma SimCons(w: World, config: SimConfig, e: SimEvent, rest: seq<SimEvent>)
    requires CanStep(w, e) && SimRun(Step(w, config, e), config, rest)
    ensures SimRun(w, config, [e] + rest) && SimAfter(w, config, [e] + rest) == SimAfter(Step(w, config, e), config, rest)
  {
    assert ([e] + rest)[1..] == rest;
  }

  // ─── Fills ──────────────────────────────────────────────────────────────────

  /** An order keeps its terms while it rests. */
  predicate SameTerms(a: SimOrder, b: SimOrder) {
    a.tokenId == b.tokenId && a.side == b.side && a.limitPrice == b.limitPrice && a.shares == b.shares && a.submittedAt == b.submittedAt
  }

  lemma TermsKeptStep(w: World, config: SimConfig, e: SimEvent, oid: string)
    requires PlacingOk(w) && CanStep(w, e)
    requires oid in w.ledger.resting && oid in Step(w, config, e).ledger.resting
    ensures SameTerms(w.ledger.resting[oid], Step(w, config, e).ledger.resting[oid])
  {
  }

  lemma {:induction false} TermsKept(w: World, config: SimConfig, events: seq<SimEvent>, oid: string)
    requires WorldOk(w, config) && SimRun(w, config, events)
    requires oid in w.ledger.resting && oid in SimAfter(w, config, events).ledger.resting
    ensures SameTerms(w.ledger.resting[oid], SimAfter(w, config, events).ledger.resting[oid])
    decreases |events|
  {
    if events != [] {
      RestsUntilTaken(w, config, events, oid);
      TakenOnce(w, config, events[0], oid);
      StepOk(w, config, events[0]);
      TermsKeptStep(w, config, events[0], oid);
      TermsKept(Step(w, config, events[0]), config, events[1..], oid);
    }
  }

  /** An order between its mint and its insertion keeps its terms too. */
  lemma {:induction false} StillPlacing(w: World, config: SimConfig, events: seq<SimEvent>, n: nat)
    requires SimRun(w, config, events) && n in w.placing && n < w.ledger.counter
    requires forall e :: e in events && e.DoRest? ==> e.n != n
    ensures n in SimAfter(w, config, events).placing && SimAfter(w, config, events).placing[n] == w.placing[n]
    decreases |events|
  {
    if events != [] {
      assert events[0] in events;
      assert forall e :: e in events[1..] ==> e in events;
      OnlyRestAdds(w, config, events[0]);
      StillPlacing(Step(w, config, events[0]), config, events[1..], n);
    }
  }

  /** What a status call on an order placed for `i` at time `at` can answer in ledger `l`. */
  ghost predicate AnswersFor(l: Ledger, config: SimConfig, oid: string, i: Intent, tokenId: string, at: int,
                             pid: nat, now: int, price: Option<real>) {
    match OpenStatus(l, config, oid, pid, now)
    case Answered(l1, OrderFilled(_, p, avg, size)) =>
      && config.alwaysFill && p == pid && avg == i.limitPrice && size == i.shares
      && oid in l.resting && TakenOut(l.(resting := l.resting[oid := l.resting[oid].(positionId := pid)]), l1, oid)
    case Answered(_, OrderSubmitted(_, _)) => oid in l.resting && !config.alwaysFill && now - at < config.fillLatencyMs
    case Answered(l1, _) => oid !in l.resting && l1 == l
    case Dropped(l1, o) =>
      && oid in l1.resting && !config.alwaysFill && now - at >= config.fillLatencyMs && o.tokenId == tokenId
      && if WouldTrade(i.side, i.limitPrice, price) then FillsInFull(l1, CloseStatus(l1, o, oid, pid, price), oid, pid, i)
         else CloseStatus(l1, o, oid, pid, price) == Some((l1, OrderSubmitted(oid, pid)))
  }

  ghost predicate FillsInFull(l: Ledger, answer: Option<(Ledger, OrderUpdate)>, oid: string, pid: nat, i: Intent) {
    answer.Some? && answer.value.1 == OrderFilled(oid, pid, i.limitPrice, i.shares) && TakenOut(l, answer.value.0, oid)
  }

  lemma AnswersByTerms(l: Ledger, config: SimConfig, oid: string, i: Intent, tokenId: string, at: int,
                       pid: nat, now: int, price: Option<real>)
    requires oid in l.resting ==> SameTerms(OrderFor(i, tokenId, at), l.resting[oid])
    ensures AnswersFor(l, config, oid, i, tokenId, at, pid, now, price)
  {
    if oid in l.resting {
      CrossesIff(l.resting[oid].(positionId := pid), price);
    }
  }

  /** Whatever ran between an order's mint and its insertion and since: a status call fills it exactly under
      alwaysFill, or past the latency gate with a cached price for its token no worse than its limit, and
      then for all its shares at the limit price; a second section that does not fill changes nothing. */
  lemma FillsAreFull(w: World, config: SimConfig, i: Intent, tokenId: string, at: int,
                     between: seq<SimEvent>, since: seq<SimEvent>, pid: nat, now: int, price: Option<real>)
    requires WorldOk(w, config)
    requires SimRun(Step(w, config, DoMint(i, tokenId, at)), config, between)
    requires forall e :: e in between && e.DoRest? ==> e.n != w.ledger.counter
    requires var ready := SimAfter(Step(w, config, DoMint(i, tokenId, at)), config, between);
             w.ledger.counter in ready.placing ==> SimRun(Step(ready, config, DoRest(w.ledger.counter)), config, since)
    ensures var n := w.ledger.counter;
            var ready := SimAfter(Step(w, config, DoMint(i, tokenId, at)), config, between);
            && n in ready.placing
            && AnswersFor(SimAfter(Step(ready, config, DoRest(n)), config, since).ledger,
                          config, OrderId(n), i, tokenId, at, pid, now, price)
  {
    var n, minted := w.ledger.counter, Step(w, config, DoMint(i, tokenId, at));
    StepOk(w, config, DoMint(i, tokenId, at));
    StillPlacing(minted, config, between, n);
    BooksBalance(minted, config, between);
    var ready := SimAfter(minted, config, between);
    var placed := Step(ready, config, DoRest(n));
    StepOk(ready, config, DoRest(n));
    var l := SimAfter(placed, config, since).ledger;
    if OrderId(n) in l.resting {
      TermsKept(placed, config, since, OrderId(n));
    }
    AnswersByTerms(l, config, OrderId(n), i, tokenId, at, pid, now, price);
  }
}
