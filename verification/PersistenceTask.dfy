/** The persistence task's loop body: one message, at most one store write. */
module PersistenceTask {
  import opened Types
  import opened Store
  import opened Persistence
  import opened Protocol
  import opened SharedWorld

  /** What an order update leaves in the table: nothing for Submitted, the price and the status of a fill,
      and the status alone of a rejection or a cancellation; an unknown id changes nothing. */
  ghost predicate OrderStored(before: Rows, after: Rows, u: OrderUpdate) {
    && after.Keys == before.Keys
    && (forall p :: p in before && p != u.pid ==> after[p] == before[p])
    && (u.pid in before ==>
          var row := before[u.pid];
          match u
          case OrderSubmitted(_, _) => after[u.pid] == row
          case OrderFilled(_, _, price, _) => after[u.pid] == row.(status := PositionStatus.Filled, avgPrice := Some(price))
          case OrderRejected(_, _) => after[u.pid] == row.(status := PositionStatus.Rejected)
          case OrderCancelled(_, _) => after[u.pid] == row.(status := PositionStatus.Cancelled))
  }

  /** A win or a loss is stored with its profit; no other settlement status is. */
  ghost predicate SettlementStored(before: Rows, after: Rows, v: SettledEvent) {
    && after.Keys == before.Keys
    && (forall p :: p in before && p != v.pid ==> after[p] == before[p])
    && (v.pid in before ==>
          var row := before[v.pid];
          if v.status == PositionStatus.Won || v.status == PositionStatus.Lost
          then after[v.pid] == row.(status := v.status, realizedPnl := Some(v.realizedPnl))
          else after[v.pid] == row)
  }

  /** The step this task takes from `s`. */
  ghost predicate StoredBy(s: System, up: bool, v: SettledEvent) {
    Enabled(s, PersistSettlement(up)) &&
    var after := Next(s, PersistSettlement(up)).db.rows;
    if up then SettlementStored(s.db.rows, after, v) else after == s.db.rows
  }

  lemma OrderWriteStores(rows: Rows, u: OrderUpdate)
    ensures OrderStored(rows, match OrderWrite(u) case Some(w) => UpdateRows(rows, u.pid, w) case None => rows, u)
  {
  }

  lemma SettledWriteStores(rows: Rows, v: SettledEvent)
    ensures SettlementStored(rows, match SettledWrite(v) case Some(w) => UpdateRows(rows, v.pid, w) case None => rows, v)
  {
  }

  class Persister {
    const world: World
    var ordersSeen: nat
    var settledSeen: nat

    ghost predicate Valid() reads this, world, world.store {
      && world.Valid() && ordersSeen == world.sys.persist.orders && settledSeen == world.sys.persist.settled
      && ordersSeen <= |world.orders| && settledSeen <= |world.settled|
    }

    constructor (world: World)
      requires world.Valid() && world.sys.persist.orders == world.sys.persist.settled == 0
      ensures Valid() && this.world == world
    {
      this.world := world;
      ordersSeen, settledSeen := 0, 0;
    }

    /** `up` says whether the store takes the write; a failed write is logged and lost. The row written
        is the one the others left. */
    method OnOrderUpdate(up: bool) returns (ghost others: seq<Event>)
      requires Valid() && ordersSeen < |world.orders|
      modifies this`ordersSeen, world, world.store
      ensures Valid() && ordersSeen == old(ordersSeen) + 1
      ensures Meanwhile(Persister, old(world.sys), others)
      ensures var before := After(old(world.sys), others).db.rows;
              if up then OrderStored(before, world.store.rows, old(world.orders)[old(ordersSeen)])
              else world.store.rows == before
      ensures Own(Persister, world.trace) == old(Own(Persister, world.trace)) + [PersistOrder(up)]
    {
      var u := world.orders[ordersSeen];
      var write;
      match u {
        case OrderSubmitted(_, _) => write := None;
        case OrderFilled(_, _, avg, size) => write := Some(SetFilled(avg, size));
        case OrderRejected(_, _) => write := Some(SetRejected);
        case OrderCancelled(_, _) => write := Some(SetCancelled);
      }
      OrderWriteStores(world.store.rows, u);
      if write.None? {
        others := [];
        world.Silently(PersistOrder(up));
      } else {
        others := StoreOrder(u, write.value, up);
      }
      ordersSeen := ordersSeen + 1;
    }

    method StoreOrder(u: OrderUpdate, w: PositionUpdate, up: bool) returns (ghost others: seq<Event>)
      requires Valid() && ordersSeen < |world.orders| && u == world.orders[ordersSeen] && OrderWrite(u) == Some(w)
      modifies world, world.store
      ensures world.Valid() && world.sys.persist.orders == ordersSeen + 1 && world.sys.persist.settled == settledSeen
      ensures ordersSeen < |world.orders| && settledSeen <= |world.settled|
      ensures Meanwhile(Persister, old(world.sys), others)
      ensures var before := After(old(world.sys), others).db.rows;
              if up then OrderStored(before, world.store.rows, u) else world.store.rows == before
      ensures Own(Persister, world.trace) == old(Own(Persister, world.trace)) + [PersistOrder(up)]
    {
      others := world.Pause(Persister);
      OrderWriteStores(world.store.rows, u);
      Write(u.pid, w, up, PersistOrder(up));
    }

    method Write(pid: nat, w: PositionUpdate, up: bool, ghost e: Event)
      requires world.Valid() && Enabled(world.sys, e) && (e.PersistOrder? || e.PersistSettlement?)
      requires WriteOf(world.sys, e) == if up then Some((pid, w)) else None
      modifies world`sys, world`trace, world.store`rows
      ensures world.Valid() && world.sys == Next(old(world.sys), e)
      ensures world.store.rows == if up then UpdateRows(old(world.store.rows), pid, w) else old(world.store.rows)
      ensures Own(Owner(e), world.trace) == old(Own(Owner(e), world.trace)) + [e]
    {
      world.UpdatePosition(pid, w, up, e);
    }

    /** After a successful write the tally is read back, which may fail in its turn; it is logged as
        the rows then stand, and never shows more wins than results. */
    method OnSettled(up: bool, countUp: bool) returns (tally: Option<(nat, nat)>, ghost others: seq<Event>)
      requires Valid() && settledSeen < |world.settled|
      modifies this`settledSeen, world, world.store
      ensures Valid() && settledSeen == old(settledSeen) + 1
      ensures Own(Persister, world.trace) == old(Own(Persister, world.trace)) + [PersistSettlement(up)]
      ensures tally == if up && countUp && SettledWrite(old(world.settled)[old(settledSeen)]).Some?
                       then Some((|WinIds(world.store.rows)|, |ResolvedIds(world.store.rows)|)) else None
      ensures tally.Some? ==> tally.value.0 <= tally.value.1
      ensures Meanwhile(Persister, old(world.sys), others)
      ensures StoredBy(After(old(world.sys), others), up, old(world.settled)[old(settledSeen)])
    {
      var ev := world.settled[settledSeen];
      tally := None;
      var write;
      match ev.status {
        case Won => write := Some(SetWon(ev.realizedPnl));
        case Lost => write := Some(SetLost(ev.realizedPnl));
        case _ => write := None;
      }
      if write.None? {
        others := [];
        SettledWriteStores(world.store.rows, ev);
        world.Silently(PersistSettlement(up));
      } else {
        tally, others := StoreSettled(ev, write.value, up, countUp);
      }
      settledSeen := settledSeen + 1;
    }

    method StoreSettled(ev: SettledEvent, u: PositionUpdate, up: bool, countUp: bool)
      returns (tally: Option<(nat, nat)>, ghost others: seq<Event>)
      requires Valid() && settledSeen < |world.settled| && ev == world.settled[settledSeen] && SettledWrite(ev) == Some(u)
      modifies world, world.store
      ensures world.Valid() && world.sys.persist.orders == ordersSeen && world.sys.persist.settled == settledSeen + 1
      ensures ordersSeen <= |world.orders| && settledSeen < |world.settled|
      ensures Own(Persister, world.trace) == old(Own(Persister, world.trace)) + [PersistSettlement(up)]
      ensures tally == if up && countUp then Some((|WinIds(world.store.rows)|, |ResolvedIds(world.store.rows)|)) else None
      ensures tally.Some? ==> tally.value.0 <= tally.value.1
      ensures Meanwhile(Persister, old(world.sys), others) && StoredBy(After(old(world.sys), others), up, ev)
    {
      others := world.Pause(Persister);
      SettledWriteStores(world.store.rows, ev);
      Write(ev.pid, u, up, PersistSettlement(up));
      world.GiveWay(Persister);
      if up && countUp {
        var wins, resolved := world.store.SuccessRateCounts();
        WinsWithinResolved(world.store.rows);
        tally := Some((wins, resolved));
      } else {
        tally := None;
      }
    }

    /** A lagging receiver skips the messages it was too slow for. */
    method OnOrdersLagged(n: nat)
      requires Valid() && ordersSeen + n <= |world.orders|
      modifies this`ordersSeen, world
      ensures Valid() && ordersSeen == old(ordersSeen) + n
      ensures Own(Persister, world.trace) == old(Own(Persister, world.trace)) + [LagPersistOrders(n)]
    {
      world.Silently(LagPersistOrders(n));
      ordersSeen := ordersSeen + n;
    }

    method OnSettledLagged(n: nat)
      requires Valid() && settledSeen + n <= |world.settled|
      modifies this`settledSeen, world
      ensures Valid() && settledSeen == old(settledSeen) + n
      ensures Own(Persister, world.trace) == old(Own(Persister, world.trace)) + [LagPersistSettled(n)]
    {
      world.Silently(LagPersistSettled(n));
      settledSeen := settledSeen + n;
    }
  }
}
