/** The bankroll task's loop body: each message applied to the shared account. */
module BankrollTask {
  import opened Types
  import opened Bankroll
  import opened Protocol
  import opened SharedWorld

  class Banker {
    const world: World
    const state: BankrollState
    var ordersSeen: nat
    var settledSeen: nat
    var redeemedSeen: nat

    ghost predicate Valid() reads this, world, world.store, state {
      && world.Valid() && world.sys.bank == BankState(ordersSeen, settledSeen, redeemedSeen, state.View())
    }

    constructor (world: World, state: BankrollState)
      requires world.Valid() && world.sys.bank == BankState(0, 0, 0, state.View())
      ensures Valid() && this.world == world && this.state == state
    {
      this.world, this.state := world, state;
      ordersSeen, settledSeen, redeemedSeen := 0, 0, 0;
    }

    method OnOrderUpdate()
      requires Valid() && ordersSeen < |world.orders|
      modifies this`ordersSeen, state, world, world.store
      ensures Valid() && ordersSeen == old(ordersSeen) + 1
      ensures var u := old(world.orders)[old(ordersSeen)];
              state.View() == if u.OrderFilled? then OnFill(old(state.View()), u.avgPrice * u.sizeMatched)
                              else old(state.View())
      ensures Own(Task.Banker, world.trace) == old(Own(Task.Banker, world.trace)) + [BankOrder]
    {
      var u := world.orders[ordersSeen];
      world.GiveWay(Task.Banker);
      if u.OrderFilled? {
        state.UpdateOnFill(u.avgPrice * u.sizeMatched);
      }
      world.Silently(BankOrder);
      ordersSeen := ordersSeen + 1;
    }

    method OnSettled()
      requires Valid() && settledSeen < |world.settled|
      modifies this`settledSeen, state, world, world.store
      ensures Valid() && settledSeen == old(settledSeen) + 1
      ensures var v := old(world.settled)[old(settledSeen)];
              state.View() == OnSettlement(old(state.View()), v.cost, v.realizedPnl)
      ensures Own(Task.Banker, world.trace) == old(Own(Task.Banker, world.trace)) + [BankSettlement]
    {
      var v := world.settled[settledSeen];
      world.GiveWay(Task.Banker);
      state.UpdateOnSettlement(v.cost, v.realizedPnl);
      world.Silently(BankSettlement);
      settledSeen := settledSeen + 1;
    }

    method OnRedeemed()
      requires Valid() && redeemedSeen < |world.redeemed|
      modifies this`redeemedSeen, state, world, world.store
      ensures Valid() && redeemedSeen == old(redeemedSeen) + 1
      ensures state.View() == OnRedemption(old(state.View()), old(world.redeemed)[old(redeemedSeen)].payout)
      ensures Own(Task.Banker, world.trace) == old(Own(Task.Banker, world.trace)) + [BankRedemption]
    {
      var r := world.redeemed[redeemedSeen];
      world.GiveWay(Task.Banker);
      state.UpdateOnRedemption(r.payout);
      world.Silently(BankRedemption);
      redeemedSeen := redeemedSeen + 1;
    }

    /** A lagging receiver skips messages: what they carried never reaches the account. */
    method OnOrdersLagged(n: nat)
      requires Valid() && ordersSeen + n <= |world.orders|
      modifies this`ordersSeen, world
      ensures Valid() && ordersSeen == old(ordersSeen) + n && state.View() == old(state.View())
      ensures Own(Task.Banker, world.trace) == old(Own(Task.Banker, world.trace)) + [LagBankOrders(n)]
    {
      world.Silently(LagBankOrders(n));
      ordersSeen := ordersSeen + n;
    }

    method OnSettledLagged(n: nat)
      requires Valid() && settledSeen + n <= |world.settled|
      modifies this`settledSeen, world
      ensures Valid() && settledSeen == old(settledSeen) + n && state.View() == old(state.View())
      ensures Own(Task.Banker, world.trace) == old(Own(Task.Banker, world.trace)) + [LagBankSettled(n)]
    {
      world.Silently(LagBankSettled(n));
      settledSeen := settledSeen + n;
    }
  }
}
