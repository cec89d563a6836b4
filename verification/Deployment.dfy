/** The tasks together: what the whole-run theorems say about the shared state the task methods leave behind. */
module Deployment {
  import opened Types
  import opened State
  import opened Protocol
  import opened SharedWorld
  import opened OrderSafety
  import opened SettleSafety
  import opened Lifecycle
  import opened Money
  import BankrollTask
  import Store

  /** However the tasks' methods have been called and interleaved since start-up: no position has two
      terminal updates in the queue, none that was rejected at placement has one, and the executor's slot
      holds at most one placement. */
  lemma QueuesAreSafe(w: World)
    requires w.Valid() && Init(w.start)
    ensures OneTerminal(w.orders)
    ensures !w.slot.Filled? && w.sys.exec.placements <= 1 && (w.sys.exec.placements == 1 ==> w.slot.Pending?)
    ensures forall pid :: pid in w.store.rows && pid !in w.start.db.rows && w.store.rows[pid].orderId.None? ==>
              pid !in Finished(w.orders)
  {
    Reached(w.start, w.trace);
    AtMostOnePlacementPerRotation(w.start, w.trace);
    StartUnchanged(w.start, w.trace);
  }

  /** While no delivered resolution picked an announced position: every position settles at most once and is
      confirmed at most once, for the payout it is owed, and the store's tally never exceeds what was announced. */
  lemma SettlementsAreSafe(w: World)
    requires w.Valid() && Init(w.start) && RunPicksNew(w.start, w.trace)
    ensures SettledOnce(w.settled) && Distinct(w.redeemed) && forall r :: r in w.redeemed ==> Owes(w.settled, r)
    ensures Store.WinIds(w.store.rows) <= Store.WinIds(w.start.db.rows) + Winners(w.settled)
  {
    SettledAndConfirmedOnce(w.start, w.trace);
    TallyNeverOvercounts(w.start, w.trace);
  }

  /** Unless a receiver lagged, the bankroll task's account adds up to the opening bankroll plus the
      profit and loss of the settlements it has consumed. */
  lemma AccountAddsUp(w: World, banker: BankrollTask.Banker)
    requires banker.world == w && banker.Valid() && Init(w.start) && LosslessRun(w.trace)
    ensures banker.settledSeen <= |w.settled|
    ensures banker.state.View().Total() == w.start.bank.account.bankroll + PnlTotal(w.settled[..banker.settledSeen])
  {
    TotalIsStartPlusPnl(w.start, w.trace);
  }
}
