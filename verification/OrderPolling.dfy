/** The order-status poller's bookkeeping. */
module OrderPolling {
  import opened Types
  import opened State
  import opened Store

  /** Positions whose order id is not known yet, and those polled by order id. */
  datatype Tracking = Tracking(awaiting: set<nat>, tracked: map<nat, string>)

  function NoteSlot(t: Tracking, slot: RoundSlotState): Tracking {
    if slot.Pending? then t.(awaiting := t.awaiting + {slot.positionId}) else t
  }

  /** Order ids of the open rows that have one. */
  function OrderIdsOf(rows: Rows): map<nat, string> {
    map id | id in rows && SqlOpen(rows[id]) && rows[id].orderId.Some? :: rows[id].orderId.value
  }

  function Resolve(t: Tracking, known: map<nat, string>): Tracking {
    Tracking(t.awaiting - known.Keys,
             t.tracked + (map p | p in t.awaiting && p in known :: known[p]))
  }

  function Retire(t: Tracking, done: set<nat>): Tracking {
    t.(tracked := t.tracked - done)
  }
}
