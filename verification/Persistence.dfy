/** The persistence task: which store write each event leads to. */
module Persistence {
  import opened Types

  /** Submitted is skipped: the executor already wrote it. */
  function OrderWrite(u: OrderUpdate): Option<PositionUpdate> {
    match u
    case OrderSubmitted(_, _) => None
    case OrderFilled(_, _, avg, size) => Some(SetFilled(avg, size))
    case OrderRejected(_, _) => Some(SetRejected)
    case OrderCancelled(_, _) => Some(SetCancelled)
  }

  function SettledWrite(e: SettledEvent): Option<PositionUpdate> {
    match e.status
    case Won => Some(SetWon(e.realizedPnl))
    case Lost => Some(SetLost(e.realizedPnl))
    case _ => None
  }
}
