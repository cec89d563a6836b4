/** The bot's shared vocabulary: statuses, markets, positions and channel messages. */
module Types {

  datatype Option<+T> = None | Some(value: T)

  datatype Side = Buy | Sell

  datatype Outcome = Up | Down
  {
    function AsStr(): string {
      match this
      case Up => "Up"
      case Down => "Down"
    }
  }

  datatype MarketStatus = Pending | Open | TradingCutoff | Resolving | Resolved

  datatype PositionStatus =
    | Submitted | Filled | Settling | Won | Lost | Rejected | Cancelled | Redeemed
  {
    predicate IsTerminal() {
      Won? || Lost? || Rejected? || Cancelled? || Redeemed?
    }
  }

  datatype MarketOutcome = MarketOutcome(name: string, tokenId: string)

  /** A tradeable market. Times are milliseconds, prices exact reals. */
  datatype Market = Market(
    slug: string,
    outcomes: seq<MarketOutcome>,
    strike: Option<real>,
    opensAt: int,
    closesAt: int,
    status: MarketStatus,
    resolvedOutcome: Option<string>,
    minTick: real,
    minSize: real)

  datatype Tick = Tick(price: real, at: int)

  datatype Intent = Intent(outcome: Outcome, side: Side, shares: real, limitPrice: real)

  datatype OrderUpdate =
    | OrderSubmitted(orderId: string, pid: nat)
    | OrderFilled(orderId: string, pid: nat, avgPrice: real, sizeMatched: real)
    | OrderRejected(orderId: string, pid: nat)
    | OrderCancelled(orderId: string, pid: nat)
  {
    predicate Terminal() {
      !OrderSubmitted?
    }
  }

  datatype SettledEvent = SettledEvent(pid: nat, status: PositionStatus, realizedPnl: real, cost: real)

  datatype Receipt = Receipt(transactionId: Option<string>, payout: real)

  /** A redemption on its way to confirmation (`PendingRedemption`), or confirmed (`Redeemed`). */
  datatype Redemption = Redemption(pid: nat, payout: real)

  /** One row of the positions table. */
  datatype Row = Row(
    marketSlug: string,
    side: Side,
    outcomeName: string,
    tokenId: string,
    orderId: Option<string>,
    shares: real,
    limitPrice: real,
    avgPrice: Option<real>,
    strike: Option<real>,
    status: PositionStatus,
    realizedPnl: Option<real>)

  datatype PositionUpdate =
    | SetSubmitted(orderId: string)
    | SetFilled(avgPrice: real, sizeMatched: real)
    | SetRejected
    | SetCancelled
    | SetSettling
    | SetWon(realizedPnl: real)
    | SetLost(realizedPnl: real)
    | SetRedeemed
}
