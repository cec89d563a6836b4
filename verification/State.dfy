/** The guarded state machines and the two in-memory accumulators shared by the tasks. */
module State {
  import opened Types

  // ─── Round slot ─────────────────────────────────────────────────────────────

  datatype RoundSlotState = Empty | Pending(positionId: nat) | Filled(positionId: nat)
  {
    /** Claim the slot at submission time; refused unless it is empty. */
    function Claim(id: nat): Option<RoundSlotState> {
      if Empty? then Some(RoundSlotState.Pending(id)) else None
    }

    /** Free the slot after a failed placement; refused unless an order is pending. */
    function Free(): Option<RoundSlotState> {
      if Pending? then Some(Empty) else None
    }

    function Rotate(): RoundSlotState {
      Empty
    }
  }

  // ─── Market and position lifecycles ─────────────────────────────────────────

  predicate MarketEdge(from: MarketStatus, to: MarketStatus) {
    match (from, to)
    case (Pending, Open) => true
    case (Open, TradingCutoff) => true
    case (TradingCutoff, Resolving) => true
    case (Resolving, Resolved) => true
    case (Pending, Resolved) => true
    case _ => false
  }

  function MarketTransition(from: MarketStatus, to: MarketStatus): Option<MarketStatus> {
    if MarketEdge(from, to) then Some(to) else None
  }

  predicate PositionEdge(from: PositionStatus, to: PositionStatus) {
    match (from, to)
    case (Submitted, Filled) => true
    case (Submitted, Rejected) => true
    case (Submitted, Cancelled) => true
    case (Filled, Settling) => true
    case (Settling, Won) => true
    case (Settling, Lost) => true
    case (Won, Redeemed) => true
    case _ => false
  }

  /** How far a market has come, and a position. */
  function MarketRank(s: MarketStatus): nat {
    match s
    case Pending => 0
    case Open => 1
    case TradingCutoff => 2
    case Resolving => 3
    case Resolved => 4
  }

  /** A market moves one stage at a time, or is found resolved at once; never back, and never out of Resolved. */
  lemma MarketEdgeIff(from: MarketStatus, to: MarketStatus)
    ensures MarketTransition(from, to).Some? <==>
              MarketRank(to) == MarketRank(from) + 1 || (from == MarketStatus.Pending && to == MarketStatus.Resolved)
    ensures MarketTransition(from, to).Some? ==> MarketTransition(from, to).value == to
  {
  }

  function PositionRank(s: PositionStatus): nat {
    match s
    case Submitted => 0
    case Filled => 1
    case Rejected => 1
    case Cancelled => 1
    case Settling => 2
    case Won => 3
    case Lost => 3
    case Redeemed => 4
  }

  /** A position moves one stage at a time, and a rejected, cancelled or lost one no further. */
  lemma PositionEdgeIff(from: PositionStatus, to: PositionStatus)
    ensures PositionEdge(from, to) <==>
              && PositionRank(to) == PositionRank(from) + 1
              && from != PositionStatus.Rejected && from != PositionStatus.Cancelled && from != PositionStatus.Lost
  {
  }

  // ─── Outcome books ──────────────────────────────────────────────────────────

  datatype OutcomeBook = OutcomeBook(tokenId: string, buyPrice: Option<real>, sellPrice: Option<real>)

  type Books = map<string, OutcomeBook>

  /** Buy reads the ask, Sell the bid. */
  function PriceIn(books: Books, tokenId: string, side: Side): Option<real> {
    if tokenId !in books then None
    else if side.Buy? then books[tokenId].buyPrice else books[tokenId].sellPrice
  }

  /** A token's last update is what is read back: a buyer sees its ask, a seller its bid, and no other
      token's prices change; a token without an update has none. */
  lemma ReadsBack(books: Books, b: OutcomeBook, tokenId: string, side: Side)
    ensures PriceIn(books[b.tokenId := b], tokenId, side) ==
              if tokenId != b.tokenId then PriceIn(books, tokenId, side)
              else if side == Buy then b.buyPrice else b.sellPrice
    ensures PriceIn(map[], tokenId, side).None?
  {
  }

  class OutcomeBookCache {
    var books: Books

    constructor ()
      ensures books == map[]
    {
      books := map[];
    }

    method Update(book: OutcomeBook)
      modifies this
      ensures books == old(books)[book.tokenId := book]
    {
      books := books[book.tokenId := book];
    }

    method Price(tokenId: string, side: Side) returns (price: Option<real>)
      ensures price == PriceIn(books, tokenId, side)
    {
      if tokenId !in books {
        return None;
      }
      var b := books[tokenId];
      match side {
        case Buy => price := b.buyPrice;
        case Sell => price := b.sellPrice;
      }
    }

    method Clear()
      modifies this
      ensures books == map[]
    {
      books := map[];
    }
  }
}
