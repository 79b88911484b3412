/**
 * The trade record (models/trade.go): its side, order type and status
 * enumerations, its life cycle (created pending, then filled or cancelled),
 * and the two amounts derived from a filled trade.
 */
module Trades {

  datatype Side = Buy | Sell

  datatype TradeType = Market | Limit | Stop

  datatype Status = Pending | Filled | Cancelled | Rejected | Expired

  /**
   * A strategy's recommendation: a side, a confidence strength, and the price
   * it was made at. The symbol, strategy name and timestamp are not modelled.
   */
  datatype TradingSignal = TradingSignal(side: Side, strength: real, price: real)

  /**
   * A trade. The fields the core never changes after creation are constants;
   * the ones that `MarkFilled`, `Cancel` and the executor update are variables.
   * Identifiers, user id, notes and timestamps are not modelled.
   */
  class Trade {
    const symbol: string
    const side: Side
    const tradeType: TradeType
    const quantity: real
    const price: real
    const strategy: string
    var fillPrice: real
    var status: Status
    var commission: real

    /** `NewTrade`: a pending order with no fill price and no commission yet. */
    constructor (symbol: string, side: Side, tradeType: TradeType, quantity: real, price: real, strategy: string)
      ensures this.symbol == symbol && this.side == side && this.tradeType == tradeType
      ensures this.quantity == quantity && this.price == price && this.strategy == strategy
      ensures status == Pending && fillPrice == 0.0 && commission == 0.0
    {
      this.symbol := symbol;
      this.side := side;
      this.tradeType := tradeType;
      this.quantity := quantity;
      this.price := price;
      this.strategy := strategy;
      fillPrice := 0.0;
      status := Pending;
      commission := 0.0;
    }

    /** `MarkFilled`: records the execution; there is no guard on the old status. */
    method MarkFilled(fillPrice: real, commission: real)
      modifies this
      ensures status == Filled
      ensures this.fillPrice == fillPrice && this.commission == commission
    {
      this.fillPrice := fillPrice;
      this.commission := commission;
      status := Filled;
    }

    /** `Cancel`: only the status changes, and even a filled trade can be cancelled. */
    method Cancel()
      modifies this
      ensures status == Cancelled
      ensures fillPrice == old(fillPrice) && commission == old(commission)
    {
      status := Cancelled;
    }

    /** `GetTotalCost`: cash paid for a filled buy, cash received for a filled sell. */
    function TotalCost(): (r: real)
      reads this
      ensures status != Filled ==> r == 0.0
    {
      if status != Filled then 0.0
      else if side == Buy then quantity * fillPrice + commission
      else quantity * fillPrice - commission
    }

    /** `GetProfitLoss`: profit of a filled trade marked at `currentPrice`, net of commission. */
    function ProfitLoss(currentPrice: real): (r: real)
      reads this
      ensures status != Filled ==> r == 0.0
    {
      if status != Filled then 0.0
      else if side == Buy then (currentPrice - fillPrice) * quantity - commission
      else (fillPrice - currentPrice) * quantity - commission
    }
  }

  /**
   * For a filled trade, cost and profit are two views of the same fill: on a buy
   * the cash paid plus the profit is the market value of the bought quantity,
   * on a sell the cash received minus the profit is. Marked at its own fill
   * price, a filled trade has lost exactly its commission.
   */
  lemma CostAndProfitAgree(t: Trade, currentPrice: real)
    requires t.status == Filled
    ensures t.side == Buy ==> t.TotalCost() + t.ProfitLoss(currentPrice) == t.quantity * currentPrice
    ensures t.side == Sell ==> t.TotalCost() - t.ProfitLoss(currentPrice) == t.quantity * currentPrice
    ensures t.ProfitLoss(t.fillPrice) == -t.commission
  {
  }
}
