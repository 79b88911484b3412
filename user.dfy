/**
 * The account and the per-symbol position ledger (models/user.go).
 *
 * `User` and `Portfolio` are updated in place by the source, so they are
 * classes here. What `Portfolio.UpdatePosition` and
 * `Portfolio.CalculateUnrealizedPL` compute is stated once, as the functions
 * `Fill` and `Mark` on the value `Position`; the methods are proved to
 * follow them, and the accounting properties are proved about the functions.
 */
module Accounts {
  import opened Numbers

  /** Whether a cash balance covers an amount (`User.CanAfford`). */
  predicate Affordable(balance: real, amount: real)
  {
    balance >= amount
  }

  class User {
    var balance: real

    constructor (initialBalance: real)
      ensures balance == initialBalance
    {
      balance := initialBalance;
    }

    /** `UpdateBalance`: adds a signed amount, with no overdraft guard. */
    method UpdateBalance(amount: real)
      modifies this
      ensures balance == old(balance) + amount
    {
      balance := balance + amount;
    }

    /** `CanAfford`: paying `amount` would leave no negative balance. */
    function CanAfford(amount: real): (r: bool)
      reads this
      ensures r <==> balance - amount >= 0.0
    {
      Affordable(balance, amount)
    }
  }

  /** The numeric fields of one ledger row. */
  datatype Position = Position(quantity: real, averagePrice: real, currentValue: real, unrealizedPL: real)

  /** A freshly created row: every field zero. */
  const Flat := Position(0.0, 0.0, 0.0, 0.0)

  /** The ledger's invariant: a closed position carries no cost basis. */
  predicate ZeroCostWhenFlat(p: Position)
  {
    p.quantity == 0.0 ==> p.averagePrice == 0.0
  }

  /**
   * `UpdatePosition(quantity, price)`: a fill of signed `quantity` at `price`.
   * An empty position takes the fill as is; a fill on the same side adds to
   * the quantity and keeps the volume-weighted average cost; a fill on the
   * other side changes only the quantity, and clears the average cost when it
   * closes the position exactly.
   */
  function Fill(pos: Position, quantity: real, price: real): (r: Position)
    // Quantities simply add, in every branch.
    ensures r.quantity == pos.quantity + quantity
    // The marked values are not touched by a fill.
    ensures r.currentValue == pos.currentValue && r.unrealizedPL == pos.unrealizedPL
    ensures pos.quantity == 0.0 ==> r.averagePrice == price
    // Same side: the cost basis of the result is the old cost basis plus the cost of the fill.
    ensures pos.quantity != 0.0 && Sign(quantity) == Sign(pos.quantity) ==>
              r.quantity * r.averagePrice == pos.quantity * pos.averagePrice + quantity * price
    // Other side: the average cost survives unless the position closes, then it is zero.
    ensures pos.quantity != 0.0 && Sign(quantity) != Sign(pos.quantity) ==>
              r.averagePrice == (if r.quantity == 0.0 then 0.0 else pos.averagePrice)
  {
    if pos.quantity == 0.0 then
      pos.(quantity := quantity, averagePrice := price)
    else if Sign(quantity) == Sign(pos.quantity) then
      var totalCost := pos.quantity * pos.averagePrice + quantity * price;
      var newQuantity := pos.quantity + quantity;
      pos.(quantity := newQuantity,
           averagePrice := if newQuantity != 0.0 then totalCost / newQuantity else pos.averagePrice)
    else
      var newQuantity := pos.quantity + quantity;
      pos.(quantity := newQuantity,
           averagePrice := if newQuantity == 0.0 then 0.0 else pos.averagePrice)
  }

  /**
   * `CalculateUnrealizedPL(currentPrice)`: marks the position to market. An
   * empty position only has its profit cleared; its last market value stays.
   */
  function Mark(pos: Position, currentPrice: real): (r: Position)
    ensures r.quantity == pos.quantity && r.averagePrice == pos.averagePrice
    ensures pos.quantity == 0.0 ==> r.unrealizedPL == 0.0 && r.currentValue == pos.currentValue
    ensures pos.quantity != 0.0 ==> r.currentValue == pos.quantity * currentPrice
    ensures r.unrealizedPL == pos.quantity * (currentPrice - pos.averagePrice)
  {
    if pos.quantity == 0.0 then
      pos.(unrealizedPL := 0.0)
    else
      var currentValue := pos.quantity * currentPrice;
      var costBasis := pos.quantity * pos.averagePrice;
      pos.(unrealizedPL := currentValue - costBasis, currentValue := currentValue)
  }

  class Portfolio {
    const symbol: string
    var quantity: real
    var averagePrice: real
    var currentValue: real
    var unrealizedPL: real

    /** `&models.Portfolio{UserID, Symbol}`: a new row for a symbol. */
    constructor (symbol: string)
      ensures this.symbol == symbol && Snapshot() == Flat
    {
      this.symbol := symbol;
      quantity, averagePrice, currentValue, unrealizedPL := 0.0, 0.0, 0.0, 0.0;
    }

    function Snapshot(): Position
      reads this
    {
      Position(quantity, averagePrice, currentValue, unrealizedPL)
    }

    method UpdatePosition(quantity: real, price: real)
      modifies this
      ensures Snapshot() == Fill(old(Snapshot()), quantity, price)
    {
      if this.quantity == 0.0 {
        this.quantity := quantity;
        averagePrice := price;
      } else if Sign(quantity) == Sign(this.quantity) {
        var totalCost := this.quantity * averagePrice + quantity * price;
        this.quantity := this.quantity + quantity;
        if this.quantity != 0.0 {
          averagePrice := totalCost / this.quantity;
        }
      } else {
        this.quantity := this.quantity + quantity;
        if this.quantity == 0.0 {
          averagePrice := 0.0;
        }
      }
    }

    method CalculateUnrealizedPL(currentPrice: real)
      modifies this
      ensures Snapshot() == Mark(old(Snapshot()), currentPrice)
    {
      if quantity == 0.0 {
        unrealizedPL := 0.0;
        return;
      }
      var value := quantity * currentPrice;
      var costBasis := quantity * averagePrice;
      unrealizedPL := value - costBasis;
      currentValue := value;
    }
  }

  /** Marking twice at the same price gives what marking once gives: no drift. */
  lemma MarkIdempotent(pos: Position, currentPrice: real)
    ensures Mark(Mark(pos, currentPrice), currentPrice) == Mark(pos, currentPrice)
  {
  }

  /**
   * Every fill of a non-zero quantity keeps "flat means zero cost". A zero
   * quantity on a flat row is the one exception: the row stays flat but takes
   * the price as its average.
   */
  lemma FillKeepsZeroCostWhenFlat(pos: Position, quantity: real, price: real)
    requires ZeroCostWhenFlat(pos)
    ensures quantity != 0.0 || pos.quantity != 0.0 ==> ZeroCostWhenFlat(Fill(pos, quantity, price))
    ensures quantity == 0.0 && pos.quantity == 0.0 && price != 0.0 ==> !ZeroCostWhenFlat(Fill(pos, quantity, price))
  {
  }

  /**
   * An opposite fill no larger than the position only shrinks it; a larger one
   * reverses it and the reversed position keeps the old average cost rather
   * than the fill price.
   */
  lemma OppositeFill(pos: Position, quantity: real, price: real)
    requires pos.quantity != 0.0 && quantity != 0.0 && Sign(quantity) != Sign(pos.quantity)
    ensures Abs(quantity) <= Abs(pos.quantity) ==>
              Sign(Fill(pos, quantity, price).quantity) != -Sign(pos.quantity)
    ensures Abs(quantity) > Abs(pos.quantity) ==>
              Sign(Fill(pos, quantity, price).quantity) == -Sign(pos.quantity) &&
              Fill(pos, quantity, price).averagePrice == pos.averagePrice
  {
  }

  /** The worked ledger example: buy 10 at 100, buy 10 at 110, sell 20 at 120. */
  lemma LedgerRoundTrip()
    ensures Fill(Flat, 10.0, 100.0).quantity == 10.0 && Fill(Flat, 10.0, 100.0).averagePrice == 100.0
    ensures Fill(Fill(Flat, 10.0, 100.0), 10.0, 110.0).quantity == 20.0
    ensures Fill(Fill(Flat, 10.0, 100.0), 10.0, 110.0).averagePrice == 105.0
    ensures Fill(Fill(Fill(Flat, 10.0, 100.0), 10.0, 110.0), -20.0, 120.0) == Flat
  {
    var once := Fill(Flat, 10.0, 100.0);
    var twice := Fill(once, 10.0, 110.0);
    assert twice.averagePrice == 2100.0 / 20.0;
  }

  /** Applies a series of (signed quantity, price) fills in order. */
  function FillAll(pos: Position, fills: seq<(real, real)>): Position
  {
    if |fills| == 0 then pos
    else Fill(FillAll(pos, fills[..|fills| - 1]), fills[|fills| - 1].0, fills[|fills| - 1].1)
  }

  function TotalQuantity(fills: seq<(real, real)>): real
  {
    if |fills| == 0 then 0.0 else TotalQuantity(fills[..|fills| - 1]) + fills[|fills| - 1].0
  }

  function TotalCost(fills: seq<(real, real)>): real
  {
    if |fills| == 0 then 0.0
    else TotalCost(fills[..|fills| - 1]) + fills[|fills| - 1].0 * fills[|fills| - 1].1
  }

  /**
   * Building a position from flat with buys only: the quantity is the total
   * bought and the average cost is the volume-weighted average of the fill
   * prices (quantity times average equals the total amount paid).
   */
  lemma {:induction false} BuysGiveWeightedAverage(fills: seq<(real, real)>)
    requires forall i :: 0 <= i < |fills| ==> fills[i].0 > 0.0
    ensures FillAll(Flat, fills).quantity == TotalQuantity(fills)
    ensures FillAll(Flat, fills).quantity * FillAll(Flat, fills).averagePrice == TotalCost(fills)
  {
    if |fills| > 0 {
      var prefix := fills[..|fills| - 1];
      BuysGiveWeightedAverage(prefix);
      PositiveTotal(prefix);
      var before := FillAll(Flat, prefix);
      var (q, p) := fills[|fills| - 1];
      if before.quantity == 0.0 {
        assert prefix == [];
      } else {
        assert Sign(q) == Sign(before.quantity);
      }
    }
  }

  lemma {:induction false} PositiveTotal(fills: seq<(real, real)>)
    requires forall i :: 0 <= i < |fills| ==> fills[i].0 > 0.0
    ensures |fills| > 0 ==> TotalQuantity(fills) > 0.0
    ensures |fills| == 0 ==> TotalQuantity(fills) == 0.0
  {
    if |fills| > 0 {
      PositiveTotal(fills[..|fills| - 1]);
    }
  }
}
