/**
 * The trading engine's per-symbol step (main.go): collect the strategies'
 * signals, turn them into at most one market order (`makeTradeDecision`),
 * hand it to the broker, and book a filled order against the cash balance
 * and the position ledger (`updateUserBalanceAndPortfolio`); plus the
 * marking of the whole ledger to current prices (`updatePortfolioValues`).
 *
 * The portfolios table is a sequence of `Portfolio` rows, one per symbol.
 * Its reads return only open rows (non-zero quantity), and a row is written
 * back keyed on its symbol, replacing any row already there. The broker's
 * answer is an input (`Execution`).
 */
module Engine {
  import opened Numbers
  import opened Wrappers
  import opened Trades
  import opened Accounts
  import opened Strategies

  /** The risk settings the decision reads. */
  datatype Config = Config(maxPositionSize: real, riskPercentage: real)

  // ---------------------------------------------------------------- The vote

  /** Buy votes, sell votes, and the summed strength of every signal whatever its side. */
  datatype Tally = Tally(buys: nat, sells: nat, totalStrength: real)

  function Count(signals: seq<TradingSignal>): (t: Tally)
    ensures t.buys + t.sells == |signals|
  {
    if |signals| == 0 then Tally(0, 0, 0.0)
    else
      var t := Count(signals[..|signals| - 1]);
      var s := signals[|signals| - 1];
      Tally(if s.side == Buy then t.buys + 1 else t.buys,
            if s.side == Sell then t.sells + 1 else t.sells,
            t.totalStrength + s.strength)
  }

  /** Tallies add up: the vote of two batches is the sum of their votes. */
  lemma {:induction false} CountAppend(a: seq<TradingSignal>, b: seq<TradingSignal>)
    ensures Count(a + b).buys == Count(a).buys + Count(b).buys
    ensures Count(a + b).sells == Count(a).sells + Count(b).sells
    ensures Count(a + b).totalStrength == Count(a).totalStrength + Count(b).totalStrength
  {
    if |b| > 0 {
      CountAppend(a, b[..|b| - 1]);
      assert (a + b)[..|a + b| - 1] == a + b[..|b| - 1];
    } else {
      assert a + b == a;
    }
  }

  /** A strict majority of buys with at least two of them. */
  predicate BuyVote(t: Tally)
  {
    t.buys > t.sells && t.buys >= 2
  }

  /** A strict majority of sells with at least two of them. */
  predicate SellVote(t: Tally)
  {
    t.sells > t.buys && t.sells >= 2
  }

  // ---------------------------------------------------------------- The decision

  /** No row for the symbol, or a row with zero quantity. */
  predicate NoPosition(held: Option<real>)
  {
    held.None? || held.value == 0.0
  }

  /** Whole units only: the decimal's `Truncate(0)` leaves no fraction. */
  predicate Whole(x: real)
  {
    x == x.Floor as real
  }

  /**
   * The size of a buy: the risked amount (balance times risk fraction times
   * the summed strength), capped at the maximum position value, divided by
   * the price and truncated toward zero.
   */
  function BuyQuantity(balance: real, totalStrength: real, currentPrice: real, cfg: Config): (r: real)
    requires currentPrice != 0.0
    ensures Whole(r)
  {
    Truncate(Min(cfg.maxPositionSize, balance * cfg.riskPercentage * totalStrength) / currentPrice) as real
  }

  /** The sized buy is for a positive quantity whose notional the balance covers. */
  predicate BuyFits(balance: real, totalStrength: real, currentPrice: real, cfg: Config)
    requires currentPrice != 0.0
  {
    var quantity := BuyQuantity(balance, totalStrength, currentPrice, cfg);
    quantity > 0.0 && Affordable(balance, quantity * currentPrice)
  }

  /** The order `makeTradeDecision` would place: a side, a quantity and the current price. */
  datatype Order = Order(side: Side, quantity: real, price: real)

  /**
   * `makeTradeDecision` on values. `held` is the quantity of the first
   * ledger row for the symbol, if there is one. A buy vote opens a position
   * only from no position and only when the sized quantity is positive and
   * affordable; a sell vote closes a long position in full; nothing else
   * trades.
   */
  function Decide(signals: seq<TradingSignal>, held: Option<real>, balance: real, currentPrice: real, cfg: Config)
    : (r: Option<Order>)
    requires BuyVote(Count(signals)) && NoPosition(held) ==> currentPrice != 0.0
    ensures r.Some? ==> r.value.price == currentPrice
    ensures r.Some? && r.value.side == Buy <==>
              BuyVote(Count(signals)) && NoPosition(held) && BuyFits(balance, Count(signals).totalStrength, currentPrice, cfg)
    ensures r.Some? && r.value.side == Buy ==>
              r.value.quantity == BuyQuantity(balance, Count(signals).totalStrength, currentPrice, cfg) &&
              r.value.quantity > 0.0 && Whole(r.value.quantity) && Affordable(balance, r.value.quantity * currentPrice)
    ensures r.Some? && r.value.side == Sell <==> SellVote(Count(signals)) && held.Some? && held.value > 0.0
    ensures r.Some? && r.value.side == Sell ==> r.value.quantity == held.value
  {
    var t := Count(signals);
    if BuyVote(t) then
      if NoPosition(held) then
        if BuyFits(balance, t.totalStrength, currentPrice, cfg) then
          Some(Order(Buy, BuyQuantity(balance, t.totalStrength, currentPrice, cfg), currentPrice))
        else None
      else None
    else if SellVote(t) then
      if held.Some? && held.value > 0.0 then Some(Order(Sell, held.value, currentPrice))
      else None
    else None
  }

  /** One signal, or an even split, never trades. */
  lemma NoQuorumNoTrade(signals: seq<TradingSignal>, held: Option<real>, balance: real, currentPrice: real, cfg: Config)
    requires |signals| < 2 || Count(signals).buys == Count(signals).sells
    ensures Decide(signals, held, balance, currentPrice, cfg) == None
  {
  }

  /**
   * A buy is sized `BuyQuantity` (see `Decide`). When that size is positive at
   * a positive price it is at least one whole unit, and its notional is at most
   * the maximum position value and at most the risked amount.
   */
  lemma SizeBounds(quantity: real, balance: real, totalStrength: real, currentPrice: real, cfg: Config)
    requires currentPrice > 0.0
    requires quantity == BuyQuantity(balance, totalStrength, currentPrice, cfg) && quantity > 0.0
    ensures quantity >= 1.0
    ensures quantity * currentPrice <= cfg.maxPositionSize
    ensures quantity * currentPrice <= balance * cfg.riskPercentage * totalStrength
  {
    var cap := Min(cfg.maxPositionSize, balance * cfg.riskPercentage * totalStrength);
    TruncatedUnits(cap, currentPrice);
  }

  /** Whole units bought with `cap` at `price`: at least one when positive, and never more than `cap` worth. */
  lemma TruncatedUnits(cap: real, price: real)
    requires price > 0.0 && Truncate(cap / price) > 0
    ensures Truncate(cap / price) as real >= 1.0
    ensures Truncate(cap / price) as real * price <= cap
  {
    var units := cap / price;
    var quantity := Truncate(units) as real;
    assert 0.0 < quantity <= units;
    ScaleMonotone(quantity, units, price);
    assert units * price == cap;
  }

  lemma ScaleMonotone(a: real, b: real, c: real)
    requires a <= b && 0.0 < c
    ensures a * c <= b * c
  {
  }

  /**
   * A sell decision on a long position, once filled, closes it: the quantity
   * returns to zero and the average cost is cleared.
   */
  lemma SellClosesPosition(signals: seq<TradingSignal>, pos: Position, balance: real, currentPrice: real,
                           cfg: Config, fillPrice: real)
    requires pos.quantity > 0.0
    requires Decide(signals, Some(pos.quantity), balance, currentPrice, cfg).Some?
    requires Decide(signals, Some(pos.quantity), balance, currentPrice, cfg).value.side == Sell
    ensures var o := Decide(signals, Some(pos.quantity), balance, currentPrice, cfg).value;
            var after := Fill(pos, Signed(o.side, o.quantity), fillPrice);
            after.quantity == 0.0 && after.averagePrice == 0.0 && ZeroCostWhenFlat(after)
  {
    var o := Decide(signals, Some(pos.quantity), balance, currentPrice, cfg).value;
    assert Signed(o.side, o.quantity) == -pos.quantity;
    assert Sign(-pos.quantity) != Sign(pos.quantity);
  }

  /**
   * A buy decision is only taken when the symbol has no open row, so its
   * booking starts a fresh row: it holds exactly the ordered quantity at the
   * fill price, with no market value or profit yet.
   */
  lemma BuyOpensPosition(signals: seq<TradingSignal>, ledger: seq<Portfolio>, symbol: string, balance: real,
                         currentPrice: real, cfg: Config, fillPrice: real)
    requires BuyVote(Count(signals)) && NoPosition(HeldQuantity(ledger, symbol)) ==> currentPrice != 0.0
    requires Decide(signals, HeldQuantity(ledger, symbol), balance, currentPrice, cfg).Some?
    requires Decide(signals, HeldQuantity(ledger, symbol), balance, currentPrice, cfg).value.side == Buy
    ensures FindOpen(ledger, symbol).None?
    ensures var o := Decide(signals, HeldQuantity(ledger, symbol), balance, currentPrice, cfg).value;
            Fill(Flat, Signed(o.side, o.quantity), fillPrice) == Position(o.quantity, fillPrice, 0.0, 0.0)
  {
  }

  // ---------------------------------------------------------------- The ledger

  /** The signed quantity a fill moves: sells reduce the position. */
  function Signed(side: Side, quantity: real): (r: real)
    ensures Abs(r) == Abs(quantity)
    ensures side == Buy ==> r == quantity
    ensures side == Sell ==> r + quantity == 0.0
  {
    if side == Sell then -quantity else quantity
  }

  /** The index of the first row for `symbol`, open or closed. */
  function FindSymbol(ledger: seq<Portfolio>, symbol: string): (r: Option<nat>)
    ensures r.Some? ==> r.value < |ledger| && ledger[r.value].symbol == symbol
    ensures r.Some? ==> forall j :: 0 <= j < r.value ==> ledger[j].symbol != symbol
    ensures r.None? ==> forall j :: 0 <= j < |ledger| ==> ledger[j].symbol != symbol
  {
    if |ledger| == 0 then None
    else if ledger[0].symbol == symbol then Some(0)
    else
      match FindSymbol(ledger[1..], symbol)
      case None => None
      case Some(i) => Some(i + 1)
  }

  /** Every symbol has at most one row: the table's key. */
  predicate Keyed(ledger: seq<Portfolio>)
  {
    forall i, j :: 0 <= i < j < |ledger| ==> ledger[i].symbol != ledger[j].symbol
  }

  /** Where a row for `symbol` is written: over its existing row, else at the end. */
  function Slot(ledger: seq<Portfolio>, symbol: string): nat
  {
    match FindSymbol(ledger, symbol)
    case Some(j) => j
    case None => |ledger|
  }

  /**
   * `UpsertPortfolio` (INSERT OR REPLACE keyed on the symbol): the row takes
   * the place of the symbol's row, or is added when the symbol has none.
   */
  function Upsert(ledger: seq<Portfolio>, row: Portfolio): (r: seq<Portfolio>)
    ensures Slot(ledger, row.symbol) < |r| && r[Slot(ledger, row.symbol)] == row
    ensures FindSymbol(r, row.symbol) == Some(Slot(ledger, row.symbol))
    ensures |r| == if FindSymbol(ledger, row.symbol).Some? then |ledger| else |ledger| + 1
    ensures forall k :: 0 <= k < |ledger| && k != Slot(ledger, row.symbol) ==> r[k] == ledger[k]
    ensures forall p :: p in r ==> p == row || p in ledger
    ensures Keyed(ledger) ==> Keyed(r)
  {
    match FindSymbol(ledger, row.symbol)
    case Some(j) => ledger[j := row]
    case None => ledger + [row]
  }

  /** A row the portfolio read returns: one with a non-zero quantity. */
  predicate Open(p: Portfolio, symbol: string)
    reads p
  {
    p.symbol == symbol && p.quantity != 0.0
  }

  /** The index of the first open row for `symbol`, where the source's searches stop. */
  function FindOpen(ledger: seq<Portfolio>, symbol: string): (r: Option<nat>)
    reads ledger
    ensures r.Some? ==> r.value < |ledger| && Open(ledger[r.value], symbol)
    ensures r.Some? ==> forall j :: 0 <= j < r.value ==> !Open(ledger[j], symbol)
    ensures r.None? ==> forall j :: 0 <= j < |ledger| ==> !Open(ledger[j], symbol)
  {
    if |ledger| == 0 then None
    else if Open(ledger[0], symbol) then Some(0)
    else
      match FindOpen(ledger[1..], symbol)
      case None => None
      case Some(i) => Some(i + 1)
  }

  /**
   * The held quantity the decision sees: that of the first open row for the
   * symbol. A closed row is never read, so it reads as no position at all.
   */
  function HeldQuantity(ledger: seq<Portfolio>, symbol: string): (r: Option<real>)
    reads ledger
    ensures r.None? <==> forall j :: 0 <= j < |ledger| ==> !Open(ledger[j], symbol)
    ensures r.Some? ==> r.value != 0.0
  {
    match FindOpen(ledger, symbol)
    case None => None
    case Some(i) => Some(ledger[i].quantity)
  }

  /**
   * `makeTradeDecision`: counts the votes, finds the symbol's row, and
   * creates a pending market order for "multi_strategy" exactly when
   * `Decide` gives one.
   */
  method MakeTradeDecision(signals: seq<TradingSignal>, symbol: string, currentPrice: real, user: User,
                           ledger: seq<Portfolio>, cfg: Config) returns (trade: Trade?)
    requires BuyVote(Count(signals)) && NoPosition(HeldQuantity(ledger, symbol)) ==> currentPrice != 0.0
    ensures var d := Decide(signals, HeldQuantity(ledger, symbol), user.balance, currentPrice, cfg);
            (trade == null <==> d.None?) &&
            (trade != null ==>
               fresh(trade) && Places(trade, symbol, d.value) &&
               trade.status == Pending && trade.fillPrice == 0.0 && trade.commission == 0.0)
  {
    var buys, sells, totalStrength := CountVotes(signals);
    var position := FindRow(ledger, symbol);
    ghost var held := HeldQuantity(ledger, symbol);
    assert NoPosition(held) <==> position == null || position.quantity == 0.0;
    assert held.Some? && held.value > 0.0 <==> position != null && position.quantity > 0.0;

    trade := null;
    if buys > sells && buys >= 2 {
      if position == null || position.quantity == 0.0 {
        var quantity := BuyQuantity(user.balance, totalStrength, currentPrice, cfg);
        assert BuyFits(user.balance, totalStrength, currentPrice, cfg) <==> quantity > 0.0 && user.CanAfford(quantity * currentPrice);
        if quantity > 0.0 && user.CanAfford(quantity * currentPrice) {
          trade := new Trade(symbol, Buy, Market, quantity, currentPrice, "multi_strategy");
        }
      }
    } else if sells > buys && sells >= 2 {
      if position != null && position.quantity > 0.0 {
        trade := new Trade(symbol, Sell, Market, position.quantity, currentPrice, "multi_strategy");
      }
    }
  }

  /** The trade is the market order `o` for `symbol`, under the engine's strategy name. */
  predicate Places(trade: Trade, symbol: string, o: Order)
  {
    trade.symbol == symbol && trade.side == o.side && trade.quantity == o.quantity &&
    trade.price == o.price && trade.tradeType == Market && trade.strategy == "multi_strategy"
  }

  /** The counting loop of `makeTradeDecision`. */
  method CountVotes(signals: seq<TradingSignal>) returns (buys: nat, sells: nat, totalStrength: real)
    ensures Tally(buys, sells, totalStrength) == Count(signals)
  {
    buys, sells, totalStrength := 0, 0, 0.0;
    for i := 0 to |signals|
      invariant Tally(buys, sells, totalStrength) == Count(signals[..i])
    {
      assert signals[..i + 1][..i] == signals[..i];
      if signals[i].side == Buy {
        buys := buys + 1;
      } else if signals[i].side == Sell {
        sells := sells + 1;
      }
      totalStrength := totalStrength + signals[i].strength;
    }
    assert signals[..|signals|] == signals;
  }

  /**
   * The loop both searches of the source share, over the rows the portfolio
   * read returns: the first open row for `symbol`, or none.
   */
  method FindRow(ledger: seq<Portfolio>, symbol: string) returns (position: Portfolio?)
    ensures position == null <==> FindOpen(ledger, symbol).None?
    ensures position != null ==> position == ledger[FindOpen(ledger, symbol).value]
  {
    var k := 0;
    while k < |ledger| && !Open(ledger[k], symbol)
      invariant 0 <= k <= |ledger|
      invariant forall j :: 0 <= j < k ==> !Open(ledger[j], symbol)
    {
      k := k + 1;
    }
    if k == |ledger| {
      position := null;
    } else {
      assert FindOpen(ledger, symbol) == Some(k);
      position := ledger[k];
    }
  }

  /**
   * What posting a signed fill to the table does: the first open row for the
   * symbol takes the fill; when there is none, a fresh row takes it and is
   * written over the symbol's closed row, or added. Every other row keeps
   * its values.
   */
  twostate predicate Posted(symbol: string, quantity: real, price: real, ledger: seq<Portfolio>,
                            new newLedger: seq<Portfolio>)
    reads ledger, newLedger
  {
    match old(FindOpen(ledger, symbol))
    case Some(i) =>
      newLedger == ledger &&
      ledger[i].Snapshot() == Fill(old(ledger[i].Snapshot()), quantity, price) &&
      forall p :: p in ledger && p != ledger[i] ==> p.Snapshot() == old(p.Snapshot())
    case None =>
      var j := Slot(ledger, symbol);
      j < |newLedger| && fresh(newLedger[j]) && newLedger[j].symbol == symbol &&
      newLedger == Upsert(ledger, newLedger[j]) &&
      newLedger[j].Snapshot() == Fill(Flat, quantity, price) &&
      forall p :: p in ledger ==> p.Snapshot() == old(p.Snapshot())
  }

  /**
   * What booking a filled trade does: the balance moves by the trade's total
   * cost (down for a buy, up for a sell), and the signed fill is posted to
   * the symbol's row.
   */
  twostate predicate Booked(new trade: Trade, user: User, ledger: seq<Portfolio>, new newLedger: seq<Portfolio>)
    reads trade, user, ledger, newLedger
  {
    user.balance == old(user.balance) + (if trade.side == Buy then -trade.TotalCost() else trade.TotalCost()) &&
    Posted(trade.symbol, Signed(trade.side, trade.quantity), trade.fillPrice, ledger, newLedger)
  }

  /** Neither the balance nor any row has changed, and no row was added. */
  twostate predicate Untouched(user: User, ledger: seq<Portfolio>, new newLedger: seq<Portfolio>)
    reads user, ledger
  {
    user.balance == old(user.balance) && newLedger == ledger &&
    forall p :: p in ledger ==> p.Snapshot() == old(p.Snapshot())
  }

  /**
   * `updateUserBalanceAndPortfolio`: only a filled trade moves cash or
   * position; any other status returns without a change. The table keeps
   * one row per symbol.
   */
  method UpdateUserBalanceAndPortfolio(trade: Trade, user: User, ledger: seq<Portfolio>)
    returns (newLedger: seq<Portfolio>)
    modifies user, ledger
    ensures trade.status != Filled ==> Untouched(user, ledger, newLedger)
    ensures trade.status == Filled ==> Booked(trade, user, ledger, newLedger)
    ensures Keyed(ledger) ==> Keyed(newLedger)
  {
    newLedger := ledger;
    if trade.status != Filled {
      return;
    }
    var totalCost := trade.TotalCost();
    if trade.side == Buy {
      user.UpdateBalance(-totalCost);
    } else {
      user.UpdateBalance(totalCost);
    }

    var quantity := Signed(trade.side, trade.quantity);
    assert FindOpen(ledger, trade.symbol) == old(FindOpen(ledger, trade.symbol));
    assert forall p :: p in ledger ==> p.Snapshot() == old(p.Snapshot());
    newLedger := PostFill(trade.symbol, quantity, trade.fillPrice, ledger);
  }

  /**
   * The portfolio half of `updateUserBalanceAndPortfolio`: find the symbol's
   * open row, or start a fresh one, apply the fill, and write the row back.
   */
  method PostFill(symbol: string, quantity: real, price: real, ledger: seq<Portfolio>)
    returns (newLedger: seq<Portfolio>)
    modifies ledger
    ensures Posted(symbol, quantity, price, ledger, newLedger)
    ensures Keyed(ledger) ==> Keyed(newLedger)
  {
    var position := FindRow(ledger, symbol);
    if position == null {
      var row := new Portfolio(symbol);
      row.UpdatePosition(quantity, price);
      newLedger := Upsert(ledger, row);
    } else {
      position.UpdatePosition(quantity, price);
      newLedger := ledger;
    }
  }

  /**
   * A row marked to the price of its symbol, when the row is open (the
   * portfolio read returns it) and the price map has the symbol.
   */
  function Revalue(pos: Position, symbol: string, prices: map<string, real>): Position
  {
    if pos.quantity != 0.0 && symbol in prices then Mark(pos, prices[symbol]) else pos
  }

  /** Marking the ledger twice at the same prices is the same as marking it once. */
  lemma RevalueIdempotent(pos: Position, symbol: string, prices: map<string, real>)
    ensures Revalue(Revalue(pos, symbol, prices), symbol, prices) == Revalue(pos, symbol, prices)
  {
    if pos.quantity != 0.0 && symbol in prices {
      MarkIdempotent(pos, prices[symbol]);
    }
  }

  /**
   * `updatePortfolioValues` over the rows the portfolio read returns: every
   * open row whose symbol has a price is marked to it; closed rows and rows
   * without a price keep their values. A row listed twice ends as if marked
   * once, because marking is idempotent.
   */
  method UpdatePortfolioValues(ledger: seq<Portfolio>, prices: map<string, real>)
    modifies ledger
    ensures forall p :: p in ledger ==> p.Snapshot() == Revalue(old(p.Snapshot()), p.symbol, prices)
  {
    for i := 0 to |ledger|
      invariant forall p :: p in ledger[..i] ==> p.Snapshot() == Revalue(old(p.Snapshot()), p.symbol, prices)
      invariant forall p :: p in ledger && p !in ledger[..i] ==> p.Snapshot() == old(p.Snapshot())
    {
      var position := ledger[i];
      assert ledger[..i + 1] == ledger[..i] + [position];
      if position.quantity != 0.0 && position.symbol in prices {
        RevalueIdempotent(old(position.Snapshot()), position.symbol, prices);
        position.CalculateUnrealizedPL(prices[position.symbol]);
      }
    }
    assert ledger[..|ledger|] == ledger;
  }

  // ---------------------------------------------------------------- One symbol

  /** The broker's answer to an order: filled at a price with a commission, or refused. */
  datatype Execution = Fills(fillPrice: real, commission: real) | Fails

  /** Every strategy has parameters its analysis accepts and closes it can divide by. */
  predicate Ready(strategies: seq<Strategy>, closes: seq<real>)
  {
    forall j :: 0 <= j < |strategies| ==> strategies[j].Valid() && strategies[j].Safe(closes)
  }

  /** The signals of the strategies that have one, in strategy order. */
  function CollectSignals(strategies: seq<Strategy>, closes: seq<real>, currentPrice: real, sqrt: real -> real)
    : (r: seq<TradingSignal>)
    requires Ready(strategies, closes)
    ensures |r| <= |strategies|
    ensures forall j :: 0 <= j < |r| ==> r[j].price == currentPrice && r[j].strength <= 1.0
  {
    if |strategies| == 0 then []
    else
      var init := CollectSignals(strategies[..|strategies| - 1], closes, currentPrice, sqrt);
      match strategies[|strategies| - 1].Analyze(closes, currentPrice, sqrt)
      case None => init
      case Some(signal) => init + [signal]
  }

  /** The vote's total strength is at most the number of signals. */
  lemma {:induction false} StrengthBounded(strategies: seq<Strategy>, closes: seq<real>, currentPrice: real, sqrt: real -> real)
    requires Ready(strategies, closes)
    ensures Count(CollectSignals(strategies, closes, currentPrice, sqrt)).totalStrength <=
              |CollectSignals(strategies, closes, currentPrice, sqrt)| as real
  {
    if |strategies| > 0 {
      var prefix := strategies[..|strategies| - 1];
      StrengthBounded(prefix, closes, currentPrice, sqrt);
      var init := CollectSignals(prefix, closes, currentPrice, sqrt);
      var signal := strategies[|strategies| - 1].Analyze(closes, currentPrice, sqrt);
      if signal.Some? {
        assert (init + [signal.value])[..|init|] == init;
      }
    }
  }

  /** The loop of `processSymbol` that asks every strategy in turn. */
  method GatherSignals(strategies: seq<Strategy>, closes: seq<real>, currentPrice: real, sqrt: real -> real)
    returns (signals: seq<TradingSignal>)
    requires Ready(strategies, closes)
    ensures signals == CollectSignals(strategies, closes, currentPrice, sqrt)
  {
    signals := [];
    for i := 0 to |strategies|
      invariant Ready(strategies[..i], closes)
      invariant signals == CollectSignals(strategies[..i], closes, currentPrice, sqrt)
    {
      assert strategies[..i + 1][..i] == strategies[..i];
      var signal := strategies[i].Analyze(closes, currentPrice, sqrt);
      if signal.Some? {
        signals := signals + [signal.value];
      }
    }
    assert strategies[..|strategies|] == strategies;
  }

  /**
   * What executing a trade leaves behind: a refused order is rejected and
   * nothing else moves; a filled one carries the broker's price and
   * commission and is booked.
   */
  twostate predicate Outcome(new trade: Trade, user: User, ledger: seq<Portfolio>, new newLedger: seq<Portfolio>,
                             execution: Execution)
    reads trade, user, ledger, newLedger
  {
    match execution
    case Fails => trade.status == Rejected && Untouched(user, ledger, newLedger)
    case Fills(fillPrice, commission) =>
      trade.status == Filled && trade.fillPrice == fillPrice && trade.commission == commission &&
      Booked(trade, user, ledger, newLedger)
  }

  /**
   * `executeTrade` without the persistence: a refused order is marked
   * rejected and changes nothing else; a filled one is marked filled and
   * booked.
   */
  method ExecuteTrade(trade: Trade, user: User, ledger: seq<Portfolio>, execution: Execution)
    returns (newLedger: seq<Portfolio>)
    modifies trade, user, ledger
    ensures Outcome(trade, user, ledger, newLedger, execution)
    ensures execution.Fails? ==> trade.fillPrice == old(trade.fillPrice) && trade.commission == old(trade.commission)
  {
    match execution
    case Fails =>
      trade.status := Rejected;
      newLedger := ledger;
    case Fills(fillPrice, commission) =>
      trade.MarkFilled(fillPrice, commission);
      newLedger := UpdateUserBalanceAndPortfolio(trade, user, ledger);
  }

  /**
   * What trading on a list of signals leaves behind: no trade and no change
   * when there is no signal or `Decide` (on the held quantity and balance
   * before the step) gives no order; otherwise a new trade that places the
   * decided order and has been executed. A refused order keeps the zero fill
   * price and commission it was created with.
   */
  twostate predicate Traded(signals: seq<TradingSignal>, symbol: string, currentPrice: real, user: User,
                            ledger: seq<Portfolio>, cfg: Config, execution: Execution,
                            new trade: Trade?, new newLedger: seq<Portfolio>)
    reads trade, user, ledger, newLedger
  {
    var held := old(HeldQuantity(ledger, symbol));
    (BuyVote(Count(signals)) && NoPosition(held) ==> currentPrice != 0.0) &&
    var d := Decide(signals, held, old(user.balance), currentPrice, cfg);
    (trade == null <==> |signals| == 0 || d.None?) &&
    (trade == null ==> Untouched(user, ledger, newLedger)) &&
    (trade != null ==> fresh(trade) && Places(trade, symbol, d.value) &&
                       Outcome(trade, user, ledger, newLedger, execution)) &&
    (trade != null && execution.Fails? ==> trade.fillPrice == 0.0 && trade.commission == 0.0)
  }

  /**
   * The tail of `processSymbol`: with at least one signal, decide, and
   * execute the order when there is one.
   */
  method TradeOnSignals(signals: seq<TradingSignal>, symbol: string, currentPrice: real, user: User,
                        ledger: seq<Portfolio>, cfg: Config, execution: Execution)
    returns (trade: Trade?, newLedger: seq<Portfolio>)
    requires BuyVote(Count(signals)) && NoPosition(HeldQuantity(ledger, symbol)) ==> currentPrice != 0.0
    modifies user, ledger
    ensures Traded(signals, symbol, currentPrice, user, ledger, cfg, execution, trade, newLedger)
  {
    trade := null;
    newLedger := ledger;
    if |signals| > 0 {
      trade := MakeTradeDecision(signals, symbol, currentPrice, user, ledger, cfg);
      if trade != null {
        newLedger := ExecuteTrade(trade, user, ledger, execution);
      }
    }
  }

  /**
   * `processSymbol`: fewer than 50 bars do nothing; otherwise every strategy
   * is asked for a signal, and when there is at least one the decision may
   * place an order, which is then executed and booked.
   */
  method ProcessSymbol(symbol: string, closes: seq<real>, currentPrice: real, strategies: seq<Strategy>,
                       sqrt: real -> real, user: User, ledger: seq<Portfolio>, cfg: Config, execution: Execution)
    returns (trade: Trade?, newLedger: seq<Portfolio>)
    requires Ready(strategies, closes)
    requires var signals := CollectSignals(strategies, closes, currentPrice, sqrt);
             BuyVote(Count(signals)) && NoPosition(HeldQuantity(ledger, symbol)) ==> currentPrice != 0.0
    modifies user, ledger
    ensures |closes| < 50 ==> trade == null && Untouched(user, ledger, newLedger)
    ensures |closes| >= 50 ==>
              Traded(CollectSignals(strategies, closes, currentPrice, sqrt), symbol, currentPrice, user, ledger, cfg,
                     execution, trade, newLedger)
  {
    if |closes| < 50 {
      trade, newLedger := null, ledger;
      return;
    }
    var signals := GatherSignals(strategies, closes, currentPrice, sqrt);
    trade, newLedger := TradeOnSignals(signals, symbol, currentPrice, user, ledger, cfg, execution);
  }
}
