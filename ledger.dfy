/** The per-symbol intraday ledger (src/tbot/engine/state.py): a signed tactical
    inventory on top of a fixed core position, pending buys and sells that are matched
    into round trips in either order, and the realised profit of those round trips. */
module Ledger {
  import opened Wrappers
  import opened Num
  import opened Clock
  import opened Reasons

  datatype Direction = Buy | Sell

  datatype TradeRecord = TradeRecord(
    symbol: string, direction: Direction, shares: int, price: real, timestamp: Instant,
    reason: SignalReason)
  {
    /** Traded amount, shares times price. */
    function Value(): real { shares as real * price }
  }

  /** The numeric part of the ledger: inventory, round trips, realised profit and the
      not-yet-matched buy and sell quantities with their total cost and proceeds. */
  datatype Book = Book(
    inventory: int, roundTrips: int, dailyPnl: real,
    buyShares: int, sellShares: int, buyCost: real, sellProceeds: real)

  const EmptyBook := Book(0, 0, 0.0, 0, 0, 0.0, 0.0)

  /** Average price of a pending side; zero when the side holds no shares. */
  function AvgPrice(total: real, shares: int): real {
    if shares > 0 then total / shares as real else 0.0
  }

  /** What a matched ledger looks like: neither side negative, at most one side
      non-zero, and the inventory equal to the unmatched difference. */
  predicate Balanced(b: Book) {
    b.buyShares >= 0 && b.sellShares >= 0 && (b.buyShares == 0 || b.sellShares == 0)
    && b.inventory == b.buyShares - b.sellShares
  }

  /** `cost * (1 - m / (m + rem))` is the old average price times the `rem` shares left. */
  lemma ProportionalRemainder(cost: real, m: int, rem: int)
    requires m > 0 && rem > 0
    ensures cost * (1.0 - m as real / (m + rem) as real) == cost / (m + rem) as real * rem as real
  {
    var n := (m + rem) as real;
    assert m as real / n + rem as real / n == n / n == 1.0;
    assert cost * (rem as real / n) == cost / n * rem as real;
  }

  /** `_check_round_trip_completion`: match the smaller pending side against the other. */
  function Settle(b: Book): (r: Book)
    ensures r.inventory == b.inventory
    ensures r.buyShares - r.sellShares == b.buyShares - b.sellShares
    ensures MinInt(b.buyShares, b.sellShares) <= 0 ==> r == b
    ensures MinInt(b.buyShares, b.sellShares) > 0 ==>
      && r.roundTrips == b.roundTrips + 1
      && (r.buyShares == 0 || r.sellShares == 0)
      && r.buyShares >= 0 && r.sellShares >= 0
      && r.dailyPnl == b.dailyPnl + MinInt(b.buyShares, b.sellShares) as real
           * (AvgPrice(b.sellProceeds, b.sellShares) - AvgPrice(b.buyCost, b.buyShares))
      && r.buyCost == AvgPrice(b.buyCost, b.buyShares) * r.buyShares as real
      && r.sellProceeds == AvgPrice(b.sellProceeds, b.sellShares) * r.sellShares as real
  {
    var matched := MinInt(b.buyShares, b.sellShares);
    if matched <= 0 then b
    else
      var avgBuy := if b.buyShares > 0 then b.buyCost / b.buyShares as real else 0.0;
      var avgSell := if b.sellShares > 0 then b.sellProceeds / b.sellShares as real else 0.0;
      var buyLeft := b.buyShares - matched;
      var sellLeft := b.sellShares - matched;
      var buyCost :=
        if buyLeft == 0 then 0.0
        else
          (ProportionalRemainder(b.buyCost, matched, buyLeft);
           b.buyCost * (1.0 - matched as real / (matched + buyLeft) as real));
      var sellProceeds :=
        if sellLeft == 0 then 0.0
        else
          (ProportionalRemainder(b.sellProceeds, matched, sellLeft);
           b.sellProceeds * (1.0 - matched as real / (matched + sellLeft) as real));
      b.(dailyPnl := b.dailyPnl + matched as real * (avgSell - avgBuy),
         buyShares := buyLeft, sellShares := sellLeft,
         buyCost := buyCost, sellProceeds := sellProceeds,
         roundTrips := b.roundTrips + 1)
  }

  /** `record_buy` on the numbers: raise the inventory and the pending buys, then match. */
  function ApplyBuy(b: Book, shares: int, price: real): (r: Book)
    ensures r.inventory == b.inventory + shares
    ensures Balanced(b) && shares >= 0 ==> Balanced(r)
  {
    Settle(b.(inventory := b.inventory + shares, buyShares := b.buyShares + shares,
              buyCost := b.buyCost + shares as real * price))
  }

  /** `record_sell` on the numbers: lower the inventory, raise the pending sells, then match. */
  function ApplySell(b: Book, shares: int, price: real): (r: Book)
    ensures r.inventory == b.inventory - shares
    ensures Balanced(b) && shares >= 0 ==> Balanced(r)
  {
    Settle(b.(inventory := b.inventory - shares, sellShares := b.sellShares + shares,
              sellProceeds := b.sellProceeds + shares as real * price))
  }

  /** In a matched ledger the pending side is exactly the open inventory. */
  lemma PendingIsInventory(b: Book)
    requires Balanced(b)
    ensures b.buyShares == (if b.inventory > 0 then b.inventory else 0)
    ensures b.sellShares == (if b.inventory < 0 then -b.inventory else 0)
  {
  }

  /** A buy completes a round trip exactly when sells were pending; a sell, exactly when buys were. */
  lemma {:induction false} RoundTripCounting(b: Book, shares: int, price: real)
    requires Balanced(b) && shares > 0
    ensures ApplyBuy(b, shares, price).roundTrips == b.roundTrips + (if b.sellShares > 0 then 1 else 0)
    ensures ApplySell(b, shares, price).roundTrips == b.roundTrips + (if b.buyShares > 0 then 1 else 0)
  {
    var bb := b.(inventory := b.inventory + shares, buyShares := b.buyShares + shares,
                 buyCost := b.buyCost + shares as real * price);
    assert MinInt(bb.buyShares, bb.sellShares) > 0 <==> b.sellShares > 0;
    var bs := b.(inventory := b.inventory - shares, sellShares := b.sellShares + shares,
                 sellProceeds := b.sellProceeds + shares as real * price);
    assert MinInt(bs.buyShares, bs.sellShares) > 0 <==> b.buyShares > 0;
  }

  lemma OpenLong()
    ensures ApplyBuy(EmptyBook, 25, 100.0) == Book(25, 0, 0.0, 25, 0, 2500.0, 0.0)
  {
  }

  lemma CloseLong()
    ensures ApplySell(Book(25, 0, 0.0, 25, 0, 2500.0, 0.0), 25, 102.0) == Book(0, 1, 50.0, 0, 0, 0.0, 0.0)
  {
    assert Settle(Book(0, 0, 0.0, 25, 25, 2500.0, 2550.0)) == Book(0, 1, 50.0, 0, 0, 0.0, 0.0);
  }

  lemma OpenShort()
    ensures ApplySell(Book(0, 1, 50.0, 0, 0, 0.0, 0.0), 25, 103.0) == Book(-25, 1, 50.0, 0, 25, 0.0, 2575.0)
  {
  }

  lemma CloseShort()
    ensures ApplyBuy(Book(-25, 1, 50.0, 0, 25, 0.0, 2575.0), 25, 101.0) == Book(0, 2, 100.0, 0, 0, 0.0, 0.0)
  {
    assert Settle(Book(0, 1, 50.0, 25, 25, 2525.0, 2575.0)) == Book(0, 2, 100.0, 0, 0, 0.0, 0.0);
  }

  /** Buy 25 at 100 then sell 25 at 102: one round trip, profit 50, flat inventory, nothing pending. */
  lemma BuyThenSellScenario()
    ensures ApplySell(ApplyBuy(EmptyBook, 25, 100.0), 25, 102.0) == Book(0, 1, 50.0, 0, 0, 0.0, 0.0)
  {
    OpenLong();
    CloseLong();
  }

  /** A second round trip opened by the sell: sell 25 at 103, then buy 25 at 101; profit 100 in total. */
  lemma SellThenBuyScenario()
    ensures ApplyBuy(ApplySell(ApplySell(ApplyBuy(EmptyBook, 25, 100.0), 25, 102.0), 25, 103.0), 25, 101.0)
         == Book(0, 2, 100.0, 0, 0, 0.0, 0.0)
  {
    BuyThenSellScenario();
    OpenShort();
    CloseShort();
  }

  /** The sizing view of a ledger: inventory, its cap and the step size. */
  datatype Position = Position(inventory: int, maxShares: int, stepShares: int)
  {
    /** Shares that may be bought now: cover an open short first, otherwise grow up to the cap. */
    function AvailableBuy(): (r: int)
      ensures r <= stepShares
      ensures inventory < 0 ==> r <= -inventory
      ensures inventory >= 0 ==> inventory + r <= maxShares
      ensures r == stepShares || (inventory < 0 && r == -inventory) || (inventory >= 0 && r == maxShares - inventory)
    {
      if inventory < 0 then MinInt(stepShares, -inventory)
      else MinInt(stepShares, maxShares - inventory)
    }

    /** Shares that may be sold now: unwind an open long first, otherwise shrink down to minus the cap. */
    function AvailableSell(): (r: int)
      ensures r <= stepShares
      ensures inventory > 0 ==> r <= inventory
      ensures inventory <= 0 ==> inventory - r >= -maxShares
      ensures r == stepShares || (inventory > 0 && r == inventory) || (inventory <= 0 && r == maxShares + inventory)
    {
      if inventory > 0 then MinInt(stepShares, inventory)
      else MinInt(stepShares, maxShares + inventory)
    }

    predicate CanBuy() { AvailableBuy() > 0 }

    predicate CanSell() { AvailableSell() > 0 }
  }

  /** Buying is possible exactly when a step is configured and the inventory is short or below the cap. */
  lemma CanTradeIffRoom(p: Position)
    ensures p.CanBuy() <==> p.stepShares > 0 && (p.inventory < 0 || p.inventory < p.maxShares)
    ensures p.CanSell() <==> p.stepShares > 0 && (p.inventory > 0 || -p.inventory < p.maxShares)
  {
  }

  /** Trading no more than what is available keeps the inventory within plus or minus the cap. */
  lemma InventoryStaysCapped(p: Position, shares: int)
    requires -p.maxShares <= p.inventory <= p.maxShares && shares >= 0
    ensures shares <= p.AvailableBuy() ==> -p.maxShares <= p.inventory + shares <= p.maxShares
    ensures shares <= p.AvailableSell() ==> -p.maxShares <= p.inventory - shares <= p.maxShares
  {
  }

  /** The sizes checked for a 50-share cap and 25-share step at inventory 0, 25 and 50. */
  lemma AvailableSharesScenario()
    ensures Position(0, 50, 25).AvailableBuy() == 25 && Position(0, 50, 25).AvailableSell() == 25
    ensures Position(25, 50, 25).AvailableBuy() == 25 && Position(25, 50, 25).AvailableSell() == 25
    ensures Position(50, 50, 25).AvailableBuy() == 0 && Position(50, 50, 25).AvailableSell() == 25
  {
  }

  datatype PositionSnapshot = PositionSnapshot(
    symbol: string, coreShares: int, tInventory: int, avgCost: real, currentPrice: real)
  {
    /** Core plus tactical shares. */
    function TotalShares(): int { coreShares + tInventory }

    /** Mark-to-market profit; zero when no average cost is known. */
    function UnrealizedPnl(): (r: real)
      ensures avgCost <= 0.0 ==> r == 0.0
      ensures avgCost > 0.0 && currentPrice == avgCost ==> r == 0.0
      ensures avgCost > 0.0 && TotalShares() >= 0 && currentPrice >= avgCost ==> r >= 0.0
    {
      if avgCost <= 0.0 then 0.0 else (currentPrice - avgCost) * TotalShares() as real
    }
  }

  /** `TradingState`: one symbol's ledger, updated in place by each recorded trade. */
  class TradingState {
    const symbol: string
    const coreShares: int
    const tMaxShares: int
    const tStepShares: int

    var tInventory: int
    var roundTripsDone: int
    var dailyPnl: real
    var lastTradeTime: Option<Instant>
    var pendingBuyShares: int
    var pendingSellShares: int
    var pendingBuyCost: real
    var pendingSellProceeds: real
    var trades: seq<TradeRecord>

    /** The numeric state as a value. */
    function Numbers(): Book
      reads this
    {
      Book(tInventory, roundTripsDone, dailyPnl,
                  pendingBuyShares, pendingSellShares, pendingBuyCost, pendingSellProceeds)
    }

    function Sizing(): Position
      reads this
    {
      Position(tInventory, tMaxShares, tStepShares)
    }

    /** The inventory is always the difference of the unmatched quantities. */
    predicate Valid()
      reads this
    {
      tInventory == pendingBuyShares - pendingSellShares
    }

    constructor (symbol: string, coreShares: int, tMaxShares: int, tStepShares: int)
      ensures Valid()
      ensures this.symbol == symbol && this.coreShares == coreShares
      ensures this.tMaxShares == tMaxShares && this.tStepShares == tStepShares
      ensures Numbers() == EmptyBook && lastTradeTime == None && trades == []
    {
      this.symbol := symbol;
      this.coreShares := coreShares;
      this.tMaxShares := tMaxShares;
      this.tStepShares := tStepShares;
      tInventory := 0;
      roundTripsDone := 0;
      dailyPnl := 0.0;
      lastTradeTime := None;
      pendingBuyShares := 0;
      pendingSellShares := 0;
      pendingBuyCost := 0.0;
      pendingSellProceeds := 0.0;
      trades := [];
    }

    /** Start a new day: everything but the configured sizes goes back to zero. */
    method ResetDaily()
      modifies this
      ensures Valid()
      ensures Numbers() == EmptyBook && lastTradeTime == None && trades == []
    {
      tInventory := 0;
      roundTripsDone := 0;
      dailyPnl := 0.0;
      lastTradeTime := None;
      pendingBuyShares := 0;
      pendingSellShares := 0;
      pendingBuyCost := 0.0;
      pendingSellProceeds := 0.0;
      trades := [];
    }

    /** Record a buy stamped `now`, then match it against pending sells. */
    method RecordBuy(shares: int, price: real, reason: SignalReason, now: Instant) returns (record: TradeRecord)
      requires Valid()
      modifies this
      ensures Valid()
      ensures record == TradeRecord(symbol, Direction.Buy, shares, price, now, reason)
      ensures trades == old(trades) + [record]
      ensures lastTradeTime == Some(now)
      ensures Numbers() == ApplyBuy(old(Numbers()), shares, price)
      ensures tInventory == old(tInventory) + shares
    {
      record := TradeRecord(symbol, Direction.Buy, shares, price, now, reason);
      trades := trades + [record];
      tInventory := tInventory + shares;
      lastTradeTime := Some(now);
      pendingBuyShares := pendingBuyShares + shares;
      pendingBuyCost := pendingBuyCost + shares as real * price;
      CheckRoundTripCompletion();
    }

    /** Record a sell stamped `now`, then match it against pending buys. */
    method RecordSell(shares: int, price: real, reason: SignalReason, now: Instant) returns (record: TradeRecord)
      requires Valid()
      modifies this
      ensures Valid()
      ensures record == TradeRecord(symbol, Direction.Sell, shares, price, now, reason)
      ensures trades == old(trades) + [record]
      ensures lastTradeTime == Some(now)
      ensures Numbers() == ApplySell(old(Numbers()), shares, price)
      ensures tInventory == old(tInventory) - shares
    {
      record := TradeRecord(symbol, Direction.Sell, shares, price, now, reason);
      trades := trades + [record];
      tInventory := tInventory - shares;
      lastTradeTime := Some(now);
      pendingSellShares := pendingSellShares + shares;
      pendingSellProceeds := pendingSellProceeds + shares as real * price;
      CheckRoundTripCompletion();
    }

    /** Match pending buys against pending sells in place. */
    method CheckRoundTripCompletion()
      modifies this
      ensures Numbers() == Settle(old(Numbers()))
      ensures trades == old(trades) && lastTradeTime == old(lastTradeTime)
    {
      var matched := MinInt(pendingBuyShares, pendingSellShares);
      if matched > 0 {
        var avgBuy := if pendingBuyShares > 0 then pendingBuyCost / pendingBuyShares as real else 0.0;
        var avgSell := if pendingSellShares > 0 then pendingSellProceeds / pendingSellShares as real else 0.0;
        dailyPnl := dailyPnl + matched as real * (avgSell - avgBuy);
        pendingBuyShares := pendingBuyShares - matched;
        pendingSellShares := pendingSellShares - matched;
        if pendingBuyShares == 0 {
          pendingBuyCost := 0.0;
        } else {
          pendingBuyCost := pendingBuyCost * (1.0 - matched as real / (matched + pendingBuyShares) as real);
        }
        if pendingSellShares == 0 {
          pendingSellProceeds := 0.0;
        } else {
          pendingSellProceeds := pendingSellProceeds * (1.0 - matched as real / (matched + pendingSellShares) as real);
        }
        roundTripsDone := roundTripsDone + 1;
      }
    }

    /** A snapshot built from the ledger carries no average cost. */
    function Snapshot(currentPrice: real): (s: PositionSnapshot)
      reads this
      ensures s.TotalShares() == coreShares + tInventory
      ensures s.UnrealizedPnl() == 0.0
    {
      PositionSnapshot(symbol, coreShares, tInventory, 0.0, currentPrice)
    }
  }
}
