/**
 * The entities of the gold-trading bot: the three trading signals, a price bar,
 * the single open position and one entry of the trade ledger.
 */
module Models {
  import opened Wrappers

  /** The three decisions a strategy can take on a bar. */
  datatype TradeSignal = Buy | Sell | Hold

  /**
   * A price bar, reduced to what the core reads: an opaque timestamp and the
   * closing price (open, high and low are never consulted).
   */
  datatype Candle = Candle(timestamp: int, close: real)

  /**
   * The current exposure. `size` is signed (positive long, negative short,
   * zero flat); the three prices are absent while flat.
   */
  datatype Position = Position(
    size: real,
    entryPrice: Option<real>,
    takeProfit: Option<real>,
    stopLoss: Option<real>)
  {
    /** Open exactly when there is a non-zero size and an entry price. */
    predicate IsOpen() {
      size != 0.0 && entryPrice.Some?
    }
  }

  /** The position a freshly built broker holds, and the one closing leaves behind. */
  function FlatPosition(): (p: Position)
    ensures !p.IsOpen()
  {
    Position(0.0, None, None, None)
  }

  /**
   * One ledger entry. `closedAt`, `exitPrice` and `pnl` stay absent until the
   * trade is finalised; `notes` then holds the reason it was closed.
   */
  datatype Trade = Trade(
    openedAt: int,
    closedAt: Option<int>,
    side: Option<TradeSignal>,
    entryPrice: real,
    exitPrice: Option<real>,
    size: real,
    pnl: Option<real>,
    notes: string)
  {
    /** A trade is open while it has no closing time. */
    predicate IsOpen() {
      closedAt.None?
    }
  }

  /** A trade as the broker records it on opening: every closing field at its default. */
  function NewTrade(openedAt: int, side: TradeSignal, entryPrice: real, size: real): (t: Trade)
    ensures t.IsOpen() && t.exitPrice == None && t.pnl == None && t.notes == ""
  {
    Trade(openedAt, None, Some(side), entryPrice, None, size, None, "")
  }

  /** The most recently appended ledger entry (Python's `trade_log[-1]`). */
  function Last(trades: seq<Trade>): Trade
    requires |trades| > 0
  {
    trades[|trades| - 1]
  }
}
