/**
 * The paper-trading broker: one position at a time, a running balance, and an
 * append-only ledger whose last entry is finalised when the position closes.
 * The pure functions below give the meaning of each broker operation on an
 * `Account` value; the class `PaperBroker` performs them in place and is
 * proved to agree with them.
 */
module Trader {
  import opened Wrappers
  import opened Models

  /** The broker's settings, fixed for its lifetime. */
  datatype BrokerConfig = BrokerConfig(
    takeProfitPct: real,
    stopLossPct: real,
    positionSize: real,
    reverseOnSignal: bool)

  /** Everything the broker changes: the position, the balance and the ledger. */
  datatype Account = Account(position: Position, balance: real, trades: seq<Trade>)

  /** What `summary` reports. The balance is exact (see README). */
  datatype BrokerSummary = BrokerSummary(trades: nat, wins: nat, losses: nat, balance: real)

  const TAKE_PROFIT: string := "Take Profit"
  const STOP_LOSS: string := "Stop Loss"
  const SIGNAL_CHANGE: string := "Cambio de señal"

  /** +1 for BUY, -1 for anything else. */
  function Direction(signal: TradeSignal): real {
    if signal == Buy then 1.0 else -1.0
  }

  /** The signed size a signal opens: positive for BUY, negative for SELL when positionSize > 0. */
  function SignedSize(c: BrokerConfig, signal: TradeSignal): real {
    c.positionSize * Direction(signal)
  }

  /** The profit or loss of closing trade `t` at `exitPrice`. */
  function Pnl(t: Trade, exitPrice: real): real {
    (exitPrice - t.entryPrice) * t.size
  }

  function TakeProfitLevel(c: BrokerConfig, entry: real, direction: real): real {
    entry * (1.0 + c.takeProfitPct / 100.0 * direction)
  }

  function StopLossLevel(c: BrokerConfig, entry: real, direction: real): real {
    entry * (1.0 - c.stopLossPct / 100.0 * direction)
  }

  /** The side an open position is on: BUY when its size is positive, SELL otherwise. */
  function CurrentSide(p: Position): TradeSignal {
    if p.size > 0.0 then Buy else Sell
  }

  /** Python truthiness of an optional level: an absent level and a level of 0.0 are both ignored. */
  predicate IsSet(level: Option<real>) {
    level.Some? && level.value != 0.0
  }

  // ---------------------------------------------------------------------------
  // Ledger bookkeeping
  // ---------------------------------------------------------------------------

  /** The sum of the ledger's PnL, an open trade counting 0 (`t.pnl or 0`). */
  function RealizedPnl(trades: seq<Trade>): real {
    if trades == [] then 0.0
    else RealizedPnl(trades[..|trades| - 1]) + Last(trades).pnl.GetOr(0.0)
  }

  /** The number of trades without a closing time. */
  function OpenCount(trades: seq<Trade>): nat {
    if trades == [] then 0
    else OpenCount(trades[..|trades| - 1]) + (if Last(trades).IsOpen() then 1 else 0)
  }

  /** The ledger positions `summary` counts as wins: a positive PnL, an open trade counting 0. */
  function WinIndices(trades: seq<Trade>): set<int> {
    set i | 0 <= i < |trades| && trades[i].pnl.GetOr(0.0) > 0.0
  }

  /** The ledger positions `summary` counts as losses: a negative PnL. */
  function LossIndices(trades: seq<Trade>): set<int> {
    set i | 0 <= i < |trades| && trades[i].pnl.GetOr(0.0) < 0.0
  }

  /** The number of trades with a positive PnL. */
  function WinCount(trades: seq<Trade>): nat {
    if trades == [] then 0
    else WinCount(trades[..|trades| - 1]) + (if Last(trades).pnl.GetOr(0.0) > 0.0 then 1 else 0)
  }

  /** The number of trades with a negative PnL. */
  function LossCount(trades: seq<Trade>): nat {
    if trades == [] then 0
    else LossCount(trades[..|trades| - 1]) + (if Last(trades).pnl.GetOr(0.0) < 0.0 then 1 else 0)
  }

  /** The number of trades counted neither as a win nor as a loss: open ones and break-even ones. */
  function NeutralCount(trades: seq<Trade>): nat {
    if trades == [] then 0
    else NeutralCount(trades[..|trades| - 1]) + (if Last(trades).pnl.GetOr(0.0) == 0.0 then 1 else 0)
  }

  /** A ledger entry's closing fields appear together, and its PnL is (exit - entry) * size. */
  predicate Consistent(t: Trade) {
    && t.closedAt.Some? == t.exitPrice.Some?
    && t.closedAt.Some? == t.pnl.Some?
    && (t.pnl.Some? ==> t.pnl.value == Pnl(t, t.exitPrice.value))
  }

  /**
   * The open position `p` is the one recorded by the open trade `t`: same
   * entry price and size, and protective levels set from that entry and side.
   */
  predicate Backs(c: BrokerConfig, t: Trade, p: Position) {
    && t.IsOpen()
    && t.side.Some?
    && p.entryPrice == Some(t.entryPrice)
    && p.size == t.size
    && p.size == SignedSize(c, t.side.value)
    && p.takeProfit == Some(TakeProfitLevel(c, t.entryPrice, Direction(t.side.value)))
    && p.stopLoss == Some(StopLossLevel(c, t.entryPrice, Direction(t.side.value)))
  }

  /** Every trade but the last is closed, and the last is open exactly when the position is. */
  predicate LedgerShape(s: Account) {
    && (forall i :: 0 <= i < |s.trades| - 1 ==> !s.trades[i].IsOpen())
    && (s.position.IsOpen() <==> |s.trades| > 0 && Last(s.trades).IsOpen())
  }

  /**
   * The broker's invariant. It holds for every configuration; the ledger
   * shape needs a non-zero position size, since with size 0 an "open" trade
   * is appended while the position stays flat.
   */
  ghost predicate Invariant(c: BrokerConfig, s: Account) {
    && (forall i :: 0 <= i < |s.trades| ==> Consistent(s.trades[i]))
    && s.balance == RealizedPnl(s.trades)
    && (s.position.IsOpen() ==> |s.trades| > 0 && Backs(c, Last(s.trades), s.position))
    && (c.positionSize != 0.0 ==> LedgerShape(s))
  }

  /** Two ledger entries record the same opening (one may be the other, finalised). */
  predicate SameOpening(t: Trade, u: Trade) {
    t.openedAt == u.openedAt && t.side == u.side && t.entryPrice == u.entryPrice && t.size == u.size
  }

  /**
   * `after` grows `before` by at most one entry, keeps every entry but the
   * last unchanged, and keeps the opening of the last.
   */
  predicate Extends(before: seq<Trade>, after: seq<Trade>) {
    && |before| <= |after| <= |before| + 1
    && (forall i :: 0 <= i < |before| - 1 ==> after[i] == before[i])
    && (|before| > 0 ==> SameOpening(after[|before| - 1], before[|before| - 1]))
  }

  // ---------------------------------------------------------------------------
  // The broker's operations, as functions on the account
  // ---------------------------------------------------------------------------

  /**
   * _open_position: append an open trade at the bar's close and hold a
   * position of `positionSize` in the signal's direction, with its take-profit
   * and stop-loss levels. The position is open exactly when the size is non-zero.
   */
  function Opened(c: BrokerConfig, s: Account, signal: TradeSignal, candle: Candle): (s': Account)
    ensures |s'.trades| == |s.trades| + 1 && s'.trades[..|s.trades|] == s.trades
    ensures Last(s'.trades).IsOpen() && Last(s'.trades).entryPrice == candle.close
    ensures Last(s'.trades).size == SignedSize(c, signal)
    ensures Last(s'.trades).openedAt == candle.timestamp && Last(s'.trades).side == Some(signal)
    ensures s'.balance == s.balance
    ensures s'.position == Position(
              SignedSize(c, signal),
              Some(candle.close),
              Some(TakeProfitLevel(c, candle.close, Direction(signal))),
              Some(StopLossLevel(c, candle.close, Direction(signal))))
    ensures s'.position.IsOpen() <==> c.positionSize != 0.0
  {
    var direction := Direction(signal);
    var entryPrice := candle.close;
    var trade := NewTrade(candle.timestamp, signal, entryPrice, SignedSize(c, signal));
    var position := Position(
      SignedSize(c, signal),
      Some(entryPrice),
      Some(TakeProfitLevel(c, entryPrice, direction)),
      Some(StopLossLevel(c, entryPrice, direction)));
    Account(position, s.balance, s.trades + [trade])
  }

  /**
   * _close_position: nothing when flat; otherwise finalise the last trade at
   * the bar's close with the given reason, add its PnL to the balance and go flat.
   */
  function Closed(s: Account, candle: Candle, reason: string): (s': Account)
    requires s.position.IsOpen() ==> |s.trades| > 0
    ensures !s'.position.IsOpen()
    ensures |s'.trades| == |s.trades| && Extends(s.trades, s'.trades)
    ensures !s.position.IsOpen() ==> s' == s
    ensures s.position.IsOpen() ==>
              && s'.position == FlatPosition()
              && Last(s'.trades).closedAt == Some(candle.timestamp)
              && Last(s'.trades).exitPrice == Some(candle.close)
              && Last(s'.trades).pnl == Some(Pnl(Last(s.trades), candle.close))
              && Last(s'.trades).notes == reason
              && s'.balance == s.balance + Pnl(Last(s.trades), candle.close)
  {
    if !s.position.IsOpen() then s
    else
      var trade := Last(s.trades);
      var exitPrice := candle.close;
      var pnl := Pnl(trade, exitPrice);
      var closed := trade.(closedAt := Some(candle.timestamp), exitPrice := Some(exitPrice), pnl := Some(pnl), notes := reason);
      Account(FlatPosition(), s.balance + pnl, s.trades[..|s.trades| - 1] + [closed])
  }

  /**
   * The protective exit a bar's close triggers, if any. For a long position
   * take-profit fires at or above its level, else stop-loss at or below its
   * level; for a short one the comparisons are reversed. Take-profit is tested
   * first and a level of 0 is ignored.
   */
  function ProtectiveExit(p: Position, price: real): (reason: Option<string>)
    ensures reason.Some? ==> p.IsOpen()
    ensures reason == Some(TAKE_PROFIT) <==>
            p.IsOpen() && IsSet(p.takeProfit) && (if p.size > 0.0 then price >= p.takeProfit.value else price <= p.takeProfit.value)
    ensures reason.Some? && reason != Some(TAKE_PROFIT) ==> reason == Some(STOP_LOSS)
    ensures reason == Some(STOP_LOSS) <==>
            && p.IsOpen()
            && !(IsSet(p.takeProfit) && (if p.size > 0.0 then price >= p.takeProfit.value else price <= p.takeProfit.value))
            && IsSet(p.stopLoss) && (if p.size > 0.0 then price <= p.stopLoss.value else price >= p.stopLoss.value)
  {
    if !p.IsOpen() then None
    else if p.size > 0.0 then
      if IsSet(p.takeProfit) && price >= p.takeProfit.value then Some(TAKE_PROFIT)
      else if IsSet(p.stopLoss) && price <= p.stopLoss.value then Some(STOP_LOSS)
      else None
    else
      if IsSet(p.takeProfit) && price <= p.takeProfit.value then Some(TAKE_PROFIT)
      else if IsSet(p.stopLoss) && price >= p.stopLoss.value then Some(STOP_LOSS)
      else None
  }

  /** _check_protective_levels: close with the reason ProtectiveExit gives, if it gives one. */
  function AfterProtectiveCheck(s: Account, candle: Candle): Account
    requires s.position.IsOpen() ==> |s.trades| > 0
  {
    match ProtectiveExit(s.position, candle.close)
    case None => s
    case Some(reason) => Closed(s, candle, reason)
  }

  /**
   * on_signal: the protective check first; then HOLD does nothing, a flat
   * account opens, a signal on the current side is ignored, and an opposite
   * signal closes and, if reversal is enabled, reopens the other way.
   */
  function Step(c: BrokerConfig, s: Account, signal: TradeSignal, candle: Candle): Account
    requires s.position.IsOpen() ==> |s.trades| > 0
  {
    var checked := AfterProtectiveCheck(s, candle);
    if signal == Hold then checked
    else if !checked.position.IsOpen() then Opened(c, checked, signal, candle)
    else if signal == CurrentSide(checked.position) then checked
    else
      var closed := Closed(checked, candle, SIGNAL_CHANGE);
      if c.reverseOnSignal then Opened(c, closed, signal, candle) else closed
  }

  // ---------------------------------------------------------------------------
  // The invariant is kept
  // ---------------------------------------------------------------------------

  lemma RealizedPnlSnoc(trades: seq<Trade>, t: Trade)
    ensures RealizedPnl(trades + [t]) == RealizedPnl(trades) + t.pnl.GetOr(0.0)
  {
    assert (trades + [t])[..|trades|] == trades;
  }

  /** Opening from a flat account keeps the invariant. */
  lemma OpenedKeepsInvariant(c: BrokerConfig, s: Account, signal: TradeSignal, candle: Candle)
    requires Invariant(c, s) && !s.position.IsOpen()
    ensures Invariant(c, Opened(c, s, signal, candle))
  {
    var s' := Opened(c, s, signal, candle);
    RealizedPnlSnoc(s.trades, Last(s'.trades));
    assert s'.trades == s.trades + [Last(s'.trades)];
    forall i | 0 <= i < |s'.trades| ensures Consistent(s'.trades[i]) {
      if i < |s.trades| { assert s'.trades[i] == s.trades[i]; }
    }
    if c.positionSize != 0.0 {
      forall i | 0 <= i < |s'.trades| - 1 ensures !s'.trades[i].IsOpen() {
        assert s'.trades[i] == s.trades[i];
      }
    }
  }

  /** Closing keeps the invariant: the finalised PnL moves into the balance. */
  lemma ClosedKeepsInvariant(c: BrokerConfig, s: Account, candle: Candle, reason: string)
    requires Invariant(c, s)
    ensures Invariant(c, Closed(s, candle, reason))
  {
    if s.position.IsOpen() {
      var s' := Closed(s, candle, reason);
      var n := |s.trades|;
      var init := s.trades[..n - 1];
      assert s.trades == init + [Last(s.trades)];
      assert s'.trades == init + [Last(s'.trades)];
      RealizedPnlSnoc(init, Last(s.trades));
      RealizedPnlSnoc(init, Last(s'.trades));
      forall i | 0 <= i < n ensures Consistent(s'.trades[i]) {
        if i < n - 1 { assert s'.trades[i] == s.trades[i]; }
      }
      if c.positionSize != 0.0 {
        forall i | 0 <= i < n - 1 ensures !s'.trades[i].IsOpen() {
          assert s'.trades[i] == s.trades[i];
        }
      }
    }
  }

  lemma AfterProtectiveCheckKeepsInvariant(c: BrokerConfig, s: Account, candle: Candle)
    requires Invariant(c, s)
    ensures Invariant(c, AfterProtectiveCheck(s, candle))
  {
    match ProtectiveExit(s.position, candle.close)
    case None =>
    case Some(reason) => ClosedKeepsInvariant(c, s, candle, reason);
  }

  /** Every on_signal keeps the invariant. */
  lemma StepKeepsInvariant(c: BrokerConfig, s: Account, signal: TradeSignal, candle: Candle)
    requires Invariant(c, s)
    ensures Invariant(c, Step(c, s, signal, candle))
  {
    var checked := AfterProtectiveCheck(s, candle);
    AfterProtectiveCheckKeepsInvariant(c, s, candle);
    if signal != Hold {
      if !checked.position.IsOpen() {
        OpenedKeepsInvariant(c, checked, signal, candle);
      } else if signal != CurrentSide(checked.position) {
        var closed := Closed(checked, candle, SIGNAL_CHANGE);
        ClosedKeepsInvariant(c, checked, candle, SIGNAL_CHANGE);
        if c.reverseOnSignal {
          OpenedKeepsInvariant(c, closed, signal, candle);
        }
      }
    }
  }

  /**
   * Each on_signal appends at most one trade, never removes or reorders
   * entries, leaves every entry before the previous last untouched, and keeps
   * the opening of the previous last.
   */
  lemma StepExtendsLedger(c: BrokerConfig, s: Account, signal: TradeSignal, candle: Candle)
    requires s.position.IsOpen() ==> |s.trades| > 0
    ensures Extends(s.trades, Step(c, s, signal, candle).trades)
  {
    var checked := AfterProtectiveCheck(s, candle);
    var n := |s.trades|;
    assert Extends(s.trades, checked.trades) && |checked.trades| == n;
    if signal != Hold && (!checked.position.IsOpen() || signal != CurrentSide(checked.position)) {
      var base := if !checked.position.IsOpen() then checked else Closed(checked, candle, SIGNAL_CHANGE);
      assert |base.trades| == n && Extends(s.trades, base.trades);
      var after := Opened(c, base, signal, candle).trades;
      forall i | 0 <= i < n ensures after[i] == base.trades[i] {
        assert after[..n][i] == base.trades[i];
      }
    }
  }

  lemma {:induction false} OpenCountOfShape(trades: seq<Trade>)
    requires forall i :: 0 <= i < |trades| - 1 ==> !trades[i].IsOpen()
    ensures OpenCount(trades) == if |trades| > 0 && Last(trades).IsOpen() then 1 else 0
  {
    if |trades| > 1 {
      var init := trades[..|trades| - 1];
      forall i | 0 <= i < |init| - 1 ensures !init[i].IsOpen() {
        assert init[i] == trades[i];
      }
      assert Last(init) == trades[|trades| - 2];
      OpenCountOfShape(init);
    }
  }

  /**
   * With a non-zero position size the ledger holds at most one open trade,
   * and it holds one exactly when the position is open.
   */
  lemma AtMostOneOpenTrade(c: BrokerConfig, s: Account)
    requires Invariant(c, s) && c.positionSize != 0.0
    ensures OpenCount(s.trades) <= 1
    ensures OpenCount(s.trades) == 1 <==> s.position.IsOpen()
  {
    OpenCountOfShape(s.trades);
  }

  // ---------------------------------------------------------------------------
  // What on_signal does, case by case
  // ---------------------------------------------------------------------------

  /** A HOLD bar only runs the protective check: a long whose stop-loss is reached is closed with "Stop Loss". */
  lemma HoldOnlyChecksLevels(c: BrokerConfig, s: Account, candle: Candle)
    requires Invariant(c, s) && s.position.IsOpen() && s.position.size > 0.0
    requires !(IsSet(s.position.takeProfit) && candle.close >= s.position.takeProfit.value)
    requires IsSet(s.position.stopLoss) && candle.close <= s.position.stopLoss.value
    ensures var s' := Step(c, s, Hold, candle);
            && !s'.position.IsOpen()
            && |s'.trades| == |s.trades|
            && Last(s'.trades).notes == STOP_LOSS
            && Last(s'.trades).exitPrice == Some(candle.close)
  {
  }

  /** A signal on the side already held leaves the account as the protective check left it. */
  lemma SameSideIgnored(c: BrokerConfig, s: Account, signal: TradeSignal, candle: Candle)
    requires Invariant(c, s) && s.position.IsOpen()
    requires ProtectiveExit(s.position, candle.close) == None && signal == CurrentSide(s.position)
    ensures Step(c, s, signal, candle) == s
  {
  }

  /**
   * An opposite signal finalises the open trade at the bar's close with the
   * signal-change reason and books its PnL; with reversal enabled a trade in
   * the signal's direction is then opened at that same close, otherwise the
   * account stays flat.
   */
  lemma OppositeSignalReverses(c: BrokerConfig, s: Account, signal: TradeSignal, candle: Candle)
    requires Invariant(c, s) && c.positionSize != 0.0 && s.position.IsOpen()
    requires ProtectiveExit(s.position, candle.close) == None
    requires signal != Hold && signal != CurrentSide(s.position)
    ensures var s' := Step(c, s, signal, candle);
            var n := |s.trades|;
            && |s'.trades| >= n
            && s'.trades[n - 1].notes == SIGNAL_CHANGE
            && s'.trades[n - 1].exitPrice == Some(candle.close)
            && s'.trades[n - 1].pnl == Some(Pnl(Last(s.trades), candle.close))
            && s'.balance == s.balance + s'.trades[n - 1].pnl.value
            && (c.reverseOnSignal ==>
                  |s'.trades| == n + 1 && s'.position.IsOpen()
                  && s'.position.size == SignedSize(c, signal)
                  && Last(s'.trades).entryPrice == s'.trades[n - 1].exitPrice.value)
            && (!c.reverseOnSignal ==> |s'.trades| == n && !s'.position.IsOpen())
  {
    var n := |s.trades|;
    assert AfterProtectiveCheck(s, candle) == s;
    var closed := Closed(s, candle, SIGNAL_CHANGE);
    assert closed.trades[n - 1] == Last(closed.trades);
    if c.reverseOnSignal {
      var s' := Opened(c, closed, signal, candle);
      assert s'.trades[n - 1] == s'.trades[..n][n - 1];
    }
  }

  /**
   * A protective close does not stop the bar's signal: a BUY or SELL on the
   * same bar opens a new trade at that close right after it.
   */
  lemma ProtectiveCloseThenOpen(c: BrokerConfig, s: Account, signal: TradeSignal, candle: Candle)
    requires Invariant(c, s) && c.positionSize != 0.0
    requires ProtectiveExit(s.position, candle.close).Some? && signal != Hold
    ensures var s' := Step(c, s, signal, candle);
            var n := |s.trades|;
            && |s'.trades| == n + 1
            && s'.trades[n - 1].notes == ProtectiveExit(s.position, candle.close).value
            && s'.position.IsOpen()
            && Last(s'.trades).entryPrice == candle.close
            && Last(s'.trades).size == SignedSize(c, signal)
  {
    var checked := AfterProtectiveCheck(s, candle);
    var s' := Opened(c, checked, signal, candle);
    assert s'.trades[|s.trades| - 1] == s'.trades[..|checked.trades|][|s.trades| - 1];
  }

  // ---------------------------------------------------------------------------
  // Protective levels and the sign of the PnL they realise
  // ---------------------------------------------------------------------------

  /**
   * With non-negative percentages and entry price, a long's stop-loss sits at
   * or below its entry and its take-profit at or above; for a short both are mirrored.
   */
  lemma LevelsBracketEntry(c: BrokerConfig, entry: real, signal: TradeSignal)
    requires c.takeProfitPct >= 0.0 && c.stopLossPct >= 0.0 && entry >= 0.0
    ensures signal == Buy ==>
              StopLossLevel(c, entry, Direction(signal)) <= entry <= TakeProfitLevel(c, entry, Direction(signal))
    ensures signal != Buy ==>
              TakeProfitLevel(c, entry, Direction(signal)) <= entry <= StopLossLevel(c, entry, Direction(signal))
  {
    var tp, sl := c.takeProfitPct / 100.0, c.stopLossPct / 100.0;
    assert entry * tp >= 0.0 && entry * sl >= 0.0;
  }

  lemma ProductSigns(a: real, b: real)
    ensures a >= 0.0 && b >= 0.0 ==> a * b >= 0.0
    ensures a <= 0.0 && b <= 0.0 ==> a * b >= 0.0
    ensures a >= 0.0 && b <= 0.0 ==> a * b <= 0.0
    ensures a <= 0.0 && b >= 0.0 ==> a * b <= 0.0
  {
  }

  /**
   * With a positive position size, non-negative percentages and a
   * non-negative entry price, a take-profit exit never loses money and a
   * stop-loss exit never makes money.
   */
  lemma ProtectiveExitPnlSign(c: BrokerConfig, s: Account, candle: Candle)
    requires Invariant(c, s) && c.positionSize > 0.0
    requires c.takeProfitPct >= 0.0 && c.stopLossPct >= 0.0
    requires s.position.IsOpen() && s.position.entryPrice.value >= 0.0
    requires ProtectiveExit(s.position, candle.close).Some?
    ensures var s' := AfterProtectiveCheck(s, candle);
            var pnl := Last(s'.trades).pnl.value;
            && (ProtectiveExit(s.position, candle.close) == Some(TAKE_PROFIT) ==> pnl >= 0.0 && s'.balance >= s.balance)
            && (ProtectiveExit(s.position, candle.close) == Some(STOP_LOSS) ==> pnl <= 0.0 && s'.balance <= s.balance)
  {
    var t := Last(s.trades);
    var entry := t.entryPrice;
    var signal := t.side.value;
    LevelsBracketEntry(c, entry, signal);
    var move := candle.close - entry;
    var reason := ProtectiveExit(s.position, candle.close).value;
    if signal == Buy {
      assert s.position.size > 0.0;
      if reason == TAKE_PROFIT {
        assert move >= 0.0;
      } else {
        assert move <= 0.0;
      }
    } else {
      assert s.position.size < 0.0;
      if reason == TAKE_PROFIT {
        assert move <= 0.0;
      } else {
        assert move >= 0.0;
      }
    }
    ProductSigns(move, t.size);
  }

  // ---------------------------------------------------------------------------
  // Summary counts
  // ---------------------------------------------------------------------------

  /**
   * Every trade is a win, a loss or neither; and when every entry is
   * consistent, open trades are among the neither.
   */
  lemma {:induction false} TallyPartitionsLedger(trades: seq<Trade>)
    ensures WinCount(trades) + LossCount(trades) + NeutralCount(trades) == |trades|
    ensures (forall i :: 0 <= i < |trades| ==> Consistent(trades[i])) ==> OpenCount(trades) <= NeutralCount(trades)
  {
    if trades != [] {
      var init := trades[..|trades| - 1];
      TallyPartitionsLedger(init);
      if forall i :: 0 <= i < |trades| ==> Consistent(trades[i]) {
        assert forall i :: 0 <= i < |init| ==> init[i] == trades[i];
        assert Consistent(Last(trades));
      }
    }
  }

  /** Appending trade `t` adds its position to the wins exactly when its PnL is positive. */
  lemma WinIndicesSnoc(init: seq<Trade>, t: Trade)
    ensures WinIndices(init + [t]) == WinIndices(init) + (if t.pnl.GetOr(0.0) > 0.0 then {|init|} else {})
  {
    var trades := init + [t];
    forall i | 0 <= i < |init| ensures trades[i] == init[i] {}
  }

  /** Appending trade `t` adds its position to the losses exactly when its PnL is negative. */
  lemma LossIndicesSnoc(init: seq<Trade>, t: Trade)
    ensures LossIndices(init + [t]) == LossIndices(init) + (if t.pnl.GetOr(0.0) < 0.0 then {|init|} else {})
  {
    var trades := init + [t];
    forall i | 0 <= i < |init| ensures trades[i] == init[i] {}
  }

  /** The running win count is the number of ledger positions with a positive PnL. */
  lemma {:induction false} WinCountCountsWins(trades: seq<Trade>)
    ensures WinCount(trades) == |WinIndices(trades)|
  {
    if trades == [] {
      assert WinIndices(trades) == {};
    } else {
      var init := trades[..|trades| - 1];
      assert trades == init + [Last(trades)];
      WinCountCountsWins(init);
      WinIndicesSnoc(init, Last(trades));
      assert |init| !in WinIndices(init);
    }
  }

  /** The running loss count is the number of ledger positions with a negative PnL. */
  lemma {:induction false} LossCountCountsLosses(trades: seq<Trade>)
    ensures LossCount(trades) == |LossIndices(trades)|
  {
    if trades == [] {
      assert LossIndices(trades) == {};
    } else {
      var init := trades[..|trades| - 1];
      assert trades == init + [Last(trades)];
      LossCountCountsLosses(init);
      LossIndicesSnoc(init, Last(trades));
      assert |init| !in LossIndices(init);
    }
  }

  // ---------------------------------------------------------------------------
  // The broker object
  // ---------------------------------------------------------------------------

  class PaperBroker {
    var position: Position
    var balance: real
    var trades: seq<Trade>
    const takeProfitPct: real
    const stopLossPct: real
    const positionSize: real
    const reverseOnSignal: bool

    function Config(): BrokerConfig {
      BrokerConfig(takeProfitPct, stopLossPct, positionSize, reverseOnSignal)
    }

    function State(): Account
      reads this
    {
      Account(position, balance, trades)
    }

    ghost predicate Valid()
      reads this
    {
      Invariant(Config(), State())
    }

    /** A flat broker with an empty ledger and a zero balance. */
    constructor (takeProfitPct: real := 0.6, stopLossPct: real := 0.3, positionSize: real := 1.0, reverseOnSignal: bool := true)
      ensures Valid()
      ensures Config() == BrokerConfig(takeProfitPct, stopLossPct, positionSize, reverseOnSignal)
      ensures State() == Account(FlatPosition(), 0.0, [])
    {
      position := FlatPosition();
      balance := 0.0;
      trades := [];
      this.takeProfitPct := takeProfitPct;
      this.stopLossPct := stopLossPct;
      this.positionSize := positionSize;
      this.reverseOnSignal := reverseOnSignal;
    }

    method OnSignal(signal: TradeSignal, candle: Candle)
      requires position.IsOpen() ==> |trades| > 0
      modifies this
      ensures State() == Step(Config(), old(State()), signal, candle)
      ensures Extends(old(trades), trades)
      ensures old(Valid()) ==> Valid()
      ensures old(Valid()) && positionSize != 0.0 ==>
                OpenCount(trades) <= 1 && (OpenCount(trades) == 1 <==> position.IsOpen())
    {
      ghost var before := State();
      CheckProtectiveLevels(candle);
      if signal != Hold {
        if !position.IsOpen() {
          OpenPosition(signal, candle);
        } else {
          var currentSide := if position.size > 0.0 then Buy else Sell;
          if signal != currentSide {
            ClosePosition(candle, SIGNAL_CHANGE);
            if reverseOnSignal {
              OpenPosition(signal, candle);
            }
          }
        }
      }
      StepExtendsLedger(Config(), before, signal, candle);
      if Invariant(Config(), before) && positionSize != 0.0 {
        AtMostOneOpenTrade(Config(), State());
      }
    }

    method OpenPosition(signal: TradeSignal, candle: Candle)
      modifies this
      ensures State() == Opened(Config(), old(State()), signal, candle)
      ensures old(Valid() && !position.IsOpen()) ==> Valid()
    {
      ghost var before := State();
      ghost var keeps := Valid() && !position.IsOpen();
      var direction := if signal == Buy then 1.0 else -1.0;
      var entryPrice := candle.close;
      var size := positionSize * direction;
      assert size == SignedSize(Config(), signal);
      var trade := NewTrade(candle.timestamp, signal, entryPrice, size);
      trades := trades + [trade];
      var takeProfit := entryPrice * (1.0 + takeProfitPct / 100.0 * direction);
      assert takeProfit == TakeProfitLevel(Config(), entryPrice, Direction(signal));
      var stopLoss := entryPrice * (1.0 - stopLossPct / 100.0 * direction);
      assert stopLoss == StopLossLevel(Config(), entryPrice, Direction(signal));
      position := Position(size, Some(entryPrice), Some(takeProfit), Some(stopLoss));
      if keeps {
        OpenedKeepsInvariant(Config(), before, signal, candle);
      }
    }

    method ClosePosition(candle: Candle, reason: string)
      requires position.IsOpen() ==> |trades| > 0
      modifies this
      ensures State() == Closed(old(State()), candle, reason)
      ensures old(Valid()) ==> Valid()
    {
      ghost var before := State();
      ghost var keeps := Valid();
      if !position.IsOpen() {
        return;
      }
      var exitPrice := candle.close;
      var trade := trades[|trades| - 1];
      var pnl := (exitPrice - trade.entryPrice) * trade.size;
      assert pnl == Pnl(trade, exitPrice);
      trade := trade.(closedAt := Some(candle.timestamp), exitPrice := Some(exitPrice), pnl := Some(pnl), notes := reason);
      trades := trades[..|trades| - 1] + [trade];
      balance := balance + pnl;
      position := FlatPosition();
      if keeps {
        ClosedKeepsInvariant(Config(), before, candle, reason);
      }
    }

    method CheckProtectiveLevels(candle: Candle)
      requires position.IsOpen() ==> |trades| > 0
      modifies this
      ensures State() == AfterProtectiveCheck(old(State()), candle)
      ensures old(Valid()) ==> Valid()
    {
      ghost var before := State();
      ghost var keeps := Valid();
      if !position.IsOpen() {
        return;
      }
      var price := candle.close;
      if position.size > 0.0 {
        if IsSet(position.takeProfit) && price >= position.takeProfit.value {
          ClosePosition(candle, TAKE_PROFIT);
        } else if IsSet(position.stopLoss) && price <= position.stopLoss.value {
          ClosePosition(candle, STOP_LOSS);
        }
      } else {
        if IsSet(position.takeProfit) && price <= position.takeProfit.value {
          ClosePosition(candle, TAKE_PROFIT);
        } else if IsSet(position.stopLoss) && price >= position.stopLoss.value {
          ClosePosition(candle, STOP_LOSS);
        }
      }
    }

    /**
     * summary: the ledger length, the wins and the losses, and the balance.
     * Open and break-even trades are neither wins nor losses.
     */
    function Summary(): (r: BrokerSummary)
      reads this
      ensures r.trades == |trades| && r.balance == balance
      ensures r.wins == |WinIndices(trades)| && r.losses == |LossIndices(trades)|
      ensures r.wins + r.losses <= r.trades
      ensures Valid() ==> r.wins + r.losses + OpenCount(trades) <= r.trades
    {
      TallyPartitionsLedger(trades);
      WinCountCountsWins(trades);
      LossCountCountsLosses(trades);
      BrokerSummary(|trades|, WinCount(trades), LossCount(trades), balance)
    }
  }

  // ---------------------------------------------------------------------------
  // Scenarios
  // ---------------------------------------------------------------------------

  /** BUY at 2000 then SELL at 2015 with reversal off: flat again, one trade, a win of 15. */
  method OpenAndCloseLongTrade() returns (isOpen: bool, summary: BrokerSummary)
    ensures !isOpen && summary == BrokerSummary(1, 1, 0, 15.0)
  {
    var broker := new PaperBroker(positionSize := 1.0, takeProfitPct := 10.0, stopLossPct := 10.0, reverseOnSignal := false);
    broker.OnSignal(Buy, Candle(0, 2000.0));
    assert broker.position.IsOpen();
    broker.OnSignal(Sell, Candle(1, 2015.0));
    assert broker.trades[0].pnl == Some(15.0);
    isOpen := broker.position.IsOpen();
    summary := broker.Summary();
  }

  /** BUY at 2000 with a 0.5% stop (1990), then HOLD at 1990: the stop-loss closes the long at a loss of 10. */
  method StopLossTriggers() returns (isOpen: bool, reason: string, summary: BrokerSummary)
    ensures !isOpen && reason == STOP_LOSS && summary == BrokerSummary(1, 0, 1, -10.0)
  {
    var broker := new PaperBroker(positionSize := 1.0, takeProfitPct := 10.0, stopLossPct := 0.5, reverseOnSignal := false);
    broker.OnSignal(Buy, Candle(0, 2000.0));
    assert broker.position.size == 1.0 && broker.position.stopLoss == Some(1990.0);
    assert broker.position.takeProfit == Some(2200.0);
    assert ProtectiveExit(broker.position, 1990.0) == Some(STOP_LOSS);
    broker.OnSignal(Hold, Candle(1, 1990.0));
    assert broker.trades[0].pnl == Some(-10.0);
    isOpen := broker.position.IsOpen();
    reason := broker.trades[0].notes;
    summary := broker.Summary();
  }
}
