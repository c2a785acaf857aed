# xauusd_bot core in Dafny

This project models the decision-and-execution core of `xauusd_bot`, a trading
bot for gold (XAU/USD). Three parts are modelled:

- **The strategy** (`strategy.dfy`, module `Strategy`): the RSI computation
  `compute_rsi`, and the moving-average/RSI strategy. The strategy's
  constructor rejects a fast period that is not below the slow one.
  `generate_signal` turns a candle history into BUY, SELL or HOLD.
- **The paper broker** (`trader.dfy`, module `Trader`): a simulated account.
  It holds one position at a time, protected by take-profit and stop-loss
  levels. It keeps a running balance and a ledger of trades.
  `on_signal` applies a signal to a bar. `summary` reports trades, wins,
  losses and the balance.
- **The records** (`models.dfy`, module `Models`): the signal, candle,
  position and trade records the two parts exchange. `wrappers.dfy` holds
  `Option` and `Result`.

`compute_rsi` works with a loop. In the model it is the method
`ComputeRsi`, and its loop is the method `ChangeWindows`. The loop fills two
deques bounded by `period`; in the model they are sequences updated by
`DequeAppend`. Both methods are proved against the function `Rsi`. The
properties are proved about `Rsi`: it stays within [0, 100], it is 50 on a
short series, and it is exactly 100 iff the window holds no fall. It depends
only on the last `period + 1` prices. That last fact explains why
`generate_signal` may feed it only the trailing `2 * period` closes.

The broker updates its fields in place, so it is the class
`Trader.PaperBroker`. Each of its methods is proved equal to a function on an
`Account` value (position, balance, ledger):

| method | function |
|---|---|
| `OnSignal` | `Step` |
| `OpenPosition` | `Opened` |
| `ClosePosition` | `Closed` |
| `CheckProtectiveLevels` | `AfterProtectiveCheck` |

The broker invariant `Invariant` is proved to be kept by every operation;
opening keeps it when it starts from a flat account, which is the only way
`on_signal` opens. It says:

- every ledger entry's closing fields appear together, and its PnL is
  (exit − entry) × size;
- the balance is the sum of the ledger's PnL;
- an open position is the one recorded by the last trade, with levels derived
  from its entry and side;
- when the position size is non-zero, every trade but the last is closed, and
  the last is open exactly when the position is.

The last clause needs a non-zero position size. With `position_size == 0` a
BUY or SELL appends a trade that never closes, while the position stays flat.
The model keeps this behaviour; `Invariant` says why the ledger shape is
conditional on a non-zero size.

## Model

| member | source | states |
|---|---|---|
| Models.FlatPosition | xauusd_bot/models.py:23-31 | A default `Position()` (size 0, no prices) is not open. |
| Models.NewTrade | xauusd_bot/models.py:34-44 | A freshly recorded trade is open, with no exit price, no PnL and empty notes. |
| Strategy.ChangeWindows | xauusd_bot/strategy.py:58-67 | The loop over consecutive prices leaves the two deques holding exactly the gains and the losses of the last `period` price changes. |
| Strategy.WindowStep | xauusd_bot/strategy.py:60-67 | One loop iteration appends the change's gain and loss to the bounded deques, evicting the oldest once `period` entries are held. |
| Strategy.ComputeRsi | xauusd_bot/strategy.py:54-73 | compute_rsi returns the RSI of the series and always a value in [0, 100]. |
| Strategy.AverageGain | xauusd_bot/strategy.py:68 | The average gain over the window is non-negative. |
| Strategy.AverageLoss | xauusd_bot/strategy.py:69 | The average loss over the window is non-negative. |
| Strategy.RsiFromAverages | xauusd_bot/strategy.py:70-73 | 100 − 100/(1 + RS) with the zero-loss case lies in [0, 100], and is 100 iff the average loss is zero. |
| Strategy.RsiBounds | xauusd_bot/strategy.py:54-73 | The RSI is always in [0, 100], and strictly below 100 once the window holds a loss. |
| Strategy.RsiShortSeriesIsNeutral | xauusd_bot/strategy.py:55-57 | A series of at most `period` prices gives 50. |
| Strategy.AverageLossZeroIff | xauusd_bot/strategy.py:58-69 | The average loss is zero iff none of the last `period` price changes is a fall. |
| Strategy.RsiIsHundredIff | xauusd_bot/strategy.py:69-71 | The RSI is 100 iff the series is longer than the period and its last `period + 1` prices never fall. |
| Strategy.RsiWindow | xauusd_bot/strategy.py:58-73 | The RSI of a series equals the RSI of its last `period + 1` prices. |
| Strategy.RsiTrailingWindow | xauusd_bot/strategy.py:42 | Taking only the trailing `2 * rsi_period` closes does not change the RSI. |
| Strategy.NewStrategy | xauusd_bot/strategy.py:13-27 | Construction fails iff `fast_period >= slow_period`; otherwise the strategy keeps the given parameters. |
| Strategy.MovingAverageRsiStrategy.GenerateSignal | xauusd_bot/strategy.py:29-32 | Fewer than `slow_period + 1` candles always give HOLD. |
| Strategy.CrossesExclusive | xauusd_bot/strategy.py:44-45 | A bar is never both a bullish and a bearish cross. |
| Strategy.SignalRule | xauusd_bot/strategy.py:29-51 | BUY iff enough candles, a bullish cross and RSI below overbought; SELL iff enough candles, a bearish cross and RSI above oversold; the RSI is the one of the whole close history. |
| Strategy.BuyOnUpwardBreakout | tests/test_strategy.py:23-33 | Twenty closes at 1900 then 1950, periods 3/7/5, overbought 101: BUY. |
| Strategy.SellOnDownwardBreakout | tests/test_strategy.py:35-45 | Twenty closes at 2000 then 1950, periods 3/7/5, oversold −1: SELL. |
| Trader.Opened | xauusd_bot/trader.py:38-60 | Opening appends exactly one open trade opened at the bar's time, on the signal's side, at the bar's close, sized `position_size` in the signal's direction. The new position has that signed size, the close as entry, and take-profit and stop-loss set at the configured percentages from the entry in the signal's direction. The earlier ledger and the balance are kept. The position is open iff `position_size != 0`. |
| Trader.Closed | xauusd_bot/trader.py:62-72 | A flat account is left as it is. Otherwise the last trade gets closing time = the bar's time, exit = close, PnL = (exit − entry) × size and notes = reason; the balance grows by that PnL and the position becomes `Position()`. The ledger length is unchanged and no other entry changes. |
| Trader.ProtectiveExit | xauusd_bot/trader.py:74-87 | Take-profit fires iff the position is open, its level is set and non-zero, and the close is at or beyond it on the position's side. Stop-loss fires iff the position is open, take-profit does not fire, its level is set and non-zero, and the close is at or beyond it on the losing side. Nothing else is returned. |
| Trader.OpenedKeepsInvariant | xauusd_bot/trader.py:38-60 | Opening from a flat account keeps the broker invariant. |
| Trader.ClosedKeepsInvariant | xauusd_bot/trader.py:62-72 | Closing keeps the broker invariant: the finalised PnL is (exit − entry) × size and moves into the balance. |
| Trader.StepKeepsInvariant | xauusd_bot/trader.py:19-36 | Every on_signal keeps the broker invariant. |
| Trader.StepExtendsLedger | xauusd_bot/trader.py:19-72 | on_signal appends at most one trade and changes no entry but the previous last, whose opening it keeps. |
| Trader.AtMostOneOpenTrade | xauusd_bot/trader.py:19-36 | With a non-zero position size the ledger has at most one open trade, and one iff the position is open. |
| Trader.HoldOnlyChecksLevels | xauusd_bot/trader.py:21-23 | On HOLD, a long whose stop-loss is reached (and take-profit not) is closed at the close with "Stop Loss", and nothing is opened. |
| Trader.SameSideIgnored | xauusd_bot/trader.py:27-32 | A signal on the side already held changes nothing. |
| Trader.OppositeSignalReverses | xauusd_bot/trader.py:33-36 | An opposite signal finalises the open trade at the close with "Cambio de señal" and books its PnL. With reversal on, it then opens in the signal's direction at that same price; otherwise it stays flat. |
| Trader.ProtectiveCloseThenOpen | xauusd_bot/trader.py:21-26 | A protective close does not consume the bar: a BUY/SELL on it then opens a new trade at the same close. |
| Trader.LevelsBracketEntry | xauusd_bot/trader.py:49-54 | With non-negative percentages and entry, a long's stop ≤ entry ≤ take-profit; a short's take-profit ≤ entry ≤ stop. |
| Trader.ProtectiveExitPnlSign | xauusd_bot/trader.py:74-87 | With positive size and non-negative percentages and entry, a take-profit exit never loses and a stop-loss exit never gains. |
| Trader.WinCountCountsWins | xauusd_bot/trader.py:90 | The win count is the number of ledger entries whose PnL (an open trade counting 0) is positive. |
| Trader.LossCountCountsLosses | xauusd_bot/trader.py:91 | The loss count is the number of ledger entries whose PnL (an open trade counting 0) is negative. |
| Trader.TallyPartitionsLedger | xauusd_bot/trader.py:89-91 | Every trade is a win, a loss or neither. Open trades are among the neither. |
| Trader.PaperBroker.constructor | xauusd_bot/trader.py:9-17 | A new broker is flat, with balance 0, an empty ledger, and defaults 0.6 / 0.3 / 1.0 / reversal on. |
| Trader.PaperBroker.OnSignal | xauusd_bot/trader.py:19-36 | The new state is `Step` of the old one. The ledger only extends, the invariant is kept, and at most one trade is open. |
| Trader.PaperBroker.OpenPosition | xauusd_bot/trader.py:38-60 | The new state is `Opened` of the old one. Opening when flat keeps the invariant. |
| Trader.PaperBroker.ClosePosition | xauusd_bot/trader.py:62-72 | The new state is `Closed` of the old one, and the invariant is kept. |
| Trader.PaperBroker.CheckProtectiveLevels | xauusd_bot/trader.py:74-87 | The new state is `AfterProtectiveCheck` of the old one, and the invariant is kept. |
| Trader.PaperBroker.Summary | xauusd_bot/trader.py:89-97 | Reports the ledger length, the number of entries with a positive PnL as wins, the number with a negative PnL as losses (an open trade counting 0), and the balance. Wins plus losses never exceed the trades, nor do wins, losses and open trades together. |
| Trader.OpenAndCloseLongTrade | tests/test_trader.py:19-32 | BUY at 2000 then SELL at 2015 without reversal: flat, one trade, one win, balance 15. |
| Trader.StopLossTriggers | tests/test_trader.py:34-43 | BUY at 2000 with a 0.5% stop, then HOLD at 1990: closed by "Stop Loss", one loss, balance −10. |

## Left out

- `data_provider.py`, `config.py` and `bot.py` are not part of this model. They cover market-data download, environment configuration and the polling loop. Their I/O, clock and network are outside the core.
- Floating point: prices, percentages and PnL are exact reals, so rounding error is not modelled.
- Trader.PaperBroker.Summary: reports the exact balance, not `round(balance, 2)`, because the model has no floating point.
- Timestamps are integers, not `datetime`, and only their identity is used.
- `Candle` keeps only `timestamp` and `close`. Open, high and low are never read by the core.
- `Trade.metadata` is not modelled; the core never writes it.
- Trades are values. The source finalises the shared `Trade` object at `trade_log[-1]`; the model replaces the ledger's last element instead. No other reference to a trade exists in the core, so aliasing is not observable.
- Trader.PaperBroker.constructor: takes only the four settings. An initial position, balance or ledger can also be passed to the source's dataclass; such a state need not satisfy the invariant. `OnSignal` still accepts any state in which an open position has a ledger entry.
- An open position with an empty ledger makes `_close_position` raise `IndexError` whenever it is reached: on a protective exit or an opposite signal. In the model this is a precondition of `Closed`, `ClosePosition`, `CheckProtectiveLevels` and `OnSignal`; `OnSignal` demands it even on HOLD or a same-side signal, where the source would not raise. The constructor never produces such a state.
- Strategy.MovingAverageRsiStrategy.GenerateSignal: requires `1 <= fast_period < slow_period` and `rsi_period >= 1`. For periods below 1 the source either raises (an empty `fmean`, a zero division, a negative deque length) or, with a negative fast period, averages slices that are not the last `fast_period` closes. Neither behaviour is modelled.
- Strategy.ComputeRsi: requires `period >= 1`. With `period == 0` an empty series gives 50; every other call with `period <= 0` raises: a zero division for 0, and a negative deque length for a negative period, even on an empty series.
- Strategy.MovingAverageRsiStrategy.GenerateSignal: the contract states only the short-history case. The full decision rule is `Strategy.SignalRule`.
