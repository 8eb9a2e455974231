# Trading decisions of two backtrader strategies

This project models the per-bar trading decision of two backtrader strategies
and proves properties of it. Each strategy's `next` is called once per price
bar. It reads indicator values and the broker's position size, may call the
broker, and updates the strategy's own fields.

- `RsiCross` (`rsi_cross.dfy`) models `MyStrategy` in `mystudy/study.py`. It is
  a flat/holding machine with a pending-order guard:
  - Flat: a strict upward crossover of RSI(6) over RSI(12) buys. It records the
    close as the entry price and sets the stop-loss to 0.98 times that price.
  - Holding: it sells when RSI(12) is above 70, otherwise when the close is at
    or below the stop-loss.
  - The `order` field is cleared at the end of every bar.
- `BBandScaling` (`bband_scaling.dfy`) models `BBandStrategy` in
  `mystudy/study_onlyone.py`. Five independent rules compare the close with
  the lower, mid and top Bollinger bands. Every rule that matches calls
  `order_target_percent`, and it appends the close to the entry-price history
  `buy_value` or clears that history. All rules read a single snapshot of the
  position size, so one bar can issue several orders.
- `Outcomes` (`outcomes.dfy`) holds the `Option` and `Result` wrappers that
  both strategies use.

Each strategy is a class whose `Next` method updates its fields in place. The
method is proved equal to a pure function `Step`, which is the specification.
`Run` applies `Step` to consecutive bars, the way the backtesting engine calls
`next`. The lemmas about `Run` state invariants that hold over a whole
backtest.

Inputs and outputs:
- Indicator values (current and previous RSI(6) and RSI(12); the lower, mid
  and top bands) and the broker's position size are fields of the `Bar`
  parameter.
- Every broker call (`buy`, `sell`, `order_target_percent`) is recorded as an
  `Order` value. In `BBandScaling`, each order also names the rule that issued
  it.
- Exceptions the source can raise are `Err` results:
  - `StopLossUnset`: `stop_loss_price` is read while holding, before any buy
    has assigned it.
  - `NoEntryRecorded`: `buy_value[-1]` is read while the history is empty.
- Prices and indicator values are `real`.
- `position_size // 2` is written as `/` on `int`. With a positive divisor,
  Dafny's `/` rounds down, exactly like Python's `//`.

The code has no volatility-extreme flag, take-profit level, golden-cross
trigger or fill handling, and the model keeps these quirks of the code:
- The pending-order field is cleared in the same call that set it, so it never
  blocks a later bar (`RsiCross.OrderSlotStaysClear`).
- The mid-band rule passes the halved share count as a portfolio fraction
  (`BBandScaling.MidBandTargetIsShareCount`).
- Several orders can be issued on one bar (`BBandScaling.DoubleEntryWhenFlat`).

## Model

| member | source | states |
|---|---|---|
| `RsiCross.Step` | mystudy/study.py:27-54 | A pending order makes the bar issue nothing and change nothing. If no order was pending, `order` is empty again afterwards. At most one order is issued. A buy happens iff the book is flat and RSI(6) crosses strictly above RSI(12). A buy sets the entry price to the close and the stop-loss to 0.98 times it, which is below the close when the close is positive. The overbought sell happens iff holding and RSI(12) > 70. The stop-loss sell happens iff holding, RSI(12) <= 70 and close <= stop-loss. The bar raises iff holding, RSI(12) <= 70 and no stop-loss was ever set. Without a buy, the entry price and stop-loss are unchanged. |
| `RsiCross.Run` | mystudy/study.py:27-54 | Over any run of bars, the number of orders is at most the number of bars. |
| `RsiCross.OrderSlotStaysClear` | mystudy/study.py:31-54 | If the order slot starts empty, it is empty after any run, so the pending-order guard never fires. |
| `RsiCross.StopLossTracksBuyPrice` | mystudy/study.py:37-38 | Over any run, the stop-loss is set exactly when the entry price is, and it always equals 0.98 times the entry price. |
| `RsiCross.NoErrorOnceEntered` | mystudy/study.py:43-51 | Once a stop-loss is recorded, no later bar raises. |
| `RsiCross.EqualSeriesNeverBuy` | mystudy/study.py:34-36 | If RSI(6) equals RSI(12) on every bar, no buy is ever issued. |
| `RsiCross.MyStrategy.constructor` | mystudy/study.py:14-21 | Starts with no pending order, no entry price and no stop-loss. |
| `RsiCross.MyStrategy.Next` | mystudy/study.py:27-54 | Returns the orders `Step` issues and leaves the fields `Step` gives. On an exception, leaves the fields untouched. An empty order slot stays empty. |
| `BBandScaling.Step` | mystudy/study_onlyone.py:35-60 | The bar raises iff holding, close <= lower band and the history is empty. Otherwise the orders are exactly those of the rules whose condition holds, in source order. Each condition is read against the position size and history as they were when the bar started. If the top-band rule fired, the history ends empty. Otherwise the history is the old history followed by one copy of the close per order. |
| `BBandScaling.RulesInSourceOrder` | mystudy/study_onlyone.py:41-60 | Orders follow the source order of the rules. Each rule issues at most one order, and a bar issues at most three. |
| `BBandScaling.EachRuleFiresOnItsCondition` | mystudy/study_onlyone.py:37-60 | A rule issues an order iff its condition holds. The 30% entry rules fire only when flat, and the other rules fire only when holding. |
| `BBandScaling.DoubleEntryWhenFlat` | mystudy/study_onlyone.py:41-60 | Flat with close <= lower band <= mid band: exactly two 30% orders, and the close is appended twice. |
| `BBandScaling.MidBandTargetIsShareCount` | mystudy/study_onlyone.py:50-52 | Holding at least two shares with close >= mid band: the target passed is the halved share count, which is at least 1.0 (100%), more than either entry target. |
| `BBandScaling.TopBandClearsHistory` | mystudy/study_onlyone.py:50-56 | Holding with close >= top band: a target-0 order is issued and the history ends empty, even though the mid-band rule appended first. |
| `BBandScaling.Run` | mystudy/study_onlyone.py:35-60 | Over any run of bars, the total number of orders is at most three times the number of bars. |
| `BBandScaling.RecordedPricesAreCloses` | mystudy/study_onlyone.py:43-60 | After any run, every recorded entry price was already in the history or is the close of a bar of the run. |
| `BBandScaling.FlatRunOnlyEnters` | mystudy/study_onlyone.py:41-60 | If the broker reports no long position on every bar, the run never raises and every order targets 30%. |
| `BBandScaling.BBandStrategy.constructor` | mystudy/study_onlyone.py:21-33 | Starts with an empty entry-price history. |
| `BBandScaling.BBandStrategy.Next` | mystudy/study_onlyone.py:35-60 | Returns the orders `Step` issues and leaves the history `Step` gives. On an exception, leaves the history untouched. |

## Left out

- `getakdata` in both files: fetching price data with akshare and coercing columns with pandas is I/O through a foreign library.
- The `__main__` blocks: Cerebro wiring, cash, commission, analyzers, PyFolio and plotting are framework setup and reporting.
- The RSI and Bollinger-band indicators: their code belongs to backtrader and is not part of this model. Their current and previous values are inputs of a bar.
- Broker execution (`buy`, `sell`, `order_target_percent`, `getposition`): orders are recorded as values and the position size is an input. Fills, sizing and portfolio accounting are not modelled.
- `BBandStrategy.stop`: it prints a floating-point return summary and decides nothing.
- `log` and `print` calls: they only produce output.
- The `BBandStrategy.order` field is set to `None` in `__init__` and never used again. `MyStrategy.buy_comm` and `MyStrategy.data_close` are not modelled either: the first is never used, and the second is the close input of a bar.
- The strategies' `params`: `maperiod` and `printlog` are declared but never read; `period` sets the band window, whose output is an input here.
- Floating-point rounding: prices are `real`, so `buy_price * 0.98` is exact in the model.
