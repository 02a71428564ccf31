# TeanJS stock-watch indicators in Dafny

TeanJS's `createStockWatch` builds a watcher for one stock symbol and one
interval (`'d'`, `'w'` or `'m'`). Each indicator method asks the Yahoo
Finance provider for the bars of a look-back window, then runs one
accumulator loop over them. This project models the window arithmetic and
those loops. The fetched bars, the snapshot's last trade price and the
wall clock are parameters. Prices are exact `real`s rather than doubles.

- `Series`: the `Bar` record (open, high, low, close) and the `Result` of an
  indicator. Also the folds `SumOf`, `CountOf` and `Mean` that specify the
  loops, with lemmas about them.
- `Window`: the window start `now - period * unit`. The unit is 1, 7 or 30
  days in milliseconds. The model keeps JavaScript's `Date` range limit.
- `Indicators`: one method per indicator loop (`MaxClose`, `MinClose`,
  `Sma`, `Mahl`, `Rsi`, `Atr`). `Sma`, `Mahl`, `Rsi` and `Atr` are proved
  equal to a fold; `MaxClose` and `MinClose` are proved to be the bound that
  some bar attains. Lemmas state what each indicator means.
- `Advice`: `IsGoodToBuy` and `IsGoodToSell`. Each counts two signals into
  `good` and `not` and tests `precision <= good / not`.

Edge cases, as the code has them:

- An empty series never settles SMA, MAHL, RSI or ATR. The source settles
  only at index `length - 1`, so the model returns `Err(NoBars)`.
  `getMax` returns its seed 0 for an empty series.
- RSI with no down bar divides by zero. In double arithmetic the value is
  100 when some bar rose. When no bar moved at all, it is NaN, which the
  model returns as `Err(ZeroOverZero)`. An undefined RSI fails both `<= 30`
  and `>= 70`, so it counts as `not`.
- With both signals good, `not == 0` and `good / not` is +Infinity, so the
  recommendation is made at every precision. The model states this branch
  explicitly.

The model follows the code in three places where a reader might expect
otherwise:

- `getMax` seeds with 0, so an all-negative series gives 0, not its largest
  close (`MaxClose`'s last ensures).
- RSI with `down == 0` and `up > 0` gives 100, not an error.
- `not == 0` recommends; it is not an error.

## Model

| member | source | states |
|---|---|---|
| `Window.WindowStart` | app.js:105-110 | the window start is undefined exactly for an interval other than 'd', 'w', 'm'; a defined start is `now` minus `period` times 1, 7 or 30 days of milliseconds, and it is a valid Date exactly when both the offset and the difference are within the Date range (an offset out of range gives an invalid date even when the difference would fit) |
| `Window.WindowOrdered` | app.js:105-110 | for periods 0 <= p <= q the start for q is no later than the start for p, which is no later than now |
| `Window.UnitsInDays` | app.js:105-110 | a window of p weeks starts where one of 7p days does, and a window of p months where one of 30p days does |
| `Window.WindowDefined` | app.js:105-110 | for a known interval, a period of 0 to 100 000 units and a non-negative clock the start is a valid Date |
| `Indicators.MaxClose` | app.js:114-118 | the result is at least 0 and at least every close, and it is 0 or the close of some bar (the larger of 0 and the highest close); a series with no positive close gives 0 |
| `Indicators.MinClose` | app.js:135-139 | the result is at most every close and, for a non-empty series, the close of some bar (the lowest close); an empty series gives the max seed 0 |
| `Indicators.Sma` | app.js:157-161 | the result is the sum of the closes divided by the number of bars, and `Err(NoBars)` for an empty series |
| `Indicators.SmaOfConstantSeries` | app.js:157-161 | a non-empty series whose every close is c has SMA c |
| `Indicators.Mahl` | app.js:182-191 | one pass gives the mean high and the mean low (`Err(NoBars)` exactly when there are no bars), and the mean high is at least the mean low when every bar's high is at least its low |
| `Indicators.Rsi` | app.js:212-220 | the result is the ratio formula applied to the number of bars closing above their open, the number closing below it and the number of bars, and `Err(NoBars)` for an empty series |
| `Indicators.RsiCountsBounded` | app.js:212-218 | up + down <= n, since no bar is both up and down |
| `Indicators.RsiClosedForm` | app.js:220 | whenever up + down > 0, `100 - 100 / (1 + (up/n) / (down/n))` equals `100 * up / (up + down)`, including the down == 0 case, where it is 100 |
| `Indicators.RsiRange` | app.js:220 | a defined RSI lies in [0, 100], is below 100 exactly when some bar closed below its open, and is exactly 50 when up == down |
| `Indicators.RsiUndefined` | app.js:215-220 | the RSI is 0/0 exactly for a non-empty series in which every bar closed at its open |
| `Indicators.Atr` | app.js:242-256 | the result is the mean of the method's per-bar term (high - low, \|high - close\|, \|low - close\|, or nothing for another method), and `Err(NoBars)` for an empty series |
| `Indicators.AtrOfFlatBars` | app.js:245-246 | method 1 on bars whose high equals their low gives 0 |
| `Indicators.AtrNonNegative` | app.js:244-254 | methods 2 and 3 never give a negative ATR, nor does method 1 when every high is at least its low |
| `Indicators.AtrOfUnknownMethod` | app.js:244-256 | a method other than 1, 2 and 3 adds nothing, so the ATR of a non-empty series is 0 |
| `Advice.ApprovesTwoSignals` | app.js:280 | with good + not == 2, `precision <= good / not` holds exactly when both signals are good (ratio +Infinity), or when one is and precision <= 1, or when precision <= 0 |
| `Advice.ApprovesMonotone` | app.js:308 | lowering the precision never withdraws a recommendation |
| `Advice.IsGoodToBuy` | app.js:267-288 | nothing is decided when the RSI or the SMA series is empty; otherwise the advice is to buy exactly when RSI <= 30 and SMA > last trade price, or when one of the two holds and precision <= 1, or when precision <= 0 |
| `Advice.IsGoodToSell` | app.js:295-316 | as for buying, with the signals RSI >= 70 and SMA < last trade price |

## Left out

- The quote provider: `finance.historical`, `finance.snapshot` and `fx.fullRate` perform network I/O. The bars, the last trade price and the rates are parameters (foreign calls).
- The promise and callback plumbing: the two calling conventions of `getHistorical`, `reject` followed by further computation, and the inverted `err == null` test that calls the callback twice in `getMax` and `getMin`. None of it changes the value computed.
- `Indicators.MinClose`: models the running minimum that the comment describes, seeded with the maximum of the same series. As written, the source calls `getMax()` without a period or a callback, and it assigns each smaller close to `max` rather than `min`, so it never produces a minimum.
- `Advice.IsGoodToBuy` and `Advice.IsGoodToSell`: the RSI and SMA fetches are given as two series. The order of the requests, and the snapshot request itself, are not modelled.
- The wall clock (`new Date()`): a parameter `now`. It is assumed to be a valid time value, as a `Date` from the clock always is.
- `Window.WindowStart`: `period` is an integer. JavaScript would accept a fractional or non-numeric period and truncate or coerce it. The interval is compared as a string, not with JavaScript's loose equality.
- `Indicators.Atr`: `method` is an integer. A method passed as a string would match no case of the `switch` in the source.
- IEEE-754 doubles: rounding is not modelled. Infinity and NaN appear only through the explicit branches described above.
- `createForexWatch` and `exchangeCurrency`: a single multiplication of an amount by a fetched rate.
