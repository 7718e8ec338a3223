# TradeTrack AI PRO: trade ledger and performance dashboard

TradeTrack AI PRO is a Streamlit app. It guesses the trading platform from a screenshot's
brightness and draws the rest of a trade (P/L, lot, symbol, order side) at random. It saves
each trade as one row of a CSV ledger and shows a dashboard over that ledger: the total P/L,
the number of winning and losing trades, and an equity curve.

This project models the decision logic of `app.py`:

- `Trades`: the detection record, the ledger row, the brightness rule (a screenshot with a mean
  brightness below 100 is labelled "MT5 / Dark Trading App", anything else "Light Theme App"),
  and the row that a save stamps with the day.
- `Ledger.TradeLedger`: the ledger file as a class. `present` says whether the file exists and
  `rows` holds its table. `Save` appends one stamped row, or creates the ledger with that row
  alone when there was no file yet. `Load` reads a missing ledger as an empty table.
  `ShowDashboard` computes the statistics from what `Load` returns.
- `Dashboard`: the statistics as recursive functions over the rows (`Total`, `Wins`,
  `Losses`, `EquityCurve`, `Summarize`), with lemmas for what they mean.

Money is integer cents and lot sizes are integer hundredths of a lot. The source rounds both to
two decimals when it creates them (`app.py:32-33`), so nothing else in the app needs floating
point. A zero P/L counts as a loss, as in the source (`today_pl <= 0`).

The equity curve starts at the first trade's P/L, not at zero. So the curve never falls exactly
when every trade AFTER the first has a P/L of zero or more; the first trade may be negative.
`Dashboard.EquityNonDecreasingIff` states it that way.

## Model

| member | source | states |
|---|---|---|
| `Trades.PlatformLabel` | app.py:26-29 | the label is "MT5 / Dark Trading App" exactly when brightness is below 100, and "Light Theme App" exactly when it is 100 or more |
| `Trades.SmartDetect` | app.py:19-43 | the platform is the dark label iff brightness < 100 (the light one otherwise); profit, lot, symbol and order are reported unchanged |
| `Trades.StampedRow` | app.py:49-56 | the new row carries the given date and copies platform, symbol, lot, order and today_pl from the detection unchanged |
| `Ledger.TradeLedger.constructor` | app.py:58 | before the first save there is no ledger file and no rows |
| `Ledger.TradeLedger.Save` | app.py:48-64 | the ledger exists afterwards and holds the old rows unchanged and in order, followed by exactly one new row, the stamped detection; with no earlier ledger it is that row alone |
| `Ledger.TradeLedger.Load` | app.py:66-69 | returns the ledger's rows, and an empty table when no ledger file exists |
| `Ledger.TradeLedger.ShowDashboard` | app.py:106-118 | no statistics when the ledger is missing or empty; otherwise the total, win count, loss count and equity curve of the loaded rows |
| `Ledger.SaveThenShow` | app.py:96-118 | after a save the dashboard always has statistics; the total grows by the new P/L, exactly one of wins and losses grows by one (a loss when P/L <= 0), and the equity curve gains one point, the new total |
| `Dashboard.Summarize` | app.py:108-118 | statistics exist iff the ledger is non-empty; then wins + losses equals the row count, the total is the sum of today_pl, and the equity curve has one point per row ending at the total |
| `Dashboard.TotalSnoc` | app.py:109 | appending a row adds its today_pl to the total P/L |
| `Dashboard.TotalCons` | app.py:109 | the total P/L is the first row's today_pl plus the total of the rest (the sum does not depend on the direction it is taken in) |
| `Dashboard.WinsPlusLosses` | app.py:110-111 | every row is counted exactly once, as a win or a loss: wins + losses equals the number of rows |
| `Dashboard.WinsCountsWinningRows` | app.py:110 | the win count equals the number of row indices whose today_pl is positive |
| `Dashboard.LossesCountsLosingRows` | app.py:111 | the loss count equals the number of row indices whose today_pl is zero or negative |
| `Dashboard.BreakEvenIsLoss` | app.py:110-111 | saving a trade with a P/L of zero adds one to the losses and leaves the wins unchanged |
| `Dashboard.CumSumAt` | app.py:118 | point i of a running sum started at s is s plus the sum of today_pl over rows 0..i |
| `Dashboard.EquityAt` | app.py:118 | point i of the equity curve is the sum of today_pl over rows 0..i |
| `Dashboard.EquityLast` | app.py:109-118 | the last point of the equity curve equals the total P/L |
| `Dashboard.EquityStep` | app.py:118 | each point of the equity curve is the previous point plus that row's today_pl |
| `Dashboard.EquitySnoc` | app.py:118 | appending a row extends the equity curve by exactly one point, the old total plus the new P/L, and leaves the earlier points unchanged |
| `Dashboard.EquityNonDecreasingIff` | app.py:118 | the equity curve never falls iff no row after the first has a negative today_pl |
| `Dashboard.SummarizeSnoc` | app.py:108-118 | the statistics of the ledger plus one row are the old total, win count, loss count and equity curve updated by that row alone |

## Left out

- Streamlit page setup, upload widget, metrics, messages and the save button's event handling (app.py:10-12, 74-98, 103-125): user interface.
- Opening the image and taking the pixel mean (app.py:21-24): image I/O and numpy floating point. The brightness is a `real` parameter.
- The random profit, lot, symbol and order (app.py:32-35): they are parameters of `SmartDetect`. The ranges they are drawn from (profit 100 to 5000, four lot sizes, three symbols, Buy or Sell) are not enforced. Any P/L sign is allowed, because a ledger row may hold any value.
- `datetime.now()` and its day-month-year formatting (app.py:50): the date stamp is a string parameter.
- The CSV file (app.py:58-69): the ledger is the `present` flag plus an in-memory sequence of rows. The CSV round trip is taken to give back exactly the rows written; pandas type coercion is not modelled.
- Dashboard.Total: float summation rounding is not modelled, because amounts are exact cents. The display rounding of the total (app.py:113) is presentation only.
- Plotting the equity curve with matplotlib (app.py:117-122): only the curve's values are modelled.
