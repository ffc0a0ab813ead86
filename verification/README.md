# A verified model of the backtester's position, portfolio and date-loop core

The backtester replays a trading strategy over a range of calendar days.
Each day it reads a market snapshot (closing prices, volatility surfaces),
lets the strategy open and close positions, and records a per-position summary.
From that summary it derives a balance per date and a period P&L series.

This project models that core in Dafny and proves what it promises:

- **Positions** (`position.dfy`, module `Positions`; `backtester/core/position.py`):
  - a unique five-digit trade id;
  - an entry price and initial countervalue fixed at opening;
  - open P&L `(value - entry) * side * quantity`;
  - a close that freezes the realised P&L;
  - European options that settle at their max-payoff on or after expiry.
- **Portfolio** (`portfolio.dfy`, module `Portfolios`; `backtester/core/portfolio.py`):
  - an insertion-ordered list of position objects;
  - the sums over it;
  - the per-position summary;
  - the filter by symbol and asset type;
  - the close-all and close-by-filter sweeps.
- **Engine** (`calendar.dfy`, `date_grid.dfy`, `engine.dfy`; `backtester/core/engine.py`):
  - the inclusive day list;
  - the split into processed and unprocessed dates;
  - the date loop: the strategy on every date but the last, a forced close-out on the last;
  - the balance per date;
  - the period P&L series.
- **Margin engine** (`margin_engine.dfy`; `examples/debug.py`):
  - the same grid and loop;
  - a margin ledger seeded with the starting balance and carried forward day to day;
  - trade admission against `margin * 1.5`;
  - `close_Trade` crediting the countervalue back;
  - the ledger zeroed on the last date;
  - exceptions caught per date, while `exit()` ends the run.
- **Older variants** (`legacy_positions.dfy`, `legacy_portfolio.dfy`, `legacy_core.dfy`;
  `pricing/positions.py`, `pricing/portfolio.py`, `backtester/backtester/core.py`):
  - a `close_position` without an open guard;
  - a portfolio with `remove_position` and a close-all that empties the list;
  - an indicator registry;
  - a backtester that walks every calendar day.
- **Shared enumerations** (`enums.dfy`; `backtester/core/utils.py`).

`outcomes.dfy` turns raised exceptions into values: `KeyError`, `ValueError`,
`AttributeError`, `IndexError`, `TypeError`, `SystemExit`, and
`IdSpaceExhausted` for a trade-id draw with every five-digit id taken.

`market.dfy` holds the snapshot the core reads. Dates are day numbers and
prices are reals.

The imperative parts are Dafny classes whose methods are proved against
specification functions:

- the position objects, the trade-id registry and the portfolio;
- the three backtesters, with their ledgers, summaries and loops.

The pure parts are functions and lemmas:

- valuation, payoff, sums, summaries;
- the date grid and the period P&L.

### Notes on the code's behaviour

- `trade` in `backtester/core/engine.py:141-148` performs no margin check. Only `examples/debug.py` admits trades against the margin.
- In `examples/debug.py:139-141`, after an admitted trade the ledger entry becomes `margin * 1.5 - commitment`. The leverage is folded into the stored margin, not applied afresh on each trade.
- `exit()` in `examples/debug.py:144` raises `SystemExit`. That is not an `Exception`, so the per-date `except Exception` does not catch it and the whole run ends (`SystemExit` outcome).
- `examples/debug.py` is modelled on the position and portfolio classes of `backtester/core`. The package behind its `bt` import is not part of this model; the choice rests on what `examples/debug.py` uses. It reads `initial_ctv` (`examples/debug.py:135-137`), calls `calculate_ctv` (`examples/debug.py:117`) and calls `close_all_positions` with a snapshot (`examples/debug.py:72`) and `get_positions` (`examples/debug.py:170`), and only the classes of `backtester/core` define these.
  - `bt.BondPosition` does not exist, so a bond trade raises `AttributeError`.
  - The carry-forward of `margin[valid_dates[i-1]]` raises `KeyError` when the previous date failed before it seeded its entry.
- `examples/debug.py` reads the market through the `MarketData` of `backtester/data/build.py`, whose snapshots carry `ref_date` as ISO text (`backtester/data/build.py:43,71`).
  - The ledger is keyed by ISO text too (`examples/debug.py:66-68`), so the lookup `margin[position.trade_date]` in `examples/debug.py:131` finds the date's entry.
  - An option position draws its trade id first (`backtester/core/position.py:22`). Valuing it then compares the text `ref_date` with the expiry `date`: `is_expiry_date` (`backtester/core/position.py:143-147`) answers False, and the `>` in `backtester/core/position.py:92` raises `TypeError`. So a margin-engine option trade consumes an id and fails with `TypeError`, and no option ever enters that portfolio.

## Model

| member | source | states |
|---|---|---|
| Enums.PositionType.Value | backtester/core/utils.py:8-10 | the side multiplier is 1 or -1 (its square is 1) |
| Enums.OptionType.QuantLibType | backtester/core/position.py:73-76 | the option type stored by a position is +1 exactly for a call and -1 for a put |
| Enums.OrderTypeOf | backtester/core/utils.py:4-6 | lookup by value finds the member with that value, and fails only for values other than "buy"/"sell" |
| Enums.PositionTypeOf | backtester/core/utils.py:8-10 | lookup by value finds the member with that value, and fails only for values other than 1/-1 |
| Enums.OptionTypeOf | backtester/core/utils.py:12-14 | lookup by value finds the member with that value, and fails only for values other than 1/0 |
| Enums.AssetTypeOf | backtester/core/utils.py:16-19 | lookup by value finds the member with that value, and fails only for values other than "equity"/"bond"/"option" |
| Enums.EnumValuesRoundTrip | backtester/core/utils.py:4-19 | every member is found again from its value |
| Enums.EnumValuesInjective | backtester/core/utils.py:4-19 | within each enumeration, members with equal values are equal, so the values are pairwise distinct |
| Calendar.Span | backtester/core/engine.py:54-61 | the days from start to end: length end-start+1 (0 when start > end), the k-th day is start+k |
| Calendar.DatesBetween | backtester/core/engine.py:54-61 | the loop yields exactly the days in [start, end], each one day after the previous, and is empty iff start > end (the older backtester/backtester/core.py:10-16 has the same loop) |
| Calendar.SpanIncreasing | backtester/core/engine.py:54-61 | the day list is strictly increasing |
| DateGrid.CreateDateGrid | backtester/core/engine.py:78-96 | the loop builds the grid of the days; valid days are non-holidays of the run that are not unprocessed, unprocessed days are non-holidays of the run |
| DateGrid.GridMembership | backtester/core/engine.py:83-96 | a day is valid iff it is a non-holiday day of the run with every price close and vol surface; unprocessed iff a non-holiday day lacking one; so the lists are disjoint and holiday-free |
| DateGrid.GridKeepsOrder | backtester/core/engine.py:83-96 | both lists keep the calendar order |
| Positions.Sign | backtester/core/utils.py:8-10 | the side as a real is 1 or -1 |
| Positions.Payoff | backtester/core/position.py:134-135 | the payoff is non-negative, at least the intrinsic `(spot - strike) * type` and equal to it or to 0; a call pays iff spot > strike, a put iff spot < strike |
| Positions.OpenedPosition | backtester/core/position.py:21-31 | a new position is open with nothing realised, carries its id and trade date, entry price = value at the trade snapshot (the close for an equity), initial ctv = entry * quantity, and P&L 0 there |
| Positions.EquityPnl | backtester/core/position.py:38-42 | an open equity's P&L is `(close - entry) * side * quantity` and its ctv `close * side * quantity`, and valuing changes nothing |
| Positions.ClosedReportsZero | backtester/core/position.py:38-55 | a closed position reports P&L 0 and ctv 0, and valuing it changes nothing |
| Positions.OptionSettlesAtExpiry | backtester/core/position.py:83-99 | on or after expiry an open option is valued 0 and closed with `closed_pnl = (payoff - entry) * quantity * side` and quantity 0; its P&L and ctv are then 0 |
| Positions.OptionBeforeExpiry | backtester/core/position.py:100-132 | before expiry an option is worth the analytic price and is not changed |
| Positions.ValuationEffect | backtester/core/position.py:83-99 | valuing, P&L and ctv leave the position as `Revalue` says (settled iff an open option at/after expiry), valuing twice changes nothing more |
| Positions.ConsistencyPreserved | backtester/core/position.py:38-99 | valuation, P&L, ctv and close keep "open with nothing realised, or closed with quantity 0" |
| Positions.CloseRealisesGlobalPnl | backtester/core/position.py:44-49 | closing realises exactly the global P&L at the closing snapshot, zeroes the quantity of an open position, clears the flag; later snapshots leave the global P&L there |
| Positions.CloseIdempotent | backtester/core/position.py:44-49 | after a close the position is closed and closing again changes nothing |
| Positions.CloseAsWrittenAgreesOtherwise | backtester/core/position.py:44-49 | close_position as written and as intended agree except for an open option on or after expiry |
| Positions.CloseAsWrittenDropsPayoff | backtester/core/position.py:44-49 | a long call closed at expiry in the money realises 0 as written, 4 as intended (see Findings) |
| Positions.TradeIdRegistry.Generate | backtester/core/position.py:12-18 | returns a five-digit id not handed out before and adds exactly it to the set |
| Positions.Position.constructor | backtester/core/position.py:21-31 | the object's fields are the opened state |
| Positions.Position.SettleOption | backtester/core/position.py:85-89 | the expiry branch writes the settled state |
| Positions.Position.CalculateValue | backtester/core/position.py:63-99 | returns the value and leaves the object in the state `Value` specifies (close of an equity; 0 and settled for an option at/after expiry; analytic price before) |
| Positions.Position.CalculatePnl | backtester/core/position.py:38-42 | returns `Pnl` of the old state and leaves the object as `Pnl` says |
| Positions.Position.CalculateCtv | backtester/core/position.py:51-55 | returns `Ctv` of the old state and leaves the object as `Ctv` says |
| Positions.Position.ClosePosition | backtester/core/position.py:44-49 | the new state is `Close` of the old (the settlement made by valuing is kept, see Findings) |
| Positions.NewPosition | backtester/core/position.py:21-31 | draws a fresh id first; succeeds iff the quotes are there and the contract does not settle at the trade date; else KeyError (missing close) or AttributeError (option opened at/after expiry) |
| Portfolios.SumsAppend | backtester/core/portfolio.py:18-23 | the closed-P&L, initial-ctv and quantity sums split over concatenation |
| Portfolios.GlobalPnlIsPerPosition | backtester/core/portfolio.py:29-32 | global P&L = open P&L sum + realised sum of the positions as valuing left them = sum of per-position global P&L |
| Portfolios.SummaryRowAt | backtester/core/portfolio.py:34-54 | the summary has one row per position; row k carries the snapshot's ref_date, position k's id, symbol, dates, side, type, its P&L, and global = open + closed |
| Portfolios.SummaryAddsUp | backtester/core/portfolio.py:34-54 | the summary's global_pnl column adds up to the portfolio's global P&L |
| Portfolios.SummaryOfDate | backtester/core/portfolio.py:34-54 | every row carries the snapshot's date; with nothing open, the rows' global P&L is the realised P&L and no position changes |
| Portfolios.AllClosedGlobal | backtester/core/portfolio.py:29-32 | with nothing open, valuing changes nothing and global P&L = realised sum |
| Portfolios.CloseAllRealises | backtester/core/portfolio.py:78-81 | closing all keeps the length and ids, leaves nothing open, and the realised total equals the global P&L before, for any later snapshot too |
| Portfolios.CloseMatchingEmpties | backtester/core/portfolio.py:83-86 | closing by (ticker, type) closes every matching position, leaves the others unchanged and the matching quantity 0 |
| Portfolios.MatchingAppend | backtester/core/portfolio.py:56-69 | the filter distributes over concatenation, so it keeps list order |
| Portfolios.MatchingMembers | backtester/core/portfolio.py:56-69 | the filter keeps exactly the positions whose symbol and asset type match |
| Portfolios.MatchingQuantityOfFilter | backtester/core/portfolio.py:71-76 | the quantity of the filtered positions is the matching quantity of the whole list |
| Portfolios.Portfolio.constructor | backtester/core/portfolio.py:6-8 | an empty list and open_pnl 0 |
| Portfolios.Portfolio.AddPosition | backtester/core/portfolio.py:10-12 | appends at the end, earlier positions untouched |
| Portfolios.Portfolio.GetClosedPnl | backtester/core/portfolio.py:18-20 | returns the sum of closed_pnl over the list |
| Portfolios.Portfolio.GetInitialCtv | backtester/core/portfolio.py:22-23 | returns the sum of initial_ctv over the list |
| Portfolios.Portfolio.CalculateTotalValue | backtester/core/portfolio.py:14-16 | succeeds iff every position is quoted, then returns the sum of `value * quantity * side`; the positions valued so far are revalued, a missing quote is KeyError |
| Portfolios.Portfolio.CalculateOpenPnl | backtester/core/portfolio.py:25-27 | succeeds iff every open position is quoted, then returns the open P&L sum; positions handled are revalued, a missing quote is KeyError |
| Portfolios.Portfolio.GlobalPnl | backtester/core/portfolio.py:29-32 | returns the global sum (open P&L, then realised P&L after valuing) or KeyError |
| Portfolios.Portfolio.GetPositionsSummary | backtester/core/portfolio.py:34-54 | returns `Summary` of the positions (one row each, in order) or KeyError at the first unquoted one; positions handled are revalued |
| Portfolios.Portfolio.GetPositions | backtester/core/portfolio.py:56-69 | returns `Matching`: the matching positions in list order |
| Portfolios.Portfolio.PositionQuantity | backtester/core/portfolio.py:71-76 | returns the quantity sum of the matching positions |
| Portfolios.Portfolio.CloseAllPositions | backtester/core/portfolio.py:78-81 | every open position is closed in order (`CloseUpTo`), or KeyError at the first unquoted one |
| Portfolios.Portfolio.ClosePositions | backtester/core/portfolio.py:83-86 | the matching positions are closed in order, the others untouched (`CloseMatchingUpTo`), or KeyError |
| Engine.NotAfter | backtester/core/engine.py:150-159 | get_history's dates are the longest prefix not after ref_date; the next date, if any, is after it |
| Engine.NotAfterSelects | backtester/core/engine.py:150-159 | on increasing dates, get_history's dates are exactly those not after ref_date |
| Engine.HistorySelects | backtester/core/engine.py:150-159 | the history succeeds iff every such date has a snapshot, holds exactly those dates, each with its own snapshot |
| Engine.CollectHistory | backtester/core/engine.py:154-159 | the loop with break returns `HistoryUpTo` |
| Engine.BalanceStep | backtester/core/engine.py:180-186 | after a new date's rows, every processed date's balance is the starting balance plus that date's global P&L |
| Engine.BalancedStep | backtester/core/engine.py:181-186 | a date after every balanced date keeps their balances and is balanced itself: balance = start + the global P&L of its summarized positions |
| Engine.DoneStep | backtester/core/engine.py:169-186 | appending the next date's rows, dated and adding up to the portfolio's global P&L, keeps every row dated by a done date and every done date's balance = start + its rows' global P&L = start + the portfolio's global P&L |
| Engine.RunStep | backtester/core/engine.py:169-186 | booking the next date, with its reference date and (off the last date) its on_data date, makes one more date done (`RunDone`) |
| Engine.RunFinished | backtester/core/engine.py:169-186 | with every date done: reference dates = the dates, on_data on all but the last, rows dated by them, and each balance = start + its rows' global P&L = start + the portfolio's global P&L at its snapshot |
| Engine.PeriodPnlMatchesBalance | backtester/core/engine.py:180-191 | the period P&L agrees with the balance on every date it has |
| Engine.Backtester.constructor | backtester/core/engine.py:12-45 | the run's days are every day from start to end; price tickers = universe, no vol tickers, all state empty |
| Engine.Backtester.CreateDateGrid | backtester/core/engine.py:78-96 | appends the grid's valid and unprocessed dates, only at EOD frequency |
| Engine.Backtester.OnStart | backtester/core/engine.py:98-109 | builds the grid; ValueError iff no valid date, else first/last date are its ends |
| Engine.Backtester.Trade | backtester/core/engine.py:141-148 | success iff an equity, a free id and a quoted close; ValueError for a non-equity and IdSpaceExhausted without a free id, both leaving the id registry unchanged; otherwise exactly one fresh id is used up, even when the missing close makes it a KeyError; nothing is appended on error; on success one new equity position, opened at the snapshot with that id, is appended |
| Engine.Backtester.ExecuteOrder | backtester/core/engine.py:141-148 | a trade order succeeds iff the asset is an equity, an id is free and the close is quoted: ValueError for a non-equity, IdSpaceExhausted without a free id (registry unchanged in both), else exactly one fresh id is used up and a failure is KeyError; nothing appended on any error; on success one fresh position, opened at the snapshot with the new id, is appended; a close order closes the matching positions in order (`CloseMatchingUpTo`), succeeding iff each is quoted, keeping the list and the registry |
| Engine.Backtester.GetHistory | backtester/core/engine.py:150-159 | returns `HistoryUpTo` of the valid dates |
| Engine.Backtester.OnData | backtester/core/engine.py:175-179 | on_data runs once for the date; positions are old ones or new |
| Engine.Backtester.CloseOut | backtester/core/engine.py:171-173 | the open positions are closed in order (`CloseUpTo`); success iff every open one is quoted, else KeyError; on success nothing is open, and the realised total equals the global P&L before when the positions' figures were consistent |
| Engine.Backtester.SummarizeDate | backtester/core/engine.py:180-186 | success iff every position is quoted; then the rows are `Summary` of the portfolio as it stood, each carries the date, and their global_pnl adds up to the portfolio's global P&L; otherwise KeyError; the positions handled are revalued (`RevalueUpTo`); with nothing open they are unchanged and the rows' global P&L is the realised total |
| Engine.Backtester.RecordRows | backtester/core/engine.py:180-186 | rows appended, balance[d] = starting balance + the rows' global P&L (0 without rows), which is the portfolio's global P&L at the snapshot; the positions summarized are kept for d (`Recorded`) |
| Engine.Backtester.EnterDate | backtester/core/engine.py:170-176 | the snapshot joins the history and the date the reference dates; KeyError without a snapshot |
| Engine.Backtester.SummarizeAndRecord | backtester/core/engine.py:180-186 | success iff every position is quoted; then the date is `Recorded`: rows = `Summary` of the positions as they stood, appended, and balance[d] = start + their global P&L; otherwise KeyError with summary and balance unchanged |
| Engine.Backtester.FinishDate | backtester/core/engine.py:171-186 | KeyError on failure; on success the date is `Recorded` and `ClosedOutAt`: every position closed in order, the summary taken of the closed positions, its global P&L their realised P&L, equal to the global P&L before for consistent figures |
| Engine.Backtester.TradeDate | backtester/core/engine.py:175-186 | on_data runs for the date; on success the date is `Recorded` with the positions on_data left, which are revalued at the snapshot |
| Engine.Backtester.ActOnDate | backtester/core/engine.py:170-186 | on_data off the last date only; on success the date is `Recorded`, so balance[d] = start + the portfolio's global P&L at the snapshot; on the last date failure is KeyError and success is `ClosedOutAt` |
| Engine.Backtester.ProcessDate | backtester/core/engine.py:169-186 | on success: the snapshot joins the history, the date the reference dates and, off the last date, the on_data dates; the date is `Recorded` at its snapshot; on the last date `ClosedOutAt` |
| Engine.Backtester.StepDate | backtester/core/engine.py:169-186 | one loop turn keeps `RunDone` one date further; after the last date nothing is open and its balance is start + the realised total |
| Engine.Backtester.RunDates | backtester/core/engine.py:169-186 | on success `RunDone` for every valid date: they are the reference dates; on_data ran on each but the last; each row carries one of them; each date's balance is start + its rows' global P&L, which is start + the portfolio's global P&L at its snapshot; at the end nothing is open and the last balance is start + the realised total |
| Engine.Backtester.BeginRun | backtester/core/engine.py:161-167 | the grid is built (ValueError iff empty, increasing), summary and ref_dates reset |
| Engine.Backtester.GroupPeriodPnl | backtester/core/engine.py:187-191 | absent iff no rows, else `PeriodPnl` (per-date global_pnl sum + start), equal to the balance on each of its dates; every valid date's balance is start + the portfolio's global P&L at its snapshot |
| Engine.Backtester.RunAndGroup | backtester/core/engine.py:169-191 | on success the loop's and the grouping's promises together, as Backtest states them |
| Engine.Backtester.Backtest | backtester/core/engine.py:161-191 | ValueError on an empty grid; else ref_dates = valid dates, all closed, every row dated by a valid date, period P&L absent iff no rows, else per-date global sum + start equal to the balance, and each date's balance = start + the portfolio's global P&L at its snapshot |
| MarginEngine.Commitment | examples/debug.py:132-137 | the commitment is initial_ctv for the side whose value is 1, 0.2 * initial_ctv otherwise |
| MarginEngine.CommitmentAsWrittenIgnoresSide | examples/debug.py:134-137 | as written every side commits 0.2 * initial_ctv, differing from the intended one exactly on longs with non-zero ctv |
| MarginEngine.LongTradeAdmittedAsWritten | examples/debug.py:131-141 | a long trade of ctv 20 on margin 10 is admitted as written and refused as intended |
| MarginEngine.CloseAfterValuing | examples/debug.py:116-119 | reading the ctv before closing does not change what closing yields |
| MarginEngine.SameDayRoundTrip | examples/debug.py:116-141 | admitting then closing at the same snapshot restores margin * 1.5 for a long; other sides lose 1.2 * initial_ctv |
| MarginEngine.MarginBacktester.constructor | examples/debug.py:14-40 | the run's days are every day from start to end; empty ledger, grid, history and summary |
| MarginEngine.MarginBacktester.CreateDateGrid | examples/debug.py:92-106 | appends the grid's valid and unprocessed dates (no frequency guard) |
| MarginEngine.MarginBacktester.OnStart | examples/debug.py:42-54 | ValueError iff no valid date, else first/last date are its ends |
| MarginEngine.MarginBacktester.GetDataAt | examples/debug.py:108-114 | returns `HistoryUpTo` of the valid dates |
| MarginEngine.MarginBacktester.Trade | examples/debug.py:121-144 | AttributeError for a bond with no id drawn; IdSpaceExhausted without a free id, registry unchanged; otherwise exactly one fresh id is used up whatever follows; an option then fails with TypeError; an equity with a ledger entry for the date and a quoted close is admitted iff commitment <= margin[date] * 1.5, the entry becoming available - commitment, else SystemExit; its other failures are KeyError; portfolio and ledger unchanged on every error; an admitted position is fresh, opened at the snapshot with the new id |
| MarginEngine.MarginBacktester.Admit | examples/debug.py:131-144 | KeyError without a ledger entry; admitted iff commitment fits, appending the position and storing available - commitment; else SystemExit |
| MarginEngine.MarginBacktester.CloseTrade | examples/debug.py:116-119 | margin[ref_date] += pre-close ctv, then the position is closed; KeyError changes nothing |
| MarginEngine.MarginBacktester.ExecuteOrder | examples/debug.py:116-144 | ledger dates unchanged; close on no matching position is IndexError with nothing changed |
| MarginEngine.MarginBacktester.OnData | examples/debug.py:74-77 | ledger dates unchanged; positions are old ones or new |
| MarginEngine.MarginBacktester.EnterDate | examples/debug.py:64-68 | history gets the snapshot; the entry (and the date's recorded seed) is the starting balance on the first date, else the previous valid date's entry; KeyError with the ledger unchanged if either is missing |
| MarginEngine.MarginBacktester.CloseOut | examples/debug.py:70-73 | every open position is closed in order and the date's entry becomes 0, or KeyError with the ledger unchanged |
| MarginEngine.MarginBacktester.RecordSummary | examples/debug.py:78-79 | success iff every position is quoted; then `Summary` of the positions as they stood is appended and they are kept as the date's summarized positions (`Summarized`); the positions handled are revalued; KeyError leaves the summary |
| MarginEngine.MarginBacktester.FinishOnDate | examples/debug.py:70-79 | success iff every open position is quoted and every closed one can be summarized; else KeyError with the summary unchanged; on success `ClosedOutOn`: all closed in order (`CloseUpTo`), the rows are `Summary` of the closed positions, the entry is 0; the ledger keeps its dates |
| MarginEngine.MarginBacktester.TradeOnDate | examples/debug.py:74-79 | ref_date becomes the date; on success `Summary` of the positions on_data left is appended (`Summarized`) and they are revalued; an error leaves the summary; the ledger keeps its dates |
| MarginEngine.MarginBacktester.ActOnDate | examples/debug.py:69-79 | the date joins the reference dates, and becomes ref_date only off the last date; success appends the date's `Summary`; on the last date success iff all can be closed and summarized, else KeyError, and success is `ClosedOutOn` |
| MarginEngine.MarginBacktester.ProcessDate | examples/debug.py:63-79 | when the entry can be seeded it is seeded with the starting balance (first date) or the previous entry, and the date joins the reference dates; otherwise KeyError with ledger and reference dates unchanged; success appends the `Summary` at the date's snapshot, and on the last date is `ClosedOutOn`; SystemExit only off the last date |
| MarginEngine.MarginBacktester.StepDate | examples/debug.py:62-84 | one loop turn: the date is taken up; its entry is seeded with the starting balance (first date) or the previous entry, or else KeyError with the ledger unchanged; success appends the `Summary` at the date's snapshot (`Summarized`); an error leaves the summary; ledger keys stay valid dates; SystemExit only before the last date; a completed last date is `ClosedOutOn`: all closed, rows of the closed positions, entry 0 |
| MarginEngine.MarginBacktester.RunDates | examples/debug.py:62-84 | every valid date is taken up unless exit() ends the run (the only error); ledger keys are valid dates |
| MarginEngine.MarginBacktester.BeginRun | examples/debug.py:58-61 | grid built (ValueError iff empty, increasing), first/last set, summary and ref_dates reset |
| MarginEngine.MarginBacktester.Backtest | examples/debug.py:56-90 | errors are ValueError or SystemExit; on success every valid date was taken up, a completed last date leaves all closed and margin 0, and the period P&L is absent iff no rows, else per-date sums + start |
| LegacyPositions.EquityValue | pricing/positions.py:39-41 | an equity's value is the snapshot's price for the symbol, KeyError iff missing |
| LegacyPositions.OptionValue | pricing/positions.py:60-94 | on the expiry date the payoff (KeyError without a price), which is non-negative, at least the intrinsic value and equal to it or to 0; after it 0; before it the analytic price |
| LegacyPositions.OptionValueAroundExpiry | pricing/positions.py:102-106 | valued on the day equal to expiry it is the payoff; a day later 0 |
| LegacyPositions.OpenedAtEntry | pricing/positions.py:7-14 | a new equity is open, nothing realised, entry price = price at the trade snapshot, P&L 0 there |
| LegacyPositions.PnlRule | pricing/positions.py:23-27 | open: `(price - entry) * side * quantity`, KeyError iff price missing; closed: 0 |
| LegacyPositions.SidesMirror | pricing/positions.py:23-27 | long and short with the same fields have opposite P&L |
| LegacyPositions.CloseRealises | pricing/positions.py:29-32 | close realises the P&L, zeroes quantity, clears the flag, after which P&L is 0 |
| LegacyPositions.CloseTwiceForgets | pricing/positions.py:29-32 | a second close overwrites the realised P&L with 0, so it is a no-op iff that P&L was 0 |
| LegacyPositions.CloseTwiceExample | pricing/positions.py:29-32 | bought at 10, closed at 12: 2 realised, then 0 after the second close |
| LegacyPositions.LegacyPosition.constructor | pricing/positions.py:7-15 | the fields are the opened equity state |
| LegacyPositions.LegacyPosition.ClosePosition | pricing/positions.py:29-32 | the new state is `Close` of the old, or KeyError with nothing changed |
| LegacyPositions.NewEquityPosition | pricing/positions.py:35-41 | KeyError iff no price; else a new object in the opened state |
| LegacyPositions.NewOptionPosition | pricing/positions.py:44-57 | always AttributeError (event_dates written before it exists) |
| LegacyPortfolios.SumsAppend | pricing/portfolio.py:22-33 | the closed and open sums split over concatenation |
| LegacyPortfolios.SummaryAgrees | pricing/portfolio.py:35-52 | summary ok iff every position priced, global P&L ok iff every open one is; one row per position in order, global = open + closed, the column sums to global_pnl |
| LegacyPortfolios.TotalsAgree | pricing/portfolio.py:18-33 | failure conditions of the sums; global = open + closed; closed zero-quantity positions add nothing |
| LegacyPortfolios.RemoveFirstTakesOne | pricing/portfolio.py:13-16 | removal takes out exactly the first occurrence (multiset minus one), no-op when absent |
| LegacyPortfolios.RemoveTakesOutRealised | pricing/portfolio.py:13-24 | removing a held position takes its closed_pnl out of get_closed_pnl |
| LegacyPortfolios.LegacyPortfolio.constructor | pricing/portfolio.py:4-7 | empty list, open and closed P&L 0 |
| LegacyPortfolios.LegacyPortfolio.AddPosition | pricing/portfolio.py:9-11 | appends at the end |
| LegacyPortfolios.LegacyPortfolio.RemovePosition | pricing/portfolio.py:13-16 | the list becomes `RemoveFirst` of the old |
| LegacyPortfolios.LegacyPortfolio.UpdatePortfolio | pricing/portfolio.py:54-56 | nothing changes |
| LegacyPortfolios.LegacyPortfolio.CloseAllPositions | pricing/portfolio.py:58-60 | the list is empty |
| LegacyCore.IndicatorName | backtester/backtester/core.py:41 | a non-empty name is used, otherwise the function's own name |
| LegacyCore.ComputeAfterRegister | backtester/backtester/core.py:36-52 | after register, compute of that name calls the new function, other names compute as before, unregistered is ValueError |
| LegacyCore.Indicator.constructor | backtester/backtester/core.py:33-34 | empty registry |
| LegacyCore.Indicator.Register | backtester/backtester/core.py:36-44 | stores the function under the name and returns it unchanged |
| LegacyCore.Indicator.Compute | backtester/backtester/core.py:46-52 | returns `Computed`: ValueError for an unregistered name, else the function's result |
| LegacyCore.SplitMembership | backtester/backtester/core.py:80-90 | a day is processed iff a non-holiday with market data, unprocessed iff a non-holiday without |
| LegacyCore.SplitKeepsOrder | backtester/backtester/core.py:80-90 | both lists keep calendar order |
| LegacyCore.FrameColumns | backtester/backtester/core.py:92-93 | the concatenated frame has no ref_date column (see Findings) |
| LegacyCore.PeriodPnlAsWrittenRaises | backtester/backtester/core.py:97 | grouping by ref_date raises KeyError for every summary |
| LegacyCore.PeriodPnlAppendBatch | backtester/backtester/core.py:97-99 | recording a new date's rows adds that date with start + the rows' global sum, others unchanged |
| LegacyCore.RecordedDay | backtester/backtester/core.py:92-99 | after a date's summary the period P&L is start + each recorded date's global_pnl |
| LegacyCore.LegacyBacktester.constructor | backtester/backtester/core.py:55-74 | margin = starting balance; the days are every day from start to end; empty registry and state |
| LegacyCore.LegacyBacktester.BuyEquity | pricing/portfolio.py:9-11 | KeyError iff no price; else one new opened equity appended |
| LegacyCore.LegacyBacktester.CloseNth | pricing/positions.py:29-32 | IndexError past the end, else that position's state becomes `Close` of the old (KeyError changes nothing) |
| LegacyCore.LegacyBacktester.RemoveNth | pricing/portfolio.py:13-16 | IndexError past the end, else the list becomes `RemoveFirst` of that position |
| LegacyCore.LegacyBacktester.ExecuteOrder | backtester/backtester/core.py:91 | errors are KeyError or IndexError; close-all empties the list |
| LegacyCore.LegacyBacktester.OnData | backtester/backtester/core.py:91 | on_data runs once for the date; errors are KeyError or IndexError |
| LegacyCore.LegacyBacktester.ProcessDate | backtester/backtester/core.py:85-93 | history and ref_dates gain the date, on_data runs; on success the dated summary rows are appended and the date's global P&L recorded |
| LegacyCore.LegacyBacktester.TakeDay | backtester/backtester/core.py:80-93 | one iteration keeps the walk's invariant: holiday skipped, missing data unprocessed, else processed |
| LegacyCore.LegacyBacktester.WalkProcess | backtester/backtester/core.py:84-93 | a processed day keeps the walk's invariant, the period P&L staying start + daily global P&L |
| LegacyCore.LegacyBacktester.Backtest | backtester/backtester/core.py:76-99 | ref_dates = processed days in order, unprocessed = days without data, on_data once per processed day, history holds them; period P&L absent iff no rows, else start + per-date global_pnl |
| LegacyCore.LegacyBacktester.GetDataAt | backtester/backtester/core.py:101-113 | exactly the non-holiday days of the run not after ref_date that have data, each with its snapshot |

## Left out

- Market data loading (`MarketDataHandler`, `MarketData`, `backtester/data_handler.py`, `backtester/data/build.py`, `backtester/market/preprocessing.py`) is outside the core: the market is a map from date to snapshot given to each engine's constructor.
- ISO date strings, `date` objects and QuantLib dates are all one day number, and `WellKeyed` states that each snapshot is keyed by its own date. The one place where the text form changes the outcome, the margin engine's option valuation, is modelled as its `TypeError`.
- The engine's `market_data[d][self.frequency]` and the grid's `['EOD']` level are one snapshot per date.
- Black-Scholes-Merton pricing with QuantLib and the volatility interpolation with scipy (`backtester/core/position.py:100-132`, `pricing/positions.py:67-91`) are foreign numerics: each snapshot carries the analytic price as a function, and the older option valuation takes it as a parameter.
- The TARGET holiday calendar is a parameter `isHoliday`.
- `random.randint` in `TradeId.generate` is a choice of any free five-digit id; when all 90000 are taken the model returns `IdSpaceExhausted`, where the source would loop forever.
- `on_data` is abstract user code; it is a parameter returning orders: trade or close-by-filter in the engine, trade or `close_Trade` of the first matching position in the margin engine, buy, close, remove or close-all in the older engine.
- `print` output is not modelled; `exit()` is the `SystemExit` outcome.
- pandas frames are sequences of row records; `period_pnl` is a map from date to value (the `reset_index` and `rename` column naming is not modelled).
- Factors (`_compute_all_factors`, `factor_data`, `factors_history`, `backtester/core/engine.py:110-139,174,178`), `prices_to_df` and `history_to_dataframe` are pandas plumbing.
- Performance statistics and plotting (`performance.py`) are not part of this model.
- Each engine's `Backtest` models the first run of a freshly constructed engine.
- Floats are reals: no rounding.
- Engine.Backtester.OnData: states that on_data ran once for the date and which positions can be present, not what the strategy's orders did, because the orders are arbitrary; each order's effect is stated by Engine.Backtester.ExecuteOrder.
- MarginEngine.MarginBacktester.OnData: states only that the ledger keeps its dates and which positions can be present; the orders' effects are stated by Trade, Admit and CloseTrade.
- MarginEngine.MarginBacktester.ExecuteOrder: states the ledger dates and the IndexError case, not the per-order effect, which Trade and CloseTrade state.
- MarginEngine.MarginBacktester.ProcessDate: states the entry a date is seeded with (`opening`), not the entry left after its trades, which Admit and CloseTrade state order by order.
- MarginEngine.MarginBacktester.RunDates: does not restate each date's ledger entry and summary rows; EnterDate, Admit, CloseTrade, FinishOnDate and RecordSummary state them per date.
- MarginEngine.MarginBacktester.Backtest: does not state the summary rows date by date, for the same reason.
- LegacyCore.LegacyBacktester.OnData: states that on_data ran once and the error kinds, not what the arbitrary orders did; BuyEquity, CloseNth and RemoveNth state each order's effect.
- LegacyCore.LegacyBacktester.ExecuteOrder: states the error kinds and close-all; the other orders' effects are stated by BuyEquity, CloseNth and RemoveNth.

## Findings

| source | as written | input that shows it | evidently intended | confidence | as-written member | corrected member |
|---|---|---|---|---|---|---|
| backtester/core/position.py:44-49 | `close_position` stores `calculate_pnl`, which for an open option on or after expiry first settles it (storing the payoff P&L) and then returns 0; that 0 overwrites the payoff P&L | a long call, strike 10, entry 1, one unit, closed on its expiry date with the close at 15: realised P&L 0 | the settlement stands: realised P&L 4, the position's global P&L | high; not executed | Positions.CloseAsWrittenDropsPayoff | Positions.CloseRealisesGlobalPnl |
| examples/debug.py:134 | `side == 1` compares a `PositionType` member with the integer 1, which a plain `Enum` never equals, so every position commits 0.2 * initial_ctv | a long equity of countervalue 20 with a ledger entry of 10: commits 4 and is admitted | a long commits its whole initial countervalue (20) and is refused | high; not executed | MarginEngine.LongTradeAdmittedAsWritten | MarginEngine.Commitment |
| backtester/backtester/core.py:97 | the summary rows of `pricing/portfolio.py` have no `ref_date` column (an empty frame has no columns at all), so `groupby('ref_date')` raises KeyError after every walk | any run, with or without rows | the per-date sum of `global_pnl` plus the starting balance, as the later engine computes it from dated rows | high; not executed | LegacyCore.PeriodPnlAsWrittenRaises | LegacyCore.PeriodPnlAppendBatch |

The model uses the corrected behaviour:

- `Positions.Close` (used by `Position.ClosePosition`) keeps the settlement, and `Positions.CloseAsWritten` is the code as written.
- `MarginEngine.Commitment` (used by `Admit`) is the intended commitment, and `MarginEngine.CommitmentAsWritten` is the comparison as written.
- The older backtester records each summary row with its date (`DatedRow`). Its period P&L is `LegacyPeriodPnl`, and it is left unset when there are no rows, as in the later engine.
