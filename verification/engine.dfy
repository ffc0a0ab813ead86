/**
 * The backtest engine (backtester/core/engine.py): builds the calendar of
 * the run, filters it into processed and unprocessed dates, then walks the
 * processed dates calling the strategy, force-closes everything on the last
 * date, and records a summary, a balance per date and a period P&L series.
 *
 * The strategy (`on_data`, abstract in the source) is a parameter that
 * looks at the date and the positions and returns the orders it places; the
 * holiday calendar is a parameter too.
 */
module Engine {
  import opened Outcomes
  import opened Enums
  import opened Calendar
  import opened Market
  import opened DateGrid
  import opened Positions
  import opened Portfolios

  /** What a strategy asks for from on_data: a trade, or closing the positions on a (ticker, asset type). */
  datatype Order =
    | Trade(ticker: string, quantity: real, assetType: AssetType, side: PositionType)
    | CloseAll(ticker: string, assetType: AssetType)

  type Strategy = (Date, seq<PositionState>) -> seq<Order>

  /** The longest prefix of the dates that are not after `refDate` (get_history stops at the first later one). */
  function NotAfter(ds: seq<Date>, refDate: Date): (r: seq<Date>)
    ensures |r| <= |ds| && r == ds[..|r|]
    ensures forall d :: d in r ==> d <= refDate
    ensures |r| < |ds| ==> ds[|r|] > refDate
  {
    if ds == [] || ds[0] > refDate then []
    else
      var rest := NotAfter(ds[1..], refDate);
      assert ds[1..][..|rest|] == ds[1..|rest| + 1];
      [ds[0]] + rest
  }

  /** On dates in calendar order, get_history's dates are exactly those not after `refDate`. */
  lemma {:induction false} NotAfterSelects(ds: seq<Date>, refDate: Date)
    requires StrictlyIncreasing(ds)
    ensures forall d :: d in NotAfter(ds, refDate) <==> d in ds && d <= refDate
  {
    var r := NotAfter(ds, refDate);
    IncreasingPairs(ds);
    forall d | d in ds && d <= refDate
      ensures d in r
    {
      var k :| 0 <= k < |ds| && ds[k] == d;
      assert |r| < |ds| ==> ds[|r|] > refDate;
      assert r[k] == d;
    }
  }

  /** A walk that went through the first `i` dates and stopped before the next one took exactly NotAfter's dates. */
  lemma NotAfterStopsAt(ds: seq<Date>, refDate: Date, i: nat)
    requires i <= |ds| && forall k :: 0 <= k < i ==> ds[k] <= refDate
    ensures i <= |NotAfter(ds, refDate)|
    ensures i < |ds| && ds[i] > refDate ==> NotAfter(ds, refDate) == ds[..i]
    ensures i == |ds| ==> NotAfter(ds, refDate) == ds
  {
    var r := NotAfter(ds, refDate);
    assert i < |r| ==> r[i] == ds[i] && r[i] in r;
  }

  /**
   * The snapshots of the dates not after `refDate` (the walk stops at the
   * first later date); a date without a snapshot is a KeyError.
   */
  function HistoryUpTo(dates: seq<Date>, market: map<Date, Snapshot>, refDate: Date): Result<map<Date, Snapshot>> {
    var ds := NotAfter(dates, refDate);
    if forall d :: d in ds ==> d in market then Ok(map d | d in ds :: market[d]) else Err(KeyError)
  }

  /**
   * On dates in calendar order the history holds exactly the dates not
   * after `refDate`, each with its own snapshot.
   */
  lemma HistorySelects(dates: seq<Date>, market: map<Date, Snapshot>, refDate: Date)
    requires StrictlyIncreasing(dates)
    ensures var r := HistoryUpTo(dates, market, refDate);
      && (r.Ok? <==> forall d :: d in dates && d <= refDate ==> d in market)
      && (r.Ok? ==> forall d :: d in r.value <==> d in dates && d <= refDate)
      && (r.Ok? ==> forall d :: d in r.value ==> r.value[d] == market[d])
  {
    NotAfterSelects(dates, refDate);
  }

  /** The walk of get_history (and of get_data_at in the margin engine) over the processed dates. */
  method CollectHistory(dates: seq<Date>, market: map<Date, Snapshot>, refDate: Date)
    returns (r: Result<map<Date, Snapshot>>)
    ensures r == HistoryUpTo(dates, market, refDate)
  {
    var h: map<Date, Snapshot> := map[];
    var i := 0;
    while i < |dates|
      invariant 0 <= i <= |dates|
      invariant forall k :: 0 <= k < i ==> dates[k] <= refDate && dates[k] in market
      invariant forall d :: d in h <==> d in dates[..i]
      invariant forall d :: d in h ==> d in market && h[d] == market[d]
    {
      var d := dates[i];
      if d > refDate {
        break;
      }
      if d !in market {
        NotAfterStopsAt(dates, refDate, i + 1);
        assert NotAfter(dates, refDate)[i] == d;
        return Err(KeyError);
      }
      h := h[d := market[d]];
      assert dates[..i + 1] == dates[..i] + [d];
      i := i + 1;
    }
    WalkedHistory(dates, market, refDate, i, h);
    r := Ok(h);
  }

  /** A walk that stopped after `i` dates, each with a snapshot, collected get_history's map. */
  lemma WalkedHistory(dates: seq<Date>, market: map<Date, Snapshot>, refDate: Date, i: nat, h: map<Date, Snapshot>)
    requires i <= |dates| && (i < |dates| ==> dates[i] > refDate)
    requires forall k :: 0 <= k < i ==> dates[k] <= refDate && dates[k] in market
    requires forall d :: d in h <==> d in dates[..i]
    requires forall d :: d in h ==> d in market && h[d] == market[d]
    ensures HistoryUpTo(dates, market, refDate) == Ok(h)
  {
    NotAfterStopsAt(dates, refDate, i);
    assert dates[..|dates|] == dates;
    ghost var ds := NotAfter(dates, refDate);
    assert ds == dates[..i];
    assert forall d :: d in h <==> d in ds;
    assert h == map d | d in ds :: market[d];
  }

  /**
   * One more date's rows: when the new date `d` follows every date done so
   * far and its batch carries `d`, the balances of the earlier dates still
   * match their rows and `d`'s balance is the batch's global P&L.
   */
  lemma BalanceStep(done: seq<Date>, d: Date, earlier: seq<SummaryRow>, batch: seq<SummaryRow>,
                    before: map<Date, real>, startingBalance: real)
    requires forall e :: e in done ==> e < d
    requires forall j :: 0 <= j < |earlier| ==> earlier[j].refDate in done
    requires forall j :: 0 <= j < |batch| ==> batch[j].refDate == d
    requires forall e :: e in done ==> e in before && before[e] == startingBalance + GlobalOn(earlier, e)
    ensures var after := before[d := startingBalance + GlobalColumnSum(batch)];
      && (forall e :: e in done + [d] ==> e in after && after[e] == startingBalance + GlobalOn(earlier + batch, e))
      && (forall j :: 0 <= j < |earlier + batch| ==> (earlier + batch)[j].refDate in done + [d])
  {
    forall e | e in done + [d]
      ensures GlobalOn(earlier + batch, e) == (if e == d then GlobalColumnSum(batch) else GlobalOn(earlier, e))
    {
      GlobalOnAppend(earlier, batch, e);
      GlobalOnBatch(batch, e);
      GlobalOnBatch(earlier, e);
    }
  }

  /**
   * Each of the first `n` dates was summarized at its snapshot with every
   * open position quoted, and its balance is the starting balance plus the
   * portfolio's global P&L at that snapshot.
   */
  ghost predicate BalancedOn(dates: seq<Date>, n: nat, summarized: map<Date, seq<PositionState>>, balance: map<Date, real>,
                             market: map<Date, Snapshot>, startingBalance: real)
    requires n <= |dates|
  {
    forall k :: 0 <= k < n ==>
      && dates[k] in summarized && dates[k] in market && dates[k] in balance
      && AllReady(summarized[dates[k]], market[dates[k]], WhenOpen)
      && balance[dates[k]] == startingBalance + GlobalSum(summarized[dates[k]], market[dates[k]])
  }

  /** A new date after every date done so far keeps the earlier dates balanced and balances itself. */
  lemma BalancedStep(dates: seq<Date>, i: nat, z0: map<Date, seq<PositionState>>, z1: map<Date, seq<PositionState>>,
                     b0: map<Date, real>, b1: map<Date, real>, market: map<Date, Snapshot>, startingBalance: real)
    requires StrictlyIncreasing(dates) && i < |dates|
    requires BalancedOn(dates, i, z0, b0, market, startingBalance)
    requires dates[i] in z1 && z1 == z0[dates[i] := z1[dates[i]]] && dates[i] in market
    requires AllReady(z1[dates[i]], market[dates[i]], WhenOpen)
    requires b1 == b0[dates[i] := startingBalance + GlobalSum(z1[dates[i]], market[dates[i]])]
    ensures BalancedOn(dates, i + 1, z1, b1, market, startingBalance)
  {
    forall k | 0 <= k < i
      ensures dates[k] != dates[i]
    {
      IncreasingFrom(dates, k, i);
    }
  }

  /**
   * One more date of the run: when the first `i` dates are done with the
   * summary `earlier`, the balances `before` and the summarized states `z0`,
   * and the `i`-th date's rows `rows`, appended to give `summary`, carry that
   * date and add up to the global P&L of its summarized positions in `z1`,
   * whose balance `b1` records, then the first `i + 1` dates are done.
   */
  lemma DoneStep(dates: seq<Date>, i: nat, market: map<Date, Snapshot>, startingBalance: real,
                 earlier: seq<SummaryRow>, rows: seq<SummaryRow>, summary: seq<SummaryRow>,
                 before: map<Date, real>, b1: map<Date, real>,
                 z0: map<Date, seq<PositionState>>, z1: map<Date, seq<PositionState>>)
    requires StrictlyIncreasing(dates) && i < |dates| && dates[i] in market
    requires forall j :: 0 <= j < |earlier| ==> earlier[j].refDate in dates[..i]
    requires forall e :: e in dates[..i] ==> e in before && before[e] == startingBalance + GlobalOn(earlier, e)
    requires BalancedOn(dates, i, z0, before, market, startingBalance)
    requires dates[i] in z1 && z1 == z0[dates[i] := z1[dates[i]]] && AllReady(z1[dates[i]], market[dates[i]], WhenOpen)
    requires GlobalColumnSum(rows) == GlobalSum(z1[dates[i]], market[dates[i]])
    requires b1 == before[dates[i] := startingBalance + GlobalSum(z1[dates[i]], market[dates[i]])]
    requires market[dates[i]].refDate == dates[i] && forall j :: 0 <= j < |rows| ==> rows[j].refDate == market[dates[i]].refDate
    requires summary == earlier + rows
    ensures forall j :: 0 <= j < |summary| ==> summary[j].refDate in dates[..i + 1]
    ensures forall d :: d in dates[..i + 1] ==> d in b1 && b1[d] == startingBalance + GlobalOn(summary, d)
    ensures BalancedOn(dates, i + 1, z1, b1, market, startingBalance)
  {
    var d := dates[i];
    IncreasingAt(dates, i);
    TakeOneMore(dates, i);
    BalanceStep(dates[..i], d, earlier, rows, before, startingBalance);
    BalancedStep(dates, i, z0, z1, before, b1, market, startingBalance);
  }

  /**
   * The run's bookkeeping: the summary rows so far, the balance of each
   * date and, for each date summarized, the positions as they stood then.
   */
  datatype Ledger = Ledger(summary: seq<SummaryRow>, balance: map<Date, real>, summarized: map<Date, seq<PositionState>>)

  /**
   * Date `d` was booked at snapshot `m` with the rows `rows`, taking the
   * ledger from `before` to `after`: the date's positions were kept, with
   * every open one quoted, the rows were appended, they carry the
   * snapshot's date and add up to the portfolio's global P&L, and the
   * date's balance is the starting balance plus that P&L.
   */
  ghost predicate Booked(d: Date, m: Snapshot, rows: seq<SummaryRow>, before: Ledger, after: Ledger, startingBalance: real)
  {
    && d in after.summarized && after.summarized == before.summarized[d := after.summarized[d]]
    && AllReady(after.summarized[d], m, WhenOpen)
    && GlobalColumnSum(rows) == GlobalSum(after.summarized[d], m)
    && after.summary == before.summary + rows
    && after.balance == before.balance[d := startingBalance + GlobalSum(after.summarized[d], m)]
    && (forall j :: 0 <= j < |rows| ==> rows[j].refDate == m.refDate)
  }

  /**
   * Date `d` was summarized at snapshot `m` into `rows`: it was booked, and
   * the rows are the summary of the positions kept for it, every one of
   * them quoted.
   */
  ghost predicate Recorded(d: Date, m: Snapshot, rows: seq<SummaryRow>, before: Ledger, after: Ledger, startingBalance: real)
  {
    && Booked(d, m, rows, before, after, startingBalance)
    && AllReady(after.summarized[d], m, Always)
    && rows == Summary(after.summarized[d], m)
  }

  /**
   * The last date `d` closed the positions `ss` at snapshot `m`, leaving
   * `states`, and summarized them into `rows`: every position was quoted,
   * the summary was taken of the closed positions, and its global P&L is
   * their realised P&L, which is the global P&L of `ss` when their figures
   * were consistent.
   */
  ghost predicate ClosedOutAt(d: Date, m: Snapshot, rows: seq<SummaryRow>, ss: seq<PositionState>,
                              states: seq<PositionState>, summarized: map<Date, seq<PositionState>>)
  {
    && AllReady(ss, m, WhenOpen)
    && d in summarized && summarized[d] == CloseUpTo(ss, m, |ss|)
    && AllClosed(states) && states == summarized[d]
    && GlobalColumnSum(rows) == ClosedPnlSum(states)
    && (AllConsistent(ss) ==> GlobalColumnSum(rows) == GlobalSum(ss, m))
  }

  /**
   * The first `i` of the run's dates are done: they are the reference dates
   * so far, on_data ran on each of them but the run's last date, every
   * summary row carries one of them, and each one's balance is the starting
   * balance plus its rows' global P&L, which is the portfolio's global P&L
   * at its snapshot.
   */
  ghost predicate RunDone(dates: seq<Date>, i: nat, refs: seq<Date>, onData: seq<Date>, book: Ledger,
                          market: map<Date, Snapshot>, startingBalance: real)
    requires 0 < |dates| && i <= |dates|
  {
    && refs == dates[..i]
    && onData == dates[..if i < |dates| then i else |dates| - 1]
    && (forall j :: 0 <= j < |book.summary| ==> book.summary[j].refDate in dates[..i])
    && (forall d :: d in dates[..i] ==> d in book.balance && book.balance[d] == startingBalance + GlobalOn(book.summary, d))
    && BalancedOn(dates, i, book.summarized, book.balance, market, startingBalance)
  }

  /** Booking the next date of the run, with its reference and on_data dates added, makes one more date done. */
  lemma RunStep(dates: seq<Date>, i: nat, market: map<Date, Snapshot>, startingBalance: real, rows: seq<SummaryRow>,
                before: Ledger, after: Ledger, refs: seq<Date>, onData: seq<Date>)
    requires WellKeyed(market) && StrictlyIncreasing(dates) && i < |dates| && dates[i] in market
    requires RunDone(dates, i, dates[..i], dates[..i], before, market, startingBalance)
    requires Booked(dates[i], market[dates[i]], rows, before, after, startingBalance)
    requires refs == dates[..i] + [dates[i]]
    requires onData == dates[..i] + (if i == |dates| - 1 then [] else [dates[i]])
    ensures RunDone(dates, i + 1, refs, onData, after, market, startingBalance)
  {
    DoneStep(dates, i, market, startingBalance, before.summary, rows, after.summary, before.balance, after.balance,
             before.summarized, after.summarized);
    TakeOneMore(dates, i);
    if i + 1 == |dates| {
      assert onData == dates[..i];
    }
  }

  /**
   * All the run's dates done: they are all the reference dates, on_data ran
   * on all but the last, every row carries one of them, and each date's
   * balance is both the starting balance plus its rows' global P&L and the
   * starting balance plus the portfolio's global P&L at its snapshot.
   */
  lemma RunFinished(dates: seq<Date>, refs: seq<Date>, onData: seq<Date>, book: Ledger,
                    market: map<Date, Snapshot>, startingBalance: real)
    requires 0 < |dates| && RunDone(dates, |dates|, refs, onData, book, market, startingBalance)
    ensures refs == dates && onData == dates[..|dates| - 1]
    ensures forall j :: 0 <= j < |book.summary| ==> book.summary[j].refDate in dates
    ensures forall d :: d in dates ==> d in book.balance && book.balance[d] == startingBalance + GlobalOn(book.summary, d)
    ensures forall d :: d in dates ==>
      && d in book.summarized && d in market && d in book.balance
      && AllReady(book.summarized[d], market[d], WhenOpen)
      && book.balance[d] == startingBalance + GlobalSum(book.summarized[d], market[d])
  {
    assert dates[..|dates|] == dates;
    forall d | d in dates
      ensures d in book.summarized && d in market && d in book.balance
      ensures AllReady(book.summarized[d], market[d], WhenOpen)
      ensures book.balance[d] == startingBalance + GlobalSum(book.summarized[d], market[d])
    {
      var k :| 0 <= k < |dates| && dates[k] == d;
    }
  }

  /** The summed global P&L of the summary rows of one reference date. */
  function GlobalOn(rows: seq<SummaryRow>, d: Date): real {
    if rows == [] then 0.0
    else
      var last := rows[|rows| - 1];
      GlobalOn(rows[..|rows| - 1], d) + (if last.refDate == d then last.globalPnl else 0.0)
  }

  /** The reference dates that have summary rows. */
  function RowDates(rows: seq<SummaryRow>): set<Date> {
    set j | 0 <= j < |rows| :: rows[j].refDate
  }

  /** period_pnl: per reference date, the summed global P&L plus the starting balance. */
  function PeriodPnl(rows: seq<SummaryRow>, startingBalance: real): map<Date, real> {
    map d | d in RowDates(rows) :: startingBalance + GlobalOn(rows, d)
  }

  /** Grouping by date splits over a concatenation. */
  lemma {:induction false} GlobalOnAppend(a: seq<SummaryRow>, b: seq<SummaryRow>, d: Date)
    ensures GlobalOn(a + b, d) == GlobalOn(a, d) + GlobalOn(b, d)
    decreases |b|
  {
    if b == [] {
      assert a + b == a;
    } else {
      assert (a + b)[..|a + b| - 1] == a + b[..|b| - 1];
      GlobalOnAppend(a, b[..|b| - 1], d);
    }
  }

  /** A date with no rows sums to 0; a batch whose rows all carry the date sums to its whole global_pnl column. */
  lemma {:induction false} GlobalOnBatch(rows: seq<SummaryRow>, d: Date)
    ensures (forall j :: 0 <= j < |rows| ==> rows[j].refDate != d) ==> GlobalOn(rows, d) == 0.0
    ensures (forall j :: 0 <= j < |rows| ==> rows[j].refDate == d) ==> GlobalOn(rows, d) == GlobalColumnSum(rows)
    decreases |rows|
  {
    if rows != [] {
      GlobalOnBatch(rows[..|rows| - 1], d);
    }
  }

  /**
   * When every row's date is a processed date and each processed date's
   * balance is the starting balance plus that date's rows, the period P&L
   * series agrees with the balance on every date it has.
   */
  lemma PeriodPnlMatchesBalance(rows: seq<SummaryRow>, dates: seq<Date>, balance: map<Date, real>, startingBalance: real)
    requires forall j :: 0 <= j < |rows| ==> rows[j].refDate in dates
    requires forall d :: d in dates ==> d in balance && balance[d] == startingBalance + GlobalOn(rows, d)
    ensures forall d :: d in RowDates(rows) ==> d in dates
    ensures forall d :: d in PeriodPnl(rows, startingBalance) ==> d in balance && PeriodPnl(rows, startingBalance)[d] == balance[d]
  {
  }

  class Backtester {
    const universe: seq<string>
    const startDate: Date
    const endDate: Date
    const startingBalance: real
    const maxLeverage: real
    const frequency: string
    const market: map<Date, Snapshot>
    const isHoliday: Date -> bool
    const strategy: Strategy
    const priceTickers: seq<string>
    const volTickers: seq<string>
    const portfolio: Portfolio
    const ids: TradeIdRegistry
    const backtestDates: seq<Date>

    var validDates: seq<Date>
    var unprocessedDates: seq<Date>
    var firstDate: Date
    var lastDate: Date
    var balance: map<Date, real>
    var refDates: seq<Date>
    var history: map<Date, Snapshot>
    var positionsSummary: seq<SummaryRow>
    var periodPnl: Optional<map<Date, real>>
    /** The dates on which on_data ran, in order. */
    ghost var onDataDates: seq<Date>
    /** For each processed date, the positions as they stood when the date's summary was taken. */
    ghost var summarized: map<Date, seq<PositionState>>

    /** Every position has a distinct trade id, and each was handed out by the shared registry. */
    ghost predicate Valid()
      reads portfolio, ids
    {
      && portfolio.Valid()
      && forall k :: 0 <= k < |portfolio.positions| ==> portfolio.positions[k].tradeId in ids.existing
    }

    /** The run's bookkeeping as it stands. */
    ghost function Book(): Ledger
      reads this
    {
      Ledger(positionsSummary, balance, summarized)
    }

    /**
     * __init__: the run's calendar is every day from start to end; the price
     * tickers are the universe and there are no volatility tickers. The
     * market is loaded by the data layer and arrives as a parameter.
     */
    constructor (universe: seq<string>, startDate: Date, endDate: Date, startingBalance: real,
                 maxLeverage: real, frequency: string, market: map<Date, Snapshot>,
                 isHoliday: Date -> bool, strategy: Strategy, ids: TradeIdRegistry)
      ensures backtestDates == Span(startDate, endDate) && StrictlyIncreasing(backtestDates)
      ensures priceTickers == universe && volTickers == []
      ensures validDates == [] && unprocessedDates == [] && refDates == [] && onDataDates == []
      ensures summarized == map[]
      ensures balance == map[] && history == map[] && positionsSummary == [] && periodPnl == Absent
      ensures fresh(portfolio) && portfolio.positions == [] && this.ids == ids
      ensures this.market == market && this.frequency == frequency && this.strategy == strategy
      ensures this.isHoliday == isHoliday && this.startingBalance == startingBalance
      ensures Valid()
    {
      this.universe := universe;
      this.startDate := startDate;
      this.endDate := endDate;
      var dates := DatesBetween(startDate, endDate);
      this.backtestDates := dates;
      SpanIncreasing(startDate, endDate);
      this.startingBalance := startingBalance;
      this.balance := map[];
      this.maxLeverage := maxLeverage;
      this.frequency := frequency;
      this.portfolio := new Portfolio();
      this.validDates := [];
      this.unprocessedDates := [];
      this.history := map[];
      this.positionsSummary := [];
      this.periodPnl := Absent;
      this.priceTickers := universe;
      this.volTickers := [];
      this.market := market;
      this.isHoliday := isHoliday;
      this.strategy := strategy;
      this.ids := ids;
      this.refDates := [];
      this.onDataDates := [];
      this.summarized := map[];
    }

    /** The grid of the run's calendar on this engine's market and tickers. */
    function RunGrid(): Grid
    {
      GridOf(backtestDates, market, priceTickers, volTickers, isHoliday)
    }

    /** _create_date_grid: only the end-of-day frequency builds a grid; its dates are appended. */
    method CreateDateGrid()
      modifies this`validDates, this`unprocessedDates
      ensures validDates == old(validDates) + (if frequency == "EOD" then RunGrid().valid else [])
      ensures unprocessedDates == old(unprocessedDates) + (if frequency == "EOD" then RunGrid().unprocessed else [])
    {
      if frequency == "EOD" {
        var valid, unprocessed := DateGrid.CreateDateGrid(backtestDates, market, priceTickers, volTickers, isHoliday);
        validDates := validDates + valid;
        unprocessedDates := unprocessedDates + unprocessed;
      }
    }

    /** _on_start: build the grid; no processed date is a ValueError; otherwise record the first and last one. */
    method OnStart() returns (r: Result<()>)
      modifies this`validDates, this`unprocessedDates, this`firstDate, this`lastDate
      ensures validDates == old(validDates) + (if frequency == "EOD" then RunGrid().valid else [])
      ensures unprocessedDates == old(unprocessedDates) + (if frequency == "EOD" then RunGrid().unprocessed else [])
      ensures r.Ok? <==> validDates != []
      ensures r.Err? ==> r.error == ValueError
      ensures r.Ok? ==> firstDate == validDates[0] && lastDate == validDates[|validDates| - 1]
    {
      CreateDateGrid();
      if validDates == [] {
        return Err(ValueError);
      }
      firstDate := validDates[0];
      lastDate := validDates[|validDates| - 1];
      r := Ok(());
    }

    /**
     * trade: an equity order opens an EquityPosition at the snapshot and
     * appends it; any other asset type is a ValueError. There is no margin
     * check. Opening draws a trade id before it values the position, so
     * a trade that fails for a missing close still uses up its id.
     */
    method Trade(ticker: string, quantity: real, m: Snapshot, assetType: AssetType, side: PositionType)
      returns (r: Result<()>)
      requires Valid()
      modifies ids, portfolio
      ensures Valid()
      ensures r.Ok? <==> assetType == Equity && old(ids.HasFree()) && EntryQuoted(ticker, EquityContract, m)
      ensures assetType != Equity ==> r == Err(ValueError)
      ensures assetType == Equity && !old(ids.HasFree()) ==> r == Err(IdSpaceExhausted)
      ensures assetType == Equity && old(ids.HasFree()) && r.Err? ==> r == Err(KeyError)
      ensures assetType != Equity || !old(ids.HasFree()) ==> ids.existing == old(ids.existing)
      ensures assetType == Equity && old(ids.HasFree()) ==> AddsOneId(old(ids.existing), ids.existing)
      ensures r.Err? ==> portfolio.positions == old(portfolio.positions)
      ensures r.Ok? ==>
        && |portfolio.positions| == |old(portfolio.positions)| + 1
        && portfolio.positions[..|old(portfolio.positions)|] == old(portfolio.positions)
        && var p := portfolio.positions[|portfolio.positions| - 1];
          && fresh(p)
          && p.tradeId !in old(ids.existing) && ids.existing == old(ids.existing) + {p.tradeId}
          && p.State() == Opened(p.tradeId, ticker, EquityContract, quantity, m, side)
    {
      if assetType != Equity {
        return Err(ValueError);
      }
      if !ids.HasFree() {
        return Err(IdSpaceExhausted);
      }
      var id, created := NewPosition(ids, ticker, EquityContract, quantity, m, side);
      if created.Err? {
        return Err(created.error);
      }
      portfolio.AddPosition(created.value);
      r := Ok(());
    }

    /** Carry out one order of the strategy on the date's snapshot. */
    method ExecuteOrder(o: Order, m: Snapshot) returns (r: Result<()>)
      requires Valid()
      modifies ids, portfolio, portfolio.positions
      ensures Valid()
      ensures forall k :: 0 <= k < |portfolio.positions| ==> portfolio.positions[k] in old(portfolio.positions) || fresh(portfolio.positions[k])
      ensures o.Trade? ==>
        && |portfolio.positions| >= |old(portfolio.positions)|
        && old(portfolio.States()) == portfolio.States()[..|old(portfolio.positions)|]
        && (r.Ok? <==> o.assetType == Equity && old(ids.HasFree()) && EntryQuoted(o.ticker, EquityContract, m))
        && (o.assetType != Equity ==> r == Err(ValueError))
        && (o.assetType == Equity && !old(ids.HasFree()) ==> r == Err(IdSpaceExhausted))
        && (o.assetType == Equity && old(ids.HasFree()) && r.Err? ==> r == Err(KeyError))
        && (o.assetType != Equity || !old(ids.HasFree()) ==> ids.existing == old(ids.existing))
        && (o.assetType == Equity && old(ids.HasFree()) ==> AddsOneId(old(ids.existing), ids.existing))
        && (r.Err? ==> portfolio.positions == old(portfolio.positions))
      ensures o.Trade? && r.Ok? ==>
        && |portfolio.positions| == |old(portfolio.positions)| + 1
        && var p := portfolio.positions[|old(portfolio.positions)|];
          && fresh(p)
          && p.tradeId !in old(ids.existing) && ids.existing == old(ids.existing) + {p.tradeId}
          && p.State() == Opened(p.tradeId, o.ticker, EquityContract, o.quantity, m, o.side)
      ensures o.CloseAll? ==>
        && portfolio.positions == old(portfolio.positions) && ids.existing == old(ids.existing)
        && var n := ReadyPrefix(old(portfolio.States()), m, WhenOpenMatching(o.ticker, o.assetType));
          && (r.Ok? <==> n == |old(portfolio.positions)|)
          && portfolio.States() == CloseMatchingUpTo(old(portfolio.States()), m, o.ticker, o.assetType, n)
    {
      match o
      case Trade(ticker, quantity, assetType, side) =>
        ghost var before := portfolio.States();
        r := Trade(ticker, quantity, m, assetType, side);
        assert portfolio.States()[..|before|] == before;
      case CloseAll(ticker, assetType) =>
        r := portfolio.ClosePositions(ticker, assetType, m);
    }

    /**
     * get_history: the snapshots of the processed dates up to `refDate`,
     * stopping at the first later date; a date without a snapshot is a KeyError.
     */
    method GetHistory(refDate: Date) returns (r: Result<map<Date, Snapshot>>)
      ensures r == HistoryUpTo(validDates, market, refDate)
    {
      r := CollectHistory(validDates, market, refDate);
    }

    /** on_data on a date other than the last: ask the strategy for orders and carry them out in order. */
    method OnData(d: Date, m: Snapshot) returns (r: Result<()>)
      requires Valid()
      modifies this`onDataDates, ids, portfolio, portfolio.positions
      ensures Valid()
      ensures onDataDates == old(onDataDates) + [d]
      ensures forall k :: 0 <= k < |portfolio.positions| ==> portfolio.positions[k] in old(portfolio.positions) || fresh(portfolio.positions[k])
    {
      onDataDates := onDataDates + [d];
      var orders := strategy(d, portfolio.States());
      var j := 0;
      while j < |orders|
        invariant 0 <= j <= |orders| && Valid()
        invariant onDataDates == old(onDataDates) + [d]
        invariant forall k :: 0 <= k < |portfolio.positions| ==> portfolio.positions[k] in old(portfolio.positions) || fresh(portfolio.positions[k])
      {
        var done := ExecuteOrder(orders[j], m);
        if done.Err? {
          return Err(done.error);
        }
        j := j + 1;
      }
      r := Ok(());
    }

    /**
     * The last date: close_all_positions at its snapshot, closing the open
     * positions in order until one lacks a quote (KeyError). When it runs
     * through nothing is open, and the realised P&L is the global P&L the
     * positions had at that snapshot.
     */
    method CloseOut(m: Snapshot) returns (r: Result<()>)
      requires Valid()
      modifies portfolio.positions
      ensures var ss, n := old(portfolio.States()), ReadyPrefix(old(portfolio.States()), m, WhenOpen);
        && (r.Ok? <==> n == |ss|)
        && (r.Err? ==> r.error == KeyError)
        && portfolio.States() == CloseUpTo(ss, m, n)
      ensures r.Ok? ==> AllClosed(portfolio.States())
      ensures r.Ok? && AllConsistent(old(portfolio.States())) ==>
        ClosedPnlSum(portfolio.States()) == GlobalSum(old(portfolio.States()), m)
    {
      ghost var ss := portfolio.States();
      r := portfolio.CloseAllPositions(m);
      if r.Ok? {
        forall k | 0 <= k < |ss|
          ensures !portfolio.States()[k].isOpen
        {
          CloseIdempotent(ss[k], m, m);
        }
        if AllConsistent(ss) {
          CloseAllRealises(ss, m, m);
        }
      }
    }

    /**
     * get_positions_summary at the date's snapshot: one row per position,
     * or KeyError at the first position without a quote, the positions
     * before it having been valued. The rows' global P&L is the portfolio's
     * global P&L; when nothing is open, the positions stay as they were and
     * that is the realised P&L.
     */
    method SummarizeDate(m: Snapshot, allClosed: bool) returns (r: Result<seq<SummaryRow>>)
      requires Valid()
      requires allClosed ==> AllClosed(portfolio.States())
      modifies portfolio.positions
      ensures var ss, n := old(portfolio.States()), ReadyPrefix(old(portfolio.States()), m, Always);
        && (r.Ok? <==> n == |ss|)
        && (r.Ok? ==> r.value == Summary(ss, m) && AllReady(ss, m, WhenOpen) && GlobalColumnSum(r.value) == GlobalSum(ss, m))
        && (r.Err? ==> r.error == KeyError)
        && portfolio.States() == RevalueUpTo(ss, m, n)
      ensures r.Ok? ==> forall j :: 0 <= j < |r.value| ==> r.value[j].refDate == m.refDate
      ensures r.Ok? && allClosed ==>
        && portfolio.States() == old(portfolio.States())
        && GlobalColumnSum(r.value) == ClosedPnlSum(portfolio.States())
    {
      ghost var ss := portfolio.States();
      r := portfolio.GetPositionsSummary(m);
      if r.Ok? {
        SummaryOfDate(ss, m);
        SummaryAddsUp(ss, m);
      }
    }

    /**
     * Append the date's summary rows and set the date's balance to the
     * starting balance plus their global P&L (0 without rows). The rows are
     * the summary of the positions `ss` at the snapshot `m`, which the
     * model keeps as the date's summarized positions.
     */
    method RecordRows(d: Date, rows: seq<SummaryRow>, ghost m: Snapshot, ghost ss: seq<PositionState>)
      requires AllReady(ss, m, Always) && AllReady(ss, m, WhenOpen)
      requires rows == Summary(ss, m) && GlobalColumnSum(rows) == GlobalSum(ss, m)
      requires forall j :: 0 <= j < |rows| ==> rows[j].refDate == m.refDate
      modifies this`positionsSummary, this`balance, this`summarized
      ensures positionsSummary == old(positionsSummary) + rows
      ensures balance == old(balance)[d := startingBalance + GlobalColumnSum(rows)]
      ensures summarized == old(summarized)[d := ss]
      ensures Recorded(d, m, rows, old(Book()), Book(), startingBalance)
    {
      positionsSummary := positionsSummary + rows;
      var pnl := if rows == [] then 0.0 else GlobalColumnSum(rows);
      balance := balance[d := startingBalance + pnl];
      summarized := summarized[d := ss];
    }

    /** Record the date's snapshot in the history and the date among the reference dates; a date without a snapshot is a KeyError. */
    method EnterDate(d: Date) returns (r: Result<Snapshot>)
      modifies this`history, this`refDates
      ensures r.Ok? <==> d in market
      ensures r.Err? ==> r.error == KeyError
      ensures r.Ok? ==> r.value == market[d] && history == old(history)[d := market[d]] && refDates == old(refDates) + [d]
    {
      if d !in market {
        return Err(KeyError);
      }
      var m := market[d];
      history := history[d := m];
      refDates := refDates + [d];
      r := Ok(m);
    }

    /**
     * The end of a date's work: take the summary of the positions as they
     * stand, append its rows and set the date's balance to the starting
     * balance plus the rows' global P&L, which is the portfolio's global
     * P&L at the snapshot.
     */
    method SummarizeAndRecord(d: Date, m: Snapshot, allClosed: bool) returns (r: Result<seq<SummaryRow>>)
      requires Valid()
      requires allClosed ==> AllClosed(portfolio.States())
      modifies this`positionsSummary, this`balance, this`summarized, portfolio.positions
      ensures r.Ok? <==> AllReady(old(portfolio.States()), m, Always)
      ensures r.Err? ==> r.error == KeyError && positionsSummary == old(positionsSummary) && balance == old(balance)
      ensures r.Ok? ==> Recorded(d, m, r.value, old(Book()), Book(), startingBalance)
      ensures r.Ok? ==>
        && summarized[d] == old(portfolio.States())
        && portfolio.States() == RevalueUpTo(summarized[d], m, |summarized[d]|)
      ensures r.Ok? && allClosed ==>
        && portfolio.States() == old(portfolio.States())
        && GlobalColumnSum(r.value) == ClosedPnlSum(portfolio.States())
    {
      ghost var ss := portfolio.States();
      r := SummarizeDate(m, allClosed);
      if r.Ok? {
        RecordRows(d, r.value, m, ss);
      }
    }

    /**
     * The last date's work: close every position, then summarize. On
     * success the summary is taken of the closed positions, and its global
     * P&L is their realised P&L.
     */
    method FinishDate(d: Date, m: Snapshot) returns (r: Result<seq<SummaryRow>>)
      requires Valid()
      modifies this`positionsSummary, this`balance, this`summarized, portfolio.positions
      ensures r.Err? ==> r.error == KeyError
      ensures r.Ok? ==> Recorded(d, m, r.value, old(Book()), Book(), startingBalance)
      ensures r.Ok? ==> ClosedOutAt(d, m, r.value, old(portfolio.States()), portfolio.States(), summarized)
    {
      var closed := CloseOut(m);
      if closed.Err? {
        return Err(closed.error);
      }
      r := SummarizeAndRecord(d, m, true);
    }

    /**
     * The work of any other date: on_data, then summarize. On success the
     * summary is taken of the positions on_data left.
     */
    method TradeDate(d: Date, m: Snapshot) returns (r: Result<seq<SummaryRow>>)
      requires Valid()
      modifies this`positionsSummary, this`balance, this`summarized, this`onDataDates
      modifies ids, portfolio, portfolio.positions
      ensures Valid()
      ensures forall k :: 0 <= k < |portfolio.positions| ==> portfolio.positions[k] in old(portfolio.positions) || fresh(portfolio.positions[k])
      ensures onDataDates == old(onDataDates) + [d]
      ensures r.Ok? ==> Recorded(d, m, r.value, old(Book()), Book(), startingBalance)
      ensures r.Ok? ==> portfolio.States() == RevalueUpTo(summarized[d], m, |summarized[d]|)
    {
      var traded := OnData(d, m);
      if traded.Err? {
        return Err(traded.error);
      }
      r := SummarizeAndRecord(d, m, false);
    }

    /**
     * The work of one date at its snapshot: on the last date close every
     * position, on any other call on_data; then record the date's summary
     * and balance. The summary is that of the positions as they stood after
     * that work (`summarized[d]`), so the date's balance is the starting
     * balance plus the portfolio's global P&L at the snapshot.
     */
    method ActOnDate(d: Date, m: Snapshot, isLast: bool) returns (r: Result<seq<SummaryRow>>)
      requires Valid()
      modifies this`positionsSummary, this`balance, this`onDataDates, this`summarized
      modifies ids, portfolio, portfolio.positions
      ensures Valid()
      ensures forall k :: 0 <= k < |portfolio.positions| ==> portfolio.positions[k] in old(portfolio.positions) || fresh(portfolio.positions[k])
      ensures r.Ok? ==> onDataDates == old(onDataDates) + (if isLast then [] else [d])
      ensures r.Ok? ==> Recorded(d, m, r.value, old(Book()), Book(), startingBalance)
      ensures isLast && r.Err? ==> r.error == KeyError
      ensures r.Ok? && isLast ==> ClosedOutAt(d, m, r.value, old(portfolio.States()), portfolio.States(), summarized)
    {
      if isLast {
        r := FinishDate(d, m);
      } else {
        r := TradeDate(d, m);
      }
    }

    /**
     * One date of the backtest loop: record the date's snapshot and the date,
     * then do the date's work. Any error ends the run.
     */
    method ProcessDate(d: Date, isLast: bool) returns (r: Result<seq<SummaryRow>>)
      requires Valid()
      modifies this`history, this`refDates, this`positionsSummary, this`balance, this`onDataDates, this`summarized
      modifies ids, portfolio, portfolio.positions
      ensures Valid()
      ensures forall k :: 0 <= k < |portfolio.positions| ==> portfolio.positions[k] in old(portfolio.positions) || fresh(portfolio.positions[k])
      ensures r.Ok? ==>
        && d in market && history == old(history)[d := market[d]]
        && refDates == old(refDates) + [d]
        && onDataDates == old(onDataDates) + (if isLast then [] else [d])
      ensures r.Ok? ==> Recorded(d, market[d], r.value, old(Book()), Book(), startingBalance)
      ensures r.Ok? && isLast ==> ClosedOutAt(d, market[d], r.value, old(portfolio.States()), portfolio.States(), summarized)
    {
      var entered := EnterDate(d);
      if entered.Err? {
        return Err(entered.error);
      }
      r := ActOnDate(d, entered.value, isLast);
    }

    /**
     * One turn of the loop of backtest: process the `i`-th valid date, the
     * last one closing everything. After the last date the balance of that
     * date is the starting balance plus the realised P&L.
     */
    method StepDate(i: nat) returns (r: Result<()>)
      requires Valid() && WellKeyed(market)
      requires StrictlyIncreasing(validDates) && i < |validDates| && lastDate == validDates[|validDates| - 1]
      requires RunDone(validDates, i, refDates, onDataDates, Book(), market, startingBalance)
      modifies this`history, this`refDates, this`positionsSummary, this`balance, this`onDataDates, this`summarized
      modifies ids, portfolio, portfolio.positions
      ensures Valid()
      ensures forall k :: 0 <= k < |portfolio.positions| ==> portfolio.positions[k] in old(portfolio.positions) || fresh(portfolio.positions[k])
      ensures r.Ok? ==> RunDone(validDates, i + 1, refDates, onDataDates, Book(), market, startingBalance)
      ensures r.Ok? && i + 1 == |validDates| ==>
        && AllClosed(portfolio.States())
        && balance[lastDate] == startingBalance + ClosedPnlSum(portfolio.States())
    {
      var d := validDates[i];
      IncreasingAt(validDates, i);
      ghost var before := Book();
      var step := ProcessDate(d, d == lastDate);
      if step.Err? {
        return Err(step.error);
      }
      RunStep(validDates, i, market, startingBalance, step.value, before, Book(), refDates, onDataDates);
      r := Ok(());
    }

    /**
     * The loop of backtest: process every valid date in order, the last one
     * closing everything instead of calling the strategy; an error ends the walk.
     */
    method RunDates() returns (r: Result<()>)
      requires Valid() && WellKeyed(market)
      requires validDates != [] && StrictlyIncreasing(validDates) && lastDate == validDates[|validDates| - 1]
      requires refDates == [] && onDataDates == [] && positionsSummary == []
      modifies this`history, this`refDates, this`positionsSummary, this`balance, this`onDataDates, this`summarized
      modifies ids, portfolio, portfolio.positions
      ensures Valid()
      ensures r.Ok? ==>
        && RunDone(validDates, |validDates|, refDates, onDataDates, Book(), market, startingBalance)
        && AllClosed(portfolio.States())
        && balance[validDates[|validDates| - 1]] == startingBalance + ClosedPnlSum(portfolio.States())
    {
      var n := |validDates|;
      var i := 0;
      while i < n
        invariant 0 <= i <= n
        invariant Valid()
        invariant forall k :: 0 <= k < |portfolio.positions| ==> portfolio.positions[k] in old(portfolio.positions) || fresh(portfolio.positions[k])
        invariant RunDone(validDates, i, refDates, onDataDates, Book(), market, startingBalance)
        invariant i == n ==>
          && AllClosed(portfolio.States())
          && balance[lastDate] == startingBalance + ClosedPnlSum(portfolio.States())
      {
        r := StepDate(i);
        if r.Err? {
          return;
        }
        i := i + 1;
      }
      r := Ok(());
    }

    /**
     * The start of backtest: _on_start, then an empty summary, no reference
     * dates yet and the starting balance on the first date.
     */
    method BeginRun() returns (r: Result<()>)
      requires StrictlyIncreasing(backtestDates)
      requires validDates == [] && unprocessedDates == []
      modifies this`validDates, this`unprocessedDates, this`firstDate, this`lastDate
      modifies this`positionsSummary, this`refDates, this`balance
      ensures validDates == (if frequency == "EOD" then RunGrid().valid else [])
      ensures unprocessedDates == (if frequency == "EOD" then RunGrid().unprocessed else [])
      ensures r.Ok? <==> validDates != []
      ensures r.Err? ==> r.error == ValueError
      ensures StrictlyIncreasing(validDates)
      ensures r.Ok? ==>
        && lastDate == validDates[|validDates| - 1]
        && positionsSummary == [] && refDates == []
        && balance == old(balance)[validDates[0] := startingBalance]
    {
      ghost var grid := RunGrid();
      GridKeepsOrder(backtestDates, market, priceTickers, volTickers, isHoliday);
      r := OnStart();
      assert validDates == if frequency == "EOD" then grid.valid else [];
      if r.Err? {
        return;
      }
      positionsSummary := [];
      refDates := [];
      balance := balance[firstDate := startingBalance];
    }

    /**
     * The end of backtest: no period P&L without summary rows; otherwise the
     * rows grouped by reference date, each group's global P&L summed and the
     * starting balance added, which is the balance recorded for that date.
     */
    method GroupPeriodPnl()
      requires 0 < |validDates| && RunDone(validDates, |validDates|, refDates, onDataDates, Book(), market, startingBalance)
      requires periodPnl == Absent
      modifies this`periodPnl
      ensures refDates == validDates
      ensures forall d :: d in RowDates(positionsSummary) ==> d in validDates
      ensures positionsSummary == [] <==> periodPnl == Absent
      ensures periodPnl.Present? ==> periodPnl.value == PeriodPnl(positionsSummary, startingBalance)
      ensures periodPnl.Present? ==> forall d :: d in periodPnl.value ==> d in balance && periodPnl.value[d] == balance[d]
      ensures forall d :: d in validDates ==>
        && d in summarized && d in market && d in balance
        && AllReady(summarized[d], market[d], WhenOpen)
        && balance[d] == startingBalance + GlobalSum(summarized[d], market[d])
    {
      RunFinished(validDates, refDates, onDataDates, Book(), market, startingBalance);
      PeriodPnlMatchesBalance(positionsSummary, validDates, balance, startingBalance);
      if positionsSummary == [] {
        return;
      }
      periodPnl := Present(PeriodPnl(positionsSummary, startingBalance));
    }

    /**
     * The loop of backtest followed by the grouping of its rows into the
     * period P&L.
     */
    method RunAndGroup() returns (r: Result<()>)
      requires Valid() && WellKeyed(market)
      requires validDates != [] && StrictlyIncreasing(validDates) && lastDate == validDates[|validDates| - 1]
      requires refDates == [] && onDataDates == [] && positionsSummary == [] && periodPnl == Absent
      modifies this`history, this`refDates, this`positionsSummary, this`balance, this`onDataDates, this`summarized, this`periodPnl
      modifies ids, portfolio, portfolio.positions
      ensures r.Ok? ==>
        && refDates == validDates
        && AllClosed(portfolio.States())
        && (forall d :: d in RowDates(positionsSummary) ==> d in validDates)
        && (positionsSummary == [] <==> periodPnl == Absent)
        && (periodPnl.Present? ==> periodPnl.value == PeriodPnl(positionsSummary, startingBalance))
        && (periodPnl.Present? ==> forall d :: d in periodPnl.value ==> d in balance && periodPnl.value[d] == balance[d])
        && (forall d :: d in validDates ==>
              && d in summarized && d in market && d in balance
              && AllReady(summarized[d], market[d], WhenOpen)
              && balance[d] == startingBalance + GlobalSum(summarized[d], market[d]))
    {
      r := RunDates();
      if r.Err? {
        return;
      }
      GroupPeriodPnl();
    }

    /**
     * backtest: start, run the dates, then group the summary rows by date
     * into the period P&L, which stays unset when there are no rows. Only
     * the first run of a fresh engine is modelled.
     */
    method Backtest() returns (r: Result<()>)
      requires Valid() && WellKeyed(market) && StrictlyIncreasing(backtestDates)
      requires validDates == [] && unprocessedDates == [] && refDates == [] && onDataDates == []
      requires positionsSummary == [] && periodPnl == Absent
      modifies this`validDates, this`unprocessedDates, this`firstDate, this`lastDate, this`periodPnl
      modifies this`history, this`refDates, this`positionsSummary, this`balance, this`onDataDates, this`summarized
      modifies ids, portfolio, portfolio.positions
      ensures validDates == (if frequency == "EOD" then RunGrid().valid else [])
      ensures unprocessedDates == (if frequency == "EOD" then RunGrid().unprocessed else [])
      ensures validDates == [] ==> r == Err(ValueError)
      ensures r.Ok? ==>
        && validDates != []
        && refDates == validDates
        && AllClosed(portfolio.States())
        && (forall d :: d in RowDates(positionsSummary) ==> d in validDates)
        && (positionsSummary == [] <==> periodPnl == Absent)
        && (periodPnl.Present? ==> periodPnl.value == PeriodPnl(positionsSummary, startingBalance))
        && (periodPnl.Present? ==> forall d :: d in periodPnl.value ==> d in balance && periodPnl.value[d] == balance[d])
        && (forall d :: d in validDates ==>
              && d in summarized && d in market && d in balance
              && AllReady(summarized[d], market[d], WhenOpen)
              && balance[d] == startingBalance + GlobalSum(summarized[d], market[d]))
    {
      r := BeginRun();
      if r.Err? {
        return;
      }
      r := RunAndGroup();
    }
  }
}
