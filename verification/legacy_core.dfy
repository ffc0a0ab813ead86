/**
 * The older engine (backtester/backtester/core.py): a registry of named
 * indicator functions and an abstract backtester that walks every calendar
 * day of the run, skips holidays, sets aside days without market data,
 * calls `on_data` on the others and records a position summary per day.
 *
 * `get_dates_between` is the same loop as in the later engine and is
 * `Calendar.DatesBetween`. The market data is built by `MarketData` from
 * files; here it is a map from date to snapshot given to the constructor.
 * `on_data` is user code that works on the portfolio; it is modelled by an
 * injected function from the date and the positions to a list of orders.
 */
module LegacyCore {
  import opened Outcomes
  import opened Enums
  import opened Calendar
  import opened DateGrid
  import opened LegacyPositions
  import opened LegacyPortfolios

  // ----- Indicators -----

  type Args = seq<real>
  type IndicatorFn = Args -> real

  /** `name or func.__name__`: a missing or empty name falls back to the function's own name. */
  function IndicatorName(name: Optional<string>, funcName: string): (n: string)
    ensures name.Present? && name.value != "" ==> n == name.value
    ensures name == Absent || name == Present("") ==> n == funcName
  {
    if name.Present? && name.value != "" then name.value else funcName
  }

  /** The registry after register(name)(func). */
  function Registered(methods: map<string, IndicatorFn>, name: Optional<string>, funcName: string,
                      f: IndicatorFn): map<string, IndicatorFn>
  {
    methods[IndicatorName(name, funcName) := f]
  }

  /** compute(name, *args): ValueError for a name never registered, else the function's result. */
  function Computed(methods: map<string, IndicatorFn>, name: string, args: Args): Result<real> {
    if name in methods then Ok(methods[name](args)) else Err(ValueError)
  }

  /**
   * After registering, computing under the registered name calls the new
   * function; every other name computes as before (a value or ValueError).
   * Registering under a name already taken replaces the old function.
   */
  lemma ComputeAfterRegister(methods: map<string, IndicatorFn>, name: Optional<string>, funcName: string,
                             f: IndicatorFn, other: string, args: Args)
    ensures Computed(Registered(methods, name, funcName, f), IndicatorName(name, funcName), args) == Ok(f(args))
    ensures other != IndicatorName(name, funcName) ==>
      Computed(Registered(methods, name, funcName, f), other, args) == Computed(methods, other, args)
    ensures Computed(methods, other, args).Err? <==> other !in methods
  {
  }

  class Indicator {
    var methods: map<string, IndicatorFn>

    constructor ()
      ensures methods == map[]
    {
      methods := map[];
    }

    /** register(name)(func): store the function and hand it back unchanged. */
    method Register(name: Optional<string>, funcName: string, f: IndicatorFn) returns (g: IndicatorFn)
      modifies this
      ensures methods == Registered(old(methods), name, funcName, f)
      ensures g == f
    {
      var key := if name.Present? && name.value != "" then name.value else funcName;
      methods := methods[key := f];
      g := f;
    }

    method Compute(name: string, args: Args) returns (r: Result<real>)
      ensures r == Computed(methods, name, args)
    {
      if name !in methods {
        return Err(ValueError);
      }
      r := Ok(methods[name](args));
    }
  }

  // ----- The days of a run -----

  /** backtest's walk: a holiday is skipped, a day without a snapshot is unprocessed, any other is processed. */
  function SplitDays(ds: seq<Date>, market: map<Date, PriceSnapshot>, isHoliday: Date -> bool): Grid
    decreases |ds|
  {
    if ds == [] then Grid([], [])
    else
      var g := SplitDays(ds[..|ds| - 1], market, isHoliday);
      var d := ds[|ds| - 1];
      if isHoliday(d) then g
      else if d in market then Grid(g.valid + [d], g.unprocessed)
      else Grid(g.valid, g.unprocessed + [d])
  }

  /**
   * A day is processed exactly when it is one of the days, not a holiday
   * and has a snapshot; it is unprocessed exactly when it is one of the
   * days, not a holiday and has none.
   */
  lemma {:induction false} SplitMembership(ds: seq<Date>, market: map<Date, PriceSnapshot>,
                                           isHoliday: Date -> bool, d: Date)
    ensures var g := SplitDays(ds, market, isHoliday);
      && (d in g.valid <==> d in ds && !isHoliday(d) && d in market)
      && (d in g.unprocessed <==> d in ds && !isHoliday(d) && d !in market)
    decreases |ds|
  {
    if ds != [] {
      var front := ds[..|ds| - 1];
      SplitMembership(front, market, isHoliday, d);
      assert ds == front + [ds[|ds| - 1]];
    }
  }

  /** Both lists keep the calendar order. */
  lemma {:induction false} SplitKeepsOrder(ds: seq<Date>, market: map<Date, PriceSnapshot>, isHoliday: Date -> bool)
    requires StrictlyIncreasing(ds)
    ensures StrictlyIncreasing(SplitDays(ds, market, isHoliday).valid)
    ensures StrictlyIncreasing(SplitDays(ds, market, isHoliday).unprocessed)
    decreases |ds|
  {
    if ds != [] {
      var front := ds[..|ds| - 1];
      var last := ds[|ds| - 1];
      IncreasingAt(ds, |ds| - 1);
      assert front == ds[..|ds| - 1];
      SplitKeepsOrder(front, market, isHoliday);
      var g := SplitDays(front, market, isHoliday);
      forall e | e in g.valid || e in g.unprocessed
        ensures e < last
      {
        SplitMembership(front, market, isHoliday, e);
      }
      AppendIncreasing(g.valid, last);
      AppendIncreasing(g.unprocessed, last);
    }
  }

  // ----- The period P&L -----

  /**
   * The columns of the frame concatenated from summary rows: the keys of
   * the dictionary each row is built from (pricing/portfolio.py:40-51),
   * and none at all when there are no rows.
   */
  function FrameColumns(rows: seq<LegacyRow>): (cols: set<string>)
    ensures "ref_date" !in cols
    ensures rows != [] ==> "global_pnl" in cols
  {
    if rows == [] then {}
    else {"trade_date", "symbol", "type", "side", "quantity", "entry_price",
          "current_value", "open_pnl", "closed_pnl", "global_pnl"}
  }

  /** A groupby on a column name looks the column up first; a missing column raises KeyError. */
  function GroupByColumn(cols: set<string>, key: string): Result<()> {
    if key in cols then Ok(()) else Err(KeyError)
  }

  /** As written, grouping the summary by `ref_date` raises KeyError whatever rows were recorded. */
  lemma PeriodPnlAsWrittenRaises(rows: seq<LegacyRow>)
    ensures GroupByColumn(FrameColumns(rows), "ref_date") == Err(KeyError)
  {
  }

  /** A summary row tagged with the reference date it was recorded on. */
  datatype DatedRow = DatedRow(refDate: Date, row: LegacyRow)

  function Dated(d: Date, rows: seq<LegacyRow>): (r: seq<DatedRow>)
    ensures |r| == |rows| && forall j :: 0 <= j < |r| ==> r[j] == DatedRow(d, rows[j])
  {
    seq(|rows|, j requires 0 <= j < |rows| => DatedRow(d, rows[j]))
  }

  function RowDates(rows: seq<DatedRow>): set<Date> {
    set j | 0 <= j < |rows| :: rows[j].refDate
  }

  /** The summed global P&L of the rows of one date. */
  function DailyGlobal(rows: seq<DatedRow>, d: Date): real {
    if rows == [] then 0.0
    else
      var last := rows[|rows| - 1];
      DailyGlobal(rows[..|rows| - 1], d) + (if last.refDate == d then last.row.globalPnl else 0.0)
  }

  /** The period P&L with dated rows: per date with rows, the summed global P&L plus the starting balance. */
  function LegacyPeriodPnl(rows: seq<DatedRow>, startingBalance: real): map<Date, real> {
    map d | d in RowDates(rows) :: startingBalance + DailyGlobal(rows, d)
  }

  lemma {:induction false} DailyGlobalAppend(a: seq<DatedRow>, b: seq<DatedRow>, d: Date)
    ensures DailyGlobal(a + b, d) == DailyGlobal(a, d) + DailyGlobal(b, d)
    decreases |b|
  {
    if b == [] {
      assert a + b == a;
    } else {
      assert (a + b)[..|a + b| - 1] == a + b[..|b| - 1];
      DailyGlobalAppend(a, b[..|b| - 1], d);
    }
  }

  /** A date with no rows sums to 0. */
  lemma {:induction false} DailyGlobalAbsent(rows: seq<DatedRow>, d: Date)
    requires d !in RowDates(rows)
    ensures DailyGlobal(rows, d) == 0.0
    decreases |rows|
  {
    if rows != [] {
      var front := rows[..|rows| - 1];
      assert RowDates(front) <= RowDates(rows) by {
        forall e | e in RowDates(front) ensures e in RowDates(rows) {
          var j :| 0 <= j < |front| && front[j].refDate == e;
          assert rows[j] == front[j];
        }
      }
      DailyGlobalAbsent(front, d);
      assert rows[|rows| - 1].refDate in RowDates(rows);
    }
  }

  /** A date's own batch sums to its global column; another date's batch adds nothing. */
  lemma {:induction false} DailyGlobalOfBatch(d: Date, batch: seq<LegacyRow>, e: Date)
    ensures DailyGlobal(Dated(d, batch), e) == if e == d then GlobalColumn(batch) else 0.0
    decreases |batch|
  {
    if batch != [] {
      var front := batch[..|batch| - 1];
      assert Dated(d, batch)[..|batch| - 1] == Dated(d, front);
      DailyGlobalOfBatch(d, front, e);
    }
  }

  /**
   * Recording one new date's rows: when no earlier row has the date `d`,
   * the period P&L of the other dates is unchanged, and `d` enters with the
   * starting balance plus the batch's global column, or not at all when the
   * batch is empty.
   */
  lemma PeriodPnlAppendBatch(earlier: seq<DatedRow>, d: Date, batch: seq<LegacyRow>, startingBalance: real)
    requires d !in RowDates(earlier)
    ensures LegacyPeriodPnl(earlier + Dated(d, batch), startingBalance)
      == if batch == [] then LegacyPeriodPnl(earlier, startingBalance)
         else LegacyPeriodPnl(earlier, startingBalance)[d := startingBalance + GlobalColumn(batch)]
  {
    var all := earlier + Dated(d, batch);
    if batch == [] {
      assert all == earlier;
      return;
    }
    forall e
      ensures DailyGlobal(all, e) == DailyGlobal(earlier, e) + (if e == d then GlobalColumn(batch) else 0.0)
    {
      DailyGlobalAppend(earlier, Dated(d, batch), e);
      DailyGlobalOfBatch(d, batch, e);
    }
    assert RowDates(all) == RowDates(earlier) + {d} by {
      forall e | e in RowDates(all)
        ensures e in RowDates(earlier) + {d}
      {
        var j :| 0 <= j < |all| && all[j].refDate == e;
        if j >= |earlier| {
          assert all[j] == Dated(d, batch)[j - |earlier|];
        } else {
          assert all[j] == earlier[j];
        }
      }
      forall e | e in RowDates(earlier)
        ensures e in RowDates(all)
      {
        var j :| 0 <= j < |earlier| && earlier[j].refDate == e;
        assert all[j] == earlier[j];
      }
      assert all[|earlier|] == DatedRow(d, batch[0]);
    }
    DailyGlobalAbsent(earlier, d);
  }

  /** Each date's value plus the starting balance. */
  function Shifted(daily: map<Date, real>, startingBalance: real): map<Date, real> {
    map e | e in daily :: startingBalance + daily[e]
  }

  /**
   * Recording a new date's summary keeps the period P&L equal to the
   * starting balance plus each recorded date's global P&L: the date enters
   * with the portfolio's global_pnl at its snapshot, unless the portfolio
   * is empty and the date has no rows.
   */
  lemma RecordedDay(earlier: seq<DatedRow>, d: Date, ss: seq<LegacyState>, m: PriceSnapshot,
                    startingBalance: real, daily: map<Date, real>)
    requires d !in RowDates(earlier) && Summary(ss, m).Ok?
    requires LegacyPeriodPnl(earlier, startingBalance) == Shifted(daily, startingBalance)
    ensures LegacyPeriodPnl(earlier + Dated(d, Summary(ss, m).value), startingBalance)
      == Shifted(if ss == [] then daily else daily[d := GlobalPnl(ss, m).value], startingBalance)
  {
    SummaryAgrees(ss, m);
    PeriodPnlAppendBatch(earlier, d, Summary(ss, m).value, startingBalance);
    if ss != [] {
      var v := GlobalPnl(ss, m).value;
      assert Shifted(daily, startingBalance)[d := startingBalance + v] == Shifted(daily[d := v], startingBalance);
    }
  }

  // ----- The backtester -----

  /** What on_data does to the portfolio. */
  datatype LegacyOrder =
    | Buy(symbol: string, quantity: real, side: PositionType)  // add_position(EquityPosition(...))
    | CloseAt(index: nat)                                      // positions[index].close_position(...)
    | RemoveAt(index: nat)                                     // remove_position(positions[index])
    | ClearAll                                                 // close_all_positions()

  type LegacyStrategy = (Date, seq<LegacyState>) -> seq<LegacyOrder>

  class LegacyBacktester {
    const startingBalance: real
    const market: map<Date, PriceSnapshot>
    const isHoliday: Date -> bool
    const strategy: LegacyStrategy
    const backtestDates: seq<Date>
    const portfolio: LegacyPortfolio
    const indicator: Indicator
    var margin: real
    var history: map<Date, PriceSnapshot>
    var refDates: seq<Date>
    var unprocessedDates: seq<Date>
    var positionsSummary: seq<DatedRow>
    var periodPnl: Optional<map<Date, real>>
    /** The dates on which on_data ran, in order. */
    ghost var onDataDates: seq<Date>
    /** For each date that recorded rows: the portfolio's global_pnl at that date's snapshot. */
    ghost var dailyGlobal: map<Date, real>

    /**
     * __init__: the margin starts as the starting balance, and the days of
     * the run are every day from start to end.
     */
    constructor (startDate: Date, endDate: Date, startingBalance: real, market: map<Date, PriceSnapshot>,
                 isHoliday: Date -> bool, strategy: LegacyStrategy)
      ensures margin == startingBalance && this.startingBalance == startingBalance
      ensures backtestDates == Span(startDate, endDate) && StrictlyIncreasing(backtestDates)
      ensures this.market == market && this.isHoliday == isHoliday && this.strategy == strategy
      ensures fresh(portfolio) && portfolio.positions == [] && fresh(indicator) && indicator.methods == map[]
      ensures history == map[] && refDates == [] && unprocessedDates == [] && positionsSummary == []
      ensures periodPnl == Absent && onDataDates == [] && dailyGlobal == map[]
    {
      this.startingBalance := startingBalance;
      this.margin := startingBalance;
      this.market := market;
      this.isHoliday := isHoliday;
      this.strategy := strategy;
      this.portfolio := new LegacyPortfolio();
      this.indicator := new Indicator();
      var ds := DatesBetween(startDate, endDate);
      SpanIncreasing(startDate, endDate);
      this.backtestDates := ds;
      this.history := map[];
      this.refDates := [];
      this.unprocessedDates := [];
      this.positionsSummary := [];
      this.periodPnl := Absent;
      this.onDataDates := [];
      this.dailyGlobal := map[];
    }

    /** add_position(EquityPosition(symbol, quantity, snapshot, side)). */
    method BuyEquity(symbol: string, quantity: real, side: PositionType, m: PriceSnapshot) returns (r: Result<()>)
      modifies portfolio
      ensures r.Ok? <==> symbol in m.prices
      ensures r.Err? ==> r.error == KeyError && portfolio.positions == old(portfolio.positions)
      ensures r.Ok? ==>
        && |portfolio.positions| == |old(portfolio.positions)| + 1
        && portfolio.positions[..|old(portfolio.positions)|] == old(portfolio.positions)
        && fresh(portfolio.positions[|old(portfolio.positions)|])
        && portfolio.positions[|old(portfolio.positions)|].State() == OpenedEquity(symbol, quantity, m, side)
    {
      var p := NewEquityPosition(symbol, quantity, m, side);
      if p.Err? {
        return Err(p.error);
      }
      portfolio.AddPosition(p.value);
      r := Ok(());
    }

    /** positions[k].close_position(snapshot): IndexError past the end, else the legacy close of that position. */
    method CloseNth(k: nat, m: PriceSnapshot) returns (r: Result<()>)
      modifies portfolio.positions
      ensures k >= |portfolio.positions| ==> r == Err(IndexError)
      ensures k < |portfolio.positions| ==>
        var p := portfolio.positions[k];
        && (r.Ok? <==> Close(old(p.State()), m).Ok?)
        && (r.Ok? ==> p.State() == Close(old(p.State()), m).value)
        && (r.Err? ==> r.error == KeyError && p.State() == old(p.State()))
    {
      if k >= |portfolio.positions| {
        return Err(IndexError);
      }
      r := portfolio.positions[k].ClosePosition(m);
    }

    /** remove_position(positions[k]): IndexError past the end, else the first occurrence of that position goes. */
    method RemoveNth(k: nat) returns (r: Result<()>)
      modifies portfolio
      ensures k >= |old(portfolio.positions)| ==> r == Err(IndexError) && portfolio.positions == old(portfolio.positions)
      ensures k < |old(portfolio.positions)| ==>
        r.Ok? && portfolio.positions == RemoveFirst(old(portfolio.positions), old(portfolio.positions)[k])
      ensures forall q :: q in portfolio.positions ==> q in old(portfolio.positions)
    {
      if k >= |portfolio.positions| {
        return Err(IndexError);
      }
      portfolio.RemovePosition(portfolio.positions[k]);
      RemoveFirstTakesOne(old(portfolio.positions), old(portfolio.positions)[k]);
      r := Ok(());
    }

    /** One order of on_data, at the date's snapshot. */
    method ExecuteOrder(o: LegacyOrder, m: PriceSnapshot) returns (r: Result<()>)
      modifies portfolio, portfolio.positions
      ensures r.Err? ==> r.error == KeyError || r.error == IndexError
      ensures o.ClearAll? ==> r.Ok? && portfolio.positions == []
      ensures forall k :: 0 <= k < |portfolio.positions| ==> portfolio.positions[k] in old(portfolio.positions) || fresh(portfolio.positions[k])
    {
      match o
      case Buy(symbol, quantity, side) =>
        r := BuyEquity(symbol, quantity, side, m);
        assert forall k :: 0 <= k < |old(portfolio.positions)| ==> portfolio.positions[k] == old(portfolio.positions)[k];
      case CloseAt(k) =>
        r := CloseNth(k, m);
      case RemoveAt(k) =>
        r := RemoveNth(k);
      case ClearAll =>
        portfolio.CloseAllPositions();
        r := Ok(());
    }

    /** on_data: the strategy's orders run one by one; the first error ends the call. */
    method OnData(d: Date, m: PriceSnapshot) returns (r: Result<()>)
      modifies this`onDataDates, portfolio, portfolio.positions
      ensures onDataDates == old(onDataDates) + [d]
      ensures r.Err? ==> r.error == KeyError || r.error == IndexError
      ensures forall k :: 0 <= k < |portfolio.positions| ==> portfolio.positions[k] in old(portfolio.positions) || fresh(portfolio.positions[k])
    {
      onDataDates := onDataDates + [d];
      var orders := strategy(d, portfolio.States());
      var j := 0;
      while j < |orders|
        invariant 0 <= j <= |orders|
        invariant onDataDates == old(onDataDates) + [d]
        invariant forall k :: 0 <= k < |portfolio.positions| ==> portfolio.positions[k] in old(portfolio.positions) || fresh(portfolio.positions[k])
      {
        var done := ExecuteOrder(orders[j], m);
        if done.Err? {
          return done;
        }
        j := j + 1;
      }
      r := Ok(());
    }

    /**
     * One processed day: the snapshot joins the history, the day joins the
     * reference dates, on_data runs, then the day's summary rows are
     * recorded. An exception ends the day (the loop's bare `except` prints
     * it and moves on), keeping what was done before it.
     */
    method ProcessDate(d: Date) returns (r: Result<()>)
      requires d in market
      modifies this`history, this`refDates, this`onDataDates, this`positionsSummary, this`dailyGlobal
      modifies portfolio, portfolio.positions
      ensures history == old(history)[d := market[d]]
      ensures refDates == old(refDates) + [d]
      ensures onDataDates == old(onDataDates) + [d]
      ensures forall k :: 0 <= k < |portfolio.positions| ==> portfolio.positions[k] in old(portfolio.positions) || fresh(portfolio.positions[k])
      ensures r.Err? ==> positionsSummary == old(positionsSummary) && dailyGlobal == old(dailyGlobal)
      ensures r.Ok? ==>
        && Summary(portfolio.States(), market[d]).Ok?
        && positionsSummary == old(positionsSummary) + Dated(d, Summary(portfolio.States(), market[d]).value)
        && dailyGlobal == if portfolio.States() == [] then old(dailyGlobal)
                          else old(dailyGlobal)[d := GlobalPnl(portfolio.States(), market[d]).value]
    {
      history := history[d := market[d]];
      refDates := refDates + [d];
      r := OnData(d, market[d]);
      if r.Err? {
        return;
      }
      var rows := Summary(portfolio.States(), market[d]);
      if rows.Err? {
        return Err(rows.error);
      }
      positionsSummary := positionsSummary + Dated(d, rows.value);
      SummaryAgrees(portfolio.States(), market[d]);
      if portfolio.States() != [] {
        dailyGlobal := dailyGlobal[d := GlobalColumn(rows.value)];
      }
    }

    /**
     * What backtest's walk knows after the first `i` days, given the
     * unprocessed dates, on_data dates and history it started from.
     */
    ghost predicate Walked(i: nat, unprocessed0: seq<Date>, onData0: seq<Date>, history0: map<Date, PriceSnapshot>)
      reads this
    {
      && i <= |backtestDates|
      && refDates == SplitDays(backtestDates[..i], market, isHoliday).valid
      && unprocessedDates == unprocessed0 + SplitDays(backtestDates[..i], market, isHoliday).unprocessed
      && onDataDates == onData0 + refDates
      && (forall d :: d in history <==> d in history0 || d in refDates)
      && (forall d :: d in refDates ==> d in market && d in history && history[d] == market[d])
      && (forall j :: 0 <= j < |positionsSummary| ==> positionsSummary[j].refDate in refDates)
      && LegacyPeriodPnl(positionsSummary, startingBalance) == Shifted(dailyGlobal, startingBalance)
      && (forall e :: e in dailyGlobal ==> e in refDates)
    }

    /** One day of backtest's walk: skip a holiday, set aside a day without a snapshot, or process the day. */
    method TakeDay(i: nat, ghost unprocessed0: seq<Date>, ghost onData0: seq<Date>, ghost history0: map<Date, PriceSnapshot>)
      requires StrictlyIncreasing(backtestDates) && i < |backtestDates|
      requires Walked(i, unprocessed0, onData0, history0)
      modifies this`history, this`refDates, this`unprocessedDates, this`onDataDates
      modifies this`positionsSummary, this`dailyGlobal, portfolio, portfolio.positions
      ensures Walked(i + 1, unprocessed0, onData0, history0)
      ensures forall k :: 0 <= k < |portfolio.positions| ==> portfolio.positions[k] in old(portfolio.positions) || fresh(portfolio.positions[k])
    {
      var d := backtestDates[i];
      assert backtestDates[..i + 1] == backtestDates[..i] + [d];
      if isHoliday(d) {
        return;
      }
      if d !in market {
        unprocessedDates := unprocessedDates + [d];
        return;
      }
      WalkProcess(i, unprocessed0, onData0, history0);
    }

    /** A day of the walk that is not a holiday and has a snapshot. */
    method WalkProcess(i: nat, ghost unprocessed0: seq<Date>, ghost onData0: seq<Date>, ghost history0: map<Date, PriceSnapshot>)
      requires StrictlyIncreasing(backtestDates) && i < |backtestDates|
      requires !isHoliday(backtestDates[i]) && backtestDates[i] in market
      requires Walked(i, unprocessed0, onData0, history0)
      modifies this`history, this`refDates, this`onDataDates
      modifies this`positionsSummary, this`dailyGlobal, portfolio, portfolio.positions
      ensures Walked(i + 1, unprocessed0, onData0, history0)
      ensures forall k :: 0 <= k < |portfolio.positions| ==> portfolio.positions[k] in old(portfolio.positions) || fresh(portfolio.positions[k])
    {
      var d := backtestDates[i];
      assert backtestDates[..i + 1] == backtestDates[..i] + [d];
      IncreasingAt(backtestDates, i);
      SplitMembership(backtestDates[..i], market, isHoliday, d);
      ghost var earlier := positionsSummary;
      var done := ProcessDate(d);
      if done.Ok? {
        RecordedDay(earlier, d, portfolio.States(), market[d], startingBalance, old(dailyGlobal));
      }
    }

    /**
     * backtest: reset the reference dates and the summary, walk the days in
     * order, then group the rows by reference date into the period P&L.
     * The rows are recorded with their date and the period P&L is left
     * unset when there are none (see README, "Findings").
     */
    method Backtest()
      requires StrictlyIncreasing(backtestDates)
      modifies this`history, this`refDates, this`unprocessedDates, this`onDataDates
      modifies this`positionsSummary, this`periodPnl, this`dailyGlobal, portfolio, portfolio.positions
      ensures refDates == SplitDays(backtestDates, market, isHoliday).valid && StrictlyIncreasing(refDates)
      ensures unprocessedDates == old(unprocessedDates) + SplitDays(backtestDates, market, isHoliday).unprocessed
      ensures onDataDates == old(onDataDates) + refDates
      ensures forall d :: d in history <==> d in old(history) || d in refDates
      ensures forall d :: d in refDates ==> d in history && d in market && history[d] == market[d]
      ensures forall j :: 0 <= j < |positionsSummary| ==> positionsSummary[j].refDate in refDates
      ensures periodPnl == if positionsSummary == [] then Absent
                           else Present(LegacyPeriodPnl(positionsSummary, startingBalance))
      ensures LegacyPeriodPnl(positionsSummary, startingBalance) == Shifted(dailyGlobal, startingBalance)
      ensures forall d :: d in dailyGlobal ==> d in refDates
    {
      positionsSummary := [];
      refDates := [];
      dailyGlobal := map[];
      SplitKeepsOrder(backtestDates, market, isHoliday);
      assert backtestDates[..0] == [];
      var i := 0;
      while i < |backtestDates|
        invariant 0 <= i <= |backtestDates|
        invariant Walked(i, old(unprocessedDates), old(onDataDates), old(history))
        invariant forall k :: 0 <= k < |portfolio.positions| ==> portfolio.positions[k] in old(portfolio.positions) || fresh(portfolio.positions[k])
      {
        TakeDay(i, old(unprocessedDates), old(onDataDates), old(history));
        i := i + 1;
      }
      assert backtestDates[..i] == backtestDates;
      if positionsSummary == [] {
        periodPnl := Absent;
      } else {
        periodPnl := Present(LegacyPeriodPnl(positionsSummary, startingBalance));
      }
    }

    /**
     * get_data_at: walk the days in order and stop at the first one after
     * `refDate`; keep the snapshot of every day that is not a holiday and
     * has one.
     */
    method GetDataAt(refDate: Date) returns (h: map<Date, PriceSnapshot>)
      requires StrictlyIncreasing(backtestDates)
      ensures forall d :: d in h <==> d in backtestDates && d <= refDate && !isHoliday(d) && d in market
      ensures forall d :: d in h ==> h[d] == market[d]
    {
      IncreasingPairs(backtestDates);
      h := map[];
      var i := 0;
      while i < |backtestDates|
        invariant 0 <= i <= |backtestDates|
        invariant forall k :: 0 <= k < i ==> backtestDates[k] <= refDate
        invariant forall d :: d in h <==> d in backtestDates[..i] && !isHoliday(d) && d in market
        invariant forall d :: d in h ==> h[d] == market[d]
      {
        var d := backtestDates[i];
        if d > refDate {
          break;
        }
        assert backtestDates[..i + 1] == backtestDates[..i] + [d];
        if !isHoliday(d) && d in market {
          h := h[d := market[d]];
        }
        i := i + 1;
      }
      forall d | d in backtestDates && d <= refDate
        ensures d in backtestDates[..i]
      {
        var k :| 0 <= k < |backtestDates| && backtestDates[k] == d;
        if k >= i {
          assert false;
        }
      }
    }
  }
}
