/**
 * The margin-checking backtester of examples/debug.py: the same date grid
 * and date loop as the engine, plus a margin ledger, one entry per
 * processed date. A trade is admitted only when its commitment fits in the
 * date's margin times the leverage; closing a trade credits its
 * countervalue back; the last date closes everything and zeroes the
 * ledger. An exception on a date is caught and the loop goes on with the
 * next date, but the `exit()` of a refused trade ends the whole run.
 *
 * The strategy (`on_data`, abstract in the source) is a parameter returning
 * the orders it places on a date; the holiday calendar is a parameter too.
 */
module MarginEngine {
  import opened Outcomes
  import opened Enums
  import opened Calendar
  import opened Market
  import opened DateGrid
  import opened Positions
  import opened Portfolios
  import opened Engine

  /** `leverage`, fixed at 1.5 by the constructor. */
  const Leverage: real := 1.5

  /** `short_margin`: the share of its countervalue a position commits when it is not long. */
  const ShortMargin: real := 0.2

  /** A Python value in the comparison `side == 1`: an enum member or a plain integer. */
  datatype PyValue = Member(side: PositionType) | Int(n: int)

  /** Python `==` on such values: a plain `Enum` member equals only itself, never an integer. */
  predicate PyEquals(a: PyValue, b: PyValue) {
    match a
    case Member(x) => b.Member? && b.side == x
    case Int(x) => b.Int? && b.n == x
  }

  /** The commitment as written: `initial_ctv` when `side == 1`, a fifth of it otherwise. */
  function CommitmentAsWritten(initialCtv: real, side: PositionType): real {
    if PyEquals(Member(side), Int(1)) then initialCtv else initialCtv * ShortMargin
  }

  /**
   * The commitment as intended: the whole initial countervalue for a side
   * whose value is 1 (long), a fifth of it for the other side.
   */
  function Commitment(initialCtv: real, side: PositionType): (c: real)
    ensures c == if side.Value() == 1 then initialCtv else initialCtv * ShortMargin
  {
    if side == Long then initialCtv else initialCtv * ShortMargin
  }

  /**
   * As written the comparison never holds, so every position commits a
   * fifth of its countervalue; the intended commitment differs exactly on
   * long positions with a non-zero countervalue.
   */
  lemma CommitmentAsWrittenIgnoresSide(initialCtv: real, side: PositionType)
    ensures CommitmentAsWritten(initialCtv, side) == initialCtv * ShortMargin
    ensures CommitmentAsWritten(initialCtv, side) != Commitment(initialCtv, side) <==> side == Long && initialCtv != 0.0
  {
  }

  /**
   * Two units of a long equity bought at 10 (countervalue 20) commit 4 as
   * written, where 20 is intended: with a ledger entry of 10 (available
   * margin 15) the trade is admitted as written and refused as intended.
   */
  lemma LongTradeAdmittedAsWritten()
    ensures CommitmentAsWritten(20.0, Long) == 4.0 && Commitment(20.0, Long) == 20.0
    ensures CommitmentAsWritten(20.0, Long) <= 10.0 * Leverage < Commitment(20.0, Long)
  {
  }

  /**
   * Closing after reading the countervalue is closing the position as it
   * was: reading the countervalue only settles an option past expiry,
   * which closing would have done anyway.
   */
  lemma CloseAfterValuing(s: PositionState, m: Snapshot)
    requires s.isOpen ==> Quoted(s, m)
    ensures var v := Ctv(s, m).1;
      && (v.isOpen ==> Quoted(v, m))
      && Close(v, m) == Close(s, m)
  {
    ValuationEffect(s, m);
    if s.isOpen && Settles(s.contract, m) {
      assert !Ctv(s, m).1.isOpen;
    }
  }

  /**
   * A position admitted and closed at the same snapshot: a long one gives
   * back exactly what it committed, so the ledger ends at margin times the
   * leverage; any other side commits a fifth of its countervalue and is
   * credited minus the whole of it.
   */
  lemma SameDayRoundTrip(id: int, symbol: string, contract: Contract, quantity: real,
                         m: Snapshot, side: PositionType, ledger: real)
    requires EntryQuoted(symbol, contract, m) && !Settles(contract, m)
    ensures var s := Opened(id, symbol, contract, quantity, m, side);
      ledger * Leverage - Commitment(s.initialCtv, side) + Ctv(s, m).0
        == ledger * Leverage - (if side == Long then 0.0 else s.initialCtv * (1.0 + ShortMargin))
  {
    OpenedPosition(id, symbol, contract, quantity, m, side);
  }

  /** What a strategy of the margin engine asks for: a trade, or close_Trade on the first matching position. */
  datatype MarginOrder =
    | Open(ticker: string, quantity: real, assetType: AssetType, side: PositionType,
           strike: real, expiry: Date, optionType: OptionType)
    | CloseFirst(ticker: string, assetType: AssetType)

  type MarginStrategy = (Date, seq<PositionState>) -> seq<MarginOrder>

  /**
   * What the run has recorded at one moment: the summary rows, the margin
   * ledger and, for each date whose rows were taken, the positions they
   * were taken from.
   */
  datatype MarginBook = MarginBook(summary: seq<SummaryRow>, margin: map<Date, real>,
                                   summarized: map<Date, seq<PositionState>>)

  /**
   * Date `d`'s rows are the summary, at `m`, of the positions recorded for
   * `d`, appended to the earlier rows; no other date's record changed.
   */
  ghost predicate Summarized(d: Date, m: Snapshot, before: MarginBook, after: MarginBook) {
    && d in after.summarized && after.summarized == before.summarized[d := after.summarized[d]]
    && AllReady(after.summarized[d], m, Always)
    && after.summary == before.summary + Summary(after.summarized[d], m)
  }

  /**
   * The last date's work on the positions `ss` it found: every one closed
   * at `m`, the rows taken from them closed, and the date's ledger entry
   * zeroed.
   */
  ghost predicate ClosedOutOn(d: Date, m: Snapshot, ss: seq<PositionState>, states: seq<PositionState>,
                              before: MarginBook, after: MarginBook) {
    && AllReady(ss, m, WhenOpen)
    && Summarized(d, m, before, after)
    && after.summarized[d] == CloseUpTo(ss, m, |ss|)
    && states == after.summarized[d] && AllClosed(states)
    && after.margin == before.margin[d := 0.0]
  }

  class MarginBacktester {
    const startDate: Date
    const endDate: Date
    const startingBalance: real
    const market: map<Date, Snapshot>
    const isHoliday: Date -> bool
    const strategy: MarginStrategy
    const priceTickers: seq<string>
    const volTickers: seq<string>
    const portfolio: Portfolio
    const ids: TradeIdRegistry
    const backtestDates: seq<Date>

    var validDates: seq<Date>
    var unprocessedDates: seq<Date>
    var firstDate: Date
    var lastDate: Date
    var margin: map<Date, real>
    var refDates: seq<Date>
    var refDate: Date
    var history: map<Date, Snapshot>
    var positionsSummary: seq<SummaryRow>
    var periodPnl: Optional<map<Date, real>>
    /** The dates the loop has taken up, whether or not their work ran through. */
    ghost var attempted: seq<Date>
    /** The work of the last date ran through. */
    ghost var closedOut: bool
    /** The positions each date's summary rows were taken from. */
    ghost var summarized: map<Date, seq<PositionState>>
    /** The ledger entry each date was seeded with, before its trades. */
    ghost var opening: map<Date, real>

    /** Every position has a distinct trade id, and each was handed out by the shared registry. */
    ghost predicate Valid()
      reads portfolio, ids
    {
      && portfolio.Valid()
      && forall k :: 0 <= k < |portfolio.positions| ==> portfolio.positions[k].tradeId in ids.existing
    }

    /** The summary rows, the ledger and the summarized positions, as one value. */
    ghost function Book(): MarginBook
      reads this
    {
      MarginBook(positionsSummary, margin, summarized)
    }

    /**
     * __init__: the run's calendar is every day from start to end, the
     * ledger is empty and the leverage is fixed. The market is loaded by the
     * data layer and arrives as a parameter, as do the tickers a concrete
     * strategy sets.
     */
    constructor (startDate: Date, endDate: Date, startingBalance: real, market: map<Date, Snapshot>,
                 isHoliday: Date -> bool, strategy: MarginStrategy,
                 priceTickers: seq<string>, volTickers: seq<string>, ids: TradeIdRegistry)
      ensures backtestDates == Span(startDate, endDate) && StrictlyIncreasing(backtestDates)
      ensures validDates == [] && unprocessedDates == [] && margin == map[] && history == map[]
      ensures positionsSummary == [] && periodPnl == Absent && attempted == []
      ensures summarized == map[] && opening == map[]
      ensures fresh(portfolio) && portfolio.positions == [] && this.ids == ids
      ensures this.market == market && this.strategy == strategy && this.isHoliday == isHoliday
      ensures this.startingBalance == startingBalance
      ensures this.priceTickers == priceTickers && this.volTickers == volTickers
      ensures Valid()
    {
      this.startDate := startDate;
      this.endDate := endDate;
      var dates := DatesBetween(startDate, endDate);
      this.backtestDates := dates;
      SpanIncreasing(startDate, endDate);
      this.startingBalance := startingBalance;
      this.margin := map[];
      this.portfolio := new Portfolio();
      this.validDates := [];
      this.unprocessedDates := [];
      this.priceTickers := priceTickers;
      this.volTickers := volTickers;
      this.history := map[];
      this.positionsSummary := [];
      this.periodPnl := Absent;
      this.market := market;
      this.isHoliday := isHoliday;
      this.strategy := strategy;
      this.ids := ids;
      this.refDates := [];
      this.attempted := [];
      this.closedOut := false;
      this.summarized := map[];
      this.opening := map[];
    }

    /** The grid of the run's calendar on this engine's market and tickers. */
    function RunGrid(): Grid
    {
      GridOf(backtestDates, market, priceTickers, volTickers, isHoliday)
    }

    /** _create_date_grid: the grid's dates are appended, with no frequency guard. */
    method CreateDateGrid()
      modifies this`validDates, this`unprocessedDates
      ensures validDates == old(validDates) + RunGrid().valid
      ensures unprocessedDates == old(unprocessedDates) + RunGrid().unprocessed
    {
      var valid, unprocessed := DateGrid.CreateDateGrid(backtestDates, market, priceTickers, volTickers, isHoliday);
      validDates := validDates + valid;
      unprocessedDates := unprocessedDates + unprocessed;
    }

    /** _on_start: build the grid; no processed date is a ValueError; otherwise record the first and last one. */
    method OnStart() returns (r: Result<()>)
      modifies this`validDates, this`unprocessedDates, this`firstDate, this`lastDate
      ensures validDates == old(validDates) + RunGrid().valid
      ensures unprocessedDates == old(unprocessedDates) + RunGrid().unprocessed
      ensures r.Ok? <==> validDates != []
      ensures r.Err? ==> r.error == ValueError
      ensures r.Ok? ==> firstDate == validDates[0] && lastDate == validDates[|validDates| - 1]
    {
      CreateDateGrid();
      if validDates == [] {
        return Err(ValueError);
      }
      firstDate := validDates[0];
      lastDate := validDates[|validDates| - 1];
      r := Ok(());
    }

    /** get_data_at: the snapshots of the processed dates up to `refDate`, as get_history gathers them. */
    method GetDataAt(refDate: Date) returns (r: Result<map<Date, Snapshot>>)
      ensures r == HistoryUpTo(validDates, market, refDate)
    {
      r := CollectHistory(validDates, market, refDate);
    }

    /**
     * Trade: open the position for the asset type, then look up the ledger
     * entry of its trade date. BOND has no position class: AttributeError.
     * An option draws its trade id and then fails valuing itself, since the
     * snapshot's `ref_date` is ISO text and is compared with the expiry
     * `date`: TypeError. An equity position is priced at its close; when
     * its commitment fits in the ledger entry times the leverage it is added
     * and the entry becomes the available margin less the commitment;
     * otherwise nothing is added and the run exits. The id drawn stays
     * taken whether or not the trade goes through.
     */
    method Trade(ticker: string, quantity: real, m: Snapshot, assetType: AssetType, side: PositionType,
                 strike: real, expiry: Date, optionType: OptionType)
      returns (r: Result<()>)
      requires Valid()
      modifies ids, portfolio, this`margin
      ensures Valid()
      ensures assetType == Bond ==> r == Err(AttributeError) && ids.existing == old(ids.existing)
      ensures assetType == Option ==> r == Err(if old(ids.HasFree()) then TypeError else IdSpaceExhausted)
      ensures assetType != Bond && !old(ids.HasFree()) ==> r == Err(IdSpaceExhausted) && ids.existing == old(ids.existing)
      ensures assetType != Bond && old(ids.HasFree()) ==> AddsOneId(old(ids.existing), ids.existing)
      ensures assetType == Equity && old(ids.HasFree()) && r.Err? && r != Err(SystemExit) ==> r == Err(KeyError)
      ensures r.Err? ==> portfolio.positions == old(portfolio.positions) && margin == old(margin)
      ensures (r.Ok? || r == Err(SystemExit)) <==>
        && assetType == Equity && old(ids.HasFree()) && m.refDate in old(margin)
        && EntryQuoted(ticker, EquityContract, m)
      ensures r.Ok? || r == Err(SystemExit) ==>
        var need := Commitment(EntryValue(ticker, EquityContract, m) * quantity, side);
        var available := old(margin)[m.refDate] * Leverage;
        && (r.Ok? <==> need <= available)
        && (r.Ok? ==> margin == old(margin)[m.refDate := available - need] && margin[m.refDate] >= 0.0)
      ensures r.Ok? ==>
        && |portfolio.positions| == |old(portfolio.positions)| + 1
        && portfolio.positions[..|old(portfolio.positions)|] == old(portfolio.positions)
        && var p := portfolio.positions[|portfolio.positions| - 1];
          && fresh(p)
          && p.tradeId !in old(ids.existing) && ids.existing == old(ids.existing) + {p.tradeId}
          && p.State() == Opened(p.tradeId, ticker, EquityContract, quantity, m, side)
    {
      if assetType == Bond {
        return Err(AttributeError);
      }
      if !ids.HasFree() {
        return Err(IdSpaceExhausted);
      }
      if assetType == Option {
        var drawn := ids.Generate();
        return Err(TypeError);
      }
      var id, created := NewPosition(ids, ticker, EquityContract, quantity, m, side);
      if created.Err? {
        return Err(created.error);
      }
      var p := created.value;
      assert p.tradeDate == m.refDate && p.initialCtv == EntryValue(ticker, EquityContract, m) * quantity;
      r := Admit(p, side);
    }

    /**
     * The admission half of Trade for a position just opened: look up the
     * ledger entry of its trade date; when the commitment fits in that entry
     * times the leverage, add the position and leave the available margin
     * less the commitment in the entry; otherwise change nothing and exit.
     */
    method Admit(p: Position, side: PositionType) returns (r: Result<()>)
      requires Valid() && p.tradeId in ids.existing
      requires forall k :: 0 <= k < |portfolio.positions| ==> portfolio.positions[k].tradeId != p.tradeId
      modifies portfolio, this`margin
      ensures Valid()
      ensures r.Err? ==> portfolio.positions == old(portfolio.positions) && margin == old(margin)
      ensures r.Ok? || r == Err(SystemExit) <==> p.tradeDate in old(margin)
      ensures r.Err? && r.error != SystemExit ==> r.error == KeyError
      ensures p.tradeDate in old(margin) ==>
        var need := Commitment(p.initialCtv, side);
        var available := old(margin)[p.tradeDate] * Leverage;
        && (r.Ok? <==> need <= available)
        && (r.Ok? ==> margin == old(margin)[p.tradeDate := available - need] && margin[p.tradeDate] >= 0.0)
      ensures r.Ok? ==> portfolio.positions == old(portfolio.positions) + [p]
    {
      if p.tradeDate !in margin {
        return Err(KeyError);
      }
      var available := margin[p.tradeDate] * Leverage;
      var ctv := Commitment(p.initialCtv, side);
      if ctv <= available {
        portfolio.AddPosition(p);
        margin := margin[p.tradeDate := available - ctv];
        r := Ok(());
      } else {
        r := Err(SystemExit);
      }
    }

    /**
     * close_Trade: add the position's countervalue at the snapshot to the
     * ledger entry of the snapshot's date, then close the position. A
     * missing ledger entry or quote is a KeyError that changes nothing.
     */
    method CloseTrade(p: Position, m: Snapshot) returns (r: Result<()>)
      requires Valid() && p in portfolio.positions
      modifies p, this`margin
      ensures Valid()
      ensures r.Ok? <==> m.refDate in old(margin) && (old(p.isOpen) ==> Quoted(old(p.State()), m))
      ensures r.Err? ==> r.error == KeyError && margin == old(margin) && p.State() == old(p.State())
      ensures r.Ok? ==>
        && margin == old(margin)[m.refDate := old(margin)[m.refDate] + Ctv(old(p.State()), m).0]
        && p.State() == Close(old(p.State()), m)
    {
      if m.refDate !in margin {
        return Err(KeyError);
      }
      if p.isOpen && !Quoted(p.State(), m) {
        return Err(KeyError);
      }
      ghost var s := p.State();
      var ctv := p.CalculateCtv(m);
      margin := margin[m.refDate := margin[m.refDate] + ctv];
      CloseAfterValuing(s, m);
      p.ClosePosition(m);
      r := Ok(());
    }

    /**
     * Carry out one order of the strategy: a trade, or close_Trade on the
     * first position get_positions finds (none is an IndexError). The
     * ledger keeps its dates.
     */
    method ExecuteOrder(o: MarginOrder, m: Snapshot) returns (r: Result<()>)
      requires Valid()
      modifies ids, portfolio, portfolio.positions, this`margin
      ensures Valid()
      ensures forall k :: 0 <= k < |portfolio.positions| ==> portfolio.positions[k] in old(portfolio.positions) || fresh(portfolio.positions[k])
      ensures forall e :: e in margin <==> e in old(margin)
      ensures o.CloseFirst? ==> portfolio.positions == old(portfolio.positions)
      ensures o.CloseFirst? && Matching(old(portfolio.positions), o.ticker, o.assetType) == [] ==>
        r == Err(IndexError) && margin == old(margin)
    {
      match o
      case Open(ticker, quantity, assetType, side, strike, expiry, optionType) =>
        r := Trade(ticker, quantity, m, assetType, side, strike, expiry, optionType);
      case CloseFirst(ticker, assetType) =>
        var found := portfolio.GetPositions(ticker, assetType);
        if found == [] {
          return Err(IndexError);
        }
        MatchingMembers(portfolio.positions, ticker, assetType);
        assert found[0] in found;
        r := CloseTrade(found[0], m);
    }

    /** on_data on a date other than the last: ask the strategy for orders and carry them out in order. */
    method OnData(d: Date, m: Snapshot) returns (r: Result<()>)
      requires Valid()
      modifies ids, portfolio, portfolio.positions, this`margin
      ensures Valid()
      ensures forall k :: 0 <= k < |portfolio.positions| ==> portfolio.positions[k] in old(portfolio.positions) || fresh(portfolio.positions[k])
      ensures forall e :: e in margin <==> e in old(margin)
    {
      var orders := strategy(d, portfolio.States());
      var j := 0;
      while j < |orders|
        invariant 0 <= j <= |orders| && Valid()
        invariant forall k :: 0 <= k < |portfolio.positions| ==> portfolio.positions[k] in old(portfolio.positions) || fresh(portfolio.positions[k])
        invariant forall e :: e in margin <==> e in old(margin)
      {
        var done := ExecuteOrder(orders[j], m);
        if done.Err? {
          return Err(done.error);
        }
        j := j + 1;
      }
      r := Ok(());
    }

    /**
     * The first steps of a date: record its snapshot in the history, then
     * seed its ledger entry, with the starting balance on the first date
     * and with the previous processed date's entry on any other.
     */
    method EnterDate(i: nat) returns (r: Result<Snapshot>)
      requires i < |validDates| && firstDate == validDates[0]
      modifies this`history, this`margin, this`opening
      ensures var d := validDates[i];
        && (r.Ok? <==> d in market && (d != firstDate ==> validDates[i - 1] in old(margin)))
        && (r.Err? ==> r.error == KeyError && margin == old(margin) && opening == old(opening))
        && (d in market ==> history == old(history)[d := market[d]])
        && (r.Ok? ==> r.value == market[d])
        && (r.Ok? ==>
              var seed := if d == firstDate then startingBalance else old(margin)[validDates[i - 1]];
              margin == old(margin)[d := seed] && opening == old(opening)[d := seed])
    {
      var d := validDates[i];
      if d !in market {
        return Err(KeyError);
      }
      history := history[d := market[d]];
      if d == firstDate {
        margin := margin[d := startingBalance];
      } else {
        var previous := validDates[i - 1];
        if previous !in margin {
          return Err(KeyError);
        }
        margin := margin[d := margin[previous]];
      }
      opening := opening[d := margin[d]];
      r := Ok(market[d]);
    }

    /** The last date: close every position at its snapshot, then zero the date's ledger entry. */
    method CloseOut(d: Date, m: Snapshot) returns (r: Result<()>)
      requires Valid()
      modifies portfolio.positions, this`margin
      ensures var ss, n := old(portfolio.States()), ReadyPrefix(old(portfolio.States()), m, WhenOpen);
        && (r.Ok? <==> n == |ss|)
        && (r.Err? ==> r.error == KeyError && margin == old(margin))
        && portfolio.States() == CloseUpTo(ss, m, n)
      ensures r.Ok? ==> AllClosed(portfolio.States()) && margin == old(margin)[d := 0.0]
    {
      ghost var ss := portfolio.States();
      r := portfolio.CloseAllPositions(m);
      if r.Err? {
        return;
      }
      forall k | 0 <= k < |ss|
        ensures !portfolio.States()[k].isOpen
      {
        CloseIdempotent(ss[k], m, m);
      }
      margin := margin[d := 0.0];
    }

    /**
     * The date's summary rows, one per position at its snapshot, appended
     * to the run's summary; the positions they were taken from are kept as
     * the date's summarized positions.
     */
    method RecordSummary(d: Date, m: Snapshot, allClosed: bool) returns (r: Result<()>)
      requires Valid()
      requires allClosed ==> AllClosed(portfolio.States())
      modifies this`positionsSummary, this`summarized, portfolio.positions
      ensures var ss, n := old(portfolio.States()), ReadyPrefix(old(portfolio.States()), m, Always);
        && (r.Ok? <==> n == |ss|)
        && (r.Ok? ==> summarized == old(summarized)[d := ss] && Summarized(d, m, old(Book()), Book()))
        && (r.Err? ==> r.error == KeyError && positionsSummary == old(positionsSummary) && summarized == old(summarized))
        && portfolio.States() == RevalueUpTo(ss, m, n)
      ensures r.Ok? && allClosed ==> portfolio.States() == old(portfolio.States())
    {
      ghost var ss := portfolio.States();
      var rows := portfolio.GetPositionsSummary(m);
      if rows.Err? {
        return Err(rows.error);
      }
      if allClosed {
        SummaryOfDate(ss, m);
      }
      positionsSummary := positionsSummary + rows.value;
      summarized := summarized[d := ss];
      r := Ok(());
    }

    /**
     * The work of the last date: close every position, zero the date's
     * ledger entry, record the summary rows. It runs through exactly when
     * every open position can be closed and every closed one summarized.
     */
    method FinishOnDate(d: Date, m: Snapshot) returns (r: Result<()>)
      requires Valid() && d in margin
      modifies this`margin, this`positionsSummary, this`summarized, portfolio.positions
      ensures Valid()
      ensures forall e :: e in margin <==> e in old(margin)
      ensures var ss := old(portfolio.States());
        r.Ok? <==> AllReady(ss, m, WhenOpen) && AllReady(CloseUpTo(ss, m, |ss|), m, Always)
      ensures r.Err? ==> r.error == KeyError && positionsSummary == old(positionsSummary) && summarized == old(summarized)
      ensures r.Ok? ==> ClosedOutOn(d, m, old(portfolio.States()), portfolio.States(), old(Book()), Book())
    {
      ghost var ss := portfolio.States();
      r := CloseOut(d, m);
      if r.Err? {
        return;
      }
      r := RecordSummary(d, m, true);
    }

    /**
     * The work of any other date: the date becomes `ref_date`, on_data
     * runs, then the summary rows of the positions it leaves are recorded.
     */
    method TradeOnDate(d: Date, m: Snapshot) returns (r: Result<()>)
      requires Valid()
      modifies this`refDate, this`margin, this`positionsSummary, this`summarized, ids, portfolio, portfolio.positions
      ensures Valid()
      ensures forall k :: 0 <= k < |portfolio.positions| ==> portfolio.positions[k] in old(portfolio.positions) || fresh(portfolio.positions[k])
      ensures forall e :: e in margin <==> e in old(margin)
      ensures refDate == d
      ensures r.Err? ==> positionsSummary == old(positionsSummary) && summarized == old(summarized)
      ensures r.Ok? ==>
        && Summarized(d, m, old(Book()), Book())
        && portfolio.States() == RevalueUpTo(summarized[d], m, |summarized[d]|)
    {
      refDate := d;
      r := OnData(d, m);
      if r.Err? {
        return;
      }
      ghost var before := Book();
      r := RecordSummary(d, m, false);
      assert r.Ok? ==> Summarized(d, m, before, Book());
    }

    /**
     * The work of one date after its ledger entry is seeded: the date joins
     * the reference dates; the last date closes everything and zeroes its
     * entry, any other becomes `ref_date` and calls on_data; then the
     * summary rows are recorded.
     */
    method ActOnDate(d: Date, m: Snapshot, isLast: bool) returns (r: Result<()>)
      requires Valid() && d in margin
      modifies this`refDates, this`refDate, this`margin, this`positionsSummary, this`summarized
      modifies ids, portfolio, portfolio.positions
      ensures Valid()
      ensures forall k :: 0 <= k < |portfolio.positions| ==> portfolio.positions[k] in old(portfolio.positions) || fresh(portfolio.positions[k])
      ensures forall e :: e in margin <==> e in old(margin)
      ensures refDates == old(refDates) + [d]
      ensures refDate == if isLast then old(refDate) else d
      ensures r.Err? ==> positionsSummary == old(positionsSummary) && summarized == old(summarized)
      ensures r.Ok? ==> Summarized(d, m, old(Book()), Book())
      ensures isLast ==> var ss := old(portfolio.States());
        && (r.Ok? <==> AllReady(ss, m, WhenOpen) && AllReady(CloseUpTo(ss, m, |ss|), m, Always))
        && (r.Err? ==> r.error == KeyError)
      ensures r.Ok? && isLast ==> ClosedOutOn(d, m, old(portfolio.States()), portfolio.States(), old(Book()), Book())
      ensures r.Ok? && !isLast ==> portfolio.States() == RevalueUpTo(summarized[d], m, |summarized[d]|)
    {
      refDates := refDates + [d];
      if isLast {
        r := FinishOnDate(d, m);
      } else {
        r := TradeOnDate(d, m);
      }
    }

    /**
     * One date of the backtest loop: its first steps, then its work; the
     * first error ends the date. When the date's ledger entry cannot be
     * seeded nothing but the history changes.
     */
    method ProcessDate(i: nat, isLast: bool) returns (r: Result<()>)
      requires Valid() && i < |validDates| && firstDate == validDates[0]
      modifies this`history, this`margin, this`opening, this`refDates, this`refDate, this`positionsSummary
      modifies this`summarized, ids, portfolio, portfolio.positions
      ensures Valid()
      ensures forall k :: 0 <= k < |portfolio.positions| ==> portfolio.positions[k] in old(portfolio.positions) || fresh(portfolio.positions[k])
      ensures forall e :: e in margin ==> e in old(margin) || e == validDates[i]
      ensures r == Err(SystemExit) ==> !isLast
      ensures var d := validDates[i];
        && (d in market ==> history == old(history)[d := market[d]])
        && (r.Err? ==> positionsSummary == old(positionsSummary) && summarized == old(summarized))
        && (d in market && (d != firstDate ==> validDates[i - 1] in old(margin)) ==>
              && opening == old(opening)[d := if d == firstDate then startingBalance else old(margin)[validDates[i - 1]]]
              && refDates == old(refDates) + [d])
        && (!(d in market && (d != firstDate ==> validDates[i - 1] in old(margin))) ==>
              && r == Err(KeyError) && margin == old(margin) && opening == old(opening)
              && refDates == old(refDates))
      ensures r.Ok? ==> validDates[i] in market && Summarized(validDates[i], market[validDates[i]], old(Book()), Book())
      ensures r.Ok? && isLast ==>
        ClosedOutOn(validDates[i], market[validDates[i]], old(portfolio.States()), portfolio.States(), old(Book()), Book())
      ensures r.Ok? && !isLast ==>
        portfolio.States() == RevalueUpTo(summarized[validDates[i]], market[validDates[i]], |summarized[validDates[i]]|)
    {
      var entered := EnterDate(i);
      if entered.Err? {
        return Err(entered.error);
      }
      r := ActOnDate(validDates[i], entered.value, isLast);
    }

    /**
     * One turn of the loop: the date at `i` is taken up and processed; the
     * ghost flag notes whether the last date's work ran through.
     */
    method StepDate(i: nat) returns (r: Result<()>)
      requires Valid() && StrictlyIncreasing(validDates) && i < |validDates|
      requires firstDate == validDates[0] && lastDate == validDates[|validDates| - 1]
      requires attempted == validDates[..i] && forall e :: e in margin ==> e in validDates
      modifies this`history, this`margin, this`refDates, this`refDate, this`positionsSummary
      modifies this`attempted, this`closedOut, this`opening, this`summarized, ids, portfolio, portfolio.positions
      ensures Valid()
      ensures forall k :: 0 <= k < |portfolio.positions| ==> portfolio.positions[k] in old(portfolio.positions) || fresh(portfolio.positions[k])
      ensures attempted == validDates[..i + 1]
      ensures forall e :: e in margin ==> e in validDates
      ensures r == Err(SystemExit) ==> i < |validDates| - 1
      ensures closedOut <==> r.Ok? && i == |validDates| - 1
      ensures closedOut ==> AllClosed(portfolio.States()) && lastDate in margin && margin[lastDate] == 0.0
      ensures var d := validDates[i];
        && (r.Err? ==> positionsSummary == old(positionsSummary) && summarized == old(summarized))
        && (d in market && (d != firstDate ==> validDates[i - 1] in old(margin)) ==>
              opening == old(opening)[d := if d == firstDate then startingBalance else old(margin)[validDates[i - 1]]])
        && (!(d in market && (d != firstDate ==> validDates[i - 1] in old(margin))) ==>
              r == Err(KeyError) && margin == old(margin) && opening == old(opening))
      ensures r.Ok? ==> validDates[i] in market && Summarized(validDates[i], market[validDates[i]], old(Book()), Book())
      ensures closedOut ==>
        ClosedOutOn(lastDate, market[lastDate], old(portfolio.States()), portfolio.States(), old(Book()), Book())
    {
      var d := validDates[i];
      IncreasingAt(validDates, i);
      attempted := attempted + [d];
      r := ProcessDate(i, d == lastDate);
      closedOut := r.Ok? && d == lastDate;
      TakeOneMore(validDates, i);
    }

    /**
     * The loop of backtest: every valid date is taken up in order. An
     * exception ends only its own date; the `exit()` of a refused trade ends
     * the run.
     */
    method RunDates() returns (r: Result<()>)
      requires Valid() && validDates != [] && StrictlyIncreasing(validDates)
      requires firstDate == validDates[0] && lastDate == validDates[|validDates| - 1]
      requires attempted == [] && forall e :: e in margin ==> e in validDates
      modifies this`history, this`margin, this`refDates, this`refDate, this`positionsSummary
      modifies this`attempted, this`closedOut, this`opening, this`summarized, ids, portfolio, portfolio.positions
      ensures Valid()
      ensures r.Err? ==> r.error == SystemExit
      ensures r.Ok? ==> attempted == validDates
      ensures forall e :: e in margin ==> e in validDates
      ensures r.Ok? && closedOut ==> AllClosed(portfolio.States()) && lastDate in margin && margin[lastDate] == 0.0
    {
      closedOut := false;
      var n := |validDates|;
      var i := 0;
      while i < n
        invariant 0 <= i <= n && Valid()
        invariant forall k :: 0 <= k < |portfolio.positions| ==> portfolio.positions[k] in old(portfolio.positions) || fresh(portfolio.positions[k])
        invariant attempted == validDates[..i]
        invariant forall e :: e in margin ==> e in validDates
        invariant closedOut ==> i == n && AllClosed(portfolio.States()) && lastDate in margin && margin[lastDate] == 0.0
      {
        var step := StepDate(i);
        if step == Err(SystemExit) {
          return Err(SystemExit);
        }
        i := i + 1;
      }
      assert validDates[..n] == validDates;
      r := Ok(());
    }

    /** The start of backtest: on_start builds the grid, then the summary and reference dates are reset. */
    method BeginRun() returns (r: Result<()>)
      requires StrictlyIncreasing(backtestDates)
      requires validDates == [] && unprocessedDates == []
      modifies this`validDates, this`unprocessedDates, this`firstDate, this`lastDate
      modifies this`positionsSummary, this`refDates, this`refDate
      ensures validDates == RunGrid().valid && unprocessedDates == RunGrid().unprocessed
      ensures r.Ok? <==> validDates != []
      ensures r.Err? ==> r.error == ValueError
      ensures StrictlyIncreasing(validDates)
      ensures r.Ok? ==>
        && firstDate == validDates[0] && lastDate == validDates[|validDates| - 1]
        && positionsSummary == [] && refDates == []
    {
      ghost var grid := RunGrid();
      GridKeepsOrder(backtestDates, market, priceTickers, volTickers, isHoliday);
      r := OnStart();
      assert validDates == grid.valid;
      if r.Err? {
        return;
      }
      positionsSummary := [];
      refDates := [];
      refDate := firstDate;
    }

    /**
     * backtest: start, walk the dates, then group the summary rows by date
     * into the period P&L, which stays unset when there are no rows. Only
     * the first run of a fresh engine is modelled.
     */
    method Backtest() returns (r: Result<()>)
      requires Valid() && StrictlyIncreasing(backtestDates)
      requires validDates == [] && unprocessedDates == [] && margin == map[] && attempted == []
      requires periodPnl == Absent
      modifies this`validDates, this`unprocessedDates, this`firstDate, this`lastDate, this`periodPnl
      modifies this`history, this`margin, this`refDates, this`refDate, this`positionsSummary
      modifies this`attempted, this`closedOut, this`opening, this`summarized, ids, portfolio, portfolio.positions
      ensures validDates == RunGrid().valid && unprocessedDates == RunGrid().unprocessed
      ensures validDates == [] ==> r == Err(ValueError)
      ensures r.Err? ==> r.error == ValueError || r.error == SystemExit
      ensures r.Err? ==> periodPnl == Absent
      ensures forall e :: e in margin ==> e in validDates
      ensures r.Ok? ==>
        && attempted == validDates
        && (closedOut ==> AllClosed(portfolio.States()) && lastDate in margin && margin[lastDate] == 0.0)
        && (positionsSummary == [] <==> periodPnl == Absent)
        && (periodPnl.Present? ==> periodPnl.value == PeriodPnl(positionsSummary, startingBalance))
    {
      r := BeginRun();
      if r.Err? {
        return;
      }
      r := RunDates();
      if r.Err? {
        return;
      }
      if positionsSummary == [] {
        return;
      }
      periodPnl := Present(PeriodPnl(positionsSummary, startingBalance));
    }
  }
}
