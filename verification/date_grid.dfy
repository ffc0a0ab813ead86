/**
 * The date grid of a backtest (backtester/core/engine.py, `_create_date_grid`;
 * examples/debug.py repeats the same loop without the frequency guard):
 * the calendar days of the run are split into the dates that are processed
 * and the dates that lack data, skipping holidays altogether.
 */
module DateGrid {
  import opened Calendar
  import opened Market

  datatype Grid = Grid(valid: seq<Date>, unprocessed: seq<Date>)

  /**
   * Looking up every price ticker's close and every volatility ticker's
   * surface on `d` succeeds. With no tickers nothing is looked up, so the
   * date counts as available even when the market has no snapshot for it.
   */
  predicate Available(market: map<Date, Snapshot>, d: Date,
                      priceTickers: seq<string>, volTickers: seq<string>)
  {
    && (forall p :: p in priceTickers ==> d in market && p in market[d].closes)
    && (forall p :: p in volTickers ==> d in market && p in market[d].surfaces)
  }

  /** The grid built from the days `ds`, one day at a time. */
  function GridOf(ds: seq<Date>, market: map<Date, Snapshot>,
                  priceTickers: seq<string>, volTickers: seq<string>,
                  isHoliday: Date -> bool): Grid
    decreases |ds|
  {
    if ds == [] then Grid([], [])
    else
      var g := GridOf(ds[..|ds| - 1], market, priceTickers, volTickers, isHoliday);
      var d := ds[|ds| - 1];
      if isHoliday(d) then g
      else if Available(market, d, priceTickers, volTickers) then Grid(g.valid + [d], g.unprocessed)
      else Grid(g.valid, g.unprocessed + [d])
  }

  /**
   * A day is valid exactly when it is one of the days, not a holiday and
   * available; it is unprocessed exactly when it is one of the days, not a
   * holiday and not available. So the two lists are disjoint and neither
   * holds a holiday.
   */
  lemma {:induction false} GridMembership(ds: seq<Date>, market: map<Date, Snapshot>,
                                          priceTickers: seq<string>, volTickers: seq<string>,
                                          isHoliday: Date -> bool, d: Date)
    ensures var g := GridOf(ds, market, priceTickers, volTickers, isHoliday);
      && (d in g.valid <==> d in ds && !isHoliday(d) && Available(market, d, priceTickers, volTickers))
      && (d in g.unprocessed <==> d in ds && !isHoliday(d) && !Available(market, d, priceTickers, volTickers))
    decreases |ds|
  {
    if ds != [] {
      var front := ds[..|ds| - 1];
      GridMembership(front, market, priceTickers, volTickers, isHoliday, d);
      assert ds == front + [ds[|ds| - 1]];
    }
  }

  /** Both lists keep the calendar order of the days they come from. */
  lemma {:induction false} GridKeepsOrder(ds: seq<Date>, market: map<Date, Snapshot>,
                                          priceTickers: seq<string>, volTickers: seq<string>,
                                          isHoliday: Date -> bool)
    requires StrictlyIncreasing(ds)
    ensures StrictlyIncreasing(GridOf(ds, market, priceTickers, volTickers, isHoliday).valid)
    ensures StrictlyIncreasing(GridOf(ds, market, priceTickers, volTickers, isHoliday).unprocessed)
    decreases |ds|
  {
    if ds != [] {
      var front := ds[..|ds| - 1];
      var last := ds[|ds| - 1];
      IncreasingPairs(ds);
      GridKeepsOrder(front, market, priceTickers, volTickers, isHoliday);
      var g := GridOf(front, market, priceTickers, volTickers, isHoliday);
      forall e | e in front
        ensures e < last
      {
        var k :| 0 <= k < |front| && front[k] == e;
        assert ds[k] == e;
      }
      forall e | e in g.valid || e in g.unprocessed
        ensures e < last
      {
        GridMembership(front, market, priceTickers, volTickers, isHoliday, e);
      }
      AppendIncreasing(g.valid, last);
      AppendIncreasing(g.unprocessed, last);
    }
  }

  /**
   * _create_date_grid: walk the days in order; skip a holiday, put a day
   * whose data is incomplete into `unprocessed`, and any other day into
   * `valid`.
   */
  method CreateDateGrid(ds: seq<Date>, market: map<Date, Snapshot>,
                        priceTickers: seq<string>, volTickers: seq<string>,
                        isHoliday: Date -> bool)
    returns (valid: seq<Date>, unprocessed: seq<Date>)
    ensures Grid(valid, unprocessed) == GridOf(ds, market, priceTickers, volTickers, isHoliday)
    ensures forall d :: d in valid ==> d in ds && !isHoliday(d) && d !in unprocessed
    ensures forall d :: d in unprocessed ==> d in ds && !isHoliday(d)
  {
    valid, unprocessed := [], [];
    var i := 0;
    while i < |ds|
      invariant 0 <= i <= |ds|
      invariant Grid(valid, unprocessed) == GridOf(ds[..i], market, priceTickers, volTickers, isHoliday)
    {
      var d := ds[i];
      assert ds[..i + 1][..i] == ds[..i];
      if isHoliday(d) {
      } else if Available(market, d, priceTickers, volTickers) {
        valid := valid + [d];
      } else {
        unprocessed := unprocessed + [d];
      }
      i := i + 1;
    }
    assert ds[..i] == ds;
    forall d | d in valid + unprocessed
      ensures d in ds && !isHoliday(d) && (d in valid ==> d !in unprocessed)
    {
      GridMembership(ds, market, priceTickers, volTickers, isHoliday, d);
    }
  }
}
