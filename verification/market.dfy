/**
 * The market snapshot the core reads: one per reference date, built by the
 * data-ingestion layer and never written by the core.
 */
module Market {
  import opened Calendar
  import opened Enums

  /**
   * The analytic European price QuantLib returns for an option on a symbol
   * (strike, expiry, kind), with spot, flat risk-free rate, flat dividend
   * yield and a volatility interpolated on the symbol's surface, all taken
   * from the snapshot. The pricing library is outside the model, so each
   * snapshot carries the pricing result as a function.
   */
  type AnalyticPrice = (string, real, Date, OptionType) -> real

  /**
   * `closes[s]` is the snapshot's `['equity'][s]['close']`, `surfaces` the
   * symbols with a `['volatility'][s]` entry.
   */
  datatype Snapshot = Snapshot(
    refDate: Date,
    closes: map<string, real>,
    surfaces: set<string>,
    analytic: AnalyticPrice)

  /** The ingestion layer keys each snapshot by its own reference date. */
  ghost predicate WellKeyed(market: map<Date, Snapshot>) {
    forall d :: d in market ==> market[d].refDate == d
  }
}
