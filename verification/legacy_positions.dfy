/**
 * The older position classes (pricing/positions.py). They have the same
 * shape as the later ones, with different rules: there is no trade id, an
 * equity is valued at the snapshot's `price` field, `close_position` has no
 * open guard, and valuing an option never settles it.
 *
 * OptionPosition's constructor writes `event_dates['expiry']` before the
 * base constructor has created `event_dates`, so building an option always
 * raises AttributeError; every live position of this version is an equity.
 * The option valuation rule is still stated, as a function of the snapshot.
 */
module LegacyPositions {
  import opened Outcomes
  import opened Enums
  import opened Calendar
  import Positions

  /**
   * The snapshot this version reads: `ref_date` and, per symbol, the
   * `['equity'][s]['price']` field.
   */
  datatype PriceSnapshot = PriceSnapshot(refDate: Date, prices: map<string, real>)

  /** The fields of a position object. */
  datatype LegacyState = LegacyState(
    symbol: string,
    assetType: AssetType,
    side: PositionType,
    tradeDate: Date,
    entryPrice: real,
    quantity: real,
    isOpen: bool,
    closedPnl: real)

  /** EquityPosition.calculate_value: the symbol's price; a missing symbol raises KeyError. */
  function EquityValue(symbol: string, m: PriceSnapshot): (r: Result<real>)
    ensures r.Ok? <==> symbol in m.prices
    ensures r.Ok? ==> r.value == m.prices[symbol]
  {
    if symbol in m.prices then Ok(m.prices[symbol]) else Err(KeyError)
  }

  /** calculate_pnl: the value is read only while the position is open. */
  function Pnl(s: LegacyState, m: PriceSnapshot): Result<real> {
    if !s.isOpen then Ok(0.0)
    else
      var v := EquityValue(s.symbol, m);
      if v.Err? then Err(v.error) else Ok((v.value - s.entryPrice) * Positions.Sign(s.side) * s.quantity)
  }

  /**
   * close_position: the P&L at the snapshot becomes the realised P&L, the
   * quantity drops to 0 and the flag clears, whether or not the position
   * was still open. A failed valuation leaves the position as it was.
   */
  function Close(s: LegacyState, m: PriceSnapshot): Result<LegacyState> {
    match Pnl(s, m)
    case Ok(pnl) => Ok(s.(closedPnl := pnl, quantity := 0.0, isOpen := false))
    case Err(e) => Err(e)
  }

  /** The state EquityPosition(...) leaves: open, nothing realised, entry price read at the trade snapshot. */
  function OpenedEquity(symbol: string, quantity: real, m: PriceSnapshot, side: PositionType): LegacyState
    requires symbol in m.prices
  {
    LegacyState(symbol, Equity, side, m.refDate, m.prices[symbol], quantity, true, 0.0)
  }

  /**
   * OptionPosition.calculate_value: on the expiry date the payoff
   * `max((price - strike) * sign, 0)` with sign +1 for a call and -1 for a
   * put; after it 0; before it the analytic price `npv` the pricing library
   * returns. Nothing is settled and the position is not written. The
   * KeyErrors the pricing inputs can raise before expiry (a missing
   * volatility, price, rate or dividend yield, pricing/positions.py:71-80)
   * are folded into `npv`: no live position reaches this branch, since
   * NewOptionPosition always fails.
   */
  function OptionValue(symbol: string, strike: real, expiry: Date, optionType: OptionType,
                       m: PriceSnapshot, npv: real): (r: Result<real>)
    ensures Positions.IsExpiryDate(expiry, m.refDate) ==>
      && (r.Ok? <==> symbol in m.prices)
      && (r.Ok? ==> r.value >= 0.0 && r.value >= (m.prices[symbol] - strike) * (optionType.QuantLibType() as real))
      && (r.Ok? ==> r.value == 0.0 || r.value == (m.prices[symbol] - strike) * (optionType.QuantLibType() as real))
    ensures m.refDate > expiry ==> r == Ok(0.0)
    ensures m.refDate < expiry ==> r == Ok(npv)
  {
    if Positions.IsExpiryDate(expiry, m.refDate) then
      match EquityValue(symbol, m)
      case Ok(price) => Ok(Positions.Payoff(strike, optionType, price))
      case Err(e) => Err(e)
    else if m.refDate > expiry then Ok(0.0)
    else Ok(npv)
  }

  // ----- Properties of a single position -----

  /**
   * A new equity position is open with nothing realised; its entry price
   * is the price at the trade snapshot, so its P&L there is 0.
   */
  lemma OpenedAtEntry(symbol: string, quantity: real, m: PriceSnapshot, side: PositionType)
    requires symbol in m.prices
    ensures var s := OpenedEquity(symbol, quantity, m, side);
      && s.isOpen && s.closedPnl == 0.0 && s.quantity == quantity && s.tradeDate == m.refDate
      && EquityValue(symbol, m) == Ok(s.entryPrice)
      && Pnl(s, m).Ok? && Pnl(s, m).value == 0.0
  {
  }

  /**
   * While open, the P&L is `(price - entry) * side * quantity`, and a
   * missing price raises KeyError; once closed it is 0 and reads nothing.
   */
  lemma PnlRule(s: LegacyState, m: PriceSnapshot)
    ensures s.isOpen ==> (Pnl(s, m).Ok? <==> s.symbol in m.prices)
    ensures s.isOpen && s.symbol in m.prices ==>
      Pnl(s, m).value == (m.prices[s.symbol] - s.entryPrice) * Positions.Sign(s.side) * s.quantity
    ensures s.isOpen && s.symbol !in m.prices ==> Pnl(s, m) == Err(KeyError)
    ensures !s.isOpen ==> Pnl(s, m) == Ok(0.0)
  {
  }

  /** A long and a short position with the same fields have opposite P&L. */
  lemma SidesMirror(s: LegacyState, m: PriceSnapshot)
    requires s.side == Long && Pnl(s, m).Ok?
    ensures Pnl(s.(side := Short), m).Ok? && Pnl(s.(side := Short), m).value == -Pnl(s, m).value
  {
  }

  /**
   * Closing realises the P&L at the closing snapshot, zeroes the quantity
   * and clears the flag; after it the position reports no open P&L.
   */
  lemma CloseRealises(s: LegacyState, m: PriceSnapshot, later: PriceSnapshot)
    requires Pnl(s, m).Ok?
    ensures Close(s, m).Ok?
    ensures var c := Close(s, m).value;
      && !c.isOpen && c.quantity == 0.0 && c.closedPnl == Pnl(s, m).value
      && Pnl(c, later) == Ok(0.0)
      && c.symbol == s.symbol && c.entryPrice == s.entryPrice && c.tradeDate == s.tradeDate
  {
  }

  /**
   * Closing a second time is not a no-op: the P&L of a closed position is
   * 0, so the realised P&L of the first close is overwritten with 0.
   */
  lemma CloseTwiceForgets(s: LegacyState, m: PriceSnapshot, later: PriceSnapshot)
    requires Pnl(s, m).Ok?
    ensures var c := Close(s, m).value;
      && Close(c, later) == Ok(c.(closedPnl := 0.0))
      && (Close(c, later) == Ok(c) <==> Pnl(s, m).value == 0.0)
  {
  }

  /**
   * A long equity bought at 10 and closed at 12: the first close realises
   * 2, the second close leaves 0 realised.
   */
  lemma CloseTwiceExample()
    ensures var m := PriceSnapshot(5, map["XYZ" := 12.0]);
      var s := LegacyState("XYZ", Equity, Long, 1, 10.0, 1.0, true, 0.0);
      && Close(s, m).Ok? && Close(s, m).value.closedPnl == 2.0
      && Close(Close(s, m).value, m).Ok? && Close(Close(s, m).value, m).value.closedPnl == 0.0
  {
  }

  /**
   * An option is worth its payoff on the expiry date and nothing the day
   * after, whatever the price: a call in the money at expiry drops to 0.
   */
  lemma OptionValueAroundExpiry(symbol: string, strike: real, expiry: Date, optionType: OptionType,
                                m: PriceSnapshot, npv: real)
    requires m.refDate == expiry && symbol in m.prices
    ensures OptionValue(symbol, strike, expiry, optionType, m, npv)
            == Ok(Positions.Payoff(strike, optionType, m.prices[symbol]))
    ensures OptionValue(symbol, strike, expiry, optionType, m.(refDate := expiry + 1), npv) == Ok(0.0)
  {
  }

  class LegacyPosition {
    const symbol: string
    const assetType: AssetType
    const side: PositionType
    const tradeDate: Date
    const entryPrice: real
    var quantity: real
    var isOpen: bool
    var closedPnl: real

    function State(): LegacyState
      reads this
    {
      LegacyState(symbol, assetType, side, tradeDate, entryPrice, quantity, isOpen, closedPnl)
    }

    /** EquityPosition.__init__ once the entry price can be read. */
    constructor (symbol: string, quantity: real, m: PriceSnapshot, side: PositionType)
      requires symbol in m.prices
      ensures State() == OpenedEquity(symbol, quantity, m, side)
    {
      this.isOpen := true;
      this.closedPnl := 0.0;
      this.symbol := symbol;
      this.assetType := Equity;
      this.quantity := quantity;
      this.tradeDate := m.refDate;
      this.entryPrice := m.prices[symbol];
      this.side := side;
    }

    /** close_position, with no open guard. */
    method ClosePosition(m: PriceSnapshot) returns (r: Result<()>)
      modifies this
      ensures Close(old(State()), m).Ok? ==> r.Ok? && State() == Close(old(State()), m).value
      ensures Close(old(State()), m).Err? ==> r == Err(KeyError) && State() == old(State())
    {
      var pnl := Pnl(State(), m);
      if pnl.Err? {
        return Err(pnl.error);
      }
      closedPnl := pnl.value;
      quantity := 0.0;
      isOpen := false;
      r := Ok(());
    }
  }

  /** EquityPosition(...): the entry price is read first, so a symbol without a price raises KeyError. */
  method NewEquityPosition(symbol: string, quantity: real, m: PriceSnapshot, side: PositionType)
    returns (r: Result<LegacyPosition>)
    ensures r.Ok? <==> symbol in m.prices
    ensures r.Err? ==> r.error == KeyError
    ensures r.Ok? ==> fresh(r.value) && r.value.State() == OpenedEquity(symbol, quantity, m, side)
  {
    if symbol !in m.prices {
      return Err(KeyError);
    }
    var p := new LegacyPosition(symbol, quantity, m, side);
    r := Ok(p);
  }

  /**
   * OptionPosition(...): the subclass stores its fields, then writes
   * `event_dates['expiry']` before the base constructor has created
   * `event_dates`, which raises AttributeError whatever the arguments.
   */
  method NewOptionPosition(symbol: string, quantity: real, m: PriceSnapshot, strike: real,
                           expiry: Date, optionType: OptionType, side: PositionType)
    returns (r: Result<LegacyPosition>)
    ensures r == Err(AttributeError)
  {
    r := Err(AttributeError);
  }
}
