/**
 * Positions (backtester/core/position.py): an equity or European-option
 * holding with a unique trade id, an entry price fixed when it is opened,
 * open P&L while it is alive and a realised P&L frozen when it closes.
 *
 * The functions on `PositionState` say what each Python method computes and
 * how it leaves the position; the class `Position` has the source's fields
 * and methods and is proved against them. Valuing an option on or after its
 * expiry date settles it (the Python `calculate_value` writes the position's
 * fields), so the valuation functions return the new state with the value.
 */
module Positions {
  import opened Outcomes
  import opened Enums
  import opened Calendar
  import opened Market

  /** What a position holds: shares, or a European option on the shares. */
  datatype Contract =
    | EquityContract
    | OptionContract(strike: real, expiry: Date, optionType: OptionType)
  {
    /** The asset type each subclass hands to the base constructor. */
    function Kind(): AssetType {
      if EquityContract? then Equity else Option
    }
  }

  /** The fields of a position object. */
  datatype PositionState = PositionState(
    tradeId: int,
    symbol: string,
    contract: Contract,
    side: PositionType,
    tradeDate: Date,
    entryPrice: real,
    initialCtv: real,
    quantity: real,
    isOpen: bool,
    closedPnl: real)

  /** Trade ids are five-digit integers. */
  predicate IsTradeId(id: int) {
    10000 <= id <= 99999
  }

  /** The side multiplier as a real number. */
  function Sign(side: PositionType): (r: real)
    ensures r == 1.0 || r == -1.0
  {
    side.Value() as real
  }

  /** is_expiry_date: the reference date is the expiry date itself. */
  predicate IsExpiryDate(expiry: Date, refDate: Date) {
    refDate == expiry
  }

  /** Valuing the contract on the snapshot takes the expiry branch (on the expiry date or after it). */
  predicate Settles(c: Contract, m: Snapshot) {
    c.OptionContract? && (IsExpiryDate(c.expiry, m.refDate) || m.refDate > c.expiry)
  }

  /**
   * The snapshot holds every quote `calculate_value` looks up: the close of
   * the symbol (also the option's spot) and, for an option before expiry,
   * its volatility surface. A settled option is valued without any lookup.
   */
  predicate Quoted(s: PositionState, m: Snapshot) {
    if Settles(s.contract, m) then (s.isOpen ==> s.symbol in m.closes)
    else s.symbol in m.closes && (s.contract.OptionContract? ==> s.symbol in m.surfaces)
  }

  /** The state a position keeps while it lives: it is open with nothing realised, or closed with no quantity. */
  predicate Consistent(s: PositionState) {
    && (s.isOpen ==> s.closedPnl == 0.0)
    && (!s.isOpen ==> s.quantity == 0.0)
  }

  /**
   * _payoff: the intrinsic value `max((spot - strike) * t, 0)`, with `t` the
   * QuantLib option type (+1 for a call, -1 for a put).
   */
  function Payoff(strike: real, optionType: OptionType, spot: real): (r: real)
    ensures r >= 0.0
    ensures r >= (spot - strike) * (optionType.QuantLibType() as real)
    ensures r == 0.0 || r == (spot - strike) * (optionType.QuantLibType() as real)
    ensures optionType == Call ==> (r > 0.0 <==> spot > strike)
    ensures optionType == Put ==> (r > 0.0 <==> spot < strike)
  {
    var intrinsic := (spot - strike) * (optionType.QuantLibType() as real);
    if intrinsic > 0.0 then intrinsic else 0.0
  }

  /** The expiry branch of calculate_value on an open option: realise the payoff and close. */
  function Settle(s: PositionState, m: Snapshot): PositionState
    requires s.contract.OptionContract? && s.symbol in m.closes
  {
    var payoff := Payoff(s.contract.strike, s.contract.optionType, m.closes[s.symbol]);
    s.(closedPnl := (payoff - s.entryPrice) * s.quantity * Sign(s.side),
       quantity := 0.0,
       isOpen := false)
  }

  /**
   * calculate_value: the close for an equity; for an option, 0 on or after
   * its expiry date (settling it first if it is still open) and the analytic
   * price before. The second component is the position afterwards.
   */
  function Value(s: PositionState, m: Snapshot): (real, PositionState)
    requires Quoted(s, m)
  {
    match s.contract
    case EquityContract => (m.closes[s.symbol], s)
    case OptionContract(strike, expiry, optionType) =>
      if Settles(s.contract, m) then (0.0, if s.isOpen then Settle(s, m) else s)
      else (m.analytic(s.symbol, strike, expiry, optionType), s)
  }

  /**
   * calculate_pnl: `(value - entry) * side * quantity` while open, 0 once
   * closed. Python reads `quantity` after `calculate_value` has run, so an
   * option settled by that very call reports 0.
   */
  function Pnl(s: PositionState, m: Snapshot): (real, PositionState)
    requires s.isOpen ==> Quoted(s, m)
  {
    if s.isOpen then
      var r := Value(s, m);
      ((r.0 - s.entryPrice) * Sign(s.side) * r.1.quantity, r.1)
    else (0.0, s)
  }

  /** calculate_ctv: `value * side * quantity` while open, 0 once closed. */
  function Ctv(s: PositionState, m: Snapshot): (real, PositionState)
    requires s.isOpen ==> Quoted(s, m)
  {
    if s.isOpen then
      var r := Value(s, m);
      (r.0 * Sign(s.side) * r.1.quantity, r.1)
    else (0.0, s)
  }

  /** The P&L a position carries at a snapshot: open P&L plus what it has already realised. */
  function GlobalPnl(s: PositionState, m: Snapshot): real
    requires s.isOpen ==> Quoted(s, m)
  {
    var r := Pnl(s, m);
    r.0 + r.1.closedPnl
  }

  /**
   * close_position exactly as written: when open, store `calculate_pnl`
   * as the realised P&L, zero the quantity and clear the flag. For an open
   * option on or after expiry, `calculate_pnl` settles the option (storing
   * the payoff P&L) and returns 0, which then overwrites the payoff P&L.
   */
  function CloseAsWritten(s: PositionState, m: Snapshot): PositionState
    requires s.isOpen ==> Quoted(s, m)
  {
    if s.isOpen then
      var r := Pnl(s, m);
      r.1.(closedPnl := r.0, quantity := 0.0, isOpen := false)
    else s
  }

  /**
   * close_position as intended: an open position realises its P&L at the
   * snapshot; when valuing it already settled the option, the settlement
   * stands. A closed position is left alone.
   */
  function Close(s: PositionState, m: Snapshot): PositionState
    requires s.isOpen ==> Quoted(s, m)
  {
    if s.isOpen then
      var r := Pnl(s, m);
      if r.1.isOpen then r.1.(closedPnl := r.0, quantity := 0.0, isOpen := false) else r.1
    else s
  }

  /** Every quote an opening position is valued with is in the snapshot. */
  predicate EntryQuoted(symbol: string, contract: Contract, m: Snapshot) {
    symbol in m.closes && (contract.OptionContract? ==> symbol in m.surfaces)
  }

  /** The value calculate_value gives a position that is being opened (before its expiry). */
  function EntryValue(symbol: string, contract: Contract, m: Snapshot): real
    requires EntryQuoted(symbol, contract, m) && !Settles(contract, m)
  {
    match contract
    case EquityContract => m.closes[symbol]
    case OptionContract(strike, expiry, optionType) => m.analytic(symbol, strike, expiry, optionType)
  }

  /** The state Position.__init__ builds: open, nothing realised, entry price and initial countervalue fixed. */
  function Opened(id: int, symbol: string, contract: Contract, quantity: real,
                  m: Snapshot, side: PositionType): PositionState
    requires EntryQuoted(symbol, contract, m) && !Settles(contract, m)
  {
    var entry := EntryValue(symbol, contract, m);
    PositionState(id, symbol, contract, side, m.refDate, entry, entry * quantity, quantity, true, 0.0)
  }

  // ----- Properties of a single position -----

  /**
   * A new position is open with nothing realised; its entry price is what
   * calculate_value gives at the trade snapshot (the close for an equity),
   * its initial countervalue is entry price times quantity, and at that
   * snapshot its P&L is 0 and its countervalue is `side * initial_ctv`.
   */
  lemma OpenedPosition(id: int, symbol: string, contract: Contract, quantity: real,
                       m: Snapshot, side: PositionType)
    requires EntryQuoted(symbol, contract, m) && !Settles(contract, m)
    ensures var s := Opened(id, symbol, contract, quantity, m, side);
      && s.isOpen && s.closedPnl == 0.0 && Consistent(s)
      && s.tradeId == id && s.tradeDate == m.refDate
      && Quoted(s, m)
      && Value(s, m) == (s.entryPrice, s)
      && (contract == EquityContract ==> s.entryPrice == m.closes[symbol])
      && s.initialCtv == s.entryPrice * quantity
      && Pnl(s, m).0 == 0.0 && Pnl(s, m).1 == s
      && Ctv(s, m).0 == Sign(side) * s.initialCtv && Ctv(s, m).1 == s
  {
  }

  /** While open, an equity's P&L is `(close - entry) * side * quantity`, and valuing it changes nothing. */
  lemma EquityPnl(s: PositionState, m: Snapshot)
    requires s.contract == EquityContract && s.isOpen && Quoted(s, m)
    ensures Pnl(s, m).0 == (m.closes[s.symbol] - s.entryPrice) * Sign(s.side) * s.quantity
    ensures Ctv(s, m).0 == m.closes[s.symbol] * Sign(s.side) * s.quantity
    ensures Pnl(s, m).1 == s && Ctv(s, m).1 == s
  {
  }

  /** A closed position reports no P&L and no countervalue, and valuing it changes nothing. */
  lemma ClosedReportsZero(s: PositionState, m: Snapshot)
    requires !s.isOpen
    ensures Pnl(s, m) == (0.0, s) && Ctv(s, m) == (0.0, s)
    ensures Quoted(s, m) ==> Value(s, m).1 == s
  {
  }

  /**
   * On or after expiry an open option is valued at 0 and settled: the
   * payoff P&L `(payoff - entry) * quantity * side` is realised, the
   * quantity drops to 0 and the position closes; its open P&L is then 0.
   */
  lemma OptionSettlesAtExpiry(s: PositionState, m: Snapshot)
    requires s.contract.OptionContract? && s.isOpen && m.refDate >= s.contract.expiry
    requires s.symbol in m.closes
    ensures Quoted(s, m)
    ensures var (v, s') := Value(s, m);
      && v == 0.0 && !s'.isOpen && s'.quantity == 0.0
      && s'.closedPnl == (Payoff(s.contract.strike, s.contract.optionType, m.closes[s.symbol]) - s.entryPrice)
                         * s.quantity * Sign(s.side)
    ensures Pnl(s, m).0 == 0.0 && Ctv(s, m).0 == 0.0
  {
  }

  /** Before expiry an option is worth its analytic price and valuing it changes nothing. */
  lemma OptionBeforeExpiry(s: PositionState, m: Snapshot)
    requires s.contract.OptionContract? && m.refDate < s.contract.expiry && Quoted(s, m)
    ensures Value(s, m) == (m.analytic(s.symbol, s.contract.strike, s.contract.expiry, s.contract.optionType), s)
  {
  }

  /** Valuation, P&L, countervalue and closing keep a position consistent. */
  lemma ConsistencyPreserved(s: PositionState, m: Snapshot)
    requires Consistent(s) && (s.isOpen ==> Quoted(s, m))
    ensures Consistent(Pnl(s, m).1) && Consistent(Ctv(s, m).1) && Consistent(Close(s, m))
    ensures Quoted(s, m) ==> Consistent(Value(s, m).1)
  {
  }

  /**
   * Closing an open position realises exactly its global P&L at the closing
   * snapshot, zeroes the quantity and clears the flag; from then on its
   * global P&L stays that realised amount whatever the snapshot.
   */
  lemma {:induction false} CloseRealisesGlobalPnl(s: PositionState, m: Snapshot, later: Snapshot)
    requires Consistent(s) && (s.isOpen ==> Quoted(s, m))
    ensures var c := Close(s, m);
      && !c.isOpen && c.quantity == (if s.isOpen then 0.0 else s.quantity)
      && c.closedPnl == GlobalPnl(s, m)
      && GlobalPnl(c, later) == c.closedPnl
  {
    if s.isOpen {
      var (pnl, s') := Pnl(s, m);
      if !s'.isOpen {
        assert Settles(s.contract, m) && s' == Settle(s, m);
      }
    }
  }

  /** Closing twice is closing once: a closed position is left as it is. */
  lemma CloseIdempotent(s: PositionState, m: Snapshot, later: Snapshot)
    requires s.isOpen ==> Quoted(s, m)
    ensures !Close(s, m).isOpen
    ensures Close(Close(s, m), later) == Close(s, m)
  {
  }

  /** The two readings of close_position differ only for an open option on or after its expiry date. */
  lemma CloseAsWrittenAgreesOtherwise(s: PositionState, m: Snapshot)
    requires s.isOpen ==> Quoted(s, m)
    requires !(s.isOpen && Settles(s.contract, m))
    ensures CloseAsWritten(s, m) == Close(s, m)
  {
  }

  /**
   * A long call, strike 10, entry price 1, one unit, closed on its expiry
   * date with the underlying at 15: as written the realised P&L is 0; the
   * payoff P&L is (5 - 1) * 1 * 1 = 4.
   */
  lemma CloseAsWrittenDropsPayoff()
    ensures var m := Snapshot(100, map["XYZ" := 15.0], {}, (sym: string, k: real, e: Date, t: OptionType) => 0.0);
      var s := PositionState(10000, "XYZ", OptionContract(10.0, 100, Call), Long, 90, 1.0, 1.0, 1.0, true, 0.0);
      && CloseAsWritten(s, m).closedPnl == 0.0
      && Close(s, m).closedPnl == 4.0
      && GlobalPnl(s, m) == 4.0
  {
  }

  /** The snapshot holds what settlement reads: the close of an open option that settles. */
  predicate SettleQuoted(s: PositionState, m: Snapshot) {
    Settles(s.contract, m) && s.isOpen ==> s.symbol in m.closes
  }

  /**
   * The position once calculate_value has run on it: an open option on or
   * after its expiry date is settled; anything else is left as it was.
   */
  function Revalue(s: PositionState, m: Snapshot): PositionState
    requires SettleQuoted(s, m)
  {
    if Settles(s.contract, m) && s.isOpen then Settle(s, m) else s
  }

  /**
   * calculate_value, calculate_pnl and calculate_ctv all leave the position
   * as `Revalue` says; valuing a second time changes nothing more, and the
   * revalued position is still consistent and still quoted.
   */
  lemma ValuationEffect(s: PositionState, m: Snapshot)
    requires s.isOpen ==> Quoted(s, m)
    ensures SettleQuoted(s, m)
    ensures Pnl(s, m).1 == Revalue(s, m) && Ctv(s, m).1 == Revalue(s, m)
    ensures Quoted(s, m) ==> Value(s, m).1 == Revalue(s, m) && Quoted(Revalue(s, m), m)
    ensures SettleQuoted(Revalue(s, m), m) && Revalue(Revalue(s, m), m) == Revalue(s, m)
    ensures Consistent(s) ==> Consistent(Revalue(s, m))
    ensures Revalue(s, m).isOpen ==> Quoted(Revalue(s, m), m)
  {
  }

  // ----- Trade ids -----

  /** The registry grew from `before` to `after` by exactly one five-digit id not handed out before. */
  ghost predicate AddsOneId(before: set<int>, after: set<int>) {
    exists id :: IsTradeId(id) && id !in before && after == before + {id}
  }

  /**
   * TradeId: the class-level set of ids handed out so far. It is shared by
   * every position in the process.
   */
  class TradeIdRegistry {
    var existing: set<int>

    constructor ()
      ensures existing == {}
    {
      existing := {};
    }

    /** Some five-digit id is still free. */
    predicate HasFree()
      reads this
    {
      exists id :: 10000 <= id <= 99999 && id !in existing
    }

    /**
     * generate: draw five-digit ids until one is not taken, record it and
     * return it. The random draws are modelled as the choice of any free id.
     */
    method Generate() returns (id: int)
      requires HasFree()
      modifies this
      ensures IsTradeId(id) && id !in old(existing)
      ensures existing == old(existing) + {id}
    {
      id :| 10000 <= id <= 99999 && id !in existing;
      existing := existing + {id};
    }
  }

  // ----- Position objects -----

  class Position {
    const tradeId: int
    const symbol: string
    const contract: Contract
    const side: PositionType
    const tradeDate: Date
    const entryPrice: real
    const initialCtv: real
    var quantity: real
    var isOpen: bool
    var closedPnl: real

    function State(): PositionState
      reads this
    {
      PositionState(tradeId, symbol, contract, side, tradeDate, entryPrice, initialCtv,
                    quantity, isOpen, closedPnl)
    }

    /** asset_type, fixed by the subclass. */
    function AssetType(): AssetType {
      contract.Kind()
    }

    /** Position.__init__ once the trade id is drawn and the entry value can be computed. */
    constructor (id: int, symbol: string, contract: Contract, quantity: real,
                 m: Snapshot, side: PositionType)
      requires EntryQuoted(symbol, contract, m) && !Settles(contract, m)
      ensures State() == Opened(id, symbol, contract, quantity, m, side)
    {
      var entry := EntryValue(symbol, contract, m);
      this.tradeId := id;
      this.isOpen := true;
      this.closedPnl := 0.0;
      this.symbol := symbol;
      this.contract := contract;
      this.quantity := quantity;
      this.tradeDate := m.refDate;
      this.entryPrice := entry;
      this.initialCtv := entry * quantity;
      this.side := side;
    }

    /** The expiry branch of calculate_value on an open option. */
    method SettleOption(m: Snapshot)
      requires contract.OptionContract? && isOpen && symbol in m.closes
      modifies this
      ensures State() == Settle(old(State()), m)
    {
      var payoff := Payoff(contract.strike, contract.optionType, m.closes[symbol]);
      closedPnl := (payoff - entryPrice) * quantity * Sign(side);
      quantity := 0.0;
      isOpen := false;
    }

    method CalculateValue(m: Snapshot) returns (v: real)
      requires Quoted(State(), m)
      modifies this
      ensures v == Value(old(State()), m).0 && State() == Value(old(State()), m).1
    {
      match contract
      case EquityContract =>
        v := m.closes[symbol];
      case OptionContract(strike, expiry, optionType) =>
        if IsExpiryDate(expiry, m.refDate) {
          if isOpen {
            SettleOption(m);
          }
          return 0.0;
        }
        if m.refDate > expiry {
          if isOpen {
            SettleOption(m);
          }
          return 0.0;
        }
        v := m.analytic(symbol, strike, expiry, optionType);
    }

    method CalculatePnl(m: Snapshot) returns (pnl: real)
      requires isOpen ==> Quoted(State(), m)
      modifies this
      ensures pnl == Pnl(old(State()), m).0 && State() == Pnl(old(State()), m).1
    {
      if isOpen {
        var v := CalculateValue(m);
        pnl := (v - entryPrice) * Sign(side) * quantity;
      } else {
        pnl := 0.0;
      }
    }

    method CalculateCtv(m: Snapshot) returns (ctv: real)
      requires isOpen ==> Quoted(State(), m)
      modifies this
      ensures ctv == Ctv(old(State()), m).0 && State() == Ctv(old(State()), m).1
    {
      if isOpen {
        var v := CalculateValue(m);
        ctv := v * Sign(side) * quantity;
      } else {
        ctv := 0.0;
      }
    }

    /** close_position, keeping a settlement that valuing the option already made (see README, "Findings"). */
    method ClosePosition(m: Snapshot)
      requires isOpen ==> Quoted(State(), m)
      modifies this
      ensures State() == Close(old(State()), m)
    {
      if isOpen {
        var pnl := CalculatePnl(m);
        if isOpen {
          closedPnl := pnl;
          quantity := 0.0;
          isOpen := false;
        }
      }
    }
  }

  /**
   * EquityPosition(...) / OptionPosition(...): the base constructor draws a
   * trade id first, then values the position at the trade snapshot. A
   * missing quote raises KeyError. Opening an option on or after its expiry
   * date runs the settlement branch before `entry_price` exists, which
   * raises AttributeError. The id stays taken either way.
   */
  method NewPosition(ids: TradeIdRegistry, symbol: string, contract: Contract, quantity: real,
                     m: Snapshot, side: PositionType)
    returns (id: int, r: Result<Position>)
    requires ids.HasFree()
    modifies ids
    ensures IsTradeId(id) && id !in old(ids.existing)
    ensures ids.existing == old(ids.existing) + {id}
    ensures r.Ok? <==> EntryQuoted(symbol, contract, m) && !Settles(contract, m)
    ensures r.Err? ==> r.error == (if Settles(contract, m) && symbol in m.closes then AttributeError else KeyError)
    ensures r.Ok? ==> fresh(r.value) && r.value.State() == Opened(id, symbol, contract, quantity, m, side)
  {
    id := ids.Generate();
    if symbol !in m.closes {
      return id, Err(KeyError);
    }
    if Settles(contract, m) {
      return id, Err(AttributeError);
    }
    if contract.OptionContract? && symbol !in m.surfaces {
      return id, Err(KeyError);
    }
    var p := new Position(id, symbol, contract, quantity, m, side);
    r := Ok(p);
  }
}
