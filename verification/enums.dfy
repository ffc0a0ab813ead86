/**
 * The enumerations shared by positions, portfolios and engines
 * (backtester/core/utils.py). Each Python `Enum` member becomes a
 * constructor; `Value()` is the member's `.value`, and the `...Of`
 * functions are the lookup by value that Python's `Enum(value)` performs.
 */
module Enums {
  import opened Outcomes

  /** Direction label of an order: BUY = "buy", SELL = "sell". */
  datatype OrderType = Buy | Sell {
    function Value(): string {
      match this
      case Buy => "buy"
      case Sell => "sell"
    }
  }

  /** Direction of a position: LONG = 1, SHORT = -1. */
  datatype PositionType = Long | Short {
    /** The side multiplier used in every P&L and countervalue formula. */
    function Value(): (v: int)
      ensures v == 1 || v == -1
      ensures v * v == 1
    {
      match this
      case Long => 1
      case Short => -1
    }
  }

  /** Kind of a European option: CALL = 1, PUT = 0. */
  datatype OptionType = Call | Put {
    function Value(): int {
      match this
      case Call => 1
      case Put => 0
    }

    /**
     * The QuantLib option type a position stores in place of the enum
     * (`ql.Option.Call` is 1, `ql.Option.Put` is -1); the payoff multiplies
     * by it, so it must be a sign even though PUT's enum value is 0.
     */
    function QuantLibType(): (t: int)
      ensures t == 1 || t == -1
      ensures t == 1 <==> this == Call
    {
      if this == Call then 1 else -1
    }
  }

  /** Kind of instrument: EQUITY = "equity", BOND = "bond", OPTION = "option". */
  datatype AssetType = Equity | Bond | Option {
    function Value(): string {
      match this
      case Equity => "equity"
      case Bond => "bond"
      case Option => "option"
    }
  }

  function OrderTypeOf(v: string): (r: Optional<OrderType>)
    ensures r.Present? ==> r.value.Value() == v
    ensures r.Absent? ==> v != "buy" && v != "sell"
  {
    if v == "buy" then Present(Buy)
    else if v == "sell" then Present(Sell)
    else Absent
  }

  function PositionTypeOf(v: int): (r: Optional<PositionType>)
    ensures r.Present? ==> r.value.Value() == v
    ensures r.Absent? ==> v != 1 && v != -1
  {
    if v == 1 then Present(Long)
    else if v == -1 then Present(Short)
    else Absent
  }

  function OptionTypeOf(v: int): (r: Optional<OptionType>)
    ensures r.Present? ==> r.value.Value() == v
    ensures r.Absent? ==> v != 1 && v != 0
  {
    if v == 1 then Present(Call)
    else if v == 0 then Present(Put)
    else Absent
  }

  function AssetTypeOf(v: string): (r: Optional<AssetType>)
    ensures r.Present? ==> r.value.Value() == v
    ensures r.Absent? ==> v != "equity" && v != "bond" && v != "option"
  {
    if v == "equity" then Present(Equity)
    else if v == "bond" then Present(Bond)
    else if v == "option" then Present(Option)
    else Absent
  }

  /** Every member is found again from its value, so the values are pairwise distinct. */
  lemma EnumValuesRoundTrip(o: OrderType, p: PositionType, t: OptionType, a: AssetType)
    ensures OrderTypeOf(o.Value()) == Present(o)
    ensures PositionTypeOf(p.Value()) == Present(p)
    ensures OptionTypeOf(t.Value()) == Present(t)
    ensures AssetTypeOf(a.Value()) == Present(a)
  {
  }

  /** Two members with the same value are the same member. */
  lemma EnumValuesInjective(o1: OrderType, o2: OrderType, p1: PositionType, p2: PositionType,
                            t1: OptionType, t2: OptionType, a1: AssetType, a2: AssetType)
    ensures o1.Value() == o2.Value() ==> o1 == o2
    ensures p1.Value() == p2.Value() ==> p1 == p2
    ensures t1.Value() == t2.Value() ==> t1 == t2
    ensures a1.Value() == a2.Value() ==> a1 == a2
  {
    EnumValuesRoundTrip(o1, p1, t1, a1);
    EnumValuesRoundTrip(o2, p2, t2, a2);
  }
}
