/**
 * The older portfolio (pricing/portfolio.py): a list of legacy positions
 * with add and remove, sums over the list, a per-position summary, a no-op
 * update hook, and a close-all that empties the list instead of closing
 * the positions.
 *
 * Valuing a legacy equity reads the snapshot and writes nothing, so the
 * sums and the summary are functions of the positions' states. Each reads
 * a price through `calculate_value` or `calculate_pnl`; a missing price
 * raises KeyError out of the whole sum.
 */
module LegacyPortfolios {
  import opened Outcomes
  import opened Enums
  import opened Calendar
  import opened LegacyPositions
  import Positions

  // ----- Sums over the states -----

  /** calculate_value reads every position's price; calculate_pnl only the open ones'. */
  predicate AllPriced(ss: seq<LegacyState>, m: PriceSnapshot) {
    forall k :: 0 <= k < |ss| ==> ss[k].symbol in m.prices
  }

  predicate OpenPriced(ss: seq<LegacyState>, m: PriceSnapshot) {
    forall k :: 0 <= k < |ss| ==> ss[k].isOpen ==> ss[k].symbol in m.prices
  }

  function ClosedTotal(ss: seq<LegacyState>): real {
    if ss == [] then 0.0 else ClosedTotal(ss[..|ss| - 1]) + ss[|ss| - 1].closedPnl
  }

  function OpenTotal(ss: seq<LegacyState>, m: PriceSnapshot): real
    requires OpenPriced(ss, m)
  {
    if ss == [] then 0.0 else OpenTotal(ss[..|ss| - 1], m) + Pnl(ss[|ss| - 1], m).value
  }

  /** A position's term of calculate_total_value: price times quantity times side. */
  function Weighted(s: LegacyState, m: PriceSnapshot): real
    requires s.symbol in m.prices
  {
    m.prices[s.symbol] * s.quantity * Positions.Sign(s.side)
  }

  function ValueTotal(ss: seq<LegacyState>, m: PriceSnapshot): real
    requires AllPriced(ss, m)
  {
    if ss == [] then 0.0 else ValueTotal(ss[..|ss| - 1], m) + Weighted(ss[|ss| - 1], m)
  }

  /** calculate_total_value: every position is valued, closed ones included. */
  function TotalValue(ss: seq<LegacyState>, m: PriceSnapshot): Result<real> {
    if AllPriced(ss, m) then Ok(ValueTotal(ss, m)) else Err(KeyError)
  }

  /** calculate_open_pnl. */
  function OpenPnl(ss: seq<LegacyState>, m: PriceSnapshot): Result<real> {
    if OpenPriced(ss, m) then Ok(OpenTotal(ss, m)) else Err(KeyError)
  }

  /** global_pnl: the open P&L sum, then the realised P&L sum, added. */
  function GlobalPnl(ss: seq<LegacyState>, m: PriceSnapshot): Result<real> {
    if OpenPriced(ss, m) then Ok(OpenTotal(ss, m) + ClosedTotal(ss)) else Err(KeyError)
  }

  // ----- The summary -----

  /** One row of get_positions_summary; this version's rows carry no reference date. */
  datatype LegacyRow = LegacyRow(
    tradeDate: Date,
    symbol: string,
    kind: string,
    side: int,
    quantity: real,
    entryPrice: real,
    currentValue: real,
    openPnl: real,
    closedPnl: real,
    globalPnl: real)

  /** The row of one position: its P&L, then its value (read even when it is closed). */
  function Row(s: LegacyState, m: PriceSnapshot): LegacyRow
    requires s.symbol in m.prices
  {
    var open := Pnl(s, m).value;
    LegacyRow(s.tradeDate, s.symbol, s.assetType.Value(), s.side.Value(), s.quantity, s.entryPrice,
              m.prices[s.symbol], open, s.closedPnl, open + s.closedPnl)
  }

  /** get_positions_summary. */
  function Summary(ss: seq<LegacyState>, m: PriceSnapshot): Result<seq<LegacyRow>> {
    if AllPriced(ss, m) then Ok(seq(|ss|, k requires 0 <= k < |ss| => Row(ss[k], m))) else Err(KeyError)
  }

  function GlobalColumn(rows: seq<LegacyRow>): real {
    if rows == [] then 0.0 else GlobalColumn(rows[..|rows| - 1]) + rows[|rows| - 1].globalPnl
  }

  // ----- Lemmas -----

  /** Every sum splits over a concatenation. */
  lemma {:induction false} SumsAppend(a: seq<LegacyState>, b: seq<LegacyState>, m: PriceSnapshot)
    ensures ClosedTotal(a + b) == ClosedTotal(a) + ClosedTotal(b)
    ensures OpenPriced(a + b, m) ==>
      && OpenPriced(a, m) && OpenPriced(b, m)
      && OpenTotal(a + b, m) == OpenTotal(a, m) + OpenTotal(b, m)
    decreases |b|
  {
    if b == [] {
      assert a + b == a;
    } else {
      var b' := b[..|b| - 1];
      assert (a + b)[..|a + b| - 1] == a + b';
      if OpenPriced(a + b, m) {
        assert forall k :: 0 <= k < |a| ==> a[k] == (a + b)[k];
        assert forall k :: 0 <= k < |b| ==> b[k] == (a + b)[|a| + k];
      }
      SumsAppend(a, b', m);
    }
  }

  /**
   * get_positions_summary fails exactly when some position has no price;
   * global_pnl fails exactly when some open position has none, so a closed
   * position without a price breaks the summary but not global_pnl.
   * Otherwise the summary has one row per position, in list order, each
   * with `global_pnl = open_pnl + closed_pnl`, and its global column adds
   * up to global_pnl.
   */
  lemma {:induction false} SummaryAgrees(ss: seq<LegacyState>, m: PriceSnapshot)
    ensures Summary(ss, m).Ok? <==> AllPriced(ss, m)
    ensures GlobalPnl(ss, m).Ok? <==> OpenPriced(ss, m)
    ensures Summary(ss, m).Ok? ==> GlobalPnl(ss, m).Ok?
    ensures Summary(ss, m).Ok? ==>
      var rows := Summary(ss, m).value;
      && |rows| == |ss|
      && (forall k :: 0 <= k < |ss| ==>
            && rows[k].symbol == ss[k].symbol && rows[k].tradeDate == ss[k].tradeDate
            && Pnl(ss[k], m) == Ok(rows[k].openPnl) && rows[k].closedPnl == ss[k].closedPnl
            && rows[k].globalPnl == rows[k].openPnl + rows[k].closedPnl)
      && GlobalColumn(rows) == GlobalPnl(ss, m).value
    decreases |ss|
  {
    if AllPriced(ss, m) && ss != [] {
      var front := ss[..|ss| - 1];
      assert AllPriced(front, m);
      SummaryAgrees(front, m);
      var rows := Summary(ss, m).value;
      assert rows[..|rows| - 1] == Summary(front, m).value;
    }
  }

  /**
   * calculate_open_pnl and global_pnl fail exactly when an open position
   * has no price, calculate_total_value when any position has none; global
   * P&L is open P&L plus the realised total. Positions closed with quantity
   * 0 add nothing to the open P&L nor to the total value.
   */
  lemma {:induction false} TotalsAgree(ss: seq<LegacyState>, m: PriceSnapshot)
    ensures OpenPnl(ss, m).Ok? <==> OpenPriced(ss, m)
    ensures TotalValue(ss, m).Ok? <==> AllPriced(ss, m)
    ensures AllPriced(ss, m) ==> OpenPriced(ss, m)
    ensures OpenPnl(ss, m).Ok? ==> GlobalPnl(ss, m) == Ok(OpenPnl(ss, m).value + ClosedTotal(ss))
    ensures (forall k :: 0 <= k < |ss| ==> !ss[k].isOpen && ss[k].quantity == 0.0) ==>
      OpenPnl(ss, m) == Ok(0.0) && (TotalValue(ss, m).Ok? ==> TotalValue(ss, m).value == 0.0)
    decreases |ss|
  {
    if ss != [] {
      var front := ss[..|ss| - 1];
      TotalsAgree(front, m);
      assert OpenPriced(ss, m) ==> OpenPriced(front, m);
      assert AllPriced(ss, m) ==> AllPriced(front, m);
    }
  }

  /** The first index holding `x`. */
  function FirstIndex<T(==)>(s: seq<T>, x: T): (i: nat)
    requires x in s
    ensures i < |s| && s[i] == x && x !in s[..i]
  {
    if s[0] == x then 0 else 1 + FirstIndex(s[1..], x)
  }

  /** list.remove when the item is there, nothing otherwise. */
  function RemoveFirst<T(==)>(s: seq<T>, x: T): seq<T> {
    if x in s then s[..FirstIndex(s, x)] + s[FirstIndex(s, x) + 1..] else s
  }

  /**
   * Removing takes out exactly one occurrence, the first, and keeps the
   * order of the rest; an item not in the list leaves it unchanged.
   */
  lemma RemoveFirstTakesOne<T>(s: seq<T>, x: T)
    ensures x !in s ==> RemoveFirst(s, x) == s
    ensures x in s ==> |RemoveFirst(s, x)| == |s| - 1
    ensures multiset(RemoveFirst(s, x)) == multiset(s) - multiset{x}
    ensures x in s ==> exists i :: 0 <= i < |s| && s[i] == x && x !in s[..i]
                                   && RemoveFirst(s, x) == s[..i] + s[i + 1..]
  {
    if x in s {
      var i := FirstIndex(s, x);
      assert s == s[..i] + [x] + s[i + 1..];
      calc {
        multiset(s);
        multiset(s[..i]) + multiset{x} + multiset(s[i + 1..]);
        multiset(RemoveFirst(s, x)) + multiset{x};
      }
    } else {
      assert multiset(s)[x] == 0;
    }
  }

  /** The states of a list of positions, index by index. */
  function StatesOf(ps: seq<LegacyPosition>): (r: seq<LegacyState>)
    reads ps
  {
    seq(|ps|, k requires 0 <= k < |ps| reads ps => ps[k].State())
  }

  /** Removing a held position takes its realised P&L out of the realised total. */
  lemma RemoveTakesOutRealised(ps: seq<LegacyPosition>, p: LegacyPosition)
    requires p in ps
    ensures ClosedTotal(StatesOf(RemoveFirst(ps, p))) == ClosedTotal(StatesOf(ps)) - p.closedPnl
  {
    var i := FirstIndex(ps, p);
    var a, b := ps[..i], ps[i + 1..];
    assert ps == a + [p] + b;
    assert StatesOf(ps) == StatesOf(a) + [p.State()] + StatesOf(b);
    assert StatesOf(RemoveFirst(ps, p)) == StatesOf(a) + StatesOf(b);
    SumsAppend(StatesOf(a), StatesOf(b), PriceSnapshot(0, map[]));
    SumsAppend(StatesOf(a) + [p.State()], StatesOf(b), PriceSnapshot(0, map[]));
    SumsAppend(StatesOf(a), [p.State()], PriceSnapshot(0, map[]));
    assert ClosedTotal([p.State()]) == p.closedPnl by {
      assert [p.State()][..0] == [];
    }
  }

  class LegacyPortfolio {
    var positions: seq<LegacyPosition>
    var openPnl: real
    var closedPnl: real

    function States(): seq<LegacyState>
      reads this, positions
    {
      StatesOf(positions)
    }

    constructor ()
      ensures positions == [] && openPnl == 0.0 && closedPnl == 0.0
    {
      positions := [];
      openPnl := 0.0;
      closedPnl := 0.0;
    }

    /** add_position: append at the end. */
    method AddPosition(p: LegacyPosition)
      modifies this
      ensures positions == old(positions) + [p]
      ensures openPnl == old(openPnl) && closedPnl == old(closedPnl)
    {
      positions := positions + [p];
    }

    /** remove_position: take out the first occurrence if there is one. */
    method RemovePosition(p: LegacyPosition)
      modifies this
      ensures positions == RemoveFirst(old(positions), p)
      ensures openPnl == old(openPnl) && closedPnl == old(closedPnl)
    {
      if p in positions {
        positions := RemoveFirst(positions, p);
      }
    }

    /** update_portfolio: a hook with an empty body. */
    method UpdatePortfolio(m: PriceSnapshot)
      ensures positions == old(positions) && States() == old(States())
    {
    }

    /** close_all_positions: empty the list; the positions are not closed. */
    method CloseAllPositions()
      modifies this
      ensures positions == []
      ensures openPnl == old(openPnl) && closedPnl == old(closedPnl)
    {
      positions := [];
    }
  }
}
