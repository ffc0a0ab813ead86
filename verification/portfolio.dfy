/**
 * Portfolio (backtester/core/portfolio.py): an insertion-ordered list of
 * position objects, sums over it, a per-position summary, a filter by symbol
 * and asset type, and sweeps that close positions.
 *
 * Every sweep calls a position method that may look a quote up; a missing
 * quote raises KeyError out of the sweep. The positions already handled keep
 * whatever the sweep did to them, the failing one and those after it are
 * untouched. `ReadyPrefix` is the index of that failing position.
 */
module Portfolios {
  import opened Outcomes
  import opened Enums
  import opened Calendar
  import opened Market
  import opened Positions

  // ----- What a sweep needs -----

  /** Which quotes a sweep needs of each position it walks over. */
  datatype Need =
    | WhenOpen                                      // calculate_pnl, close_position
    | Always                                        // calculate_value
    | WhenOpenMatching(symbol: string, kind: AssetType)  // close_positions(ticker, asset type)

  /** get_positions' filter: the symbol and the asset type both match. */
  predicate Matches(s: PositionState, symbol: string, kind: AssetType) {
    s.symbol == symbol && s.contract.Kind() == kind
  }

  /** The sweep can handle this position without a KeyError. */
  predicate Ready(need: Need, s: PositionState, m: Snapshot) {
    match need
    case WhenOpen => s.isOpen ==> Quoted(s, m)
    case Always => Quoted(s, m)
    case WhenOpenMatching(symbol, kind) => Matches(s, symbol, kind) && s.isOpen ==> Quoted(s, m)
  }

  predicate ReadyBelow(ss: seq<PositionState>, m: Snapshot, need: Need, n: nat)
    requires n <= |ss|
  {
    forall k :: 0 <= k < n ==> Ready(need, ss[k], m)
  }

  predicate AllReady(ss: seq<PositionState>, m: Snapshot, need: Need) {
    ReadyBelow(ss, m, need, |ss|)
  }

  /** How many positions a sweep gets through: the index of the first one it cannot handle, or all of them. */
  function ReadyPrefix(ss: seq<PositionState>, m: Snapshot, need: Need): (n: nat)
    ensures n <= |ss| && ReadyBelow(ss, m, need, n)
    ensures n < |ss| ==> !Ready(need, ss[n], m)
    ensures n == |ss| <==> AllReady(ss, m, need)
  {
    if ss == [] then 0
    else if Ready(need, ss[0], m) then
      var n := 1 + ReadyPrefix(ss[1..], m, need);
      assert forall k :: 1 <= k < n ==> ss[k] == ss[1..][k - 1];
      n
    else 0
  }

  predicate AllConsistent(ss: seq<PositionState>) {
    forall k :: 0 <= k < |ss| ==> Consistent(ss[k])
  }

  // ----- The states a sweep leaves -----

  /** The first `n` positions valued (options past expiry settled), the rest as they were. */
  function RevalueUpTo(ss: seq<PositionState>, m: Snapshot, n: nat): seq<PositionState>
    requires n <= |ss| && forall k :: 0 <= k < n ==> SettleQuoted(ss[k], m)
  {
    seq(|ss|, k requires 0 <= k < |ss| => if k < n then Revalue(ss[k], m) else ss[k])
  }

  /** The first `n` positions closed, the rest as they were. */
  function CloseUpTo(ss: seq<PositionState>, m: Snapshot, n: nat): seq<PositionState>
    requires n <= |ss| && ReadyBelow(ss, m, WhenOpen, n)
  {
    seq(|ss|, k requires 0 <= k < |ss| => if k < n then Close(ss[k], m) else ss[k])
  }

  /** The matching positions among the first `n` closed, every other position as it was. */
  function CloseMatchingUpTo(ss: seq<PositionState>, m: Snapshot, symbol: string, kind: AssetType, n: nat)
    : seq<PositionState>
    requires n <= |ss| && ReadyBelow(ss, m, WhenOpenMatching(symbol, kind), n)
  {
    seq(|ss|, k requires 0 <= k < |ss| =>
      if k < n && Matches(ss[k], symbol, kind) then Close(ss[k], m) else ss[k])
  }

  // ----- Sums over the list -----

  function ClosedPnlSum(ss: seq<PositionState>): real {
    if ss == [] then 0.0 else ClosedPnlSum(ss[..|ss| - 1]) + ss[|ss| - 1].closedPnl
  }

  function InitialCtvSum(ss: seq<PositionState>): real {
    if ss == [] then 0.0 else InitialCtvSum(ss[..|ss| - 1]) + ss[|ss| - 1].initialCtv
  }

  function QuantitySum(ss: seq<PositionState>): real {
    if ss == [] then 0.0 else QuantitySum(ss[..|ss| - 1]) + ss[|ss| - 1].quantity
  }

  /** The quantity held in positions matching a symbol and an asset type. */
  function MatchingQuantity(ss: seq<PositionState>, symbol: string, kind: AssetType): real {
    if ss == [] then 0.0
    else
      var last := ss[|ss| - 1];
      MatchingQuantity(ss[..|ss| - 1], symbol, kind) + (if Matches(last, symbol, kind) then last.quantity else 0.0)
  }

  function OpenPnlSum(ss: seq<PositionState>, m: Snapshot): real
    requires AllReady(ss, m, WhenOpen)
  {
    if ss == [] then 0.0 else OpenPnlSum(ss[..|ss| - 1], m) + Pnl(ss[|ss| - 1], m).0
  }

  /** `value * quantity * side`, the signed worth of a holding. */
  function Weighted(value: real, quantity: real, side: PositionType): real {
    value * quantity * Sign(side)
  }

  /** One position's term of calculate_total_value, the quantity read after valuation. */
  function ValueTerm(s: PositionState, m: Snapshot): real
    requires Quoted(s, m)
  {
    var v := Value(s, m);
    Weighted(v.0, v.1.quantity, s.side)
  }

  /** calculate_total_value: every position's term, added up. */
  function ValueSum(ss: seq<PositionState>, m: Snapshot): real
    requires AllReady(ss, m, Always)
  {
    if ss == [] then 0.0 else ValueSum(ss[..|ss| - 1], m) + ValueTerm(ss[|ss| - 1], m)
  }

  /** The sum of every position's own global P&L (open P&L plus realised P&L). */
  function GlobalSum(ss: seq<PositionState>, m: Snapshot): real
    requires AllReady(ss, m, WhenOpen)
  {
    if ss == [] then 0.0 else GlobalSum(ss[..|ss| - 1], m) + GlobalPnl(ss[|ss| - 1], m)
  }

  // ----- Summary rows -----

  /** One row of get_positions_summary; `kind` and `side` hold the enum values. */
  datatype SummaryRow = SummaryRow(
    refDate: Date,
    tradeDate: Date,
    tradeId: int,
    symbol: string,
    kind: string,
    side: int,
    quantity: real,
    entryPrice: real,
    isAlive: bool,
    currentValue: real,
    openPnl: real,
    closedPnl: real,
    globalPnl: real)

  /**
   * The row of one position: its P&L is computed first (which may settle an
   * option), then every other column is read from the position afterwards.
   */
  function Row(s: PositionState, m: Snapshot): SummaryRow
    requires Quoted(s, m)
  {
    ValuationEffect(s, m);
    var p := Pnl(s, m);
    var after := p.1;
    SummaryRow(m.refDate, s.tradeDate, s.tradeId, s.symbol, s.contract.Kind().Value(), s.side.Value(),
               after.quantity, s.entryPrice, after.isOpen, Value(after, m).0,
               p.0, after.closedPnl, p.0 + after.closedPnl)
  }

  function Summary(ss: seq<PositionState>, m: Snapshot): seq<SummaryRow>
    requires AllReady(ss, m, Always)
  {
    seq(|ss|, k requires 0 <= k < |ss| => Row(ss[k], m))
  }

  /** The sum of a summary's global_pnl column. */
  function GlobalColumnSum(rows: seq<SummaryRow>): real {
    if rows == [] then 0.0 else GlobalColumnSum(rows[..|rows| - 1]) + rows[|rows| - 1].globalPnl
  }

  // ----- Lemmas -----

  /** Every sum over the list splits over a concatenation; appending one position adds its own term. */
  lemma {:induction false} SumsAppend(a: seq<PositionState>, b: seq<PositionState>, symbol: string, kind: AssetType)
    ensures ClosedPnlSum(a + b) == ClosedPnlSum(a) + ClosedPnlSum(b)
    ensures InitialCtvSum(a + b) == InitialCtvSum(a) + InitialCtvSum(b)
    ensures QuantitySum(a + b) == QuantitySum(a) + QuantitySum(b)
    ensures MatchingQuantity(a + b, symbol, kind) == MatchingQuantity(a, symbol, kind) + MatchingQuantity(b, symbol, kind)
    decreases |b|
  {
    if b == [] {
      assert a + b == a;
    } else {
      var b' := b[..|b| - 1];
      assert (a + b)[..|a + b| - 1] == a + b';
      SumsAppend(a, b', symbol, kind);
    }
  }

  /** Values of the same list can be checked position by position through the sum. */
  lemma {:induction false} GlobalPnlIsPerPosition(ss: seq<PositionState>, m: Snapshot)
    requires AllReady(ss, m, WhenOpen)
    ensures forall k :: 0 <= k < |ss| ==> SettleQuoted(ss[k], m)
    ensures OpenPnlSum(ss, m) + ClosedPnlSum(RevalueUpTo(ss, m, |ss|)) == GlobalSum(ss, m)
    decreases |ss|
  {
    forall k | 0 <= k < |ss| ensures SettleQuoted(ss[k], m) {
      ValuationEffect(ss[k], m);
    }
    if ss != [] {
      var front := ss[..|ss| - 1];
      var last := ss[|ss| - 1];
      GlobalPnlIsPerPosition(front, m);
      ValuationEffect(last, m);
      var all := RevalueUpTo(ss, m, |ss|);
      assert all[..|all| - 1] == RevalueUpTo(front, m, |front|);
      assert all[|all| - 1] == Pnl(last, m).1;
    }
  }

  /**
   * Each summary row belongs to the position at the same index: it carries
   * the snapshot's date, the position's id and its P&L at the snapshot, and
   * its global P&L is open plus realised P&L.
   */
  lemma SummaryRowAt(ss: seq<PositionState>, m: Snapshot, k: nat)
    requires AllReady(ss, m, Always) && k < |ss|
    ensures |Summary(ss, m)| == |ss|
    ensures var row := Summary(ss, m)[k];
      && row.refDate == m.refDate
      && row.tradeId == ss[k].tradeId && row.symbol == ss[k].symbol
      && row.tradeDate == ss[k].tradeDate && row.entryPrice == ss[k].entryPrice
      && row.side == ss[k].side.Value() && row.kind == ss[k].contract.Kind().Value()
      && row.openPnl == Pnl(ss[k], m).0
      && row.globalPnl == row.openPnl + row.closedPnl
      && row.globalPnl == GlobalPnl(ss[k], m)
      && row.isAlive == Revalue(ss[k], m).isOpen
      && row.quantity == Revalue(ss[k], m).quantity
  {
    ValuationEffect(ss[k], m);
  }

  /** The summary's global_pnl column adds up to the portfolio's global P&L. */
  lemma {:induction false} SummaryAddsUp(ss: seq<PositionState>, m: Snapshot)
    requires AllReady(ss, m, Always)
    ensures AllReady(ss, m, WhenOpen)
    ensures GlobalColumnSum(Summary(ss, m)) == GlobalSum(ss, m)
    decreases |ss|
  {
    if ss != [] {
      var front := ss[..|ss| - 1];
      SummaryAddsUp(front, m);
      var rows := Summary(ss, m);
      assert rows[..|rows| - 1] == Summary(front, m);
      SummaryRowAt(ss, m, |ss| - 1);
    }
  }

  /**
   * Closing every position realises the portfolio's global P&L: afterwards
   * nothing is open, the list is as long as before and the realised P&L
   * adds up to what the global P&L was; later snapshots do not change it.
   */
  lemma {:induction false} CloseAllRealises(ss: seq<PositionState>, m: Snapshot, later: Snapshot)
    requires AllReady(ss, m, WhenOpen) && AllConsistent(ss)
    ensures var c := CloseUpTo(ss, m, |ss|);
      && |c| == |ss|
      && (forall k :: 0 <= k < |c| ==> !c[k].isOpen && c[k].tradeId == ss[k].tradeId)
      && AllReady(c, later, WhenOpen) && AllConsistent(c)
      && ClosedPnlSum(c) == GlobalSum(ss, m)
      && GlobalSum(c, later) == GlobalSum(ss, m)
    decreases |ss|
  {
    var c := CloseUpTo(ss, m, |ss|);
    forall k | 0 <= k < |ss| ensures !c[k].isOpen && Consistent(c[k]) && GlobalPnl(c[k], later) == c[k].closedPnl {
      CloseRealisesGlobalPnl(ss[k], m, later);
      ConsistencyPreserved(ss[k], m);
    }
    if ss != [] {
      var front := ss[..|ss| - 1];
      CloseAllRealises(front, m, later);
      assert c[..|c| - 1] == CloseUpTo(front, m, |front|);
      CloseRealisesGlobalPnl(ss[|ss| - 1], m, later);
    }
  }

  /**
   * Closing by (ticker, asset type) closes every matching position, so no
   * quantity is left under that key, and leaves every other position as it was.
   */
  lemma {:induction false} CloseMatchingEmpties(ss: seq<PositionState>, m: Snapshot, symbol: string, kind: AssetType)
    requires AllReady(ss, m, WhenOpenMatching(symbol, kind)) && AllConsistent(ss)
    ensures var c := CloseMatchingUpTo(ss, m, symbol, kind, |ss|);
      && |c| == |ss|
      && (forall k :: 0 <= k < |c| ==> (Matches(ss[k], symbol, kind) ==> !c[k].isOpen))
      && (forall k :: 0 <= k < |c| ==> (!Matches(ss[k], symbol, kind) ==> c[k] == ss[k]))
      && AllConsistent(c)
      && MatchingQuantity(c, symbol, kind) == 0.0
    decreases |ss|
  {
    var c := CloseMatchingUpTo(ss, m, symbol, kind, |ss|);
    forall k | 0 <= k < |ss| ensures Consistent(c[k]) && (Matches(ss[k], symbol, kind) ==> !c[k].isOpen && c[k].quantity == 0.0) {
      if Matches(ss[k], symbol, kind) {
        ConsistencyPreserved(ss[k], m);
        CloseRealisesGlobalPnl(ss[k], m, m);
      }
    }
    if ss != [] {
      var front := ss[..|ss| - 1];
      CloseMatchingEmpties(front, m, symbol, kind);
      assert c[..|c| - 1] == CloseMatchingUpTo(front, m, symbol, kind, |front|);
    }
  }

  /**
   * Once nothing is open, valuing changes nothing and the global P&L is
   * the realised P&L alone, whatever the snapshot.
   */
  /** Nothing in the list is open. */
  predicate AllClosed(ss: seq<PositionState>) {
    forall k :: 0 <= k < |ss| ==> !ss[k].isOpen
  }

  lemma {:induction false} AllClosedGlobal(ss: seq<PositionState>, m: Snapshot)
    requires AllClosed(ss)
    ensures AllReady(ss, m, WhenOpen)
    ensures RevalueUpTo(ss, m, |ss|) == ss
    ensures GlobalSum(ss, m) == ClosedPnlSum(ss)
    decreases |ss|
  {
    if ss != [] {
      AllClosedGlobal(ss[..|ss| - 1], m);
    }
  }

  /**
   * Every row of a summary carries the snapshot's date; once nothing is
   * open, the summary's global P&L is the realised P&L and computing it
   * changes no position.
   */
  lemma SummaryOfDate(ss: seq<PositionState>, m: Snapshot)
    requires AllReady(ss, m, Always)
    ensures |Summary(ss, m)| == |ss|
    ensures forall j :: 0 <= j < |ss| ==> Summary(ss, m)[j].refDate == m.refDate
    ensures AllClosed(ss) ==>
      && RevalueUpTo(ss, m, |ss|) == ss
      && GlobalColumnSum(Summary(ss, m)) == ClosedPnlSum(ss)
  {
    if AllClosed(ss) {
      AllClosedGlobal(ss, m);
      SummaryAddsUp(ss, m);
    }
  }

  // ----- The list of position objects -----

  /** The states of a list of positions, index by index. */
  function StatesOf(ps: seq<Position>): (r: seq<PositionState>)
    reads ps
  {
    seq(|ps|, k requires 0 <= k < |ps| reads ps => ps[k].State())
  }

  /** get_positions' result: the positions whose symbol and asset type match, in list order. */
  function Matching(ps: seq<Position>, symbol: string, kind: AssetType): seq<Position> {
    if ps == [] then []
    else
      var last := ps[|ps| - 1];
      Matching(ps[..|ps| - 1], symbol, kind) + (if last.symbol == symbol && last.AssetType() == kind then [last] else [])
  }

  /** The filter distributes over concatenation, so it keeps list order. */
  lemma {:induction false} MatchingAppend(ps: seq<Position>, qs: seq<Position>, symbol: string, kind: AssetType)
    ensures Matching(ps + qs, symbol, kind) == Matching(ps, symbol, kind) + Matching(qs, symbol, kind)
    decreases |qs|
  {
    if qs == [] {
      assert ps + qs == ps;
    } else {
      var qs' := qs[..|qs| - 1];
      assert (ps + qs)[..|ps + qs| - 1] == ps + qs';
      MatchingAppend(ps, qs', symbol, kind);
    }
  }

  /** The filter keeps exactly the positions whose symbol and asset type match. */
  lemma {:induction false} MatchingMembers(ps: seq<Position>, symbol: string, kind: AssetType)
    ensures forall p :: p in Matching(ps, symbol, kind) <==> p in ps && p.symbol == symbol && p.AssetType() == kind
    decreases |ps|
  {
    if ps != [] {
      var front := ps[..|ps| - 1];
      MatchingMembers(front, symbol, kind);
      assert ps == front + [ps[|ps| - 1]];
    }
  }

  /** The states of a concatenation are the concatenated states. */
  lemma StatesOfAppend(ps: seq<Position>, qs: seq<Position>)
    ensures StatesOf(ps + qs) == StatesOf(ps) + StatesOf(qs)
  {
  }

  /** The quantity of the positions get_positions returns is the matching quantity of the whole list. */
  lemma {:induction false} MatchingQuantityOfFilter(ps: seq<Position>, symbol: string, kind: AssetType)
    ensures QuantitySum(StatesOf(Matching(ps, symbol, kind))) == MatchingQuantity(StatesOf(ps), symbol, kind)
    decreases |ps|
  {
    if ps != [] {
      var front := ps[..|ps| - 1];
      var last := ps[|ps| - 1];
      MatchingQuantityOfFilter(front, symbol, kind);
      var mf := Matching(front, symbol, kind);
      var tail := if last.symbol == symbol && last.AssetType() == kind then [last] else [];
      StatesOfAppend(mf, tail);
      SumsAppend(StatesOf(mf), StatesOf(tail), symbol, kind);
      StatesOfInit(ps);
    }
  }

  /** The states of all positions but the last, and the last one's state, make up the states of the list. */
  lemma StatesOfInit(ps: seq<Position>)
    requires ps != []
    ensures var all := StatesOf(ps);
      all[..|all| - 1] == StatesOf(ps[..|ps| - 1]) && all[|all| - 1] == ps[|ps| - 1].State()
  {
  }

  /** A sweep that handled the first `i` positions and can handle the next one has handled `i + 1`. */
  lemma ReadyStep(ss: seq<PositionState>, m: Snapshot, need: Need, i: nat)
    requires i < |ss| && ReadyBelow(ss, m, need, i) && Ready(need, ss[i], m)
    ensures ReadyBelow(ss, m, need, i + 1)
    ensures AllReady(ss[..i], m, need) && AllReady(ss[..i + 1], m, need)
    ensures ss[..i + 1][..i] == ss[..i] && ss[..i + 1][i] == ss[i]
  {
  }

  /** The running sum of calculate_open_pnl grows by the next position's P&L. */
  lemma OpenPnlStep(ss: seq<PositionState>, m: Snapshot, i: nat)
    requires i < |ss| && ReadyBelow(ss, m, WhenOpen, i + 1)
    ensures AllReady(ss[..i], m, WhenOpen) && AllReady(ss[..i + 1], m, WhenOpen)
    ensures OpenPnlSum(ss[..i + 1], m) == OpenPnlSum(ss[..i], m) + Pnl(ss[i], m).0
  {
    ReadyStep(ss, m, WhenOpen, i);
  }

  /** The running sum of calculate_total_value grows by the next position's term. */
  lemma ValueSumStep(ss: seq<PositionState>, m: Snapshot, i: nat)
    requires i < |ss| && ReadyBelow(ss, m, Always, i + 1)
    ensures AllReady(ss[..i], m, Always) && AllReady(ss[..i + 1], m, Always)
    ensures ValueSum(ss[..i + 1], m) == ValueSum(ss[..i], m) + ValueTerm(ss[i], m)
  {
    ReadyStep(ss, m, Always, i);
  }

  /** A sweep that stopped at position `n` (or ran through) stops exactly where ReadyPrefix says. */
  lemma StoppedAt(ss: seq<PositionState>, m: Snapshot, need: Need, n: nat)
    requires n <= |ss| && ReadyBelow(ss, m, need, n) && (n < |ss| ==> !Ready(need, ss[n], m))
    ensures ReadyPrefix(ss, m, need) == n
  {
  }

  /** Positions valued up to `n` and untouched after it hold the states RevalueUpTo describes. */
  lemma RevaluedStates(ps: seq<Position>, before: seq<PositionState>, m: Snapshot, n: nat)
    requires |ps| == |before| && n <= |ps| && forall k :: 0 <= k < n ==> SettleQuoted(before[k], m)
    requires forall k :: 0 <= k < |ps| ==> ps[k].State() == if k < n then Revalue(before[k], m) else before[k]
    ensures StatesOf(ps) == RevalueUpTo(before, m, n)
  {
  }

  /** Positions closed up to `n` and untouched after it hold the states CloseUpTo describes. */
  lemma ClosedStates(ps: seq<Position>, before: seq<PositionState>, m: Snapshot, n: nat)
    requires |ps| == |before| && n <= |ps| && ReadyBelow(before, m, WhenOpen, n)
    requires forall k :: 0 <= k < n ==> ps[k].State() == Close(before[k], m)
    requires forall k :: n <= k < |ps| ==> ps[k].State() == before[k]
    ensures StatesOf(ps) == CloseUpTo(before, m, n)
  {
  }

  /** Matching positions closed up to `n`, every other one untouched, hold the states CloseMatchingUpTo describes. */
  lemma ClosedMatchingStates(ps: seq<Position>, before: seq<PositionState>, m: Snapshot,
                             symbol: string, kind: AssetType, n: nat)
    requires |ps| == |before| && n <= |ps| && ReadyBelow(before, m, WhenOpenMatching(symbol, kind), n)
    requires forall k :: 0 <= k < n ==>
      ps[k].State() == (if Matches(before[k], symbol, kind) then Close(before[k], m) else before[k])
    requires forall k :: n <= k < |ps| ==> ps[k].State() == before[k]
    ensures StatesOf(ps) == CloseMatchingUpTo(before, m, symbol, kind, n)
  {
  }

  class Portfolio {
    var positions: seq<Position>
    var openPnl: real

    /** Trade ids are unique within the portfolio, so no position object appears twice either. */
    predicate Valid()
      reads this
    {
      forall i, j :: 0 <= i < j < |positions| ==> positions[i].tradeId != positions[j].tradeId
    }

    function States(): seq<PositionState>
      reads this, positions
    {
      StatesOf(positions)
    }

    constructor ()
      ensures positions == [] && openPnl == 0.0 && Valid()
    {
      positions := [];
      openPnl := 0.0;
    }

    /** add_position: append at the end; the positions already held are untouched. */
    method AddPosition(p: Position)
      requires Valid() && forall k :: 0 <= k < |positions| ==> positions[k].tradeId != p.tradeId
      modifies this
      ensures positions == old(positions) + [p] && openPnl == old(openPnl)
      ensures Valid()
    {
      positions := positions + [p];
    }

    /** get_closed_pnl: the realised P&L of every position, added up. */
    method GetClosedPnl() returns (total: real)
      ensures total == ClosedPnlSum(States())
    {
      total := 0.0;
      var i := 0;
      while i < |positions|
        invariant 0 <= i <= |positions|
        invariant total == ClosedPnlSum(States()[..i])
      {
        assert States()[..i + 1][..i] == States()[..i];
        total := total + positions[i].closedPnl;
        i := i + 1;
      }
      assert States()[..i] == States();
    }

    /** get_initial_ctv: the initial countervalue of every position, added up. */
    method GetInitialCtv() returns (total: real)
      ensures total == InitialCtvSum(States())
    {
      total := 0.0;
      var i := 0;
      while i < |positions|
        invariant 0 <= i <= |positions|
        invariant total == InitialCtvSum(States()[..i])
      {
        assert States()[..i + 1][..i] == States()[..i];
        total := total + positions[i].initialCtv;
        i := i + 1;
      }
      assert States()[..i] == States();
    }

    /** calculate_value on the position at index `i`; no other position changes. */
    method ValueAt(i: nat, m: Snapshot) returns (v: real)
      requires Valid() && i < |positions| && Quoted(positions[i].State(), m)
      modifies positions[i]
      ensures v == Value(old(positions[i].State()), m).0
      ensures forall k :: 0 <= k < |positions| ==>
        positions[k].State() == if k == i then Value(old(positions[k].State()), m).1 else old(positions[k].State())
    {
      v := positions[i].CalculateValue(m);
    }

    /** calculate_pnl on the position at index `i`; no other position changes. */
    method PnlAt(i: nat, m: Snapshot) returns (pnl: real)
      requires Valid() && i < |positions| && (positions[i].isOpen ==> Quoted(positions[i].State(), m))
      modifies positions[i]
      ensures pnl == Pnl(old(positions[i].State()), m).0
      ensures forall k :: 0 <= k < |positions| ==>
        positions[k].State() == if k == i then Pnl(old(positions[k].State()), m).1 else old(positions[k].State())
    {
      pnl := positions[i].CalculatePnl(m);
    }

    /**
     * The row get_positions_summary builds for the position at index `i`:
     * its P&L first, then its value, then every other column read from the
     * position afterwards. No other position changes.
     */
    method RowAt(i: nat, m: Snapshot) returns (row: SummaryRow)
      requires Valid() && i < |positions| && Quoted(positions[i].State(), m)
      modifies positions[i]
      ensures row == Row(old(positions[i].State()), m)
      ensures forall k :: 0 <= k < |positions| ==>
        positions[k].State() == if k == i then Revalue(old(positions[k].State()), m) else old(positions[k].State())
    {
      var p := positions[i];
      ValuationEffect(p.State(), m);
      var openPnl := p.CalculatePnl(m);
      var value := p.CalculateValue(m);
      row := SummaryRow(m.refDate, p.tradeDate, p.tradeId, p.symbol, p.AssetType().Value(), p.side.Value(),
                        p.quantity, p.entryPrice, p.isOpen, value, openPnl, p.closedPnl, openPnl + p.closedPnl);
    }

    /** close_position on the position at index `i`; no other position changes. */
    method CloseAt(i: nat, m: Snapshot)
      requires Valid() && i < |positions| && (positions[i].isOpen ==> Quoted(positions[i].State(), m))
      modifies positions[i]
      ensures forall k :: 0 <= k < |positions| ==>
        positions[k].State() == if k == i then Close(old(positions[k].State()), m) else old(positions[k].State())
    {
      positions[i].ClosePosition(m);
    }

    /**
     * One turn of calculate_open_pnl's loop: the position at index `i` is
     * valued and its P&L joins the running total.
     */
    method AddPnlAt(i: nat, m: Snapshot, ghost before: seq<PositionState>, total: real) returns (sum: real)
      requires Valid() && i < |positions| == |before| && ReadyBelow(before, m, WhenOpen, i + 1)
      requires forall k :: 0 <= k < i ==> SettleQuoted(before[k], m)
      requires forall k :: 0 <= k < |positions| ==>
        positions[k].State() == if k < i then Revalue(before[k], m) else before[k]
      requires AllReady(before[..i], m, WhenOpen) && total == OpenPnlSum(before[..i], m)
      modifies positions[i]
      ensures forall k :: 0 <= k < i + 1 ==> SettleQuoted(before[k], m)
      ensures forall k :: 0 <= k < |positions| ==>
        positions[k].State() == if k < i + 1 then Revalue(before[k], m) else before[k]
      ensures AllReady(before[..i + 1], m, WhenOpen) && sum == OpenPnlSum(before[..i + 1], m)
    {
      ValuationEffect(before[i], m);
      OpenPnlStep(before, m, i);
      var pnl := PnlAt(i, m);
      sum := total + pnl;
    }

    /**
     * calculate_open_pnl: the P&L of every position, added up. Valuing
     * settles the options past expiry; a missing quote stops the sum.
     */
    method CalculateOpenPnl(m: Snapshot) returns (r: Result<real>)
      requires Valid()
      modifies positions
      ensures var ss, n := old(States()), ReadyPrefix(old(States()), m, WhenOpen);
        && (r.Ok? <==> n == |ss|)
        && (r.Ok? ==> r.value == OpenPnlSum(ss, m))
        && (r.Err? ==> r.error == KeyError)
        && States() == RevalueUpTo(ss, m, n)
    {
      ghost var before := States();
      var total := 0.0;
      var i := 0;
      while i < |positions|
        invariant 0 <= i <= |positions|
        invariant ReadyBelow(before, m, WhenOpen, i)
        invariant forall k :: 0 <= k < i ==> SettleQuoted(before[k], m)
        invariant forall k :: 0 <= k < |positions| ==>
          positions[k].State() == if k < i then Revalue(before[k], m) else before[k]
        invariant AllReady(before[..i], m, WhenOpen) && total == OpenPnlSum(before[..i], m)
      {
        var p := positions[i];
        if p.isOpen && !Quoted(p.State(), m) {
          StoppedAt(before, m, WhenOpen, i);
          RevaluedStates(positions, before, m, i);
          return Err(KeyError);
        }
        total := AddPnlAt(i, m, before, total);
        i := i + 1;
      }
      assert before[..i] == before;
      RevaluedStates(positions, before, m, i);
      r := Ok(total);
    }

    /**
     * One turn of calculate_total_value's loop: the position at index `i` is
     * valued and `value * quantity * side` joins the running total.
     */
    method AddValueAt(i: nat, m: Snapshot, ghost before: seq<PositionState>, total: real) returns (sum: real)
      requires Valid() && i < |positions| == |before| && ReadyBelow(before, m, Always, i + 1)
      requires forall k :: 0 <= k < i ==> SettleQuoted(before[k], m)
      requires forall k :: 0 <= k < |positions| ==>
        positions[k].State() == if k < i then Revalue(before[k], m) else before[k]
      requires AllReady(before[..i], m, Always) && total == ValueSum(before[..i], m)
      modifies positions[i]
      ensures forall k :: 0 <= k < i + 1 ==> SettleQuoted(before[k], m)
      ensures forall k :: 0 <= k < |positions| ==>
        positions[k].State() == if k < i + 1 then Revalue(before[k], m) else before[k]
      ensures AllReady(before[..i + 1], m, Always) && sum == ValueSum(before[..i + 1], m)
    {
      var p := positions[i];
      ValuationEffect(before[i], m);
      ValueSumStep(before, m, i);
      ghost var valued := Value(before[i], m);
      var v := ValueAt(i, m);
      assert v == valued.0 && p.quantity == valued.1.quantity && p.side == before[i].side;
      sum := total + Weighted(v, p.quantity, p.side);
    }

    /**
     * calculate_total_value: `value * quantity * side` of every position,
     * added up; every position is valued, closed ones too.
     */
    method CalculateTotalValue(m: Snapshot) returns (r: Result<real>)
      requires Valid()
      modifies positions
      ensures var ss, n := old(States()), ReadyPrefix(old(States()), m, Always);
        && (r.Ok? <==> n == |ss|)
        && (r.Ok? ==> r.value == ValueSum(ss, m))
        && (r.Err? ==> r.error == KeyError)
        && States() == RevalueUpTo(ss, m, n)
    {
      ghost var before := States();
      var total := 0.0;
      var i := 0;
      while i < |positions|
        invariant 0 <= i <= |positions|
        invariant ReadyBelow(before, m, Always, i)
        invariant forall k :: 0 <= k < i ==> SettleQuoted(before[k], m)
        invariant forall k :: 0 <= k < |positions| ==>
          positions[k].State() == if k < i then Revalue(before[k], m) else before[k]
        invariant AllReady(before[..i], m, Always) && total == ValueSum(before[..i], m)
      {
        var p := positions[i];
        if !Quoted(p.State(), m) {
          StoppedAt(before, m, Always, i);
          RevaluedStates(positions, before, m, i);
          return Err(KeyError);
        }
        total := AddValueAt(i, m, before, total);
        i := i + 1;
      }
      assert before[..i] == before;
      RevaluedStates(positions, before, m, i);
      r := Ok(total);
    }

    /** global_pnl: the open P&L sum, then the realised P&L sum of the positions as valuing left them. */
    method GlobalPnl(m: Snapshot) returns (r: Result<real>)
      requires Valid()
      modifies positions
      ensures var ss, n := old(States()), ReadyPrefix(old(States()), m, WhenOpen);
        && (r.Ok? <==> n == |ss|)
        && (r.Ok? ==> r.value == GlobalSum(ss, m))
        && (r.Err? ==> r.error == KeyError)
        && States() == RevalueUpTo(ss, m, n)
    {
      ghost var before := States();
      var open := CalculateOpenPnl(m);
      if open.Err? {
        return Err(KeyError);
      }
      var closed := GetClosedPnl();
      GlobalPnlIsPerPosition(before, m);
      r := Ok(open.value + closed);
    }

    /**
     * get_positions_summary: one row per position, in list order, each
     * computed after the position's P&L has been computed.
     */
    method GetPositionsSummary(m: Snapshot) returns (r: Result<seq<SummaryRow>>)
      requires Valid()
      modifies positions
      ensures var ss, n := old(States()), ReadyPrefix(old(States()), m, Always);
        && (r.Ok? <==> n == |ss|)
        && (r.Ok? ==> r.value == Summary(ss, m))
        && (r.Err? ==> r.error == KeyError)
        && States() == RevalueUpTo(ss, m, n)
    {
      ghost var before := States();
      var rows: seq<SummaryRow> := [];
      var i := 0;
      while i < |positions|
        invariant 0 <= i <= |positions|
        invariant ReadyBelow(before, m, Always, i)
        invariant forall k :: 0 <= k < i ==> SettleQuoted(before[k], m)
        invariant forall k :: 0 <= k < |positions| ==>
          positions[k].State() == if k < i then Revalue(before[k], m) else before[k]
        invariant |rows| == i && forall k :: 0 <= k < i ==> rows[k] == Row(before[k], m)
      {
        var p := positions[i];
        if !Quoted(p.State(), m) {
          StoppedAt(before, m, Always, i);
          RevaluedStates(positions, before, m, i);
          return Err(KeyError);
        }
        ValuationEffect(before[i], m);
        var row := RowAt(i, m);
        rows := rows + [row];
        i := i + 1;
      }
      RevaluedStates(positions, before, m, i);
      r := Ok(rows);
    }

    /** get_positions: the matching positions, in list order. */
    method GetPositions(symbol: string, kind: AssetType) returns (found: seq<Position>)
      ensures found == Matching(positions, symbol, kind)
    {
      found := [];
      var i := 0;
      while i < |positions|
        invariant 0 <= i <= |positions|
        invariant found == Matching(positions[..i], symbol, kind)
      {
        assert positions[..i + 1][..i] == positions[..i];
        if positions[i].symbol == symbol && positions[i].AssetType() == kind {
          found := found + [positions[i]];
        }
        i := i + 1;
      }
      assert positions[..i] == positions;
    }

    /** position_quantity: the quantities of the positions get_positions returns, added up. */
    method PositionQuantity(symbol: string, kind: AssetType) returns (total: real)
      ensures total == MatchingQuantity(States(), symbol, kind)
    {
      var found := GetPositions(symbol, kind);
      total := 0.0;
      var i := 0;
      while i < |found|
        invariant 0 <= i <= |found|
        invariant total == QuantitySum(StatesOf(found)[..i])
      {
        assert StatesOf(found)[..i + 1][..i] == StatesOf(found)[..i];
        total := total + found[i].quantity;
        i := i + 1;
      }
      assert StatesOf(found)[..i] == StatesOf(found);
      MatchingQuantityOfFilter(positions, symbol, kind);
    }

    /** close_all_positions: close every open position, in list order. */
    method CloseAllPositions(m: Snapshot) returns (r: Result<()>)
      requires Valid()
      modifies positions
      ensures var ss, n := old(States()), ReadyPrefix(old(States()), m, WhenOpen);
        && (r.Ok? <==> n == |ss|)
        && (r.Err? ==> r.error == KeyError)
        && States() == CloseUpTo(ss, m, n)
    {
      ghost var before := States();
      var i := 0;
      while i < |positions|
        invariant 0 <= i <= |positions|
        invariant ReadyBelow(before, m, WhenOpen, i)
        invariant forall k :: 0 <= k < i ==> positions[k].State() == Close(before[k], m)
        invariant forall k :: i <= k < |positions| ==> positions[k].State() == before[k]
      {
        var p := positions[i];
        if p.isOpen {
          if !Quoted(p.State(), m) {
            StoppedAt(before, m, WhenOpen, i);
            ClosedStates(positions, before, m, i);
            return Err(KeyError);
          }
          CloseAt(i, m);
        }
        i := i + 1;
      }
      ClosedStates(positions, before, m, i);
      r := Ok(());
    }

    /**
     * close_positions: close the positions get_positions returns for the
     * ticker and the asset type, in list order; the others are untouched.
     */
    method ClosePositions(ticker: string, kind: AssetType, m: Snapshot) returns (r: Result<()>)
      requires Valid()
      modifies positions
      ensures var ss, n := old(States()), ReadyPrefix(old(States()), m, WhenOpenMatching(ticker, kind));
        && (r.Ok? <==> n == |ss|)
        && (r.Err? ==> r.error == KeyError)
        && States() == CloseMatchingUpTo(ss, m, ticker, kind, n)
    {
      ghost var before := States();
      var need := WhenOpenMatching(ticker, kind);
      var i := 0;
      while i < |positions|
        invariant 0 <= i <= |positions|
        invariant ReadyBelow(before, m, need, i)
        invariant forall k :: 0 <= k < i ==>
          positions[k].State() == (if Matches(before[k], ticker, kind) then Close(before[k], m) else before[k])
        invariant forall k :: i <= k < |positions| ==> positions[k].State() == before[k]
      {
        var p := positions[i];
        if p.symbol == ticker && p.AssetType() == kind {
          if p.isOpen && !Quoted(p.State(), m) {
            StoppedAt(before, m, need, i);
            ClosedMatchingStates(positions, before, m, ticker, kind, i);
            return Err(KeyError);
          }
          CloseAt(i, m);
        }
        i := i + 1;
      }
      ClosedMatchingStates(positions, before, m, ticker, kind, i);
      r := Ok(());
    }
  }
}
