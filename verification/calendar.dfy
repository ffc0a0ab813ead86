/**
 * Calendar days. A date is its day number, so the day after `d` is `d + 1`
 * and the ISO text of a date is left out of the model.
 */
module Calendar {

  type Date = int

  /** The days from `start` to `end`, both included, in calendar order. */
  function Span(start: Date, end: Date): (r: seq<Date>)
    decreases end - start
    ensures |r| == if start <= end then end - start + 1 else 0
    ensures forall k :: 0 <= k < |r| ==> r[k] == start + k
  {
    if start > end then [] else [start] + Span(start + 1, end)
  }

  /** Each day comes strictly after the one before it. */
  predicate StrictlyIncreasing(s: seq<Date>) {
    forall i :: 0 < i < |s| ==> s[i - 1] < s[i]
  }

  /** In a strictly increasing list every earlier day is before every later one. */
  lemma {:induction false} IncreasingPairs(s: seq<Date>)
    requires StrictlyIncreasing(s)
    ensures forall i, j :: 0 <= i < j < |s| ==> s[i] < s[j]
  {
    forall i, j | 0 <= i < j < |s|
      ensures s[i] < s[j]
    {
      IncreasingFrom(s, i, j);
    }
  }

  /** In a strictly increasing list, the day at `i` follows every earlier day and is the last day only at the last index. */
  lemma IncreasingAt(s: seq<Date>, i: nat)
    requires StrictlyIncreasing(s) && i < |s|
    ensures forall e :: e in s[..i] ==> e < s[i]
    ensures s[i] == s[|s| - 1] <==> i == |s| - 1
  {
    IncreasingPairs(s);
  }

  /** Taking one more day of a list appends that day. */
  lemma TakeOneMore(s: seq<Date>, i: nat)
    requires i < |s|
    ensures s[..i + 1] == s[..i] + [s[i]]
  {
  }

  lemma {:induction false} IncreasingFrom(s: seq<Date>, i: nat, j: nat)
    requires StrictlyIncreasing(s) && i < j < |s|
    ensures s[i] < s[j]
    decreases j - i
  {
    if i + 1 < j {
      IncreasingFrom(s, i, j - 1);
    }
  }

  /**
   * get_dates_between: starting from `start`, append the current day and
   * step one day forward while the current day is not after `end`.
   */
  method DatesBetween(start: Date, end: Date) returns (dates: seq<Date>)
    ensures dates == Span(start, end)
    ensures forall d :: d in dates <==> start <= d <= end
    ensures forall k :: 0 < k < |dates| ==> dates[k] == dates[k - 1] + 1
    ensures dates == [] <==> start > end
  {
    dates := [];
    var current := start;
    while current <= end
      invariant start <= current
      invariant current <= end + 1 || current == start
      invariant |dates| == current - start
      invariant forall k :: 0 <= k < |dates| ==> dates[k] == start + k
    {
      dates := dates + [current];
      current := current + 1;
    }
    forall d | start <= d <= end
      ensures d in dates
    {
      assert dates[d - start] == d;
    }
  }

  /** Appending a day later than every day of an increasing list keeps it increasing. */
  lemma AppendIncreasing(s: seq<Date>, d: Date)
    requires StrictlyIncreasing(s)
    requires forall e :: e in s ==> e < d
    ensures StrictlyIncreasing(s + [d])
  {
    if s != [] {
      assert s[|s| - 1] in s;
    }
  }

  /** Every span is strictly increasing. */
  lemma SpanIncreasing(start: Date, end: Date)
    ensures StrictlyIncreasing(Span(start, end))
  {
  }
}
