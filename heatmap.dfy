/**
  The hour-by-day visitor heatmap of the watchman and committee dashboards:
  a 24 x 7 matrix, row = hour of day, column = index of the visitor's date
  in the seven-day window `dates`. The matrix is zero-filled, then every
  visitor whose date is in the window increments the cell at
  `[hour][dates.indexOf(date)]`.

  `Counts` is the specification of the matrix; `Aggregate` is the in-place
  loop and is proved to produce it.
 */
module Heatmap {
  import opened UserTypes

  const HourRows: nat := 24
  const DayColumns: nat := 7

  /** `dates.indexOf(d)`: the first index holding `d`, or -1. */
  function IndexOf(dates: seq<string>, d: string): (i: int)
    ensures -1 <= i < |dates|
    ensures i == -1 <==> d !in dates
    ensures 0 <= i ==> dates[i] == d && d !in dates[..i]
  {
    if |dates| == 0 then -1
    else if dates[0] == d then 0
    else
      var j := IndexOf(dates[1..], d);
      if j == -1 then -1 else j + 1
  }

  /** Visitor `v` falls in cell `[h][d]`. */
  predicate Hits(v: Visitor, dates: seq<string>, h: int, d: int) {
    v.timestamp.hour == h && IndexOf(dates, v.timestamp.date) == d
  }

  /** The number of visitors of `vs` that fall in cell `[h][d]`. */
  function Tally(vs: seq<Visitor>, dates: seq<string>, h: int, d: int): nat {
    if vs == [] then 0
    else Tally(vs[..|vs| - 1], dates, h, d) + (if Hits(vs[|vs| - 1], dates, h, d) then 1 else 0)
  }

  /** The number of visitors of `vs` whose date is in the window. */
  function InWindow(vs: seq<Visitor>, dates: seq<string>): nat {
    if vs == [] then 0
    else InWindow(vs[..|vs| - 1], dates) + (if vs[|vs| - 1].timestamp.date in dates then 1 else 0)
  }

  /** The heatmap matrix as a value: 24 rows of 7 counts. */
  function Counts(vs: seq<Visitor>, dates: seq<string>): (m: seq<seq<nat>>)
    ensures |m| == HourRows
    ensures forall h :: 0 <= h < |m| ==> |m[h]| == DayColumns
  {
    seq(HourRows, h requires 0 <= h < HourRows =>
      seq(DayColumns, d requires 0 <= d < DayColumns => Tally(vs, dates, h, d)))
  }

  /**
    The aggregation loop: a fresh zero-filled 24 x 7 matrix, incremented in
    place once per in-window visitor, in list order.
   */
  method Aggregate(visitors: seq<Visitor>, dates: seq<string>) returns (data: array2<nat>)
    requires |dates| == DayColumns
    ensures fresh(data)
    ensures data.Length0 == HourRows && data.Length1 == DayColumns
    ensures forall h, d :: 0 <= h < HourRows && 0 <= d < DayColumns ==>
      data[h, d] == Counts(visitors, dates)[h][d]
  {
    data := new nat[HourRows, DayColumns]((h, d) => 0);
    var i := 0;
    while i < |visitors|
      invariant 0 <= i <= |visitors|
      invariant forall h, d :: 0 <= h < HourRows && 0 <= d < DayColumns ==>
        data[h, d] == Tally(visitors[..i], dates, h, d)
    {
      var v := visitors[i];
      var dateIndex := IndexOf(dates, v.timestamp.date);
      if dateIndex != -1 {
        data[v.timestamp.hour, dateIndex] := data[v.timestamp.hour, dateIndex] + 1;
      }
      assert visitors[..i + 1][..i] == visitors[..i];
      i := i + 1;
    }
    assert visitors[..|visitors|] == visitors;
  }

  // ---------------------------------------------------------------------
  // What one more visitor does to the matrix.

  /** The matrix with cell `[h][d]` incremented. */
  function Bump(m: seq<seq<nat>>, h: nat, d: nat): seq<seq<nat>>
    requires h < |m| && d < |m[h]|
  {
    m[h := m[h][d := m[h][d] + 1]]
  }

  lemma TallySnoc(vs: seq<Visitor>, v: Visitor, dates: seq<string>, h: int, d: int)
    ensures Tally(vs + [v], dates, h, d) == Tally(vs, dates, h, d) + (if Hits(v, dates, h, d) then 1 else 0)
  {
    assert (vs + [v])[..|vs|] == vs;
  }

  /** A visitor whose date is outside the window changes nothing. */
  lemma OutOfWindowChangesNothing(vs: seq<Visitor>, v: Visitor, dates: seq<string>)
    requires v.timestamp.date !in dates
    ensures Counts(vs + [v], dates) == Counts(vs, dates)
  {
    var m, m' := Counts(vs, dates), Counts(vs + [v], dates);
    forall h | 0 <= h < HourRows ensures m'[h] == m[h] {
      forall d | 0 <= d < DayColumns ensures m'[h][d] == m[h][d] {
        TallySnoc(vs, v, dates, h, d);
      }
    }
  }

  /** A visitor whose date is in the window increments exactly the cell `[hour][dateIndex]`. */
  lemma InWindowIncrementsOneCell(vs: seq<Visitor>, v: Visitor, dates: seq<string>)
    requires |dates| == DayColumns
    requires v.timestamp.date in dates
    ensures Counts(vs + [v], dates) ==
      Bump(Counts(vs, dates), v.timestamp.hour, IndexOf(dates, v.timestamp.date))
  {
    var m, m' := Counts(vs, dates), Counts(vs + [v], dates);
    var b := Bump(m, v.timestamp.hour, IndexOf(dates, v.timestamp.date));
    forall h | 0 <= h < HourRows ensures m'[h] == b[h] {
      forall d | 0 <= d < DayColumns ensures m'[h][d] == b[h][d] {
        TallySnoc(vs, v, dates, h, d);
      }
    }
  }

  // ---------------------------------------------------------------------
  // The matrix total.

  function RowSum(r: seq<nat>): nat {
    if r == [] then 0 else r[0] + RowSum(r[1..])
  }

  function GridSum(m: seq<seq<nat>>): nat {
    if m == [] then 0 else RowSum(m[0]) + GridSum(m[1..])
  }

  lemma {:induction false} RowSumBump(r: seq<nat>, d: nat)
    requires d < |r|
    ensures RowSum(r[d := r[d] + 1]) == RowSum(r) + 1
  {
    if d > 0 {
      RowSumBump(r[1..], d - 1);
      assert r[d := r[d] + 1][1..] == r[1..][d - 1 := r[d] + 1];
    }
  }

  lemma {:induction false} GridSumBump(m: seq<seq<nat>>, h: nat, d: nat)
    requires h < |m| && d < |m[h]|
    ensures GridSum(Bump(m, h, d)) == GridSum(m) + 1
  {
    if h == 0 {
      RowSumBump(m[0], d);
      assert Bump(m, h, d)[1..] == m[1..];
    } else {
      GridSumBump(m[1..], h - 1, d);
      assert Bump(m, h, d)[1..] == Bump(m[1..], h - 1, d);
    }
  }

  /** All-zero rows sum to zero: the matrix of no visitors. */
  lemma {:induction false} EmptyTotal(dates: seq<string>)
    ensures GridSum(Counts([], dates)) == 0
  {
    var m := Counts([], dates);
    forall k | 0 <= k <= HourRows ensures GridSum(m[k..]) == 0 {
      ZeroSuffix(m, k);
    }
    assert m[0..] == m;
  }

  lemma {:induction false} ZeroSuffix(m: seq<seq<nat>>, k: nat)
    requires k <= |m|
    requires forall h, d :: 0 <= h < |m| && 0 <= d < |m[h]| ==> m[h][d] == 0
    ensures GridSum(m[k..]) == 0
    decreases |m| - k
  {
    if k < |m| {
      ZeroSuffix(m, k + 1);
      ZeroRow(m[k]);
      assert m[k..][1..] == m[k + 1..];
    }
  }

  lemma {:induction false} ZeroRow(r: seq<nat>)
    requires forall d :: 0 <= d < |r| ==> r[d] == 0
    ensures RowSum(r) == 0
  {
    if r != [] {
      ZeroRow(r[1..]);
    }
  }

  /** The matrix total is the number of visitors whose date is in the window. */
  lemma {:induction false} TotalIsInWindow(vs: seq<Visitor>, dates: seq<string>)
    requires |dates| == DayColumns
    ensures GridSum(Counts(vs, dates)) == InWindow(vs, dates)
  {
    if vs == [] {
      EmptyTotal(dates);
    } else {
      var front, v := vs[..|vs| - 1], vs[|vs| - 1];
      assert vs == front + [v];
      TotalIsInWindow(front, dates);
      if v.timestamp.date in dates {
        InWindowIncrementsOneCell(front, v, dates);
        GridSumBump(Counts(front, dates), v.timestamp.hour, IndexOf(dates, v.timestamp.date));
      } else {
        OutOfWindowChangesNothing(front, v, dates);
      }
    }
  }
}
