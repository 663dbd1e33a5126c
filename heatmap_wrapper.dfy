/**
  The memoisation test of the heatmap wrapper: the chart is re-rendered
  only when its props differ. The test compares lengths first, then the
  dates, the hours, the row count and each row, returning false at the
  first difference.
 */
module HeatmapWrapper {

  datatype Props = Props(dates: seq<string>, hours: seq<string>, data: seq<seq<int>>)

  /** The props are equal iff every list and every row is element-wise equal. */
  method AreEqual(prev: Props, next: Props) returns (eq: bool)
    ensures eq <==> prev == next
  {
    if |prev.dates| != |next.dates| { return false; }
    if |prev.hours| != |next.hours| { return false; }

    var i := 0;
    while i < |prev.dates|
      invariant 0 <= i <= |prev.dates|
      invariant prev.dates[..i] == next.dates[..i]
    {
      if prev.dates[i] != next.dates[i] { return false; }
      assert prev.dates[..i + 1] == prev.dates[..i] + [prev.dates[i]];
      assert next.dates[..i + 1] == next.dates[..i] + [next.dates[i]];
      i := i + 1;
    }
    assert prev.dates == prev.dates[..i] && next.dates == next.dates[..i];

    i := 0;
    while i < |prev.hours|
      invariant 0 <= i <= |prev.hours|
      invariant prev.hours[..i] == next.hours[..i]
    {
      if prev.hours[i] != next.hours[i] { return false; }
      assert prev.hours[..i + 1] == prev.hours[..i] + [prev.hours[i]];
      assert next.hours[..i + 1] == next.hours[..i] + [next.hours[i]];
      i := i + 1;
    }
    assert prev.hours == prev.hours[..i] && next.hours == next.hours[..i];

    if |prev.data| != |next.data| { return false; }
    i := 0;
    while i < |prev.data|
      invariant 0 <= i <= |prev.data|
      invariant prev.data[..i] == next.data[..i]
    {
      var row, other := prev.data[i], next.data[i];
      if |row| != |other| { return false; }
      var j := 0;
      while j < |row|
        invariant 0 <= j <= |row|
        invariant row[..j] == other[..j]
      {
        if row[j] != other[j] { return false; }
        assert row[..j + 1] == row[..j] + [row[j]];
        assert other[..j + 1] == other[..j] + [other[j]];
        j := j + 1;
      }
      assert row == row[..j] && other == other[..j];
      assert prev.data[..i + 1] == prev.data[..i] + [row];
      assert next.data[..i + 1] == next.data[..i] + [other];
      i := i + 1;
    }
    assert prev.data == prev.data[..i] && next.data == next.data[..i];
    return true;
  }
}
