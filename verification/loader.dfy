/** The loader: keep the first 200 data rows of the file (the header line is
    not a row), then order them by event time. The truncation comes first, so
    a late data row never reaches the pipeline however early its timestamp. */
module Loader {
  import opened Prelude
  import opened Records

  /** The fixed row cap of `df.iloc[0:200]`. */
  const RowCap: nat := 200

  ghost predicate SortedByTime(s: seq<RawRow>)
  {
    forall i, j :: 0 <= i < j < |s| ==> s[i].EventTime() <= s[j].EventTime()
  }

  /** Insert one row into a time-ordered sequence, before the first row that
      is not earlier than it. */
  function Insert(x: RawRow, s: seq<RawRow>): (r: seq<RawRow>)
    requires SortedByTime(s)
    ensures SortedByTime(r)
    ensures multiset(r) == multiset(s) + multiset{x}
    ensures |r| == |s| + 1
    ensures r[0] == x || (|s| > 0 && r[0] == s[0])
  {
    if |s| == 0 || x.EventTime() <= s[0].EventTime() then [x] + s
    else
      assert s == [s[0]] + s[1..];
      [s[0]] + Insert(x, s[1..])
  }

  /** `sort_values('event_time', ascending=True)`. pandas' default sort is not
      stable; this one fixes one order among rows with equal timestamps, and
      only the order-independent facts below are claimed for it. */
  function SortByTime(s: seq<RawRow>): (r: seq<RawRow>)
    ensures SortedByTime(r)
    ensures multiset(r) == multiset(s)
    ensures |r| == |s|
  {
    if |s| == 0 then []
    else
      assert s == [s[0]] + s[1..];
      Insert(s[0], SortByTime(s[1..]))
  }

  /** Lines 30-32 of the script: truncate to the first `RowCap` data rows, then sort. */
  function Load(file: seq<RawRow>): (r: seq<RawRow>)
    ensures |r| == Min(RowCap, |file|)
    ensures SortedByTime(r)
    ensures multiset(r) == multiset(file[..Min(RowCap, |file|)])
  {
    SortByTime(file[..Min(RowCap, |file|)])
  }

  /** A row is loaded exactly when it occurs among the first `RowCap` data rows. */
  lemma LoadedRows(file: seq<RawRow>, x: RawRow)
    ensures x in Load(file) <==> x in file[..Min(RowCap, |file|)]
  {
    var r := Load(file);
    var head := file[..Min(RowCap, |file|)];
    calc {
      x in r;
      x in multiset(r);
      x in multiset(head);
      x in head;
    }
  }

  /** Truncation comes before sorting: whatever follows the first `RowCap`
      data rows has no effect on what is loaded. */
  lemma LoadIgnoresTail(file: seq<RawRow>, tail: seq<RawRow>)
    requires |file| >= RowCap
    ensures Load(file + tail) == Load(file)
  {
    assert (file + tail)[..RowCap] == file[..RowCap];
  }

  /** A data row past the cap that is earlier than every loaded row is still not
      loaded: the loader does not return the `RowCap` earliest rows of the file. */
  lemma EarlyLateRowIsDropped(file: seq<RawRow>)
    requires |file| > RowCap
    requires forall i :: 0 <= i < RowCap ==> file[RowCap].EventTime() < file[i].EventTime()
    ensures file[RowCap] !in Load(file)
  {
    LoadedRows(file, file[RowCap]);
  }
}
