/** The data preparation of backtest/engine.py: normalising each frame (drop unparseable
    stamps, keep the last row of a duplicated stamp, sort), skipping empty frames, the common
    time axis and its calendar-date fallback. */
module EngineData {
  import opened Wrappers
  import opened Bars

  /** One input row: its index parsed to seconds since the epoch (UTC), or None when
      pd.to_datetime could not parse it. */
  datatype RawRow = RawRow(stamp: Option<int>, bar: Bar)

  function BarTimes(bars: seq<Bar>): (ts: seq<int>)
    ensures |ts| == |bars| && forall k :: 0 <= k < |bars| ==> ts[k] == bars[k].time
  {
    seq(|bars|, k requires 0 <= k < |bars| => bars[k].time)
  }

  /** Stamps strictly increase along the frame. */
  predicate Sorted(bars: seq<Bar>) {
    forall i, j :: 0 <= i < j < |bars| ==> bars[i].time < bars[j].time
  }

  function TimeSet(bars: seq<Bar>): set<int> {
    set b | b in bars :: b.time
  }

  lemma SortedTimes(bars: seq<Bar>)
    ensures Sorted(bars) <==> StrictlyIncreasing(BarTimes(bars))
    ensures forall t :: t in BarTimes(bars) <==> t in TimeSet(bars)
  {
    forall t | t in TimeSet(bars) ensures t in BarTimes(bars) {
      var b :| b in bars && b.time == t;
      var k :| 0 <= k < |bars| && bars[k] == b;
      assert BarTimes(bars)[k] == t;
    }
  }

  /** Put a bar into a frame sorted by time, replacing a bar with the same stamp. */
  function Insert(sorted: seq<Bar>, b: Bar): (r: seq<Bar>)
    requires Sorted(sorted)
    ensures Sorted(r)
    ensures forall x :: x in r <==> x == b || (x in sorted && x.time != b.time)
  {
    if sorted == [] then [b]
    else if b.time < sorted[0].time then [b] + sorted
    else if b.time == sorted[0].time then
      ReplaceHead(sorted, b);
      [b] + sorted[1..]
    else
      var rest := Insert(sorted[1..], b);
      TailAfterHead(sorted);
      InsertAfterHead(sorted[0], rest);
      [sorted[0]] + rest
  }

  /** A bar with the head's stamp replaces the head. */
  lemma ReplaceHead(sorted: seq<Bar>, b: Bar)
    requires Sorted(sorted) && sorted != [] && b.time == sorted[0].time
    ensures Sorted([b] + sorted[1..])
    ensures forall x :: x in [b] + sorted[1..] <==> x == b || (x in sorted && x.time != b.time)
  {
    forall x | x in sorted[1..] ensures x.time != b.time {
      var k :| 0 <= k < |sorted| - 1 && sorted[1..][k] == x;
      assert sorted[k + 1] == x;
    }
    assert sorted == [sorted[0]] + sorted[1..];
    forall i, j | 0 <= i < j < |[b] + sorted[1..]| ensures ([b] + sorted[1..])[i].time < ([b] + sorted[1..])[j].time {
      assert ([b] + sorted[1..])[j] == sorted[j];
      if i > 0 { assert ([b] + sorted[1..])[i] == sorted[i]; }
    }
  }

  /** Every bar after the head of a sorted frame is later than the head. */
  lemma TailAfterHead(sorted: seq<Bar>)
    requires Sorted(sorted) && sorted != []
    ensures sorted == [sorted[0]] + sorted[1..]
    ensures forall x :: x in sorted[1..] ==> x.time > sorted[0].time
  {
    forall x | x in sorted[1..] ensures x.time > sorted[0].time {
      var k :| 0 <= k < |sorted| - 1 && sorted[1..][k] == x;
      assert sorted[k + 1] == x;
    }
  }

  lemma InsertAfterHead(h: Bar, rest: seq<Bar>)
    requires Sorted(rest) && forall x :: x in rest ==> x.time > h.time
    ensures Sorted([h] + rest)
  {
    forall i, j | 0 <= i < j < |[h] + rest| ensures ([h] + rest)[i].time < ([h] + rest)[j].time {
      if i == 0 { assert ([h] + rest)[j] in rest; }
    }
  }

  /** The stamps after an insert are the old ones and the new bar's. */
  lemma InsertTimes(sorted: seq<Bar>, b: Bar)
    requires Sorted(sorted)
    ensures TimeSet(Insert(sorted, b)) == TimeSet(sorted) + {b.time}
  {
    var r := Insert(sorted, b);
    forall t | t in TimeSet(sorted) + {b.time} ensures t in TimeSet(r) {
      if t != b.time {
        var x :| x in sorted && x.time == t;
        assert x in r;
      } else {
        assert b in r;
      }
    }
  }

  /** The last parseable row stamped t, carrying that stamp. */
  function LastWith(rows: seq<RawRow>, t: int): Option<Bar> {
    if rows == [] then None
    else if rows[|rows| - 1].stamp == Some(t) then Some(rows[|rows| - 1].bar.(time := t))
    else LastWith(rows[..|rows| - 1], t)
  }

  /** _prepare_dataframe: every bar is the last row of its stamp, every parseable stamp appears
      once, and the stamps strictly increase. */
  function PrepareFrame(rows: seq<RawRow>): (r: seq<Bar>)
    ensures Sorted(r)
    ensures forall t :: t in TimeSet(r) <==> LastWith(rows, t).Some?
    ensures forall x :: x in r ==> LastWith(rows, x.time) == Some(x)
  {
    if rows == [] then []
    else
      var prev := PrepareFrame(rows[..|rows| - 1]);
      var row := rows[|rows| - 1];
      if row.stamp.None? then prev
      else
        InsertTimes(prev, row.bar.(time := row.stamp.value));
        Insert(prev, row.bar.(time := row.stamp.value))
  }

  /** Every stamp that no row carries is dropped, and a frame of unparseable stamps prepares to nothing. */
  lemma {:induction false} UnparseableRowsDropped(rows: seq<RawRow>)
    requires forall k :: 0 <= k < |rows| ==> rows[k].stamp.None?
    ensures PrepareFrame(rows) == []
  {
    if rows != [] {
      UnparseableRowsDropped(rows[..|rows| - 1]);
    }
  }

  /** Keeping the last of a duplicated stamp: appending a row with a stamp already present
      replaces that bar and keeps the length. */
  lemma DuplicateKeepsLast(rows: seq<RawRow>, row: RawRow)
    requires row.stamp.Some? && row.stamp.value in TimeSet(PrepareFrame(rows))
    ensures row.bar.(time := row.stamp.value) in PrepareFrame(rows + [row])
    ensures LastWith(rows + [row], row.stamp.value) == Some(row.bar.(time := row.stamp.value))
  {
    assert (rows + [row])[..|rows|] == rows;
  }

  // --------------------------------------------------------------- the common axis

  /** A stamp every frame carries. */
  predicate InAll(t: int, frames: seq<seq<Bar>>) {
    forall k :: 0 <= k < |frames| ==> t in BarTimes(frames[k])
  }

  function FilterInAll(ts: seq<int>, frames: seq<seq<Bar>>): (r: seq<int>)
    ensures forall t :: t in r <==> t in ts && InAll(t, frames)
    ensures StrictlyIncreasing(ts) ==> StrictlyIncreasing(r)
  {
    if ts == [] then []
    else
      var init := ts[..|ts| - 1];
      var last := ts[|ts| - 1];
      var prev := FilterInAll(init, frames);
      assert ts == init + [last];
      if InAll(last, frames) then
        AppendLater(ts, prev);
        prev + [last]
      else prev
  }

  /** Keeping the last stamp of an increasing sequence after a filter of the others keeps the
      result increasing. */
  lemma AppendLater(ts: seq<int>, prev: seq<int>)
    requires ts != [] && forall t :: t in prev ==> t in ts[..|ts| - 1]
    requires StrictlyIncreasing(ts[..|ts| - 1]) ==> StrictlyIncreasing(prev)
    ensures StrictlyIncreasing(ts) ==> StrictlyIncreasing(prev + [ts[|ts| - 1]])
  {
    var init := ts[..|ts| - 1];
    var last := ts[|ts| - 1];
    if StrictlyIncreasing(ts) {
      assert StrictlyIncreasing(init);
      forall t | t in prev ensures t < last {
        var j :| 0 <= j < |init| && init[j] == t;
        assert ts[j] == t;
      }
      var r := prev + [last];
      forall i, j | 0 <= i < j < |r| ensures r[i] < r[j] {
        if j == |r| - 1 { assert r[i] in prev; }
      }
    }
  }

  /** The intersection of all indices, in the first frame's (sorted) order. */
  function CommonIndex(frames: seq<seq<Bar>>): (axis: seq<int>)
    requires frames != []
    ensures forall t :: t in axis <==> InAll(t, frames)
    ensures StrictlyIncreasing(BarTimes(frames[0])) ==> StrictlyIncreasing(axis)
  {
    FilterInAll(BarTimes(frames[0]), frames)
  }

  /** Seconds in a day; normalize() floors a stamp to its midnight. */
  const DaySeconds := 86400

  function Midnight(t: int): (m: int)
    ensures m <= t < m + DaySeconds && m % DaySeconds == 0
  {
    (t / DaySeconds) * DaySeconds
  }

  /** groupby(index.normalize()).last(): the last bar of each calendar date, stamped at midnight. */
  function DailyFrame(frame: seq<Bar>): (r: seq<Bar>)
    ensures Sorted(r)
    ensures forall x :: x in r ==> x.time % DaySeconds == 0
  {
    var rows := seq(|frame|, k requires 0 <= k < |frame| => RawRow(Some(Midnight(frame[k].time)), frame[k]));
    var r := PrepareFrame(rows);
    assert forall x :: x in r ==> x.time % DaySeconds == 0 by {
      forall x | x in r ensures x.time % DaySeconds == 0 {
        LastWithIsMidnight(rows, x.time);
      }
    }
    r
  }

  lemma {:induction false} LastWithIsMidnight(rows: seq<RawRow>, t: int)
    requires forall k :: 0 <= k < |rows| ==> rows[k].stamp.Some? && rows[k].stamp.value % DaySeconds == 0
    requires LastWith(rows, t).Some?
    ensures t % DaySeconds == 0
  {
    if rows[|rows| - 1].stamp != Some(t) {
      LastWithIsMidnight(rows[..|rows| - 1], t);
    }
  }

  /** One symbol's input frame, in the data map's insertion order. */
  datatype SymbolData = SymbolData(symbol: string, rows: seq<RawRow>)

  /** What the preparation stage of run arrives at. */
  datatype Preparation =
    | EmptyMap                     // run returns {}
    | NoUsableData                 // every frame empty after normalisation: empty trades and curve
    | NoCommonTime                 // no common stamp, and no common date either
    | Ready(symbols: seq<string>, axis: seq<int>, frames: seq<seq<Bar>>)

  /** The normalised non-empty frames, in insertion order. */
  function Usable(data: seq<SymbolData>): (r: seq<SymbolData>)
    ensures |r| <= |data|
  {
    if data == [] then []
    else
      var prev := Usable(data[..|data| - 1]);
      var d := data[|data| - 1];
      var f := PrepareFrame(d.rows);
      if f == [] then prev else prev + [d]
  }

  function SymbolsOf(data: seq<SymbolData>): (s: seq<string>)
    ensures |s| == |data|
  {
    if data == [] then [] else SymbolsOf(data[..|data| - 1]) + [data[|data| - 1].symbol]
  }

  function FramesOf(data: seq<SymbolData>): (f: seq<seq<Bar>>)
    ensures |f| == |data|
    ensures forall k :: 0 <= k < |data| ==> f[k] == PrepareFrame(data[k].rows)
  {
    if data == [] then [] else FramesOf(data[..|data| - 1]) + [PrepareFrame(data[|data| - 1].rows)]
  }

  function Dailies(frames: seq<seq<Bar>>): (d: seq<seq<Bar>>)
    ensures |d| == |frames| && forall k :: 0 <= k < |frames| ==> d[k] == DailyFrame(frames[k])
  {
    seq(|frames|, k requires 0 <= k < |frames| => DailyFrame(frames[k]))
  }

  /** The bar of a frame at a stamp it carries. */
  function BarAt(frame: seq<Bar>, t: int): (b: Bar)
    requires t in BarTimes(frame)
    ensures b in frame && b.time == t
  {
    if frame[0].time == t then frame[0]
    else
      assert BarTimes(frame) == [frame[0].time] + BarTimes(frame[1..]);
      BarAt(frame[1..], t)
  }

  /** reindex(common_index): with every axis stamp present in the frame, the aligned frame is
      the frame's bar at each stamp, and ffill/bfill have nothing to fill. */
  function Reindex(frame: seq<Bar>, axis: seq<int>): (r: seq<Bar>)
    requires forall t :: t in axis ==> t in BarTimes(frame)
    ensures |r| == |axis| && forall k :: 0 <= k < |axis| ==> r[k].time == axis[k] && r[k] in frame
    ensures forall k :: 0 <= k < |axis| ==> axis[k] in BarTimes(frame) && r[k] == BarAt(frame, axis[k])
  {
    seq(|axis|, k requires 0 <= k < |axis| => BarAt(frame, axis[k]))
  }

  /** The axis and the frames it indexes: the exact common stamps, or, when there are none and
      the bars look daily, the common calendar dates of the per-date frames. */
  function AxisOf(frames: seq<seq<Bar>>, looksDaily: bool): (r: (seq<int>, seq<seq<Bar>>))
    requires frames != []
    ensures |r.1| == |frames|
    ensures forall t :: t in r.0 <==> InAll(t, r.1)
    ensures CommonIndex(frames) != [] ==> r == (CommonIndex(frames), frames)
    ensures r.0 != [] && r.1 != frames ==> looksDaily && r.1 == Dailies(frames)
    ensures CommonIndex(frames) == [] && looksDaily && CommonIndex(Dailies(frames)) != [] ==>
              r == (CommonIndex(Dailies(frames)), Dailies(frames))
    ensures CommonIndex(frames) == [] && !(looksDaily && CommonIndex(Dailies(frames)) != []) ==> r.0 == []
    ensures (forall k :: 0 <= k < |frames| ==> Sorted(frames[k])) ==> StrictlyIncreasing(r.0)
  {
    var common := CommonIndex(frames);
    if common == [] && looksDaily && CommonIndex(Dailies(frames)) != [] then
      var daily := Dailies(frames);
      SortedTimes(daily[0]);
      (CommonIndex(daily), daily)
    else
      SortedTimes(frames[0]);
      (common, frames)
  }

  /** Every frame reindexed to the axis. */
  function AlignAll(frames: seq<seq<Bar>>, axis: seq<int>): (r: seq<seq<Bar>>)
    requires forall t :: t in axis ==> InAll(t, frames)
    ensures |r| == |frames|
    ensures forall k :: 0 <= k < |r| ==> |r[k]| == |axis|
    ensures forall k, j :: 0 <= k < |r| && 0 <= j < |axis| ==>
              axis[j] in BarTimes(frames[k]) && r[k][j] == BarAt(frames[k], axis[j])
  {
    assert forall k, t :: 0 <= k < |frames| && t in axis ==> t in BarTimes(frames[k]) by {
      forall k, t | 0 <= k < |frames| && t in axis ensures t in BarTimes(frames[k]) { assert InAll(t, frames); }
    }
    var r := seq(|frames|, k requires 0 <= k < |frames| => Reindex(frames[k], axis));
    assert forall k, j :: 0 <= k < |r| && 0 <= j < |axis| ==>
             axis[j] in BarTimes(frames[k]) && r[k][j] == BarAt(frames[k], axis[j]) by {
      forall k, j | 0 <= k < |r| && 0 <= j < |axis|
        ensures axis[j] in BarTimes(frames[k]) && r[k][j] == BarAt(frames[k], axis[j])
      {
        assert r[k] == Reindex(frames[k], axis);
      }
    }
    r
  }

  /** The preparation stage of run. looksDaily is the median-gap heuristic's verdict on the
      normalised frames. The frames come back aligned to the axis. */
  function Prepare(data: seq<SymbolData>, looksDaily: bool): (p: Preparation)
    ensures p == EmptyMap <==> data == []
    ensures p == NoUsableData <==> data != [] && Usable(data) == []
    ensures p.Ready? ==>
      && p.axis != [] && StrictlyIncreasing(p.axis)
      && |p.frames| == |p.symbols| == |Usable(data)|
      && p.symbols == SymbolsOf(Usable(data))
      && forall k :: 0 <= k < |p.frames| ==> |p.frames[k]| == |p.axis|
                                               && forall j :: 0 <= j < |p.axis| ==> p.frames[k][j].time == p.axis[j]
    ensures data != [] && Usable(data) != [] ==>
      var r := AxisOf(FramesOf(Usable(data)), looksDaily);
      && (p.Ready? <==> r.0 != [])
      && (p.Ready? ==> p.axis == r.0 && p.frames == AlignAll(r.1, r.0))
  {
    if data == [] then EmptyMap
    else
      var usable := Usable(data);
      if usable == [] then NoUsableData
      else
        var frames := FramesOf(usable);
        var r := AxisOf(frames, looksDaily);
        if r.0 == [] then NoCommonTime
        else Ready(SymbolsOf(usable), r.0, AlignAll(r.1, r.0))
  }

  /** The fallback axis is made of midnights common to every frame's dates. */
  lemma FallbackIsDates(data: seq<SymbolData>, looksDaily: bool)
    requires Usable(data) != []
    requires CommonIndex(FramesOf(Usable(data))) == []
    requires Prepare(data, looksDaily).Ready?
    ensures looksDaily
    ensures forall t :: t in Prepare(data, looksDaily).axis ==>
              t % DaySeconds == 0 && InAll(t, Dailies(FramesOf(Usable(data))))
  {
    var frames := FramesOf(Usable(data));
    var daily := Dailies(frames);
    forall t | t in Prepare(data, looksDaily).axis
      ensures t % DaySeconds == 0 && InAll(t, daily)
    {
      assert t in BarTimes(daily[0]);
      var j :| 0 <= j < |daily[0]| && BarTimes(daily[0])[j] == t;
      assert daily[0][j] in daily[0];
    }
  }

  /** When the frames share a stamp, the run is ready on exactly the common stamps, with
      every frame reindexed to them. */
  lemma ReadyOnCommonStamp(data: seq<SymbolData>, looksDaily: bool, t: int)
    requires Usable(data) != [] && InAll(t, FramesOf(Usable(data)))
    ensures var p := Prepare(data, looksDaily);
            var frames := FramesOf(Usable(data));
            p.Ready? && p.axis == CommonIndex(frames) && p.frames == AlignAll(frames, p.axis)
  {
    var frames := FramesOf(Usable(data));
    assert t in CommonIndex(frames);
  }

  /** With no common stamp, daily-looking bars and a date common to all frames, the run is
      ready on exactly the common dates of the per-date frames. */
  lemma FallbackWhenDaily(data: seq<SymbolData>, looksDaily: bool, t: int)
    requires Usable(data) != [] && CommonIndex(FramesOf(Usable(data))) == []
    requires looksDaily && InAll(t, Dailies(FramesOf(Usable(data))))
    ensures var p := Prepare(data, looksDaily);
            var daily := Dailies(FramesOf(Usable(data)));
            p.Ready? && p.axis == CommonIndex(daily) && p.frames == AlignAll(daily, p.axis)
  {
    var frames := FramesOf(Usable(data));
    var daily := Dailies(frames);
    assert t in CommonIndex(daily);
    assert AxisOf(frames, looksDaily) == (CommonIndex(daily), daily);
  }

  /** With neither a common stamp nor a usable common date, there is no common time. */
  lemma NoCommonTimeOtherwise(data: seq<SymbolData>, looksDaily: bool)
    requires Usable(data) != [] && CommonIndex(FramesOf(Usable(data))) == []
    requires !looksDaily || forall u :: !InAll(u, Dailies(FramesOf(Usable(data))))
    ensures Prepare(data, looksDaily) == NoCommonTime
  {
    var daily := Dailies(FramesOf(Usable(data)));
    if looksDaily && CommonIndex(daily) != [] {
      assert CommonIndex(daily)[0] in CommonIndex(daily);
    }
  }
}
