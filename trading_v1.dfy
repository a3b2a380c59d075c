/** The windowed equal-weight rebalancer of Trading_V1_Model.py: trading only inside the
    20:00-08:00 Beijing-time window, at most once per rebalance period, on the latest batch of
    ranked signals of the current session, selling the worst-ranked holdings and filling the
    free slots with the best-ranked instruments. Times are local Beijing-time seconds. */
module TradingV1 {
  import opened Wrappers

  // ---------------------------------------------------------------------------
  // Clock times and the trading window
  // ---------------------------------------------------------------------------

  /** Seconds in a day. */
  const DaySeconds := 86400

  /** The hour and minute datetime.time accepts. */
  predicate ValidClock(h: int, m: int) {
    0 <= h < 24 && 0 <= m < 60
  }

  function ClockSeconds(h: int, m: int): int {
    h * 3600 + m * 60
  }

  function TimeOfDay(t: int): int {
    t % DaySeconds
  }

  /** The calendar date, as a day number. */
  function DateOf(t: int): int {
    t / DaySeconds
  }

  /** The hour before which a time belongs to the previous day's session. */
  const SessionCutoff := ClockSeconds(8, 0)

  /** in_trade_window_cn: at or after the start, or before the end, as clock times; None
      where building a clock time from the parameters fails. */
  function InTradeWindow(t: int, startH: int, startM: int, endH: int, endM: int): (r: Option<bool>)
    ensures r.None? <==> !ValidClock(startH, startM) || !ValidClock(endH, endM)
  {
    if !ValidClock(startH, startM) || !ValidClock(endH, endM) then None
    else
      var tod := TimeOfDay(t);
      Some(tod >= ClockSeconds(startH, startM) || tod < ClockSeconds(endH, endM))
  }

  /** With the defaults the window is closed exactly from 08:00 up to 20:00. */
  lemma DefaultWindow(t: int)
    ensures InTradeWindow(t, 20, 0, 8, 0) == Some(!(ClockSeconds(8, 0) <= TimeOfDay(t) < ClockSeconds(20, 0)))
  {
  }

  /** The check only reads the clock time, so a day later gives the same answer. */
  lemma {:induction false} WindowIsDaily(t: int, startH: int, startM: int, endH: int, endM: int)
    ensures InTradeWindow(t + DaySeconds, startH, startM, endH, endM) == InTradeWindow(t, startH, startM, endH, endM)
  {
    assert TimeOfDay(t + DaySeconds) == TimeOfDay(t);
  }

  /** The check is written for a window across midnight: when the start is not after the end,
      every time of day passes. */
  lemma {:induction false} SameDayWindowIsAlwaysOpen(t: int, startH: int, startM: int, endH: int, endM: int)
    requires ValidClock(startH, startM) && ValidClock(endH, endM)
    requires ClockSeconds(startH, startM) <= ClockSeconds(endH, endM)
    ensures InTradeWindow(t, startH, startM, endH, endM) == Some(true)
  {
  }

  /** session_id_cn, as a day number: times before 08:00 belong to the previous date. The
      cutoff is fixed; the start time is only checked to be a clock time. */
  function SessionId(t: int, startH: int, startM: int): (r: Option<int>)
    ensures r.None? <==> !ValidClock(startH, startM)
    ensures r.Some? ==> r.value == DateOf(t) || r.value == DateOf(t) - 1
    ensures r.Some? ==> (r.value == DateOf(t) - 1 <==> TimeOfDay(t) < SessionCutoff)
  {
    if !ValidClock(startH, startM) then None
    else if TimeOfDay(t) < SessionCutoff then Some(DateOf(t) - 1)
    else Some(DateOf(t))
  }

  /** The start hour and minute do not move the session. */
  lemma SessionIgnoresStart(t: int, h1: int, m1: int, h2: int, m2: int)
    requires ValidClock(h1, m1) && ValidClock(h2, m2)
    ensures SessionId(t, h1, m1) == SessionId(t, h2, m2)
  {
  }

  /** 2026-02-04 03:00 (day 20488) belongs to the session of 2026-02-03 (day 20487). */
  lemma SessionExample()
    ensures SessionId(20488 * DaySeconds + ClockSeconds(3, 0), 20, 0) == Some(20487)
  {
    assert TimeOfDay(20488 * DaySeconds + ClockSeconds(3, 0)) == ClockSeconds(3, 0);
    assert DateOf(20488 * DaySeconds + ClockSeconds(3, 0)) == 20488;
  }

  /** handle_data's session bounds: the start clock time on the session date, the end clock
      time on the day after. */
  function SessionStart(sid: int, h: int, m: int): int {
    sid * DaySeconds + ClockSeconds(h, m)
  }

  function SessionEnd(sid: int, h: int, m: int): int {
    (sid + 1) * DaySeconds + ClockSeconds(h, m)
  }

  /** When the window starts no earlier than the 08:00 cutoff and ends no later than it, as the
      defaults do, every time inside the window lies inside its own session's bounds. */
  lemma {:induction false} SessionContainsNow(t: int, startH: int, startM: int, endH: int, endM: int)
    requires ValidClock(startH, startM) && ValidClock(endH, endM)
    requires ClockSeconds(endH, endM) <= SessionCutoff <= ClockSeconds(startH, startM)
    requires InTradeWindow(t, startH, startM, endH, endM) == Some(true)
    ensures var sid := SessionId(t, startH, startM).value;
            SessionStart(sid, startH, startM) <= t < SessionEnd(sid, endH, endM)
  {
    var d := DateOf(t);
    assert t == d * DaySeconds + TimeOfDay(t);
    assert 0 <= TimeOfDay(t) < DaySeconds;
    if TimeOfDay(t) < SessionCutoff {
      assert TimeOfDay(t) < ClockSeconds(endH, endM);
      assert SessionStart(d - 1, startH, startM) == d * DaySeconds - DaySeconds + ClockSeconds(startH, startM);
    } else {
      assert TimeOfDay(t) >= ClockSeconds(startH, startM);
      assert SessionEnd(d, endH, endM) == d * DaySeconds + DaySeconds + ClockSeconds(endH, endM);
    }
  }

  // ---------------------------------------------------------------------------
  // Signal rows and their orderings
  // ---------------------------------------------------------------------------

  /** One row of the signal table: its stamp, its rank (smaller is better) and its instrument. */
  datatype SignalRow = SignalRow(dt: int, position: int, instrument: string)

  /** The sort keys the model uses: by rank, by rank descending, by stamp then rank. */
  datatype Ordering = ByPosition | ByPositionDesc | ByStampThenPosition

  /** a sorts strictly before b under the ordering. */
  predicate Precedes(a: SignalRow, b: SignalRow, ord: Ordering) {
    match ord
    case ByPosition => a.position < b.position
    case ByPositionDesc => a.position > b.position
    case ByStampThenPosition => a.dt < b.dt || (a.dt == b.dt && a.position < b.position)
  }

  predicate SortedBy(s: seq<SignalRow>, ord: Ordering) {
    forall i, j :: 0 <= i < j < |s| ==> !Precedes(s[j], s[i], ord)
  }

  lemma PrecedesTransitive(a: SignalRow, b: SignalRow, c: SignalRow, ord: Ordering)
    requires Precedes(a, b, ord) && Precedes(b, c, ord)
    ensures Precedes(a, c, ord)
  {
  }

  /** Insert a row after every row it does not sort strictly before. */
  function InsertRow(s: seq<SignalRow>, x: SignalRow, ord: Ordering): (r: seq<SignalRow>)
    requires SortedBy(s, ord)
    ensures SortedBy(r, ord) && multiset(r) == multiset(s) + multiset{x}
  {
    if s == [] then [x]
    else if Precedes(x, s[0], ord) then
      PrependSorted(x, s, ord);
      [x] + s
    else
      var t := InsertRow(s[1..], x, ord);
      assert s == [s[0]] + s[1..];
      InsertedAfterHead(s, x, t, ord);
      ConsSorted(s[0], t, ord);
      [s[0]] + t
  }

  /** A row that sorts before the head of a sorted sequence can go in front of it. */
  lemma PrependSorted(x: SignalRow, s: seq<SignalRow>, ord: Ordering)
    requires s != [] && SortedBy(s, ord) && Precedes(x, s[0], ord)
    ensures SortedBy([x] + s, ord)
  {
    forall j | 0 <= j < |s| ensures !Precedes(s[j], x, ord) {
      if Precedes(s[j], x, ord) { PrecedesTransitive(s[j], x, s[0], ord); }
    }
    forall i, j | 0 <= i < j < |[x] + s| ensures !Precedes(([x] + s)[j], ([x] + s)[i], ord) {
      if i > 0 { assert ([x] + s)[i] == s[i - 1] && ([x] + s)[j] == s[j - 1]; }
      else { assert ([x] + s)[j] == s[j - 1]; }
    }
  }

  /** No row of the insertion into the tail sorts before the head. */
  lemma InsertedAfterHead(s: seq<SignalRow>, x: SignalRow, t: seq<SignalRow>, ord: Ordering)
    requires s != [] && SortedBy(s, ord) && !Precedes(x, s[0], ord)
    requires multiset(t) == multiset(s[1..]) + multiset{x}
    ensures forall y :: y in t ==> !Precedes(y, s[0], ord)
  {
    forall y | y in t ensures !Precedes(y, s[0], ord) {
      assert y in multiset(t);
      assert y == x || y in multiset(s[1..]);
      if y != x {
        var j :| 0 <= j < |s[1..]| && s[1..][j] == y;
        assert s[j + 1] == y;
      }
    }
  }

  /** A head that no row of a sorted tail sorts before keeps the sequence sorted. */
  lemma ConsSorted(h: SignalRow, t: seq<SignalRow>, ord: Ordering)
    requires SortedBy(t, ord) && forall y :: y in t ==> !Precedes(y, h, ord)
    ensures SortedBy([h] + t, ord)
  {
    forall i, j | 0 <= i < j < |[h] + t| ensures !Precedes(([h] + t)[j], ([h] + t)[i], ord) {
      assert ([h] + t)[j] == t[j - 1];
      assert t[j - 1] in t;
      if i > 0 { assert ([h] + t)[i] == t[i - 1]; }
    }
  }

  /** A stable sort of the rows under the ordering. */
  function SortRows(rows: seq<SignalRow>, ord: Ordering): (r: seq<SignalRow>)
    ensures SortedBy(r, ord) && multiset(r) == multiset(rows)
  {
    if rows == [] then []
    else
      var n := |rows| - 1;
      assert rows == rows[..n] + [rows[n]];
      InsertRow(SortRows(rows[..n], ord), rows[n], ord)
  }

  // ---------------------------------------------------------------------------
  // Signal selection
  // ---------------------------------------------------------------------------

  /** A row handle_data may use: inside [start, end) of the session and not after now. */
  predicate InSession(x: SignalRow, sStart: int, sEnd: int, now: int) {
    sStart <= x.dt < sEnd && x.dt <= now
  }

  /** df_sess: the rows in the session window, in table order. */
  function Candidates(data: seq<SignalRow>, sStart: int, sEnd: int, now: int): (r: seq<SignalRow>)
    ensures forall x :: x in r <==> x in data && InSession(x, sStart, sEnd, now)
  {
    if data == [] then []
    else
      var n := |data| - 1;
      assert data == data[..n] + [data[n]];
      var init := Candidates(data[..n], sStart, sEnd, now);
      if InSession(data[n], sStart, sEnd, now) then init + [data[n]] else init
  }

  /** The largest stamp among the rows. */
  function LatestStamp(rows: seq<SignalRow>): (m: int)
    requires rows != []
    ensures forall x :: x in rows ==> x.dt <= m
    ensures exists k :: 0 <= k < |rows| && rows[k].dt == m
  {
    if |rows| == 1 then rows[0].dt
    else
      var n := |rows| - 1;
      assert rows == rows[..n] + [rows[n]];
      var m := LatestStamp(rows[..n]);
      var k :| 0 <= k < n && rows[..n][k].dt == m;
      assert rows[k] == rows[..n][k];
      if rows[n].dt > m then rows[n].dt else m
  }

  /** The rows carrying the given stamp, in order. */
  function AtStamp(rows: seq<SignalRow>, t: int): (r: seq<SignalRow>)
    ensures forall x :: x in r <==> x in rows && x.dt == t
  {
    if rows == [] then []
    else
      var n := |rows| - 1;
      assert rows == rows[..n] + [rows[n]];
      var init := AtStamp(rows[..n], t);
      if rows[n].dt == t then init + [rows[n]] else init
  }

  /** ranker_prediction: the session's latest batch of signals sorted by rank, or None when the
      session has none yet. */
  function RankerFor(data: seq<SignalRow>, sStart: int, sEnd: int, now: int): (r: Option<seq<SignalRow>>)
    ensures r.None? <==> forall x :: x in data ==> !InSession(x, sStart, sEnd, now)
    ensures r.Some? ==> r.value != [] && SortedBy(r.value, ByPosition)
    ensures r.Some? ==> forall x :: x in r.value ==> x in data && InSession(x, sStart, sEnd, now)
    ensures r.Some? ==> forall x, y :: x in r.value && y in data && InSession(y, sStart, sEnd, now) ==>
      y.dt <= x.dt && (y.dt == x.dt ==> y in r.value)
    ensures r.Some? ==> multiset(r.value) == multiset(AtStamp(Candidates(data, sStart, sEnd, now), r.value[0].dt))
  {
    var cands := Candidates(data, sStart, sEnd, now);
    if cands == [] then
      None
    else
      var latest := LatestStamp(cands);
      var batch := AtStamp(cands, latest);
      var k :| 0 <= k < |cands| && cands[k].dt == latest;
      assert cands[k] in batch;
      var r := SortRows(batch, ByPosition);
      assert forall x :: x in r <==> x in batch by {
        forall x ensures x in r <==> x in batch {
          assert x in r <==> x in multiset(r);
          assert x in batch <==> x in multiset(batch);
        }
      }
      assert cands[k] in r;
      assert r[0] in batch;
      Some(r)
  }

  /** Only rows stamped no later than now are ever used. */
  lemma NoLookAhead(data: seq<SignalRow>, sStart: int, sEnd: int, now: int)
    requires RankerFor(data, sStart, sEnd, now).Some?
    ensures forall x :: x in RankerFor(data, sStart, sEnd, now).value ==> x.dt <= now
  {
  }

  // ---------------------------------------------------------------------------
  // rebalance
  // ---------------------------------------------------------------------------

  /** A platform position: the instrument and the amount held. */
  datatype Holding = Holding(instrument: string, amount: real)

  /** The platform calls rebalance makes: order_target(instrument, 0) and order_value(instrument, cash). */
  datatype PlatformOrder = OrderTarget(instrument: string, target: real) | OrderValue(instrument: string, value: real)

  /** The platform's positions are a dict: each instrument has at most one holding. */
  predicate Keyed(holdings: seq<Holding>) {
    forall j, k :: 0 <= j < k < |holdings| ==> holdings[j].instrument != holdings[k].instrument
  }

  /** stock_now: the instruments held with a positive amount, in the platform's order; each
      once when the holdings are keyed, so its length is stock_now_num. */
  function HeldInstruments(holdings: seq<Holding>): (r: seq<string>)
    ensures |r| <= |holdings|
    ensures forall x :: x in r <==> exists k :: 0 <= k < |holdings| && holdings[k].instrument == x && holdings[k].amount > 0.0
    ensures Keyed(holdings) ==> Distinct(r)
  {
    if holdings == [] then []
    else
      var n := |holdings| - 1;
      var init := HeldInstruments(holdings[..n]);
      assert forall k :: 0 <= k < n ==> holdings[..n][k] == holdings[k];
      assert Keyed(holdings) ==> Keyed(holdings[..n]) && holdings[n].instrument !in init;
      if holdings[n].amount > 0.0 then init + [holdings[n].instrument] else init
  }

  function Instruments(rows: seq<SignalRow>): (r: seq<string>)
    ensures |r| == |rows| && forall k :: 0 <= k < |rows| ==> r[k] == rows[k].instrument
  {
    seq(|rows|, k requires 0 <= k < |rows| => rows[k].instrument)
  }

  /** Series.unique(): each value once, in order of first appearance. */
  function Unique(xs: seq<string>): (r: seq<string>)
    ensures Distinct(r) && forall x :: x in r <==> x in xs
  {
    if xs == [] then []
    else
      var n := |xs| - 1;
      assert xs == xs[..n] + [xs[n]];
      var init := Unique(xs[..n]);
      if xs[n] in init then init else init + [xs[n]]
  }

  /** Python's xs[:n], where a negative n counts from the end. */
  function PyPrefix(xs: seq<string>, n: int): (r: seq<string>)
    ensures |r| <= |xs| && r == xs[..|r|]
    ensures n >= 0 ==> |r| == if n < |xs| then n else |xs|
  {
    if n >= 0 then (if n < |xs| then xs[..n] else xs)
    else if |xs| + n > 0 then xs[..|xs| + n]
    else []
  }

  /** The values of xs outside the excluded set, in order. */
  function Outside(xs: seq<string>, excluded: set<string>): (r: seq<string>)
    ensures |r| <= |xs|
    ensures forall x :: x in r <==> x in xs && x !in excluded
  {
    if xs == [] then []
    else
      var n := |xs| - 1;
      assert xs == xs[..n] + [xs[n]];
      var init := Outside(xs[..n], excluded);
      if xs[n] !in excluded then init + [xs[n]] else init
  }

  /** The ranked rows whose instrument is held. */
  function HeldRows(ranker: seq<SignalRow>, held: seq<string>): (r: seq<SignalRow>)
    ensures forall x :: x in r <==> x in ranker && x.instrument in held
  {
    if ranker == [] then []
    else
      var n := |ranker| - 1;
      assert ranker == ranker[..n] + [ranker[n]];
      var init := HeldRows(ranker[..n], held);
      if ranker[n].instrument in held then init + [ranker[n]] else init
  }

  /** max(stock_count - stock_now_num, 1). */
  function SlotsLeft(stockCount: int, stockNowNum: int): (s: int)
    ensures s >= 1 && s >= stockCount - stockNowNum
    ensures stockCount - stockNowNum >= 1 ==> s == stockCount - stockNowNum
  {
    if stockCount - stockNowNum >= 1 then stockCount - stockNowNum else 1
  }

  /** The cash per buy: the target weight of the portfolio value, capped by an equal share of
      the cash over the free slots. */
  function CashForBuy(portfolioValue: real, weight: real, cash: real, slots: int): (c: real)
    requires slots >= 1
    ensures c <= portfolioValue * weight && c <= cash / slots as real
    ensures c == portfolioValue * weight || c == cash / slots as real
  {
    var cashNow := cash / slots as real;
    if portfolioValue * weight <= cashNow then portfolioValue * weight else cashNow
  }

  // ---------------------------------------------------------------------------
  // The orders of rebalance, as functions of its inputs
  // ---------------------------------------------------------------------------

  /** order_target(x, 0) for each instrument, in order. */
  function Targets(xs: seq<string>): (r: seq<PlatformOrder>)
    ensures |r| == |xs| && forall k :: 0 <= k < |xs| ==> r[k] == OrderTarget(xs[k], 0.0)
  {
    seq(|xs|, k requires 0 <= k < |xs| => OrderTarget(xs[k], 0.0))
  }

  /** order_value(x, value) for each instrument, in order. */
  function Values(xs: seq<string>, value: real): (r: seq<PlatformOrder>)
    ensures |r| == |xs| && forall k :: 0 <= k < |xs| ==> r[k] == OrderValue(xs[k], value)
  {
    seq(|xs|, k requires 0 <= k < |xs| => OrderValue(xs[k], value))
  }

  /** How many of the orders the platform takes (rv == 0). */
  function Accepted(os: seq<PlatformOrder>, accepted: PlatformOrder -> bool): (n: nat)
    ensures n <= |os|
  {
    if os == [] then 0 else (if accepted(os[0]) then 1 else 0) + Accepted(os[1..], accepted)
  }

  lemma {:induction false} AcceptedConcat(a: seq<PlatformOrder>, b: seq<PlatformOrder>, accepted: PlatformOrder -> bool)
    ensures Accepted(a + b, accepted) == Accepted(a, accepted) + Accepted(b, accepted)
  {
    if a == [] {
      assert a + b == b;
    } else {
      assert (a + b)[1..] == a[1..] + b;
      AcceptedConcat(a[1..], b, accepted);
    }
  }

  /** A loop that appends os[k] to os[..k] gets os[..k + 1]. */
  lemma PrefixGrows(os: seq<PlatformOrder>, k: nat)
    requires k < |os|
    ensures os[..k + 1] == os[..k] + [os[k]]
  {
  }

  /** stock_now after a run of sells: each sell the platform takes pops its instrument. */
  function Without(stockNow: seq<string>, os: seq<PlatformOrder>, accepted: PlatformOrder -> bool): (r: seq<string>)
    ensures forall x :: x in r ==> x in stockNow
  {
    if os == [] then stockNow
    else
      var n := |os| - 1;
      var init := Without(stockNow, os[..n], accepted);
      if accepted(os[n]) then Remove(init, os[n].instrument) else init
  }

  /** One more sell: stock_now pops its instrument if the platform takes it. */
  lemma WithoutGrows(stockNow: seq<string>, os: seq<PlatformOrder>, o: PlatformOrder, accepted: PlatformOrder -> bool)
    ensures Without(stockNow, os + [o], accepted)
         == if accepted(o) then Remove(Without(stockNow, os, accepted), o.instrument) else Without(stockNow, os, accepted)
  {
    assert (os + [o])[..|os|] == os;
  }

  /** An instrument leaves stock_now only through a sell of it that the platform took. */
  lemma {:induction false} WithoutDrops(stockNow: seq<string>, os: seq<PlatformOrder>, accepted: PlatformOrder -> bool, x: string)
    requires x in stockNow && x !in Without(stockNow, os, accepted)
    ensures exists k :: 0 <= k < |os| && accepted(os[k]) && os[k].instrument == x
  {
    var n := |os| - 1;
    var init := Without(stockNow, os[..n], accepted);
    if x in init {
      assert accepted(os[n]) && os[n].instrument == x;
    } else {
      WithoutDrops(stockNow, os[..n], accepted, x);
      var k :| 0 <= k < n && accepted(os[..n][k]) && os[..n][k].instrument == x;
      assert os[k] == os[..n][k];
    }
  }

  /** How many of the orders from k on a loop issues when it breaks as soon as room of them
      have been taken: all of them, unless the room fills first. */
  function IssuedFrom(os: seq<PlatformOrder>, k: nat, accepted: PlatformOrder -> bool, room: int): (m: nat)
    requires k <= |os|
    ensures m <= |os| - k
    decreases |os| - k
  {
    if k == |os| || room <= 0 then 0
    else 1 + IssuedFrom(os, k + 1, accepted, if accepted(os[k]) then room - 1 else room)
  }

  /** The length of the prefix such a loop issues. */
  function Issued(os: seq<PlatformOrder>, accepted: PlatformOrder -> bool, room: int): (m: nat)
    ensures m <= |os|
  {
    IssuedFrom(os, 0, accepted, room)
  }

  lemma {:induction false} IssuedFromWithinRoom(os: seq<PlatformOrder>, k: nat, accepted: PlatformOrder -> bool, room: int)
    requires k <= |os|
    ensures Accepted(os[k..k + IssuedFrom(os, k, accepted, room)], accepted) <= if room > 0 then room else 0
    decreases |os| - k
  {
    var m := IssuedFrom(os, k, accepted, room);
    if k == |os| || room <= 0 {
      assert os[k..k + m] == [];
    } else {
      var room' := if accepted(os[k]) then room - 1 else room;
      IssuedFromWithinRoom(os, k + 1, accepted, room');
      assert os[k..k + m][1..] == os[k + 1..k + 1 + (m - 1)];
    }
  }

  lemma {:induction false} IssuedFromStops(os: seq<PlatformOrder>, k: nat, accepted: PlatformOrder -> bool, room: int)
    requires k <= |os|
    ensures var m := IssuedFrom(os, k, accepted, room);
            && (k + m == |os| || Accepted(os[k..k + m], accepted) >= room)
            && (forall e :: k <= e < k + m ==> Accepted(os[k..e], accepted) < room)
    decreases |os| - k
  {
    var m := IssuedFrom(os, k, accepted, room);
    if k == |os| || room <= 0 {
      assert os[k..k + m] == [];
    } else {
      var room' := if accepted(os[k]) then room - 1 else room;
      IssuedFromStops(os, k + 1, accepted, room');
      forall e | k < e <= k + m
        ensures Accepted(os[k..e], accepted) == (if accepted(os[k]) then 1 else 0) + Accepted(os[k + 1..e], accepted)
      {
        assert os[k..e][1..] == os[k + 1..e];
      }
      assert os[k..k] == [];
    }
  }

  /** The accepted orders of the issued prefix never exceed the room. */
  lemma IssuedWithinRoom(os: seq<PlatformOrder>, accepted: PlatformOrder -> bool, room: int)
    ensures Accepted(os[..Issued(os, accepted, room)], accepted) <= if room > 0 then room else 0
  {
    IssuedFromWithinRoom(os, 0, accepted, room);
    assert os[0..0 + Issued(os, accepted, room)] == os[..Issued(os, accepted, room)];
  }

  /** The loop stops where it should: the issued prefix is the whole list or holds room
      accepted orders, and no shorter prefix does. */
  lemma IssuedStops(os: seq<PlatformOrder>, accepted: PlatformOrder -> bool, room: int)
    ensures var m := Issued(os, accepted, room);
            && (m == |os| || Accepted(os[..m], accepted) >= room)
            && (forall j :: 0 <= j < m ==> Accepted(os[..j], accepted) < room)
  {
    var m := Issued(os, accepted, room);
    IssuedFromStops(os, 0, accepted, room);
    assert os[0..0 + m] == os[..m];
    forall j | 0 <= j < m ensures Accepted(os[..j], accepted) < room {
      assert os[0..j] == os[..j];
    }
  }

  /** The held instruments the prediction set no longer names. */
  function NeedSell(holdings: seq<Holding>, ranker: seq<SignalRow>): seq<string> {
    Outside(HeldInstruments(holdings), set x | x in Instruments(ranker))
  }

  /** The held instruments in rank order, worst first. */
  function HeldSorted(holdings: seq<Holding>, ranker: seq<SignalRow>): seq<string> {
    Instruments(SortRows(HeldRows(ranker, HeldInstruments(holdings)), ByPositionDesc))
  }

  /** Full sells down a worst-first list until sell_num, starting from sold, reaches
      change_num. */
  function RankedSells(heldSorted: seq<string>, sold: int, changeNum: int, accepted: PlatformOrder -> bool): (r: seq<PlatformOrder>)
    ensures sold < changeNum ==> sold + Accepted(r, accepted) <= changeNum
    ensures sold >= changeNum ==> r == []
  {
    IssuedWithinRoom(Targets(heldSorted), accepted, changeNum - sold);
    Targets(heldSorted)[..Issued(Targets(heldSorted), accepted, changeNum - sold)]
  }

  /** Step 2's orders: the ranked sells after the accepted step-1 sells. */
  function StepTwo(holdings: seq<Holding>, ranker: seq<SignalRow>, changeNum: int,
                   accepted: PlatformOrder -> bool): seq<PlatformOrder> {
    RankedSells(HeldSorted(holdings, ranker), Accepted(Targets(NeedSell(holdings, ranker)), accepted), changeNum, accepted)
  }

  /** Steps 1 and 2: nothing without holdings, else the step-1 sells then the step-2 sells. */
  function SellOrders(holdings: seq<Holding>, ranker: seq<SignalRow>, changeNum: int,
                      accepted: PlatformOrder -> bool): seq<PlatformOrder> {
    if HeldInstruments(holdings) == [] then []
    else Targets(NeedSell(holdings, ranker)) + StepTwo(holdings, ranker, changeNum, accepted)
  }

  /** stock_now_num after the sells: only the accepted step-2 sells free a slot. */
  function AfterSells(holdings: seq<Holding>, ranker: seq<SignalRow>, changeNum: int,
                      accepted: PlatformOrder -> bool): int {
    if HeldInstruments(holdings) == [] then 0
    else |HeldInstruments(holdings)| - Accepted(StepTwo(holdings, ranker, changeNum, accepted), accepted)
  }

  /** stock_now after the sells: the held instruments no accepted step-2 sell took out. */
  function KeptAfterSells(holdings: seq<Holding>, ranker: seq<SignalRow>, changeNum: int,
                          accepted: PlatformOrder -> bool): seq<string> {
    Without(HeldInstruments(holdings), StepTwo(holdings, ranker, changeNum, accepted), accepted)
  }

  /** buy_list: the first stock_count + 3 distinct instruments of the batch. */
  function BuyList(ranker: seq<SignalRow>, stockCount: int): seq<string> {
    PyPrefix(Unique(Instruments(ranker)), stockCount + 3)
  }

  /** buy_instruments: the buy list without what stock_now still holds. */
  function BuyInstruments(holdings: seq<Holding>, ranker: seq<SignalRow>, stockCount: int, changeNum: int,
                          accepted: PlatformOrder -> bool): seq<string> {
    Outside(BuyList(ranker, stockCount), set x | x in KeptAfterSells(holdings, ranker, changeNum, accepted))
  }

  /** order_value at the share down a candidate list, from held slots taken, until
      stock_count slots are taken. */
  function Buys(buyInstruments: seq<string>, held: int, stockCount: int, share: real,
                accepted: PlatformOrder -> bool): (r: seq<PlatformOrder>)
    ensures held < stockCount ==> held + Accepted(r, accepted) <= stockCount
    ensures held >= stockCount ==> r == []
  {
    IssuedWithinRoom(Values(buyInstruments, share), accepted, stockCount - held);
    Values(buyInstruments, share)[..Issued(Values(buyInstruments, share), accepted, stockCount - held)]
  }

  /** The cash per buy once the sells are done. */
  function BuyShare(holdings: seq<Holding>, ranker: seq<SignalRow>, stockCount: int, changeNum: int,
                    stockWeights: real, cash: real, portfolioValue: real, accepted: PlatformOrder -> bool): real {
    CashForBuy(portfolioValue, stockWeights, cash, SlotsLeft(stockCount, AfterSells(holdings, ranker, changeNum, accepted)))
  }

  /** Step 3's orders: with a buy list and a free slot, order_value at the cash share down
      buy_instruments until the slots are full. */
  function BuyOrders(holdings: seq<Holding>, ranker: seq<SignalRow>, stockCount: int, changeNum: int,
                     stockWeights: real, cash: real, portfolioValue: real,
                     accepted: PlatformOrder -> bool): seq<PlatformOrder> {
    if |BuyList(ranker, stockCount)| > 0 && AfterSells(holdings, ranker, changeNum, accepted) < stockCount then
      Buys(BuyInstruments(holdings, ranker, stockCount, changeNum, accepted), AfterSells(holdings, ranker, changeNum, accepted),
           stockCount, BuyShare(holdings, ranker, stockCount, changeNum, stockWeights, cash, portfolioValue, accepted), accepted)
    else []
  }

  /** Every order one rebalance places, in order. */
  function RebalanceOrders(holdings: seq<Holding>, ranker: seq<SignalRow>, stockCount: int, changeNum: int,
                           stockWeights: real, cash: real, portfolioValue: real,
                           accepted: PlatformOrder -> bool): seq<PlatformOrder> {
    SellOrders(holdings, ranker, changeNum, accepted)
      + BuyOrders(holdings, ranker, stockCount, changeNum, stockWeights, cash, portfolioValue, accepted)
  }

  /** Step 2 stops as the source says: sell_num stays below change_num until the last order
      issued, the run ends once it gets there or at the end of the list, and sell_num never
      passes change_num unless it started above it. */
  lemma RankedSellsStop(heldSorted: seq<string>, sold: int, changeNum: int, accepted: PlatformOrder -> bool)
    ensures var sells := RankedSells(heldSorted, sold, changeNum, accepted);
            && (forall j :: 0 <= j < |sells| ==> sold + Accepted(sells[..j], accepted) < changeNum)
            && (sold + Accepted(sells, accepted) >= changeNum || |sells| == |heldSorted|)
            && sold + Accepted(sells, accepted) <= if changeNum > sold then changeNum else sold
  {
    var os := Targets(heldSorted);
    var m := Issued(os, accepted, changeNum - sold);
    IssuedStops(os, accepted, changeNum - sold);
    IssuedWithinRoom(os, accepted, changeNum - sold);
    forall j | 0 <= j < m ensures os[..m][..j] == os[..j] { }
  }

  /** Step 3 stops as the source says: the slots are not full before the last order issued,
      the run ends once they are or at the end of buy_instruments, and never overfills them. */
  lemma BuysStopAtCapacity(buyInstruments: seq<string>, held: int, stockCount: int, share: real,
                           accepted: PlatformOrder -> bool)
    requires held < stockCount
    ensures var buys := Buys(buyInstruments, held, stockCount, share, accepted);
            && (forall j :: 0 <= j < |buys| ==> held + Accepted(buys[..j], accepted) < stockCount)
            && (held + Accepted(buys, accepted) == stockCount || |buys| == |buyInstruments|)
            && held + Accepted(buys, accepted) <= stockCount
  {
    var os := Values(buyInstruments, share);
    var m := Issued(os, accepted, stockCount - held);
    IssuedStops(os, accepted, stockCount - held);
    IssuedWithinRoom(os, accepted, stockCount - held);
    forall j | 0 <= j < m ensures os[..m][..j] == os[..j] { }
  }
  // ---------------------------------------------------------------------------
  // The steps of rebalance
  // ---------------------------------------------------------------------------

  /** Step 1: a full sell of every held instrument outside the prediction set. Each accepted
      sell counts towards sell_num; none frees a slot or leaves stock_now. */
  method SellUnpredicted(needSell: seq<string>, accepted: PlatformOrder -> bool)
    returns (orders: seq<PlatformOrder>, sold: int)
    ensures orders == Targets(needSell) && sold == Accepted(orders, accepted)
    ensures 0 <= sold <= |needSell|
  {
    orders := [];
    sold := 0;
    for k := 0 to |needSell|
      invariant orders == Targets(needSell)[..k]
      invariant sold == Accepted(orders, accepted)
    {
      var o := OrderTarget(needSell[k], 0.0);
      AcceptedConcat(orders, [o], accepted);
      assert Targets(needSell)[..k + 1] == orders + [o];
      orders := orders + [o];
      if accepted(o) {
        sold := sold + 1;
      }
    }
    assert Targets(needSell)[..|needSell|] == Targets(needSell);
  }

  /** The loop of step 2 over its order_target calls: place each in turn while sell_num is
      below change_num; each accepted sell counts, frees a slot and leaves stock_now. */
  method SellInTurn(os: seq<PlatformOrder>, stockNow: seq<string>, stockNowNum: int, sellNum: int,
                    changeNum: int, accepted: PlatformOrder -> bool)
    returns (orders: seq<PlatformOrder>, stockNow': seq<string>, stockNowNum': int, sellNum': int)
    ensures orders == os[..Issued(os, accepted, changeNum - sellNum)]
    ensures sellNum' == sellNum + Accepted(orders, accepted) && stockNowNum' == stockNowNum - Accepted(orders, accepted)
    ensures stockNow' == Without(stockNow, orders, accepted)
  {
    orders := [];
    stockNow' := stockNow;
    stockNowNum' := stockNowNum;
    sellNum' := sellNum;
    var k := 0;
    while k < |os| && sellNum' < changeNum
      invariant 0 <= k <= |os| && orders == os[..k]
      invariant sellNum' == sellNum + Accepted(orders, accepted) && stockNowNum' == stockNowNum - (sellNum' - sellNum)
      invariant k + IssuedFrom(os, k, accepted, changeNum - sellNum') == Issued(os, accepted, changeNum - sellNum)
      invariant stockNow' == Without(stockNow, orders, accepted)
    {
      var o := os[k];
      PrefixGrows(os, k);
      AcceptedConcat(orders, [o], accepted);
      WithoutGrows(stockNow, orders, o, accepted);
      orders := orders + [o];
      if accepted(o) {
        sellNum' := sellNum' + 1;
        stockNowNum' := stockNowNum' - 1;
        stockNow' := Remove(stockNow', o.instrument);
      }
      k := k + 1;
    }
  }

  /** Step 2: sell the held instruments worst rank first until sell_num reaches change_num;
      each accepted sell frees a slot and leaves stock_now. */
  method SellLowRanked(heldSorted: seq<string>, stockNow: seq<string>, stockNowNum: int, sellNum: int,
                       changeNum: int, accepted: PlatformOrder -> bool)
    returns (orders: seq<PlatformOrder>, stockNow': seq<string>, stockNowNum': int, sellNum': int)
    ensures orders == RankedSells(heldSorted, sellNum, changeNum, accepted)
    ensures sellNum' == sellNum + Accepted(orders, accepted) && stockNowNum' == stockNowNum - Accepted(orders, accepted)
    ensures stockNow' == Without(stockNow, orders, accepted)
    ensures sellNum < changeNum ==> sellNum' <= changeNum
    ensures sellNum >= changeNum ==> orders == [] && sellNum' == sellNum && stockNow' == stockNow
  {
    orders, stockNow', stockNowNum', sellNum' := SellInTurn(Targets(heldSorted), stockNow, stockNowNum, sellNum, changeNum, accepted);
  }

  /** Step 3: buy the candidates not held until stock_now_num reaches stock_count; each
      accepted buy fills a slot. */
  method BuyToFill(buyInstruments: seq<string>, stockNowNum: int, stockCount: int, cashForBuy: real,
                   accepted: PlatformOrder -> bool)
    returns (orders: seq<PlatformOrder>, stockNowNum': int)
    ensures orders == Buys(buyInstruments, stockNowNum, stockCount, cashForBuy, accepted)
    ensures stockNowNum' == stockNowNum + Accepted(orders, accepted)
    ensures stockNowNum < stockCount ==> stockNowNum' <= stockCount
    ensures stockNowNum >= stockCount ==> orders == [] && stockNowNum' == stockNowNum
  {
    ghost var os := Values(buyInstruments, cashForBuy);
    ghost var total := Issued(os, accepted, stockCount - stockNowNum);
    orders := [];
    stockNowNum' := stockNowNum;
    var k := 0;
    while k < |buyInstruments| && stockNowNum' < stockCount
      invariant 0 <= k <= |buyInstruments| && orders == os[..k]
      invariant stockNowNum' == stockNowNum + Accepted(orders, accepted)
      invariant k + IssuedFrom(os, k, accepted, stockCount - stockNowNum') == total
    {
      var o := OrderValue(buyInstruments[k], cashForBuy);
      PrefixGrows(os, k);
      AcceptedConcat(orders, [o], accepted);
      orders := orders + [o];
      if accepted(o) {
        stockNowNum' := stockNowNum' + 1;
      }
      k := k + 1;
    }
  }

  /** The held instruments in rank order are held instruments. */
  lemma HeldSortedAreHeld(holdings: seq<Holding>, ranker: seq<SignalRow>)
    ensures forall x :: x in HeldSorted(holdings, ranker) ==> x in HeldInstruments(holdings)
  {
    var heldSorted := HeldSorted(holdings, ranker);
    var rows := HeldRows(ranker, HeldInstruments(holdings));
    forall x | x in heldSorted ensures x in HeldInstruments(holdings) {
      var k :| 0 <= k < |heldSorted| && heldSorted[k] == x;
      assert SortRows(rows, ByPositionDesc)[k] in multiset(rows);
    }
  }

  /** Every order of a prefix of Targets(xs) is a full sell of one of xs. */
  lemma TargetsSell(xs: seq<string>, m: nat)
    requires m <= |xs|
    ensures forall o :: o in Targets(xs)[..m] ==> o.OrderTarget? && o.target == 0.0 && o.instrument in xs
  {
    forall o | o in Targets(xs)[..m] ensures o.OrderTarget? && o.target == 0.0 && o.instrument in xs {
      var k :| 0 <= k < m && Targets(xs)[k] == o;
      assert xs[k] in xs;
    }
  }

  /** The sells are full sells of held instruments, and every instrument that leaves stock_now
      was sold. */
  lemma SellOrdersNamed(holdings: seq<Holding>, ranker: seq<SignalRow>, changeNum: int, accepted: PlatformOrder -> bool)
    ensures forall o :: o in SellOrders(holdings, ranker, changeNum, accepted) ==>
              o.OrderTarget? && o.target == 0.0 && o.instrument in HeldInstruments(holdings)
    ensures forall x :: x in HeldInstruments(holdings) && x !in KeptAfterSells(holdings, ranker, changeNum, accepted) ==>
              OrderTarget(x, 0.0) in SellOrders(holdings, ranker, changeNum, accepted)
  {
    var needSell := NeedSell(holdings, ranker);
    var heldSorted := HeldSorted(holdings, ranker);
    var ranked := StepTwo(holdings, ranker, changeNum, accepted);
    TargetsSell(needSell, |needSell|);
    assert Targets(needSell)[..|needSell|] == Targets(needSell);
    TargetsSell(heldSorted, |ranked|);
    HeldSortedAreHeld(holdings, ranker);
    forall x | x in HeldInstruments(holdings) && x !in KeptAfterSells(holdings, ranker, changeNum, accepted)
      ensures OrderTarget(x, 0.0) in SellOrders(holdings, ranker, changeNum, accepted)
    {
      WithoutDrops(HeldInstruments(holdings), ranked, accepted, x);
      var k :| 0 <= k < |ranked| && accepted(ranked[k]) && ranked[k].instrument == x;
      assert ranked[k] in Targets(needSell) + ranked;
    }
  }

  /** The buys are order_value calls at the cash share on buy-list instruments stock_now no
      longer holds. */
  lemma BuyOrdersNamed(holdings: seq<Holding>, ranker: seq<SignalRow>, stockCount: int, changeNum: int,
                       stockWeights: real, cash: real, portfolioValue: real, accepted: PlatformOrder -> bool)
    ensures forall o :: o in BuyOrders(holdings, ranker, stockCount, changeNum, stockWeights, cash, portfolioValue, accepted) ==>
              && o.OrderValue?
              && o.instrument in BuyList(ranker, stockCount)
              && o.instrument !in KeptAfterSells(holdings, ranker, changeNum, accepted)
              && o.value == CashForBuy(portfolioValue, stockWeights, cash,
                                       SlotsLeft(stockCount, AfterSells(holdings, ranker, changeNum, accepted)))
  {
    var buys := BuyOrders(holdings, ranker, stockCount, changeNum, stockWeights, cash, portfolioValue, accepted);
    var xs := BuyInstruments(holdings, ranker, stockCount, changeNum, accepted);
    forall o | o in buys
      ensures && o.OrderValue?
              && o.instrument in BuyList(ranker, stockCount)
              && o.instrument !in KeptAfterSells(holdings, ranker, changeNum, accepted)
              && o.value == CashForBuy(portfolioValue, stockWeights, cash,
                                       SlotsLeft(stockCount, AfterSells(holdings, ranker, changeNum, accepted)))
    {
      var k :| 0 <= k < |buys| && buys[k] == o;
      assert xs[k] in xs;
    }
  }

  /** Steps 1 and 2 when something is held. */
  method SellHeld(holdings: seq<Holding>, ranker: seq<SignalRow>, changeNum: int, accepted: PlatformOrder -> bool)
    returns (orders: seq<PlatformOrder>, stockNow: seq<string>, stockNowNum: int, sellNum: int)
    requires HeldInstruments(holdings) != []
    ensures orders == Targets(NeedSell(holdings, ranker)) + StepTwo(holdings, ranker, changeNum, accepted)
    ensures sellNum == Accepted(Targets(NeedSell(holdings, ranker)), accepted)
                       + Accepted(StepTwo(holdings, ranker, changeNum, accepted), accepted)
    ensures stockNowNum == AfterSells(holdings, ranker, changeNum, accepted)
    ensures stockNow == KeptAfterSells(holdings, ranker, changeNum, accepted)
  {
    var held := HeldInstruments(holdings);
    var sellOrders, rankedOrders, first;
    sellOrders, first := SellUnpredicted(NeedSell(holdings, ranker), accepted);
    ghost var ranked := StepTwo(holdings, ranker, changeNum, accepted);
    rankedOrders, stockNow, stockNowNum, sellNum :=
      SellLowRanked(HeldSorted(holdings, ranker), held, |held|, first, changeNum, accepted);
    assert rankedOrders == ranked;
    assert stockNowNum == |held| - Accepted(ranked, accepted);
    orders := sellOrders + rankedOrders;
  }

  /** Steps 1 and 2 of rebalance, on stock_now and its counters. */
  method SellSteps(holdings: seq<Holding>, ranker: seq<SignalRow>, changeNum: int, accepted: PlatformOrder -> bool)
    returns (orders: seq<PlatformOrder>, stockNow: seq<string>, stockNowNum: int, sellNum: int)
    ensures orders == SellOrders(holdings, ranker, changeNum, accepted) && sellNum == Accepted(orders, accepted)
    ensures stockNowNum == AfterSells(holdings, ranker, changeNum, accepted)
    ensures stockNow == KeptAfterSells(holdings, ranker, changeNum, accepted)
    ensures HeldInstruments(holdings) == [] ==> sellNum == 0 && stockNowNum == 0 && orders == []
    ensures forall o :: o in orders ==> o.OrderTarget? && o.target == 0.0 && o.instrument in HeldInstruments(holdings)
    ensures forall x :: x in HeldInstruments(holdings) && x !in stockNow ==> OrderTarget(x, 0.0) in orders
  {
    if HeldInstruments(holdings) == [] {
      orders, stockNow, stockNowNum, sellNum := [], [], 0, 0;
    } else {
      orders, stockNow, stockNowNum, sellNum := SellHeld(holdings, ranker, changeNum, accepted);
      AcceptedConcat(Targets(NeedSell(holdings, ranker)), StepTwo(holdings, ranker, changeNum, accepted), accepted);
    }
    SellOrdersNamed(holdings, ranker, changeNum, accepted);
  }

  /** Step 3 of rebalance, from the state the sells leave. */
  method BuyStep(holdings: seq<Holding>, ranker: seq<SignalRow>, stockCount: int, changeNum: int,
                 stockWeights: real, cash: real, portfolioValue: real, accepted: PlatformOrder -> bool,
                 stockNow: seq<string>, stockNowNum: int)
    returns (orders: seq<PlatformOrder>, stockNowNum': int)
    requires stockNowNum == AfterSells(holdings, ranker, changeNum, accepted)
    requires stockNow == KeptAfterSells(holdings, ranker, changeNum, accepted)
    ensures orders == BuyOrders(holdings, ranker, stockCount, changeNum, stockWeights, cash, portfolioValue, accepted)
    ensures stockNowNum' == stockNowNum + Accepted(orders, accepted)
  {
    var buyList := BuyList(ranker, stockCount);
    if |buyList| > 0 && stockNowNum < stockCount {
      var kept := set x | x in stockNow;
      var buyInstruments := Outside(buyList, kept);
      var cashForBuy := CashForBuy(portfolioValue, stockWeights, cash, SlotsLeft(stockCount, stockNowNum));
      orders, stockNowNum' := BuyToFill(buyInstruments, stockNowNum, stockCount, cashForBuy, accepted);
    } else {
      orders, stockNowNum' := [], stockNowNum;
    }
  }

  /** rebalance: sell what left the prediction set, sell the worst-ranked holdings while
      sell_num is below change_num, then buy the best-ranked instruments not held into the free
      slots at an equal cash share. accepted says whether the platform takes an order. */
  method Rebalance(holdings: seq<Holding>, ranker: seq<SignalRow>, stockCount: int, changeNum: int,
                   stockWeights: real, cash: real, portfolioValue: real, accepted: PlatformOrder -> bool)
    returns (orders: seq<PlatformOrder>, sellNum: int, stockNowNum: int)
    requires Keyed(holdings)
    ensures orders == RebalanceOrders(holdings, ranker, stockCount, changeNum, stockWeights, cash, portfolioValue, accepted)
    ensures sellNum == Accepted(SellOrders(holdings, ranker, changeNum, accepted), accepted)
    ensures stockNowNum == AfterSells(holdings, ranker, changeNum, accepted)
                           + Accepted(BuyOrders(holdings, ranker, stockCount, changeNum, stockWeights, cash, portfolioValue, accepted), accepted)
  {
    var stockNow, sells, buys;
    sells, stockNow, stockNowNum, sellNum := SellSteps(holdings, ranker, changeNum, accepted);
    buys, stockNowNum := BuyStep(holdings, ranker, stockCount, changeNum, stockWeights, cash, portfolioValue, accepted,
                                 stockNow, stockNowNum);
    orders := sells + buys;
  }

  // ---------------------------------------------------------------------------
  // The strategy context and handle_data
  // ---------------------------------------------------------------------------

  /** What one handle_data call did. */
  datatype Outcome =
    | BadClock
    | OutsideWindow
    | Throttled
    | NoSignals
    | Rebalanced(orders: seq<PlatformOrder>)

  /** The strategy context m3_initialize sets up. */
  class TradingContext {
    const stockCount: int
    const stockWeights: real
    const changeNum: int
    const windowStartH: int
    const windowStartM: int
    const windowEndH: int
    const windowEndM: int
    const rebalanceEveryMinutes: int
    /** The signal table, sorted by stamp then rank. */
    const myData: seq<SignalRow>
    var lastRebalance: Option<int>

    /** m3_initialize_bigquant_run: ten equal-weight slots, one ranked sell per rebalance, the
        20:00-08:00 window, an hourly rebalance, and the signals sorted by stamp then rank. */
    constructor Initialize(data: seq<SignalRow>)
      ensures stockCount == 10 && stockWeights == 0.1 && changeNum == 1
      ensures windowStartH == 20 && windowStartM == 0 && windowEndH == 8 && windowEndM == 0
      ensures rebalanceEveryMinutes == 60 && lastRebalance == None
      ensures SortedBy(myData, ByStampThenPosition) && multiset(myData) == multiset(data)
    {
      stockCount := 10;
      stockWeights := 1.0 / 10.0;
      changeNum := 1;
      windowStartH, windowStartM := 20, 0;
      windowEndH, windowEndM := 8, 0;
      rebalanceEveryMinutes := 60;
      lastRebalance := None;
      myData := SortRows(data, ByStampThenPosition);
    }

    /** The window verdict for a time. */
    function WindowAt(now: int): Option<bool> {
      InTradeWindow(now, windowStartH, windowStartM, windowEndH, windowEndM)
    }

    /** The latest batch of the session now belongs to. */
    function RankerAt(now: int): Option<seq<SignalRow>>
      requires ValidClock(windowStartH, windowStartM)
    {
      var sid := SessionId(now, windowStartH, windowStartM).value;
      RankerFor(myData, SessionStart(sid, windowStartH, windowStartM), SessionEnd(sid, windowEndH, windowEndM), now)
    }

    /** m3_handle_data_bigquant_run: nothing outside the window, nothing within the rebalance
        period of the last rebalance, nothing without signals in the session; otherwise
        rebalance on the latest batch and remember the time. */
    method HandleData(now: int, holdings: seq<Holding>, cash: real, portfolioValue: real,
                      accepted: PlatformOrder -> bool) returns (outcome: Outcome)
      requires Keyed(holdings)
      modifies this
      ensures outcome == BadClock <==> WindowAt(now).None?
      ensures outcome == OutsideWindow <==> WindowAt(now) == Some(false)
      ensures outcome == Throttled <==>
        WindowAt(now) == Some(true) && old(lastRebalance).Some? && now - old(lastRebalance).value < rebalanceEveryMinutes * 60
      ensures outcome == NoSignals <==>
        && WindowAt(now) == Some(true)
        && !(old(lastRebalance).Some? && now - old(lastRebalance).value < rebalanceEveryMinutes * 60)
        && RankerAt(now).None?
      ensures outcome.Rebalanced? ==> RankerAt(now).Some? && lastRebalance == Some(now)
      ensures outcome.Rebalanced? ==>
        outcome.orders == RebalanceOrders(holdings, RankerAt(now).value, stockCount, changeNum, stockWeights,
                                          cash, portfolioValue, accepted)
      ensures !outcome.Rebalanced? ==> lastRebalance == old(lastRebalance)
    {
      var inWindow := InTradeWindow(now, windowStartH, windowStartM, windowEndH, windowEndM);
      if inWindow.None? {
        return BadClock;
      }
      if !inWindow.value {
        // risk_management iterates the holdings and does nothing
        return OutsideWindow;
      }
      if lastRebalance.Some? && now - lastRebalance.value < rebalanceEveryMinutes * 60 {
        return Throttled;
      }
      var ranker := RankerAt(now);
      if ranker.None? {
        return NoSignals;
      }
      var orders, sellNum, stockNowNum :=
        Rebalance(holdings, ranker.value, stockCount, changeNum, stockWeights, cash, portfolioValue, accepted);
      lastRebalance := Some(now);
      outcome := Rebalanced(orders);
    }
  }
}
