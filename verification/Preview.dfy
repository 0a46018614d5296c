/** The worker's decision at a candle and what the preview shows for it at any later time
    (backend/app/strategies/service.py, backend/app/routers/strategies.py). */
module Preview {
  import opened Ledger
  import opened Options
  import opened Candles
  import opened Repaint
  import opened Sma

  datatype Row = Row(start: int, close: real)
  datatype Report = Report(start: int, action: Side, close: real, fast: real, slow: real)

  // ---------------------------------------------------------------- queries

  predicate IsMax(s: set<int>, m: int) {
    m in s && forall x :: x in s ==> x <= m
  }

  lemma {:induction false} MaxExists(s: set<int>) returns (m: int)
    requires s != {}
    ensures IsMax(s, m)
    decreases |s|
  {
    if forall x :: x !in s {
      assert false;
    }
    var x :| x in s;
    if s == {x} {
      m := x;
    } else {
      var rest := MaxExists(s - {x});
      assert forall y :: y in s ==> y == x || y in s - {x};
      m := if x > rest then x else rest;
    }
  }

  lemma HasMax(s: set<int>)
    requires s != {}
    ensures exists m :: IsMax(s, m)
  {
    var m := MaxExists(s);
  }

  /** The starts of a query's rows, oldest first. */
  function Ascending(s: set<int>): seq<int>
    decreases |s|
  {
    if s == {} then []
    else
      HasMax(s);
      var m :| IsMax(s, m);
      Ascending(s - {m}) + [m]
  }

  predicate IsComplete(candles: map<CandleKey, Candle>, k: CandleKey) {
    k in candles && candles[k].complete
  }

  function CompleteStarts(candles: map<CandleKey, Candle>, feed: Feed, interval: Period): set<int> {
    set k | k in candles && k.feed == feed && k.interval == interval && candles[k].complete :: k.start
  }

  function UpTo(s: set<int>, start: int): set<int> {
    set x | x in s && x <= start
  }

  function Beyond(s: set<int>, start: int): set<int> {
    set x | x in s && x > start
  }

  function CloseAt(candles: map<CandleKey, Candle>, feed: Feed, interval: Period, start: int): real {
    var k := CandleKey(feed, interval, start);
    if k in candles then candles[k].close else 0.0
  }

  function RowsOf(candles: map<CandleKey, Candle>, feed: Feed, interval: Period, starts: seq<int>): (rows: seq<Row>)
    ensures |rows| == |starts|
    ensures forall i :: 0 <= i < |starts| ==> rows[i] == Row(starts[i], CloseAt(candles, feed, interval, starts[i]))
  {
    seq(|starts|, i requires 0 <= i < |starts| => Row(starts[i], CloseAt(candles, feed, interval, starts[i])))
  }

  function Closes(rows: seq<Row>): (closes: seq<real>)
    ensures |closes| == |rows| && forall i :: 0 <= i < |rows| ==> closes[i] == rows[i].close
  {
    seq(|rows|, i requires 0 <= i < |rows| => rows[i].close)
  }

  /** The newest completed candles up to the one under evaluation, oldest first. */
  function WorkerRows(candles: map<CandleKey, Candle>, feed: Feed, interval: Period, start: int, slow: nat): seq<Row> {
    RowsOf(candles, feed, interval, Last(Ascending(UpTo(CompleteStarts(candles, feed, interval), start)), slow + 1))
  }

  function PreviewRows(candles: map<CandleKey, Candle>, feed: Feed, interval: Period, limit: nat): seq<Row> {
    RowsOf(candles, feed, interval, Last(Ascending(CompleteStarts(candles, feed, interval)), limit))
  }

  // ---------------------------------------------------------------- the two readers

  predicate Gap(rows: seq<Row>, interval: int) {
    exists i :: 0 < i < |rows| && rows[i].start - rows[i - 1].start != interval
  }

  datatype Verdict = CandleGap | Decided(cross: Option<Cross>)

  function Worker(rows: seq<Row>, interval: int, fast: int, slow: int): Verdict {
    if |rows| >= slow + 1 && Gap(rows, interval) then CandleGap else Decided(Evaluate(Closes(rows), fast, slow))
  }

  function ReportFor(rows: seq<Row>, fast: int, slow: int): seq<Report>
    requires rows != []
  {
    var row := rows[|rows| - 1];
    match Evaluate(Closes(rows), fast, slow)
    case None => []
    case Some(cross) =>
      if cross.action.Some? then [Report(row.start, cross.action.value, row.close, cross.fast, cross.slow)] else []
  }

  function Reports(rows: seq<Row>, fast: int, slow: int): seq<Report> {
    if rows == [] then [] else Reports(rows[..|rows| - 1], fast, slow) + ReportFor(rows, fast, slow)
  }

  /** The preview's own loop over its rows. */
  method ListReports(rows: seq<Row>, fast: int, slow: int) returns (output: seq<Report>)
    ensures output == Reports(rows, fast, slow)
  {
    hide Evaluate;
    var closes: seq<real> := [];
    output := [];
    var i := 0;
    while i < |rows|
      invariant 0 <= i <= |rows|
      invariant closes == Closes(rows[..i])
      invariant output == Reports(rows[..i], fast, slow)
    {
      closes := closes + [rows[i].close];
      assert closes == Closes(rows[..i + 1]);
      var decision := Evaluate(closes, fast, slow);
      assert rows[..i + 1][..i] == rows[..i];
      if decision.Some? && decision.value.action.Some? {
        output := output
          + [Report(rows[i].start, decision.value.action.value, rows[i].close, decision.value.fast, decision.value.slow)];
      }
      i := i + 1;
    }
    assert rows[..i] == rows;
  }

  /** The report tells the signal at the last of these rows: its candle, action, close and both averages. */
  predicate Tells(report: Report, rows: seq<Row>, cross: Option<Cross>)
    requires rows != []
  {
    && cross.Some? && cross.value.action.Some?
    && report == Report(rows[|rows| - 1].start, cross.value.action.value, rows[|rows| - 1].close, cross.value.fast, cross.value.slow)
  }

  // ---------------------------------------------------------------- ordered starts

  predicate Rising(s: seq<int>) {
    forall i, j :: 0 <= i < j < |s| ==> s[i] < s[j]
  }

  lemma {:induction false} AscendingShape(s: set<int>)
    ensures Rising(Ascending(s)) && |Ascending(s)| == |s| && forall x :: x in Ascending(s) <==> x in s
    decreases |s|
  {
    if s != {} {
      HasMax(s);
      var m :| IsMax(s, m);
      assert Ascending(s) == Ascending(s - {m}) + [m];
      AscendingShape(s - {m});
      var init := Ascending(s - {m});
      assert forall i :: 0 <= i < |init| ==> init[i] in init;
    }
  }

  /** The worker decides on at most slow + 1 candles, each of them completed and none after the one it evaluates; of the
      completed ones up to that it leaves out only older ones. */
  lemma WorkerReads(candles: map<CandleKey, Candle>, feed: Feed, interval: Period, start: int, slow: nat, key: CandleKey)
    requires key.feed == feed && key.interval == interval
    ensures var rows := WorkerRows(candles, feed, interval, start, slow);
      && |rows| <= slow + 1
      && (forall i, j :: 0 <= i < j < |rows| ==> rows[i].start < rows[j].start)
      && (forall i :: 0 <= i < |rows| && rows[i].start == key.start ==>
            IsComplete(candles, key) && key.start <= start && rows[i].close == candles[key].close)
      && (IsComplete(candles, key) && key.start <= start && (forall i :: 0 <= i < |rows| ==> rows[i].start != key.start) ==>
            |rows| == slow + 1 && key.start < rows[0].start)
  {
    hide RowsOf, Last, Ascending, CompleteStarts, UpTo, IsComplete, CloseAt, Rising;
    var s := UpTo(CompleteStarts(candles, feed, interval), start);
    var last := Last(Ascending(s), slow + 1);
    StartOf(candles, feed, interval, start, key);
    AscendingShape(s);
    LastStarts(Ascending(s), slow + 1, key.start);
    RowStarts(RowsOf(candles, feed, interval, last), last);
    if key.start in last {
      assert key.start in s;
      CompleteClose(candles, key);
    }
  }

  /** The preview lists at most `limit` completed candles, and leaves out only older ones. */
  lemma PreviewReads(candles: map<CandleKey, Candle>, feed: Feed, interval: Period, limit: nat, key: CandleKey)
    requires key.feed == feed && key.interval == interval
    ensures var rows := PreviewRows(candles, feed, interval, limit);
      && |rows| <= limit
      && (forall i, j :: 0 <= i < j < |rows| ==> rows[i].start < rows[j].start)
      && (forall i :: 0 <= i < |rows| && rows[i].start == key.start ==>
            IsComplete(candles, key) && rows[i].close == candles[key].close)
      && (IsComplete(candles, key) && (forall i :: 0 <= i < |rows| ==> rows[i].start != key.start) ==>
            |rows| == limit && (limit > 0 ==> key.start < rows[0].start))
  {
    hide RowsOf, Last, Ascending, CompleteStarts, IsComplete, CloseAt, Rising;
    CompleteStart(candles, feed, interval, key);
    var s := CompleteStarts(candles, feed, interval);
    var last := Last(Ascending(s), limit);
    AscendingShape(s);
    LastStarts(Ascending(s), limit, key.start);
    RowStarts(RowsOf(candles, feed, interval, last), last);
    if key.start in last {
      assert key.start in s;
      CompleteClose(candles, key);
    }
  }

  lemma RowStarts(rows: seq<Row>, starts: seq<int>)
    requires Rising(starts) && |rows| == |starts| && forall i :: 0 <= i < |starts| ==> rows[i].start == starts[i]
    ensures forall i, j :: 0 <= i < j < |rows| ==> rows[i].start < rows[j].start
    ensures forall i :: 0 <= i < |rows| ==> rows[i].start in starts
    ensures forall x :: x in starts ==> exists i :: 0 <= i < |rows| && rows[i].start == x
  {
  }

  lemma StartOf(candles: map<CandleKey, Candle>, feed: Feed, interval: Period, start: int, key: CandleKey)
    requires key.feed == feed && key.interval == interval
    ensures key.start in UpTo(CompleteStarts(candles, feed, interval), start) <==> IsComplete(candles, key) && key.start <= start
  {
    CompleteStart(candles, feed, interval, key);
    hide CompleteStarts, IsComplete;
  }

  lemma CompleteStart(candles: map<CandleKey, Candle>, feed: Feed, interval: Period, key: CandleKey)
    requires key.feed == feed && key.interval == interval
    ensures key.start in CompleteStarts(candles, feed, interval) <==> IsComplete(candles, key)
  {
    if key.start in CompleteStarts(candles, feed, interval) {
      var k :| k in candles && k.feed == feed && k.interval == interval && candles[k].complete && k.start == key.start;
      assert k == key;
    }
  }

  lemma CompleteClose(candles: map<CandleKey, Candle>, key: CandleKey)
    requires IsComplete(candles, key)
    ensures key in candles && CloseAt(candles, key.feed, key.interval, key.start) == candles[key].close
  {
    assert key == CandleKey(key.feed, key.interval, key.start);
  }

  /** The last of some rising numbers are among them, and whatever is left out is smaller. */
  lemma LastStarts(all: seq<int>, n: nat, x: int)
    requires Rising(all)
    ensures var last := Last(all, n);
      && Rising(last) && (forall i :: 0 <= i < |last| ==> last[i] in all)
      && |last| <= n && (x in all && x !in last ==> |last| == n && (n > 0 ==> x < last[0]))
  {
    var last := Last(all, n);
    if x in all {
      var p :| 0 <= p < |all| && all[p] == x;
      if p >= |all| - |last| {
        assert last[p - (|all| - |last|)] == x;
      }
    }
  }

  /** A gap is two neighbouring rows that are not one interval apart; only with enough rows does it stop the decision. */
  lemma WorkerStops(rows: seq<Row>, interval: int, fast: int, slow: int)
    ensures Worker(rows, interval, fast, slow).CandleGap? <==>
      |rows| > slow && exists i :: 0 <= i < |rows| - 1 && rows[i].start + interval != rows[i + 1].start
    ensures Worker(rows, interval, fast, slow).Decided? ==>
      Worker(rows, interval, fast, slow).cross == Evaluate(Closes(rows), fast, slow)
  {
    if i :| 0 < i < |rows| && rows[i].start - rows[i - 1].start != interval {
      assert rows[i - 1].start + interval != rows[i - 1 + 1].start;
    }
    if i :| 0 <= i < |rows| - 1 && rows[i].start + interval != rows[i + 1].start {
      assert rows[i + 1].start - rows[i + 1 - 1].start != interval;
    }
    hide Evaluate, Closes;
  }

  lemma {:induction false} AscendingSplits(s: set<int>, start: int)
    ensures Ascending(s) == Ascending(UpTo(s, start)) + Ascending(Beyond(s, start))
    decreases |s|
  {
    if s == {} {
      assert UpTo(s, start) == {} && Beyond(s, start) == {};
    } else {
      HasMax(s);
      var m :| IsMax(s, m);
      AscendingSplits(s - {m}, start);
      if m <= start {
        assert Beyond(s, start) == {} && Beyond(s - {m}, start) == {};
        assert UpTo(s, start) == s && UpTo(s - {m}, start) == s - {m};
      } else {
        assert UpTo(s - {m}, start) == UpTo(s, start);
        assert IsMax(Beyond(s, start), m) && Beyond(s, start) - {m} == Beyond(s - {m}, start);
        MaxUnique(Beyond(s, start), m);
      }
      MaxUnique(s, m);
    }
  }

  lemma MaxUnique(s: set<int>, m: int)
    requires IsMax(s, m)
    ensures Ascending(s) == Ascending(s - {m}) + [m]
  {
    var m2 :| IsMax(s, m2) && Ascending(s) == Ascending(s - {m2}) + [m2];
  }

  // ---------------------------------------------------------------- what a later table still shows

  /** Up to a completed candle, a later table has the same completed candles with the same closes. */
  lemma SameStarts(intervals: seq<Period>, history: seq<Event>, later: seq<Event>, key: CandleKey)
    requires Distinct(intervals) && key.interval in intervals && InOrder(history + later, key.feed)
    requires IsComplete(After(intervals, history).candles, key)
    ensures var before, after := After(intervals, history).candles, After(intervals, history + later).candles;
      && UpTo(CompleteStarts(after, key.feed, key.interval), key.start)
         == UpTo(CompleteStarts(before, key.feed, key.interval), key.start)
      && forall x :: x in UpTo(CompleteStarts(before, key.feed, key.interval), key.start) ==>
           CloseAt(after, key.feed, key.interval, x) == CloseAt(before, key.feed, key.interval, x)
  {
    var before, after := After(intervals, history).candles, After(intervals, history + later).candles;
    forall x | x in CompleteStarts(before, key.feed, key.interval)
      ensures x in CompleteStarts(after, key.feed, key.interval)
      ensures CloseAt(after, key.feed, key.interval, x) == CloseAt(before, key.feed, key.interval, x)
    {
      NoRepaint(intervals, history, later, CandleKey(key.feed, key.interval, x));
      assert IsComplete(after, CandleKey(key.feed, key.interval, x));
    }
    forall x | x in CompleteStarts(after, key.feed, key.interval) && x <= key.start
      ensures x in CompleteStarts(before, key.feed, key.interval)
    {
      WasComplete(intervals, history, later, key, CandleKey(key.feed, key.interval, x));
      assert IsComplete(before, CandleKey(key.feed, key.interval, x));
    }
    hide After, InOrder;
  }

  lemma WasComplete(intervals: seq<Period>, history: seq<Event>, later: seq<Event>, key: CandleKey, earlier: CandleKey)
    requires Distinct(intervals) && key.interval in intervals && InOrder(history + later, key.feed)
    requires IsComplete(After(intervals, history).candles, key)
    requires earlier.feed == key.feed && earlier.interval == key.interval && earlier.start <= key.start
    requires earlier in After(intervals, history + later).candles
    ensures IsComplete(After(intervals, history).candles, earlier)
  {
    if earlier != key {
      OnTable(intervals, history + later, earlier);
      OnTable(intervals, history, key);
      var n :| 0 <= n < |history + later| && Hits((history + later)[n], earlier);
      var c :| 0 <= c < |history| && Hits(history[c], key);
      assert (history + later)[c] == history[c];
      if c < n {
        BucketMonotone(history[c].tick.time, (history + later)[n].tick.time, key.interval);
      } else {
        assert history[n] == (history + later)[n];
        OnTable(intervals, history, earlier);
        assert (history + later)[..|history|] == history;
        InOrderPrefix(history + later, |history|, key.feed);
        LaterCompletes(intervals, history, earlier, key);
      }
      hide After, Bucket;
    }
  }

  // ---------------------------------------------------------------- agreement

  lemma {:induction false} ReportOf(rows: seq<Row>, fast: int, slow: int, p: nat, report: Report)
    requires p < |rows| && forall i, j :: 0 <= i < j < |rows| ==> rows[i].start < rows[j].start
    ensures report in Reports(rows, fast, slow) && report.start == rows[p].start
       <==> report in ReportFor(rows[..p + 1], fast, slow)
    decreases |rows|
  {
    hide Evaluate;
    var n := |rows| - 1;
    EarlierStarts(rows[..n], fast, slow);
    assert rows[..n + 1] == rows;
    if p < n {
      ReportOf(rows[..n], fast, slow, p, report);
      assert rows[..n][..p + 1] == rows[..p + 1];
    }
  }

  /** Every report is for one of the rows. */
  lemma {:induction false} EarlierStarts(rows: seq<Row>, fast: int, slow: int)
    ensures forall r :: r in Reports(rows, fast, slow) ==> exists i :: 0 <= i < |rows| && rows[i].start == r.start
    decreases |rows|
  {
    if rows != [] {
      EarlierStarts(rows[..|rows| - 1], fast, slow);
      forall r | r in Reports(rows, fast, slow)
        ensures exists i :: 0 <= i < |rows| && rows[i].start == r.start
      {
        if r in Reports(rows[..|rows| - 1], fast, slow) {
          var i :| 0 <= i < |rows| - 1 && rows[..|rows| - 1][i].start == r.start;
          assert rows[i].start == r.start;
        } else {
          assert rows[|rows| - 1].start == r.start;
        }
      }
      hide Evaluate;
    }
  }

  /** Where a window lies in a longer listing: both end their common part at the same candle. */
  lemma WindowInListing(a: seq<int>, b: seq<int>, limit: nat, slow: nat) returns (x: nat)
    requires Rising(a + b) && |a| >= slow + 1
    requires forall s :: s in Last(a, slow + 1) ==> s in Last(a + b, limit)
    ensures x + slow + 1 <= |a| && Last(a + b, limit) == a[x..] + b
    ensures Last(a, slow + 1) == a[|a| - (slow + 1)..]
  {
    var y, all := |a| - (slow + 1), a + b;
    x := |all| - |Last(all, limit)|;
    assert Last(all, limit) == all[x..];
    assert Last(a, slow + 1)[0] == a[y] == all[y];
    assert all[y] in all[x..];
    var z :| x <= z < |all| && all[z] == all[y];
    assert z == y;
    assert all[x..] == a[x..] + b;
  }

  /** The preview's decision at a candle rests on the same closes as the worker's. */
  lemma SameDecision(candles: map<CandleKey, Candle>, feed: Feed, interval: Period, a: seq<int>, x: nat, fast: int, slow: nat)
    requires x + slow + 1 <= |a|
    ensures Evaluate(Closes(RowsOf(candles, feed, interval, a[x..])), fast, slow)
         == Evaluate(Closes(RowsOf(candles, feed, interval, a[|a| - (slow + 1)..])), fast, slow)
  {
    hide Evaluate;
    var y := |a| - (slow + 1);
    var all := Closes(RowsOf(candles, feed, interval, a[x..]));
    var tail := Closes(RowsOf(candles, feed, interval, a[y..]));
    assert all == all[..y - x] + tail;
    OldClosesIrrelevant(all[..y - x], tail, fast, slow);
  }

  lemma LastIsStart(a: seq<int>, s: set<int>, start: int)
    requires Rising(a) && (forall x :: x in a <==> x in s) && IsMax(s, start)
    ensures a != [] && a[|a| - 1] == start
  {
    assert start in a;
    var i :| 0 <= i < |a| && a[i] == start;
    assert a[|a| - 1] in a;
  }

  lemma SeenStarts(before: map<CandleKey, Candle>, after: map<CandleKey, Candle>, key: CandleKey, window: seq<int>, listing: seq<int>)
    requires forall r :: r in RowsOf(before, key.feed, key.interval, window) ==>
      exists r2 :: r2 in RowsOf(after, key.feed, key.interval, listing) && r2.start == r.start
    ensures forall s :: s in window ==> s in listing
  {
    forall s | s in window
      ensures s in listing
    {
      var i :| 0 <= i < |window| && window[i] == s;
      var r := RowsOf(before, key.feed, key.interval, window)[i];
      var r2 :| r2 in RowsOf(after, key.feed, key.interval, listing) && r2.start == r.start;
    }
  }

  lemma Agree(before: map<CandleKey, Candle>, after: map<CandleKey, Candle>, key: CandleKey, a: seq<int>, b: seq<int>, x: nat,
              fast: int, slow: nat, report: Report)
    requires Rising(a + b) && x + slow + 1 <= |a| && a[|a| - 1] == key.start
    requires forall s :: s in a ==>
      CloseAt(after, key.feed, key.interval, s) == CloseAt(before, key.feed, key.interval, s)
    ensures var rows := RowsOf(before, key.feed, key.interval, a[|a| - (slow + 1)..]);
      var seen := Reports(RowsOf(after, key.feed, key.interval, a[x..] + b), fast, slow);
      report in seen && report.start == key.start <==> Tells(report, rows, Evaluate(Closes(rows), fast, slow))
  {
    hide Evaluate, Reports, CloseAt, ReportFor;
    var rows, p := RowsOf(after, key.feed, key.interval, a[x..] + b), |a| - x - 1;
    var tail := a[|a| - (slow + 1)..];
    RisingRows(a, b, x);
    ReportOf(rows, fast, slow, p, report);
    assert rows[..p + 1] == RowsOf(after, key.feed, key.interval, a[x..]);
    SameDecision(after, key.feed, key.interval, a, x, fast, slow);
    SameCloses(before, after, key, tail);
    ReportShape(rows[..p + 1], fast, slow, report);
    assert a[|a| - 1] in a;
  }

  lemma SameCloses(before: map<CandleKey, Candle>, after: map<CandleKey, Candle>, key: CandleKey, starts: seq<int>)
    requires forall s :: s in starts ==>
      CloseAt(after, key.feed, key.interval, s) == CloseAt(before, key.feed, key.interval, s)
    ensures Closes(RowsOf(after, key.feed, key.interval, starts)) == Closes(RowsOf(before, key.feed, key.interval, starts))
  {
    hide CloseAt;
  }

  lemma ReportShape(rows: seq<Row>, fast: int, slow: int, report: Report)
    requires rows != []
    ensures report in ReportFor(rows, fast, slow) <==> Tells(report, rows, Evaluate(Closes(rows), fast, slow))
  {
    hide Evaluate;
  }

  lemma RisingRows(a: seq<int>, b: seq<int>, x: nat)
    requires Rising(a + b) && x <= |a|
    ensures Rising(a[x..] + b)
  {
    assert a[x..] + b == (a + b)[x..];
  }

  /** Main result: with a feed in order, what the worker decides at a completed candle is what the preview reports for
      that candle, with the same close and averages, at any later time at which its listing still reaches back over the
      worker's candles; and the preview reports nothing else for it. */
  lemma PreviewAgrees(intervals: seq<Period>, history: seq<Event>, later: seq<Event>, key: CandleKey, limit: nat,
                      fast: int, slow: nat, report: Report)
    requires Distinct(intervals) && key.interval in intervals && InOrder(history + later, key.feed)
    requires IsComplete(After(intervals, history).candles, key)
    requires var rows := WorkerRows(After(intervals, history).candles, key.feed, key.interval, key.start, slow);
      |rows| == slow + 1 && !Gap(rows, key.interval)
      && forall r :: r in rows ==>
           exists r2 :: r2 in PreviewRows(After(intervals, history + later).candles, key.feed, key.interval, limit)
                        && r2.start == r.start
    ensures var rows := WorkerRows(After(intervals, history).candles, key.feed, key.interval, key.start, slow);
      var seen := Reports(PreviewRows(After(intervals, history + later).candles, key.feed, key.interval, limit), fast, slow);
      report in seen && report.start == key.start <==> Tells(report, rows, Worker(rows, key.interval, fast, slow).cross)
  {
    var before, after := After(intervals, history).candles, After(intervals, history + later).candles;
    SameStarts(intervals, history, later, key);
    var s1, s2 := CompleteStarts(before, key.feed, key.interval), CompleteStarts(after, key.feed, key.interval);
    assert key.start in UpTo(s1, key.start);
    hide After, InOrder, CompleteStarts;
    var a, b := Ascending(UpTo(s2, key.start)), Ascending(Beyond(s2, key.start));
    AscendingSplits(s2, key.start);
    AscendingShape(s2);
    AscendingShape(UpTo(s2, key.start));
    LastIsStart(a, UpTo(s2, key.start), key.start);
    SeenStarts(before, after, key, Last(a, slow + 1), Last(a + b, limit));
    var x := WindowInListing(a, b, limit, slow);
    Agree(before, after, key, a, b, x, fast, slow, report);
  }
}
