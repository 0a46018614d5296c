/** The same quotes at several intervals: a coarse candle is the merge of its fine candles, and volume is conserved. */
module Resolutions {
  import opened Options
  import opened Totals
  import opened Candles
  import opened Repaint

  // ---------------------------------------------------------------- volume

  ghost function Volumes(candles: map<CandleKey, Candle>, feed: Feed, interval: Period, inside: int -> bool): map<CandleKey, real> {
    map k | k in candles && k.feed == feed && k.interval == interval && inside(k.start) :: candles[k].volume
  }

  /** Volume of the feed's quotes whose bucket start is of interest. */
  ghost function FlowIn(history: seq<Event>, feed: Feed, interval: Period, inside: int -> bool): real {
    if history == [] then 0.0
    else
      var init, event := history[..|history| - 1], history[|history| - 1];
      FlowIn(init, feed, interval, inside)
      + if From(event, feed) && inside(Bucket(event.tick.time, interval)) then Inflow(init, event.tick) else 0.0
  }

  /** Summed over any group of buckets, the candles of one interval hold exactly the volume quoted there. */
  lemma {:induction false} VolumeIsFlow(intervals: seq<Period>, history: seq<Event>, feed: Feed, interval: Period, inside: int -> bool)
    requires Distinct(intervals) && interval in intervals
    ensures Total(Volumes(After(intervals, history).candles, feed, interval, inside)) == FlowIn(history, feed, interval, inside)
    decreases |history|
  {
    if history == [] {
      assert Volumes(After(intervals, history).candles, feed, interval, inside) == map[];
    } else {
      var init, event := history[..|history| - 1], history[|history| - 1];
      VolumeIsFlow(intervals, init, feed, interval, inside);
      if event.Quoted? {
        assert history == init + [Quoted(event.tick)];
        QuoteFlows(intervals, init, event.tick, feed, interval, inside);
      }
      hide Total, Inflow, PutAll, Bucket, Volumes;
    }
  }

  lemma QuoteFlows(intervals: seq<Period>, init: seq<Event>, t: Tick, feed: Feed, interval: Period, inside: int -> bool)
    requires Distinct(intervals) && interval in intervals
    ensures Total(Volumes(After(intervals, init + [Quoted(t)]).candles, feed, interval, inside))
         == Total(Volumes(After(intervals, init).candles, feed, interval, inside))
          + if t.feed == feed && inside(Bucket(t.time, interval)) then Inflow(init, t) else 0.0
  {
    var before := Volumes(After(intervals, init).candles, feed, interval, inside);
    var after := Volumes(After(intervals, init + [Quoted(t)]).candles, feed, interval, inside);
    var touched := KeyOf(t, interval);
    DeltaIsInflow(intervals, init, t);
    VolumesMove(intervals, init, t, feed, interval, inside);
    TotalWithout(before, touched);
    TotalWithout(after, touched);
    StepAt(intervals, init, t, touched);
    hide Total, After, Inflow, Delta, Bucket;
  }

  lemma VolumesMove(intervals: seq<Period>, init: seq<Event>, t: Tick, feed: Feed, interval: Period, inside: int -> bool)
    requires Distinct(intervals) && interval in intervals
    ensures Volumes(After(intervals, init + [Quoted(t)]).candles, feed, interval, inside) - {KeyOf(t, interval)}
         == Volumes(After(intervals, init).candles, feed, interval, inside) - {KeyOf(t, interval)}
  {
    forall k: CandleKey | k.interval == interval && k != KeyOf(t, interval)
      ensures k in After(intervals, init + [Quoted(t)]).candles <==> k in After(intervals, init).candles
      ensures k in After(intervals, init).candles ==>
        After(intervals, init + [Quoted(t)]).candles[k].volume == After(intervals, init).candles[k].volume
    {
      StepAt(intervals, init, t, k);
      hide After, Delta, Bucket;
    }
    hide After, Bucket;
  }

  /** Everything traded on a feed, as far as its quotes tell. */
  ghost function FlowOf(history: seq<Event>, feed: Feed): real {
    if history == [] then 0.0
    else
      var init, event := history[..|history| - 1], history[|history| - 1];
      FlowOf(init, feed) + if From(event, feed) then Inflow(init, event.tick) else 0.0
  }

  lemma {:induction false} AllFlowsIn(history: seq<Event>, feed: Feed, interval: Period)
    ensures FlowIn(history, feed, interval, (s: int) => true) == FlowOf(history, feed)
    decreases |history|
  {
    if history != [] {
      AllFlowsIn(history[..|history| - 1], feed, interval);
      hide Inflow, Bucket;
    }
  }

  /** Main result: over all candles of any interval the volume is the same, what flowed between the feed's quotes. */
  lemma VolumeConserved(intervals: seq<Period>, history: seq<Event>, feed: Feed, interval: Period)
    requires Distinct(intervals) && interval in intervals
    ensures Total(Volumes(After(intervals, history).candles, feed, interval, (s: int) => true)) == FlowOf(history, feed)
  {
    VolumeIsFlow(intervals, history, feed, interval, (s: int) => true);
    AllFlowsIn(history, feed, interval);
  }

  /** The feed's cumulative volume never falls, and the worker never restarts. */
  ghost predicate Cumulates(history: seq<Event>, feed: Feed) {
    && (forall i :: 0 <= i < |history| ==> history[i].Quoted?)
    && (forall i, j :: 0 <= i < j < |history| && From(history[i], feed) && From(history[j], feed) ==>
          Cumulative(history[i].tick) <= Cumulative(history[j].tick))
  }

  function FirstCumulative(history: seq<Event>, feed: Feed): Option<real> {
    if history == [] then None
    else if From(history[0], feed) then Some(Cumulative(history[0].tick))
    else FirstCumulative(history[1..], feed)
  }

  lemma {:induction false} FirstStays(history: seq<Event>, event: Event, feed: Feed)
    ensures FirstCumulative(history + [event], feed)
         == if FirstCumulative(history, feed).Some? then FirstCumulative(history, feed)
            else if From(event, feed) then Some(Cumulative(event.tick)) else None
    decreases |history|
  {
    if history != [] {
      FirstStays(history[1..], event, feed);
      assert (history + [event])[1..] == history[1..] + [event];
    } else {
      assert ([event])[1..] == [];
      assert history + [event] == [event];
    }
    hide Cumulative, From;
  }

  lemma {:induction false} LastIsSeen(history: seq<Event>, feed: Feed)
    requires forall i :: 0 <= i < |history| ==> history[i].Quoted?
    ensures LastCumulative(history, feed).Some? <==> FirstCumulative(history, feed).Some?
    ensures LastCumulative(history, feed).Some? ==>
      exists i :: 0 <= i < |history| && From(history[i], feed)
        && LastCumulative(history, feed).value == Cumulative(history[i].tick)
    decreases |history|
  {
    if history != [] {
      var init, event := history[..|history| - 1], history[|history| - 1];
      LastIsSeen(init, feed);
      FirstStays(init, event, feed);
      assert history == init + [event];
      if !From(event, feed) && LastCumulative(init, feed).Some? {
        var i :| 0 <= i < |init| && From(init[i], feed) && LastCumulative(init, feed).value == Cumulative(init[i].tick);
        assert history[i] == init[i];
      }
      hide Cumulative;
    }
  }

  /** With a rising cumulative volume the candles of any interval add up to its last reading minus its first. */
  lemma {:induction false} FlowTelescopes(history: seq<Event>, feed: Feed)
    requires Cumulates(history, feed)
    ensures match LastCumulative(history, feed)
      case None => FlowOf(history, feed) == 0.0
      case Some(last) => FirstCumulative(history, feed).Some?
                         && FlowOf(history, feed) == last - FirstCumulative(history, feed).value
    decreases |history|
  {
    if history != [] {
      var init, event := history[..|history| - 1], history[|history| - 1];
      assert forall i :: 0 <= i < |init| ==> init[i] == history[i];
      FlowTelescopes(init, feed);
      LastIsSeen(init, feed);
      FirstStays(init, event, feed);
      assert history == init + [event];
      hide Cumulative;
    }
  }

  // ---------------------------------------------------------------- fine and coarse buckets

  lemma AlignShape(e: int, interval: Period)
    ensures Align(e, interval) <= e < Align(e, interval) + interval
    ensures exists n: int :: Align(e, interval) == n * interval
  {
    var n := e / interval;
    assert Align(e, interval) == n * interval;
  }

  /** A quote falls into the bucket whose interval holds its whole second. */
  lemma BucketHolds(t: real, interval: Period)
    requires t >= 0.0
    ensures Bucket(t, interval) % interval == 0
    ensures Bucket(t, interval) as real <= t < (Bucket(t, interval) + interval) as real
  {
    var e := Epoch(t);
    assert e as real <= t < (e + 1) as real;
    AlignShape(e, interval);
    var n: int :| Align(e, interval) == n * interval;
    Remainder(n, interval);
  }

  lemma Remainder(n: int, interval: Period)
    ensures (n * interval) % interval == 0
  {
    var q := (n * interval) / interval;
    var r := (n * interval) % interval;
    assert n * interval == q * interval + r && 0 <= r < interval;
    if q < n {
      TimesMonotone(q + 1, n, interval);
    } else if n < q {
      TimesMonotone(n + 1, q, interval);
    }
  }

  lemma AlignUnique(e: int, interval: Period, n: int)
    requires n * interval <= e < n * interval + interval
    ensures Align(e, interval) == n * interval
  {
    AlignShape(e, interval);
    var m: int :| Align(e, interval) == m * interval;
    if m < n {
      TimesMonotone(m + 1, n, interval);
    } else if n < m {
      TimesMonotone(n + 1, m, interval);
    }
  }

  lemma StartsWithin(e: int, f: int, k: int, fine: Period)
    requires k * fine <= e < f * fine + fine
    ensures k * fine <= f * fine
  {
    if f < k {
      TimesMonotone(f + 1, k, fine);
    } else {
      TimesMonotone(k, f, fine);
    }
  }

  lemma Regroup(c: int, ratio: int, fine: int)
    ensures c * (ratio * fine) == (c * ratio) * fine
  {
  }

  /** A fine bucket lies inside one coarse bucket when the fine interval divides the coarse one. */
  lemma BucketsNest(e: int, fine: Period, coarse: Period, ratio: int)
    requires coarse == ratio * fine
    ensures Align(Align(e, fine), coarse) == Align(e, coarse)
  {
    AlignShape(e, fine);
    AlignShape(e, coarse);
    hide Align;
    var f: int :| Align(e, fine) == f * fine;
    var c: int :| Align(e, coarse) == c * coarse;
    Regroup(c, ratio, fine);
    StartsWithin(e, f, c * ratio, fine);
    AlignUnique(Align(e, fine), coarse, c);
  }

  ghost predicate Divides(fine: Period, coarse: Period) {
    exists ratio: int :: coarse == ratio * fine
  }

  lemma HitsNest(event: Event, key: CandleKey, fine: Period)
    requires Divides(fine, key.interval) && event.Quoted?
    ensures Hits(event, key)
       <==> event.tick.feed == key.feed && Align(KeyOf(event.tick, fine).start, key.interval) == key.start
  {
    var ratio: int :| key.interval == ratio * fine;
    BucketsNest(Epoch(event.tick.time), fine, key.interval, ratio);
    hide Align, Epoch;
  }

  // ---------------------------------------------------------------- a candle, told by the quotes that hit it

  /** Which quote gave each price of a candle. */
  ghost predicate Traced(history: seq<Event>, key: CandleKey, c: Candle) {
    && (forall n :: 0 <= n < |history| && Hits(history[n], key) ==> c.low <= history[n].tick.price <= c.high)
    && (exists n :: 0 <= n < |history| && Hits(history[n], key) && history[n].tick.price == c.high)
    && (exists n :: 0 <= n < |history| && Hits(history[n], key) && history[n].tick.price == c.low)
    && (exists n :: First(history, key, n) && history[n].tick.price == c.open)
    && (exists n :: Final(history, key, n) && history[n].tick.price == c.close)
  }

  predicate First(history: seq<Event>, key: CandleKey, n: int) {
    0 <= n < |history| && Hits(history[n], key) && forall m :: 0 <= m < n ==> !Hits(history[m], key)
  }

  predicate Final(history: seq<Event>, key: CandleKey, n: int) {
    0 <= n < |history| && Hits(history[n], key) && forall m :: n < m < |history| ==> !Hits(history[m], key)
  }

  lemma {:induction false} CandleIsTraced(intervals: seq<Period>, history: seq<Event>, key: CandleKey)
    requires Distinct(intervals) && key.interval in intervals && key in After(intervals, history).candles
    ensures Traced(history, key, After(intervals, history).candles[key])
    decreases |history|
  {
    var init, event := history[..|history| - 1], history[|history| - 1];
    if event.Quoted? {
      assert history == init + [Quoted(event.tick)];
      StepAt(intervals, init, event.tick, key);
      OnTable(intervals, init, key);
      if key in After(intervals, init).candles {
        CandleIsTraced(intervals, init, key);
        MoreTraced(init, event, key, After(intervals, init).candles[key], After(intervals, history).candles[key]);
      } else {
        NewTraced(init, event, key, After(intervals, history).candles[key]);
      }
    } else {
      CandleIsTraced(intervals, init, key);
      assert history == init + [event];
      MoreTraced(init, event, key, After(intervals, init).candles[key], After(intervals, history).candles[key]);
    }
  }

  lemma NewTraced(init: seq<Event>, event: Event, key: CandleKey, c: Candle)
    requires Hits(event, key) && forall i :: 0 <= i < |init| ==> !Hits(init[i], key)
    requires c.open == c.high == c.low == c.close == event.tick.price
    ensures Traced(init + [event], key, c)
  {
    hide Hits;
    var history, n := init + [event], |init|;
    assert forall m :: 0 <= m < |init| ==> history[m] == init[m];
    assert history[n] == event && Hits(history[n], key);
    assert First(history, key, n) && Final(history, key, n);
  }

  lemma MoreTraced(init: seq<Event>, event: Event, key: CandleKey, c: Candle, c2: Candle)
    requires Traced(init, key, c)
    requires c2.open == c.open
    requires if Hits(event, key)
      then c2.high == Higher(c.high, event.tick.price) && c2.low == Lower(c.low, event.tick.price) && c2.close == event.tick.price
      else c2.high == c.high && c2.low == c.low && c2.close == c.close
    ensures Traced(init + [event], key, c2)
  {
    hide KeyOf;
    var history, n := init + [event], |init|;
    assert forall m :: 0 <= m < |init| ==> history[m] == init[m];
    assert history[n] == event;
    var h :| 0 <= h < |init| && Hits(init[h], key) && init[h].tick.price == c.high;
    var l :| 0 <= l < |init| && Hits(init[l], key) && init[l].tick.price == c.low;
    var o :| First(init, key, o) && init[o].tick.price == c.open;
    var f :| Final(init, key, f) && init[f].tick.price == c.close;
    assert Hits(history[h], key) && Hits(history[l], key) && First(history, key, o);
    assert if Hits(event, key) then Final(history, key, n) else Final(history, key, f);
  }

  // ---------------------------------------------------------------- the merge

  ghost predicate IsFine(candles: map<CandleKey, Candle>, key: CandleKey, fine: Period, k: CandleKey) {
    k in candles && k.feed == key.feed && k.interval == fine && Align(k.start, key.interval) == key.start
  }

  /** High and low of a coarse candle are the extremes of its fine candles. */
  ghost predicate MergesRange(candles: map<CandleKey, Candle>, key: CandleKey, fine: Period)
    requires key in candles
  {
    && (forall k :: IsFine(candles, key, fine, k) ==> candles[k].high <= candles[key].high && candles[key].low <= candles[k].low)
    && (exists k :: IsFine(candles, key, fine, k) && candles[k].high == candles[key].high)
    && (exists k :: IsFine(candles, key, fine, k) && candles[k].low == candles[key].low)
  }

  lemma FineOfTick(intervals: seq<Period>, history: seq<Event>, key: CandleKey, fine: Period, n: nat)
    requires Distinct(intervals) && key.interval in intervals && fine in intervals && Divides(fine, key.interval)
    requires n < |history| && Hits(history[n], key)
    ensures IsFine(After(intervals, history).candles, key, fine, KeyOf(history[n].tick, fine))
    ensures Hits(history[n], KeyOf(history[n].tick, fine))
  {
    HitsNest(history[n], key, fine);
    OnTable(intervals, history, KeyOf(history[n].tick, fine));
    hide After, Divides, Align, Bucket;
  }

  lemma TickOfFine(intervals: seq<Period>, history: seq<Event>, key: CandleKey, fine: Period, k: CandleKey, n: nat)
    requires Divides(fine, key.interval) && IsFine(After(intervals, history).candles, key, fine, k)
    requires n < |history| && Hits(history[n], k)
    ensures Hits(history[n], key)
  {
    HitsNest(history[n], key, fine);
    hide After, Divides, Align, Bucket;
  }

  /** Main result: a coarse candle exists exactly when some fine candle of its bucket does, has the extremes of those
      candles for high and low, and their volumes for its volume, in whatever order the quotes came. */
  lemma CoarseIsMerge(intervals: seq<Period>, history: seq<Event>, key: CandleKey, fine: Period)
    requires Distinct(intervals) && key.interval in intervals && fine in intervals && Divides(fine, key.interval)
    ensures var candles := After(intervals, history).candles;
      && (key in candles <==> exists k :: IsFine(candles, key, fine, k))
      && (key in candles ==>
            && MergesRange(candles, key, fine)
            && candles[key].volume
               == Total(Volumes(candles, key.feed, fine, s => Align(s, key.interval) == key.start)))
  {
    var candles := After(intervals, history).candles;
    OnTable(intervals, history, key);
    hide After, Hits;
    if key in candles {
      var n :| 0 <= n < |history| && Hits(history[n], key);
      FineOfTick(intervals, history, key, fine, n);
      RangeMerges(intervals, history, key, fine);
      VolumeMerges(intervals, history, key, fine);
    }
    if exists k :: IsFine(candles, key, fine, k) {
      var k :| IsFine(candles, key, fine, k);
      OnTable(intervals, history, k);
      var n :| 0 <= n < |history| && Hits(history[n], k);
      TickOfFine(intervals, history, key, fine, k, n);
    }
  }

  lemma FineInside(intervals: seq<Period>, history: seq<Event>, key: CandleKey, fine: Period, k: CandleKey)
    requires Distinct(intervals) && key.interval in intervals && fine in intervals && Divides(fine, key.interval)
    requires key in After(intervals, history).candles && IsFine(After(intervals, history).candles, key, fine, k)
    ensures var candles := After(intervals, history).candles;
      candles[k].high <= candles[key].high && candles[key].low <= candles[k].low
  {
    var candles := After(intervals, history).candles;
    CandleIsTraced(intervals, history, key);
    CandleIsTraced(intervals, history, k);
    hide After, Hits, Divides, First, Final, Bucket, Align, IsFine;
    var h :| 0 <= h < |history| && Hits(history[h], k) && history[h].tick.price == candles[k].high;
    var l :| 0 <= l < |history| && Hits(history[l], k) && history[l].tick.price == candles[k].low;
    TickOfFine(intervals, history, key, fine, k, h);
    TickOfFine(intervals, history, key, fine, k, l);
  }

  lemma HighFound(intervals: seq<Period>, history: seq<Event>, key: CandleKey, fine: Period) returns (k: CandleKey)
    requires Distinct(intervals) && key.interval in intervals && fine in intervals && Divides(fine, key.interval)
    requires key in After(intervals, history).candles
    ensures var candles := After(intervals, history).candles;
      IsFine(candles, key, fine, k) && candles[k].high == candles[key].high
  {
    var candles := After(intervals, history).candles;
    CandleIsTraced(intervals, history, key);
    var n :| 0 <= n < |history| && Hits(history[n], key) && history[n].tick.price == candles[key].high;
    k := KeyOf(history[n].tick, fine);
    FineOfTick(intervals, history, key, fine, n);
    CandleIsTraced(intervals, history, k);
    FineInside(intervals, history, key, fine, k);
    hide After, Hits, Divides, First, Final, IsFine, KeyOf;
  }

  lemma LowFound(intervals: seq<Period>, history: seq<Event>, key: CandleKey, fine: Period) returns (k: CandleKey)
    requires Distinct(intervals) && key.interval in intervals && fine in intervals && Divides(fine, key.interval)
    requires key in After(intervals, history).candles
    ensures var candles := After(intervals, history).candles;
      IsFine(candles, key, fine, k) && candles[k].low == candles[key].low
  {
    var candles := After(intervals, history).candles;
    CandleIsTraced(intervals, history, key);
    var n :| 0 <= n < |history| && Hits(history[n], key) && history[n].tick.price == candles[key].low;
    k := KeyOf(history[n].tick, fine);
    FineOfTick(intervals, history, key, fine, n);
    CandleIsTraced(intervals, history, k);
    FineInside(intervals, history, key, fine, k);
    hide After, Hits, Divides, First, Final, IsFine, KeyOf;
  }

  lemma RangeMerges(intervals: seq<Period>, history: seq<Event>, key: CandleKey, fine: Period)
    requires Distinct(intervals) && key.interval in intervals && fine in intervals && Divides(fine, key.interval)
    requires key in After(intervals, history).candles
    ensures MergesRange(After(intervals, history).candles, key, fine)
  {
    var candles := After(intervals, history).candles;
    forall k | IsFine(candles, key, fine, k)
      ensures candles[k].high <= candles[key].high && candles[key].low <= candles[k].low
    {
      FineInside(intervals, history, key, fine, k);
    }
    var h := HighFound(intervals, history, key, fine);
    var l := LowFound(intervals, history, key, fine);
    hide After, Divides;
  }

  lemma VolumeMerges(intervals: seq<Period>, history: seq<Event>, key: CandleKey, fine: Period)
    requires Distinct(intervals) && key.interval in intervals && fine in intervals && Divides(fine, key.interval)
    requires key in After(intervals, history).candles
    ensures After(intervals, history).candles[key].volume
         == Total(Volumes(After(intervals, history).candles, key.feed, fine, s => Align(s, key.interval) == key.start))
  {
    var inside := s => Align(s, key.interval) == key.start;
    CandleIsFold(intervals, history, key);
    VolumeIsFlow(intervals, history, key.feed, fine, inside);
    PrintsFlow(history, key, fine, inside);
    hide After, Divides, Align;
  }

  lemma {:induction false} PrintsFlow(history: seq<Event>, key: CandleKey, fine: Period, inside: int -> bool)
    requires Divides(fine, key.interval) && forall s :: inside(s) <==> Align(s, key.interval) == key.start
    ensures VolumeOf(Prints(history, key)) == FlowIn(history, key.feed, fine, inside)
    decreases |history|
  {
    if history != [] {
      var init, event := history[..|history| - 1], history[|history| - 1];
      PrintsFlow(init, key, fine, inside);
      if event.Quoted? {
        HitsNest(event, key, fine);
      }
      hide Divides, Hits, Align, Inflow, LastCumulative;
      if Hits(event, key) {
        QuotedHits(event, key);
        var more := Prints(history, key);
        assert more[..|more| - 1] == Prints(init, key);
      } else {
        assert Prints(history, key) == Prints(init, key);
      }
    }
  }

  /** In order, a coarse candle opens with the open of its earliest fine candle and closes with the close of its latest. */
  lemma EndsMerge(intervals: seq<Period>, history: seq<Event>, key: CandleKey, fine: Period)
    requires Distinct(intervals) && key.interval in intervals && fine in intervals && Divides(fine, key.interval)
    requires InOrder(history, key.feed) && key in After(intervals, history).candles
    ensures var candles := After(intervals, history).candles;
      && (forall k :: IsFine(candles, key, fine, k) && (forall k2 :: IsFine(candles, key, fine, k2) ==> k.start <= k2.start)
            ==> candles[k].open == candles[key].open)
      && (forall k :: IsFine(candles, key, fine, k) && (forall k2 :: IsFine(candles, key, fine, k2) ==> k2.start <= k.start)
            ==> candles[k].close == candles[key].close)
  {
    var candles := After(intervals, history).candles;
    CandleIsTraced(intervals, history, key);
    var o :| First(history, key, o) && history[o].tick.price == candles[key].open;
    var f :| Final(history, key, f) && history[f].tick.price == candles[key].close;
    forall k | IsFine(candles, key, fine, k) && (forall k2 :: IsFine(candles, key, fine, k2) ==> k.start <= k2.start)
      ensures candles[k].open == candles[key].open
    {
      FineOfTick(intervals, history, key, fine, o);
      OpensMerge(intervals, history, key, fine, k, o);
    }
    forall k | IsFine(candles, key, fine, k) && (forall k2 :: IsFine(candles, key, fine, k2) ==> k2.start <= k.start)
      ensures candles[k].close == candles[key].close
    {
      FineOfTick(intervals, history, key, fine, f);
      ClosesMerge(intervals, history, key, fine, k, f);
    }
    hide After, IsFine, First, Final, Traced;
  }

  lemma TimesRise(history: seq<Event>, key: CandleKey, m: nat, n: nat)
    requires InOrder(history, key.feed) && m < n < |history| && Hits(history[m], key) && Hits(history[n], key)
    ensures history[m].tick.time <= history[n].tick.time
  {
    hide Bucket;
  }

  lemma OpensMerge(intervals: seq<Period>, history: seq<Event>, key: CandleKey, fine: Period, k: CandleKey, o: int)
    requires Distinct(intervals) && key.interval in intervals && fine in intervals && Divides(fine, key.interval)
    requires InOrder(history, key.feed) && key in After(intervals, history).candles
    requires First(history, key, o) && IsFine(After(intervals, history).candles, key, fine, k)
    requires k.start <= Bucket(history[o].tick.time, fine)
    ensures After(intervals, history).candles[k].open == history[o].tick.price
  {
    CandleIsTraced(intervals, history, k);
    hide After, IsFine, Divides, Bucket, Align;
    var candles := After(intervals, history).candles;
    var n :| First(history, k, n) && history[n].tick.price == candles[k].open;
    hide Traced, InOrder;
    TickOfFine(intervals, history, key, fine, k, n);
    FineOfTick(intervals, history, key, fine, o);
    assert o <= n;
    SameFine(history, k, fine, o, n);
    if o < n {
      TimesRise(history, key, o, n);
      BucketMonotone(history[o].tick.time, history[n].tick.time, fine);
    }
  }

  /** Two quotes of one feed in the same bucket hit the same candle. */
  lemma SameFine(history: seq<Event>, k: CandleKey, fine: Period, m: nat, n: nat)
    requires m < |history| && n < |history| && Hits(history[n], k) && k.interval == fine && From(history[m], k.feed)
    ensures Bucket(history[m].tick.time, fine) == Bucket(history[n].tick.time, fine) ==> Hits(history[m], k)
  {
    hide Bucket;
  }

  lemma ClosesMerge(intervals: seq<Period>, history: seq<Event>, key: CandleKey, fine: Period, k: CandleKey, f: int)
    requires Distinct(intervals) && key.interval in intervals && fine in intervals && Divides(fine, key.interval)
    requires InOrder(history, key.feed) && key in After(intervals, history).candles
    requires Final(history, key, f) && IsFine(After(intervals, history).candles, key, fine, k)
    requires Bucket(history[f].tick.time, fine) <= k.start
    ensures After(intervals, history).candles[k].close == history[f].tick.price
  {
    CandleIsTraced(intervals, history, k);
    hide After, IsFine, Divides, Bucket, Align;
    var candles := After(intervals, history).candles;
    var n :| Final(history, k, n) && history[n].tick.price == candles[k].close;
    hide Traced, InOrder;
    TickOfFine(intervals, history, key, fine, k, n);
    FineOfTick(intervals, history, key, fine, f);
    assert n <= f;
    SameFine(history, k, fine, f, n);
    if n < f {
      TimesRise(history, key, n, f);
      BucketMonotone(history[n].tick.time, history[f].tick.time, fine);
    }
  }
}
