/** Quotes folded into candles at several intervals (backend/app/market/candles.py). */
module Candles {
  import opened Options

  type Period = n: int | 0 < n witness 1

  datatype Feed = Feed(user: string, instrument: string)
  datatype Tick = Tick(feed: Feed, time: real, price: real, volume: Option<real>, openInterest: Option<real>, source: string)

  /** The worker ingests a quote, or starts anew with its volume memory empty and the candle table as it was. */
  datatype Event = Quoted(tick: Tick) | Restarted

  datatype CandleKey = CandleKey(feed: Feed, interval: Period, start: int)
  datatype Candle = Candle(
    open: real, high: real, low: real, close: real, volume: real, openInterest: Option<real>, source: string,
    complete: bool)
  datatype Book = Book(last: map<Feed, real>, candles: map<CandleKey, Candle>)

  function Lower(a: real, b: real): real {
    if a <= b then a else b
  }

  function Higher(a: real, b: real): real {
    if a >= b then a else b
  }

  /** Seconds since 1970, truncated towards zero. */
  function Epoch(t: real): int {
    if t >= 0.0 then t.Floor else -((-t).Floor)
  }

  function Align(e: int, interval: Period): int {
    e - e % interval
  }

  function Bucket(t: real, interval: Period): int {
    Align(Epoch(t), interval)
  }

  function KeyOf(t: Tick, interval: Period): CandleKey {
    CandleKey(t.feed, interval, Bucket(t.time, interval))
  }

  // ---------------------------------------------------------------- ingestion

  function Cumulative(t: Tick): real {
    if t.volume.Some? then t.volume.value else 0.0
  }

  function Delta(last: map<Feed, real>, t: Tick): real {
    var previous := if t.feed in last then last[t.feed] else Cumulative(t);
    if Cumulative(t) >= previous then Higher(0.0, Cumulative(t) - previous) else 0.0
  }

  function Opened(t: Tick, delta: real): Candle {
    Candle(t.price, t.price, t.price, t.price, delta, t.openInterest, t.source, false)
  }

  function Merged(c: Candle, t: Tick, delta: real): Candle {
    c.(high := Higher(c.high, t.price), low := Lower(c.low, t.price), close := t.price, volume := c.volume + delta,
       openInterest := t.openInterest, source := t.source)
  }

  predicate Before(a: CandleKey, b: CandleKey) {
    a.feed == b.feed && a.interval == b.interval && a.start < b.start
  }

  function CompleteBefore(candles: map<CandleKey, Candle>, key: CandleKey): map<CandleKey, Candle> {
    map k | k in candles :: if Before(k, key) then candles[k].(complete := true) else candles[k]
  }

  function Put(candles: map<CandleKey, Candle>, key: CandleKey, t: Tick, delta: real): map<CandleKey, Candle> {
    if key in candles then candles[key := Merged(candles[key], t, delta)]
    else CompleteBefore(candles, key)[key := Opened(t, delta)]
  }

  function PutAll(candles: map<CandleKey, Candle>, intervals: seq<Period>, t: Tick, delta: real): map<CandleKey, Candle> {
    if intervals == [] then candles
    else
      var n := |intervals| - 1;
      Put(PutAll(candles, intervals[..n], t, delta), KeyOf(t, intervals[n]), t, delta)
  }

  function Step(intervals: seq<Period>, book: Book, event: Event): Book {
    match event
    case Quoted(t) =>
      Book(book.last[t.feed := Cumulative(t)], PutAll(book.candles, intervals, t, Delta(book.last, t)))
    case Restarted => book.(last := map[])
  }

  function After(intervals: seq<Period>, history: seq<Event>): Book {
    if history == [] then Book(map[], map[])
    else Step(intervals, After(intervals, history[..|history| - 1]), history[|history| - 1])
  }

  /** Configured intervals are a sorted set. */
  predicate Distinct(intervals: seq<Period>) {
    forall i, j :: 0 <= i < j < |intervals| ==> intervals[i] != intervals[j]
  }

  /** What one quote does to one candle, by that candle's interval alone. */
  lemma {:induction false} PutAllAt(candles: map<CandleKey, Candle>, intervals: seq<Period>, t: Tick, delta: real, key: CandleKey)
    requires Distinct(intervals)
    ensures var after, touched := PutAll(candles, intervals, t, delta), KeyOf(t, key.interval);
      if key.interval !in intervals then (key in after <==> key in candles) && (key in candles ==> after[key] == candles[key])
      else if key == touched then
        key in after && after[key] == if key in candles then Merged(candles[key], t, delta) else Opened(t, delta)
      else
        && (key in after <==> key in candles)
        && (key in candles ==>
              after[key] == if Before(key, touched) && touched !in candles then candles[key].(complete := true)
                            else candles[key])
    decreases |intervals|
  {
    if intervals != [] {
      var n := |intervals| - 1;
      PutAllAt(candles, intervals[..n], t, delta, key);
      PutAllAt(candles, intervals[..n], t, delta, KeyOf(t, intervals[n]));
      assert intervals == intervals[..n] + [intervals[n]];
      hide Bucket, Merged, Opened;
    }
  }

  // ---------------------------------------------------------------- what a candle is, told from the quotes alone

  /** The cumulative volume last seen on a feed since the worker started. */
  function LastCumulative(history: seq<Event>, feed: Feed): Option<real> {
    if history == [] then None
    else
      match history[|history| - 1]
      case Restarted => None
      case Quoted(t) => if t.feed == feed then Some(Cumulative(t)) else LastCumulative(history[..|history| - 1], feed)
  }

  /** Volume traded between the previous quote of the feed and this one. */
  function Inflow(history: seq<Event>, t: Tick): real {
    match LastCumulative(history, t.feed)
    case None => 0.0
    case Some(previous) => Higher(0.0, Cumulative(t) - previous)
  }

  datatype Print = Print(price: real, volume: real, openInterest: Option<real>, source: string)

  predicate Hits(event: Event, key: CandleKey) {
    event.Quoted? && KeyOf(event.tick, key.interval) == key
  }

  /** The quotes of a candle's bucket, in the order they came. */
  function Prints(history: seq<Event>, key: CandleKey): seq<Print> {
    if history == [] then []
    else
      var init, event := history[..|history| - 1], history[|history| - 1];
      Prints(init, key)
      + if Hits(event, key)
        then [Print(event.tick.price, Inflow(init, event.tick), event.tick.openInterest, event.tick.source)] else []
  }

  function VolumeOf(prints: seq<Print>): real {
    if prints == [] then 0.0 else VolumeOf(prints[..|prints| - 1]) + prints[|prints| - 1].volume
  }

  predicate Shows(c: Candle, prints: seq<Print>) {
    && prints != []
    && c.open == prints[0].price
    && c.close == prints[|prints| - 1].price
    && (forall i :: 0 <= i < |prints| ==> c.low <= prints[i].price <= c.high)
    && (exists i :: 0 <= i < |prints| && prints[i].price == c.high)
    && (exists i :: 0 <= i < |prints| && prints[i].price == c.low)
    && c.volume == VolumeOf(prints)
    && c.openInterest == prints[|prints| - 1].openInterest
    && c.source == prints[|prints| - 1].source
  }

  lemma MergedShows(c: Candle, prints: seq<Print>, t: Tick, delta: real)
    requires Shows(c, prints)
    ensures Shows(Merged(c, t, delta), prints + [Print(t.price, delta, t.openInterest, t.source)])
  {
    var more := prints + [Print(t.price, delta, t.openInterest, t.source)];
    assert more[..|prints|] == prints;
    var h :| 0 <= h < |prints| && prints[h].price == c.high;
    var l :| 0 <= l < |prints| && prints[l].price == c.low;
    assert more[h].price == c.high && more[l].price == c.low && more[|prints|].price == t.price;
  }

  lemma OpenedShows(t: Tick, delta: real)
    ensures Shows(Opened(t, delta), [Print(t.price, delta, t.openInterest, t.source)])
  {
    var one := [Print(t.price, delta, t.openInterest, t.source)];
    assert one[0].price == t.price && one[..0] == [];
  }

  lemma {:induction false} MemoryIsLast(intervals: seq<Period>, history: seq<Event>, feed: Feed)
    ensures var last := After(intervals, history).last;
      LastCumulative(history, feed) == if feed in last then Some(last[feed]) else None
    decreases |history|
  {
    if history != [] {
      MemoryIsLast(intervals, history[..|history| - 1], feed);
      hide PutAll, Delta;
    }
  }

  lemma DeltaIsInflow(intervals: seq<Period>, history: seq<Event>, t: Tick)
    ensures Delta(After(intervals, history).last, t) == Inflow(history, t) >= 0.0
  {
    MemoryIsLast(intervals, history, t.feed);
    hide After, LastCumulative;
  }

  lemma CompletedShows(c: Candle, prints: seq<Print>)
    requires Shows(c, prints)
    ensures Shows(c.(complete := true), prints)
  {
    hide VolumeOf;
  }

  /** Main result: a candle exists exactly when its bucket was quoted, and it is the first, highest, lowest and last
      price and the traded volume of exactly those quotes, in whatever order the quotes came. */
  lemma {:induction false} CandleIsFold(intervals: seq<Period>, history: seq<Event>, key: CandleKey)
    requires Distinct(intervals) && key.interval in intervals
    ensures var candles, prints := After(intervals, history).candles, Prints(history, key);
      (key in candles <==> prints != []) && (key in candles ==> Shows(candles[key], prints))
    decreases |history|
  {
    if history != [] {
      var init, event := history[..|history| - 1], history[|history| - 1];
      CandleIsFold(intervals, init, key);
      if event.Quoted? {
        FoldStep(intervals, init, event.tick, key);
        assert history == init + [event];
      } else {
        assert Prints(history, key) == Prints(init, key);
        hide Shows, PutAll;
      }
    }
  }

  lemma FoldStep(intervals: seq<Period>, init: seq<Event>, t: Tick, key: CandleKey)
    requires Distinct(intervals) && key.interval in intervals
    requires var candles, prints := After(intervals, init).candles, Prints(init, key);
      (key in candles <==> prints != []) && (key in candles ==> Shows(candles[key], prints))
    ensures var candles, prints := After(intervals, init + [Quoted(t)]).candles, Prints(init + [Quoted(t)], key);
      (key in candles <==> prints != []) && (key in candles ==> Shows(candles[key], prints))
  {
    var candles, prints, delta := After(intervals, init).candles, Prints(init, key), Inflow(init, t);
    var history := init + [Quoted(t)];
    assert history[..|history| - 1] == init;
    DeltaIsInflow(intervals, init, t);
    assert After(intervals, history).candles == PutAll(candles, intervals, t, delta);
    PutAllAt(candles, intervals, t, delta, key);
    hide After, PutAll, Shows, Inflow, Merged, Opened;
    if key != KeyOf(t, key.interval) {
      assert Prints(history, key) == prints;
      if key in candles {
        CompletedShows(candles[key], prints);
      }
    } else {
      assert Prints(history, key) == prints + [Print(t.price, delta, t.openInterest, t.source)];
      if key in candles {
        MergedShows(candles[key], prints, t, delta);
      } else {
        OpenedShows(t, delta);
      }
    }
  }

  // ---------------------------------------------------------------- the aggregator itself

  /** The aggregator's memory and the candle table its session writes. */
  class CandleAggregator {
    const intervals: seq<Period>
    var lastVolume: map<Feed, real>
    var candles: map<CandleKey, Candle>

    function Contents(): Book
      reads this
    {
      Book(lastVolume, candles)
    }

    constructor (intervals: seq<Period>, stored: map<CandleKey, Candle>)
      ensures this.intervals == intervals && Contents() == Book(map[], stored)
    {
      this.intervals := intervals;
      lastVolume, candles := map[], stored;
    }

    method Ingest(t: Tick)
      modifies this
      ensures Contents() == Step(intervals, old(Contents()), Quoted(t))
    {
      var cumulative := if t.volume.Some? then t.volume.value else 0.0;
      var previous := if t.feed in lastVolume then lastVolume[t.feed] else cumulative;
      var delta := if cumulative >= previous then Higher(0.0, cumulative - previous) else 0.0;
      lastVolume := lastVolume[t.feed := cumulative];
      var n := 0;
      while n < |intervals|
        invariant 0 <= n <= |intervals|
        invariant lastVolume == old(lastVolume)[t.feed := cumulative]
        invariant candles == PutAll(old(candles), intervals[..n], t, delta)
      {
        var key := CandleKey(t.feed, intervals[n], Bucket(t.time, intervals[n]));
        if key !in candles {
          candles := CompleteBefore(candles, key);
          candles := candles[key := Opened(t, delta)];
        } else {
          var candle := candles[key];
          candle := candle.(high := Higher(candle.high, t.price), low := Lower(candle.low, t.price), close := t.price);
          candle := candle.(volume := candle.volume + delta, openInterest := t.openInterest, source := t.source);
          candles := candles[key := candle];
        }
        assert intervals[..n + 1][..n] == intervals[..n];
        n := n + 1;
      }
      assert intervals[..n] == intervals;
    }
  }
}
