/** A completed candle never changes while a feed's timestamps do not go back. */
module Repaint {
  import opened Candles

  predicate From(event: Event, feed: Feed) {
    event.Quoted? && event.tick.feed == feed
  }

  predicate InOrder(history: seq<Event>, feed: Feed) {
    forall i, j :: 0 <= i < j < |history| && From(history[i], feed) && From(history[j], feed) ==>
      history[i].tick.time <= history[j].tick.time
  }

  lemma {:induction false} PrintsHit(history: seq<Event>, key: CandleKey)
    ensures Prints(history, key) != [] <==> exists i :: 0 <= i < |history| && Hits(history[i], key)
    decreases |history|
  {
    if history != [] {
      var init, event := history[..|history| - 1], history[|history| - 1];
      PrintsHit(init, key);
      hide Hits;
      if exists i :: 0 <= i < |init| && Hits(init[i], key) {
        var i :| 0 <= i < |init| && Hits(init[i], key);
        assert Hits(history[i], key);
      }
      if Hits(event, key) {
        assert Prints(history, key)[|Prints(init, key)|].price == event.tick.price by { assert event.Quoted? by { QuotedHits(event, key); } }
      } else if exists i :: 0 <= i < |history| && Hits(history[i], key) {
        var i :| 0 <= i < |history| && Hits(history[i], key);
        assert Hits(init[i], key);
      }
    }
  }

  lemma QuotedHits(event: Event, key: CandleKey)
    requires Hits(event, key)
    ensures event.Quoted?
  {
  }

  lemma AlignMonotone(a: int, b: int, interval: Period)
    requires a <= b
    ensures Align(a, interval) <= Align(b, interval)
  {
    var p, q := a / interval, b / interval;
    assert Align(a, interval) == p * interval && Align(b, interval) == q * interval;
    if p > q {
      TimesMonotone(q + 1, p, interval);
    } else {
      TimesMonotone(p, q, interval);
    }
  }

  lemma TimesMonotone(p: int, q: int, interval: Period)
    requires p <= q
    ensures p * interval <= q * interval
  {
    assert (q - p) * interval >= 0;
  }

  lemma BucketMonotone(s: real, t: real, interval: Period)
    requires s <= t
    ensures Bucket(s, interval) <= Bucket(t, interval)
  {
    AlignMonotone(Epoch(s), Epoch(t), interval);
    hide Align;
  }

  /** A candle is completed only by a later one of its series. */
  lemma {:induction false} CompleteHasLater(intervals: seq<Period>, history: seq<Event>, key: CandleKey)
    requires Distinct(intervals) && key.interval in intervals
    requires key in After(intervals, history).candles && After(intervals, history).candles[key].complete
    ensures exists later :: later in After(intervals, history).candles && Before(key, later)
    decreases |history|
  {
    var init, event := history[..|history| - 1], history[|history| - 1];
    var book := After(intervals, init);
    if event.Quoted? {
      var t, delta := event.tick, Delta(book.last, event.tick);
      var touched := KeyOf(t, key.interval);
      PutAllAt(book.candles, intervals, t, delta, key);
      PutAllAt(book.candles, intervals, t, delta, touched);
      hide PutAll, Delta;
      if key in book.candles && book.candles[key].complete {
        CompleteHasLater(intervals, init, key);
        var later :| later in book.candles && Before(key, later);
        PutAllAt(book.candles, intervals, t, delta, later);
      } else {
        assert touched in After(intervals, history).candles && Before(key, touched);
      }
    } else {
      CompleteHasLater(intervals, init, key);
    }
  }

  /** A candle on the table was quoted. */
  lemma OnTable(intervals: seq<Period>, history: seq<Event>, key: CandleKey)
    requires Distinct(intervals) && key.interval in intervals
    ensures key in After(intervals, history).candles <==> exists i :: 0 <= i < |history| && Hits(history[i], key)
  {
    CandleIsFold(intervals, history, key);
    PrintsHit(history, key);
    hide After, Prints, Hits, Shows;
  }

  /** One more quote rewrites a completed candle exactly when it falls into its bucket, and then it is older than a
      quote of the feed that came before it. */
  lemma RepaintExactly(intervals: seq<Period>, history: seq<Event>, t: Tick, key: CandleKey)
    requires Distinct(intervals) && key.interval in intervals
    requires key in After(intervals, history).candles && After(intervals, history).candles[key].complete
    ensures var c := After(intervals, history).candles[key];
      var after := After(intervals, history + [Quoted(t)]).candles;
      key in after && after[key]
        == if Hits(Quoted(t), key) then Merged(c, t, Delta(After(intervals, history).last, t)) else c
    ensures Hits(Quoted(t), key) ==>
      exists i :: 0 <= i < |history| && From(history[i], t.feed) && history[i].tick.time > t.time
  {
    var book := After(intervals, history);
    assert (history + [Quoted(t)])[..|history|] == history;
    PutAllAt(book.candles, intervals, t, Delta(book.last, t), key);
    if Hits(Quoted(t), key) {
      CompleteHasLater(intervals, history, key);
      var later :| later in book.candles && Before(key, later);
      OnTable(intervals, history, later);
      var i :| 0 <= i < |history| && Hits(history[i], later);
      if history[i].tick.time <= t.time {
        BucketMonotone(history[i].tick.time, t.time, key.interval);
        assert false;
      }
    }
  }

  lemma InOrderPrefix(history: seq<Event>, n: nat, feed: Feed)
    requires n <= |history| && InOrder(history, feed)
    ensures InOrder(history[..n], feed)
  {
  }

  /** Main result: once complete, a candle keeps its open, high, low, close and volume for ever. */
  lemma {:induction false} NoRepaint(intervals: seq<Period>, history: seq<Event>, later: seq<Event>, key: CandleKey)
    requires Distinct(intervals) && key.interval in intervals && InOrder(history + later, key.feed)
    requires key in After(intervals, history).candles && After(intervals, history).candles[key].complete
    ensures key in After(intervals, history + later).candles
    ensures After(intervals, history + later).candles[key] == After(intervals, history).candles[key]
    decreases |later|
  {
    if later == [] {
      assert history + later == history;
    } else {
      var n, event := |later| - 1, later[|later| - 1];
      var before := history + later[..n];
      assert before == (history + later)[..|history + later| - 1];
      InOrderPrefix(history + later, |before|, key.feed);
      NoRepaint(intervals, history, later[..n], key);
      assert history + later == before + [event];
      if event.Quoted? {
        RepaintExactly(intervals, before, event.tick, key);
        hide PutAll, After;
        assert forall i :: 0 <= i < |before| ==> (history + later)[i] == before[i];
        assert (history + later)[|before|] == event;
      }
    }
  }

  /** In order, exactly the candles with a later one in their series are complete. */
  lemma {:induction false} CompleteExactly(intervals: seq<Period>, history: seq<Event>, key: CandleKey)
    requires Distinct(intervals) && key.interval in intervals && InOrder(history, key.feed)
    requires key in After(intervals, history).candles
    ensures After(intervals, history).candles[key].complete
       <==> exists later :: later in After(intervals, history).candles && Before(key, later)
    decreases |history|
  {
    var candles := After(intervals, history).candles;
    if candles[key].complete {
      CompleteHasLater(intervals, history, key);
    } else if exists later :: later in candles && Before(key, later) {
      var later :| later in candles && Before(key, later);
      LaterCompletes(intervals, history, key, later);
    }
  }

  lemma {:induction false} LaterCompletes(intervals: seq<Period>, history: seq<Event>, key: CandleKey, later: CandleKey)
    requires Distinct(intervals) && key.interval in intervals && InOrder(history, key.feed)
    requires key in After(intervals, history).candles && later in After(intervals, history).candles && Before(key, later)
    ensures After(intervals, history).candles[key].complete
    decreases |history|
  {
    var init, event := history[..|history| - 1], history[|history| - 1];
    InOrderPrefix(history, |history| - 1, key.feed);
    var book := After(intervals, init);
    if event.Quoted? {
      var t, delta := event.tick, Delta(book.last, event.tick);
      PutAllAt(book.candles, intervals, t, delta, key);
      PutAllAt(book.candles, intervals, t, delta, later);
      if later in book.candles {
        OnTable(intervals, init, later);
        if key == KeyOf(t, key.interval) {
          var i :| 0 <= i < |init| && Hits(init[i], later);
          assert history[i] == init[i];
          BucketMonotone(init[i].tick.time, t.time, key.interval);
          assert false;
        } else {
          LaterCompletes(intervals, init, key, later);
        }
      } else {
        assert later == KeyOf(t, key.interval);
      }
    } else {
      LaterCompletes(intervals, init, key, later);
    }
  }

  /** Without the order it does: after one quote of a bucket and one of a later bucket, a third that comes late for the first
      changes the close of its completed candle. */
  lemma LateQuoteRepaints(interval: Period, first: Tick, second: Tick, late: Tick)
    requires first.feed == second.feed == late.feed && KeyOf(late, interval) == KeyOf(first, interval)
    requires Bucket(first.time, interval) < Bucket(second.time, interval)
    ensures var key, history := KeyOf(first, interval), [Quoted(first), Quoted(second)];
      var before, after := After([interval], history).candles, After([interval], history + [Quoted(late)]).candles;
      && key in before && before[key].complete && before[key].close == first.price
      && key in after && after[key].complete && after[key].close == late.price
  {
    var key, history := KeyOf(first, interval), [Quoted(first), Quoted(second)];
    StepAt([interval], [], first, key);
    StepAt([interval], [], first, KeyOf(second, interval));
    StepAt([interval], [Quoted(first)], second, key);
    StepAt([interval], history, late, key);
    assert [] + [Quoted(first)] == [Quoted(first)] && [Quoted(first)] + [Quoted(second)] == history;
    assert After([interval], []).candles == map[];
    hide After, Delta, Bucket;
  }

  /** `PutAllAt`, over a history. */
  lemma StepAt(intervals: seq<Period>, history: seq<Event>, t: Tick, key: CandleKey)
    requires Distinct(intervals) && key.interval in intervals
    ensures var candles, after := After(intervals, history).candles, After(intervals, history + [Quoted(t)]).candles;
      var touched, delta := KeyOf(t, key.interval), Delta(After(intervals, history).last, t);
      if key == touched then
        key in after && after[key] == if key in candles then Merged(candles[key], t, delta) else Opened(t, delta)
      else
        && (key in after <==> key in candles)
        && (key in candles ==>
              after[key] == if Before(key, touched) && touched !in candles then candles[key].(complete := true)
                            else candles[key])
  {
    var book := After(intervals, history);
    assert (history + [Quoted(t)])[..|history|] == history;
    PutAllAt(book.candles, intervals, t, Delta(book.last, t), key);
    hide PutAll, Delta, Bucket, Merged, Opened;
  }
}
