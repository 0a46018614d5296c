/** Per-key sliding-window limiter (backend/app/rate_limit.py). */
module RateLimit {

  // ---------------------------------------------------------------- from the whole history

  /** Accepted checks of a key that are still inside the window that ends at `now`. */
  function Recent(history: seq<real>, now: real, window: real): seq<real> {
    if history == [] then []
    else
      Recent(history[..|history| - 1], now, window)
      + if history[|history| - 1] > now - window then [history[|history| - 1]] else []
  }

  predicate Allows(history: seq<real>, now: real, limit: int, window: real) {
    |Recent(history, now, window)| < limit
  }

  predicate Sorted(s: seq<real>) {
    forall i, j :: 0 <= i < j < |s| ==> s[i] <= s[j]
  }

  /** Number of accepted checks in a half-open span. */
  function InSpan(history: seq<real>, after: real, upTo: real): nat {
    if history == [] then 0
    else
      InSpan(history[..|history| - 1], after, upTo)
      + if after < history[|history| - 1] <= upTo then 1 else 0
  }

  /** A check is allowed exactly when fewer than the limit of accepted checks lie less than the window's length before it. */
  lemma {:induction false} AllowsExactly(history: seq<real>, now: real, limit: int, window: real)
    requires forall i :: 0 <= i < |history| ==> history[i] <= now
    ensures |Recent(history, now, window)| == InSpan(history, now - window, now)
    ensures Allows(history, now, limit, window) <==> InSpan(history, now - window, now) < limit
  {
    if history != [] {
      AllowsExactly(history[..|history| - 1], now, limit, window);
    }
  }

  // ---------------------------------------------------------------- the pruned queue

  lemma {:induction false} RecentIsSuffix(history: seq<real>, n: nat, now: real, window: real)
    requires n <= |history| && Sorted(history)
    requires forall i :: 0 <= i < n ==> history[i] <= now - window
    requires n < |history| ==> history[n] > now - window
    ensures Recent(history, now, window) == history[n..]
    decreases |history|
  {
    if history != [] {
      var init, last := history[..|history| - 1], history[|history| - 1];
      if n < |history| {
        RecentIsSuffix(init, n, now, window);
        assert history[n..] == init[n..] + [last];
      } else {
        RecentIsSuffix(init, n - 1, now, window);
      }
    }
  }

  /** A queue stands for the accepted history of its key: it is a suffix of it, and nothing that was cut off is newer than
      `cut`. */
  ghost predicate Stands(bucket: seq<real>, history: seq<real>, cut: real, clock: real) {
    && Sorted(history)
    && (forall i :: 0 <= i < |history| ==> history[i] <= clock)
    && |bucket| <= |history|
    && bucket == history[|history| - |bucket|..]
    && forall i :: 0 <= i < |history| - |bucket| ==> history[i] <= cut
  }

  function Later(a: real, b: real): real {
    if a >= b then a else b
  }

  lemma DropFirst(bucket: seq<real>, history: seq<real>, cut: real, clock: real)
    requires Stands(bucket, history, cut, clock) && bucket != [] && bucket[0] <= cut
    ensures Stands(bucket[1..], history, cut, clock)
  {
  }

  lemma Accept(bucket: seq<real>, history: seq<real>, cut: real, now: real)
    requires Stands(bucket, history, cut, now)
    ensures Stands(bucket + [now], history + [now], cut, now)
  {
    var n := |history| - |bucket|;
    assert (history + [now])[n..] == history[n..] + [now];
  }

  /** Once its old entries are dropped the queue is exactly what the window counts. */
  lemma CountsRecent(bucket: seq<real>, history: seq<real>, cut: real, now: real, window: real)
    requires Stands(bucket, history, cut, now) && cut <= now - window && (bucket != [] ==> bucket[0] > now - window)
    ensures |bucket| == |Recent(history, now, window)|
  {
    RecentIsSuffix(history, |history| - |bucket|, now, window);
    hide Recent;
  }

  lemma StandsOn(bucket: seq<real>, history: seq<real>, cut: real, clock: real, cut2: real, now: real)
    requires Stands(bucket, history, cut, clock) && cut <= cut2 && clock <= now
    ensures Stands(bucket, history, cut2, now)
  {
  }

  lemma Fresh(cut: real, now: real)
    ensures Stands([], [], cut, now)
  {
  }

  /** The limiter: one queue of accepted times per key, and the whole accepted history it stands for. */
  class RateLimiter {
    var events: map<string, seq<real>>
    ghost var history: map<string, seq<real>>
    ghost var cuts: map<string, real>
    ghost var clock: real

    ghost predicate Valid()
      reads this
    {
      && events.Keys == history.Keys == cuts.Keys
      && forall k :: k in events ==> Stands(events[k], history[k], cuts[k], clock)
    }

    ghost function Accepted(key: string): seq<real>
      reads this
    {
      if key in history then history[key] else []
    }

    /** Nothing was thrown away that a window reaching back to `since` would count. */
    ghost predicate Remembers(key: string, since: real)
      reads this
    {
      key in cuts ==> cuts[key] <= since
    }

    constructor ()
      ensures Valid() && events == map[]
      ensures (forall key :: Accepted(key) == []) && forall key, since :: Remembers(key, since)
    {
      events, history, cuts, clock := map[], map[], map[], 0.0;
    }

    /** Accepts exactly when the whole accepted history would, however much of it was thrown away; a key that is always
        checked with the same window never forgets too much. */
    method Check(key: string, limit: int, window: real, now: real) returns (ok: bool)
      requires Valid() && now >= clock
      modifies this
      ensures Valid() && clock == now
      ensures old(Remembers(key, now - window)) ==> ok == old(Allows(Accepted(key), now, limit, window))
      ensures old(Remembers(key, now - window)) ==> Remembers(key, now - window)
      ensures Accepted(key) == if ok then old(Accepted(key)) + [now] else old(Accepted(key))
      ensures forall other :: other != key ==> Accepted(other) == old(Accepted(other))
      ensures cuts - {key} == old(cuts) - {key}
    {
      hide Stands, Recent, Sorted;
      var bucket := if key in events then events[key] else [];
      ghost var past, cut := Accepted(key), if key in cuts then Later(cuts[key], now - window) else now - window;
      if key in events {
        StandsOn(bucket, past, cuts[key], clock, cut, now);
      } else {
        Fresh(cut, now);
      }
      Advance(now);
      while bucket != [] && bucket[0] <= now - window
        invariant Stands(bucket, past, cut, now)
        modifies {}
        decreases |bucket|
      {
        DropFirst(bucket, past, cut, now);
        bucket := bucket[1..];
      }
      ok := |bucket| < limit;
      if cut <= now - window {
        CountsRecent(bucket, past, cut, now, window);
      }
      if ok {
        Accept(bucket, past, cut, now);
        bucket := bucket + [now];
      }
      Store(key, bucket, if ok then past + [now] else past, cut);
    }

    /** A new limiter under any sequence of checks of any keys, with one limit and one window: it accepts exactly what the rule
        over whole histories admits, so every span is within the limit. */
    method CheckAll(requests: seq<Request>, limit: int, window: real) returns (answers: seq<bool>)
      requires Valid() && events == map[]
      requires InTurn(requests) && (requests != [] ==> clock <= requests[0].time)
      modifies this
      ensures Valid() && |answers| == |requests|
      ensures forall key :: Accepted(key) == Admitted(requests, key, limit, window)
      ensures forall key, after, upTo :: limit >= 0 && upTo == after + window ==> InSpan(Accepted(key), after, upTo) <= limit
    {
      hide Allows, InSpan;
      answers := [];
      for n := 0 to |requests|
        invariant Valid() && |answers| == n
        invariant n > 0 ==> clock == requests[n - 1].time
        invariant n == 0 && requests != [] ==> clock <= requests[0].time
        invariant forall key :: Accepted(key) == Admitted(requests[..n], key, limit, window)
        invariant forall key :: key in cuts ==> cuts[key] <= clock - window
      {
        label L:
        var r := requests[n];
        assert requests[..n + 1][..n] == requests[..n];
        var ok := Check(r.key, limit, window, r.time);
        answers := answers + [ok];
        forall k | k in cuts
          ensures cuts[k] <= clock - window
        {
          assert k != r.key ==> k in cuts - {r.key} && (cuts - {r.key})[k] == cuts[k];
          assert k != r.key ==> k in old@L(cuts) - {r.key};
        }
        forall key
          ensures Accepted(key) == Admitted(requests[..n + 1], key, limit, window)
        {
          assert old@L(Accepted(key)) == Admitted(requests[..n], key, limit, window);
        }
      }
      assert requests[..|requests|] == requests;
      forall key, after, upTo | limit >= 0 && upTo == after + window
        ensures InSpan(Accepted(key), after, upTo) <= limit
      {
        EverySpanIsLimited(requests, key, limit, window, after);
      }
    }

    ghost method Advance(now: real)
      requires Valid() && now >= clock
      modifies this`clock
      ensures Valid() && clock == now
    {
      hide Stands;
      forall k | k in events
        ensures Stands(events[k], history[k], cuts[k], now)
      {
        StandsOn(events[k], history[k], cuts[k], clock, cuts[k], now);
      }
      clock := now;
    }

    method Store(key: string, bucket: seq<real>, ghost past: seq<real>, ghost cut: real)
      requires Valid() && Stands(bucket, past, cut, clock)
      modifies this`events, this`history, this`cuts
      ensures Valid() && history == old(history)[key := past] && cuts == old(cuts)[key := cut]
    {
      hide Stands;
      events, history, cuts := events[key := bucket], history[key := past], cuts[key := cut];
    }
  }

  // ---------------------------------------------------------------- every window

  /** A history in which every check was allowed by the ones before it. */
  ghost predicate AllAllowed(history: seq<real>, limit: int, window: real) {
    forall i :: 0 <= i < |history| ==> Allows(history[..i], history[i], limit, window)
  }

  /** Accepted checks keep a history in which every check was allowed. */
  lemma AllowedGrows(history: seq<real>, now: real, limit: int, window: real)
    requires AllAllowed(history, limit, window) && Allows(history, now, limit, window)
    ensures AllAllowed(history + [now], limit, window)
  {
    forall i | 0 <= i < |history + [now]|
      ensures Allows((history + [now])[..i], (history + [now])[i], limit, window)
    {
      assert (history + [now])[..i] == history[..i];
      assert history[..|history|] == history;
    }
    hide Allows;
  }

  lemma {:induction false} SpanWithinRecent(history: seq<real>, after: real, upTo: real, now: real, window: real)
    requires after >= now - window
    ensures InSpan(history, after, upTo) <= |Recent(history, now, window)|
    decreases |history|
  {
    if history != [] {
      SpanWithinRecent(history[..|history| - 1], after, upTo, now, window);
    }
  }

  lemma OneMoreInSpan(init: seq<real>, last: real, after: real, upTo: real)
    ensures InSpan(init + [last], after, upTo) == InSpan(init, after, upTo) + if after < last <= upTo then 1 else 0
  {
    assert (init + [last])[..|init|] == init;
  }

  lemma AllowedBefore(history: seq<real>, limit: int, window: real)
    requires history != [] && AllAllowed(history, limit, window)
    ensures AllAllowed(history[..|history| - 1], limit, window)
    ensures Allows(history[..|history| - 1], history[|history| - 1], limit, window)
  {
    hide Allows;
    var init := history[..|history| - 1];
    assert forall i :: 0 <= i < |init| ==> init[..i] == history[..i];
  }

  lemma {:induction false} SpanOfAllowed(history: seq<real>, limit: int, window: real, after: real)
    requires limit >= 0 && AllAllowed(history, limit, window)
    ensures InSpan(history, after, after + window) <= limit
    decreases |history|
  {
    if history != [] {
      var n := |history| - 1;
      var init, last := history[..n], history[n];
      AllowedBefore(history, limit, window);
      hide AllAllowed;
      SpanOfAllowed(init, limit, window, after);
      assert history == init + [last];
      OneMoreInSpan(init, last, after, after + window);
      hide InSpan, Recent;
      if after < last <= after + window {
        SpanWithinRecent(init, after, after + window, last, window);
      }
    }
  }

  // ---------------------------------------------------------------- every sequence of checks

  datatype Request = Request(key: string, time: real)

  predicate InTurn(requests: seq<Request>) {
    forall i, j :: 0 <= i < j < |requests| ==> requests[i].time <= requests[j].time
  }

  /** The times at which a key is accepted, by the rule that counts its whole accepted history. */
  function Admitted(requests: seq<Request>, key: string, limit: int, window: real): seq<real> {
    if requests == [] then []
    else
      var history, last := Admitted(requests[..|requests| - 1], key, limit, window), requests[|requests| - 1];
      if last.key == key && Allows(history, last.time, limit, window) then history + [last.time] else history
  }

  lemma {:induction false} AdmittedIsAllowed(requests: seq<Request>, key: string, limit: int, window: real)
    ensures AllAllowed(Admitted(requests, key, limit, window), limit, window)
    decreases |requests|
  {
    hide Allows, AllAllowed;
    if requests == [] {
      NothingIsAllowed(limit, window);
    } else {
      var history, last := Admitted(requests[..|requests| - 1], key, limit, window), requests[|requests| - 1];
      AdmittedIsAllowed(requests[..|requests| - 1], key, limit, window);
      if last.key == key && Allows(history, last.time, limit, window) {
        AllowedGrows(history, last.time, limit, window);
      }
    }
  }

  lemma NothingIsAllowed(limit: int, window: real)
    ensures AllAllowed([], limit, window)
  {
  }

  /** Main result: whatever is checked, no span of the window's length anywhere in time holds more than `limit` accepted
      checks of one key. */
  lemma EverySpanIsLimited(requests: seq<Request>, key: string, limit: int, window: real, after: real)
    requires limit >= 0
    ensures InSpan(Admitted(requests, key, limit, window), after, after + window) <= limit
  {
    AdmittedIsAllowed(requests, key, limit, window);
    SpanOfAllowed(Admitted(requests, key, limit, window), limit, window, after);
  }
}
