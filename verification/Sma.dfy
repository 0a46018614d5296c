/** The moving-average crossover decision (backend/app/strategies/evaluator.py). */
module Sma {
  import opened Ledger
  import opened Options

  datatype Cross = Cross(action: Option<Side>, fast: real, slow: real, previousFast: real, previousSlow: real)

  function Sum(s: seq<real>): real {
    if s == [] then 0.0 else Sum(s[..|s| - 1]) + s[|s| - 1]
  }

  function Last<T>(s: seq<T>, n: nat): (r: seq<T>)
    ensures |r| == if n <= |s| then n else |s|
  {
    if n <= |s| then s[|s| - n..] else s
  }

  /** Mean of the last `n` closes. */
  function Average(closes: seq<real>, n: nat): real
    requires n > 0
  {
    Sum(Last(closes, n)) / n as real
  }

  function Action(previousFast: real, previousSlow: real, fast: real, slow: real): Option<Side> {
    if previousFast <= previousSlow && fast > slow then Some(Buy)
    else if previousFast >= previousSlow && fast < slow then Some(Sell)
    else None
  }

  function Evaluate(closes: seq<real>, fast: int, slow: int): Option<Cross> {
    if fast < 2 || slow <= fast || |closes| < slow + 1 then None
    else
      var previous := closes[..|closes| - 1];
      var pf, ps := Average(previous, fast), Average(previous, slow);
      var cf, cs := Average(closes, fast), Average(closes, slow);
      Some(Cross(Action(pf, ps, cf, cs), cf, cs, pf, ps))
  }

  /** The sum of the closes from `from` on, up to `to`. */
  function SumOf(closes: seq<real>, from: nat, to: nat): real
    requires from <= to <= |closes|
    decreases |closes| - from
  {
    if from == to then 0.0 else closes[from] + SumOf(closes, from + 1, to)
  }

  lemma {:induction false} SumIs(closes: seq<real>, from: nat, to: nat)
    requires from <= to <= |closes|
    ensures Sum(closes[from..to]) == SumOf(closes, from, to)
    decreases |closes| - from
  {
    if from < to {
      SumIs(closes, from + 1, to);
      assert closes[from..to] == [closes[from]] + closes[from + 1..to];
      SumFirst(closes[from], closes[from + 1..to]);
    }
  }

  lemma {:induction false} SumFirst(x: real, s: seq<real>)
    ensures Sum([x] + s) == x + Sum(s)
    decreases |s|
  {
    var all := [x] + s;
    if s == [] {
      assert all[..0] == [];
    } else {
      SumFirst(x, s[..|s| - 1]);
      assert all[..|all| - 1] == [x] + s[..|s| - 1];
    }
  }

  lemma AverageIs(closes: seq<real>, n: nat)
    requires 0 < n <= |closes|
    ensures Average(closes, n) == SumOf(closes, |closes| - n, |closes|) / n as real
  {
    SumIs(closes, |closes| - n, |closes|);
    assert closes[|closes| - n..|closes|] == closes[|closes| - n..];
    hide Sum, SumOf;
  }

  lemma {:induction false} SameSum(a: seq<real>, b: seq<real>, from: nat, to: nat)
    requires from <= to <= |a| && a[..to] <= b
    ensures SumOf(b, from, to) == SumOf(a, from, to)
    decreases |a| - from
  {
    assert |a[..to]| == to;
    if from < to {
      SameSum(a, b, from + 1, to);
      assert b[from] == a[..to][from];
    }
  }

  lemma PreviousIs(closes: seq<real>, n: nat)
    requires 0 < n < |closes|
    ensures Average(closes[..|closes| - 1], n) == SumOf(closes, |closes| - n - 1, |closes| - 1) / n as real
  {
    var previous := closes[..|closes| - 1];
    assert previous[..|previous|] == previous;
    AverageIs(previous, n);
    SameSum(previous, closes, |closes| - n - 1, |closes| - 1);
    hide Average, SumOf;
  }

  /** A decision needs two periods in order, the fast one at least 2, and one close more than the slow one. It reports the means
      of the last closes and of those that end one earlier, and crosses upward for a BUY, downward for a SELL. */
  lemma DecisionIs(closes: seq<real>, fast: int, slow: int)
    ensures Evaluate(closes, fast, slow).Some? <==> 2 <= fast < slow < |closes|
    ensures 2 <= fast < slow < |closes| ==>
      var c, n := Evaluate(closes, fast, slow).value, |closes|;
      && c.fast == SumOf(closes, n - fast, n) / fast as real
      && c.slow == SumOf(closes, n - slow, n) / slow as real
      && c.previousFast == SumOf(closes, n - fast - 1, n - 1) / fast as real
      && c.previousSlow == SumOf(closes, n - slow - 1, n - 1) / slow as real
      && (c.action == Some(Buy) <==> c.previousFast <= c.previousSlow && c.fast > c.slow)
      && (c.action == Some(Sell) <==> c.previousFast >= c.previousSlow && c.fast < c.slow)
  {
    hide Average, SumOf;
    if 2 <= fast < slow < |closes| {
      AverageIs(closes, fast);
      AverageIs(closes, slow);
      PreviousIs(closes, fast);
      PreviousIs(closes, slow);
    }
  }

  // ---------------------------------------------------------------- only the last slow + 1 closes matter

  /** Prices older than the slow window never influence a decision. */
  lemma OldClosesIrrelevant(older: seq<real>, closes: seq<real>, fast: int, slow: int)
    requires |closes| >= slow + 1
    ensures Evaluate(older + closes, fast, slow) == Evaluate(closes, fast, slow)
  {
    var all := older + closes;
    if fast >= 2 && slow > fast {
      assert all[..|all| - 1] == older + closes[..|closes| - 1];
      LastOfConcat(older, closes, fast);
      LastOfConcat(older, closes, slow);
      LastOfConcat(older, closes[..|closes| - 1], fast);
      LastOfConcat(older, closes[..|closes| - 1], slow);
    }
  }

  lemma LastOfConcat(a: seq<real>, b: seq<real>, n: nat)
    requires n <= |b|
    ensures Last(a + b, n) == Last(b, n)
  {
  }

  // ---------------------------------------------------------------- units and sign

  function Line(a: real, b: real, x: real): real {
    a * x + b
  }

  function Affine(a: real, b: real, s: seq<real>): (r: seq<real>)
    ensures |r| == |s| && forall i :: 0 <= i < |s| ==> r[i] == Line(a, b, s[i])
  {
    seq(|s|, i requires 0 <= i < |s| => Line(a, b, s[i]))
  }

  lemma {:induction false} AffineSum(a: real, b: real, s: seq<real>)
    ensures Sum(Affine(a, b, s)) == a * Sum(s) + b * |s| as real
    decreases |s|
  {
    if s == [] {
      assert Affine(a, b, s) == [];
    } else {
      AffineSum(a, b, s[..|s| - 1]);
      assert Affine(a, b, s)[..|s| - 1] == Affine(a, b, s[..|s| - 1]) by { hide Line, Sum; }
      OneMoreTerm(a, b, Sum(s[..|s| - 1]), s[|s| - 1], |s|);
    }
  }

  lemma OneMoreTerm(a: real, b: real, sum: real, x: real, n: nat)
    requires n > 0
    ensures a * sum + b * (n - 1) as real + (a * x + b) == a * (sum + x) + b * n as real
  {
    assert n as real == (n - 1) as real + 1.0;
    assert b * ((n - 1) as real + 1.0) == b * (n - 1) as real + b;
    assert a * (sum + x) == a * sum + a * x;
  }

  lemma AffineMean(a: real, b: real, s: seq<real>)
    requires s != []
    ensures Sum(Affine(a, b, s)) / |s| as real == Line(a, b, Sum(s) / |s| as real)
  {
    AffineSum(a, b, s);
    hide Line, Sum, Affine;
    Distribute(a, Sum(s), b, |s| as real);
  }

  lemma AffineAverage(a: real, b: real, s: seq<real>, n: nat)
    requires 0 < n <= |s|
    ensures Average(Affine(a, b, s), n) == Line(a, b, Average(s, n))
  {
    hide Line, Sum;
    assert Last(Affine(a, b, s), n) == Affine(a, b, Last(s, n));
    AffineMean(a, b, Last(s, n));
  }

  lemma Distribute(a: real, x: real, b: real, n: real)
    requires n > 0.0
    ensures (a * x + b * n) / n == Line(a, b, x / n)
  {
    var q := x / n;
    assert x == q * n;
    assert a * (q * n) == (a * q) * n;
    DivideProduct(a * q + b, n);
    assert (a * q + b) * n == (a * q) * n + b * n;
  }

  lemma DivideProduct(y: real, n: real)
    requires n > 0.0
    ensures (y * n) / n == y
  {
  }

  function Opposite(action: Option<Side>): Option<Side> {
    match action
    case None => None
    case Some(Buy) => Some(Sell)
    case Some(Sell) => Some(Buy)
  }

  /** Another currency unit or a shifted price scale changes no decision; a reversed scale swaps BUY and SELL. */
  lemma RescaledDecision(a: real, b: real, closes: seq<real>, fast: int, slow: int)
    requires a != 0.0
    ensures Evaluate(Affine(a, b, closes), fast, slow).Some? <==> Evaluate(closes, fast, slow).Some?
    ensures Evaluate(closes, fast, slow).Some? ==>
      var action := Evaluate(closes, fast, slow).value.action;
      Evaluate(Affine(a, b, closes), fast, slow).value.action == if a > 0.0 then action else Opposite(action)
  {
    hide Average, Action, Affine, Opposite, Line;
    if fast >= 2 && slow > fast && |closes| >= slow + 1 {
      var previous := closes[..|closes| - 1];
      assert Affine(a, b, closes)[..|closes| - 1] == Affine(a, b, previous);
      AffineAverage(a, b, closes, fast);
      AffineAverage(a, b, closes, slow);
      AffineAverage(a, b, previous, fast);
      AffineAverage(a, b, previous, slow);
      RescaledAction(a, b, Average(previous, fast), Average(previous, slow), Average(closes, fast), Average(closes, slow));
    }
  }

  lemma RescaledAction(a: real, b: real, pf: real, ps: real, cf: real, cs: real)
    requires a != 0.0
    ensures Action(Line(a, b, pf), Line(a, b, ps), Line(a, b, cf), Line(a, b, cs))
         == if a > 0.0 then Action(pf, ps, cf, cs) else Opposite(Action(pf, ps, cf, cs))
  {
    RescaledOrder(a, b, pf, ps);
    RescaledOrder(a, b, cf, cs);
    hide Line;
  }

  lemma RescaledOrder(a: real, b: real, x: real, y: real)
    requires a != 0.0
    ensures a > 0.0 ==> (Line(a, b, x) <= Line(a, b, y) <==> x <= y) && (Line(a, b, x) >= Line(a, b, y) <==> x >= y)
    ensures a < 0.0 ==> (Line(a, b, x) <= Line(a, b, y) <==> x >= y) && (Line(a, b, x) >= Line(a, b, y) <==> x <= y)
  {
    assert a * x - a * y == a * (x - y);
    if a > 0.0 {
      assert x > y ==> a * (x - y) > 0.0;
      assert x < y ==> a * (y - x) > 0.0;
    } else {
      assert x > y ==> (-a) * (x - y) > 0.0;
      assert x < y ==> (-a) * (y - x) > 0.0;
    }
  }

  // ---------------------------------------------------------------- alternation

  /** The decision at the n-th close of a series. */
  function Signal(closes: seq<real>, n: nat, fast: int, slow: int): Option<Side>
    requires n <= |closes|
  {
    match Evaluate(closes[..n], fast, slow)
    case None => None
    case Some(cross) => cross.action
  }

  /** How far the fast average is above the slow one after `n` closes. */
  function Spread(closes: seq<real>, n: nat, fast: int, slow: int): real
    requires 2 <= fast < slow && n <= |closes|
  {
    Average(closes[..n], fast) - Average(closes[..n], slow)
  }

  lemma SignalBySpread(closes: seq<real>, n: nat, fast: int, slow: int)
    requires 2 <= fast < slow <= n - 1 < |closes|
    ensures Signal(closes, n, fast, slow) == Action(Spread(closes, n - 1, fast, slow), 0.0, Spread(closes, n, fast, slow), 0.0)
  {
    assert closes[..n][..n - 1] == closes[..n - 1];
    hide Average;
  }

  /** What a spread that moves from `before` to `now` signals. */
  function Crossing(before: real, now: real): Option<Side> {
    Action(before, 0.0, now, 0.0)
  }

  /** Without a SELL a spread, once positive, never goes below zero. */
  lemma {:induction false} StaysAbove(spreads: seq<real>, n: nat, m: nat)
    requires n <= m < |spreads| && spreads[n] > 0.0
    requires forall k :: n < k <= m ==> Crossing(spreads[k - 1], spreads[k]) != Some(Sell)
    ensures spreads[m] >= 0.0
    decreases m
  {
    if m > n {
      StaysAbove(spreads, n, m - 1);
      assert Crossing(spreads[m - 1], spreads[m]) != Some(Sell);
    }
  }

  /** The spreads of a series, by number of closes. */
  function Spreads(closes: seq<real>, fast: int, slow: int): (r: seq<real>)
    requires 2 <= fast < slow
    ensures |r| == |closes| + 1 && forall k :: 0 <= k <= |closes| ==> r[k] == Spread(closes, k, fast, slow)
  {
    seq(|closes| + 1, k requires 0 <= k <= |closes| => Spread(closes, k, fast, slow))
  }

  predicate SignalBetween(closes: seq<real>, n: nat, m: nat, fast: int, slow: int, side: Side)
    requires m <= |closes|
  {
    exists k :: n < k < m && Signal(closes, k, fast, slow) == Some(side)
  }

  /** Two BUYs have a SELL between them, unless the averages were exactly equal just before the second. */
  lemma BuysAlternate(closes: seq<real>, n: nat, m: nat, fast: int, slow: int)
    requires 2 <= fast < slow < n < m <= |closes|
    ensures Signal(closes, n, fast, slow) == Some(Buy) && Signal(closes, m, fast, slow) == Some(Buy) ==>
      SignalBetween(closes, n, m, fast, slow, Sell) || Spread(closes, m - 1, fast, slow) == 0.0
  {
    hide Average, Signal, Spread, Evaluate;
    var spreads := Spreads(closes, fast, slow);
    forall k: nat | n <= k <= m
      ensures Signal(closes, k, fast, slow) == Crossing(spreads[k - 1], spreads[k])
    {
      SignalBySpread(closes, k, fast, slow);
    }
    if Signal(closes, n, fast, slow) == Some(Buy) && Signal(closes, m, fast, slow) == Some(Buy)
       && !SignalBetween(closes, n, m, fast, slow, Sell) {
      forall k | n < k <= m - 1
        ensures Crossing(spreads[k - 1], spreads[k]) != Some(Sell)
      {
        assert Signal(closes, k, fast, slow) != Some(Sell);
      }
      assert Crossing(spreads[n - 1], spreads[n]) == Some(Buy);
      assert Crossing(spreads[m - 1], spreads[m]) == Some(Buy);
      StaysAbove(spreads, n, m - 1);
    }
  }

  lemma MirroredSignal(closes: seq<real>, n: nat, fast: int, slow: int)
    requires 2 <= fast < slow < n <= |closes|
    ensures Signal(Affine(-1.0, 0.0, closes), n, fast, slow) == Opposite(Signal(closes, n, fast, slow))
    ensures Spread(Affine(-1.0, 0.0, closes), n - 1, fast, slow) == -Spread(closes, n - 1, fast, slow)
  {
    assert Affine(-1.0, 0.0, closes)[..n] == Affine(-1.0, 0.0, closes[..n]);
    assert Affine(-1.0, 0.0, closes)[..n - 1] == Affine(-1.0, 0.0, closes[..n - 1]);
    RescaledDecision(-1.0, 0.0, closes[..n], fast, slow);
    AffineAverage(-1.0, 0.0, closes[..n - 1], fast);
    AffineAverage(-1.0, 0.0, closes[..n - 1], slow);
    hide Average, Evaluate, Affine;
  }

  /** The mirror image: two SELLs have a BUY between them. */
  lemma SellsAlternate(closes: seq<real>, n: nat, m: nat, fast: int, slow: int)
    requires 2 <= fast < slow < n < m <= |closes|
    ensures Signal(closes, n, fast, slow) == Some(Sell) && Signal(closes, m, fast, slow) == Some(Sell) ==>
      SignalBetween(closes, n, m, fast, slow, Buy) || Spread(closes, m - 1, fast, slow) == 0.0
  {
    hide Average, Affine, Spread, Signal;
    var mirror := Affine(-1.0, 0.0, closes);
    forall k: nat | n <= k <= m
      ensures Signal(mirror, k, fast, slow) == Opposite(Signal(closes, k, fast, slow))
      ensures Spread(mirror, k - 1, fast, slow) == -Spread(closes, k - 1, fast, slow)
    {
      MirroredSignal(closes, k, fast, slow);
    }
    BuysAlternate(mirror, n, m, fast, slow);
  }

  /** Over a series whose averages never tie, BUY and SELL strictly alternate. */
  lemma SignalsAlternate(closes: seq<real>, n: nat, m: nat, fast: int, slow: int, side: Side)
    requires 2 <= fast < slow < n < m <= |closes|
    ensures Signal(closes, n, fast, slow) == Some(side) && Signal(closes, m, fast, slow) == Some(side)
            && Spread(closes, m - 1, fast, slow) != 0.0
            ==> SignalBetween(closes, n, m, fast, slow, if side == Buy then Sell else Buy)
  {
    hide Spread, Signal, SignalBetween;
    if side == Buy {
      BuysAlternate(closes, n, m, fast, slow);
    } else {
      assert side == Sell;
      SellsAlternate(closes, n, m, fast, slow);
    }
  }

  // ---------------------------------------------------------------- exactly when a signal repeats

  /** The last signal before the m-th close. */
  function PreviousSignal(closes: seq<real>, m: nat, fast: int, slow: int): Option<Side>
    requires m <= |closes| + 1
  {
    if m == 0 then None
    else if Signal(closes, m - 1, fast, slow).Some? then Signal(closes, m - 1, fast, slow)
    else PreviousSignal(closes, m - 1, fast, slow)
  }

  /** The last spread up to the k-th close that is not zero; zero when there is none. */
  function Lean(closes: seq<real>, k: nat, fast: int, slow: int): real
    requires 2 <= fast < slow && k <= |closes|
  {
    if k < slow then 0.0
    else if Spread(closes, k, fast, slow) != 0.0 then Spread(closes, k, fast, slow)
    else if k == 0 then 0.0 else Lean(closes, k - 1, fast, slow)
  }

  lemma EarlySignal(closes: seq<real>, n: nat, fast: int, slow: int)
    requires n <= slow && n <= |closes|
    ensures Signal(closes, n, fast, slow) == None
  {
    hide Average;
  }

  /** The last signal always points where the averages last stood apart. */
  lemma {:induction false} SignalFollowsLean(closes: seq<real>, k: nat, fast: int, slow: int)
    requires 2 <= fast < slow && k <= |closes|
    ensures PreviousSignal(closes, k + 1, fast, slow) == Some(Buy) ==> Lean(closes, k, fast, slow) > 0.0
    ensures PreviousSignal(closes, k + 1, fast, slow) == Some(Sell) ==> Lean(closes, k, fast, slow) < 0.0
    decreases k
  {
    hide Average, Signal, Spread, Evaluate;
    if k <= slow {
      NoEarlierSignal(closes, k + 1, fast, slow);
    } else {
      SignalFollowsLean(closes, k - 1, fast, slow);
      SignalBySpread(closes, k, fast, slow);
      LeanStep(closes, k, fast, slow);
      hide Lean;
      if Signal(closes, k, fast, slow).None? {
        SameSides(PreviousSignal(closes, k, fast, slow));
      }
    }
  }

  lemma LeanStep(closes: seq<real>, k: nat, fast: int, slow: int)
    requires 2 <= fast < slow < k <= |closes|
    ensures Lean(closes, k, fast, slow)
         == if Spread(closes, k, fast, slow) != 0.0 then Spread(closes, k, fast, slow) else Lean(closes, k - 1, fast, slow)
    ensures Spread(closes, k - 1, fast, slow) != 0.0 ==> Lean(closes, k - 1, fast, slow) == Spread(closes, k - 1, fast, slow)
  {
    hide Spread;
  }

  lemma SameSides(signal: Option<Side>)
    ensures signal == None || signal == Some(Buy) || signal == Some(Sell)
  {
    if signal.Some? {
      assert signal.value == Buy || signal.value == Sell;
    }
  }

  lemma {:induction false} NoEarlierSignal(closes: seq<real>, m: nat, fast: int, slow: int)
    requires m <= slow + 1 && m <= |closes| + 1
    ensures PreviousSignal(closes, m, fast, slow) == None
    decreases m
  {
    hide Signal;
    if m > 0 {
      EarlySignal(closes, m - 1, fast, slow);
      NoEarlierSignal(closes, m - 1, fast, slow);
    }
  }

  lemma {:induction false} HasPrevious(closes: seq<real>, m: nat, fast: int, slow: int)
    requires m <= |closes| + 1
    ensures PreviousSignal(closes, m, fast, slow).Some? <==> exists n: nat :: n < m && Signal(closes, n, fast, slow).Some?
    decreases m
  {
    hide Signal;
    if m > 0 {
      HasPrevious(closes, m - 1, fast, slow);
    }
  }

  /** A BUY follows a BUY exactly when the averages are equal just before it, stood apart last with the fast one above, and a
      signal was given before. */
  lemma BuyRepeatsExactly(closes: seq<real>, m: nat, fast: int, slow: int)
    requires 2 <= fast < slow < m <= |closes|
    ensures Signal(closes, m, fast, slow) == Some(Buy) ==>
      (PreviousSignal(closes, m, fast, slow) == Some(Buy)
       <==> && Spread(closes, m - 1, fast, slow) == 0.0
            && Lean(closes, m - 1, fast, slow) > 0.0
            && exists n: nat :: n < m && Signal(closes, n, fast, slow).Some?)
  {
    hide Average, Signal, Spread, Evaluate;
    SignalBySpread(closes, m, fast, slow);
    SignalFollowsLean(closes, m - 1, fast, slow);
    LeanStep(closes, m, fast, slow);
    HasPrevious(closes, m, fast, slow);
    SameSides(PreviousSignal(closes, m, fast, slow));
    hide PreviousSignal, Lean;
  }

  /** The mirror image. */
  lemma SellRepeatsExactly(closes: seq<real>, m: nat, fast: int, slow: int)
    requires 2 <= fast < slow < m <= |closes|
    ensures Signal(closes, m, fast, slow) == Some(Sell) ==>
      (PreviousSignal(closes, m, fast, slow) == Some(Sell)
       <==> && Spread(closes, m - 1, fast, slow) == 0.0
            && Lean(closes, m - 1, fast, slow) < 0.0
            && exists n: nat :: n < m && Signal(closes, n, fast, slow).Some?)
  {
    hide Average, Signal, Spread, Evaluate;
    SignalBySpread(closes, m, fast, slow);
    SignalFollowsLean(closes, m - 1, fast, slow);
    LeanStep(closes, m, fast, slow);
    HasPrevious(closes, m, fast, slow);
    SameSides(PreviousSignal(closes, m, fast, slow));
    hide PreviousSignal, Lean;
  }

  lemma ShortSpread(closes: seq<real>, n: nat)
    requires 3 <= n <= |closes|
    ensures Spread(closes, n, 2, 3) == (closes[n - 2] + closes[n - 1] - 2.0 * closes[n - 3]) / 6.0
  {
    var two, three := closes[n - 2..n], closes[n - 3..n];
    assert Last(closes[..n], 2) == two && Last(closes[..n], 3) == three;
    ShortSums(closes[n - 3], closes[n - 2], closes[n - 1]);
    assert two == [closes[n - 2], closes[n - 1]] && three == [closes[n - 3], closes[n - 2], closes[n - 1]];
    hide Sum;
  }

  lemma ShortSums(x: real, y: real, z: real)
    ensures Sum([y, z]) == y + z && Sum([x, y, z]) == x + y + z
  {
    assert [x, y, z][..2] == [x, y] && [x, y][..1] == [x] && [y, z][..1] == [y];
    assert Sum([x]) == x && Sum([y]) == y;
    assert Sum([x, y]) == x + y;
  }

  /** With a tie they need not: these closes give BUY twice in a row. */
  lemma TieBreaksAlternation()
    ensures var closes := [10.0, 10.0, 10.0, 13.0, 7.0, 20.0];
      && Signal(closes, 4, 2, 3) == Some(Buy)
      && Signal(closes, 5, 2, 3) == None
      && Signal(closes, 6, 2, 3) == Some(Buy)
  {
    var closes := [10.0, 10.0, 10.0, 13.0, 7.0, 20.0];
    ShortSpread(closes, 3);
    ShortSpread(closes, 4);
    ShortSpread(closes, 5);
    ShortSpread(closes, 6);
    SignalBySpread(closes, 4, 2, 3);
    SignalBySpread(closes, 5, 2, 3);
    SignalBySpread(closes, 6, 2, 3);
    hide Spread, Signal;
  }
}
