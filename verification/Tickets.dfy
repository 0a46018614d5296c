/** The order tickets of automated signals: their client ids and limit prices (backend/app/strategies/service.py). */
module Tickets {
  import opened Decimals
  import opened Ledger
  import opened Options
  import opened Paper
  import opened Protocol

  /** Two automated orders get the same client id exactly when their candles are the same and their strategies' ids agree
      in the ten characters that are kept of them. */
  lemma ClientIdsCollide(a: string, b: string, candle: int, candle2: int)
    requires |Strip(a)| >= 10 && |Strip(b)| >= 10
    ensures ClientId(a, candle) == ClientId(b, candle2) <==> Strip(a)[..10] == Strip(b)[..10] && candle == candle2
  {
    var x, y := ClientId(a, candle), ClientId(b, candle2);
    assert x[1..11] == Strip(a)[..10] && y[1..11] == Strip(b)[..10];
    assert x[11..] == Decimal(candle) && y[11..] == Decimal(candle2);
    DecimalInjective(candle, candle2);
    hide Strip, Decimal;
  }

  /** A client id is an "s", then what is kept of the strategy's id, then the candle's start as a decimal number. Of the id the
      dashes are dropped and ten characters are kept. */
  lemma ClientIdReads(sid: string, candle: nat)
    requires |Strip(sid)| >= 10
    ensures var id := ClientId(sid, candle);
      |id| >= 11 && id[0] == 's' && id[1..11] == Strip(sid)[..10] && Number(id[11..]) == candle
  {
    ReadsBack(candle);
    var id := ClientId(sid, candle);
    assert id[11..] == Decimal(candle);
  }

  lemma {:induction false} StripDropsDashes(a: string, b: string)
    ensures Strip(a + b) == Strip(a) + Strip(b) && Strip("-") == "" && '-' !in Strip(a)
    ensures '-' !in a ==> Strip(a) == a
  {
    if a == "" {
      assert a + b == b;
    } else {
      assert (a + b)[1..] == a[1..] + b;
      StripDropsDashes(a[1..], b);
      assert a == [a[0]] + a[1..];
    }
  }

  /** The limit is a whole number of ticks, at least one; it is on the trader's side of the target and less than a tick away
      from it, unless the target is below one tick. With a negative tick size, which nothing in the table excludes, it is a
      whole number of ticks less than a tick away on the other side, against the trader. */
  lemma LimitPriceRounds(offsetBps: real, tickSize: Option<real>, side: Side, reference: real) returns (n: int)
    ensures var tick, target := OrElse(tickSize, 0.05), Target(offsetBps, side, reference);
      var price := LimitPrice(offsetBps, tickSize, side, reference);
      && tick != 0.0
      && (tick > 0.0 || target >= 0.0 ==> price == n as real * tick)
      && (tick > 0.0 ==>
            && n >= 1
            && (target >= tick && side == Buy ==> target - tick < price <= target)
            && (target >= tick && side == Sell ==> target <= price < target + tick)
            && (target < tick ==> n == 1))
      && (tick < 0.0 && target >= 0.0 ==>
            if side == Buy then target <= price < target - tick else target + tick < price <= target)
  {
    hide Target, OrElse, Rounded;
    var tick, target := OrElse(tickSize, 0.05), Target(offsetBps, side, reference);
    TickNotZero(tickSize);
    n := 1;
    if tick > 0.0 {
      n := RoundedIsNear(target, tick, side);
    } else if target >= 0.0 {
      n := RoundedAgainst(target, tick, side);
    }
  }

  /** The target is the last price moved by the offset, down for a BUY and up for a SELL; so with a positive tick a BUY is never
      limited above the last price, unless that is below one tick, and a SELL never below it. */
  lemma TargetFavours(offsetBps: real, tickSize: Option<real>, side: Side, reference: real)
    ensures var target := Target(offsetBps, side, reference);
      10000.0 * (if side == Buy then reference - target else target - reference) == offsetBps * reference
    ensures offsetBps >= 0.0 && reference >= OrElse(tickSize, 0.05) > 0.0 ==>
      var price := LimitPrice(offsetBps, tickSize, side, reference);
      if side == Buy then price <= reference else price >= reference
  {
    hide Target, OrElse, LimitPrice;
    var target := Target(offsetBps, side, reference);
    TargetIs(offsetBps, side, reference);
    if offsetBps >= 0.0 && reference >= OrElse(tickSize, 0.05) > 0.0 {
      var n := LimitPriceRounds(offsetBps, tickSize, side, reference);
      if target < OrElse(tickSize, 0.05) {
        OneTick(OrElse(tickSize, 0.05));
      }
    }
  }

  lemma TargetIs(offsetBps: real, side: Side, reference: real)
    ensures var target := Target(offsetBps, side, reference);
      10000.0 * (if side == Buy then reference - target else target - reference) == offsetBps * reference
    ensures offsetBps >= 0.0 && reference >= 0.0 ==>
      var target := Target(offsetBps, side, reference);
      if side == Buy then target <= reference else target >= reference
  {
    Slips(reference, offsetBps);
    assert (-offsetBps) / 10000.0 == -(offsetBps / 10000.0);
    if offsetBps >= 0.0 && reference >= 0.0 {
      assert offsetBps * reference >= 0.0;
    }
  }

  lemma TickNotZero(tickSize: Option<real>)
    ensures OrElse(tickSize, 0.05) != 0.0
  {
  }

  /** The rounding, with the quotient and the product named. */
  lemma RoundedIs(target: real, tick: real, side: Side) returns (ratio: real, n: int, product: real)
    requires tick != 0.0
    ensures ratio == target / tick && n == if side == Buy then ratio.Floor else -((-ratio).Floor)
    ensures product == n as real * tick && Rounded(target, tick, side) == Max(tick, product)
  {
    ratio := target / tick;
    n := if side == Buy then ratio.Floor else -((-ratio).Floor);
    product := n as real * tick;
  }

  lemma RoundedAgainst(target: real, tick: real, side: Side) returns (n: int)
    requires tick < 0.0 && target >= 0.0
    ensures var price := Rounded(target, tick, side);
      && price == n as real * tick
      && if side == Buy then target <= price < target - tick else target + tick < price <= target
  {
    hide Rounded;
    var ratio, product;
    ratio, n, product := RoundedIs(target, tick, side);
    var size := target / -tick;
    Whole(target, -tick);
    Opposite(target, tick, ratio, size);
    Negated(n, tick, product);
    Ticks(size, -n, -tick, target, product, if side == Buy then Sell else Buy);
  }

  lemma Negated(n: int, tick: real, product: real)
    requires product == n as real * tick
    ensures product == (-n) as real * -tick
  {
  }

  lemma Opposite(target: real, tick: real, ratio: real, size: real)
    requires tick < 0.0 && ratio == target / tick && size == target / -tick
    ensures ratio == -size
  {
    assert ratio * tick == target && size * -tick == target;
    assert (ratio + size) * tick == 0.0;
  }

  lemma RoundedIsNear(target: real, tick: real, side: Side) returns (n: int)
    requires tick > 0.0
    ensures var price := Rounded(target, tick, side);
      && n >= 1 && price == n as real * tick
      && (target >= tick && side == Buy ==> target - tick < price <= target)
      && (target >= tick && side == Sell ==> target <= price < target + tick)
      && (target < tick ==> n == 1)
  {
    hide Rounded;
    var ratio, ticks, product := RoundedIs(target, tick, side);
    n := if ticks >= 1 then ticks else 1;
    Whole(target, tick);
    Ticks(ratio, ticks, tick, target, product, side);
    RatioAtLeastOne(ratio, ticks, side);
    OneTick(tick);
  }

  lemma OneTick(tick: real)
    ensures 1 as real * tick == tick
  {
  }

  lemma RatioAtLeastOne(ratio: real, ticks: int, side: Side)
    requires ticks == if side == Buy then ratio.Floor else -((-ratio).Floor)
    ensures ratio >= 1.0 ==> ticks >= 1
    ensures ratio < 1.0 ==> ticks <= 1
  {
  }

  lemma Whole(target: real, tick: real)
    requires tick > 0.0
    ensures target / tick * tick == target
  {
  }

  lemma Ticks(ratio: real, n: int, tick: real, target: real, price: real, side: Side)
    requires tick > 0.0 && n == if side == Buy then ratio.Floor else -((-ratio).Floor)
    requires target == ratio * tick && price == n as real * tick
    ensures n >= 1 ==> price >= tick
    ensures n < 1 ==> price <= 0.0
    ensures n == 1 ==> price == tick
    ensures side == Buy ==> target - tick < price <= target
    ensures side == Sell ==> target <= price < target + tick
    ensures target >= tick <==> ratio >= 1.0
  {
    var m := n as real;
    Order(m, 1.0, tick, price, tick);
    Order(m, 0.0, tick, price, 0.0);
    Order(ratio, 1.0, tick, target, tick);
    Order(m, ratio, tick, price, target);
    Order(ratio - 1.0, m, tick, target - tick, price);
    Order(ratio + 1.0, m, tick, target + tick, price);
  }

  lemma Order(a: real, b: real, tick: real, x: real, y: real)
    requires tick > 0.0 && x == a * tick && y == b * tick
    ensures (a < b <==> x < y) && (a <= b <==> x <= y)
  {
    assert (b - a) * tick == y - x;
    assert b > a ==> (b - a) * tick > 0.0;
    assert b < a ==> (a - b) * tick > 0.0;
  }
}
