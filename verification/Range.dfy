/** What a strategy's exposure can still become by fills alone: between the exposure with every open SELL filled whole and
    the exposure with every open BUY filled whole. */
module Range {
  import opened Ledger
  import opened Protocol
  import opened Reconcile
  import opened Totals
  import R = Runs

  /** An order's share in the exposure: filled as it is, ... */
  function Held(o: Order): int {
    Signed(o.side, o.filled)
  }

  /** ... when it sells all it still can, ... */
  function Least(o: Order): int {
    if o.side == Sell && o.status in OpenStatuses() then -o.quantity else Held(o)
  }

  /** ... and when it buys all it still can. */
  function Most(o: Order): int {
    if o.side == Buy && o.status in OpenStatuses() then o.quantity else Held(o)
  }

  ghost function Shares(orders: map<OrderKey, Order>, linked: set<OrderKey>, share: Order -> int): map<OrderKey, real> {
    map k | k in linked && k in orders :: share(orders[k]) as real
  }

  ghost function Sum(orders: map<OrderKey, Order>, linked: set<OrderKey>, share: Order -> int): real {
    Total(Shares(orders, linked, share))
  }

  ghost function Low(orders: map<OrderKey, Order>, linked: set<OrderKey>): real {
    Sum(orders, linked, Least)
  }

  ghost function High(orders: map<OrderKey, Order>, linked: set<OrderKey>): real {
    Sum(orders, linked, Most)
  }

  // ---------------------------------------------------------------- sums of shares

  lemma SumMonotone(a: map<OrderKey, Order>, b: map<OrderKey, Order>, linked: set<OrderKey>, f: Order -> int, g: Order -> int)
    requires forall k :: k in linked ==> k in a && k in b && f(a[k]) <= g(b[k])
    ensures Sum(a, linked, f) <= Sum(b, linked, g)
  {
    TotalMonotone(Shares(a, linked, f), Shares(b, linked, g));
  }

  /** Rewriting one linked row moves the sum by that row's share. */
  lemma SumMoves(orders: map<OrderKey, Order>, linked: set<OrderKey>, share: Order -> int, k: OrderKey, o2: Order)
    requires k in orders
    ensures Sum(orders[k := o2], linked, share)
         == Sum(orders, linked, share) + if k in linked then share(o2) as real - share(orders[k]) as real else 0.0
  {
    var a, b := Shares(orders, linked, share), Shares(orders[k := o2], linked, share);
    TotalWithout(a, k);
    TotalWithout(b, k);
    assert a - {k} == b - {k};
  }

  /** Linking one more order adds its share. */
  lemma SumLinks(orders: map<OrderKey, Order>, linked: set<OrderKey>, share: Order -> int, k: OrderKey)
    requires k in orders && k !in linked
    ensures Sum(orders, linked + {k}, share) == Sum(orders, linked, share) + share(orders[k]) as real
  {
    var a, b := Shares(orders, linked, share), Shares(orders, linked + {k}, share);
    TotalWithout(a, k);
    TotalWithout(b, k);
    assert a - {k} == b - {k};
  }

  // ---------------------------------------------------------------- the exposure as a sum

  ghost function Booked(orders: map<OrderKey, Order>, es: seq<Execution>, linked: set<OrderKey>): map<OrderKey, real> {
    map k | k in linked && k in orders :: Signed(orders[k].side, FilledBy(es, k)) as real
  }

  lemma {:induction false} ExposureByOrders(orders: map<OrderKey, Order>, es: seq<Execution>, linked: set<OrderKey>)
    requires forall i :: 0 <= i < |es| ==> es[i].order in orders && es[i].side == orders[es[i].order].side
    ensures Exposure(es, linked) as real == Total(Booked(orders, es, linked))
  {
    if es == [] {
      AllZero(Booked(orders, es, linked));
    } else {
      var e, init := es[|es| - 1], es[..|es| - 1];
      ExposureByOrders(orders, init, linked);
      var k := e.order;
      TotalWithout(Booked(orders, init, linked), k);
      TotalWithout(Booked(orders, es, linked), k);
      assert Booked(orders, es, linked) - {k} == Booked(orders, init, linked) - {k};
      hide Total;
    }
  }

  lemma {:induction false} AllZero(m: map<OrderKey, real>)
    requires forall k :: k in m ==> m[k] == 0.0
    ensures Total(m) == 0.0
    decreases |m|
  {
    if m != map[] {
      var k :| k in m;
      TotalTake(m, k);
      AllZero(m - {k});
    }
  }

  lemma FilledIsSum(db: Db, k: OrderKey)
    requires Good(db) && k in db.orders
    ensures FilledBy(db.executions, k) == db.orders[k].filled
    ensures 0 <= db.orders[k].filled <= db.orders[k].quantity
  {
  }

  /** The exposure over the executions is the sum of what the rows say is filled. */
  lemma ExposureIsHeld(db: Db, linked: set<OrderKey>)
    requires Good(db)
    ensures Exposure(db.executions, linked) as real == Sum(db.orders, linked, Held)
  {
    ExposureByOrders(db.orders, db.executions, linked);
    forall k | k in db.orders
      ensures FilledBy(db.executions, k) == db.orders[k].filled
    {
      FilledIsSum(db, k);
    }
    hide Good;
    assert Booked(db.orders, db.executions, linked) == Shares(db.orders, linked, Held);
  }

  /** The exposure lies in its range. */
  lemma ExposureInRange(db: Db, linked: set<OrderKey>)
    requires Good(db) && forall k :: k in linked ==> k in db.orders
    ensures Low(db.orders, linked) <= Exposure(db.executions, linked) as real <= High(db.orders, linked)
  {
    ExposureIsHeld(db, linked);
    forall k | k in linked
      ensures Least(db.orders[k]) <= Held(db.orders[k]) <= Most(db.orders[k])
    {
      FilledIsSum(db, k);
    }
    hide Good;
    SumMonotone(db.orders, db.orders, linked, Least, Held);
    SumMonotone(db.orders, db.orders, linked, Held, Most);
  }

  /** With nothing open there is no range. */
  lemma NothingOpen(db: Db, linked: set<OrderKey>)
    requires Good(db) && forall k :: k in linked ==> k in db.orders && db.orders[k].status !in OpenStatuses()
    ensures Low(db.orders, linked) == Exposure(db.executions, linked) as real == High(db.orders, linked)
  {
    ExposureIsHeld(db, linked);
    hide Good;
    SumMonotone(db.orders, db.orders, linked, Held, Least);
    SumMonotone(db.orders, db.orders, linked, Most, Held);
    SumMonotone(db.orders, db.orders, linked, Least, Held);
    SumMonotone(db.orders, db.orders, linked, Held, Most);
  }

  /** The range only narrows while orders advance: fills, cancels, broker answers that do not reopen and edits that do not
      raise a quantity never widen it. */
  lemma RangeNarrows(db: Db, db2: Db, linked: set<OrderKey>)
    requires Good(db) && Good(db2) && R.AdvancesOn(db, db2, linked) && forall k :: k in linked ==> k in db.orders
    ensures Low(db.orders, linked) <= Low(db2.orders, linked) && High(db2.orders, linked) <= High(db.orders, linked)
  {
    forall k | k in linked
      ensures k in db2.orders && Least(db.orders[k]) <= Least(db2.orders[k]) && Most(db2.orders[k]) <= Most(db.orders[k])
    {
      FilledIsSum(db, k);
      FilledIsSum(db2, k);
    }
    hide Good, R.AdvancesOn, Least, Most;
    SumMonotone(db.orders, db2.orders, linked, Least, Least);
    SumMonotone(db2.orders, db.orders, linked, Most, Most);
  }
}
