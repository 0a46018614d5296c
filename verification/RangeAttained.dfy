/** Both ends of an exposure's range are reached by trades alone; so an edit or a late answer that a strategy cannot afford
    lets it sell more than it holds. */
module RangeAttained {
  import opened Ledger
  import opened Options
  import opened Paper
  import opened Live
  import opened Reconcile
  import opened ReconcileTwice
  import opened Protocol
  import opened Range
  import N = NeverShort
  import L = ReconcileLimits
  import R = Runs

  /** Reconciler passes and nothing else. */
  predicate OnlyBooks(steps: seq<Step>) {
    forall step :: step in steps ==> step.Trading? && step.step.Books?
  }

  predicate Unfilled(o: Order, side: Side) {
    o.status in OpenStatuses() && o.side == side && o.filled < o.quantity
  }

  ghost function ToFill(orders: map<OrderKey, Order>, linked: set<OrderKey>, side: Side): set<OrderKey> {
    set k | k in linked && k in orders && Unfilled(orders[k], side)
  }

  /** Trades can be booked on what is open of these orders: live orders of the user, each under a broker id of its own. */
  ghost predicate Reachable(db: Db, user: string, linked: set<OrderKey>) {
    && Distinct(db, user)
    && forall k :: k in linked && k in db.orders && db.orders[k].status in OpenStatuses() ==>
         IsLive(db, user, k) && HasBroker(db.orders[k])
  }

  /** The share of an order in the end of the range that fills on one side lead to. */
  function Share(side: Side): Order -> int {
    if side == Sell then Least else Most
  }

  // ---------------------------------------------------------------- trades never leave the range

  lemma BooksNarrow(cfg: Config, s: State, step: Step, sid: string)
    requires Enabled(cfg, s, step) && step.Trading? && step.step.Books? && Good(s.db)
    requires forall k :: k in Linked(s.signals, sid) ==> k in s.db.orders
    ensures var s2, linked := Next(cfg, s, step), Linked(s.signals, sid);
      && s2.signals == s.signals && Good(s2.db) && (forall k :: k in linked ==> k in s2.db.orders)
      && Low(s.db.orders, linked) <= Low(s2.db.orders, linked) && High(s2.db.orders, linked) <= High(s.db.orders, linked)
  {
    hide Good, Pass, Low, High, Linked;
    R.StepKeepsGood(cfg.trading, s.db, step.step);
    R.StepAdvances(cfg.trading, s.db, step.step, Linked(s.signals, sid));
    RangeNarrows(s.db, R.Next(cfg.trading, s.db, step.step), Linked(s.signals, sid));
  }

  /** By trades alone the exposure never leaves its range. */
  lemma {:induction false} TradesStayInRange(cfg: Config, s: State, sid: string, steps: seq<Step>)
    requires Good(s.db) && OnlyBooks(steps) && forall k :: k in Linked(s.signals, sid) ==> k in s.db.orders
    ensures var end, linked := After(cfg, s, steps), Linked(s.signals, sid);
      && end.signals == s.signals && Good(end.db) && (forall k :: k in linked ==> k in end.db.orders)
      && Low(s.db.orders, linked) <= Low(end.db.orders, linked) && High(end.db.orders, linked) <= High(s.db.orders, linked)
      && Low(s.db.orders, linked) <= Exposure(end.db.executions, linked) as real <= High(s.db.orders, linked)
    decreases |steps|
  {
    hide Good, Low, High, Linked, Next, Enabled;
    var linked := Linked(s.signals, sid);
    if steps != [] {
      var init, step := steps[..|steps| - 1], steps[|steps| - 1];
      assert step in steps;
      TradesStayInRange(cfg, s, sid, init);
      var mid := After(cfg, s, init);
      if Enabled(cfg, mid, step) {
        BooksNarrow(cfg, mid, step, sid);
      }
    }
    ExposureInRange(After(cfg, s, steps).db, linked);
  }

  // ---------------------------------------------------------------- one trade fills one order

  lemma {:induction false} FreshText(es: seq<Execution>) returns (id: string)
    ensures id != "" && forall e :: e in es && e.id.Some? && e.id.value.Exchange? ==> |e.id.value.text| < |id|
  {
    if es == [] {
      id := "x";
    } else {
      var last := es[|es| - 1];
      id := FreshText(es[..|es| - 1]);
      assert es == es[..|es| - 1] + [last];
      if last.id.Some? && last.id.value.Exchange? && |last.id.value.text| >= |id| {
        id := last.id.value.text + "x";
      }
    }
  }

  lemma {:induction false} Listing(s: set<OrderKey>) returns (keys: seq<OrderKey>)
    ensures Lists(keys, s)
    decreases |s|
  {
    if k :| k in s {
      var rest := Listing(s - {k});
      keys := rest + [k];
    } else {
      keys := [];
    }
  }

  /** One pass over a trade book with one trade fills the rest of an order. */
  lemma OneFills(db: Db, user: string, rows: seq<OrderKey>, k: OrderKey, t: Trade)
    requires Good(db) && Distinct(db, user) && Lists(rows, SelectedLive(db, user)) && IsLive(db, user, k)
    requires db.orders[k].status in OpenStatuses() && HasBroker(db.orders[k]) && db.orders[k].filled < db.orders[k].quantity
    requires t.orderId == db.orders[k].brokerId.value && t.quantity == db.orders[k].quantity - db.orders[k].filled
    requires t.executionId != "" && !Imported(db.executions, user, Some(Exchange(t.executionId)))
    ensures 0 <= db.orders[k].filled
    ensures var db2 := Pass(db, user, rows, [], [t]);
      db2.orders == db.orders[k := FillOrder(db.orders[k], t.quantity, t.price)] && db2.halts == db.halts
  {
    NotNegative(db, k);
    InitialExact(db, user, rows, SelectedLive(db, user));
    L.OneTrade(db, InitialIndex(db, rows), t);
    assert k in SelectedLive(db, user);
    hide Good, InitialIndex, FillOrder, PositionAfter, SelectedLive, Imported;
  }

  lemma FilledShares(o: Order, price: real, side: Side)
    requires 0 <= o.filled < o.quantity && Unfilled(o, side)
    ensures var o2 := FillOrder(o, o.quantity - o.filled, price);
      Share(side)(o2) == Share(side)(o) && Filled(o, o2)
  {
    hide Blend;
  }

  lemma StillReachable(db: Db, user: string, linked: set<OrderKey>, k: OrderKey, o2: Order, db2: Db)
    requires Reachable(db, user, linked) && k in db.orders && db2.orders == db.orders[k := o2]
    requires o2.status !in OpenStatuses() && o2.mode == db.orders[k].mode && o2.brokerId == db.orders[k].brokerId
    ensures Reachable(db2, user, linked)
  {
    assert forall k2 :: IsLive(db2, user, k2) <==> IsLive(db, user, k2);
    assert forall k2 :: IsLive(db2, user, k2) ==> db2.orders[k2].brokerId == db.orders[k2].brokerId;
  }

  /** With everything filled on one side the exposure is that end of its range. */
  lemma AtTheEnd(db: Db, linked: set<OrderKey>, side: Side)
    requires Good(db) && ToFill(db.orders, linked, side) == {} && forall k :: k in linked ==> k in db.orders
    ensures Exposure(db.executions, linked) as real == Sum(db.orders, linked, Share(side))
  {
    ExposureIsHeld(db, linked);
    forall k | k in linked
      ensures Share(side)(db.orders[k]) == Held(db.orders[k])
    {
      FilledIsSum(db, k);
      assert k !in ToFill(db.orders, linked, side);
    }
    hide Good, Share;
    SumMonotone(db.orders, db.orders, linked, Share(side), Held);
    SumMonotone(db.orders, db.orders, linked, Held, Share(side));
  }

  lemma TradingNext(cfg: Config, s: State, t: R.Step)
    requires R.Enabled(s.db, t)
    ensures Enabled(cfg, s, Trading(t)) && Next(cfg, s, Trading(t)) == s.(db := R.Next(cfg.trading, s.db, t))
  {
    hide R.Enabled, R.Next;
  }

  /** The row is filled whole and otherwise keeps its terms. */
  predicate Filled(o: Order, o2: Order) {
    && o2.status == Status.Filled && o2.filled == o2.quantity
    && o2 == o.(filled := o2.filled, averageFill := o2.averageFill, status := o2.status, completed := o2.completed)
  }

  /** The pass that fills the rest of one order. */
  lemma FillOne(cfg: Config, s: State, user: string, k: OrderKey, linked: set<OrderKey>, side: Side)
    returns (step: Step)
    requires Good(s.db) && Reachable(s.db, user, linked) && k in ToFill(s.db.orders, linked, side)
    ensures step.Trading? && step.step.Books? && Enabled(cfg, s, step)
    ensures var s2 := Next(cfg, s, step);
      && s2.signals == s.signals && Good(s2.db) && Reachable(s2.db, user, linked)
      && s2 == s.(db := s2.db) && s2.db.halts == s.db.halts && k in s2.db.orders
      && s2.db.orders == s.db.orders[k := s2.db.orders[k]] && Filled(s.db.orders[k], s2.db.orders[k])
      && ToFill(s2.db.orders, linked, side) == ToFill(s.db.orders, linked, side) - {k}
      && Sum(s2.db.orders, linked, Share(side)) == Sum(s.db.orders, linked, Share(side))
  {
    var o := s.db.orders[k];
    var id := FreshText(s.db.executions);
    var rows := Listing(SelectedLive(s.db, user));
    var t := Trade(o.brokerId.value, id, o.quantity - o.filled, 1.0);
    step := Trading(R.Books(user, rows, [], [t]));
    assert IsLive(s.db, user, k) && Unfilled(o, side);
    hide Next, Good, Distinct, Reachable, Pass, SelectedLive, FillOrder, Sum, Share, IsLive, Imported;
    Unseen(s.db.executions, user, id);
    OneFills(s.db, user, rows, k, t);
    TradingNext(cfg, s, step.step);
    R.StepKeepsGood(cfg.trading, s.db, step.step);
    FilledShares(o, 1.0, side);
    FilledTable(s.db, Next(cfg, s, step).db, user, linked, side, k, FillOrder(o, t.quantity, 1.0));
  }

  lemma Unseen(es: seq<Execution>, user: string, id: string)
    requires forall e :: e in es && e.id.Some? && e.id.value.Exchange? ==> |e.id.value.text| < |id|
    ensures !Imported(es, user, Some(Exchange(id)))
  {
  }

  lemma FilledTable(db: Db, db2: Db, user: string, linked: set<OrderKey>, side: Side, k: OrderKey, o2: Order)
    requires Reachable(db, user, linked) && k in db.orders && db2.orders == db.orders[k := o2]
    requires Share(side)(o2) == Share(side)(db.orders[k]) && o2.status == Status.Filled
    requires o2.mode == db.orders[k].mode && o2.brokerId == db.orders[k].brokerId
    ensures Reachable(db2, user, linked) && ToFill(db2.orders, linked, side) == ToFill(db.orders, linked, side) - {k}
    ensures Sum(db2.orders, linked, Share(side)) == Sum(db.orders, linked, Share(side))
  {
    StillReachable(db, user, linked, k, o2, db2);
    hide Reachable, Sum, Share;
    SumMoves(db.orders, linked, Share(side), k, o2);
  }

  /** Both ends of the range are reached: by passes that each find one trade, the exposure comes to what it is with every open
      order of that side filled whole. */
  lemma {:induction false} EndIsReached(cfg: Config, s: State, sid: string, user: string, side: Side)
    returns (steps: seq<Step>)
    requires Good(s.db) && Reachable(s.db, user, Linked(s.signals, sid))
    requires forall k :: k in Linked(s.signals, sid) ==> k in s.db.orders
    ensures OnlyBooks(steps)
    ensures Exposure(After(cfg, s, steps).db.executions, Linked(s.signals, sid)) as real
         == Sum(s.db.orders, Linked(s.signals, sid), Share(side))
    decreases |ToFill(s.db.orders, Linked(s.signals, sid), side)|
  {
    hide Good, Reachable, Linked, Next, Enabled, Sum, Share, After;
    var linked := Linked(s.signals, sid);
    if k :| k in ToFill(s.db.orders, linked, side) {
      var step := FillOne(cfg, s, user, k, linked, side);
      var rest := EndIsReached(cfg, Next(cfg, s, step), sid, user, side);
      steps := [step] + rest;
      AfterJoins(cfg, s, [step], rest);
      OneStep(cfg, s, step);
    } else {
      steps := [];
      NoSteps(cfg, s);
      AtTheEnd(s.db, linked, side);
    }
  }

  lemma NoSteps(cfg: Config, s: State)
    ensures After(cfg, s, []) == s
  {
  }

  lemma OneStep(cfg: Config, s: State, step: Step)
    requires Enabled(cfg, s, step)
    ensures After(cfg, s, [step]) == Next(cfg, s, step)
  {
    hide Next, Enabled;
    AfterOne(cfg, s, [], step);
    assert [] + [step] == [step];
  }

  // ---------------------------------------------------------------- main results

  /** Passes alone take the exposure out of these bounds. */
  ghost predicate Leaves(cfg: Config, s: State, sid: string, steps: seq<Step>, least: int, most: int) {
    OnlyBooks(steps) && !(least <= Exposure(After(cfg, s, steps).db.executions, Linked(s.signals, sid)) <= most)
  }

  /** Main result: trades alone can take a strategy's exposure out of given bounds if and only if its range is not within
      them. So what `ExposureStaysLong` keeps cannot be weakened. */
  lemma LeavesExactly(cfg: Config, s: State, sid: string, user: string, least: int, most: int)
    requires Good(s.db) && Reachable(s.db, user, Linked(s.signals, sid))
    requires forall k :: k in Linked(s.signals, sid) ==> k in s.db.orders
    ensures (exists steps :: Leaves(cfg, s, sid, steps, least, most))
       <==> !(least as real <= Low(s.db.orders, Linked(s.signals, sid))
              && High(s.db.orders, Linked(s.signals, sid)) <= most as real)
  {
    hide Good, Reachable, Linked, After, Sum;
    var linked := Linked(s.signals, sid);
    if steps :| Leaves(cfg, s, sid, steps, least, most) {
      TradesStayInRange(cfg, s, sid, steps);
    }
    if Low(s.db.orders, linked) < least as real {
      var steps := EndIsReached(cfg, s, sid, user, Sell);
      assert Leaves(cfg, s, sid, steps, least, most);
    }
    if High(s.db.orders, linked) > most as real {
      var steps := EndIsReached(cfg, s, sid, user, Buy);
      assert Leaves(cfg, s, sid, steps, least, most);
    }
  }

  /** Main result, for every edit and every late answer, each of which rewrites one row (`NeverShort.RewritesRow`): after it,
      trades alone can take the strategy's exposure below zero or above its last BUY if and only if the order may now sell
      more than was left, or buy more than was allowed. */
  lemma RewriteLeavesExactly(cfg: Config, s: State, sid: string, user: string, db2: Db, r: N.Rewrite)
    requires N.NotShort(s) && r.key in s.db.orders && r.before == s.db.orders[r.key] && r.key in Linked(s.signals, sid)
    requires Good(db2) && db2.orders == s.db.orders[r.key := r.after] && Reachable(db2, user, Linked(s.signals, sid))
    ensures (exists steps :: Leaves(cfg, s.(db := db2), sid, steps, 0, N.LastBuy(s, sid)))
       <==> (N.MoreSold(r) as real > Low(s.db.orders, Linked(s.signals, sid))
             || N.MoreBought(r) as real > N.LastBuy(s, sid) as real - High(s.db.orders, Linked(s.signals, sid)))
  {
    hide Good, Reachable, Linked, N.NotShort, Sum, Leaves, N.MoreSold, N.MoreBought;
    N.LinkedExist(s, sid);
    N.RowRange(s.db, db2, Linked(s.signals, sid), r);
    LeavesExactly(cfg, s.(db := db2), sid, user, 0, N.LastBuy(s, sid));
  }

  /** The refused cancel: it reopens an order that is closed already with all that is unfilled, so the strategy can be sold
      short exactly when a SELL is reopened and its rest is more than is left. */
  lemma LateRefusalShortsExactly(cfg: Config, s: State, sid: string, user: string, k: OrderKey, prior: Status, code: string)
    requires N.NotShort(s) && k in Linked(s.signals, sid) && k in s.db.orders && prior in OpenStatuses()
    requires s.db.orders[k].mode == Mode.Live && s.db.orders[k].side == Sell && s.db.orders[k].status !in OpenStatuses()
    requires Reachable(ReplyCancel(s.db, k, prior, BrokerError(code, false)), user, Linked(s.signals, sid))
    ensures (exists steps :: Leaves(cfg, s.(db := ReplyCancel(s.db, k, prior, BrokerError(code, false))), sid, steps, 0,
                                    N.LastBuy(s, sid)))
       <==> (s.db.orders[k].quantity - s.db.orders[k].filled) as real > Low(s.db.orders, Linked(s.signals, sid))
  {
    var o, db2 := s.db.orders[k], ReplyCancel(s.db, k, prior, BrokerError(code, false));
    N.CoversOf(s, sid);
    N.GoodTables(s);
    AnswerIsGood(cfg, s.db, k, prior, BrokerError(code, false));
    hide Good, Reachable, Linked, N.NotShort, Sum, Leaves;
    RewriteLeavesExactly(cfg, s, sid, user, db2, N.Rewrite(k, o, db2.orders[k]));
  }

  lemma AnswerIsGood(cfg: Config, db: Db, k: OrderKey, prior: Status, reply: Reply)
    requires Good(db) && k in db.orders && db.orders[k].mode == Mode.Live && prior in OpenStatuses()
    ensures Good(ReplyCancel(db, k, prior, reply))
  {
    hide Good, CancelReplied;
    R.StepKeepsGood(cfg.trading, db, R.CancelAnswer(k, prior, reply));
  }

  /** An edit that a live broker accepts: raising a SELL by more than is left lets the strategy be sold short, and nothing less
      does. */
  lemma RaisedSellShortsExactly(cfg: Config, s: State, sid: string, user: string, k: OrderKey, quantity: int, price: real,
                                reply: Reply)
    requires N.NotShort(s) && k in Linked(s.signals, sid) && k in s.db.orders
    requires s.db.orders[k].mode == Mode.Live && s.db.orders[k].side == Sell && s.db.orders[k].orderType == Limit
    requires s.db.orders[k].status in OpenStatuses() && quantity >= 1 && quantity >= s.db.orders[k].filled
    requires reply.Response? && MapStatus(reply.status) in OpenStatuses()
    requires Reachable(PutRow(s.db, k, ModifyReplied(s.db.orders[k], quantity, price, reply)), user, Linked(s.signals, sid))
    ensures (exists steps :: Leaves(cfg, s.(db := PutRow(s.db, k, ModifyReplied(s.db.orders[k], quantity, price, reply))), sid,
                                    steps, 0, N.LastBuy(s, sid)))
       <==> (quantity - s.db.orders[k].quantity) as real > Low(s.db.orders, Linked(s.signals, sid))
  {
    var o, o2 := s.db.orders[k], ModifyReplied(s.db.orders[k], quantity, price, reply);
    N.CoversOf(s, sid);
    N.GoodTables(s);
    NotNegative(s.db, k);
    EditIsGood(cfg, s.db, k, quantity, price, reply);
    hide Good, Reachable, Linked, N.NotShort, Sum, Leaves, MapStatus;
    RewriteLeavesExactly(cfg, s, sid, user, PutRow(s.db, k, o2), N.Rewrite(k, o, o2));
  }

  lemma EditIsGood(cfg: Config, db: Db, k: OrderKey, quantity: int, price: real, reply: Reply)
    requires Good(db) && k in db.orders && db.orders[k].mode == Mode.Live && db.orders[k].orderType == Limit
    requires db.orders[k].status in OpenStatuses() && quantity >= 1 && quantity >= db.orders[k].filled >= 0
    ensures Good(PutRow(db, k, ModifyReplied(db.orders[k], quantity, price, reply)))
  {
    hide Good, ModifyReplied;
    R.StepKeepsGood(cfg.trading, db, R.Modify(k, quantity, price, None, true, true, reply));
  }
}
