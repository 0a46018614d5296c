/** What the paper engine does with an order and a quote, in terms of the ticket and of the two sides of the quote
    (backend/app/trading/engine.py). */
module Matching {
  import opened Ledger
  import opened Options
  import opened Paper

  /** The one execution of an order that is filled whole at this quote. */
  ghost predicate IsWholeFill(e: Execution, k: OrderKey, o: Order, q: Quote, bps: real) {
    e.order == k && e.side == o.side && e.quantity == o.quantity && IsPriced(e.price, o.side, o.orderType, q, bps)
  }

  predicate IsFilled(o: Order) {
    o.status == Status.Filled && o.filled == o.quantity && o.completed
  }

  lemma FillsRest(cfg: Settings, db: Db, k: OrderKey, q: Quote)
    requires Sound(db) && k in db.orders && db.orders[k].filled == 0 && db.orders[k].quantity >= 1
    requires IsCrossing(db.orders[k], q)
    ensures var r, o := FillRest(cfg, db, k, q), db.orders[k];
      && r.Some? && r.value.orders.Keys == db.orders.Keys && FilledFrom(o, r.value.orders[k])
      && (forall k2 :: k2 in db.orders && k2 != k ==> r.value.orders[k2] == db.orders[k2])
      && |r.value.executions| == |db.executions| + 1 && db.executions <= r.value.executions
      && IsWholeFill(r.value.executions[|db.executions|], k, o, q, cfg.slippageBps)
  {
    var o := db.orders[k];
    WholeFillApplies(cfg, db, k, q);
    CrossingIsFair(o, q, cfg.slippageBps);
    FilledRow(o, FillPrice(o, q, cfg.slippageBps));
    hide Sound, FillRest, FillPrice, FillOrder, IsCrossing, IsPriced;
  }

  /** Placing writes the ticket as a paper order. With a quote a MARKET order, and a LIMIT order that reaches the other side, is
      filled whole at once by one execution at that side; otherwise nothing trades, an IOC order ends and a DAY order rests. */
  lemma PlacedExactly(cfg: Settings, db: Db, user: string, t: Ticket, quote: Option<Quote>, now: real)
    requires Sound(db) && PaperRules(db) && t.quantity >= 1 && PlacePaper(cfg, db, user, t, quote, now).Inserted?
    ensures var db2, k := PlacePaper(cfg, db, user, t, quote, now).db, OrderKey(user, t.client);
      && k !in db.orders && k in db2.orders && db.executions <= db2.executions
      && var o := db2.orders[k];
      && o.mode == Mode.Paper && o.instrument == t.instrument && o.side == t.side && o.orderType == t.orderType
      && o.product == t.product && o.validity == t.validity && o.quantity == t.quantity && o.limitPrice == t.limitPrice
      && (t.orderType == Limit ==> t.limitPrice.Some?)
      && if quote.Some? && (t.orderType == Market || Reaches(t.side, t.limitPrice.value, quote.value))
         then IsFilled(o) && |db2.executions| == |db.executions| + 1
              && IsWholeFill(db2.executions[|db.executions|], k, o, quote.value, cfg.slippageBps)
         else db2.executions == db.executions && o.filled == 0
              && if t.validity == Ioc then o.status == Canceled && o.completed else o.status == Open && !o.completed
  {
    hide RiskCheck, QuoteCheck, FillRest, IsCrossing, Sound, PaperRules, IsPriced, Reaches;
    var k, o := OrderKey(user, t.client), NewOrder(t, Mode.Paper, Open);
    if quote.Some? {
      CrossingIsFair(o, quote.value, cfg.slippageBps);
      if IsCrossing(o, quote.value) {
        RowKeeps(db, k, o);
        FillsRest(cfg, PutRow(db, k, o), k, quote.value);
      }
    }
  }

  /** Cancelling an open paper order ends it as CANCELED, completed and otherwise as it was; no other order can be cancelled. */
  lemma CanceledExactly(db: Db, k: OrderKey)
    requires k in db.orders
    ensures var o := db.orders[k];
      if o.mode == Mode.Paper && o.status in {Pending, Open, PartiallyFilled, CancelPending, Unknown} then
        CancelPaper(db, k)
        == Changed(db.(orders := db.orders[k := o.(status := Canceled, completed := true, version := o.version + 1)]))
      else CancelPaper(db, k) == Failed(OrderNotCancelable)
  {
    assert OpenStatuses() == {Pending, Open, PartiallyFilled, CancelPending, Unknown};
  }

  /** Modifying gives an order the new quantity and limit, and fills it whole by one execution at the other side of the quote
      when the new limit reaches it. */
  lemma ModifiedExactly(cfg: Settings, db: Db, k: OrderKey, quantity: int, limitPrice: real, quote: Option<Quote>)
    requires Sound(db) && PaperRules(db) && k in db.orders && db.orders[k].filled >= 0
    requires ModifyPaper(cfg, db, k, quantity, limitPrice, quote).Changed?
    ensures var db2, o := ModifyPaper(cfg, db, k, quantity, limitPrice, quote).db, db.orders[k];
      && o.mode == Mode.Paper && o.orderType == Limit && o.status in OpenStatuses() && quantity >= 1
      && k in db2.orders && db.executions <= db2.executions
      && var o2 := db2.orders[k];
      && o2.quantity == quantity && o2.limitPrice == Some(limitPrice) && o2.version == o.version + 1
      && o2.side == o.side && o2.orderType == Limit && o2.instrument == o.instrument && o2.mode == Mode.Paper
      && if quote.Some? && Reaches(o.side, limitPrice, quote.value)
         then IsFilled(o2) && |db2.executions| == |db.executions| + 1
              && IsWholeFill(db2.executions[|db.executions|], k, o2, quote.value, cfg.slippageBps)
         else db2.executions == db.executions && o2.filled == o.filled && o2.status == o.status
  {
    hide FillRest, IsCrossing, Sound, FairFills, IsPriced, Reaches;
    var o := db.orders[k];
    var o2 := o.(quantity := quantity, limitPrice := Some(limitPrice), version := o.version + 1);
    assert AllOrNothing(o);
    if quote.Some? {
      CrossingIsFair(o2, quote.value, cfg.slippageBps);
      if IsCrossing(o2, quote.value) {
        RowKeeps(db, k, o2);
        FillsRest(cfg, PutRow(db, k, o2), k, quote.value);
      }
    }
  }

  /** Everything the loop trades is a whole fill of one of its orders, at the other side of the quote. */
  ghost predicate Traded(db: Db, db2: Db, q: Quote, keys: seq<OrderKey>, bps: real) {
    && db.executions <= db2.executions
    && forall i :: |db.executions| <= i < |db2.executions| ==>
         var k := db2.executions[i].order;
         k in keys && k in db.orders && IsWholeFill(db2.executions[i], k, db.orders[k], q, bps)
  }

  lemma OneMoreTraded(db: Db, db1: Db, db2: Db, q: Quote, init: seq<OrderKey>, k: OrderKey, bps: real)
    requires Traded(db, db1, q, init, bps) && k in db.orders
    requires db2.executions == db1.executions
      || (|db2.executions| == |db1.executions| + 1 && db1.executions <= db2.executions
          && IsWholeFill(db2.executions[|db1.executions|], k, db.orders[k], q, bps))
    ensures Traded(db, db2, q, init + [k], bps)
  {
    hide IsPriced;
    forall i | |db.executions| <= i < |db2.executions|
      ensures var k2 := db2.executions[i].order;
        k2 in init + [k] && k2 in db.orders && IsWholeFill(db2.executions[i], k2, db.orders[k2], q, bps)
    {
      if i < |db1.executions| {
        assert db2.executions[i] == db1.executions[i];
      }
    }
  }

  lemma {:induction false} FillAllExactly(cfg: Settings, db: Db, q: Quote, keys: seq<OrderKey>)
    requires Sound(db) && PaperRules(db)
    requires forall i :: 0 <= i < |keys| ==>
      keys[i] in db.orders && db.orders[keys[i]].mode == Mode.Paper && db.orders[keys[i]].status == Open
    requires forall i, j :: 0 <= i < j < |keys| ==> keys[i] != keys[j]
    ensures FillAll(cfg, db, q, keys).Some?
    ensures Traded(db, FillAll(cfg, db, q, keys).value, q, keys, cfg.slippageBps)
  {
    hide FillRest, IsCrossing, Sound, FairFills, IsWholeFill, FilledFrom;
    if keys != [] {
      var init, k := keys[..|keys| - 1], keys[|keys| - 1];
      FillAllExactly(cfg, db, q, init);
      FillAllKeepsRules(cfg, db, q, init);
      var db1 := FillAll(cfg, db, q, init).value;
      assert k !in init && keys == init + [k];
      assert AllOrNothing(db.orders[k]);
      hide Traded, PaperRules, AllOrNothing;
      if IsCrossing(db1.orders[k], q) {
        FillsRest(cfg, db1, k, q);
      }
      OneMoreTraded(db, db1, FillAll(cfg, db, q, keys).value, q, init, k, cfg.slippageBps);
    }
  }

  /** An open paper order rests with its limit, and crosses exactly when that reaches the quote. */
  lemma OpenRests(db: Db, k: OrderKey, q: Quote)
    requires PaperRules(db) && k in db.orders && db.orders[k].mode == Mode.Paper && db.orders[k].status in OpenStatuses()
    ensures db.orders[k].status == Open && db.orders[k].limitPrice.Some?
    ensures IsCrossing(db.orders[k], q) <==> Reaches(db.orders[k].side, db.orders[k].limitPrice.value, q)
  {
    assert AllOrNothing(db.orders[k]);
    CrossingIsFair(db.orders[k], q, 0.0);
    hide IsCrossing, Reaches, FairFills;
  }

  /** Main result: a quote fills exactly the resting orders of its user and instrument whose limit reaches the other side of it,
      each whole, leaves all other orders as they are, and everything it trades is at that side. */
  lemma QuoteFillsExactly(cfg: Settings, db: Db, user: string, q: Quote, keys: seq<OrderKey>)
    requires Sound(db) && PaperRules(db) && Lists(keys, Selected(db, user, q.instrument))
    ensures var db2 := ProcessQuote(cfg, db, q, keys);
      && Traded(db, db2, q, keys, cfg.slippageBps) && db2.orders.Keys == db.orders.Keys
      && forall k :: k in db.orders ==>
           var o := db.orders[k];
           if k.user == user && o.instrument == q.instrument && o.mode == Mode.Paper && o.status in OpenStatuses()
              && o.limitPrice.Some? && Reaches(o.side, o.limitPrice.value, q)
           then FilledFrom(o, db2.orders[k]) else db2.orders[k] == o
  {
    hide IsCrossing, Sound, PaperRules, Reaches, Traded, FilledFrom;
    forall k | k in db.orders && db.orders[k].mode == Mode.Paper && db.orders[k].status in OpenStatuses()
      ensures db.orders[k].status == Open && db.orders[k].limitPrice.Some?
      ensures IsCrossing(db.orders[k], q) <==> Reaches(db.orders[k].side, db.orders[k].limitPrice.value, q)
    {
      OpenRests(db, k, q);
    }
    assert forall k :: k in keys <==> k in Selected(db, user, q.instrument);
    forall i | 0 <= i < |keys|
      ensures keys[i] in db.orders && db.orders[keys[i]].mode == Mode.Paper && db.orders[keys[i]].status == Open
    {
      assert keys[i] in Selected(db, user, q.instrument);
    }
    FillAllExactly(cfg, db, q, keys);
    FillAllKeepsRules(cfg, db, q, keys);
  }
}
