/** How far paper positions can go: resting orders are not counted by the position limit, so the real
    bound is the limit plus what the other open orders may still fill. */
module PositionBound {
  import opened Ledger
  import opened Options
  import opened Totals
  import opened Paper

  predicate RestsAt(k: OrderKey, o: Order, pk: PositionKey, side: Side) {
    o.status in OpenStatuses() && o.side == side && PositionKeyOf(k, o) == pk
  }

  /** What the open orders of one position and side may still fill. */
  ghost function Resting(db: Db, pk: PositionKey, side: Side): map<OrderKey, real> {
    map k | k in db.orders && RestsAt(k, db.orders[k], pk, side)
      :: (db.orders[k].quantity - db.orders[k].filled) as real
  }

  /** Position toward `side`, plus all that rests on that side. */
  ghost function Load(db: Db, pk: PositionKey, side: Side): real {
    Signed(side, PositionAt(db, pk).quantity) as real + Total(Resting(db, pk, side))
  }

  function Cap(cfg: Settings): int {
    cfg.maxPosition + (cfg.maxOpen - 1) * cfg.maxQuantity
  }

  ghost predicate Loaded(cfg: Settings, db: Db) {
    forall pk: PositionKey, side {:trigger Load(db, pk, side)} :: pk.mode == Mode.Paper ==> Load(db, pk, side) <= Cap(cfg) as real
  }

  predicate SmallRests(cfg: Settings, db: Db) {
    forall k :: k in db.orders && db.orders[k].mode == Mode.Paper && db.orders[k].status in OpenStatuses()
      ==> 0 <= db.orders[k].quantity - db.orders[k].filled <= cfg.maxQuantity
  }

  ghost predicate Bounded(cfg: Settings, db: Db) {
    Loaded(cfg, db) && SmallRests(cfg, db)
  }

  ghost function Share(db: Db, k: OrderKey, pk: PositionKey, side: Side): real {
    if k in db.orders && RestsAt(k, db.orders[k], pk, side)
    then (db.orders[k].quantity - db.orders[k].filled) as real else 0.0
  }

  /** Rewriting one row moves the resting total by that row's share. */
  lemma RestingMoves(db: Db, db2: Db, k: OrderKey, pk: PositionKey, side: Side)
    requires k in db2.orders && db2.orders == db.orders[k := db2.orders[k]]
    ensures Total(Resting(db2, pk, side)) - Share(db2, k, pk, side)
         == Total(Resting(db, pk, side)) - Share(db, k, pk, side)
  {
    assert Resting(db2, pk, side) - {k} == Resting(db, pk, side) - {k};
    TotalWithout(Resting(db, pk, side), k);
    TotalWithout(Resting(db2, pk, side), k);
  }

  lemma RestingIsSmall(cfg: Settings, db: Db, pk: PositionKey, side: Side)
    requires cfg.Valid() && SmallRests(cfg, db) && pk.mode == Mode.Paper
    ensures 0.0 <= Total(Resting(db, pk, side)) <= Times(|OpenOrders(db, pk.user)|, cfg.maxQuantity as real)
  {
    var m := Resting(db, pk, side);
    TotalAtMost(m, cfg.maxQuantity as real);
    assert |m| == |m.Keys|;
    SubsetSize(m.Keys, OpenOrders(db, pk.user));
    MoreTimes(|m|, |OpenOrders(db, pk.user)|, cfg.maxQuantity as real);
  }

  /** The risk check leaves room for the new order on top of everything that rests. */
  lemma CheckLeavesRoom(cfg: Settings, db: Db, user: string, t: Ticket, price: real)
    requires cfg.Valid() && SmallRests(cfg, db) && RiskCheck(cfg, db, user, t, price, Mode.Paper).None?
    ensures Load(db, PositionKey(user, t.instrument, Mode.Paper, t.product), t.side) + t.quantity as real
         <= Cap(cfg) as real
  {
    var pk := PositionKey(user, t.instrument, Mode.Paper, t.product);
    var n := |OpenOrders(db, user)|;
    RestingIsSmall(cfg, db, pk, t.side);
    MoreTimes(n, cfg.maxOpen - 1, cfg.maxQuantity as real);
    TimesIsProduct(cfg.maxOpen - 1, cfg.maxQuantity);
    hide Times;
    assert Signed(t.side, PositionAt(db, pk).quantity) + t.quantity <= cfg.maxPosition;
  }

  lemma TimesIsProduct(n: int, c: int)
    ensures Times(n, c as real) == (n * c) as real
  {
  }

  /** Inserting an order that passed the check keeps the bound. */
  lemma InsertKeepsBound(cfg: Settings, db: Db, user: string, t: Ticket, price: real, status: Status)
    requires cfg.Valid() && Bounded(cfg, db) && OrderKey(user, t.client) !in db.orders && t.quantity >= 1
    requires RiskCheck(cfg, db, user, t, price, Mode.Paper).None?
    ensures Bounded(cfg, PutRow(db, OrderKey(user, t.client), NewOrder(t, Mode.Paper, status)))
  {
    hide Total, Cap;
    var k := OrderKey(user, t.client);
    var o := NewOrder(t, Mode.Paper, status);
    var db2 := PutRow(db, k, o);
    CheckLeavesRoom(cfg, db, user, t, price);
    forall pk: PositionKey, side | pk.mode == Mode.Paper
      ensures Load(db2, pk, side) <= Cap(cfg) as real
    {
      RestingMoves(db, db2, k, pk, side);
      assert PositionAt(db2, pk) == PositionAt(db, pk);
      assert Load(db, pk, side) <= Cap(cfg) as real;
    }
  }

  /** Filling a resting order whole moves its share from the resting side into the position. */
  lemma FillKeepsLoad(cfg: Settings, db: Db, k: OrderKey, q: Quote, pk: PositionKey, side: Side)
    requires Sound(db) && k in db.orders && db.orders[k].filled == 0 && db.orders[k].quantity >= 1
    requires db.orders[k].status in OpenStatuses()
    ensures FillRest(cfg, db, k, q).Some?
    ensures var o, load2 := db.orders[k], Load(FillRest(cfg, db, k, q).value, pk, side);
      load2 == Load(db, pk, side)
             - if pk == PositionKeyOf(k, o) && side != o.side then o.quantity as real else 0.0
  {
    hide FillPrice, FillRest, Total, Sound;
    var o := db.orders[k];
    WholeFillApplies(cfg, db, k, q);
    FilledRow(o, FillPrice(o, q, cfg.slippageBps));
    RestingMoves(db, FillRest(cfg, db, k, q).value, k, pk, side);
    hide FillOrder;
  }

  lemma FillKeepsBound(cfg: Settings, db: Db, k: OrderKey, q: Quote)
    requires Sound(db) && Bounded(cfg, db) && k in db.orders && db.orders[k].mode == Mode.Paper
    requires db.orders[k].filled == 0 && db.orders[k].quantity >= 1 && db.orders[k].status in OpenStatuses()
    ensures FillRest(cfg, db, k, q).Some? && Bounded(cfg, FillRest(cfg, db, k, q).value)
  {
    hide FillPrice, FillRest, Load, Cap, Sound;
    WholeFillApplies(cfg, db, k, q);
    FilledRow(db.orders[k], FillPrice(db.orders[k], q, cfg.slippageBps));
    hide FillOrder;
    var db2 := FillRest(cfg, db, k, q).value;
    forall pk: PositionKey, side | pk.mode == Mode.Paper
      ensures Load(db2, pk, side) <= Cap(cfg) as real
    {
      FillKeepsLoad(cfg, db, k, q, pk, side);
      assert Load(db, pk, side) <= Cap(cfg) as real;
    }
  }

  /** Closing an open row, or changing nothing that rests, keeps the bound. */
  lemma LessRestingKeepsBound(cfg: Settings, db: Db, k: OrderKey, o2: Order)
    requires Bounded(cfg, db) && SmallRests(cfg, PutRow(db, k, o2))
    requires forall pk: PositionKey, side :: pk.mode == Mode.Paper ==> Share(PutRow(db, k, o2), k, pk, side) <= Share(db, k, pk, side)
    ensures Bounded(cfg, PutRow(db, k, o2))
  {
    hide Total, Cap;
    forall pk: PositionKey, side | pk.mode == Mode.Paper
      ensures Load(PutRow(db, k, o2), pk, side) <= Cap(cfg) as real
    {
      RestingMoves(db, PutRow(db, k, o2), k, pk, side);
      assert PositionAt(PutRow(db, k, o2), pk) == PositionAt(db, pk);
      assert Load(db, pk, side) <= Cap(cfg) as real;
    }
  }

  lemma PlaceKeepsBound(cfg: Settings, db: Db, user: string, t: Ticket, quote: Option<Quote>, now: real)
    requires cfg.Valid() && Sound(db) && PaperRules(db) && Bounded(cfg, db) && t.quantity >= 1
    ensures var r := PlacePaper(cfg, db, user, t, quote, now);
      r.Inserted? ==> Bounded(cfg, r.db)
  {
    hide RiskCheck, FillRest, Loaded, Sound, FairFills, IsCrossing;
    var k := OrderKey(user, t.client);
    if cfg.mode == PaperMode && k !in db.orders && PlaceCheck(cfg, db, user, t, quote, now).None? {
      var price := if quote.Some? then quote.value.ltp else t.limitPrice.value;
      var o := NewOrder(t, Mode.Paper, Open);
      InsertKeepsBound(cfg, db, user, t, price, Open);
      RowKeeps(db, k, o);
      if quote.Some? && IsCrossing(o, quote.value) {
        FillKeepsBound(cfg, PutRow(db, k, o), k, quote.value);
      } else if t.validity == Ioc {
        var o2 := o.(status := Canceled, completed := true);
        LessRestingKeepsBound(cfg, db, k, o2);
      }
    }
  }

  lemma CancelKeepsBound(cfg: Settings, db: Db, k: OrderKey)
    requires Bounded(cfg, db) && WithinQuantity(db) && k in db.orders
    ensures CancelPaper(db, k).Changed? ==> Bounded(cfg, CancelPaper(db, k).db)
  {
    var o := db.orders[k];
    if CancelPaper(db, k).Changed? {
      LessRestingKeepsBound(cfg, db, k, o.(status := Canceled, completed := true, version := o.version + 1));
    }
  }

  /** An edit that does not raise the quantity keeps the bound, also when it fills the order. */
  lemma ModifyKeepsBound(
      cfg: Settings, db: Db, k: OrderKey, quantity: int, limitPrice: real, quote: Option<Quote>)
    requires Sound(db) && PaperRules(db) && Bounded(cfg, db) && k in db.orders && db.orders[k].filled >= 0
    requires quantity <= db.orders[k].quantity
    ensures var r := ModifyPaper(cfg, db, k, quantity, limitPrice, quote);
      r.Changed? ==> Bounded(cfg, r.db)
  {
    hide FillRest, Loaded, Sound, FairFills, IsCrossing;
    var o := db.orders[k];
    if o.mode == Mode.Paper && o.status in OpenStatuses() && o.orderType == Limit && quantity >= 1 && quantity >= o.filled {
      var o2 := o.(quantity := quantity, limitPrice := Some(limitPrice), version := o.version + 1);
      RowKeeps(db, k, o2);
      LessRestingKeepsBound(cfg, db, k, o2);
      if quote.Some? && IsCrossing(o2, quote.value) {
        FillKeepsBound(cfg, PutRow(db, k, o2), k, quote.value);
      }
    }
  }

  lemma {:induction false} FillAllKeepsBound(cfg: Settings, db: Db, q: Quote, keys: seq<OrderKey>)
    requires Sound(db) && PaperRules(db) && Bounded(cfg, db)
    requires forall i :: 0 <= i < |keys| ==>
      keys[i] in db.orders && db.orders[keys[i]].mode == Mode.Paper && db.orders[keys[i]].status == Open
    requires forall i, j :: 0 <= i < j < |keys| ==> keys[i] != keys[j]
    ensures FillAll(cfg, db, q, keys).Some? && Bounded(cfg, FillAll(cfg, db, q, keys).value)
  {
    hide FillRest, IsCrossing, Sound, FairFills, Bounded;
    if keys != [] {
      var init, k := keys[..|keys| - 1], keys[|keys| - 1];
      FillAllKeepsBound(cfg, db, q, init);
      FillAllKeepsRules(cfg, db, q, init);
      var db1 := FillAll(cfg, db, q, init).value;
      assert k !in init;
      assert AllOrNothing(db1.orders[k]);
      if IsCrossing(db1.orders[k], q) {
        FillKeepsBound(cfg, db1, k, q);
      }
    }
  }

  /** The bound the invariant gives on every paper position. */
  lemma PositionWithinCap(cfg: Settings, db: Db, pk: PositionKey)
    requires cfg.Valid() && Bounded(cfg, db) && pk.mode == Mode.Paper
    ensures Abs(PositionAt(db, pk).quantity) <= cfg.maxPosition + (cfg.maxOpen - 1) * cfg.maxQuantity
  {
    RestingIsSmall(cfg, db, pk, Buy);
    RestingIsSmall(cfg, db, pk, Sell);
    assert Load(db, pk, Buy) <= Cap(cfg) as real && Load(db, pk, Sell) <= Cap(cfg) as real;
  }
}
