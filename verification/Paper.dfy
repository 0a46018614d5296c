/** The paper engine: place, cancel, modify and process_quote with their risk checks
    (backend/app/trading/engine.py). */
module Paper {
  import opened Ledger
  import opened Options

  datatype TradingMode = Disabled | PaperMode | LiveMode

  /** The settings the engines read; constant over a run. */
  datatype Settings = Settings(
    mode: TradingMode, maxQuantity: int, maxNotional: real, maxOpen: int, maxPosition: int,
    slippageBps: real, staleAfter: real)
  {
    /** The lower bounds the settings class declares. */
    predicate Valid() {
      maxQuantity >= 1 && maxOpen >= 1 && maxPosition >= 1 && maxNotional > 0.0 && staleAfter > 0.0
    }
  }

  datatype Quote = Quote(
    instrument: string, ltp: real, bid: Option<real>, ask: Option<real>, stale: bool, receivedAt: real)

  /** What a caller asks for. */
  datatype Ticket = Ticket(
    client: string, instrument: string, side: Side, orderType: OrderType, product: Product, validity: Validity,
    quantity: int, limitPrice: Option<real>)

  datatype Error =
    | PaperTradingDisabled | TradingDisabled | LiveGateClosed | ConnectionRequired
    | IdempotencyConflict | LimitPriceRequired | RiskPriceRequired
    | LiveQuoteRequired | StaleMarketData | TradingHalted | MaxOrderQuantityExceeded | MaxOrderNotionalExceeded
    | MaxOpenOrdersExceeded | MaxPositionExceeded | InvalidExecutionQuantity
    | OrderNotCancelable | OrderNotModifiable | QuantityBelowFilled
    | BrokerFailure(code: string)

  datatype Placed = Inserted(db: Db) | Existing | Refused(error: Error)
  datatype Changed = Changed(db: Db) | Failed(error: Error)

  // ---------------------------------------------------------------- prices

  function OrElse(price: Option<real>, other: real): real {
    if price.Some? && price.value != 0.0 then price.value else other
  }

  function Reference(side: Side, q: Quote): real {
    if side == Buy then OrElse(q.ask, q.ltp) else OrElse(q.bid, q.ltp)
  }

  predicate IsCrossing(o: Order, q: Quote) {
    o.orderType == Market
    || (o.limitPrice.Some?
        && if o.side == Buy then o.limitPrice.value >= Reference(o.side, q)
           else o.limitPrice.value <= Reference(o.side, q))
  }

  function Min(a: real, b: real): real {
    if a < b then a else b
  }

  function Max(a: real, b: real): real {
    if a > b then a else b
  }

  function FillPrice(o: Order, q: Quote, bps: real): real {
    var reference := Reference(o.side, q);
    if o.orderType == Limit then
      var limit := OrElse(o.limitPrice, reference);
      if o.side == Buy then Min(limit, reference) else Max(limit, reference)
    else
      reference * (if o.side == Buy then 1.0 + bps / 10000.0 else 1.0 - bps / 10000.0)
  }

  // ---------------------------------------------------------------- checks

  function QuoteCheck(cfg: Settings, quote: Option<Quote>, now: real): Option<Error> {
    if quote.None? then Some(LiveQuoteRequired)
    else if quote.value.stale || now - quote.value.receivedAt > cfg.staleAfter then Some(StaleMarketData)
    else None
  }

  function OpenOrders(db: Db, user: string): set<OrderKey> {
    set k | k in db.orders && k.user == user && db.orders[k].status in OpenStatuses()
  }

  predicate Halted(db: Db, user: string) {
    Everyone in db.halts || OneUser(user) in db.halts
  }

  function RiskCheck(cfg: Settings, db: Db, user: string, t: Ticket, price: real, mode: Mode): Option<Error> {
    var pk := PositionKey(user, t.instrument, mode, t.product);
    if Halted(db, user) then Some(TradingHalted)
    else if t.quantity > cfg.maxQuantity then Some(MaxOrderQuantityExceeded)
    else if t.quantity as real * price > cfg.maxNotional then Some(MaxOrderNotionalExceeded)
    else if |OpenOrders(db, user)| >= cfg.maxOpen then Some(MaxOpenOrdersExceeded)
    else if Abs(PositionAt(db, pk).quantity + Signed(t.side, t.quantity)) > cfg.maxPosition then
      Some(MaxPositionExceeded)
    else None
  }

  predicate Matches(o: Order, t: Ticket) {
    o.instrument == t.instrument && o.side == t.side && o.orderType == t.orderType && o.product == t.product
    && o.validity == t.validity && o.quantity == t.quantity && o.limitPrice == t.limitPrice
  }

  // ---------------------------------------------------------------- specification of the four operations

  function NewOrder(t: Ticket, mode: Mode, status: Status): Order {
    Order(t.instrument, mode, t.side, t.orderType, t.product, t.validity, t.quantity, t.limitPrice,
          0, None, status, None, None, 1, false)
  }

  function PutRow(db: Db, k: OrderKey, o: Order): Db {
    db.(orders := db.orders[k := o])
  }

  /** Fills all that is left of order `k` at this quote. */
  function FillRest(cfg: Settings, db: Db, k: OrderKey, q: Quote): Option<Db>
    requires k in db.orders && db.orders[k].filled >= 0
  {
    var o := db.orders[k];
    ApplyExecution(db, k, o.quantity - o.filled, FillPrice(o, q, cfg.slippageBps), FreshId(db))
  }

  function PlaceCheck(cfg: Settings, db: Db, user: string, t: Ticket, quote: Option<Quote>, now: real): Option<Error> {
    if t.orderType == Limit && t.limitPrice.None? then Some(LimitPriceRequired)
    else if t.orderType == Market && QuoteCheck(cfg, quote, now).Some? then QuoteCheck(cfg, quote, now)
    else if quote.Some? then RiskCheck(cfg, db, user, t, quote.value.ltp, Mode.Paper)
    else if t.limitPrice.Some? then RiskCheck(cfg, db, user, t, t.limitPrice.value, Mode.Paper)
    else Some(RiskPriceRequired)
  }

  function PlacePaper(cfg: Settings, db: Db, user: string, t: Ticket, quote: Option<Quote>, now: real): Placed {
    var k := OrderKey(user, t.client);
    if cfg.mode != PaperMode then Refused(PaperTradingDisabled)
    else if k in db.orders then
      if Matches(db.orders[k], t) then Existing else Refused(IdempotencyConflict)
    else if PlaceCheck(cfg, db, user, t, quote, now).Some? then
      Refused(PlaceCheck(cfg, db, user, t, quote, now).value)
    else
      var o := NewOrder(t, Mode.Paper, Open);
      var added := PutRow(db, k, o);
      if quote.Some? && IsCrossing(o, quote.value) then
        var r := FillRest(cfg, added, k, quote.value);
        if r.Some? then Inserted(r.value) else Refused(InvalidExecutionQuantity)
      else if t.validity == Ioc then
        Inserted(PutRow(db, k, o.(status := Canceled, completed := true)))
      else Inserted(added)
  }

  function CancelPaper(db: Db, k: OrderKey): Changed
    requires k in db.orders
  {
    var o := db.orders[k];
    if o.mode != Mode.Paper || o.status !in OpenStatuses() then Failed(OrderNotCancelable)
    else Changed(PutRow(db, k, o.(status := Canceled, completed := true, version := o.version + 1)))
  }

  function ModifyPaper(
      cfg: Settings, db: Db, k: OrderKey, quantity: int, limitPrice: real, quote: Option<Quote>): Changed
    requires k in db.orders && db.orders[k].filled >= 0
  {
    var o := db.orders[k];
    if o.mode != Mode.Paper || o.status !in OpenStatuses() || o.orderType != Limit then Failed(OrderNotModifiable)
    else if quantity < 1 || quantity < o.filled then Failed(QuantityBelowFilled)
    else
      var o2 := o.(quantity := quantity, limitPrice := Some(limitPrice), version := o.version + 1);
      var changed := PutRow(db, k, o2);
      if quote.Some? && IsCrossing(o2, quote.value) then
        var r := FillRest(cfg, changed, k, quote.value);
        if r.Some? then Changed(r.value) else Failed(InvalidExecutionQuantity)
      else Changed(changed)
  }

  function Selected(db: Db, user: string, instrument: string): set<OrderKey> {
    set k | k in db.orders && k.user == user && db.orders[k].instrument == instrument
         && db.orders[k].mode == Mode.Paper && db.orders[k].status in {Open, PartiallyFilled}
  }

  /** `keys` lists the set `s`, each member once: one of the orders in which a query may return rows. */
  predicate Lists(keys: seq<OrderKey>, s: set<OrderKey>) {
    && (forall k :: k in keys ==> k in s)
    && (forall k :: k in s ==> k in keys)
    && (forall i, j :: 0 <= i < j < |keys| ==> keys[i] != keys[j])
  }

  /** The loop of process_quote over the first rows of `keys`. `None` is a refused execution. */
  function FillAll(cfg: Settings, db: Db, q: Quote, keys: seq<OrderKey>): Option<Db> {
    if keys == [] then Some(db)
    else
      var k := keys[|keys| - 1];
      match FillAll(cfg, db, q, keys[..|keys| - 1])
      case None => None
      case Some(db1) =>
        if k in db1.orders && db1.orders[k].filled >= 0 && IsCrossing(db1.orders[k], q)
        then FillRest(cfg, db1, k, q) else Some(db1)
  }

  function ProcessQuote(cfg: Settings, db: Db, q: Quote, keys: seq<OrderKey>): Db {
    var r := FillAll(cfg, db, q, keys);
    if r.Some? then r.value else db
  }

  // ---------------------------------------------------------------- invariants of paper orders

  /** All or nothing: an order is unfilled or filled whole, and only a DAY LIMIT order rests. */
  predicate AllOrNothing(o: Order) {
    o.mode == Mode.Paper ==>
      && o.quantity >= 1 && (o.filled == 0 || o.filled == o.quantity)
      && o.status in {Open, Status.Filled, Canceled}
      && (o.status == Status.Filled <==> o.filled == o.quantity)
      && (o.status == Open ==> o.orderType == Limit && o.validity == Day && o.limitPrice.Some?)
  }

  /** No fill of a limit order is worse than its limit. */
  predicate NoWorseThanLimit(o: Order, price: real) {
    o.orderType == Limit ==>
      o.limitPrice.Some? && if o.side == Buy then price <= o.limitPrice.value else price >= o.limitPrice.value
  }

  ghost predicate FairFills(db: Db) {
    forall i :: 0 <= i < |db.executions| && db.executions[i].order in db.orders
      && db.orders[db.executions[i].order].mode == Mode.Paper
      ==> NoWorseThanLimit(db.orders[db.executions[i].order], db.executions[i].price)
  }

  ghost predicate PaperRules(db: Db) {
    (forall k :: k in db.orders ==> AllOrNothing(db.orders[k])) && FairFills(db)
  }

  /** As PaperRules, except for the row `k` that an operation is in the middle of changing. */
  ghost predicate PaperRulesBut(db: Db, k: OrderKey) {
    (forall k2 :: k2 in db.orders && k2 != k ==> AllOrNothing(db.orders[k2])) && FairFills(db)
  }

  // ---------------------------------------------------------------- lemmas about one order

  /** A filled whole order has a fill; an unfilled one has none. */
  lemma NoFillsYet(db: Db, k: OrderKey)
    requires Sound(db) && k in db.orders && db.orders[k].filled == 0
    ensures forall i :: 0 <= i < |db.executions| ==> db.executions[i].order != k
  {
    NoneOf(db.executions, k);
  }

  lemma {:induction false} NoneOf(es: seq<Execution>, k: OrderKey)
    requires forall i :: 0 <= i < |es| ==> es[i].quantity > 0
    ensures FilledBy(es, k) >= 0
    ensures FilledBy(es, k) == 0 ==> forall i :: 0 <= i < |es| ==> es[i].order != k
  {
    if es != [] {
      NoneOf(es[..|es| - 1], k);
      assert forall i :: 0 <= i < |es| - 1 ==> es[i] == es[..|es| - 1][i];
    }
  }

  /** This side of the quote carries a price. */
  predicate Shown(price: Option<real>) {
    price.Some? && price.value != 0.0
  }

  /** What a buyer pays: the ask, or the last price when no ask is shown. */
  function PriceToBuy(q: Quote): real {
    if Shown(q.ask) then q.ask.value else q.ltp
  }

  /** What a seller gets: the bid, or the last price when no bid is shown. */
  function PriceToSell(q: Quote): real {
    if Shown(q.bid) then q.bid.value else q.ltp
  }

  /** The limit reaches the other side of the quote. */
  predicate Reaches(side: Side, limit: real, q: Quote) {
    if side == Buy then limit >= PriceToBuy(q) else limit <= PriceToSell(q)
  }

  /** A limit order trades at the other side of the quote; a market order pays the slippage on top, or gets that much less. */
  predicate IsPriced(price: real, side: Side, orderType: OrderType, q: Quote, bps: real) {
    if orderType == Limit then price == if side == Buy then PriceToBuy(q) else PriceToSell(q)
    else if side == Buy then 10000.0 * (price - PriceToBuy(q)) == bps * PriceToBuy(q)
    else 10000.0 * (PriceToSell(q) - price) == bps * PriceToSell(q)
  }

  /** A limit order crosses exactly when its limit reaches the other side of the quote. It then fills at that side, so never
      worse than its limit; a market order pays exactly the slippage. */
  lemma CrossingIsFair(o: Order, q: Quote, bps: real)
    ensures IsCrossing(o, q) <==> o.orderType == Market || (o.limitPrice.Some? && Reaches(o.side, o.limitPrice.value, q))
    ensures IsCrossing(o, q) ==>
      NoWorseThanLimit(o, FillPrice(o, q, bps)) && IsPriced(FillPrice(o, q, bps), o.side, o.orderType, q, bps)
  {
    if o.orderType == Market {
      var reference := Reference(o.side, q);
      Slips(reference, bps);
    }
  }

  lemma Slips(reference: real, bps: real)
    ensures 10000.0 * (reference * (1.0 + bps / 10000.0) - reference) == bps * reference
    ensures 10000.0 * (reference - reference * (1.0 - bps / 10000.0)) == bps * reference
  {
    var part := bps / 10000.0;
    assert 10000.0 * part == bps;
    assert reference * (1.0 + part) == reference + reference * part && reference * (1.0 - part) == reference - reference * part;
    assert 10000.0 * (reference * part) == reference * (10000.0 * part);
  }

  /** `o2` is `o` filled whole. */
  predicate FilledFrom(o: Order, o2: Order) {
    o2 == o.(filled := o.quantity, averageFill := o2.averageFill, status := Status.Filled, completed := true)
  }

  /** Filling a crossing paper order whole is never refused, and restores the rules. */
  lemma FillWhole(cfg: Settings, db: Db, k: OrderKey, q: Quote)
    requires Sound(db) && PaperRulesBut(db, k) && k in db.orders
    requires db.orders[k].mode == Mode.Paper && db.orders[k].filled == 0 && db.orders[k].quantity >= 1
    requires IsCrossing(db.orders[k], q)
    ensures FillRest(cfg, db, k, q).Some?
    ensures var db2 := FillRest(cfg, db, k, q).value;
      && Sound(db2) && PaperRules(db2)
      && db2.orders.Keys == db.orders.Keys && FilledFrom(db.orders[k], db2.orders[k])
      && (forall k2 :: k2 in db.orders && k2 != k ==> db2.orders[k2] == db.orders[k2])
  {
    hide FillPrice, Sound, FairFills, FillOrder, NoWorseThanLimit;
    var o := db.orders[k];
    var price := FillPrice(o, q, cfg.slippageBps);
    WholeFillApplies(cfg, db, k, q);
    hide FillRest;
    CrossingIsFair(o, q, cfg.slippageBps);
    FilledRow(o, price);
    var db2 := FillRest(cfg, db, k, q).value;
    FillIsFair(db, k, db2.orders[k], db2.executions[|db.executions|]);
    SameFairness(PutRow(db, k, db2.orders[k]).(executions := db2.executions), db2);
  }

  lemma WholeFillApplies(cfg: Settings, db: Db, k: OrderKey, q: Quote)
    requires Sound(db) && k in db.orders && db.orders[k].filled == 0 && db.orders[k].quantity >= 1
    ensures FillRest(cfg, db, k, q).Some?
    ensures var o, db2 := db.orders[k], FillRest(cfg, db, k, q).value;
      var price := FillPrice(o, q, cfg.slippageBps);
      && Sound(db2) && db2.orders == db.orders[k := FillOrder(o, o.quantity, price)]
      && db2.executions == db.executions + [Execution(k, FreshId(db), o.side, o.quantity, price)]
      && (forall pk :: pk != PositionKeyOf(k, o) ==> PositionAt(db2, pk) == PositionAt(db, pk))
      && PositionAt(db2, PositionKeyOf(k, o)).quantity
         == PositionAt(db, PositionKeyOf(k, o)).quantity + Signed(o.side, o.quantity)
  {
    hide FillPrice, FillOrder, PositionAfter;
    var o := db.orders[k];
    var price := FillPrice(o, q, cfg.slippageBps);
    FreshIsUnseen(db, k.user);
    ApplyKeepsSound(db, k, o.quantity, price, FreshId(db));
    hide Sound;
    QuantityAfter(PositionAt(db, PositionKeyOf(k, o)), Signed(o.side, o.quantity), price);
  }

  lemma QuantityAfter(p: Position, signed: int, price: real)
    requires signed != 0
    ensures PositionAfter(p, signed, price).quantity == p.quantity + signed
  {
  }

  lemma FillIsFair(db: Db, k: OrderKey, o2: Order, e: Execution)
    requires FairFills(db) && k in db.orders && e.order == k && NoWorseThanLimit(o2, e.price)
    requires o2 == db.orders[k].(filled := o2.filled, averageFill := o2.averageFill, status := o2.status,
                                 completed := o2.completed)
    ensures FairFills(PutRow(db, k, o2).(executions := db.executions + [e]))
  {
    var db2 := PutRow(db, k, o2).(executions := db.executions + [e]);
    forall i | 0 <= i < |db2.executions| && db2.executions[i].order in db2.orders
        && db2.orders[db2.executions[i].order].mode == Mode.Paper
      ensures NoWorseThanLimit(db2.orders[db2.executions[i].order], db2.executions[i].price)
    {
      if i < |db.executions| {
        assert db2.executions[i] == db.executions[i];
      }
    }
  }

  lemma SameFairness(a: Db, b: Db)
    requires FairFills(a) && a.orders == b.orders && a.executions == b.executions
    ensures FairFills(b)
  {
  }

  lemma FilledRow(o: Order, price: real)
    requires o.filled == 0 && o.quantity >= 1
    ensures var o2 := FillOrder(o, o.quantity, price);
      o2 == o.(filled := o.quantity, averageFill := o2.averageFill, status := Status.Filled, completed := true)
  {
  }

  lemma FreshIsUnseen(db: Db, user: string)
    requires SerialsBelow(db)
    ensures !Imported(db.executions, user, FreshId(db))
  {
  }

  /** Writing a row that keeps the fill counters keeps the ledger and the rules of all other rows. */
  lemma RowKeeps(db: Db, k: OrderKey, o2: Order)
    requires Sound(db) && PaperRules(db)
    requires if k in db.orders
      then PositionKeyOf(k, o2) == PositionKeyOf(k, db.orders[k]) && o2.side == db.orders[k].side
        && o2.filled == db.orders[k].filled && o2.averageFill == db.orders[k].averageFill
        && (o2.filled == 0 || (o2.limitPrice == db.orders[k].limitPrice && o2.orderType == db.orders[k].orderType))
      else o2.filled == 0 && o2.averageFill == None
    requires 0 <= o2.filled <= o2.quantity
    ensures Sound(PutRow(db, k, o2)) && PaperRulesBut(PutRow(db, k, o2), k)
  {
    RowsKeepSound(db, db.orders[k := o2]);
    if k in db.orders && o2.filled == 0 {
      NoFillsYet(db, k);
    }
    assert k !in db.orders ==> forall i :: 0 <= i < |db.executions| ==> db.executions[i].order != k;
    hide Sound, NoWorseThanLimit;
  }

  // ---------------------------------------------------------------- the four operations keep the rules

  predicate IsFor(o: Order, t: Ticket) {
    o.side == t.side && o.quantity == t.quantity
  }

  /** `db2` differs from `db` in the paper row `k` only. */
  ghost predicate OnlyRow(db: Db, db2: Db, k: OrderKey) {
    && k in db2.orders && db2.orders[k].mode == Mode.Paper && db2.orders.Keys == db.orders.Keys + {k}
    && (forall k2 :: k2 in db.orders && k2 != k ==> db2.orders[k2] == db.orders[k2])
  }

  lemma PlaceKeepsRules(cfg: Settings, db: Db, user: string, t: Ticket, quote: Option<Quote>, now: real)
    requires Sound(db) && PaperRules(db) && t.quantity >= 1
    ensures var r := PlacePaper(cfg, db, user, t, quote, now);
      && r != Refused(InvalidExecutionQuantity)
      && (r.Inserted? ==> Sound(r.db) && PaperRules(r.db) && OnlyRow(db, r.db, OrderKey(user, t.client))
                          && OrderKey(user, t.client) !in db.orders && IsFor(r.db.orders[OrderKey(user, t.client)], t))
  {
    hide RiskCheck, FillRest, Sound, FairFills;
    var k := OrderKey(user, t.client);
    CheckedErrors(cfg, db, user, t, quote, now);
    if k !in db.orders && PlaceCheck(cfg, db, user, t, quote, now).None? {
      var o := NewOrder(t, Mode.Paper, Open);
      RowKeeps(db, k, o);
      RowKeeps(db, k, o.(status := Canceled, completed := true));
      if quote.Some? && IsCrossing(o, quote.value) {
        FillWhole(cfg, PutRow(db, k, o), k, quote.value);
      }
    }
  }

  lemma CheckedErrors(cfg: Settings, db: Db, user: string, t: Ticket, quote: Option<Quote>, now: real)
    ensures PlaceCheck(cfg, db, user, t, quote, now) != Some(InvalidExecutionQuantity)
  {
  }

  lemma CancelKeepsRules(db: Db, k: OrderKey)
    requires Sound(db) && PaperRules(db) && k in db.orders
    ensures var r := CancelPaper(db, k);
      r.Changed? ==> Sound(r.db) && PaperRules(r.db) && OnlyRow(db, r.db, k)
  {
    hide Sound, FairFills;
    var o := db.orders[k];
    if CancelPaper(db, k).Changed? {
      RowKeeps(db, k, o.(status := Canceled, completed := true, version := o.version + 1));
    }
  }

  lemma ModifyKeepsRules(cfg: Settings, db: Db, k: OrderKey, quantity: int, limitPrice: real, quote: Option<Quote>)
    requires Sound(db) && PaperRules(db) && k in db.orders
    ensures var r := ModifyPaper(cfg, db, k, quantity, limitPrice, quote);
      && r != Failed(InvalidExecutionQuantity)
      && (r.Changed? ==> Sound(r.db) && PaperRules(r.db) && OnlyRow(db, r.db, k))
  {
    hide FillRest, IsCrossing, Sound, FairFills;
    var o := db.orders[k];
    if o.mode == Mode.Paper && o.status in OpenStatuses() && o.orderType == Limit && quantity >= 1 {
      var o2 := o.(quantity := quantity, limitPrice := Some(limitPrice), version := o.version + 1);
      RowKeeps(db, k, o2);
      if quote.Some? && IsCrossing(o2, quote.value) {
        FillWhole(cfg, PutRow(db, k, o2), k, quote.value);
      }
    }
  }

  /** After the loop over `keys`: each of them was filled whole, or does not cross and is as before. */
  lemma {:induction false} FillAllKeepsRules(cfg: Settings, db: Db, q: Quote, keys: seq<OrderKey>)
    requires Sound(db) && PaperRules(db)
    requires forall i :: 0 <= i < |keys| ==>
      keys[i] in db.orders && db.orders[keys[i]].mode == Mode.Paper && db.orders[keys[i]].status == Open
    requires forall i, j :: 0 <= i < j < |keys| ==> keys[i] != keys[j]
    ensures FillAll(cfg, db, q, keys).Some?
    ensures var db2 := FillAll(cfg, db, q, keys).value;
      && Sound(db2) && PaperRules(db2) && db2.orders.Keys == db.orders.Keys
      && (forall k :: k in db.orders && k !in keys ==> db2.orders[k] == db.orders[k])
      && (forall k :: k in keys ==>
            if IsCrossing(db.orders[k], q) then FilledFrom(db.orders[k], db2.orders[k])
            else db2.orders[k] == db.orders[k])
  {
    hide FillRest, IsCrossing, Sound, FairFills;
    if keys != [] {
      var init, k := keys[..|keys| - 1], keys[|keys| - 1];
      FillAllKeepsRules(cfg, db, q, init);
      var db1 := FillAll(cfg, db, q, init).value;
      assert k !in init;
      assert forall k2 :: k2 in keys <==> k2 in init || k2 == k;
      if IsCrossing(db1.orders[k], q) {
        FillWhole(cfg, db1, k, q);
      }
    }
  }

  /** After a quote, every open BUY of that user and instrument has its limit below what a buyer pays, every open SELL above
      what a seller gets. */
  lemma NothingLeftCrossing(cfg: Settings, db: Db, user: string, q: Quote, keys: seq<OrderKey>)
    requires Sound(db) && PaperRules(db) && Lists(keys, Selected(db, user, q.instrument))
    ensures var db2 := ProcessQuote(cfg, db, q, keys);
      && Sound(db2) && PaperRules(db2)
      && forall k :: k in db2.orders && k.user == user && db2.orders[k].instrument == q.instrument
           && db2.orders[k].mode == Mode.Paper && db2.orders[k].status in OpenStatuses()
           ==> && db2.orders[k].limitPrice.Some?
               && if db2.orders[k].side == Buy then db2.orders[k].limitPrice.value < PriceToBuy(q)
                  else db2.orders[k].limitPrice.value > PriceToSell(q)
  {
    hide IsCrossing, Sound, FairFills;
    forall i | 0 <= i < |keys|
      ensures keys[i] in db.orders && db.orders[keys[i]].mode == Mode.Paper && db.orders[keys[i]].status == Open
    {
      assert keys[i] in Selected(db, user, q.instrument);
      assert AllOrNothing(db.orders[keys[i]]);
    }
    FillAllKeepsRules(cfg, db, q, keys);
    var db2 := ProcessQuote(cfg, db, q, keys);
    forall k | k in db2.orders && k.user == user && db2.orders[k].instrument == q.instrument
           && db2.orders[k].mode == Mode.Paper && db2.orders[k].status in OpenStatuses()
      ensures db2.orders[k].limitPrice.Some? && !Reaches(db2.orders[k].side, db2.orders[k].limitPrice.value, q)
    {
      assert db2.orders[k].status == Open;
      assert k in Selected(db, user, q.instrument);
      CrossingIsFair(db2.orders[k], q, 0.0);
    }
  }
}
