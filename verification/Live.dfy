/** Orders sent to the broker: each function is one committed segment of `OrderManager`
    (backend/app/trading/service.py). A broker reply is an input. */
module Live {
  import opened Ledger
  import opened Options
  import opened Paper
  import opened PositionBound

  /** What the broker call came back with: a parsed response, or an error with its ambiguity. */
  datatype Reply = Response(orderId: string, status: string) | BrokerError(code: string, ambiguous: bool)

  function Upper(text: string): string {
    seq(|text|, i requires 0 <= i < |text| => if 'a' <= text[i] <= 'z' then text[i] - ' ' else text[i])
  }

  /** `map_dhan_status`; a missing status is the empty string. */
  function MapStatus(text: string): Status {
    var s := Upper(text);
    if s == "TRANSIT" then Pending
    else if s == "PENDING" then Open
    else if s == "PART_TRADED" then PartiallyFilled
    else if s == "TRADED" then Status.Filled
    else if s == "CANCELLED" then Canceled
    else if s == "REJECTED" then Rejected
    else if s == "EXPIRED" then Expired
    else Unknown
  }

  predicate HasBroker(o: Order) {
    o.brokerId.Some? && o.brokerId.value != ""
  }

  // ---------------------------------------------------------------- the committed segments

  /** First commit of `place`: a PENDING row, before anything is sent. */
  function PlaceLive(
      cfg: Settings, gate: bool, connected: bool, db: Db, user: string, t: Ticket, quote: Option<Quote>, now: real)
    : Placed
  {
    var k := OrderKey(user, t.client);
    if cfg.mode == Disabled then Refused(TradingDisabled)
    else if cfg.mode == PaperMode then PlacePaper(cfg, db, user, t, quote, now)
    else if !gate then Refused(LiveGateClosed)
    else if k in db.orders then
      if Matches(db.orders[k], t) then Existing else Refused(IdempotencyConflict)
    else if t.orderType == Limit && t.limitPrice.None? then Refused(LimitPriceRequired)
    else if QuoteCheck(cfg, quote, now).Some? then Refused(QuoteCheck(cfg, quote, now).value)
    else if RiskCheck(cfg, db, user, t, quote.value.ltp, Mode.Live).Some? then
      Refused(RiskCheck(cfg, db, user, t, quote.value.ltp, Mode.Live).value)
    else if !connected then Refused(ConnectionRequired)
    else Inserted(PutRow(db, k, NewOrder(t, Mode.Live, Pending)))
  }

  /** Second commit of `place`, after the one POST. */
  function PlaceReplied(o: Order, r: Reply): Order {
    match r
    case Response(orderId, status) =>
      var s := MapStatus(status);
      o.(brokerId := if orderId != "" then Some(orderId) else None, status := s,
         completed := o.completed || s in {Rejected, Canceled, Expired})
    case BrokerError(code, ambiguous) =>
      o.(status := if ambiguous then Unknown else Rejected, reason := Some(code),
         completed := o.completed || !ambiguous)
  }

  function CancelStarted(o: Order): Order {
    o.(status := CancelPending, version := o.version + 1)
  }

  /** Second commit of `cancel`; `prior` is the status its first commit replaced. */
  function CancelReplied(o: Order, prior: Status, r: Reply): Order {
    match r
    case Response(_, status) =>
      var s := MapStatus(if status != "" then status else "CANCELLED");
      o.(status := s, completed := o.completed || s == Canceled)
    case BrokerError(code, ambiguous) =>
      o.(status := if ambiguous then Unknown else prior, reason := Some(code))
  }

  /** The one commit of `modify`: the new terms, or on an error the old ones again. */
  function ModifyReplied(o: Order, quantity: int, limitPrice: real, r: Reply): Order {
    match r
    case Response(_, status) =>
      o.(quantity := quantity, limitPrice := Some(limitPrice), status := MapStatus(status), version := o.version + 1)
    case BrokerError(code, ambiguous) =>
      o.(status := if ambiguous then Unknown else o.status, reason := Some(code))
  }

  function ReplyPlace(db: Db, k: OrderKey, r: Reply): Db
    requires k in db.orders
  {
    PutRow(db, k, PlaceReplied(db.orders[k], r))
  }

  function StartCancel(gate: bool, connected: bool, db: Db, k: OrderKey): Changed
    requires k in db.orders
  {
    if db.orders[k].status !in OpenStatuses() then Failed(OrderNotCancelable)
    else if db.orders[k].mode == Mode.Paper then CancelPaper(db, k)
    else if !gate then Failed(LiveGateClosed)
    else if !connected then Failed(ConnectionRequired)
    else Changed(PutRow(db, k, CancelStarted(db.orders[k])))
  }

  function ReplyCancel(db: Db, k: OrderKey, prior: Status, r: Reply): Db
    requires k in db.orders
  {
    PutRow(db, k, CancelReplied(db.orders[k], prior, r))
  }

  function ModifyLive(
      gate: bool, connected: bool, db: Db, k: OrderKey, quantity: int, limitPrice: real, r: Reply): Changed
    requires k in db.orders && db.orders[k].mode == Mode.Live
  {
    var o := db.orders[k];
    if !gate then Failed(LiveGateClosed)
    else if o.status !in OpenStatuses() || o.orderType != Limit then Failed(OrderNotModifiable)
    else if quantity < 1 || quantity < o.filled then Failed(QuantityBelowFilled)
    else if !connected then Failed(ConnectionRequired)
    else Changed(PutRow(db, k, ModifyReplied(o, quantity, limitPrice, r)))
  }

  // ---------------------------------------------------------------- placing

  /** What every accepted order had to satisfy before it was inserted, in paper and in live trading. */
  lemma InsertedWithinLimits(
      cfg: Settings, gate: bool, connected: bool, db: Db, user: string, t: Ticket, quote: Option<Quote>, now: real)
    requires PlaceLive(cfg, gate, connected, db, user, t, quote, now).Inserted?
    ensures Everyone !in db.halts && OneUser(user) !in db.halts && t.quantity <= cfg.maxQuantity && |OpenOrders(db, user)| < cfg.maxOpen
    ensures var mode := if cfg.mode == PaperMode then Mode.Paper else Mode.Live;
      Abs(PositionAt(db, PositionKey(user, t.instrument, mode, t.product)).quantity + Signed(t.side, t.quantity))
      <= cfg.maxPosition
    ensures t.orderType == Limit ==> t.limitPrice.Some?
    ensures if quote.Some? then t.quantity as real * quote.value.ltp <= cfg.maxNotional
            else t.orderType == Limit && t.quantity as real * t.limitPrice.value <= cfg.maxNotional
    ensures cfg.mode == LiveMode || t.orderType == Market ==>
      quote.Some? && !quote.value.stale && now - quote.value.receivedAt <= cfg.staleAfter
  {
    hide FillRest;
  }

  /** Placing is idempotent: the same request again finds its order whatever the market does meanwhile, and another request
      under the same client id is refused. */
  lemma PlaceIsIdempotent(
      cfg: Settings, gate: bool, connected: bool, db: Db, user: string, t: Ticket, quote: Option<Quote>, now: real,
      connected2: bool, t2: Ticket, quote2: Option<Quote>, now2: real)
    requires PlaceLive(cfg, gate, connected, db, user, t, quote, now).Inserted? && t2.client == t.client
    ensures var db2 := PlaceLive(cfg, gate, connected, db, user, t, quote, now).db;
      PlaceLive(cfg, true, connected2, db2, user, t2, quote2, now2)
      == if t2 == t then Existing else Refused(IdempotencyConflict)
  {
    PlacedRow(cfg, gate, connected, db, user, t, quote, now);
    hide PlaceCheck, RiskCheck, QuoteCheck, IsCrossing, FillRest;
  }

  lemma PlacedRow(
      cfg: Settings, gate: bool, connected: bool, db: Db, user: string, t: Ticket, quote: Option<Quote>, now: real)
    requires PlaceLive(cfg, gate, connected, db, user, t, quote, now).Inserted?
    ensures var db2 := PlaceLive(cfg, gate, connected, db, user, t, quote, now).db;
      OrderKey(user, t.client) in db2.orders && Matches(db2.orders[OrderKey(user, t.client)], t)
  {
    hide PlaceCheck, RiskCheck, QuoteCheck, IsCrossing, FillPrice, PositionAfter, Blend;
  }

  // ---------------------------------------------------------------- what they keep

  /** A FILLED order is filled to its quantity. */
  predicate FilledIsComplete(db: Db) {
    forall k :: k in db.orders && db.orders[k].status == Status.Filled ==> db.orders[k].filled == db.orders[k].quantity
  }

  /** Rewriting a live row without touching its fills keeps every ledger and paper invariant. */
  lemma LiveRowKeeps(cfg: Settings, db: Db, k: OrderKey, o2: Order)
    requires Sound(db) && PaperRules(db) && o2.mode == Mode.Live && 0 <= o2.filled <= o2.quantity
    requires if k in db.orders
      then PositionKeyOf(k, o2) == PositionKeyOf(k, db.orders[k]) && o2.side == db.orders[k].side
        && o2.filled == db.orders[k].filled && o2.averageFill == db.orders[k].averageFill
      else o2.filled == 0 && o2.averageFill == None
    ensures Sound(PutRow(db, k, o2)) && PaperRules(PutRow(db, k, o2))
    ensures Bounded(cfg, db) ==> Bounded(cfg, PutRow(db, k, o2))
  {
    RowsKeepSound(db, db.orders[k := o2]);
    hide Sound;
    LiveRowKeepsRules(db, k, o2);
    hide PaperRules, FairFills;
    if Bounded(cfg, db) {
      LessRestingKeepsBound(cfg, db, k, o2);
    }
  }

  lemma LiveRowKeepsRules(db: Db, k: OrderKey, o2: Order)
    requires PaperRules(db) && ExecutionsLinked(db) && o2.mode == Mode.Live
    requires k in db.orders ==> db.orders[k].mode == Mode.Live
    ensures PaperRules(PutRow(db, k, o2))
  {
    hide NoWorseThanLimit, AllOrNothing;
    assert AllOrNothing(o2) by { LiveIsFree(o2); }
  }

  lemma LiveIsFree(o: Order)
    requires o.mode == Mode.Live
    ensures AllOrNothing(o)
  {
  }

  /** A reply to a placed order keeps "FILLED is complete" exactly when it does not call an unfilled order TRADED. */
  lemma ReplyCompleteness(db: Db, k: OrderKey, r: Reply)
    requires FilledIsComplete(db) && k in db.orders
    ensures FilledIsComplete(ReplyPlace(db, k, r))
      <==> !(r.Response? && MapStatus(r.status) == Status.Filled && db.orders[k].filled != db.orders[k].quantity)
  {
    hide MapStatus;
    var db2 := ReplyPlace(db, k, r);
    assert db2.orders[k] == PlaceReplied(db.orders[k], r);
    assert forall k2 :: k2 in db.orders && k2 != k ==> db2.orders[k2] == db.orders[k2];
  }

  lemma CancelCompleteness(db: Db, k: OrderKey, prior: Status, r: Reply)
    requires FilledIsComplete(db) && k in db.orders && prior in OpenStatuses()
    ensures FilledIsComplete(ReplyCancel(db, k, prior, r))
      <==> !(r.Response? && MapStatus(r.status) == Status.Filled && db.orders[k].filled != db.orders[k].quantity)
  {
    assert MapStatus("CANCELLED") == Canceled && MapStatus("") == Unknown;
    hide MapStatus;
    var db2 := ReplyCancel(db, k, prior, r);
    assert db2.orders[k] == CancelReplied(db.orders[k], prior, r);
    assert forall k2 :: k2 in db.orders && k2 != k ==> db2.orders[k2] == db.orders[k2];
  }

  lemma ModifyCompleteness(gate: bool, connected: bool, db: Db, k: OrderKey, quantity: int, price: real, r: Reply)
    requires FilledIsComplete(db) && k in db.orders && db.orders[k].mode == Mode.Live
    requires ModifyLive(gate, connected, db, k, quantity, price, r).Changed?
    ensures FilledIsComplete(ModifyLive(gate, connected, db, k, quantity, price, r).db)
      <==> !(r.Response? && MapStatus(r.status) == Status.Filled && db.orders[k].filled != quantity)
  {
    hide MapStatus;
    var db2 := ModifyLive(gate, connected, db, k, quantity, price, r).db;
    assert db2.orders[k] == ModifyReplied(db.orders[k], quantity, price, r);
    assert forall k2 :: k2 in db.orders && k2 != k ==> db2.orders[k2] == db.orders[k2];
  }
}
