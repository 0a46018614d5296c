/** Which orders are taken, and why the others are not (backend/app/trading/engine.py, service.py). */
module Admission {
  import opened Ledger
  import opened Options
  import opened Paper
  import opened Live

  function Resting(db: Db, user: string): set<OrderKey> {
    set k | k in db.orders && k.user == user
         && db.orders[k].status in {Pending, Open, PartiallyFilled, CancelPending, Unknown}
  }

  /** The position of the order's instrument, mode and product if the order were filled whole. */
  function Reached(db: Db, user: string, t: Ticket, mode: Mode): int {
    var pk := PositionKey(user, t.instrument, mode, t.product);
    (if pk in db.positions then db.positions[pk].quantity else 0) + if t.side == Buy then t.quantity else -t.quantity
  }

  predicate IsFresh(cfg: Settings, quote: Option<Quote>, now: real) {
    quote.Some? && !quote.value.stale && now - quote.value.receivedAt <= cfg.staleAfter
  }

  predicate IsAffordable(cfg: Settings, db: Db, user: string, t: Ticket, price: real, mode: Mode) {
    && Everyone !in db.halts && OneUser(user) !in db.halts
    && t.quantity <= cfg.maxQuantity && t.quantity as real * price <= cfg.maxNotional
    && |Resting(db, user)| < cfg.maxOpen
    && -cfg.maxPosition <= Reached(db, user, t, mode) <= cfg.maxPosition
  }

  lemma RiskExactly(cfg: Settings, db: Db, user: string, t: Ticket, price: real, mode: Mode)
    ensures RiskCheck(cfg, db, user, t, price, mode).None? <==> IsAffordable(cfg, db, user, t, price, mode)
    ensures var e := RiskCheck(cfg, db, user, t, price, mode);
      e.Some? ==> Explains(e.value, cfg, db, user, t, price, mode)
  {
    assert OpenOrders(db, user) == Resting(db, user);
  }

  /** The reason that a risk check gives is a fact. */
  predicate Explains(e: Error, cfg: Settings, db: Db, user: string, t: Ticket, price: real, mode: Mode) {
    match e
    case TradingHalted => Everyone in db.halts || OneUser(user) in db.halts
    case MaxOrderQuantityExceeded => t.quantity > cfg.maxQuantity
    case MaxOrderNotionalExceeded => t.quantity as real * price > cfg.maxNotional
    case MaxOpenOrdersExceeded => |Resting(db, user)| >= cfg.maxOpen
    case MaxPositionExceeded => Reached(db, user, t, mode) > cfg.maxPosition || Reached(db, user, t, mode) < -cfg.maxPosition
    case _ => false
  }

  predicate HasLimit(t: Ticket) {
    t.orderType == Limit ==> t.limitPrice.Some?
  }

  /** The row is the one the ticket asked for. */
  predicate IsRepeat(o: Order, t: Ticket) {
    && o.instrument == t.instrument && o.side == t.side && o.orderType == t.orderType && o.product == t.product
    && o.validity == t.validity && o.quantity == t.quantity && o.limitPrice == t.limitPrice
  }

  /** Main result: the paper engine takes an order exactly when its client id is new, a LIMIT order has its limit, a MARKET order
      a fresh quote, and the order is affordable at the last price, or at its limit where there is no quote. */
  lemma PaperTaken(cfg: Settings, db: Db, user: string, t: Ticket, quote: Option<Quote>, now: real)
    requires Sound(db) && PaperRules(db) && t.quantity >= 1 && cfg.mode == PaperMode
    ensures PlacePaper(cfg, db, user, t, quote, now).Inserted? <==>
      && OrderKey(user, t.client) !in db.orders && HasLimit(t)
      && (t.orderType == Market ==> IsFresh(cfg, quote, now)) && (quote.Some? || t.limitPrice.Some?)
      && IsAffordable(cfg, db, user, t, if quote.Some? then quote.value.ltp else t.limitPrice.value, Mode.Paper)
  {
    PlaceKeepsRules(cfg, db, user, t, quote, now);
    if quote.Some? {
      RiskExactly(cfg, db, user, t, quote.value.ltp, Mode.Paper);
    } else if t.limitPrice.Some? {
      RiskExactly(cfg, db, user, t, t.limitPrice.value, Mode.Paper);
    }
    hide RiskCheck, IsAffordable, FillRest, IsCrossing, Sound, PaperRules;
  }

  /** Main result: in live trading an order is written, and then sent, exactly when the live gate is open, its client id is new,
      a LIMIT order has its limit, the quote is fresh, the order is affordable at the last price, and a broker is connected. */
  lemma LiveTaken(
      cfg: Settings, gate: bool, connected: bool, db: Db, user: string, t: Ticket, quote: Option<Quote>, now: real)
    requires cfg.mode == LiveMode
    ensures PlaceLive(cfg, gate, connected, db, user, t, quote, now).Inserted? <==>
      && gate && connected && OrderKey(user, t.client) !in db.orders && HasLimit(t) && IsFresh(cfg, quote, now)
      && IsAffordable(cfg, db, user, t, quote.value.ltp, Mode.Live)
  {
    if quote.Some? {
      RiskExactly(cfg, db, user, t, quote.value.ltp, Mode.Live);
    }
    hide RiskCheck, IsAffordable;
  }

  /** Every refusal has the reason it gives, a conflict is a client id with other terms, and what is found again has the same. */
  lemma RefusalsExplained(
      cfg: Settings, gate: bool, connected: bool, db: Db, user: string, t: Ticket, quote: Option<Quote>, now: real)
    requires Sound(db) && PaperRules(db) && t.quantity >= 1
    ensures var r, k := PlaceLive(cfg, gate, connected, db, user, t, quote, now), OrderKey(user, t.client);
      match r {
        case Inserted(_) => cfg.mode != Disabled
        case Existing => k in db.orders && IsRepeat(db.orders[k], t)
        case Refused(TradingDisabled) => cfg.mode == Disabled
        case Refused(LiveGateClosed) => cfg.mode == LiveMode && !gate
        case Refused(IdempotencyConflict) => k in db.orders && !IsRepeat(db.orders[k], t)
        case Refused(LimitPriceRequired) => t.orderType == Limit && t.limitPrice == None
        case Refused(LiveQuoteRequired) => quote == None
        case Refused(StaleMarketData) =>
          quote.Some? && (quote.value.stale || now - quote.value.receivedAt > cfg.staleAfter)
        case Refused(RiskPriceRequired) => quote == None && t.limitPrice == None
        case Refused(ConnectionRequired) => cfg.mode == LiveMode && !connected
        case Refused(e) =>
          || (quote.Some? && Explains(e, cfg, db, user, t, quote.value.ltp, if cfg.mode == PaperMode then Mode.Paper else Mode.Live))
          || (quote == None && t.limitPrice.Some? && Explains(e, cfg, db, user, t, t.limitPrice.value, Mode.Paper))
      }
  {
    PlaceKeepsRules(cfg, db, user, t, quote, now);
    if quote.Some? {
      RiskExactly(cfg, db, user, t, quote.value.ltp, Mode.Live);
      RiskExactly(cfg, db, user, t, quote.value.ltp, Mode.Paper);
    } else if t.limitPrice.Some? {
      RiskExactly(cfg, db, user, t, t.limitPrice.value, Mode.Paper);
    }
    hide RiskCheck, FillRest, IsCrossing, Sound, PaperRules, Resting, Reached;
  }
}
