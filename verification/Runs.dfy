/** All runs of the trading system: every committed segment of the paper engine, the live order manager,
    the reconciler and the kill switch, in any order, with any quotes, books and broker replies. */
module Runs {
  import opened Ledger
  import opened Options
  import opened Paper
  import opened PositionBound
  import opened Live
  import opened Reconcile

  datatype Step =
    | Place(user: string, ticket: Ticket, quote: Option<Quote>, now: real, gate: bool, connected: bool)
    | PlaceAnswer(key: OrderKey, reply: Reply)
    | Cancel(key: OrderKey, gate: bool, connected: bool)
    | CancelAnswer(key: OrderKey, prior: Status, reply: Reply)
    | Modify(key: OrderKey, quantity: int, price: real, quote: Option<Quote>, gate: bool, connected: bool, reply: Reply)
    | Quoted(user: string, tick: Quote, rows: seq<OrderKey>)
    | Books(user: string, rows: seq<OrderKey>, items: seq<Item>, trades: seq<Trade>)
    | KillSwitch(scope: Scope, halted: bool)

  /** What the API schemas, the row lookups and the query results guarantee about a step. */
  predicate Enabled(db: Db, s: Step) {
    match s
    case Place(_, t, _, _, _, _) => t.quantity >= 1
    case PlaceAnswer(k, _) => k in db.orders && db.orders[k].mode == Mode.Live
    case Cancel(k, _, _) => k in db.orders
    case CancelAnswer(k, prior, _) => k in db.orders && db.orders[k].mode == Mode.Live && prior in OpenStatuses()
    case Modify(k, _, _, _, _, _, _) => k in db.orders && db.orders[k].filled >= 0
    case Quoted(user, q, rows) => Lists(rows, Selected(db, user, q.instrument))
    case Books(user, rows, _, _) => Lists(rows, SelectedLive(db, user))
    case KillSwitch(_, _) => true
  }

  function Next(cfg: Settings, db: Db, s: Step): Db
    requires Enabled(db, s)
  {
    match s
    case Place(user, t, quote, now, gate, connected) =>
      var r := PlaceLive(cfg, gate, connected, db, user, t, quote, now);
      if r.Inserted? then r.db else db
    case PlaceAnswer(k, reply) => ReplyPlace(db, k, reply)
    case Cancel(k, gate, connected) =>
      var r := StartCancel(gate, connected, db, k);
      if r.Changed? then r.db else db
    case CancelAnswer(k, prior, reply) => ReplyCancel(db, k, prior, reply)
    case Modify(k, quantity, price, quote, gate, connected, reply) =>
      var r := if db.orders[k].mode == Mode.Paper then ModifyPaper(cfg, db, k, quantity, price, quote)
               else ModifyLive(gate, connected, db, k, quantity, price, reply);
      if r.Changed? then r.db else db
    case Quoted(user, q, rows) => Paper.ProcessQuote(cfg, db, q, rows)
    case Books(user, rows, items, trades) => Pass(db, user, rows, items, trades)
    case KillSwitch(scope, halted) => db.(halts := if halted then db.halts + {scope} else db.halts - {scope})
  }

  const EMPTY := Db(map[], [], map[], {})

  /** The state after a run from empty tables; a step that is not enabled does nothing. */
  function After(cfg: Settings, steps: seq<Step>): Db {
    if steps == [] then EMPTY
    else
      var db, s := After(cfg, steps[..|steps| - 1]), steps[|steps| - 1];
      if Enabled(db, s) then Next(cfg, db, s) else db
  }

  /** A user edits a paper order to a larger quantity (the one operation that adds quantity without a risk check). */
  predicate RaisesPaper(db: Db, s: Step) {
    s.Modify? && s.key in db.orders && db.orders[s.key].mode == Mode.Paper && s.quantity > db.orders[s.key].quantity
  }

  /** The broker's direct answer calls an order TRADED that is not filled. */
  predicate FalseTraded(db: Db, s: Step) {
    match s
    case PlaceAnswer(k, Response(_, status)) => k in db.orders && MapStatus(status) == Status.Filled
      && db.orders[k].filled != db.orders[k].quantity
    case CancelAnswer(k, _, Response(_, status)) => k in db.orders && MapStatus(status) == Status.Filled
      && db.orders[k].filled != db.orders[k].quantity
    case Modify(k, quantity, _, _, _, _, Response(_, status)) => k in db.orders && db.orders[k].mode == Mode.Live
      && MapStatus(status) == Status.Filled && db.orders[k].filled != quantity
    case _ => false
  }

  ghost predicate Never(cfg: Settings, steps: seq<Step>, bad: (Db, Step) -> bool) {
    forall i :: 0 <= i < |steps| ==> !bad(After(cfg, steps[..i]), steps[i])
  }

  // ---------------------------------------------------------------- one step

  lemma RepliesKeep(cfg: Settings, db: Db, k: OrderKey, o2: Order)
    requires Good(db) && k in db.orders && db.orders[k].mode == Mode.Live
    requires o2.filled <= o2.quantity
    requires o2 == db.orders[k].(quantity := o2.quantity, limitPrice := o2.limitPrice, status := o2.status,
      brokerId := o2.brokerId, reason := o2.reason, version := o2.version, completed := o2.completed)
    ensures Good(PutRow(db, k, o2)) && (Bounded(cfg, db) ==> Bounded(cfg, PutRow(db, k, o2)))
  {
    NotNegative(db, k);
    hide Sound, PaperRules, Bounded;
    LiveRowKeeps(cfg, db, k, o2);
  }

  lemma InQuantity(db: Db, k: OrderKey)
    requires Good(db) && k in db.orders
    ensures 0 <= db.orders[k].filled <= db.orders[k].quantity
  {
  }

  /** Every step keeps the ledger and the paper rules. */
  lemma StepKeepsGood(cfg: Settings, db: Db, s: Step)
    requires Good(db) && Enabled(db, s)
    ensures Good(Next(cfg, db, s))
  {
    hide Sound, PaperRules, Bounded, FilledIsComplete, PlacePaper, CancelPaper, ModifyPaper, Pass, Paper.ProcessQuote,
      PlaceReplied, CancelReplied, MapStatus, RiskCheck, QuoteCheck;
    match s
    case Place(user, t, quote, now, gate, connected) =>
      PlaceKeepsRules(cfg, db, user, t, quote, now);
      if OrderKey(user, t.client) !in db.orders {
        LiveRowKeeps(cfg, db, OrderKey(user, t.client), NewOrder(t, Mode.Live, Pending));
      }
    case PlaceAnswer(k, reply) =>
      InQuantity(db, k);
      PlaceReplyShape(db.orders[k], reply);
      RepliesKeep(cfg, db, k, PlaceReplied(db.orders[k], reply));
    case Cancel(k, _, _) =>
      InQuantity(db, k);
      CancelKeepsRules(db, k);
      if db.orders[k].mode == Mode.Live {
        RepliesKeep(cfg, db, k, CancelStarted(db.orders[k]));
      }
    case CancelAnswer(k, prior, reply) =>
      InQuantity(db, k);
      CancelReplyShape(db.orders[k], prior, reply);
      RepliesKeep(cfg, db, k, CancelReplied(db.orders[k], prior, reply));
    case Modify(k, quantity, price, quote, _, _, reply) =>
      InQuantity(db, k);
      ModifyKeepsRules(cfg, db, k, quantity, price, quote);
      if db.orders[k].mode == Mode.Live && db.orders[k].filled <= quantity {
        RepliesKeep(cfg, db, k, ModifyReplied(db.orders[k], quantity, price, reply));
      }
    case Quoted(user, q, rows) => NothingLeftCrossing(cfg, db, user, q, rows);
    case Books(user, rows, items, trades) => PassKeeps(cfg, db, user, rows, items, trades);
    case KillSwitch(scope, halted) => HaltsDoNotMatter(cfg, db, Next(cfg, db, s));
  }

  lemma PlaceReplyShape(o: Order, r: Reply)
    ensures var o2 := PlaceReplied(o, r);
      o2 == o.(status := o2.status, brokerId := o2.brokerId, reason := o2.reason, completed := o2.completed)
  {
  }

  lemma CancelReplyShape(o: Order, prior: Status, r: Reply)
    ensures var o2 := CancelReplied(o, prior, r);
      o2 == o.(status := o2.status, reason := o2.reason, completed := o2.completed)
  {
  }

  lemma HaltsDoNotMatter(cfg: Settings, db: Db, db2: Db)
    requires db2 == db.(halts := db2.halts)
    ensures Good(db) ==> Good(db2)
    ensures Bounded(cfg, db) ==> Bounded(cfg, db2)
  {
    assert forall pk :: PositionAt(db2, pk) == PositionAt(db, pk);
    assert forall pk, side :: Resting(db2, pk, side) == Resting(db, pk, side);
    if Bounded(cfg, db) {
      forall pk: PositionKey, side | pk.mode == Mode.Paper
        ensures Load(db2, pk, side) <= Cap(cfg) as real
      {
        assert Load(db2, pk, side) == Load(db, pk, side);
      }
    }
    if Sound(db) {
      forall pk
        ensures PositionAt(db2, pk).quantity == NetFills(db2.orders, db2.executions, pk)
        ensures NetCost(PositionAt(db2, pk)) == FillsCost(db2.orders, db2.executions, pk)
        ensures PositionAt(db2, pk).quantity == 0 ==> PositionAt(db2, pk).average == 0.0
      {
        assert PositionAt(db2, pk) == PositionAt(db, pk);
      }
    }
  }

  lemma StepKeepsBound(cfg: Settings, db: Db, s: Step)
    requires cfg.Valid() && Good(db) && Bounded(cfg, db) && Enabled(db, s) && !RaisesPaper(db, s)
    ensures Bounded(cfg, Next(cfg, db, s))
  {
    hide Sound, PaperRules, Bounded, FilledIsComplete, PlacePaper, CancelPaper, ModifyPaper, Pass,
      PlaceReplied, CancelReplied, MapStatus, RiskCheck, QuoteCheck, FillAll;
    match s
    case Place(user, t, quote, now, gate, connected) =>
      PlaceKeepsBound(cfg, db, user, t, quote, now);
      if OrderKey(user, t.client) !in db.orders {
        LiveRowKeeps(cfg, db, OrderKey(user, t.client), NewOrder(t, Mode.Live, Pending));
      }
    case PlaceAnswer(k, reply) =>
      InQuantity(db, k);
      PlaceReplyShape(db.orders[k], reply);
      RepliesKeep(cfg, db, k, PlaceReplied(db.orders[k], reply));
    case Cancel(k, _, _) =>
      InQuantity(db, k);
      AllInQuantity(db);
      CancelKeepsBound(cfg, db, k);
      if db.orders[k].mode == Mode.Live {
        RepliesKeep(cfg, db, k, CancelStarted(db.orders[k]));
      }
    case CancelAnswer(k, prior, reply) =>
      InQuantity(db, k);
      CancelReplyShape(db.orders[k], prior, reply);
      RepliesKeep(cfg, db, k, CancelReplied(db.orders[k], prior, reply));
    case Modify(k, quantity, price, quote, _, _, reply) =>
      InQuantity(db, k);
      if db.orders[k].mode == Mode.Paper {
        ModifyKeepsBound(cfg, db, k, quantity, price, quote);
      } else if db.orders[k].filled <= quantity {
        RepliesKeep(cfg, db, k, ModifyReplied(db.orders[k], quantity, price, reply));
      }
    case Quoted(user, q, rows) =>
      SelectedAreOpen(db, user, q, rows);
      FillAllKeepsBound(cfg, db, q, rows);
    case Books(user, rows, items, trades) => PassKeeps(cfg, db, user, rows, items, trades);
    case KillSwitch(scope, halted) => HaltsDoNotMatter(cfg, db, Next(cfg, db, s));
  }

  lemma AllInQuantity(db: Db)
    requires Good(db)
    ensures WithinQuantity(db)
  {
  }

  lemma SelectedAreOpen(db: Db, user: string, q: Quote, rows: seq<OrderKey>)
    requires Good(db) && Lists(rows, Selected(db, user, q.instrument))
    ensures forall i :: 0 <= i < |rows| ==>
      rows[i] in db.orders && db.orders[rows[i]].mode == Mode.Paper && db.orders[rows[i]].status == Open
  {
    hide Sound, FairFills;
    forall i | 0 <= i < |rows|
      ensures rows[i] in db.orders && db.orders[rows[i]].mode == Mode.Paper && db.orders[rows[i]].status == Open
    {
      assert rows[i] in Selected(db, user, q.instrument);
      assert AllOrNothing(db.orders[rows[i]]);
    }
  }

  /** A step keeps "FILLED is complete" unless the broker's own answer contradicts it. */
  lemma StepKeepsComplete(cfg: Settings, db: Db, s: Step)
    requires Good(db) && FilledIsComplete(db) && Enabled(db, s) && !FalseTraded(db, s)
    ensures FilledIsComplete(Next(cfg, db, s))
  {
    hide Sound, FairFills, PlacePaper, CancelPaper, ModifyPaper, Pass, ModifyLive, MapStatus, RiskCheck, QuoteCheck,
      Paper.ProcessQuote, ReplyPlace, ReplyCancel, Bounded;
    StepKeepsGood(cfg, db, s);
    match s
    case Place(user, t, quote, now, gate, connected) =>
      PlaceKeepsRules(cfg, db, user, t, quote, now);
    case PlaceAnswer(k, reply) => ReplyCompleteness(db, k, reply);
    case Cancel(k, gate, connected) => CancelKeepsRules(db, k);
    case CancelAnswer(k, prior, reply) => CancelCompleteness(db, k, prior, reply);
    case Modify(k, quantity, price, quote, gate, connected, reply) =>
      if db.orders[k].mode == Mode.Paper {
        ModifyKeepsRules(cfg, db, k, quantity, price, quote);
      } else if ModifyLive(gate, connected, db, k, quantity, price, reply).Changed? {
        ModifyCompleteness(gate, connected, db, k, quantity, price, reply);
      }
    case Quoted(user, q, rows) =>
      SelectedAreOpen(db, user, q, rows);
      QuoteTouches(cfg, db, user, q, rows);
    case Books(user, rows, items, trades) => PassKeeps(cfg, db, user, rows, items, trades);
    case KillSwitch(scope, halted) =>
  }

  /** `db2` changes at most paper rows, all of which follow the paper rules. */
  ghost predicate OnlyPaper(db: Db, db2: Db) {
    && (forall k :: k in db2.orders && db2.orders[k].mode == Mode.Live ==> k in db.orders && db2.orders[k] == db.orders[k])
    && (forall k :: k in db2.orders ==> AllOrNothing(db2.orders[k]))
  }

  lemma QuoteTouches(cfg: Settings, db: Db, user: string, q: Quote, rows: seq<OrderKey>)
    requires Good(db) && Lists(rows, Selected(db, user, q.instrument))
    ensures OnlyPaper(db, Paper.ProcessQuote(cfg, db, q, rows))
  {
    SelectedAreOpen(db, user, q, rows);
    FillAllKeepsRules(cfg, db, q, rows);
    hide Sound, FairFills, IsCrossing, FillAll;
  }

  // ---------------------------------------------------------------- all runs

  /** Safety over every run: the ledger identities, exactly-once import and the paper rules always hold. */
  lemma {:induction false} EveryRunIsGood(cfg: Settings, steps: seq<Step>)
    ensures Good(After(cfg, steps))
    decreases |steps|
  {
    if steps == [] {
      EmptyIsGood(cfg);
    } else {
      EveryRunIsGood(cfg, steps[..|steps| - 1]);
      hide Good, Next, Enabled;
      var db, s := After(cfg, steps[..|steps| - 1]), steps[|steps| - 1];
      if Enabled(db, s) {
        StepKeepsGood(cfg, db, s);
      }
    }
  }

  lemma EmptyIsGood(cfg: Settings)
    ensures Good(EMPTY) && FilledIsComplete(EMPTY)
    ensures cfg.Valid() ==> Bounded(cfg, EMPTY)
  {
    assert forall pk :: PositionAt(EMPTY, pk) == FLAT;
    if cfg.Valid() {
      NonNegative(cfg.maxOpen - 1, cfg.maxQuantity);
      forall pk: PositionKey, side | pk.mode == Mode.Paper
        ensures Load(EMPTY, pk, side) <= Cap(cfg) as real
      {
        assert Resting(EMPTY, pk, side) == map[];
      }
    }
  }

  lemma NonNegative(a: int, b: int)
    requires a >= 0 && b >= 0
    ensures a * b >= 0
  {
  }

  /** In every run, realized plus unrealized profit at any mark is the profit of the fills at that mark. */
  lemma ProfitInEveryRun(cfg: Settings, steps: seq<Step>, pk: PositionKey, m: real)
    ensures var db := After(cfg, steps);
      && Value(PositionAt(db, pk), m) == FillsValue(db.orders, db.executions, pk, m)
      && PositionAt(db, pk).quantity == NetFills(db.orders, db.executions, pk)
  {
    EveryRunIsGood(cfg, steps);
    ProfitIdentity(After(cfg, steps), pk, m);
  }

  /** In every run no trade id is booked twice for a user, and each order's fill count is the sum of its executions. */
  lemma EachTradeOnce(cfg: Settings, steps: seq<Step>, i: nat, j: nat, k: OrderKey)
    ensures var db := After(cfg, steps);
      && (i < j < |db.executions| && Truthy(db.executions[i].id) ==>
            db.executions[i].order.user != db.executions[j].order.user
            || db.executions[i].id != db.executions[j].id)
      && (k in db.orders ==>
            db.orders[k].filled == FilledBy(db.executions, k)
            && 0 <= db.orders[k].filled <= db.orders[k].quantity)
  {
    EveryRunIsGood(cfg, steps);
  }

  /** In every run that raises no paper order's quantity, paper positions stay within the real bound. */
  lemma {:induction false} EveryRunIsBounded(cfg: Settings, steps: seq<Step>)
    requires cfg.Valid() && Never(cfg, steps, RaisesPaper)
    ensures Bounded(cfg, After(cfg, steps))
    ensures forall pk: PositionKey :: pk.mode == Mode.Paper ==>
      Abs(PositionAt(After(cfg, steps), pk).quantity) <= cfg.maxPosition + (cfg.maxOpen - 1) * cfg.maxQuantity
    decreases |steps|
  {
    if steps == [] {
      EmptyIsGood(cfg);
    } else {
      var init := steps[..|steps| - 1];
      assert Never(cfg, init, RaisesPaper) by {
        assert forall i :: 0 <= i < |init| ==> init[..i] == steps[..i];
      }
      EveryRunIsBounded(cfg, init);
      EveryRunIsGood(cfg, init);
      var db, s := After(cfg, init), steps[|steps| - 1];
      assert !RaisesPaper(db, s);
      hide Good, Next, Enabled, Bounded;
      if Enabled(db, s) {
        StepKeepsBound(cfg, db, s);
      }
    }
    forall pk: PositionKey | pk.mode == Mode.Paper
      ensures Abs(PositionAt(After(cfg, steps), pk).quantity) <= cfg.maxPosition + (cfg.maxOpen - 1) * cfg.maxQuantity
    {
      PositionWithinCap(cfg, After(cfg, steps), pk);
    }
  }

  /** In every run whose broker answers never call an unfilled order TRADED, FILLED means filled. */
  lemma {:induction false} EveryRunIsComplete(cfg: Settings, steps: seq<Step>)
    requires Never(cfg, steps, FalseTraded)
    ensures FilledIsComplete(After(cfg, steps))
    decreases |steps|
  {
    if steps == [] {
      EmptyIsGood(cfg);
    } else {
      var init := steps[..|steps| - 1];
      assert Never(cfg, init, FalseTraded) by {
        assert forall i :: 0 <= i < |init| ==> init[..i] == steps[..i];
      }
      EveryRunIsComplete(cfg, init);
      EveryRunIsGood(cfg, init);
      var db, s := After(cfg, init), steps[|steps| - 1];
      assert !FalseTraded(db, s);
      hide Good, Next, Enabled, FilledIsComplete;
      if Enabled(db, s) {
        StepKeepsComplete(cfg, db, s);
      }
    }
  }

  /** While the kill switch is on for a user, no step adds an order of that user. */
  lemma HaltedAddsNothing(cfg: Settings, db: Db, s: Step, k: OrderKey)
    requires Good(db) && Enabled(db, s) && (Everyone in db.halts || OneUser(k.user) in db.halts)
    ensures k in Next(cfg, db, s).orders ==> k in db.orders
  {
    hide Sound, PaperRules, FillPrice, PositionAfter, Blend, MapStatus, IsCrossing, FillAll, Pass;
    match s
    case Quoted(user, q, rows) =>
      SelectedAreOpen(db, user, q, rows);
      FillAllKeepsRules(cfg, db, q, rows);
    case Books(user, rows, items, trades) => PassKeeps(cfg, db, user, rows, items, trades);
    case _ =>
  }

  /** The kill switch of a scope turns exactly that scope on or off, and no other step touches any. */
  lemma OnlySwitchHalts(cfg: Settings, db: Db, s: Step, scope: Scope)
    requires Good(db) && Enabled(db, s)
    ensures scope in Next(cfg, db, s).halts <==> if s.KillSwitch? && s.scope == scope then s.halted else scope in db.halts
  {
    hide Sound, PaperRules, FillPrice, PositionAfter, Blend, MapStatus, IsCrossing, FillAll, Pass;
    match s
    case Quoted(user, q, rows) => FillAllHalts(cfg, db, q, rows);
    case Books(user, rows, items, trades) => PassKeeps(cfg, db, user, rows, items, trades);
    case _ =>
  }

  lemma {:induction false} FillAllHalts(cfg: Settings, db: Db, q: Quote, keys: seq<OrderKey>)
    ensures Paper.ProcessQuote(cfg, db, q, keys).halts == db.halts
    ensures FillAll(cfg, db, q, keys).Some? ==> FillAll(cfg, db, q, keys).value.halts == db.halts
  {
    hide FillPrice, PositionAfter, IsCrossing, FillOrder;
    if keys != [] {
      FillAllHalts(cfg, db, q, keys[..|keys| - 1]);
    }
  }

  // ---------------------------------------------------------------- how one order's row moves

  /** Orders never vanish; those of `own` keep their side, lose no fill, gain no quantity, and once terminal stay terminal
      with the same fills. */
  ghost predicate AdvancesOn(db: Db, db2: Db, own: set<OrderKey>) {
    && (forall k :: k in db.orders ==> k in db2.orders)
    && (forall k :: k in own && k in db.orders ==>
          && db2.orders[k].side == db.orders[k].side && db2.orders[k].quantity <= db.orders[k].quantity
          && db.orders[k].filled <= db2.orders[k].filled
          && (db.orders[k].status !in OpenStatuses() ==>
                db2.orders[k].status !in OpenStatuses() && db2.orders[k].filled == db.orders[k].filled))
  }

  ghost predicate Advances(db: Db, db2: Db) {
    AdvancesOn(db, db2, db.orders.Keys)
  }

  /** Not an edit that raises the quantity of one of these orders, and not a broker's answer that reopens one. */
  predicate Calm(db: Db, s: Step, own: set<OrderKey>) {
    match s
    case Modify(k, quantity, _, _, _, _, _) => k in own && k in db.orders ==> quantity <= db.orders[k].quantity
    case PlaceAnswer(k, reply) => k in own && k in db.orders ==> !Reopens(db.orders[k], PlaceReplied(db.orders[k], reply))
    case CancelAnswer(k, prior, reply) =>
      k in own && k in db.orders ==> !Reopens(db.orders[k], CancelReplied(db.orders[k], prior, reply))
    case _ => true
  }

  predicate Reopens(o: Order, o2: Order) {
    o.status !in OpenStatuses() && o2.status in OpenStatuses()
  }

  lemma StepAdvances(cfg: Settings, db: Db, s: Step, own: set<OrderKey>)
    requires Good(db) && Enabled(db, s) && Calm(db, s, own)
    ensures AdvancesOn(db, Next(cfg, db, s), own)
  {
    hide Sound, PaperRules, Bounded, FilledIsComplete, PlacePaper, CancelPaper, Pass,
      PlaceReplied, CancelReplied, MapStatus, RiskCheck, QuoteCheck, FillAll, Selected, SelectedLive;
    match s
    case Place(user, t, quote, now, gate, connected) => PlaceKeepsRules(cfg, db, user, t, quote, now);
    case PlaceAnswer(k, reply) => PlaceReplyShape(db.orders[k], reply);
    case Cancel(k, _, _) => CancelRow(db, k);
    case CancelAnswer(k, prior, reply) => CancelReplyShape(db.orders[k], prior, reply);
    case Modify(k, quantity, price, quote, gate, connected, reply) =>
      InQuantity(db, k);
      EditOnlyRow(cfg, db, k, quantity, price, quote, gate, connected, reply);
    case Quoted(user, q, rows) =>
      SelectedAreOpen(db, user, q, rows);
      FillAllKeepsRules(cfg, db, q, rows);
      forall k | k in db.orders
        ensures db.orders[k].filled <= db.orders[k].quantity
      {
        InQuantity(db, k);
      }
    case Books(user, rows, items, trades) =>
      PassKeeps(cfg, db, user, rows, items, trades);
      SelectedLiveIsOpen(db, user);
    case KillSwitch(scope, halted) =>
  }

  /** An edit writes the row of its own order and no other. */
  lemma EditOnlyRow(cfg: Settings, db: Db, k: OrderKey, quantity: int, price: real, quote: Option<Quote>, gate: bool,
                    connected: bool, reply: Reply)
    requires Good(db) && k in db.orders && db.orders[k].filled >= 0
    ensures var db2 := Next(cfg, db, Modify(k, quantity, price, quote, gate, connected, reply));
      && k in db2.orders && db2.orders == db.orders[k := db2.orders[k]]
      && db2.orders[k].side == db.orders[k].side && db.orders[k].filled <= db2.orders[k].filled
      && (db2.orders[k] == db.orders[k] || db.orders[k].status in OpenStatuses())
      && (db2.orders[k].quantity == db.orders[k].quantity || db2.orders[k].quantity == quantity)
  {
    hide Good, PositionAfter, Blend, FillPrice, IsCrossing, MapStatus;
  }

  lemma CancelRow(db: Db, k: OrderKey)
    requires k in db.orders
    ensures var r := CancelPaper(db, k);
      r.Changed? ==> db.orders[k].status in OpenStatuses() && Advances(db, r.db)
  {
  }

  lemma SelectedLiveIsOpen(db: Db, user: string)
    ensures forall k :: k in SelectedLive(db, user) ==> k in db.orders && db.orders[k].status in OpenStatuses()
  {
  }

  /** Orders never vanish and never change side of the paper/live divide, whatever happens. */
  lemma StepKeepsRows(cfg: Settings, db: Db, s: Step)
    requires Good(db) && Enabled(db, s)
    ensures forall k :: k in db.orders ==> k in Next(cfg, db, s).orders && Next(cfg, db, s).orders[k].mode == db.orders[k].mode
  {
    hide Sound, PaperRules, Bounded, FilledIsComplete, PlacePaper, CancelPaper, Pass, ModifyPaper,
      PlaceReplied, CancelReplied, ModifyReplied, MapStatus, RiskCheck, QuoteCheck, FillAll, Selected, SelectedLive;
    match s
    case Place(user, t, quote, now, gate, connected) => PlaceKeepsRules(cfg, db, user, t, quote, now);
    case PlaceAnswer(k, reply) => PlaceReplyShape(db.orders[k], reply);
    case Cancel(k, _, _) => CancelKeepsRules(db, k);
    case CancelAnswer(k, prior, reply) => CancelReplyShape(db.orders[k], prior, reply);
    case Modify(k, quantity, price, quote, _, _, reply) =>
      ModifyKeepsRules(cfg, db, k, quantity, price, quote);
      assert ModifyReplied(db.orders[k], quantity, price, reply).mode == db.orders[k].mode by { ModifyReplyMode(db.orders[k], quantity, price, reply); }
    case Quoted(user, q, rows) =>
      SelectedAreOpen(db, user, q, rows);
      FillAllKeepsRules(cfg, db, q, rows);
    case Books(user, rows, items, trades) => PassKeeps(cfg, db, user, rows, items, trades);
    case KillSwitch(scope, halted) =>
  }

  lemma ModifyReplyMode(o: Order, quantity: int, price: real, r: Reply)
    ensures ModifyReplied(o, quantity, price, r).mode == o.mode
  {
  }
}
