/** The position bound is exact: under every setting a run reaches it, and one edit breaks it. */
module BoundAttained {
  import opened Ledger
  import opened Options
  import opened Totals
  import opened Paper
  import opened PositionBound
  import opened Live
  import opened Reconcile
  import opened Runs

  const OWN := PositionKey("u", "i", Mode.Paper, Intraday)

  /** Distinct client ids, by length. */
  function Name(n: nat): string {
    seq(n, _ => 'x')
  }

  /** The largest price at which a full-size order passes the notional check. */
  function Price(cfg: Settings): real
    requires cfg.Valid()
  {
    cfg.maxNotional / cfg.maxQuantity as real
  }

  function Tick(cfg: Settings): Quote
    requires cfg.Valid()
  {
    Quote("i", Price(cfg), None, None, false, 0.0)
  }

  function RestTicket(cfg: Settings, side: Side, n: nat, quantity: int): Ticket
    requires cfg.Valid()
  {
    Ticket(Name(n), "i", side, Limit, Intraday, Day, quantity, Some(Price(cfg)))
  }

  function MarketTicket(side: Side, n: nat, quantity: int): Ticket {
    Ticket(Name(n), "i", side, Market, Intraday, Day, quantity, None)
  }

  function Other(side: Side): Side {
    if side == Buy then Sell else Buy
  }

  /** After `n` orders: at most `rests` of them rest, all on `side` as the run placed them; on that side `held` is held, and
      `load` is held or resting. */
  ghost predicate Stage(cfg: Settings, db: Db, side: Side, n: nat, rests: int, held: int, load: int)
    requires cfg.Valid()
  {
    && Good(db) && db.halts == {}
    && (forall k :: k in db.orders ==> |k.client| < n)
    && (forall k :: k in OpenOrders(db, "u") ==> Rests(cfg, side, db.orders[k]))
    && |OpenOrders(db, "u")| <= rests
    && Signed(side, PositionAt(db, OWN).quantity) == held
    && Load(db, OWN, side) == load as real
  }

  predicate Rests(cfg: Settings, side: Side, o: Order)
    requires cfg.Valid()
  {
    o.mode == Mode.Paper && o.side == side && o.instrument == "i" && o.product == Intraday
    && o.orderType == Limit && o.limitPrice == Some(Price(cfg)) && o.status == Open
  }

  lemma NotionalFits(cfg: Settings, quantity: int)
    requires cfg.Valid() && quantity <= cfg.maxQuantity
    ensures quantity as real * Price(cfg) <= cfg.maxNotional
  {
    DivideBack(cfg.maxNotional, cfg.maxQuantity as real);
    ScaleDown(quantity as real, cfg.maxQuantity as real, Price(cfg));
  }

  lemma ScaleDown(a: real, b: real, x: real)
    requires a <= b && x >= 0.0
    ensures a * x <= b * x
  {
  }

  /** The size passes the quantity limit, and the position with it the position limit. */
  predicate Fits(cfg: Settings, held: int, quantity: int) {
    1 <= quantity <= cfg.maxQuantity && -cfg.maxPosition <= held + quantity <= cfg.maxPosition
  }

  lemma CheckPasses(cfg: Settings, db: Db, side: Side, n: nat, rests: int, held: int, load: int, t: Ticket)
    requires cfg.Valid() && Stage(cfg, db, side, n, rests, held, load) && rests < cfg.maxOpen
    requires t.instrument == "i" && t.product == Intraday && t.side == side && Fits(cfg, held, t.quantity)
    ensures RiskCheck(cfg, db, "u", t, Price(cfg), Mode.Paper).None?
  {
    NotionalFits(cfg, t.quantity);
    hide Price, Load, Good;
  }

  // ---------------------------------------------------------------- one order that rests

  lemma RestStep(cfg: Settings, db: Db, side: Side, n: nat, rests: int, held: int, load: int, quantity: int)
    requires cfg.Valid() && cfg.mode == PaperMode && rests < cfg.maxOpen && Fits(cfg, held, quantity)
    requires Stage(cfg, db, side, n, rests, held, load)
    ensures var t := RestTicket(cfg, side, n, quantity);
      OrderKey("u", t.client) !in db.orders
      && Next(cfg, db, Place("u", t, None, 0.0, false, false))
         == PutRow(db, OrderKey("u", t.client), NewOrder(t, Mode.Paper, Open))
  {
    hide Price, RiskCheck, Good;
    var t := RestTicket(cfg, side, n, quantity);
    CheckPasses(cfg, db, side, n, rests, held, load, t);
    hide Stage;
  }

  lemma RestStage(cfg: Settings, db: Db, side: Side, n: nat, rests: int, held: int, load: int, quantity: int, db2: Db)
    requires cfg.Valid() && Stage(cfg, db, side, n, rests, held, load) && Good(db2)
    requires var t := RestTicket(cfg, side, n, quantity);
      OrderKey("u", t.client) !in db.orders
      && db2 == PutRow(db, OrderKey("u", t.client), NewOrder(t, Mode.Paper, Open))
    ensures Stage(cfg, db2, side, n + 1, rests + 1, held, load + quantity)
  {
    hide Price, Good;
    var t := RestTicket(cfg, side, n, quantity);
    var k := OrderKey("u", t.client);
    RestLoad(cfg, db, side, t, k);
    NewRests(cfg, side, n, quantity);
    hide Load, PositionAt, RestTicket, OpenOrders, Rests, NewOrder;
    SamePosition(db, db2, OWN);
    OneMoreOpen(db, k, NewOrder(t, Mode.Paper, Open));
  }

  lemma NewRests(cfg: Settings, side: Side, n: nat, quantity: int)
    requires cfg.Valid()
    ensures var t := RestTicket(cfg, side, n, quantity);
      |t.client| == n && Rests(cfg, side, NewOrder(t, Mode.Paper, Open)) && NewOrder(t, Mode.Paper, Open).status == Open
  {
    hide Price;
  }

  lemma SamePosition(db: Db, db2: Db, pk: PositionKey)
    requires db2.positions == db.positions
    ensures PositionAt(db2, pk) == PositionAt(db, pk)
  {
  }

  lemma OneMoreOpen(db: Db, k: OrderKey, o: Order)
    requires k !in db.orders && k.user == "u" && o.status == Open
    ensures OpenOrders(PutRow(db, k, o), "u") == OpenOrders(db, "u") + {k}
  {
  }

  lemma RestLoad(cfg: Settings, db: Db, side: Side, t: Ticket, k: OrderKey)
    requires cfg.Valid() && k == OrderKey("u", t.client) && k !in db.orders
    requires t == RestTicket(cfg, side, |t.client|, t.quantity)
    ensures Load(PutRow(db, k, NewOrder(t, Mode.Paper, Open)), OWN, side) == Load(db, OWN, side) + t.quantity as real
  {
    hide Price, Total;
    RestingMoves(db, PutRow(db, k, NewOrder(t, Mode.Paper, Open)), k, OWN, side);
  }

  /** One more resting order adds its whole quantity to the load. */
  lemma RestOne(cfg: Settings, steps: seq<Step>, side: Side, n: nat, rests: int, held: int, load: int, quantity: int)
    returns (more: seq<Step>)
    requires cfg.Valid() && cfg.mode == PaperMode && rests < cfg.maxOpen && Fits(cfg, held, quantity)
    requires Stage(cfg, After(cfg, steps), side, n, rests, held, load) && NoEdits(steps)
    ensures Stage(cfg, After(cfg, more), side, n + 1, rests + 1, held, load + quantity) && NoEdits(more)
  {
    assert 1 <= quantity;
    hide Price, Stage, Good, Next, PutRow, NewOrder, Fits;
    var s := Place("u", RestTicket(cfg, side, n, quantity), None, 0.0, false, false);
    more := steps + [s];
    assert more[..|steps|] == steps;
    RestStep(cfg, After(cfg, steps), side, n, rests, held, load, quantity);
    EveryRunIsGood(cfg, more);
    RestStage(cfg, After(cfg, steps), side, n, rests, held, load, quantity, After(cfg, more));
  }

  /** The run edits no order. */
  predicate NoEdits(steps: seq<Step>) {
    forall s :: s in steps ==> !s.Modify?
  }

  // ---------------------------------------------------------------- one market order

  lemma MarketStep(cfg: Settings, db: Db, side: Side, n: nat, rests: int, held: int, load: int, quantity: int)
    requires cfg.Valid() && cfg.mode == PaperMode && rests < cfg.maxOpen && Fits(cfg, held, quantity)
    requires Stage(cfg, db, side, n, rests, held, load)
    ensures var k, o := OrderKey("u", Name(n)), NewOrder(MarketTicket(side, n, quantity), Mode.Paper, Open);
      k !in db.orders && Sound(PutRow(db, k, o))
      && FillRest(cfg, PutRow(db, k, o), k, Tick(cfg)).Some?
      && Next(cfg, db, Place("u", MarketTicket(side, n, quantity), Some(Tick(cfg)), 0.0, false, false))
         == FillRest(cfg, PutRow(db, k, o), k, Tick(cfg)).value
  {
    hide Price, RiskCheck, Good, FillRest;
    var t := MarketTicket(side, n, quantity);
    CheckPasses(cfg, db, side, n, rests, held, load, t);
    MarketInsert(cfg, db, side, t, OrderKey("u", t.client));
    hide Stage, Sound;
    WholeFillApplies(cfg, PutRow(db, OrderKey("u", t.client), NewOrder(t, Mode.Paper, Open)), OrderKey("u", t.client), Tick(cfg));
  }

  lemma MarketStage(cfg: Settings, db: Db, side: Side, n: nat, rests: int, held: int, load: int, quantity: int, db2: Db)
    requires cfg.Valid() && 1 <= quantity && Stage(cfg, db, side, n, rests, held, load) && Good(db2)
    requires var k, o := OrderKey("u", Name(n)), NewOrder(MarketTicket(side, n, quantity), Mode.Paper, Open);
      && k !in db.orders && Sound(PutRow(db, k, o))
      && FillRest(cfg, PutRow(db, k, o), k, Tick(cfg)) == Some(db2)
    ensures Stage(cfg, db2, side, n + 1, rests, held + quantity, load + quantity)
  {
    hide Price, Good, Load, FillPrice, FillRest, Sound;
    var k, o := OrderKey("u", Name(n)), NewOrder(MarketTicket(side, n, quantity), Mode.Paper, Open);
    var mid := PutRow(db, k, o);
    MarketInsert(cfg, db, side, MarketTicket(side, n, quantity), k);
    WholeFillApplies(cfg, mid, k, Tick(cfg));
    FilledRow(o, FillPrice(o, Tick(cfg), cfg.slippageBps));
    hide FillOrder;
    FillKeepsLoad(cfg, mid, k, Tick(cfg), OWN, side);
    assert db2.halts == db.halts by { FillKeepsHalts(cfg, mid, k, Tick(cfg)); }
    assert OpenOrders(db2, "u") == OpenOrders(db, "u");
  }

  lemma FillKeepsHalts(cfg: Settings, db: Db, k: OrderKey, q: Quote)
    requires k in db.orders && db.orders[k].filled >= 0 && FillRest(cfg, db, k, q).Some?
    ensures FillRest(cfg, db, k, q).value.halts == db.halts
  {
    hide FillPrice, PositionAfter, FillOrder;
  }

  lemma MarketInsert(cfg: Settings, db: Db, side: Side, t: Ticket, k: OrderKey)
    requires cfg.Valid() && Good(db) && k == OrderKey("u", t.client) && k !in db.orders && t.quantity >= 1
    requires t == MarketTicket(side, |t.client|, t.quantity)
    ensures var mid := PutRow(db, k, NewOrder(t, Mode.Paper, Open));
      Sound(mid) && Load(mid, OWN, side) == Load(db, OWN, side) + t.quantity as real
      && PositionAt(mid, OWN) == PositionAt(db, OWN)
  {
    RowKeeps(db, k, NewOrder(t, Mode.Paper, Open));
    hide Good, Sound;
    RestingMoves(db, PutRow(db, k, NewOrder(t, Mode.Paper, Open)), k, OWN, side);
  }

  /** One market order adds its whole quantity to position and load. */
  lemma MarketOne(cfg: Settings, steps: seq<Step>, side: Side, n: nat, rests: int, held: int, load: int, quantity: int)
    returns (more: seq<Step>)
    requires cfg.Valid() && cfg.mode == PaperMode && rests < cfg.maxOpen && Fits(cfg, held, quantity)
    requires Stage(cfg, After(cfg, steps), side, n, rests, held, load) && NoEdits(steps)
    ensures Stage(cfg, After(cfg, more), side, n + 1, rests, held + quantity, load + quantity) && NoEdits(more)
  {
    assert 1 <= quantity;
    hide Stage, Good, Next, PutRow, NewOrder, FillRest, Sound, Fits;
    var s := Place("u", MarketTicket(side, n, quantity), Some(Tick(cfg)), 0.0, false, false);
    more := steps + [s];
    assert more[..|steps|] == steps;
    MarketStep(cfg, After(cfg, steps), side, n, rests, held, load, quantity);
    EveryRunIsGood(cfg, more);
    MarketStage(cfg, After(cfg, steps), side, n, rests, held, load, quantity, After(cfg, more));
  }

  // ---------------------------------------------------------------- a tick

  lemma {:induction false} Listing(s: set<OrderKey>) returns (keys: seq<OrderKey>)
    ensures Lists(keys, s)
    decreases |s|
  {
    if s == {} {
      keys := [];
    } else {
      var k :| k in s;
      var rest := Listing(s - {k});
      keys := rest + [k];
    }
  }

  /** A tick fills everything that rests, which moves the whole load into the position. */
  lemma {:induction false} FillAllMovesLoad(cfg: Settings, db: Db, side: Side, keys: seq<OrderKey>)
    requires cfg.Valid() && Good(db)
    requires forall i :: 0 <= i < |keys| ==> keys[i] in db.orders && Rests(cfg, side, db.orders[keys[i]])
    requires forall i, j :: 0 <= i < j < |keys| ==> keys[i] != keys[j]
    ensures FillAll(cfg, db, Tick(cfg), keys).Some?
    ensures Load(FillAll(cfg, db, Tick(cfg), keys).value, OWN, side) == Load(db, OWN, side)
    ensures FillAll(cfg, db, Tick(cfg), keys).value.halts == db.halts
  {
    hide Price, Good, FillRest, Load;
    FillAllGood(cfg, db, side, keys);
    if keys != [] {
      var init, k := keys[..|keys| - 1], keys[|keys| - 1];
      FillAllMovesLoad(cfg, db, side, init);
      FillAllGood(cfg, db, side, init);
      var db1 := FillAll(cfg, db, Tick(cfg), init).value;
      assert k !in init;
      assert db1.orders[k] == db.orders[k];
      StartsEmpty(db1, k);
      FillKeepsLoad(cfg, db1, k, Tick(cfg), OWN, side);
      FillKeepsHalts(cfg, db1, k, Tick(cfg));
    }
  }

  lemma FillAllGood(cfg: Settings, db: Db, side: Side, keys: seq<OrderKey>)
    requires cfg.Valid() && Good(db)
    requires forall i :: 0 <= i < |keys| ==> keys[i] in db.orders && Rests(cfg, side, db.orders[keys[i]])
    requires forall i, j :: 0 <= i < j < |keys| ==> keys[i] != keys[j]
    ensures FillAll(cfg, db, Tick(cfg), keys).Some?
    ensures var db2 := FillAll(cfg, db, Tick(cfg), keys).value;
      && Good(db2) && db2.orders.Keys == db.orders.Keys
      && (forall k :: k in db.orders && k !in keys ==> db2.orders[k] == db.orders[k])
      && (forall k :: k in keys ==> db2.orders[k].status == Status.Filled)
  {
    hide Price;
    FillAllKeepsRules(cfg, db, Tick(cfg), keys);
    hide Sound, FairFills;
    assert forall k :: k in keys ==> k in db.orders && Rests(cfg, side, db.orders[k]) && IsCrossing(db.orders[k], Tick(cfg));
  }

  lemma StartsEmpty(db: Db, k: OrderKey)
    requires Good(db) && k in db.orders && db.orders[k].mode == Mode.Paper && db.orders[k].status == Open
    ensures Sound(db) && db.orders[k].filled == 0 && db.orders[k].quantity >= 1
  {
    assert AllOrNothing(db.orders[k]);
  }

  lemma NothingRests(cfg: Settings, db: Db, side: Side, db2: Db, rows: seq<OrderKey>)
    requires cfg.Valid() && Lists(rows, Selected(db, "u", "i")) && db2.orders.Keys == db.orders.Keys
    requires forall k :: k in OpenOrders(db, "u") ==> Rests(cfg, side, db.orders[k])
    requires forall k :: k in db.orders && k !in rows ==> db2.orders[k] == db.orders[k]
    requires forall k :: k in rows ==> db2.orders[k].status == Status.Filled
    ensures OpenOrders(db2, "u") == {}
  {
    hide Price;
    forall k | k in db2.orders && k !in rows && k.user == "u"
      ensures db2.orders[k].status !in OpenStatuses()
    {
      assert k !in Selected(db, "u", "i");
      assert db2.orders[k] == db.orders[k];
      assert k in OpenOrders(db, "u") ==> Rests(cfg, side, db.orders[k]);
    }
  }

  /** With nothing open the load is what is held, on either side. */
  lemma HeldIsLoad(db: Db, side: Side)
    requires OpenOrders(db, "u") == {}
    ensures Load(db, OWN, side) == Signed(side, PositionAt(db, OWN).quantity) as real
  {
    forall k | k in db.orders
      ensures !RestsAt(k, db.orders[k], OWN, side)
    {
      assert k !in OpenOrders(db, "u");
    }
    assert Resting(db, OWN, side) == map[];
  }

  lemma TickAll(cfg: Settings, steps: seq<Step>, side: Side, n: nat, rests: int, held: int, load: int)
    returns (more: seq<Step>)
    requires cfg.Valid() && Stage(cfg, After(cfg, steps), side, n, rests, held, load) && NoEdits(steps)
    ensures Stage(cfg, After(cfg, more), side, n, 0, load, load) && NoEdits(more)
  {
    hide Price, Load, Good;
    var db := After(cfg, steps);
    var rows := Listing(Selected(db, "u", "i"));
    forall i | 0 <= i < |rows|
      ensures rows[i] in db.orders && Rests(cfg, side, db.orders[rows[i]])
    {
      assert rows[i] in Selected(db, "u", "i");
      assert rows[i] in OpenOrders(db, "u");
    }
    more := steps + [Quoted("u", Tick(cfg), rows)];
    assert more[..|steps|] == steps;
    FillAllMovesLoad(cfg, db, side, rows);
    FillAllGood(cfg, db, side, rows);
    hide FillAll;
    NothingRests(cfg, db, side, After(cfg, more), rows);
    HeldIsLoad(After(cfg, more), side);
  }

  /** With nothing open the other side sees the same position with the opposite sign. */
  lemma Turn(cfg: Settings, db: Db, side: Side, n: nat, held: int)
    requires cfg.Valid() && Stage(cfg, db, side, n, 0, held, held)
    ensures Stage(cfg, db, Other(side), n, 0, -held, -held)
  {
    assert OpenOrders(db, "u") == {};
    HeldIsLoad(db, Other(side));
    hide Load, Good;
  }

  // ---------------------------------------------------------------- phases of the run

  lemma EmptyStage(cfg: Settings, side: Side)
    requires cfg.Valid()
    ensures Stage(cfg, EMPTY, side, 0, 0, 0, 0)
  {
    EmptyIsGood(cfg);
    hide Good;
    assert Resting(EMPTY, OWN, side) == map[];
    assert OpenOrders(EMPTY, "u") == {};
  }

  lemma OneMoreOf(n: int, m: int)
    ensures (n - 1) * m + m == n * m
  {
  }

  /** Full-size orders come to rest, as many as asked for, where one passes the check. */
  lemma {:induction false} RestMany(cfg: Settings, before: seq<Step>, n0: nat, held: int, count: nat)
    returns (steps: seq<Step>)
    requires cfg.Valid() && cfg.mode == PaperMode && count < cfg.maxOpen
    requires count > 0 ==> Fits(cfg, held, cfg.maxQuantity)
    requires Stage(cfg, After(cfg, before), Buy, n0, 0, held, held) && NoEdits(before)
    ensures Stage(cfg, After(cfg, steps), Buy, n0 + count, count, held, held + count * cfg.maxQuantity) && NoEdits(steps)
    decreases count
  {
    hide Stage, NoEdits, Fits;
    if count == 0 {
      steps := before;
    } else {
      steps := RestMany(cfg, before, n0, held, count - 1);
      OneMoreOf(count, cfg.maxQuantity);
      steps := RestOne(cfg, steps, Buy, n0 + count - 1, count - 1, held, held + (count - 1) * cfg.maxQuantity, cfg.maxQuantity);
    }
  }

  /** Market orders in a free slot take the position up to any target within its own limit. */
  lemma {:induction false} GoTo(cfg: Settings, before: seq<Step>, side: Side, n: nat, rests: int, held: int, load: int, target: int)
    returns (steps: seq<Step>, n2: nat)
    requires cfg.Valid() && cfg.mode == PaperMode && rests < cfg.maxOpen && 0 <= held <= target <= cfg.maxPosition
    requires Stage(cfg, After(cfg, before), side, n, rests, held, load) && NoEdits(before)
    ensures Stage(cfg, After(cfg, steps), side, n2, rests, target, load + target - held) && NoEdits(steps)
    decreases target - held
  {
    hide Stage, NoEdits;
    if held == target {
      steps, n2 := before, n;
    } else {
      var room := target - held;
      var quantity := if room < cfg.maxQuantity then room else cfg.maxQuantity;
      var next := MarketOne(cfg, before, side, n, rests, held, load, quantity);
      steps, n2 := GoTo(cfg, next, side, n + 1, rests, held + quantity, load + quantity, target);
    }
  }

  /** With two slots a position swings: from `limit - size` an order of that size comes to rest, a market order of the same
      size takes the position to its limit, and the tick adds the first on top. So each swing to the other side goes two
      limits further, as far as the order size allows. */
  lemma {:induction false} Swing(cfg: Settings, side: Side, target: nat) returns (steps: seq<Step>, n: nat)
    requires cfg.Valid() && cfg.mode == PaperMode && cfg.maxOpen >= 2 && target <= cfg.maxPosition + cfg.maxQuantity
    ensures Stage(cfg, After(cfg, steps), side, n, 0, target, target) && NoEdits(steps)
    decreases target
  {
    hide Stage;
    if target <= cfg.maxPosition {
      EmptyStage(cfg, side);
      steps, n := GoTo(cfg, [], side, 0, 0, 0, 0, target);
    } else {
      var size := target - cfg.maxPosition;
      var held := cfg.maxPosition - size;
      if held >= 0 {
        steps, n := Swing(cfg, side, held);
      } else {
        steps, n := Swing(cfg, Other(side), -held);
        Turn(cfg, After(cfg, steps), Other(side), n, -held);
      }
      steps := RestOne(cfg, steps, side, n, 0, held, held, size);
      steps := MarketOne(cfg, steps, side, n + 1, 1, held, held + size, size);
      n := n + 2;
      steps := TickAll(cfg, steps, side, n, 1, held + size, held + size + size);
    }
  }

  /** Main result: under every valid setting the bound is reached, so no smaller number bounds paper positions, and the
      position limit alone does not. */
  lemma BoundIsReached(cfg: Settings) returns (steps: seq<Step>)
    requires cfg.Valid() && cfg.mode == PaperMode
    ensures Never(cfg, steps, RaisesPaper)
    ensures PositionAt(After(cfg, steps), OWN).quantity == cfg.maxPosition + (cfg.maxOpen - 1) * cfg.maxQuantity
  {
    hide Stage;
    var n: nat;
    var count := cfg.maxOpen - 1;
    var load := count * cfg.maxQuantity;
    if count == 0 || cfg.maxQuantity <= cfg.maxPosition {
      EmptyStage(cfg, Buy);
      steps := RestMany(cfg, [], 0, 0, count);
      steps, n := GoTo(cfg, steps, Buy, count, count, 0, load, cfg.maxPosition);
      steps := TickAll(cfg, steps, Buy, n, count, cfg.maxPosition, cfg.maxPosition + load);
    } else {
      var short := cfg.maxQuantity - cfg.maxPosition;
      steps, n := Swing(cfg, Sell, short);
      Turn(cfg, After(cfg, steps), Sell, n, short);
      steps := RestMany(cfg, steps, n, -short, count);
      steps := MarketOne(cfg, steps, Buy, n + count, count, -short, -short + load, cfg.maxQuantity);
      n := n + count + 1;
      steps := TickAll(cfg, steps, Buy, n, count, cfg.maxPosition, cfg.maxPosition + load);
    }
    Reached(cfg, steps, n, cfg.maxPosition + load);
  }

  lemma Reached(cfg: Settings, steps: seq<Step>, n: nat, held: int)
    requires cfg.Valid() && Stage(cfg, After(cfg, steps), Buy, n, 0, held, held) && NoEdits(steps)
    ensures PositionAt(After(cfg, steps), OWN).quantity == held && Never(cfg, steps, RaisesPaper)
  {
    hide Load, Good;
    forall i | 0 <= i < |steps|
      ensures !RaisesPaper(After(cfg, steps[..i]), steps[i])
    {
      assert steps[i] in steps;
    }
  }

  /** Editing a resting order runs no risk check: one edit passes any bound. */
  lemma EditBreaksBound(cfg: Settings, beyond: int)
    requires cfg.Valid() && cfg.mode == PaperMode && beyond >= 1
    ensures var k := OrderKey("u", Name(0));
      var steps := [Place("u", RestTicket(cfg, Buy, 0, 1), None, 0.0, false, false),
                    Modify(k, beyond, Price(cfg), Some(Tick(cfg)), false, false, Response("", ""))];
      PositionAt(After(cfg, steps), OWN).quantity == beyond
  {
    hide Price, FillRest, RiskCheck, FillPrice, FillOrder, Sound, PaperRules;
    var k, t := OrderKey("u", Name(0)), RestTicket(cfg, Buy, 0, 1);
    var place := Place("u", t, None, 0.0, false, false);
    var edit := Modify(k, beyond, Price(cfg), Some(Tick(cfg)), false, false, Response("", ""));
    var db := PutRow(EMPTY, k, NewOrder(t, Mode.Paper, Open));
    FirstCheckPasses(cfg, t);
    assert Next(cfg, EMPTY, place) == db;
    RunOfTwo(cfg, place, edit);
    EveryRunIsGood(cfg, [place]);
    var o2 := NewOrder(t, Mode.Paper, Open).(quantity := beyond, limitPrice := Some(Price(cfg)), version := 2);
    RowKeeps(db, k, o2);
    WholeFillApplies(cfg, PutRow(db, k, o2), k, Tick(cfg));
    assert IsCrossing(o2, Tick(cfg));
    assert ModifyPaper(cfg, db, k, beyond, Price(cfg), Some(Tick(cfg)))
        == Changed(FillRest(cfg, PutRow(db, k, o2), k, Tick(cfg)).value);
  }

  lemma RunOfTwo(cfg: Settings, a: Step, b: Step)
    requires Enabled(EMPTY, a) && Enabled(Next(cfg, EMPTY, a), b)
    ensures After(cfg, [a]) == Next(cfg, EMPTY, a)
    ensures After(cfg, [a, b]) == Next(cfg, Next(cfg, EMPTY, a), b)
  {
    hide Next, Enabled;
    assert [a][..0] == [] && [a, b][..1] == [a];
  }

  lemma FirstCheckPasses(cfg: Settings, t: Ticket)
    requires cfg.Valid() && t == RestTicket(cfg, Buy, 0, 1)
    ensures RiskCheck(cfg, EMPTY, "u", t, Price(cfg), Mode.Paper).None?
  {
    NotionalFits(cfg, 1);
    assert OpenOrders(EMPTY, "u") == {};
  }
}
