/** A run from empty tables in which the broker's answer to a cancel comes after the order book has already called the order
    cancelled: the strategy sells more than it holds. */
module LateAnswer {
  import opened Decimals
  import opened Ledger
  import opened Options
  import opened Paper
  import opened Live
  import opened Reconcile
  import opened ReconcileTwice
  import opened Protocol
  import opened Range
  import opened RangeAttained
  import opened Totals
  import L = ReconcileLimits
  import N = NeverShort
  import R = Runs

  const SETTINGS := Settings(LiveMode, 1, 100.0, 10, 1, 0.0, 10.0)
  const CONFIG := Config(SETTINGS, true, 10, 10, {60})
  const ROW := Strategy("u", "i", "s", Mode.Live, Active, 1, Cnc, Market, 0.0, 10, 1, 2, 3, 60)
  const QUOTE := Quote("i", 1.0, None, None, false, 0.0)
  const HOLDING := PositionKey("u", "i", Mode.Live, Cnc)

  function Key(candle: int): OrderKey {
    OrderKey("u", ClientId("s", candle))
  }

  ghost function Keys(n: nat): set<OrderKey> {
    set c | 1 <= c <= n :: Key(c)
  }

  lemma KeysDiffer(a: int, b: int)
    ensures Key(a) == Key(b) <==> a == b
  {
    var head := "s" + Prefix(Strip("s"), 10);
    assert ClientId("s", a)[|head|..] == Decimal(a) && ClientId("s", b)[|head|..] == Decimal(b);
    DecimalInjective(a, b);
  }

  lemma MoreKeys(n: nat)
    ensures Keys(n + 1) == Keys(n) + {Key(n + 1)} && Key(n + 1) !in Keys(n)
  {
    forall c | 1 <= c <= n
      ensures Key(c) != Key(n + 1)
    {
      KeysDiffer(c, n + 1);
    }
    hide Key;
  }

  // ---------------------------------------------------------------- between the evaluations

  /** The order of one candle while it rests; the broker knows it by its client id. */
  function Resting(candle: int, side: Side): Order {
    Order("i", Mode.Live, side, Market, Cnc, Day, 1, None, 0, None, Open, Some(Key(candle).client), None, 1, false)
  }

  /** An order of the run; only the one of candle `open` is open. */
  predicate Ours(o: Order, candle: int, open: int) {
    && o.mode == Mode.Live && o.instrument == "i" && o.product == Cnc && o.quantity == 1
    && o.brokerId == Some(Key(candle).client) && (o.status in OpenStatuses() <==> candle == open)
  }

  ghost predicate RunsOf(s: State, n: nat) {
    && (forall r :: r in s.runs <==> r.strategy == "s" && 1 <= r.candle <= n)
    && (forall r :: r in s.runs ==> s.runs[r] == Succeeded)
  }

  ghost predicate SignalsOf(s: State, n: nat) {
    && (forall r :: r in s.signals <==> r.strategy == "s" && 1 <= r.candle <= n)
    && (forall r :: r in s.signals ==> s.signals[r].status == OrderSubmitted && s.signals[r].order == Some(Key(r.candle)))
  }

  ghost predicate OrdersOf(db: Db, n: nat, open: int) {
    && Good(db) && db.halts == {} && db.orders.Keys == Keys(n)
    && forall c :: 1 <= c <= n ==> Key(c) in db.orders && Ours(db.orders[Key(c)], c, open)
  }

  /** The worker is idle, candles 1 to `n` were evaluated into linked orders, and `held` is held. */
  ghost predicate Quiet(s: State, n: nat, open: int, held: int) {
    && s.workers == map[0 := Idle] && s.strategies == map["s" := ROW] && s.clock == 0
    && RunsOf(s, n) && SignalsOf(s, n) && OrdersOf(s.db, n, open)
    && Sum(s.db.orders, Keys(n), Held) == held as real
  }

  /** Rows of the first `n` candles but one are as they were. */
  ghost predicate SameRows(a: Db, b: Db, n: nat, but: int) {
    forall c :: 1 <= c <= n && c != but ==> Key(c) in a.orders && Key(c) in b.orders && b.orders[Key(c)] == a.orders[Key(c)]
  }

  lemma QuietLinks(s: State, n: nat)
    requires SignalsOf(s, n) && RunsOf(s, n)
    ensures Linked(s.signals, "s") == Keys(n) && !Stranded(s, "s")
    ensures forall k :: LinkedAnywhere(s, k) ==> k in Keys(n)
  {
    hide Key;
    forall k | k in Keys(n)
      ensures k in Linked(s.signals, "s")
    {
      var c :| 1 <= c <= n && k == Key(c);
      assert RunKey("s", c) in s.signals && s.signals[RunKey("s", c)].order.value == k;
    }
    forall k | LinkedAnywhere(s, k)
      ensures k in Keys(n)
    {
      var r :| r in s.signals && s.signals[r].order == Some(k);
    }
  }

  lemma {:induction false} FewKeys(n: nat)
    ensures |Keys(n)| == n
  {
    if n == 0 {
      assert Keys(0) == {};
    } else {
      MoreKeys(n - 1);
      hide Keys, Key;
      FewKeys(n - 1);
    }
  }

  lemma {:induction false} FewRuns(runs: set<RunKey>, n: nat)
    requires forall r :: r in runs ==> r.strategy == "s" && 1 <= r.candle <= n
    ensures |runs| <= n
  {
    if n > 0 {
      FewRuns(runs - {RunKey("s", n)}, n - 1);
      assert |runs| <= |runs - {RunKey("s", n)}| + 1;
    } else if r :| r in runs {
      assert false;
    }
  }

  /** All orders of the run move one position, so it is what the strategy holds. */
  lemma {:induction false} NetIsExposure(orders: map<OrderKey, Order>, es: seq<Execution>, linked: set<OrderKey>)
    requires forall i :: 0 <= i < |es| ==> es[i].order in linked && Belongs(orders, es[i], HOLDING)
    ensures NetFills(orders, es, HOLDING) == Exposure(es, linked)
    decreases |es|
  {
    hide Belongs;
    if es != [] {
      NetIsExposure(orders, es[..|es| - 1], linked);
    }
  }

  lemma PositionIsHeld(db: Db, n: nat, open: int)
    requires OrdersOf(db, n, open)
    ensures PositionAt(db, HOLDING).quantity as real == Sum(db.orders, Keys(n), Held)
  {
    ExposureIsHeld(db, Keys(n));
    hide ClientId;
    forall i | 0 <= i < |db.executions|
      ensures db.executions[i].order in Keys(n) && Belongs(db.orders, db.executions[i], HOLDING)
    {
      var c :| 1 <= c <= n && Key(c) == db.executions[i].order;
      assert Ours(db.orders[Key(c)], c, open);
    }
    NetIsExposure(db.orders, db.executions, Keys(n));
    hide Sum, Keys, OrderSums, PaperRules;
    assert PositionAt(db, HOLDING).quantity == NetFills(db.orders, db.executions, HOLDING);
  }

  // ---------------------------------------------------------------- one evaluation

  function RunAt(candle: int): RunKey {
    RunKey("s", candle)
  }

  function SignalAt(candle: int, side: Side): Signal {
    Signal("u", side, Created, 1, ClientId("s", candle), None, 0)
  }

  function TicketFor(candle: int, side: Side): Ticket {
    Ticket(ClientId("s", candle), "i", side, Market, Cnc, Day, 1, None)
  }

  lemma Counts(s: State, n: nat)
    requires SignalsOf(s, n)
    ensures |SubmittedSince(s, "u", DayStart(s.clock))| <= n && |AttemptsSince(s, "u", s.clock - 60)| <= n
    ensures |set r | r in SubmittedSince(s, "u", DayStart(s.clock)) && r.strategy == "s"| <= n
  {
    hide Key, DayStart;
    FewRuns(SubmittedSince(s, "u", DayStart(s.clock)), n);
    FewRuns((set r | r in SubmittedSince(s, "u", DayStart(s.clock)) && r.strategy == "s"), n);
    FewRuns(AttemptsSince(s, "u", s.clock - 60), n);
  }

  lemma NoneOpen(s: State, n: nat, held: int)
    requires Quiet(s, n, 0, held)
    ensures !HasOpenOrder(s, "s") && Exposure(s.db.executions, Linked(s.signals, "s")) == held && SignalsOf(s, n)
  {
    QuietLinks(s, n);
    ExposureIsHeld(s.db, Keys(n));
    hide ClientId, Good, Sum, SignalsOf, RunsOf, Linked, Exposure;
  }

  lemma Routes(s: State, n: nat, side: Side)
    requires Quiet(s, n, 0, if side == Buy then 0 else 1) && n <= 2
    ensures Route(CONFIG, s, "s", ROW, side) == Submit(1)
  {
    hide Quiet, SignalsOf, SubmittedSince, AttemptsSince, Exposure, Linked, HasOpenOrder, DayStart;
    NoneOpen(s, n, if side == Buy then 0 else 1);
    Counts(s, n);
  }

  lemma Places(s: State, n: nat, side: Side)
    requires Quiet(s, n, 0, if side == Buy then 0 else 1) && n <= 2
    ensures Key(n + 1) !in s.db.orders
    ensures PlaceLive(SETTINGS, true, true, s.db, "u", TicketFor(n + 1, side), Some(QUOTE), 0.0)
         == Inserted(PutRow(s.db, Key(n + 1), NewOrder(TicketFor(n + 1, side), Mode.Live, Pending)))
  {
    hide Quiet, OrdersOf, OpenOrders, PositionAt, Key;
    Room(s, n, if side == Buy then 0 else 1);
    Passes(s.db, n + 1, side);
  }

  lemma Room(s: State, n: nat, held: int)
    requires Quiet(s, n, 0, held)
    ensures Key(n + 1) !in s.db.orders && s.db.halts == {} && |OpenOrders(s.db, "u")| <= n
    ensures PositionAt(s.db, HOLDING).quantity == held
  {
    PositionIsHeld(s.db, n, 0);
    MoreKeys(n);
    FewKeys(n);
    hide Key, Good, Sum, RunsOf, SignalsOf, PositionAt, Ours, Keys;
    SubsetSize(OpenOrders(s.db, "u"), s.db.orders.Keys);
  }

  lemma Passes(db: Db, candle: int, side: Side)
    requires Key(candle) !in db.orders && db.halts == {} && |OpenOrders(db, "u")| <= 2
    requires PositionAt(db, HOLDING).quantity == if side == Buy then 0 else 1
    ensures PlaceLive(SETTINGS, true, true, db, "u", TicketFor(candle, side), Some(QUOTE), 0.0)
         == Inserted(PutRow(db, Key(candle), NewOrder(TicketFor(candle, side), Mode.Live, Pending)))
  {
    hide OpenOrders, PositionAt, ClientId;
  }

  /** After the poll, the claim and the routing decision. */
  function Decided(s: State, candle: int, side: Side): State {
    Put(s.(runs := s.runs[RunAt(candle) := Started]), 0, Placing(ROW, RunAt(candle), SignalAt(candle, side)))
  }

  /** After the row is written and the POST is sent. */
  function Posted(s: State, candle: int, side: Side): State {
    var db2 := PutRow(s.db, Key(candle), NewOrder(TicketFor(candle, side), Mode.Live, Pending));
    s.(db := db2, signals := s.signals[RunAt(candle) := SignalAt(candle, side)],
       sent := s.sent + [Sent(RunAt(candle), Key(candle))],
       workers := s.workers[0 := Awaiting(ROW, RunAt(candle), SignalAt(candle, side), Key(candle))])
  }

  /** After the answer. */
  function Answered(s: State, candle: int, side: Side): State {
    Posted(s, candle, side).(db := PutRow(s.db, Key(candle), Resting(candle, side)),
      workers := s.workers[0 := Linking(ROW, RunAt(candle), SignalAt(candle, side), Key(candle))])
  }

  /** After the last commit. */
  function Settled(s: State, candle: int, side: Side): State {
    var signal := SignalAt(candle, side).(status := OrderSubmitted, order := Some(Key(candle)));
    s.(db := PutRow(s.db, Key(candle), Resting(candle, side)), runs := s.runs[RunAt(candle) := Succeeded],
       signals := s.signals[RunAt(candle) := signal], sent := s.sent + [Sent(RunAt(candle), Key(candle))],
       lastBuy := if side == Buy then s.lastBuy["s" := 1] else s.lastBuy, workers := s.workers[0 := Idle])
  }

  /** None of the steps is an edit or a broker's answer outside the worker. */
  predicate Plain(steps: seq<Step>) {
    forall step :: step in steps ==> !(step.Trading? && N.Rewrites(step.step))
  }

  /** One step more. */
  lemma Goes(s: State, steps: seq<Step>, mid: State, step: Step, end: State) returns (more: seq<Step>)
    requires After(CONFIG, s, steps) == mid && Enabled(CONFIG, mid, step) && Next(CONFIG, mid, step) == end && Plain(steps)
    requires !step.Trading? || !N.Rewrites(step.step)
    ensures After(CONFIG, s, more) == end && Plain(more)
  {
    hide Next, Enabled, After;
    more := steps + [step];
    Extends(CONFIG, s, steps, mid, step, end);
  }

  /** After the claim. */
  function Claims(s: State, candle: int): State {
    Put(s.(runs := s.runs[RunAt(candle) := Started]), 0, Claimed(ROW, RunAt(candle)))
  }

  lemma Polls(s: State, candle: int)
    requires s.workers == map[0 := Idle] && s.strategies == map["s" := ROW] && !Stranded(s, "s") && RunAt(candle) !in s.runs
    ensures var a := Put(s, 0, Cleared(ROW, "s"));
      && Enabled(CONFIG, s, Poll(0, "s", ROW)) && Next(CONFIG, s, Poll(0, "s", ROW)) == a
      && Enabled(CONFIG, a, Claim(0, candle)) && Next(CONFIG, a, Claim(0, candle)) == Claims(s, candle)
  {
    hide Stranded, R.Enabled, R.Next, Decide1, Submission1, Link1, BreakRun, DeclineSignal, ReplyPlace, Ambiguous, Edited, SetStatus;
  }

  lemma Chooses(s: State, candle: int, side: Side)
    requires s.workers == map[0 := Idle] && s.clock == 0 && Route(CONFIG, s, "s", ROW, side) == Submit(1)
    ensures var b := Claims(s, candle);
      Enabled(CONFIG, b, Decide(0, side, true)) && Next(CONFIG, b, Decide(0, side, true)) == Decided(s, candle, side)
  {
    hide ClientId, R.Enabled, R.Next, Submission1, Link1, BreakRun, DeclineSignal, ReplyPlace, Ambiguous, Edited, Stranded;
    RouteReads(s, Claims(s, candle), side);
    hide Route;
  }

  lemma Decides(s: State, candle: int, side: Side) returns (steps: seq<Step>)
    requires s.workers == map[0 := Idle] && s.strategies == map["s" := ROW] && s.clock == 0
    requires !Stranded(s, "s") && RunAt(candle) !in s.runs && Route(CONFIG, s, "s", ROW, side) == Submit(1)
    ensures After(CONFIG, s, steps) == Decided(s, candle, side) && Plain(steps)
  {
    hide Stranded, Enabled, Next, Route, Claims, Decided;
    var a, b := Put(s, 0, Cleared(ROW, "s")), Claims(s, candle);
    Polls(s, candle);
    Chooses(s, candle, side);
    steps := Goes(s, [], s, Poll(0, "s", ROW), a);
    steps := Goes(s, steps, a, Claim(0, candle), b);
    steps := Goes(s, steps, b, Decide(0, side, true), Decided(s, candle, side));
  }

  lemma RouteReads(s: State, s2: State, side: Side)
    requires s2.db == s.db && s2.signals == s.signals && s2.clock == s.clock
    ensures Route(CONFIG, s2, "s", ROW, side) == Route(CONFIG, s, "s", ROW, side)
  {
  }

  function Sending(): Step {
    Submission(0, Some(QUOTE), 0.0, None, true, true, false)
  }

  lemma Submits(s: State, candle: int, side: Side)
    requires 0 in s.workers && s.workers[0] == Placing(ROW, RunAt(candle), SignalAt(candle, side))
    requires PlaceLive(SETTINGS, true, true, s.db, "u", TicketFor(candle, side), Some(QUOTE), 0.0)
          == Inserted(PutRow(s.db, Key(candle), NewOrder(TicketFor(candle, side), Mode.Live, Pending)))
    ensures var mid := Posted(s, candle, side).(sent := s.sent,
        workers := s.workers[0 := Posting(ROW, RunAt(candle), SignalAt(candle, side), Key(candle))]);
      Enabled(CONFIG, s, Sending()) && Next(CONFIG, s, Sending()) == mid
      && Enabled(CONFIG, mid, Post(0)) && Next(CONFIG, mid, Post(0)) == Posted(s, candle, side)
  {
    hide PlaceLive, ClientId, R.Enabled, R.Next, Link1, BreakRun, DeclineSignal, Decide1, Ambiguous, Stranded, ReplyPlace;
    assert TicketOf(ROW, SignalAt(candle, side), None, 1.0) == TicketFor(candle, side);
  }

  lemma Accepted(candle: int, side: Side)
    ensures PlaceReplied(NewOrder(TicketFor(candle, side), Mode.Live, Pending), Response(Key(candle).client, "PENDING"))
         == Resting(candle, side)
  {
    assert Key(candle).client != "";
    L.WordsMap();
    hide MapStatus, ClientId;
  }

  lemma Answers(s: State, candle: int, side: Side)
    requires 0 in s.workers
    ensures var step := Answer(0, Response(Key(candle).client, "PENDING"));
      Enabled(CONFIG, Posted(s, candle, side), step) && Next(CONFIG, Posted(s, candle, side), step) == Answered(s, candle, side)
  {
    hide R.Enabled, R.Next, Link1, BreakRun, DeclineSignal, Decide1, Submission1, Ambiguous, Stranded, PlaceReplied, Resting,
      Edited, ClientId, SetStatus, NewOrder;
    Accepted(candle, side);
    assert Answered(s, candle, side).db.orders == Posted(s, candle, side).db.orders[Key(candle) := Resting(candle, side)];
  }

  lemma Links(s: State, candle: int, side: Side)
    requires !LinkedAnywhere(s, Key(candle))
    ensures var before := Answered(Decided(s, candle, side), candle, side);
      Enabled(CONFIG, before, Link(0)) && Next(CONFIG, before, Link(0)) == Settled(s, candle, side)
  {
    hide Key, BreakRun, Resting, R.Enabled, R.Next, DeclineSignal, Decide1, Submission1, Ambiguous, Stranded;
    var before, after := Answered(Decided(s, candle, side), candle, side), Settled(s, candle, side);
    assert !LinkedAnywhere(before, Key(candle));
    hide LinkedAnywhere, Next, Enabled;
    LinkNext(before);
    assert after.runs == before.runs[RunAt(candle) := Succeeded];
    assert after.signals == before.signals[RunAt(candle) :=
      SignalAt(candle, side).(status := OrderSubmitted, order := Some(Key(candle)))];
    assert after.workers == before.workers[0 := Idle];
  }

  lemma LinkNext(s: State)
    requires At(s, 0).Linking?
    ensures Enabled(CONFIG, s, Link(0)) && Next(CONFIG, s, Link(0)) == Link1(s, 0, At(s, 0))
  {
    hide Link1, BreakRun, DeclineSignal, Decide1, Submission1, Ambiguous, Stranded, R.Enabled, R.Next;
  }

  /** From the decision to the last commit. */
  lemma Sends(s: State, candle: int, side: Side, before: seq<Step>) returns (steps: seq<Step>)
    requires After(CONFIG, s, before) == Decided(s, candle, side) && Plain(before) && 0 in s.workers
    requires !LinkedAnywhere(s, Key(candle))
    requires PlaceLive(SETTINGS, true, true, s.db, "u", TicketFor(candle, side), Some(QUOTE), 0.0)
          == Inserted(PutRow(s.db, Key(candle), NewOrder(TicketFor(candle, side), Mode.Live, Pending)))
    ensures After(CONFIG, s, steps) == Settled(s, candle, side) && Plain(steps)
  {
    hide PlaceLive, Key, NewOrder, Next, Enabled, LinkedAnywhere, After, Settled, Answered, Posted;
    var mid, posted := Decided(s, candle, side), Posted(Decided(s, candle, side), candle, side);
    Submits(mid, candle, side);
    steps := Goes(s, before, mid, Sending(), Next(CONFIG, mid, Sending()));
    steps := Goes(s, steps, Next(CONFIG, mid, Sending()), Post(0), posted);
    Answers(mid, candle, side);
    steps := Goes(s, steps, posted, Answer(0, Response(Key(candle).client, "PENDING")), Answered(mid, candle, side));
    Links(s, candle, side);
    steps := Goes(s, steps, Answered(mid, candle, side), Link(0), Settled(s, candle, side));
  }

  /** One evaluation that ends with its order linked and resting. */
  lemma Evaluates(s: State, n: nat, side: Side) returns (steps: seq<Step>)
    requires Quiet(s, n, 0, if side == Buy then 0 else 1) && n <= 2
    ensures var s2 := After(CONFIG, s, steps);
      && Quiet(s2, n + 1, n + 1, if side == Buy then 0 else 1) && SameRows(s.db, s2.db, n, 0)
      && Key(n + 1) in s2.db.orders && s2.db.orders[Key(n + 1)] == Resting(n + 1, side)
    ensures Plain(steps)
  {
    hide *;
    Routes(s, n, side);
    Places(s, n, side);
    Ready(s, n, if side == Buy then 0 else 1);
    steps := Decides(s, n + 1, side);
    steps := Sends(s, n + 1, side, steps);
    Settles(s, n, side, if side == Buy then 0 else 1);
  }

  lemma Ready(s: State, n: nat, held: int)
    requires Quiet(s, n, 0, held)
    ensures s.workers == map[0 := Idle] && 0 in s.workers && s.strategies == map["s" := ROW] && s.clock == 0
    ensures !Stranded(s, "s") && RunAt(n + 1) !in s.runs && !LinkedAnywhere(s, Key(n + 1))
  {
    QuietLinks(s, n);
    MoreKeys(n);
    hide Key, Keys, Stranded, LinkedAnywhere, OrdersOf;
  }

  lemma Settles(s: State, n: nat, side: Side, held: int)
    requires Quiet(s, n, 0, held)
    ensures Quiet(Settled(s, n + 1, side), n + 1, n + 1, held) && SameRows(s.db, Settled(s, n + 1, side).db, n, 0)
    ensures Key(n + 1) in Settled(s, n + 1, side).db.orders
      && Settled(s, n + 1, side).db.orders[Key(n + 1)] == Resting(n + 1, side)
  {
    hide Key, Resting, OrdersOf, Sum, RunsOf, SignalsOf, SameRows;
    SettledOrders(s.db, n, side);
    SettledRuns(s, n, side);
    var s2 := Settled(s, n + 1, side);
    assert s2.workers == map[0 := Idle];
  }

  lemma SettledRuns(s: State, n: nat, side: Side)
    requires RunsOf(s, n) && SignalsOf(s, n)
    ensures RunsOf(Settled(s, n + 1, side), n + 1) && SignalsOf(Settled(s, n + 1, side), n + 1)
  {
    hide Key, Resting, PutRow;
    var s2, r2 := Settled(s, n + 1, side), RunAt(n + 1);
    assert s2.runs == s.runs[r2 := Succeeded] && s2.signals == s.signals[r2 := s2.signals[r2]];
    assert s2.signals[r2].status == OrderSubmitted && s2.signals[r2].order == Some(Key(n + 1));
    hide Settled, SignalAt;
  }

  lemma SettledOrders(db: Db, n: nat, side: Side)
    requires OrdersOf(db, n, 0)
    ensures var db2 := PutRow(db, Key(n + 1), Resting(n + 1, side));
      && OrdersOf(db2, n + 1, n + 1) && SameRows(db, db2, n, 0)
      && Sum(db2.orders, Keys(n + 1), Held) == Sum(db.orders, Keys(n), Held)
  {
    var k, o2 := Key(n + 1), Resting(n + 1, side);
    var db2 := PutRow(db, k, o2);
    MoreKeys(n);
    LiveRowKeeps(SETTINGS, db, k, o2);
    assert Ours(o2, n + 1, n + 1) && Held(o2) == 0;
    hide ClientId, Sound, PaperRules, Resting;
    SettledRows(db, db2, n, o2);
    hide Ours, OrdersOf, SameRows;
    hide Good, Keys, Sum;
    SameHeld(db.orders, db2.orders, Keys(n));
    SumLinks(db2.orders, Keys(n), Held, k);
  }

  lemma SameHeld(a: map<OrderKey, Order>, b: map<OrderKey, Order>, linked: set<OrderKey>)
    requires forall k :: k in linked ==> (k in a <==> k in b) && (k in a ==> b[k] == a[k])
    ensures Sum(b, linked, Held) == Sum(a, linked, Held)
  {
    assert Shares(b, linked, Held) == Shares(a, linked, Held);
  }

  lemma SettledRows(db: Db, db2: Db, n: nat, o2: Order)
    requires OrdersOf(db, n, 0) && Good(db2) && db2 == PutRow(db, Key(n + 1), o2) && Ours(o2, n + 1, n + 1)
    ensures OrdersOf(db2, n + 1, n + 1) && SameRows(db, db2, n, 0)
  {
    MoreKeys(n);
    hide Key, Good;
    forall c | 1 <= c <= n
      ensures Key(c) != Key(n + 1) && Key(c) in db.orders && Ours(db.orders[Key(c)], c, n + 1)
    {
      KeysDiffer(c, n + 1);
    }
    hide Ours, Keys;
  }

  // ---------------------------------------------------------------- steps of the users and the reconciler

  /** Rewriting one row, which opens or closes it. */
  lemma RowChanged(db: Db, db2: Db, n: nat, c: int, o2: Order, open: int, open2: int)
    requires OrdersOf(db, n, open) && 1 <= c <= n && Good(db2) && db2.halts == {} && db2.orders == db.orders[Key(c) := o2]
    requires Ours(o2, c, open2) && open in {0, c} && open2 in {0, c}
    ensures OrdersOf(db2, n, open2) && SameRows(db, db2, n, c)
    ensures Sum(db2.orders, Keys(n), Held) == Sum(db.orders, Keys(n), Held) + Held(o2) as real - Held(db.orders[Key(c)]) as real
  {
    hide ClientId, Good, Held;
    SumMoves(db.orders, Keys(n), Held, Key(c), o2);
    assert Key(c) in Keys(n);
    forall d | 1 <= d <= n && d != c
      ensures Key(d) != Key(c) && Ours(db.orders[Key(d)], d, open2)
    {
      KeysDiffer(c, d);
      assert Ours(db.orders[Key(d)], d, open);
    }
    hide Sum, Ours, Key, Keys;
  }

  lemma TablesOnly(s: State, db2: Db, n: nat, open: int, held: int, open2: int, held2: int)
    requires Quiet(s, n, open, held) && OrdersOf(db2, n, open2) && Sum(db2.orders, Keys(n), Held) == held2 as real
    ensures Quiet(s.(db := db2), n, open2, held2)
  {
    hide OrdersOf, Sum, Key;
  }

  lemma OursReachable(db: Db, n: nat, c: int)
    requires OrdersOf(db, n, c) && 1 <= c <= n
    ensures Reachable(db, "u", Keys(n)) && Key(c) in Keys(n) && Key(c) in db.orders
  {
    hide Good;
    forall a, b | 1 <= a <= n && 1 <= b <= n
      ensures db.orders[Key(a)].brokerId == db.orders[Key(b)].brokerId ==> Key(a) == Key(b)
    {
      assert Ours(db.orders[Key(a)], a, c) && Ours(db.orders[Key(b)], b, c);
    }
    forall a | 1 <= a <= n
      ensures HasBroker(db.orders[Key(a)]) && IsLive(db, "u", Key(a))
    {
      assert Ours(db.orders[Key(a)], a, c);
    }
    hide ClientId, Ours;
  }

  /** A reconciler pass finds the trade of the open order. */
  lemma Fills(s: State, n: nat, c: int, held: int, side: Side) returns (step: Step)
    requires Quiet(s, n, c, held) && 1 <= c <= n && Key(c) in s.db.orders && s.db.orders[Key(c)].side == side
    requires s.db.orders[Key(c)].filled == 0
    ensures step.Trading? && step.step.Books? && Enabled(CONFIG, s, step)
    ensures var s2 := Next(CONFIG, s, step);
      Quiet(s2, n, 0, held + Signed(side, 1)) && SameRows(s.db, s2.db, n, c)
  {
    hide Key, Good, Sum, Reachable, RunsOf, SignalsOf, Next, Enabled, SameRows;
    OursReachable(s.db, n, c);
    assert Ours(s.db.orders[Key(c)], c, c);
    step := FillOne(CONFIG, s, "u", Key(c), Keys(n), side);
    var s2 := Next(CONFIG, s, step);
    RowChanged(s.db, s2.db, n, c, s2.db.orders[Key(c)], c, 0);
    hide Quiet, OrdersOf, Ours, Keys;
    TablesOnly(s, s2.db, n, c, held, 0, held + Signed(side, 1));
  }

  lemma CancelsRow(db: Db, o: Order, k: OrderKey, broker: string)
    requires k in db.orders && db.orders[k] == o && o.brokerId == Some(broker) && broker != "" && k.user == "u"
    requires o.mode == Mode.Live && Lists([k], SelectedLive(db, "u"))
    ensures Pass(db, "u", [k], [Item(broker, "", "CANCELLED", "")], []) == PutRow(db, k, o.(status := Canceled, completed := true))
  {
    var item, index := Item(broker, "", "CANCELLED", ""), map[broker := k];
    L.OneKeyIndex(db, k);
    assert Upper("CANCELLED") == "CANCELLED";
    OneItem(Learned(db, index), db, index, SelectedLive(db, "u"), "u", item);
    hide InitialIndex, SelectedLive, Learn, Judge;
  }

  lemma OneItem(l: Learned, db: Db, index: Index, selected: set<OrderKey>, user: string, x: Item)
    ensures Learn(l, selected, user, [x]) == LearnOne(l, selected, user, x)
    ensures Judge(db, index, selected, user, [x]) == JudgeOne(db, index, selected, user, x)
  {
    assert [x][..0] == [];
    assert Learn(l, selected, user, []) == l && Judge(db, index, selected, user, []) == db;
    hide LearnOne, JudgeOne;
  }

  lemma OnlySelected(db: Db, n: nat, c: int, db2: Db)
    requires OrdersOf(db, n, c) && 1 <= c <= n && Key(c) in db2.orders && db2.orders == db.orders[Key(c) := db2.orders[Key(c)]]
    requires db2.orders[Key(c)].mode == Mode.Live && db2.orders[Key(c)].status in OpenStatuses()
    ensures Lists([Key(c)], SelectedLive(db2, "u"))
  {
    hide ClientId, Good;
    forall k | k in db2.orders && k != Key(c)
      ensures db2.orders[k].status !in OpenStatuses()
    {
      var d :| 1 <= d <= n && Key(d) == k;
      assert Ours(db.orders[Key(d)], d, c);
    }
  }

  function Withdrawn(o: Order): Order {
    o.(status := Canceled, completed := true, version := o.version + 1)
  }

  function Asking(c: int): R.Step {
    R.Cancel(Key(c), true, true)
  }

  function Finding(c: int): R.Step {
    R.Books("u", [Key(c)], [Item(Key(c).client, "", "CANCELLED", "")], [])
  }

  lemma CancelTables(db: Db, n: nat, c: int)
    requires OrdersOf(db, n, c) && 1 <= c <= n && Key(c) in db.orders && db.orders[Key(c)].status == Open
    ensures R.Enabled(db, Asking(c)) && R.Enabled(R.Next(SETTINGS, db, Asking(c)), Finding(c))
    ensures R.Next(SETTINGS, R.Next(SETTINGS, db, Asking(c)), Finding(c)) == PutRow(db, Key(c), Withdrawn(db.orders[Key(c)]))
  {
    var k, o := Key(c), db.orders[Key(c)];
    var db1 := PutRow(db, k, CancelStarted(o));
    assert Ours(o, c, c) && k.client != "";
    assert PutRow(db1, k, CancelStarted(o).(status := Canceled, completed := true)) == PutRow(db, k, Withdrawn(o));
    hide Key, Pass, SelectedLive, OrdersOf, Ours, R.Next, R.Enabled, Withdrawn;
    AskNext(db, k);
    OnlySelected(db, n, c, db1);
    CancelsRow(db1, CancelStarted(o), k, k.client);
    FindNext(db1, c);
  }

  lemma FindNext(db: Db, c: int)
    requires Lists([Key(c)], SelectedLive(db, "u"))
    ensures R.Enabled(db, Finding(c))
    ensures R.Next(SETTINGS, db, Finding(c)) == Pass(db, "u", [Key(c)], [Item(Key(c).client, "", "CANCELLED", "")], [])
  {
    hide Pass, SelectedLive, Key;
  }

  lemma AskNext(db: Db, k: OrderKey)
    requires k in db.orders && db.orders[k].mode == Mode.Live && db.orders[k].status == Open
    ensures var step := R.Cancel(k, true, true);
      R.Enabled(db, step) && R.Next(SETTINGS, db, step) == PutRow(db, k, CancelStarted(db.orders[k]))
  {
  }

  /** The user cancels the open order, and a reconciler pass finds it cancelled before the answer to the cancel is written. */
  lemma Cancels(s: State, n: nat, c: int, held: int) returns (steps: seq<Step>)
    requires Quiet(s, n, c, held) && 1 <= c <= n && Key(c) in s.db.orders && s.db.orders[Key(c)].status == Open
    ensures var s2 := After(CONFIG, s, steps);
      Quiet(s2, n, 0, held) && Key(c) in s2.db.orders && s2.db.orders[Key(c)] == Withdrawn(s.db.orders[Key(c)])
    ensures Plain(steps)
  {
    hide Key, Next, Enabled, R.Next, R.Enabled, After, OrdersOf, Good;
    CancelTables(s.db, n, c);
    var db1 := R.Next(SETTINGS, s.db, Asking(c));
    var db2 := R.Next(SETTINGS, db1, Finding(c));
    TradingNext(CONFIG, s, Asking(c));
    TradingNext(CONFIG, s.(db := db1), Finding(c));
    NoSteps(CONFIG, s);
    steps := Goes(s, [], s, Trading(Asking(c)), s.(db := db1));
    steps := Goes(s, steps, s.(db := db1), Trading(Finding(c)), s.(db := db2));
    CancelledOrders(s.db, db1, db2, n, c);
    hide Sum, Quiet, Withdrawn;
    TablesOnly(s, db2, n, c, held, 0, held);
  }

  lemma CancelledOrders(db: Db, db1: Db, db2: Db, n: nat, c: int)
    requires OrdersOf(db, n, c) && 1 <= c <= n && R.Enabled(db, Asking(c)) && db1 == R.Next(SETTINGS, db, Asking(c))
    requires R.Enabled(db1, Finding(c)) && db2 == R.Next(SETTINGS, db1, Finding(c))
    requires Key(c) in db.orders && db2 == PutRow(db, Key(c), Withdrawn(db.orders[Key(c)]))
    ensures OrdersOf(db2, n, 0) && Sum(db2.orders, Keys(n), Held) == Sum(db.orders, Keys(n), Held)
  {
    hide Good, R.Next, R.Enabled, Key, Sum, Keys;
    R.StepKeepsGood(SETTINGS, db, Asking(c));
    R.StepKeepsGood(SETTINGS, db1, Finding(c));
    var o2 := Withdrawn(db.orders[Key(c)]);
    assert Ours(db.orders[Key(c)], c, c) && Ours(o2, c, 0) && Held(o2) == Held(db.orders[Key(c)]);
    hide OrdersOf, Ours, Withdrawn, Held;
    RowChanged(db, db2, n, c, o2, c, 0);
  }

  // ---------------------------------------------------------------- the run

  /** The answer: the broker refuses the cancel, so the handler restores the status it had read. */
  function LateRefusal(): R.Step {
    R.CancelAnswer(Key(2), Open, BrokerError("REFUSED", false))
  }

  /** The strategy's second order is a SELL that was withdrawn unfilled. */
  ghost predicate SecondWithdrawn(db: Db) {
    Key(2) in db.orders && db.orders[Key(2)] == Withdrawn(Resting(2, Sell))
  }

  lemma Starts()
    ensures Quiet(Initial(map["s" := ROW], {0}), 0, 0, 0)
  {
    R.EmptyIsGood(SETTINGS);
    hide Good;
    assert Shares(R.EMPTY.orders, Keys(0), Held) == map[];
    assert Initial(map["s" := ROW], {0}).workers == map[0 := Idle];
  }

  /** One BUY is filled, and the SELL after it is cancelled by its user. */
  lemma UpToTheCancel() returns (steps: seq<Step>)
    ensures var s := After(CONFIG, Initial(map["s" := ROW], {0}), steps);
      Quiet(s, 2, 0, 1) && SecondWithdrawn(s.db)
    ensures Plain(steps)
  {
    hide Quiet, After, Resting, Next, Enabled, Key, Initial, Withdrawn;
    var start := Initial(map["s" := ROW], {0});
    Starts();
    steps := Evaluates(start, 0, Buy);
    var a := After(CONFIG, start, steps);
    AboutResting(1, Buy);
    var fill := Fills(a, 1, 1, 0, Buy);
    steps := Goes(start, steps, a, fill, Next(CONFIG, a, fill));
    var b := Next(CONFIG, a, fill);
    var more := Evaluates(b, 1, Sell);
    AfterJoins(CONFIG, start, steps, more);
    steps := steps + more;
    AboutResting(2, Sell);
    more := Cancels(After(CONFIG, start, steps), 2, 2, 1);
    AfterJoins(CONFIG, start, steps, more);
    steps := steps + more;
  }

  lemma AboutResting(candle: int, side: Side)
    ensures var o := Resting(candle, side);
      o.side == side && o.filled == 0 && o.status == Open && Signed(Buy, 1) == 1 && Signed(Sell, 1) == -1
  {
    hide Key;
  }

  /** What is held is sold by a second order. */
  lemma UpToTheAnswer() returns (steps: seq<Step>)
    ensures var s := After(CONFIG, Initial(map["s" := ROW], {0}), steps);
      Quiet(s, 3, 0, 0) && SecondWithdrawn(s.db)
    ensures Plain(steps)
  {
    hide Quiet, After, Resting, Next, Enabled, Key, Initial, Withdrawn;
    var start := Initial(map["s" := ROW], {0});
    steps := UpToTheCancel();
    var more := Evaluates(After(CONFIG, start, steps), 2, Sell);
    AfterJoins(CONFIG, start, steps, more);
    steps := steps + more;
    AboutResting(3, Sell);
    var a := After(CONFIG, start, steps);
    var fill := Fills(a, 3, 3, 1, Sell);
    steps := Goes(start, steps, a, fill, Next(CONFIG, a, fill));
  }

  /** The refused cancel reopens the first SELL. */
  lemma Reopens(s: State) returns (s2: State)
    requires Quiet(s, 3, 0, 0) && SecondWithdrawn(s.db)
    ensures Enabled(CONFIG, s, Trading(LateRefusal())) && s2 == Next(CONFIG, s, Trading(LateRefusal()))
    ensures Quiet(s2, 3, 2, 0) && Key(2) in s2.db.orders && s2.db.orders[Key(2)].side == Sell && s2.db.orders[Key(2)].filled == 0
  {
    hide Key, Good, Next, Enabled, Sum, Keys, RunsOf, SignalsOf, SameRows;
    var o := Withdrawn(Resting(2, Sell));
    var db2 := PutRow(s.db, Key(2), o.(status := Open, reason := Some("REFUSED")));
    assert Ours(o, 2, 0);
    R.StepKeepsGood(SETTINGS, s.db, LateRefusal());
    TradingNext(CONFIG, s, LateRefusal());
    s2 := s.(db := db2);
    RowChanged(s.db, db2, 3, 2, db2.orders[Key(2)], 0, 2);
    TablesOnly(s, db2, 3, 0, 0, 2, 0);
  }

  /** The refusal is not calm: it reopens one more unit to sell than is left. */
  lemma NotCalm(s: State)
    requires Quiet(s, 3, 0, 0) && SecondWithdrawn(s.db)
    ensures !N.CalmStep(CONFIG, s, Trading(LateRefusal()))
  {
    hide Key, N.Own, Linked, Low, N.LastBuy, High, N.AffordsWork, Resting, Withdrawn, N.RewriteOf, Quiet, R.Calm, R.Enabled;
    AtItsLeast(s);
    RefusalReopens(s);
    var r := N.RewriteOf(SETTINGS, s.db, LateRefusal());
    assert !N.Affords(s, r) by {
      assert r.key in Linked(s.signals, "s");
    }
  }

  lemma AtItsLeast(s: State)
    requires Quiet(s, 3, 0, 0)
    ensures Low(s.db.orders, Linked(s.signals, "s")) <= 0.0 && Key(2) in Linked(s.signals, "s") && Key(2) in N.Own(s)
  {
    QuietLinks(s, 3);
    N.LinkedIsOwn(s, "s");
    hide Good, Sum, Exposure, N.Own, Linked, Key, RunsOf, SignalsOf, Stranded, LinkedAnywhere;
    ExposureInRange(s.db, Keys(3));
    ExposureIsHeld(s.db, Keys(3));
    assert Key(2) in Keys(3);
  }

  lemma RefusalReopens(s: State)
    requires SecondWithdrawn(s.db)
    ensures R.Enabled(s.db, LateRefusal())
    ensures var r := N.RewriteOf(SETTINGS, s.db, LateRefusal());
      r.key == Key(2) && N.MoreSold(r) == 1 && (Key(2) in N.Own(s) ==> !R.Calm(s.db, LateRefusal(), N.Own(s)))
  {
    hide Key, N.Own;
  }

  /** One late answer breaks the bound of the exposure: there is a run from empty tables in which one worker evaluates three
      candles, nobody edits an order, no answer but one comes late, and the strategy ends one unit short. */
  lemma LateAnswerSellsShort() returns (before: seq<Step>, late: Step, fill: Step)
    ensures Plain(before) && late.Trading? && late.step.CancelAnswer? && Plain([fill])
    ensures var start := Initial(map["s" := ROW], {0});
      var end := After(CONFIG, start, before + [late] + [fill]);
      && !N.CalmStep(CONFIG, After(CONFIG, start, before), late)
      && Exposure(end.db.executions, Linked(end.signals, "s")) == -1
  {
    hide Quiet, After, Next, Enabled, Key, Initial, Linked, Exposure, SecondWithdrawn, N.CalmStep;
    var start := Initial(map["s" := ROW], {0});
    before := UpToTheAnswer();
    var a := After(CONFIG, start, before);
    NotCalm(a);
    var b := Reopens(a);
    late := Trading(LateRefusal());
    AfterOne(CONFIG, start, before, late);
    AboutResting(2, Sell);
    fill := Fills(b, 3, 2, 0, Sell);
    AfterOne(CONFIG, start, before + [late], fill);
    OneShort(Next(CONFIG, b, fill));
  }

  lemma OneShort(s: State)
    requires Quiet(s, 3, 0, -1)
    ensures Exposure(s.db.executions, Linked(s.signals, "s")) == -1
  {
    QuietLinks(s, 3);
    ExposureIsHeld(s.db, Keys(3));
    hide Good, Sum, Exposure, Linked, Key, Keys;
  }
}
