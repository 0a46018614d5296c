/** Orders, executions and signed positions, and the one operation that moves them:
    `apply_execution` (backend/app/trading/engine.py). */
module Ledger {
  import opened Options

  datatype Side = Buy | Sell
  datatype OrderType = Market | Limit
  datatype Validity = Day | Ioc
  datatype Product = Cnc | Intraday | Margin | Mtf
  datatype Mode = Paper | Live
  datatype Status =
    | Pending | Open | PartiallyFilled | Filled | CancelPending
    | Canceled | Rejected | Expired | Unknown

  /** The unique constraint of the orders table. */
  datatype OrderKey = OrderKey(user: string, client: string)

  /** One order row; `completed` says whether its completion time is set. */
  datatype Order = Order(
    instrument: string, mode: Mode, side: Side, orderType: OrderType, product: Product, validity: Validity,
    quantity: int, limitPrice: Option<real>, filled: int, averageFill: Option<real>, status: Status,
    brokerId: Option<string>, reason: Option<string>, version: int, completed: bool)

  /** A paper fill gets a fresh UUID, numbered here by the executions before it. */
  datatype ExecutionId = Uuid(serial: nat) | Exchange(text: string)

  datatype Execution = Execution(order: OrderKey, id: Option<ExecutionId>, side: Side, quantity: int, price: real)

  datatype PositionKey = PositionKey(user: string, instrument: string, mode: Mode, product: Product)

  datatype Position = Position(quantity: int, average: real, realized: real, lastPrice: Option<real>)

  /** Rows of the kill-switch table that are switched on. */
  datatype Scope = Everyone | OneUser(user: string)

  datatype Db = Db(
    orders: map<OrderKey, Order>, executions: seq<Execution>, positions: map<PositionKey, Position>,
    halts: set<Scope>)

  const FLAT := Position(0, 0.0, 0.0, None)

  function OpenStatuses(): set<Status> {
    {Pending, Open, PartiallyFilled, CancelPending, Unknown}
  }

  function Abs(x: int): nat {
    if x < 0 then -x else x
  }

  function Signed(side: Side, quantity: int): int {
    if side == Buy then quantity else -quantity
  }

  function PositionKeyOf(k: OrderKey, o: Order): PositionKey {
    PositionKey(k.user, o.instrument, o.mode, o.product)
  }

  function PositionAt(db: Db, pk: PositionKey): Position {
    if pk in db.positions then db.positions[pk] else FLAT
  }

  /** An id that is missing, or the empty string, is not looked up. */
  predicate Truthy(id: Option<ExecutionId>) {
    id.Some? && id.value != Exchange("")
  }

  predicate Imported(executions: seq<Execution>, user: string, id: Option<ExecutionId>) {
    exists e :: e in executions && e.order.user == user && e.id == id
  }

  function FreshId(db: Db): Option<ExecutionId> {
    Some(Uuid(|db.executions|))
  }

  // ---------------------------------------------------------------- specification

  /** The average price of `n` units at `a` and `q` units at `b`, over `total` units. */
  function Blend(a: real, n: int, b: real, q: int, total: int): real
    requires total != 0
  {
    (a * n as real + b * q as real) / total as real
  }

  /** Profit of closing `closing` units bought (direction 1) or sold (direction -1) at `average`. */
  function Gain(closing: int, price: real, average: real, direction: int): real {
    closing as real * (price - average) * direction as real
  }

  /** The position after one signed fill: open or add, reduce, close, or flip. */
  function PositionAfter(p: Position, signed: int, price: real): Position
    requires signed != 0
  {
    var next := p.quantity + signed;
    if p.quantity == 0 || (p.quantity > 0) == (signed > 0) then
      Position(next, Blend(p.average, Abs(p.quantity), price, Abs(signed), Abs(next)), p.realized, Some(price))
    else
      var closing := if Abs(p.quantity) < Abs(signed) then Abs(p.quantity) else Abs(signed);
      var direction := if p.quantity > 0 then 1 else -1;
      Position(next,
               if next == 0 then 0.0 else if (p.quantity > 0) != (next > 0) then price else p.average,
               p.realized + Gain(closing, price, p.average, direction),
               Some(price))
  }

  function FillOrder(o: Order, quantity: int, price: real): Order
    requires quantity > 0 && o.filled >= 0
  {
    var filled := o.filled + quantity;
    var average := if o.averageFill.Some? then o.averageFill.value else 0.0;
    o.(filled := filled,
       averageFill := Some(Blend(average, o.filled, price, quantity, filled)),
       status := if filled == o.quantity then Filled else PartiallyFilled,
       completed := o.completed || filled == o.quantity)
  }

  predicate Accepts(o: Order, quantity: int) {
    quantity > 0 && o.filled + quantity <= o.quantity
  }

  /** `None` is the error INVALID_EXECUTION_QUANTITY; a known id changes nothing. */
  function ApplyExecution(db: Db, k: OrderKey, quantity: int, price: real, id: Option<ExecutionId>): Option<Db>
    requires k in db.orders && db.orders[k].filled >= 0
  {
    if Truthy(id) && Imported(db.executions, k.user, id) then Some(db)
    else if !Accepts(db.orders[k], quantity) then None
    else
      var o := db.orders[k];
      var pk := PositionKeyOf(k, o);
      Some(db.(
        orders := db.orders[k := FillOrder(o, quantity, price)],
        executions := db.executions + [Execution(k, id, o.side, quantity, price)],
        positions := db.positions[pk := PositionAfter(PositionAt(db, pk), Signed(o.side, quantity), price)]))
  }

  // ---------------------------------------------------------------- what the ledger means

  /** Realized plus unrealized profit of a position at mark `m`. */
  ghost function Value(p: Position, m: real): real {
    p.realized + p.quantity as real * (m - p.average)
  }

  /** Net money put into a position: what its open quantity cost, less what was realized. */
  ghost function NetCost(p: Position): real {
    p.quantity as real * p.average - p.realized
  }

  ghost predicate Belongs(orders: map<OrderKey, Order>, e: Execution, pk: PositionKey) {
    e.order in orders && PositionKeyOf(e.order, orders[e.order]) == pk
  }

  ghost function Cost(e: Execution): real {
    Signed(e.side, e.quantity) as real * e.price
  }

  /** Profit at mark `m` of one fill held since its own price. */
  ghost function Profit(e: Execution, m: real): real {
    Signed(e.side, e.quantity) as real * (m - e.price)
  }

  /** Profit at mark `m` of the raw fills behind one position, each held since its own price. */
  ghost function FillsValue(orders: map<OrderKey, Order>, es: seq<Execution>, pk: PositionKey, m: real): real {
    if es == [] then 0.0
    else
      var e := es[|es| - 1];
      FillsValue(orders, es[..|es| - 1], pk, m)
      + if Belongs(orders, e, pk) then Profit(e, m) else 0.0
  }

  ghost function NetFills(orders: map<OrderKey, Order>, es: seq<Execution>, pk: PositionKey): int {
    if es == [] then 0
    else
      var e := es[|es| - 1];
      NetFills(orders, es[..|es| - 1], pk) + if Belongs(orders, e, pk) then Signed(e.side, e.quantity) else 0
  }

  ghost function FillsCost(orders: map<OrderKey, Order>, es: seq<Execution>, pk: PositionKey): real {
    if es == [] then 0.0
    else
      var e := es[|es| - 1];
      FillsCost(orders, es[..|es| - 1], pk) + if Belongs(orders, e, pk) then Cost(e) else 0.0
  }

  ghost function FilledBy(es: seq<Execution>, k: OrderKey): int {
    if es == [] then 0
    else
      var e := es[|es| - 1];
      FilledBy(es[..|es| - 1], k) + if e.order == k then e.quantity else 0
  }

  ghost function Paid(e: Execution): real {
    e.quantity as real * e.price
  }

  ghost function PaidBy(es: seq<Execution>, k: OrderKey): real {
    if es == [] then 0.0
    else
      var e := es[|es| - 1];
      PaidBy(es[..|es| - 1], k) + if e.order == k then Paid(e) else 0.0
  }

  // ---------------------------------------------------------------- invariants

  /** What an order's own row says it has spent. */
  ghost function Spent(o: Order): real {
    (if o.averageFill.Some? then o.averageFill.value else 0.0) * o.filled as real
  }

  /** Every order's fill counters are the sums over its executions. */
  ghost predicate OrderSums(db: Db) {
    forall k :: k in db.orders ==>
      && db.orders[k].filled == FilledBy(db.executions, k)
      && Spent(db.orders[k]) == PaidBy(db.executions, k)
  }

  ghost predicate WithinQuantity(db: Db) {
    forall k :: k in db.orders ==> 0 <= db.orders[k].filled <= db.orders[k].quantity
  }

  ghost predicate ExecutionsLinked(db: Db) {
    forall i :: 0 <= i < |db.executions| ==>
      var e := db.executions[i];
      e.order in db.orders && e.side == db.orders[e.order].side && e.quantity > 0
  }

  /** No execution id is stored twice for one user. */
  ghost predicate UniqueIds(db: Db) {
    forall i, j :: 0 <= i < j < |db.executions| && Truthy(db.executions[i].id)
      && db.executions[i].order.user == db.executions[j].order.user
      ==> db.executions[i].id != db.executions[j].id
  }

  ghost predicate SerialsBelow(db: Db) {
    forall i :: 0 <= i < |db.executions| && db.executions[i].id.Some? && db.executions[i].id.value.Uuid?
      ==> db.executions[i].id.value.serial <= i
  }

  /** Every position holds exactly the quantity and the net cost of the fills behind it. */
  ghost predicate PositionSums(db: Db) {
    forall pk {:trigger PositionAt(db, pk)} ::
      && PositionAt(db, pk).quantity == NetFills(db.orders, db.executions, pk)
      && NetCost(PositionAt(db, pk)) == FillsCost(db.orders, db.executions, pk)
      && (PositionAt(db, pk).quantity == 0 ==> PositionAt(db, pk).average == 0.0)
  }

  ghost predicate Sound(db: Db) {
    WithinQuantity(db) && ExecutionsLinked(db) && OrderSums(db) && UniqueIds(db) && SerialsBelow(db)
    && PositionSums(db)
  }

  /** `orders2` keeps every row of `orders`, with the same identity fields. */
  ghost predicate KeepsIdentity(orders: map<OrderKey, Order>, orders2: map<OrderKey, Order>) {
    forall k :: k in orders ==>
      && k in orders2 && orders2[k].side == orders[k].side
      && PositionKeyOf(k, orders2[k]) == PositionKeyOf(k, orders[k])
  }

  // ---------------------------------------------------------------- lemmas

  lemma DivideBack(a: real, b: real)
    requires b != 0.0
    ensures b * (a / b) == a
  {
  }

  /** One fill adds exactly its own quantity and its own cost. */
  lemma FillAdds(p: Position, signed: int, price: real)
    requires signed != 0
    ensures PositionAfter(p, signed, price).quantity == p.quantity + signed
    ensures NetCost(PositionAfter(p, signed, price)) == NetCost(p) + signed as real * price
    ensures p.quantity + signed == 0 ==> PositionAfter(p, signed, price).average == 0.0
    ensures PositionAfter(p, signed, price).lastPrice == Some(price)
  {
    if p.quantity == 0 || (p.quantity > 0) == (signed > 0) {
      AddCost(p, signed, price);
    } else {
      ReduceCost(p, signed, price);
    }
  }

  predicate Between(x: real, a: real, b: real) {
    a <= x <= b || b <= x <= a
  }

  /** Opening and adding realize nothing and move the average towards the price; reducing keeps the average of what is left;
      a flip leaves the rest at the fill price. */
  lemma FillSplits(p: Position, signed: int, price: real)
    requires signed != 0
    ensures var q := PositionAfter(p, signed, price);
      if p.quantity == 0 then q.realized == p.realized && q.average == price
      else if (p.quantity > 0) == (signed > 0) then q.realized == p.realized && Between(q.average, p.average, price)
      else
        var closed := if Abs(signed) < Abs(p.quantity) then Abs(signed) else Abs(p.quantity);
        && q.realized - p.realized == closed as real * (if p.quantity > 0 then price - p.average else p.average - price)
        && q.average == if Abs(signed) < Abs(p.quantity) then p.average else if signed + p.quantity == 0 then 0.0 else price
  {
    if p.quantity == 0 {
      DivideBack(price * Abs(signed) as real, Abs(signed) as real);
      BlendOfOne(p.average, price, Abs(signed));
    } else if (p.quantity > 0) == (signed > 0) {
      BlendBetween(p.average, Abs(p.quantity), price, Abs(signed));
    }
    hide Blend;
  }

  lemma BlendOfOne(a: real, b: real, q: int)
    requires q > 0
    ensures Blend(a, 0, b, q, q) == b
  {
  }

  lemma BlendBetween(a: real, n: int, b: real, q: int)
    requires n > 0 && q > 0
    ensures Between(Blend(a, n, b, q, n + q), a, b)
  {
    BlendBack(a, n, b, q, n + q);
    var x, m, k := Blend(a, n, b, q, n + q), n as real, q as real;
    assert (n + q) as real == m + k;
    hide Blend;
    if a <= b {
      MeanBetween(x, a, b, m, k);
    } else {
      MeanBetween(x, b, a, k, m);
    }
  }

  lemma MeanBetween(x: real, a: real, b: real, m: real, k: real)
    requires m > 0.0 && k > 0.0 && a <= b && (m + k) * x == a * m + b * k
    ensures a <= x <= b
  {
    assert (m + k) * (x - a) == (m + k) * x - (m + k) * a == (b - a) * k >= 0.0;
    assert (m + k) * (b - x) == (m + k) * b - (m + k) * x == (b - a) * m >= 0.0;
    FactorNotNegative(m + k, x - a);
    FactorNotNegative(m + k, b - x);
  }

  lemma FactorNotNegative(total: real, d: real)
    requires total > 0.0 && total * d >= 0.0
    ensures d >= 0.0
  {
    assert d < 0.0 ==> total * (-d) > 0.0;
  }

  lemma BlendBack(a: real, n: int, b: real, q: int, total: int)
    requires total != 0
    ensures total as real * Blend(a, n, b, q, total) == a * n as real + b * q as real
  {
    DivideBack(a * n as real + b * q as real, total as real);
  }

  lemma AddCost(p: Position, signed: int, price: real)
    requires signed != 0 && (p.quantity == 0 || (p.quantity > 0) == (signed > 0))
    ensures NetCost(PositionAfter(p, signed, price)) == NetCost(p) + signed as real * price
  {
    hide Blend;
    var next := p.quantity + signed;
    var average := Blend(p.average, Abs(p.quantity), price, Abs(signed), Abs(next));
    BlendBack(p.average, Abs(p.quantity), price, Abs(signed), Abs(next));
    if signed > 0 {
      assert next as real * average == p.average * p.quantity as real + price * signed as real;
    } else {
      assert next as real * average == -(Abs(next) as real * average);
    }
  }

  lemma ReduceCost(p: Position, signed: int, price: real)
    requires signed != 0 && p.quantity != 0 && (p.quantity > 0) != (signed > 0)
    ensures NetCost(PositionAfter(p, signed, price)) == NetCost(p) + signed as real * price
  {
    var o, s := p.quantity as real, signed as real;
    var next := p.quantity + signed;
    var q := PositionAfter(p, signed, price);
    assert next as real == o + s;
    if next == 0 || (p.quantity > 0) != (next > 0) {
      assert q.realized == p.realized + o * (price - p.average);
      assert q.quantity as real * q.average == (o + s) * price;
    } else {
      assert q.realized == p.realized - s * (price - p.average);
      assert q.quantity as real * q.average == (o + s) * p.average;
    }
  }

  ghost function Marked(n: int, m: real): real {
    n as real * m
  }

  lemma AddAtMark(n: int, e: Execution, m: real)
    ensures Marked(n + Signed(e.side, e.quantity), m) == Marked(n, m) + Profit(e, m) + Cost(e)
  {
    assert (n + Signed(e.side, e.quantity)) as real == n as real + Signed(e.side, e.quantity) as real;
  }

  /** The two sums determine the value at every mark. */
  lemma {:induction false} FillsAtMark(orders: map<OrderKey, Order>, es: seq<Execution>, pk: PositionKey, m: real)
    ensures FillsValue(orders, es, pk, m) == Marked(NetFills(orders, es, pk), m) - FillsCost(orders, es, pk)
  {
    hide Profit, Cost, Signed, Marked;
    if es == [] {
      MarkedNothing(m);
    } else {
      FillsAtMark(orders, es[..|es| - 1], pk, m);
      AddAtMark(NetFills(orders, es[..|es| - 1], pk), es[|es| - 1], m);
    }
  }

  lemma MarkedNothing(m: real)
    ensures Marked(0, m) == 0.0
  {
  }

  lemma ValueAtMark(p: Position, m: real)
    ensures Value(p, m) == Marked(p.quantity, m) - NetCost(p)
  {
    assert p.quantity as real * (m - p.average) == p.quantity as real * m - p.quantity as real * p.average;
  }

  /** Main identity: realized plus unrealized profit at any mark is the profit of the raw fills at that mark. */
  lemma ProfitIdentity(db: Db, pk: PositionKey, m: real)
    requires Sound(db)
    ensures Value(PositionAt(db, pk), m) == FillsValue(db.orders, db.executions, pk, m)
  {
    hide Marked, NetCost, Value;
    FillsAtMark(db.orders, db.executions, pk, m);
    ValueAtMark(PositionAt(db, pk), m);
  }

  lemma {:induction false} KeptFills(
      orders: map<OrderKey, Order>, orders2: map<OrderKey, Order>, es: seq<Execution>, pk: PositionKey)
    requires KeepsIdentity(orders, orders2)
    requires forall i :: 0 <= i < |es| ==> es[i].order in orders
    ensures FillsCost(orders2, es, pk) == FillsCost(orders, es, pk)
    ensures NetFills(orders2, es, pk) == NetFills(orders, es, pk)
  {
    if es != [] {
      KeptFills(orders, orders2, es[..|es| - 1], pk);
    }
  }

  lemma Appended(orders: map<OrderKey, Order>, es: seq<Execution>, e: Execution, pk: PositionKey)
    ensures FillsCost(orders, es + [e], pk)
         == FillsCost(orders, es, pk) + if Belongs(orders, e, pk) then Cost(e) else 0.0
    ensures NetFills(orders, es + [e], pk)
         == NetFills(orders, es, pk) + if Belongs(orders, e, pk) then Signed(e.side, e.quantity) else 0
  {
    assert (es + [e])[..|es|] == es;
  }

  lemma AppendedTo(es: seq<Execution>, e: Execution, k: OrderKey)
    ensures FilledBy(es + [e], k) == FilledBy(es, k) + if e.order == k then e.quantity else 0
    ensures PaidBy(es + [e], k) == PaidBy(es, k) + if e.order == k then Paid(e) else 0.0
  {
    assert (es + [e])[..|es|] == es;
  }

  /** Changing only non-identity fields of orders, or adding unfilled ones, keeps the ledger invariant. */
  lemma RowsKeepSound(db: Db, orders2: map<OrderKey, Order>)
    requires Sound(db) && KeepsIdentity(db.orders, orders2)
    requires forall k :: k in orders2 ==> 0 <= orders2[k].filled <= orders2[k].quantity
    requires forall k :: k in db.orders ==>
      orders2[k].filled == db.orders[k].filled && orders2[k].averageFill == db.orders[k].averageFill
    requires forall k :: k in orders2 && k !in db.orders ==>
      orders2[k].filled == 0 && orders2[k].averageFill == None
    ensures Sound(db.(orders := orders2))
  {
    var db2 := db.(orders := orders2);
    assert PositionSums(db2) by {
      forall pk
        ensures PositionAt(db2, pk).quantity == NetFills(orders2, db.executions, pk)
        ensures NetCost(PositionAt(db2, pk)) == FillsCost(orders2, db.executions, pk)
        ensures PositionAt(db2, pk).quantity == 0 ==> PositionAt(db2, pk).average == 0.0
      {
        KeptFills(db.orders, orders2, db.executions, pk);
        assert PositionAt(db2, pk) == PositionAt(db, pk);
      }
    }
    assert OrderSums(db2) by {
      RowsKeepOrderSums(db, orders2);
    }
  }

  lemma RowsKeepOrderSums(db: Db, orders2: map<OrderKey, Order>)
    requires ExecutionsLinked(db) && OrderSums(db) && KeepsIdentity(db.orders, orders2)
    requires forall k :: k in db.orders ==>
      orders2[k].filled == db.orders[k].filled && orders2[k].averageFill == db.orders[k].averageFill
    requires forall k :: k in orders2 && k !in db.orders ==>
      orders2[k].filled == 0 && orders2[k].averageFill == None
    ensures OrderSums(db.(orders := orders2))
  {
    forall k | k in orders2
      ensures orders2[k].filled == FilledBy(db.executions, k)
      ensures Spent(orders2[k]) == PaidBy(db.executions, k)
    {
      if k in db.orders {
        SameCounters(db.orders[k], orders2[k]);
      } else {
        Untouched(db.executions, k);
        NothingSpent(orders2[k]);
      }
    }
  }

  lemma SameCounters(o: Order, o2: Order)
    requires o2.filled == o.filled && o2.averageFill == o.averageFill
    ensures Spent(o2) == Spent(o)
  {
  }

  lemma NothingSpent(o: Order)
    requires o.filled == 0
    ensures Spent(o) == 0.0
  {
  }

  lemma {:induction false} Untouched(es: seq<Execution>, k: OrderKey)
    requires forall i :: 0 <= i < |es| ==> es[i].order != k
    ensures FilledBy(es, k) == 0 && PaidBy(es, k) == 0.0
  {
    if es != [] {
      Untouched(es[..|es| - 1], k);
    }
  }

  /** One appended execution moves the two sums of a position and its row alike. */
  lemma MovesAlike(db: Db, db2: Db, e: Execution, pk: PositionKey)
    requires PositionSums(db) && ExecutionsLinked(db) && KeepsIdentity(db.orders, db2.orders)
    requires db2.executions == db.executions + [e]
    requires if Belongs(db2.orders, e, pk)
      then PositionAt(db2, pk).quantity == PositionAt(db, pk).quantity + Signed(e.side, e.quantity)
        && NetCost(PositionAt(db2, pk)) == NetCost(PositionAt(db, pk)) + Cost(e)
      else PositionAt(db2, pk) == PositionAt(db, pk)
    ensures PositionAt(db2, pk).quantity == NetFills(db2.orders, db2.executions, pk)
    ensures NetCost(PositionAt(db2, pk)) == FillsCost(db2.orders, db2.executions, pk)
  {
    var p, p2 := PositionAt(db, pk), PositionAt(db2, pk);
    var cost, cost2 := NetCost(p), NetCost(p2);
    KeptFills(db.orders, db2.orders, db.executions, pk);
    Appended(db2.orders, db.executions, e, pk);
  }

  lemma FillAddsExecution(p: Position, e: Execution)
    requires Signed(e.side, e.quantity) != 0
    ensures var q := PositionAfter(p, Signed(e.side, e.quantity), e.price);
      && q.quantity == p.quantity + Signed(e.side, e.quantity)
      && NetCost(q) == NetCost(p) + Cost(e)
      && (q.quantity == 0 ==> q.average == 0.0)
  {
    hide PositionAfter, NetCost;
    FillAdds(p, Signed(e.side, e.quantity), e.price);
  }

  lemma FillKeepsPositions(db: Db, k: OrderKey, quantity: int, price: real, id: Option<ExecutionId>)
    requires Sound(db) && k in db.orders && Accepts(db.orders[k], quantity)
    requires !(Truthy(id) && Imported(db.executions, k.user, id))
    ensures PositionSums(ApplyExecution(db, k, quantity, price, id).value)
  {
    hide PositionAfter, NetCost, Cost;
    var o := db.orders[k];
    var e := Execution(k, id, o.side, quantity, price);
    var db2 := ApplyExecution(db, k, quantity, price, id).value;
    var own := PositionKeyOf(k, o);
    assert KeepsIdentity(db.orders, db2.orders);
    hide FillOrder;
    FillAddsExecution(PositionAt(db, own), e);
    forall pk
      ensures PositionAt(db2, pk).quantity == NetFills(db2.orders, db2.executions, pk)
      ensures NetCost(PositionAt(db2, pk)) == FillsCost(db2.orders, db2.executions, pk)
      ensures PositionAt(db2, pk).quantity == 0 ==> PositionAt(db2, pk).average == 0.0
    {
      assert Belongs(db2.orders, e, pk) <==> pk == own;
      if pk != own {
        assert PositionAt(db2, pk) == PositionAt(db, pk);
      }
      MovesAlike(db, db2, e, pk);
    }
  }

  /** A fill adds its quantity and its amount to an order, which is then FILLED and completed exactly when nothing is left, and
      PARTIALLY_FILLED otherwise. */
  lemma FillSpends(o: Order, e: Execution)
    requires e.quantity > 0 && o.filled >= 0
    ensures var o2 := FillOrder(o, e.quantity, e.price);
      && o2.filled == o.filled + e.quantity && o2.quantity == o.quantity
      && o2.status == (if o2.filled == o.quantity then Filled else PartiallyFilled)
      && (o2.completed <==> o.completed || o2.filled == o.quantity)
    ensures Spent(FillOrder(o, e.quantity, e.price)) == Spent(o) + Paid(e)
  {
    hide Blend;
    var average := if o.averageFill.Some? then o.averageFill.value else 0.0;
    BlendBack(average, o.filled, e.price, e.quantity, o.filled + e.quantity);
  }

  lemma FillKeepsOrders(db: Db, k: OrderKey, quantity: int, price: real, id: Option<ExecutionId>)
    requires Sound(db) && k in db.orders && Accepts(db.orders[k], quantity)
    requires !(Truthy(id) && Imported(db.executions, k.user, id))
    ensures OrderSums(ApplyExecution(db, k, quantity, price, id).value)
  {
    hide FillOrder, Spent, PositionAfter, Paid;
    var e := Execution(k, id, db.orders[k].side, quantity, price);
    var db2 := ApplyExecution(db, k, quantity, price, id).value;
    FillSpends(db.orders[k], e);
    forall k2 | k2 in db2.orders
      ensures db2.orders[k2].filled == FilledBy(db2.executions, k2)
      ensures Spent(db2.orders[k2]) == PaidBy(db2.executions, k2)
    {
      AppendedTo(db.executions, e, k2);
    }
  }

  lemma FillKeepsIds(db: Db, k: OrderKey, quantity: int, price: real, id: Option<ExecutionId>)
    requires UniqueIds(db) && SerialsBelow(db) && k in db.orders && db.orders[k].filled >= 0
    requires Accepts(db.orders[k], quantity) && !(Truthy(id) && Imported(db.executions, k.user, id))
    requires id.Some? && id.value.Uuid? ==> id == FreshId(db)
    ensures UniqueIds(ApplyExecution(db, k, quantity, price, id).value)
    ensures SerialsBelow(ApplyExecution(db, k, quantity, price, id).value)
  {
    var es := ApplyExecution(db, k, quantity, price, id).value.executions;
    var n := |db.executions|;
    assert es[..n] == db.executions;
    forall i | 0 <= i < n && Truthy(es[i].id) && es[i].order.user == k.user
      ensures es[i].id != id
    {
      assert db.executions[i] in db.executions;
    }
  }

  /** Every call that is not refused keeps the whole ledger invariant. */
  lemma ApplyKeepsSound(db: Db, k: OrderKey, quantity: int, price: real, id: Option<ExecutionId>)
    requires Sound(db) && k in db.orders
    requires id.Some? && id.value.Uuid? ==> id == FreshId(db)
    ensures ApplyExecution(db, k, quantity, price, id).Some? ==>
      Sound(ApplyExecution(db, k, quantity, price, id).value)
  {
    if !(Truthy(id) && Imported(db.executions, k.user, id)) && Accepts(db.orders[k], quantity) {
      FillKeepsPositions(db, k, quantity, price, id);
      FillKeepsOrders(db, k, quantity, price, id);
      FillKeepsIds(db, k, quantity, price, id);
      FillKeepsLinks(db, k, quantity, price, id);
      hide WithinQuantity, ExecutionsLinked, OrderSums, UniqueIds, SerialsBelow, PositionSums, ApplyExecution;
    }
  }

  lemma FillKeepsLinks(db: Db, k: OrderKey, quantity: int, price: real, id: Option<ExecutionId>)
    requires WithinQuantity(db) && ExecutionsLinked(db) && k in db.orders && Accepts(db.orders[k], quantity)
    requires !(Truthy(id) && Imported(db.executions, k.user, id))
    ensures var r := ApplyExecution(db, k, quantity, price, id);
      r.Some? && WithinQuantity(r.value) && ExecutionsLinked(r.value)
  {
    hide PositionAfter, Blend;
  }

  // ---------------------------------------------------------------- fill order does not matter

  lemma {:induction false} TakeOut(orders: map<OrderKey, Order>, es: seq<Execution>, i: nat, pk: PositionKey)
    requires i < |es|
    ensures FillsCost(orders, es, pk)
         == FillsCost(orders, es[..i] + es[i + 1..], pk) + if Belongs(orders, es[i], pk) then Cost(es[i]) else 0.0
    ensures NetFills(orders, es, pk)
         == NetFills(orders, es[..i] + es[i + 1..], pk)
            + if Belongs(orders, es[i], pk) then Signed(es[i].side, es[i].quantity) else 0
  {
    var last := |es| - 1;
    if i == last {
      assert es[..i] + es[i + 1..] == es[..last];
    } else {
      TakeOut(orders, es[..last], i, pk);
      var rest := es[..i] + es[i + 1..];
      assert es[..last][..i] == es[..i];
      assert rest[..|rest| - 1] == es[..last][..i] + es[..last][i + 1..];
      assert rest[|rest| - 1] == es[last];
    }
  }

  lemma Matching<T>(a: seq<T>, b: seq<T>) returns (i: nat)
    requires a != [] && multiset(a) == multiset(b)
    ensures i < |b| && b[i] == a[|a| - 1]
    ensures multiset(a[..|a| - 1]) == multiset(b[..i] + b[i + 1..])
  {
    var last := |a| - 1;
    assert a[last] in multiset(b);
    i :| 0 <= i < |b| && b[i] == a[last];
    assert a == a[..last] + [a[last]];
    assert b == b[..i] + ([b[i]] + b[i + 1..]);
    assert multiset(a) == multiset(a[..last]) + multiset{a[last]};
    assert multiset(b) == multiset(b[..i] + b[i + 1..]) + multiset{b[i]};
    assert multiset(a[..last]) == multiset(a) - multiset{a[last]};
  }

  /** A fill as the position sees it, without the id under which it was booked. */
  datatype Fill = Fill(order: OrderKey, side: Side, quantity: int, price: real)

  function FillOf(e: Execution): Fill {
    Fill(e.order, e.side, e.quantity, e.price)
  }

  function FillsOf(es: seq<Execution>): (fills: seq<Fill>)
    ensures |fills| == |es| && forall i :: 0 <= i < |es| ==> fills[i] == FillOf(es[i])
  {
    seq(|es|, i requires 0 <= i < |es| => FillOf(es[i]))
  }

  /** The fold over fills depends only on which fills there are, not on their ids or their order. */
  lemma {:induction false} FillOrderIrrelevant(
      orders: map<OrderKey, Order>, a: seq<Execution>, b: seq<Execution>, pk: PositionKey)
    requires multiset(FillsOf(a)) == multiset(FillsOf(b))
    ensures FillsCost(orders, a, pk) == FillsCost(orders, b, pk)
    ensures NetFills(orders, a, pk) == NetFills(orders, b, pk)
    decreases |a|
  {
    if a == [] {
      assert |b| == |multiset(FillsOf(b))|;
    } else {
      var i := Matching(FillsOf(a), FillsOf(b));
      var rest := b[..i] + b[i + 1..];
      assert FillsOf(a)[..|a| - 1] == FillsOf(a[..|a| - 1]);
      assert FillsOf(b)[..i] + FillsOf(b)[i + 1..] == FillsOf(rest);
      FillOrderIrrelevant(orders, a[..|a| - 1], rest, pk);
      TakeOut(orders, b, i, pk);
      assert FillOf(b[i]) == FillOf(a[|a| - 1]);
    }
  }

  /** Two sound ledgers whose tables hold the same fills, in any order and under any ids, agree on every quantity and every
      total profit. */
  lemma SameFillsSameProfit(a: Db, b: Db, pk: PositionKey, m: real)
    requires Sound(a) && Sound(b)
    requires multiset(FillsOf(a.executions)) == multiset(FillsOf(b.executions))
    requires KeepsIdentity(a.orders, b.orders)
    ensures PositionAt(a, pk).quantity == PositionAt(b, pk).quantity
    ensures Value(PositionAt(a, pk), m) == Value(PositionAt(b, pk), m)
  {
    hide Marked, NetCost, Value;
    KeptFills(a.orders, b.orders, a.executions, pk);
    FillOrderIrrelevant(b.orders, a.executions, b.executions, pk);
    ValueAtMark(PositionAt(a, pk), m);
    ValueAtMark(PositionAt(b, pk), m);
  }
}
