/** The broker reconciler: one pass learns broker order ids, imports trades once, then applies the
    order-book status (backend/app/trading/reconcile.py). */
module Reconcile {
  import opened Ledger
  import opened Options
  import opened Paper
  import opened PositionBound
  import opened Live

  /** Order-book and trade-book rows; a missing text is the empty string. */
  datatype Item = Item(orderId: string, correlation: string, status: string, reason: string)
  datatype Trade = Trade(orderId: string, executionId: string, quantity: int, price: real)

  type Index = map<string, OrderKey>

  function Terminal(): set<Status> {
    {Status.Filled, Canceled, Rejected, Expired}
  }

  function SelectedLive(db: Db, user: string): set<OrderKey> {
    set k | k in db.orders && k.user == user && db.orders[k].mode == Mode.Live
         && db.orders[k].status in OpenStatuses()
  }

  // ---------------------------------------------------------------- specification of one pass

  /** Broker ids of the selected rows; of two rows with one id the later wins. */
  function InitialIndex(db: Db, keys: seq<OrderKey>): Index {
    if keys == [] then map[]
    else
      var k, index := keys[|keys| - 1], InitialIndex(db, keys[..|keys| - 1]);
      if k in db.orders && HasBroker(db.orders[k]) then index[db.orders[k].brokerId.value := k] else index
  }

  function Find(index: Index, selected: set<OrderKey>, user: string, item: Item): Option<OrderKey> {
    if item.orderId in index then Some(index[item.orderId])
    else if OrderKey(user, item.correlation) in selected then Some(OrderKey(user, item.correlation))
    else None
  }

  datatype Learned = Learned(db: Db, index: Index)

  function LearnOne(l: Learned, selected: set<OrderKey>, user: string, item: Item): Learned {
    match Find(l.index, selected, user, item)
    case None => l
    case Some(k) =>
      if item.orderId != "" && k in l.db.orders && !HasBroker(l.db.orders[k]) then
        Learned(PutRow(l.db, k, l.db.orders[k].(brokerId := Some(item.orderId))), l.index[item.orderId := k])
      else l
  }

  function Learn(l: Learned, selected: set<OrderKey>, user: string, items: seq<Item>): Learned {
    if items == [] then l
    else LearnOne(Learn(l, selected, user, items[..|items| - 1]), selected, user, items[|items| - 1])
  }

  function ImportOne(db: Db, index: Index, t: Trade): Db {
    if t.orderId !in index || t.executionId == "" then db
    else
      var k := index[t.orderId];
      if k !in db.orders || db.orders[k].filled < 0 then db
      else
        match ApplyExecution(db, k, t.quantity, t.price, Some(Exchange(t.executionId)))
        case Some(db2) => db2
        case None =>
          PutRow(db, k, db.orders[k].(status := Unknown,
                                      reason := Some("RECONCILIATION_INVALID_EXECUTION_QUANTITY")))
  }

  function Import(db: Db, index: Index, trades: seq<Trade>): Db {
    if trades == [] then db
    else ImportOne(Import(db, index, trades[..|trades| - 1]), index, trades[|trades| - 1])
  }

  function Judged(o: Order, item: Item): Order {
    var s := MapStatus(item.status);
    if s == Status.Filled && o.filled != o.quantity then
      o.(status := Unknown, reason := Some("TRADE_BOOK_INCOMPLETE"))
    else
      o.(status := s,
         reason := if s == Rejected && item.reason != ""
                   then Some(if |item.reason| > 120 then item.reason[..120] else item.reason) else o.reason,
         completed := o.completed || s in Terminal())
  }

  function JudgeOne(db: Db, index: Index, selected: set<OrderKey>, user: string, item: Item): Db {
    match Find(index, selected, user, item)
    case None => db
    case Some(k) => if k in db.orders then PutRow(db, k, Judged(db.orders[k], item)) else db
  }

  function Judge(db: Db, index: Index, selected: set<OrderKey>, user: string, items: seq<Item>): Db {
    if items == [] then db
    else JudgeOne(Judge(db, index, selected, user, items[..|items| - 1]), index, selected, user, items[|items| - 1])
  }

  function LearnPass(db: Db, user: string, keys: seq<OrderKey>, items: seq<Item>): Learned {
    Learn(Learned(db, InitialIndex(db, keys)), SelectedLive(db, user), user, items)
  }

  /** One whole pass; `keys` is the order in which the query returned the selected rows. */
  function Pass(db: Db, user: string, keys: seq<OrderKey>, items: seq<Item>, trades: seq<Trade>): Db {
    var l := LearnPass(db, user, keys, items);
    Judge(Import(l.db, l.index, trades), l.index, SelectedLive(db, user), user, items)
  }

  // ---------------------------------------------------------------- what any books keep

  ghost predicate Into(index: Index, selected: set<OrderKey>) {
    forall x :: x in index ==> index[x] in selected
  }

  /** `db2` has the same rows outside `selected`; the others keep side, mode and quantity, and lose no fill. */
  ghost predicate OnlyTouches(db: Db, db2: Db, selected: set<OrderKey>) {
    && db2.orders.Keys == db.orders.Keys
    && (forall k :: k in db.orders && k !in selected ==> db2.orders[k] == db.orders[k])
    && (forall k :: k in db.orders ==>
          db2.orders[k].mode == db.orders[k].mode && db2.orders[k].side == db.orders[k].side
          && db2.orders[k].quantity == db.orders[k].quantity && db2.orders[k].filled >= db.orders[k].filled)
  }

  ghost predicate Good(db: Db) {
    Sound(db) && PaperRules(db)
  }

  /** From `db` to `db2` nothing that held is lost. */
  ghost predicate Carries(cfg: Settings, db: Db, db2: Db) {
    && Good(db2)
    && (Bounded(cfg, db) ==> Bounded(cfg, db2))
    && (FilledIsComplete(db) ==> FilledIsComplete(db2))
  }

  ghost predicate AllLive(db: Db, selected: set<OrderKey>) {
    forall k :: k in selected ==> k in db.orders && db.orders[k].mode == Mode.Live
  }

  lemma SelectedAllLive(db: Db, user: string)
    ensures AllLive(db, SelectedLive(db, user))
  {
  }

  lemma StillLive(db: Db, db2: Db, selected: set<OrderKey>)
    requires AllLive(db, selected) && OnlyTouches(db, db2, selected)
    ensures AllLive(db2, selected)
  {
  }

  lemma {:induction false} InitialInto(db: Db, keys: seq<OrderKey>, selected: set<OrderKey>)
    requires forall k :: k in keys ==> k in selected
    ensures Into(InitialIndex(db, keys), selected)
  {
    if keys != [] {
      InitialInto(db, keys[..|keys| - 1], selected);
      assert keys[|keys| - 1] in keys;
    }
  }

  lemma RewriteKeeps(cfg: Settings, db: Db, k: OrderKey, o2: Order)
    requires Good(db) && k in db.orders && db.orders[k].mode == Mode.Live
    requires o2 == db.orders[k].(status := o2.status, brokerId := o2.brokerId, reason := o2.reason, completed := o2.completed)
    requires o2.status == Status.Filled ==> o2.filled == o2.quantity || o2.status == db.orders[k].status
    ensures Carries(cfg, db, PutRow(db, k, o2))
  {
    assert 0 <= db.orders[k].filled <= db.orders[k].quantity;
    hide Sound, PaperRules, Bounded;
    LiveRowKeeps(cfg, db, k, o2);
  }

  lemma NotNegative(db: Db, k: OrderKey)
    requires Good(db) && k in db.orders
    ensures 0 <= db.orders[k].filled
  {
  }

  lemma LearnOneKeeps(cfg: Settings, l: Learned, selected: set<OrderKey>, user: string, item: Item)
    requires Good(l.db) && AllLive(l.db, selected) && Into(l.index, selected)
    ensures var l2 := LearnOne(l, selected, user, item);
      Carries(cfg, l.db, l2.db) && Into(l2.index, selected) && OnlyTouches(l.db, l2.db, selected)
      && l2.db.executions == l.db.executions && l2.db.positions == l.db.positions && l2.db.halts == l.db.halts
  {
    hide Sound, PaperRules, Bounded, FilledIsComplete;
    var found := Find(l.index, selected, user, item);
    if found.Some? {
      RewriteKeeps(cfg, l.db, found.value, l.db.orders[found.value].(brokerId := Some(item.orderId)));
    }
  }

  lemma {:induction false} LearnKeeps(cfg: Settings, l: Learned, selected: set<OrderKey>, user: string, items: seq<Item>)
    requires Good(l.db) && AllLive(l.db, selected) && Into(l.index, selected)
    ensures var l2 := Learn(l, selected, user, items);
      Carries(cfg, l.db, l2.db) && Into(l2.index, selected) && OnlyTouches(l.db, l2.db, selected)
      && l2.db.executions == l.db.executions && l2.db.positions == l.db.positions && l2.db.halts == l.db.halts
  {
    hide Sound, PaperRules, Bounded, FilledIsComplete, LearnOne;
    if items != [] {
      LearnKeeps(cfg, l, selected, user, items[..|items| - 1]);
      LearnOneKeeps(cfg, Learn(l, selected, user, items[..|items| - 1]), selected, user, items[|items| - 1]);
    }
  }

  /** Importing one trade into a live order keeps everything. */
  lemma LiveFillKeeps(cfg: Settings, db: Db, k: OrderKey, quantity: int, price: real, id: string)
    requires Good(db) && k in db.orders && db.orders[k].mode == Mode.Live && 0 <= db.orders[k].filled
    ensures var r := ApplyExecution(db, k, quantity, price, Some(Exchange(id)));
      r.Some? ==> Carries(cfg, db, r.value)
  {
    var r := ApplyExecution(db, k, quantity, price, Some(Exchange(id)));
    if r.Some? && r.value != db {
      ApplyKeepsSound(db, k, quantity, price, Some(Exchange(id)));
      hide PositionAfter, Sound;
      LiveFillBound(cfg, db, k, r.value);
      hide Bounded;
      LiveFillFair(db, k, r.value);
    }
  }

  lemma LiveFillFair(db: Db, k: OrderKey, db2: Db)
    requires PaperRules(db) && k in db.orders && db.orders[k].mode == Mode.Live
    requires k in db2.orders && db2.orders == db.orders[k := db2.orders[k]] && db2.orders[k].mode == Mode.Live
    requires exists e: Execution :: db2.executions == db.executions + [e] && e.order == k
    ensures PaperRules(db2)
  {
    hide NoWorseThanLimit;
    LiveIsFree(db2.orders[k]);
    hide AllOrNothing;
  }

  lemma LiveFillBound(cfg: Settings, db: Db, k: OrderKey, db2: Db)
    requires k in db.orders && db.orders[k].mode == Mode.Live
    requires k in db2.orders && db2.orders == db.orders[k := db2.orders[k]]
    requires PositionKeyOf(k, db2.orders[k]) == PositionKeyOf(k, db.orders[k])
    requires db2.positions == db.positions[PositionKeyOf(k, db.orders[k]) := PositionAt(db2, PositionKeyOf(k, db.orders[k]))]
    ensures Bounded(cfg, db) ==> Bounded(cfg, db2)
  {
    if Bounded(cfg, db) {
      forall pk: PositionKey, side | pk.mode == Mode.Paper
        ensures Load(db2, pk, side) <= Cap(cfg) as real
      {
        RestingMoves(db, db2, k, pk, side);
        assert PositionAt(db2, pk) == PositionAt(db, pk);
        assert Load(db, pk, side) <= Cap(cfg) as real;
      }
    }
  }

  lemma ImportOneKeeps(cfg: Settings, db: Db, index: Index, selected: set<OrderKey>, t: Trade)
    requires Good(db) && AllLive(db, selected) && Into(index, selected)
    ensures var db2 := ImportOne(db, index, t);
      Carries(cfg, db, db2) && OnlyTouches(db, db2, selected) && db2.halts == db.halts
      && (forall k :: k in db.orders ==> db2.orders[k].brokerId == db.orders[k].brokerId)
  {
    hide Sound, PaperRules, Bounded, FilledIsComplete, PositionAfter, Blend;
    if t.orderId in index && t.executionId != "" {
      var k := index[t.orderId];
      NotNegative(db, k);
      LiveFillKeeps(cfg, db, k, t.quantity, t.price, t.executionId);
      RewriteKeeps(cfg, db, k, db.orders[k].(status := Unknown,
                                reason := Some("RECONCILIATION_INVALID_EXECUTION_QUANTITY")));
    }
  }

  lemma {:induction false} ImportKeeps(cfg: Settings, db: Db, index: Index, selected: set<OrderKey>, trades: seq<Trade>)
    requires Good(db) && AllLive(db, selected) && Into(index, selected)
    ensures var db2 := Import(db, index, trades);
      Carries(cfg, db, db2) && OnlyTouches(db, db2, selected) && db2.halts == db.halts
      && (forall k :: k in db.orders ==> db2.orders[k].brokerId == db.orders[k].brokerId)
  {
    hide Sound, PaperRules, Bounded, FilledIsComplete, ImportOne, Into;
    if trades != [] {
      ImportKeeps(cfg, db, index, selected, trades[..|trades| - 1]);
      ImportOneKeeps(cfg, Import(db, index, trades[..|trades| - 1]), index, selected, trades[|trades| - 1]);
    }
  }

  lemma JudgeOneKeeps(cfg: Settings, db: Db, index: Index, selected: set<OrderKey>, user: string, item: Item)
    requires Good(db) && AllLive(db, selected) && Into(index, selected)
    ensures var db2 := JudgeOne(db, index, selected, user, item);
      Carries(cfg, db, db2) && OnlyTouches(db, db2, selected) && SameLedger(db, db2) && db2.halts == db.halts
      && (forall k :: k in db.orders ==> db2.orders[k].brokerId == db.orders[k].brokerId)
  {
    hide Sound, PaperRules, Bounded, FilledIsComplete, MapStatus;
    var found := Find(index, selected, user, item);
    if found.Some? {
      RewriteKeeps(cfg, db, found.value, Judged(db.orders[found.value], item));
    }
  }

  lemma {:induction false} JudgeKeeps(
      cfg: Settings, db: Db, index: Index, selected: set<OrderKey>, user: string, items: seq<Item>)
    requires Good(db) && AllLive(db, selected) && Into(index, selected)
    ensures var db2 := Judge(db, index, selected, user, items);
      Carries(cfg, db, db2) && OnlyTouches(db, db2, selected) && SameLedger(db, db2) && db2.halts == db.halts
      && (forall k :: k in db.orders ==> db2.orders[k].brokerId == db.orders[k].brokerId)
  {
    hide Sound, PaperRules, Bounded, FilledIsComplete, JudgeOne, Into;
    if items != [] {
      var db1 := Judge(db, index, selected, user, items[..|items| - 1]);
      JudgeKeeps(cfg, db, index, selected, user, items[..|items| - 1]);
      JudgeOneKeeps(cfg, db1, index, selected, user, items[|items| - 1]);
    }
  }

  /** For any books whatever: a pass keeps every invariant, and touches only live orders that were open. */
  lemma PassKeeps(cfg: Settings, db: Db, user: string, keys: seq<OrderKey>, items: seq<Item>, trades: seq<Trade>)
    requires Good(db) && Lists(keys, SelectedLive(db, user))
    ensures var db2 := Pass(db, user, keys, items, trades);
      Carries(cfg, db, db2) && OnlyTouches(db, db2, SelectedLive(db, user)) && db2.halts == db.halts
  {
    hide Sound, PaperRules, Bounded, FilledIsComplete, Learn, Import, Judge, Into, InitialIndex;
    var selected := SelectedLive(db, user);
    InitialInto(db, keys, selected);
    LearnKeeps(cfg, Learned(db, InitialIndex(db, keys)), selected, user, items);
    var l := LearnPass(db, user, keys, items);
    ImportKeeps(cfg, l.db, l.index, selected, trades);
    JudgeKeeps(cfg, Import(l.db, l.index, trades), l.index, selected, user, items);
  }

  /** The part of the state that money depends on. */
  ghost predicate SameLedger(a: Db, b: Db) {
    && a.executions == b.executions && a.positions == b.positions && a.orders.Keys == b.orders.Keys
    && (forall k :: k in a.orders ==>
          a.orders[k].filled == b.orders[k].filled && a.orders[k].averageFill == b.orders[k].averageFill
          && a.orders[k].quantity == b.orders[k].quantity)
  }
}
