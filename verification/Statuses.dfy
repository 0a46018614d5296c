/** When order statuses settle under repeated reconciliation: exactly when the second pass keeps a status, and that nothing at
    all changes after it. */
module Statuses {
  import opened Ledger
  import opened Options
  import opened Paper
  import opened Live
  import opened Reconcile
  import opened ReconcileTwice

  // ---------------------------------------------------------------- what a pass does to one row

  /** An order-book item carries the order's correlation id. */
  predicate Named(client: string, items: seq<Item>) {
    exists item :: item in items && item.correlation == client
  }

  /** A trade under the order's broker id that is not in the ledger. */
  ghost predicate Unbooked(db: Db, k: OrderKey, trades: seq<Trade>)
    requires k in db.orders
  {
    HasBroker(db.orders[k])
    && exists t :: t in trades && t.orderId == db.orders[k].brokerId.value && t.executionId != ""
         && !Imported(db.executions, k.user, Some(Exchange(t.executionId)))
  }

  function Doubted(o: Order, doubt: bool): Order {
    if doubt then o.(status := Unknown, reason := Some("RECONCILIATION_INVALID_EXECUTION_QUANTITY")) else o
  }

  /** The items that carry the order's correlation id, applied in turn. */
  function JudgedAll(o: Order, client: string, items: seq<Item>): Order {
    if items == [] then o
    else
      var last, o1 := items[|items| - 1], JudgedAll(o, client, items[..|items| - 1]);
      if last.correlation == client then Judged(o1, last) else o1
  }

  /** With one correlation per broker id, an item names the selected order with its correlation id, and no other. */
  lemma FoundByCorrelation(db: Db, user: string, index: Index, selected: set<OrderKey>, all: seq<Item>, item: Item)
    requires Exact(db, index, selected) && OneCorrelation(db, user, all) && item in all
    requires forall k :: k in selected ==> IsLive(db, user, k)
    ensures Find(index, selected, user, item)
         == if OrderKey(user, item.correlation) in selected then Some(OrderKey(user, item.correlation)) else None
  {
    if item.orderId in index {
      assert IsLive(db, user, index[item.orderId]);
    }
  }

  lemma {:induction false} JudgeRows(
      named: Db, db: Db, user: string, index: Index, selected: set<OrderKey>, all: seq<Item>, items: seq<Item>, k: OrderKey)
    requires Exact(named, index, selected) && OneCorrelation(named, user, all)
    requires forall k2 :: k2 in selected ==> IsLive(named, user, k2)
    requires forall item :: item in items ==> item in all
    requires k in db.orders
    ensures var db2 := Judge(db, index, selected, user, items);
      && k in db2.orders && db2.executions == db.executions && db2.positions == db.positions && db2.halts == db.halts
      && db2.orders[k] == if k in selected then JudgedAll(db.orders[k], k.client, items) else db.orders[k]
  {
    hide Exact, OneCorrelation, Judged, Find;
    if items != [] {
      var init, last := items[..|items| - 1], items[|items| - 1];
      assert items == init + [last];
      JudgeRows(named, db, user, index, selected, all, init, k);
      FoundByCorrelation(named, user, index, selected, all, last);
    }
  }

  // ---------------------------------------------------------------- trades that are all booked or refused

  ghost predicate UnbookedUnder(db: Db, index: Index, k: OrderKey, trades: seq<Trade>) {
    exists t :: t in trades && t.orderId in index && index[t.orderId] == k && t.executionId != ""
      && !Imported(db.executions, k.user, Some(Exchange(t.executionId)))
  }

  /** One trade in a settled ledger: nothing, or the doubt on its order. */
  lemma ImportOneRow(db: Db, cur: Db, index: Index, t: Trade)
    requires SameLedger(db, cur) && (t.orderId in index ==> Settled(db, index[t.orderId], t))
    requires t.orderId in index ==> index[t.orderId] in db.orders && db.orders[index[t.orderId]].filled >= 0
    ensures var db2 := ImportOne(cur, index, t);
      && SameLedger(db, db2) && db2.halts == cur.halts
      && forall k :: k in db.orders ==>
           db2.orders[k] == Doubted(cur.orders[k], UnbookedUnder(db, index, k, [t]))
  {
    hide PositionAfter, FillOrder;
    assert t in [t];
  }

  lemma OneMore(db: Db, index: Index, k: OrderKey, trades: seq<Trade>)
    requires trades != []
    ensures UnbookedUnder(db, index, k, trades)
      <==> UnbookedUnder(db, index, k, trades[..|trades| - 1]) || UnbookedUnder(db, index, k, [trades[|trades| - 1]])
  {
    var init, last := trades[..|trades| - 1], trades[|trades| - 1];
    assert trades == init + [last] && last in [last];
    hide Imported;
  }

  lemma {:induction false} ImportRows(db: Db, index: Index, trades: seq<Trade>, k: OrderKey)
    requires k in db.orders
    requires forall t :: t in trades && t.orderId in index ==>
      Settled(db, index[t.orderId], t) && index[t.orderId] in db.orders && db.orders[index[t.orderId]].filled >= 0
    ensures var db2 := Import(db, index, trades);
      && SameLedger(db, db2) && db2.halts == db.halts
      && db2.orders[k] == Doubted(db.orders[k], UnbookedUnder(db, index, k, trades))
  {
    hide Settled, ImportOne, UnbookedUnder;
    if trades == [] {
      NothingUnbooked(db, index, k);
    } else {
      var init, last := trades[..|trades| - 1], trades[|trades| - 1];
      assert trades == init + [last] && last in trades;
      ImportRows(db, index, init, k);
      ImportOneRow(db, Import(db, index, init), index, last);
      OneMore(db, index, k, trades);
    }
  }

  lemma NothingUnbooked(db: Db, index: Index, k: OrderKey)
    ensures !UnbookedUnder(db, index, k, [])
  {
  }

  // ---------------------------------------------------------------- a pass over settled books, row by row

  lemma UnbookedAgrees(db: Db, index: Index, selected: set<OrderKey>, k: OrderKey, trades: seq<Trade>)
    requires Exact(db, index, selected) && k in db.orders
    ensures UnbookedUnder(db, index, k, trades) <==> k in selected && Unbooked(db, k, trades)
  {
    hide Imported;
    if UnbookedUnder(db, index, k, trades) {
      var t :| t in trades && t.orderId in index && index[t.orderId] == k && t.executionId != ""
        && !Imported(db.executions, k.user, Some(Exchange(t.executionId)));
      assert db.orders[k].brokerId == Some(t.orderId);
    }
  }

  lemma AllNonNegative(db: Db)
    requires Good(db)
    ensures forall k :: k in db.orders ==> db.orders[k].filled >= 0
  {
  }

  lemma SelectedIsLive(db: Db, user: string)
    ensures forall k :: k in SelectedLive(db, user) ==> IsLive(db, user, k)
  {
  }

  /** A pass over settled books rewrites the rows of the selected orders by this function of the row and the books, and
      nothing else. */
  lemma PassRow(db: Db, user: string, keys: seq<OrderKey>, items: seq<Item>, trades: seq<Trade>, k: OrderKey)
    requires Ready(db, user, keys, items, trades) && OneCorrelation(db, user, items) && k in db.orders
    ensures var db2 := Pass(db, user, keys, items, trades);
      && db2.executions == db.executions && db2.positions == db.positions && db2.halts == db.halts
      && db2.orders.Keys == db.orders.Keys
      && db2.orders[k] == if k in SelectedLive(db, user)
                          then JudgedAll(Doubted(db.orders[k], Unbooked(db, k, trades)), k.client, items) else db.orders[k]
  {
    AllNonNegative(db);
    SelectedIsLive(db, user);
    var selected, index := SelectedLive(db, user), InitialIndex(db, keys);
    hide Good, Learn, Import, Judge, Settled, InitialIndex, OneCorrelation, Unbooked, UnbookedUnder, SelectedLive, IsLive;
    ImportRows(db, index, trades, k);
    UnbookedAgrees(db, index, selected, k, trades);
    hide Exact;
    JudgeRows(db, Import(db, index, trades), user, index, selected, items, items, k);
    JudgeSameKeys(Import(db, index, trades), index, selected, user, items);
  }

  lemma {:induction false} JudgeSameKeys(db: Db, index: Index, selected: set<OrderKey>, user: string, items: seq<Item>)
    ensures Judge(db, index, selected, user, items).orders.Keys == db.orders.Keys
  {
    hide Find, Judged;
    if items != [] {
      JudgeSameKeys(db, index, selected, user, items[..|items| - 1]);
    }
  }

  // ---------------------------------------------------------------- the items applied twice

  predicate SameBut(a: Order, b: Order) {
    b == a.(status := b.status, reason := b.reason, completed := b.completed)
  }

  /** Applied to two rows that differ in status, reason and completion only, the items leave a difference only where they
      write nothing. */
  lemma {:induction false} JudgedAlike(x: Order, y: Order, client: string, items: seq<Item>)
    requires SameBut(x, y)
    ensures var a, b := JudgedAll(x, client, items), JudgedAll(y, client, items);
      && SameBut(x, a) && SameBut(a, b)
      && (if Named(client, items) then a.status == b.status else a == x && b == y)
      && (a.reason == b.reason || (a.reason == x.reason && b.reason == y.reason))
      && (x.completed ==> a.completed) && (y.completed ==> b.completed)
      && (a.completed ==> x.completed || b.completed) && (b.completed ==> y.completed || a.completed)
  {
    if items != [] {
      var init, last := items[..|items| - 1], items[|items| - 1];
      assert items == init + [last];
      assert last in items;
      JudgedAlike(x, y, client, init);
      hide MapStatus;
    }
  }

  lemma DoubtedTwice(o: Order, doubt: bool, client: string, items: seq<Item>)
    ensures var a := JudgedAll(Doubted(o, doubt), client, items);
      JudgedAll(Doubted(a, doubt), client, items) == a
  {
    hide JudgedAll, Named;
    var x := Doubted(o, doubt);
    JudgedAlike(x, x, client, items);
    JudgedAlike(x, Doubted(JudgedAll(x, client, items), doubt), client, items);
  }

  // ---------------------------------------------------------------- main results

  lemma FirstRow(
      cfg: Settings, db: Db, user: string, keys: seq<OrderKey>, items: seq<Item>, trades: seq<Trade>, k: OrderKey)
    returns (x: Order)
    requires Good(db) && Lists(keys, SelectedLive(db, user))
    requires Distinct(db, user) && OneCorrelation(db, user, items)
    requires k in SelectedLive(db, user)
    ensures k in Pass(db, user, keys, items, trades).orders
    ensures Pass(db, user, keys, items, trades).orders[k] == JudgedAll(x, k.client, items)
  {
    SelectedIsLive(db, user);
    hide Good, Distinct, OneCorrelation, Exact, Learn, Import, Judge, InitialIndex, SelectedLive, ReconcileTwice.Placed, JudgedAll;
    LearnPassSo(cfg, db, user, keys, items);
    var l, selected := LearnPass(db, user, keys, items), SelectedLive(db, user);
    ImportKeeps(cfg, l.db, l.index, selected, trades);
    JudgeRows(l.db, Import(l.db, l.index, trades), user, l.index, selected, items, items, k);
    x := Import(l.db, l.index, trades).orders[k];
  }

  /** Main result: an order that is still open after the first pass keeps its status in the second exactly when the order book
      names it, or it is UNKNOWN already, or every trade under its broker id is in the ledger. */
  lemma StatusStaysExactly(
      cfg: Settings, db: Db, user: string, keys: seq<OrderKey>, keys2: seq<OrderKey>, items: seq<Item>, trades: seq<Trade>,
      k: OrderKey)
    requires Good(db) && Lists(keys, SelectedLive(db, user))
    requires Distinct(db, user) && OneCorrelation(db, user, items)
    requires Lists(keys2, SelectedLive(Pass(db, user, keys, items, trades), user))
    requires k in SelectedLive(Pass(db, user, keys, items, trades), user)
    ensures var once := Pass(db, user, keys, items, trades);
      var twice := Pass(once, user, keys2, items, trades);
      k in once.orders && k in twice.orders
      && (twice.orders[k].status == once.orders[k].status
          <==> Named(k.client, items) || once.orders[k].status == Unknown || !Unbooked(once, k, trades))
  {
    var once := Pass(db, user, keys, items, trades);
    StillSelected(cfg, db, user, keys, items, trades, k);
    hide Good, Distinct, OneCorrelation, Pass, Unbooked, JudgedAll, Named, Ready;
    ReadyAfterOne(cfg, db, user, keys, keys2, items, trades);
    BooksStay(cfg, db, user, keys, items, trades);
    var x := FirstRow(cfg, db, user, keys, items, trades, k);
    PassRow(once, user, keys2, items, trades, k);
    JudgedAlike(x, x, k.client, items);
    JudgedAlike(x, Doubted(once.orders[k], Unbooked(once, k, trades)), k.client, items);
  }

  lemma StillSelected(
      cfg: Settings, db: Db, user: string, keys: seq<OrderKey>, items: seq<Item>, trades: seq<Trade>, k: OrderKey)
    requires Good(db) && Lists(keys, SelectedLive(db, user))
    requires k in SelectedLive(Pass(db, user, keys, items, trades), user)
    ensures k in SelectedLive(db, user)
  {
    hide Good, Pass;
    PassKeeps(cfg, db, user, keys, items, trades);
  }

  /** Main result: the second pass reaches a fixed point. A third over the same books changes no row at all. */
  lemma ThirdPassChangesNothing(
      cfg: Settings, db: Db, user: string, keys: seq<OrderKey>, keys2: seq<OrderKey>, keys3: seq<OrderKey>,
      items: seq<Item>, trades: seq<Trade>)
    requires Good(db) && Lists(keys, SelectedLive(db, user))
    requires Distinct(db, user) && OneCorrelation(db, user, items)
    requires Lists(keys2, SelectedLive(Pass(db, user, keys, items, trades), user))
    requires Lists(keys3, SelectedLive(Pass(Pass(db, user, keys, items, trades), user, keys2, items, trades), user))
    ensures var twice := Pass(Pass(db, user, keys, items, trades), user, keys2, items, trades);
      Pass(twice, user, keys3, items, trades) == twice
  {
    hide Good, Distinct, OneCorrelation, Pass, Unbooked, JudgedAll, Ready, Doubted, SelectedLive;
    var once := Pass(db, user, keys, items, trades);
    var twice := Pass(once, user, keys2, items, trades);
    var thrice := Pass(twice, user, keys3, items, trades);
    ReadyAfterOne(cfg, db, user, keys, keys2, items, trades);
    BooksStay(cfg, db, user, keys, items, trades);
    ReadyAfterOne(cfg, once, user, keys2, keys3, items, trades);
    BooksStay(cfg, once, user, keys2, items, trades);
    ReadyKeepsLedger(cfg, once, user, keys2, items, trades);
    ReadyKeepsLedger(cfg, twice, user, keys3, items, trades);
    HaltsStay(cfg, twice, user, keys3, items, trades);
    forall k | k in twice.orders
      ensures thrice.orders[k] == twice.orders[k]
    {
      SameRow(cfg, once, twice, user, keys2, keys3, items, trades, k);
    }
    SameTables(twice, thrice);
  }

  lemma SameTables(a: Db, b: Db)
    requires SameLedger(a, b) && a.halts == b.halts && forall k :: k in a.orders ==> b.orders[k] == a.orders[k]
    ensures a == b
  {
    assert a.orders == b.orders;
  }

  lemma HaltsStay(cfg: Settings, db: Db, user: string, keys: seq<OrderKey>, items: seq<Item>, trades: seq<Trade>)
    requires Ready(db, user, keys, items, trades)
    ensures Pass(db, user, keys, items, trades).halts == db.halts
  {
    hide Good, Pass, Learn, Exact, Settled, InitialIndex;
    PassKeeps(cfg, db, user, keys, items, trades);
  }

  /** The third pass writes into a row what the second wrote. */
  lemma SameRow(cfg: Settings, once: Db, twice: Db, user: string, keys2: seq<OrderKey>, keys3: seq<OrderKey>,
                items: seq<Item>, trades: seq<Trade>, k: OrderKey)
    requires Ready(once, user, keys2, items, trades) && OneCorrelation(once, user, items)
    requires twice == Pass(once, user, keys2, items, trades)
    requires Ready(twice, user, keys3, items, trades) && OneCorrelation(twice, user, items)
    requires k in twice.orders && SameLedger(once, twice)
    ensures var thrice := Pass(twice, user, keys3, items, trades);
      k in thrice.orders && thrice.orders[k] == twice.orders[k]
  {
    Selections(cfg, once, user, keys2, items, trades, k);
    hide Good, OneCorrelation, Pass, JudgedAll, Ready, Doubted, SelectedLive, Imported;
    PassRow(once, user, keys2, items, trades, k);
    PassRow(twice, user, keys3, items, trades, k);
    if k in SelectedLive(twice, user) {
      var doubt := Unbooked(once, k, trades);
      SameBroker(once.orders[k], doubt, k.client, items);
      assert Unbooked(twice, k, trades) == doubt;
      DoubtedTwice(once.orders[k], doubt, k.client, items);
    }
  }

  lemma SameBroker(o: Order, doubt: bool, client: string, items: seq<Item>)
    ensures JudgedAll(Doubted(o, doubt), client, items).brokerId == o.brokerId
  {
    hide JudgedAll, Named;
    JudgedAlike(o, o, client, items);
    JudgedAlike(Doubted(o, doubt), Doubted(o, doubt), client, items);
  }

  lemma Selections(cfg: Settings, once: Db, user: string, keys2: seq<OrderKey>, items: seq<Item>, trades: seq<Trade>, k: OrderKey)
    requires Ready(once, user, keys2, items, trades)
    ensures k in SelectedLive(Pass(once, user, keys2, items, trades), user) ==> k in SelectedLive(once, user)
  {
    hide Good, Pass, Learn, Exact, Settled, InitialIndex;
    PassKeeps(cfg, once, user, keys2, items, trades);
  }

  /** Nor does any number of passes after the second. */
  lemma {:induction false} LaterPassesChangeNothing(
      cfg: Settings, db: Db, user: string, keys: seq<OrderKey>, keys2: seq<OrderKey>, rows: seq<seq<OrderKey>>,
      items: seq<Item>, trades: seq<Trade>)
    requires Good(db) && Lists(keys, SelectedLive(db, user))
    requires Distinct(db, user) && OneCorrelation(db, user, items)
    requires Lists(keys2, SelectedLive(Pass(db, user, keys, items, trades), user))
    requires AllList(Pass(Pass(db, user, keys, items, trades), user, keys2, items, trades), user, rows, items, trades)
    ensures var twice := Pass(Pass(db, user, keys, items, trades), user, keys2, items, trades);
      Passes(twice, user, rows, items, trades) == twice
    decreases |rows|
  {
    hide Good, Distinct, OneCorrelation, Pass, SelectedLive, Lists;
    if rows != [] {
      ThirdPassChangesNothing(cfg, db, user, keys, keys2, rows[0], items, trades);
      LaterPassesChangeNothing(cfg, db, user, keys, keys2, rows[1..], items, trades);
    }
  }
}
