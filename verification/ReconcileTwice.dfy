/** Reconciling the same books again changes no fill, no position and no execution. */
module ReconcileTwice {
  import opened Ledger
  import opened Options
  import opened Paper
  import opened Live
  import opened Reconcile

  // ---------------------------------------------------------------- assumptions on the broker's books

  /** No two live orders of the user carry the same broker id. */
  ghost predicate Distinct(db: Db, user: string) {
    forall k, k2 :: IsLive(db, user, k) && IsLive(db, user, k2) && HasBroker(db.orders[k]) ==>
      (db.orders[k].brokerId == db.orders[k2].brokerId ==> k == k2)
  }

  predicate IsLive(db: Db, user: string, k: OrderKey) {
    k in db.orders && k.user == user && db.orders[k].mode == Mode.Live
  }

  /** Each broker order id that is not missing carries one correlation id, also where an order already has that id. */
  ghost predicate OneCorrelation(db: Db, user: string, items: seq<Item>) {
    && (forall item, item2 :: item in items && item2 in items && item.orderId == item2.orderId && item.orderId != "" ==>
          item.correlation == item2.correlation)
    && (forall k, item :: IsLive(db, user, k) && item in items && HasBroker(db.orders[k]) ==>
          (db.orders[k].brokerId.value == item.orderId ==> item.correlation == k.client))
  }

  // ---------------------------------------------------------------- the index after learning

  /** The index holds exactly the broker ids of the selected rows. */
  ghost predicate Exact(db: Db, index: Index, selected: set<OrderKey>) {
    && (forall x :: x in index ==>
          index[x] in selected && index[x] in db.orders && x != "" && db.orders[index[x]].brokerId == Some(x))
    && (forall k :: k in selected && k in db.orders && HasBroker(db.orders[k]) ==>
          db.orders[k].brokerId.value in index && index[db.orders[k].brokerId.value] == k)
  }

  /** Rows agree except that some had no broker id before and have one now. */
  ghost predicate OnlyNamed(db: Db, db2: Db) {
    && db2.orders.Keys == db.orders.Keys && db2.executions == db.executions && db2.positions == db.positions
    && (forall k :: k in db.orders ==>
          && db2.orders[k] == db.orders[k].(brokerId := db2.orders[k].brokerId)
          && (HasBroker(db.orders[k]) ==> db2.orders[k].brokerId == db.orders[k].brokerId))
  }

  lemma {:induction false} InitialExact(db: Db, user: string, keys: seq<OrderKey>, selected: set<OrderKey>)
    requires Distinct(db, user)
    requires forall k :: k in keys ==> k in selected
    requires forall k :: k in selected ==> IsLive(db, user, k)
    ensures var index := InitialIndex(db, keys);
      (forall x :: x in index ==>
          index[x] in selected && index[x] in db.orders && x != "" && db.orders[index[x]].brokerId == Some(x))
      && (forall k :: k in keys && HasBroker(db.orders[k]) ==>
          db.orders[k].brokerId.value in index && index[db.orders[k].brokerId.value] == k)
  {
    if keys != [] {
      var init, last := keys[..|keys| - 1], keys[|keys| - 1];
      assert keys == init + [last];
      assert last in keys;
      InitialExact(db, user, init, selected);
      var index := InitialIndex(db, keys);
      forall k | k in keys && HasBroker(db.orders[k])
        ensures db.orders[k].brokerId.value in index && index[db.orders[k].brokerId.value] == k
      {
        assert IsLive(db, user, k) && IsLive(db, user, last);
      }
    }
  }

  /** What the learning loop has established after `items`. */
  ghost predicate LearnedSo(db: Db, user: string, selected: set<OrderKey>, all: seq<Item>, l: Learned) {
    && OnlyNamed(db, l.db) && Exact(l.db, l.index, selected)
    && Distinct(l.db, user) && OneCorrelation(l.db, user, all)
  }

  /** An id about to be learned belongs to no live order yet. */
  lemma IdIsFree(db: Db, user: string, selected: set<OrderKey>, all: seq<Item>, l: Learned, item: Item, k2: OrderKey)
    requires LearnedSo(db, user, selected, all, l) && item in all && item.orderId != ""
    requires Find(l.index, selected, user, item) == Some(OrderKey(user, item.correlation)) && item.orderId !in l.index
    requires OrderKey(user, item.correlation) in l.db.orders
    requires !HasBroker(l.db.orders[OrderKey(user, item.correlation)])
    requires IsLive(l.db, user, k2)
    ensures l.db.orders[k2].brokerId != Some(item.orderId)
  {
    if l.db.orders[k2].brokerId == Some(item.orderId) {
      assert HasBroker(l.db.orders[k2]);
    }
  }

  lemma LearnOneSo(db: Db, user: string, selected: set<OrderKey>, all: seq<Item>, l: Learned, item: Item)
    requires LearnedSo(db, user, selected, all, l) && item in all
    requires forall k :: k in selected ==> IsLive(db, user, k)
    ensures LearnedSo(db, user, selected, all, LearnOne(l, selected, user, item))
  {
    var found := Find(l.index, selected, user, item);
    if found.Some? && item.orderId != "" && !HasBroker(l.db.orders[found.value]) {
      var k := found.value;
      assert item.orderId !in l.index && k == OrderKey(user, item.correlation) && IsLive(db, user, k);
      forall k2 | IsLive(l.db, user, k2)
        ensures l.db.orders[k2].brokerId != Some(item.orderId)
      {
        IdIsFree(db, user, selected, all, l, item, k2);
      }
      NamingKeeps(db, user, selected, all, l, item);
    }
  }

  /** Giving a free id to an unnamed live order keeps ids distinct and correlations consistent. */
  lemma NamingKeepsIds(db: Db, user: string, all: seq<Item>, k: OrderKey, item: Item)
    requires Distinct(db, user) && OneCorrelation(db, user, all) && item in all
    requires IsLive(db, user, k) && k.client == item.correlation
    requires forall k2 :: IsLive(db, user, k2) ==> db.orders[k2].brokerId != Some(item.orderId)
    ensures var db2 := PutRow(db, k, db.orders[k].(brokerId := Some(item.orderId)));
      Distinct(db2, user) && OneCorrelation(db2, user, all)
  {
    var db2 := PutRow(db, k, db.orders[k].(brokerId := Some(item.orderId)));
    assert forall k2 :: IsLive(db2, user, k2) <==> IsLive(db, user, k2);
    assert forall k2 :: k2 in db.orders && k2 != k ==> db2.orders[k2] == db.orders[k2];
    hide IsLive;
  }

  lemma NamingKeepsIndex(db: Db, index: Index, selected: set<OrderKey>, k: OrderKey, id: string)
    requires Exact(db, index, selected) && id != "" && id !in index
    requires k in selected && k in db.orders && !HasBroker(db.orders[k])
    ensures Exact(PutRow(db, k, db.orders[k].(brokerId := Some(id))), index[id := k], selected)
  {
  }

  lemma NamingKeeps(db: Db, user: string, selected: set<OrderKey>, all: seq<Item>, l: Learned, item: Item)
    requires LearnedSo(db, user, selected, all, l) && item in all && item.orderId != ""
    requires forall k :: k in selected ==> IsLive(db, user, k)
    requires OrderKey(user, item.correlation) in selected && item.orderId !in l.index
    requires OrderKey(user, item.correlation) in l.db.orders
    requires !HasBroker(l.db.orders[OrderKey(user, item.correlation)])
    requires forall k2 :: IsLive(l.db, user, k2) ==> l.db.orders[k2].brokerId != Some(item.orderId)
    ensures LearnedSo(db, user, selected, all, LearnOne(l, selected, user, item))
  {
    hide Distinct, OneCorrelation, Exact;
    var k := OrderKey(user, item.correlation);
    NamingKeepsIds(l.db, user, all, k, item);
    NamingKeepsIndex(l.db, l.index, selected, k, item.orderId);
  }

  lemma {:induction false} LearnSo(db: Db, user: string, selected: set<OrderKey>, all: seq<Item>, items: seq<Item>, l: Learned)
    requires LearnedSo(db, user, selected, all, l)
    requires forall item :: item in items ==> item in all
    requires forall k :: k in selected ==> IsLive(db, user, k)
    ensures LearnedSo(db, user, selected, all, Learn(l, selected, user, items))
    ensures OnlyNamed(l.db, Learn(l, selected, user, items).db)
    ensures forall item :: item in items ==> Placed(Learn(l, selected, user, items), selected, user, item)
  {
    hide LearnedSo, LearnOne;
    if items != [] {
      var init, last := items[..|items| - 1], items[|items| - 1];
      assert items == init + [last];
      assert last in items;
      LearnSo(db, user, selected, all, init, l);
      var l1 := Learn(l, selected, user, init);
      LearnOneSo(db, user, selected, all, l1, last);
      OneStepPlaces(db, user, selected, all, l1, last);
      var l2 := LearnOne(l1, selected, user, last);
      forall item | item in items
        ensures Placed(l2, selected, user, item)
      {
        if item in init {
          StaysPlaced(l1, selected, user, last, item);
        }
      }
    }
  }

  /** After its turn, an item's id is in the index, or its order is not selected or already has an id. */
  ghost predicate Placed(l: Learned, selected: set<OrderKey>, user: string, item: Item) {
    item.orderId == "" || item.orderId in l.index
    || OrderKey(user, item.correlation) !in selected
    || (OrderKey(user, item.correlation) in l.db.orders && HasBroker(l.db.orders[OrderKey(user, item.correlation)]))
  }

  lemma OneStepPlaces(db: Db, user: string, selected: set<OrderKey>, all: seq<Item>, l: Learned, item: Item)
    requires LearnedSo(db, user, selected, all, l)
    requires forall k :: k in selected ==> IsLive(db, user, k)
    ensures Placed(LearnOne(l, selected, user, item), selected, user, item)
    ensures OnlyNamed(l.db, LearnOne(l, selected, user, item).db)
  {
  }

  lemma StaysPlaced(l: Learned, selected: set<OrderKey>, user: string, next: Item, item: Item)
    requires Placed(l, selected, user, item)
    ensures Placed(LearnOne(l, selected, user, next), selected, user, item)
  {
  }

  // ---------------------------------------------------------------- trades settle

  /** Importing this trade into order `k` again can only repeat or refuse it. */
  ghost predicate Settled(db: Db, k: OrderKey, t: Trade) {
    t.executionId == "" || Imported(db.executions, k.user, Some(Exchange(t.executionId)))
    || (k in db.orders && !Accepts(db.orders[k], t.quantity))
  }

  /** Executions and fills only grow, quantities stay. */
  ghost predicate Grows(a: Db, b: Db) {
    && a.orders.Keys == b.orders.Keys && (forall e :: e in a.executions ==> e in b.executions)
    && (forall k :: k in a.orders ==>
          a.orders[k].filled <= b.orders[k].filled && a.orders[k].quantity == b.orders[k].quantity)
  }

  lemma SettledGrows(a: Db, b: Db, k: OrderKey, t: Trade)
    requires Settled(a, k, t) && Grows(a, b)
    ensures Settled(b, k, t)
  {
    if Imported(a.executions, k.user, Some(Exchange(t.executionId))) {
      var e :| e in a.executions && e.order.user == k.user && e.id == Some(Exchange(t.executionId));
      assert e in b.executions;
    }
  }

  lemma ImportOneSettles(db: Db, index: Index, t: Trade)
    requires t.orderId in index ==> index[t.orderId] in db.orders && db.orders[index[t.orderId]].filled >= 0
    ensures Grows(db, ImportOne(db, index, t))
    ensures t.orderId in index ==> Settled(ImportOne(db, index, t), index[t.orderId], t)
  {
    hide PositionAfter;
    var db2 := ImportOne(db, index, t);
    if t.orderId in index && t.executionId != "" {
      var k := index[t.orderId];
      var id := Some(Exchange(t.executionId));
      if !Imported(db.executions, k.user, id) && Accepts(db.orders[k], t.quantity) {
        assert db2.executions[|db.executions|] in db2.executions;
      }
    }
  }

  lemma {:induction false} ImportSettles(cfg: Settings, db: Db, index: Index, selected: set<OrderKey>, trades: seq<Trade>)
    requires Good(db) && AllLive(db, selected) && Into(index, selected)
    ensures Grows(db, Import(db, index, trades))
    ensures forall t :: t in trades && t.orderId in index ==> Settled(Import(db, index, trades), index[t.orderId], t)
  {
    hide Good, ImportOne, Settled;
    if trades != [] {
      var init, last := trades[..|trades| - 1], trades[|trades| - 1];
      assert trades == init + [last];
      ImportSettles(cfg, db, index, selected, init);
      ImportKeeps(cfg, db, index, selected, init);
      var db1 := Import(db, index, init);
      if last.orderId in index {
        NotNegative(db1, index[last.orderId]);
      }
      ImportOneSettles(db1, index, last);
      forall t | t in trades && t.orderId in index
        ensures Settled(ImportOne(db1, index, last), index[t.orderId], t)
      {
        if t in init {
          SettledGrows(db1, ImportOne(db1, index, last), index[t.orderId], t);
        }
      }
    }
  }

  lemma SettledAgain(a: Db, db: Db, index: Index, t: Trade)
    requires SameLedger(a, db) && (t.orderId in index ==> Settled(a, index[t.orderId], t))
    ensures SameLedger(a, ImportOne(db, index, t))
  {
    hide PositionAfter, FillOrder;
  }

  lemma {:induction false} SettledImport(a: Db, db: Db, index: Index, trades: seq<Trade>)
    requires SameLedger(a, db)
    requires forall t :: t in trades && t.orderId in index ==> Settled(a, index[t.orderId], t)
    ensures SameLedger(a, Import(db, index, trades))
  {
    hide ImportOne, Settled, SameLedger;
    if trades != [] {
      assert trades == trades[..|trades| - 1] + [trades[|trades| - 1]];
      SettledImport(a, db, index, trades[..|trades| - 1]);
      SettledAgain(a, Import(db, index, trades[..|trades| - 1]), index, trades[|trades| - 1]);
    }
  }

  // ---------------------------------------------------------------- the second pass

  lemma LearnPassSo(cfg: Settings, db: Db, user: string, keys: seq<OrderKey>, items: seq<Item>)
    requires Good(db) && Lists(keys, SelectedLive(db, user))
    requires Distinct(db, user) && OneCorrelation(db, user, items)
    ensures var l, selected := LearnPass(db, user, keys, items), SelectedLive(db, user);
      && LearnedSo(db, user, selected, items, l)
      && (forall item :: item in items ==> Placed(l, selected, user, item))
      && Good(l.db) && Into(l.index, selected) && AllLive(l.db, selected)
  {
    hide Good, Learn, Distinct, OneCorrelation, Placed, OnlyNamed;
    var selected := SelectedLive(db, user);
    InitialExact(db, user, keys, selected);
    assert Exact(db, InitialIndex(db, keys), selected);
    hide Exact;
    assert OnlyNamed(db, db) by { SameNames(db); }
    LearnSo(db, user, selected, items, items, Learned(db, InitialIndex(db, keys)));
    hide LearnedSo;
    InitialInto(db, keys, selected);
    LearnKeeps(cfg, Learned(db, InitialIndex(db, keys)), selected, user, items);
  }

  lemma SameNames(db: Db)
    ensures OnlyNamed(db, db)
  {
  }

  lemma PassSettles(cfg: Settings, l: Learned, selected: set<OrderKey>, user: string, items: seq<Item>, trades: seq<Trade>)
    requires Good(l.db) && Into(l.index, selected) && AllLive(l.db, selected)
    ensures var db2 := Judge(Import(l.db, l.index, trades), l.index, selected, user, items);
      && (forall t :: t in trades && t.orderId in l.index ==> Settled(db2, l.index[t.orderId], t))
      && db2.orders.Keys == l.db.orders.Keys
      && (forall k :: k in l.db.orders ==> db2.orders[k].brokerId == l.db.orders[k].brokerId)
  {
    hide Good, Import, Judge, Settled, Into;
    ImportKeeps(cfg, l.db, l.index, selected, trades);
    ImportSettles(cfg, l.db, l.index, selected, trades);
    var mid := Import(l.db, l.index, trades);
    JudgeKeeps(cfg, mid, l.index, selected, user, items);
    var db2 := Judge(mid, l.index, selected, user, items);
    assert Grows(mid, db2);
    forall t | t in trades && t.orderId in l.index
      ensures Settled(db2, l.index[t.orderId], t)
    {
      SettledGrows(mid, db2, l.index[t.orderId], t);
    }
  }

  /** Everything the first pass leaves for the second. */
  lemma FirstPass(cfg: Settings, db: Db, user: string, keys: seq<OrderKey>, items: seq<Item>, trades: seq<Trade>)
    returns (l: Learned, db2: Db)
    requires Good(db) && Lists(keys, SelectedLive(db, user))
    requires Distinct(db, user) && OneCorrelation(db, user, items)
    ensures l == LearnPass(db, user, keys, items) && db2 == Pass(db, user, keys, items, trades)
    ensures Good(db2) && OnlyTouches(db, db2, SelectedLive(db, user))
    ensures LearnedSo(db, user, SelectedLive(db, user), items, l)
    ensures forall item :: item in items ==> Placed(l, SelectedLive(db, user), user, item)
    ensures forall t :: t in trades && t.orderId in l.index ==> Settled(db2, l.index[t.orderId], t)
    ensures db2.orders.Keys == l.db.orders.Keys
      && forall k :: k in l.db.orders ==> db2.orders[k].brokerId == l.db.orders[k].brokerId
  {
    hide Good, LearnPass, Import, Judge, Settled, Distinct, OneCorrelation, Placed, LearnedSo, OnlyTouches, SelectedLive,
      Into, AllLive;
    l := LearnPass(db, user, keys, items);
    db2 := Pass(db, user, keys, items, trades);
    LearnPassSo(cfg, db, user, keys, items);
    PassSettles(cfg, l, SelectedLive(db, user), user, items, trades);
    PassKeeps(cfg, db, user, keys, items, trades);
  }

  /** A pass over consistent books leaves them consistent. */
  lemma BooksStay(cfg: Settings, db: Db, user: string, keys: seq<OrderKey>, items: seq<Item>, trades: seq<Trade>)
    requires Good(db) && Lists(keys, SelectedLive(db, user))
    requires Distinct(db, user) && OneCorrelation(db, user, items)
    ensures var db2 := Pass(db, user, keys, items, trades);
      Good(db2) && Distinct(db2, user) && OneCorrelation(db2, user, items)
  {
    hide Good, Pass, LearnPass, Placed, Settled;
    var l, db2 := FirstPass(cfg, db, user, keys, items, trades);
    assert forall k :: IsLive(db2, user, k) <==> IsLive(l.db, user, k);
  }

  /** After the first pass every selected order that the order book names has its broker id. */
  lemma NamedBySecond(db: Db, user: string, selected: set<OrderKey>, all: seq<Item>, l: Learned, item: Item)
    requires LearnedSo(db, user, selected, all, l) && item in all && item.orderId != ""
    requires Placed(l, selected, user, item)
    requires forall k :: k in selected ==> IsLive(db, user, k)
    ensures OrderKey(user, item.correlation) in selected ==>
      OrderKey(user, item.correlation) in l.db.orders && HasBroker(l.db.orders[OrderKey(user, item.correlation)])
  {
    if item.orderId in l.index {
      var k2 := l.index[item.orderId];
      assert IsLive(db, user, k2);
      assert IsLive(l.db, user, k2);
      assert item.correlation == k2.client;
    }
  }

  /** In the second pass nothing is learned. */
  lemma {:induction false} NothingToLearn(
      l: Learned, db2: Db, user: string, items: seq<Item>, selected2: set<OrderKey>, index2: Index)
    requires forall item :: item in items && item.orderId != "" && OrderKey(user, item.correlation) in selected2 ==>
      OrderKey(user, item.correlation) in db2.orders && HasBroker(db2.orders[OrderKey(user, item.correlation)])
    requires Exact(db2, index2, selected2)
    ensures Learn(Learned(db2, index2), selected2, user, items) == Learned(db2, index2)
  {
    if items != [] {
      assert items == items[..|items| - 1] + [items[|items| - 1]];
      NothingToLearn(l, db2, user, items[..|items| - 1], selected2, index2);
    }
  }

  /** A pass over these books will learn nothing, and every trade it imports is booked or can only be refused. */
  ghost predicate Ready(db: Db, user: string, keys: seq<OrderKey>, items: seq<Item>, trades: seq<Trade>) {
    var selected, index := SelectedLive(db, user), InitialIndex(db, keys);
    && Good(db) && Lists(keys, selected) && Exact(db, index, selected)
    && Learn(Learned(db, index), selected, user, items) == Learned(db, index)
    && (forall t :: t in trades && t.orderId in index ==> Settled(db, index[t.orderId], t))
  }

  /** What the first pass leaves. */
  lemma ReadyAfterOne(
      cfg: Settings, db: Db, user: string, keys: seq<OrderKey>, keys2: seq<OrderKey>, items: seq<Item>, trades: seq<Trade>)
    requires Good(db) && Lists(keys, SelectedLive(db, user))
    requires Distinct(db, user) && OneCorrelation(db, user, items)
    requires Lists(keys2, SelectedLive(Pass(db, user, keys, items, trades), user))
    ensures Ready(Pass(db, user, keys, items, trades), user, keys2, items, trades)
  {
    hide Good, Learn, Import, Judge, Pass, LearnPass, OneCorrelation, Placed, Settled, InitialIndex, Distinct;
    var l, db2 := FirstPass(cfg, db, user, keys, items, trades);
    var selected, selected2 := SelectedLive(db, user), SelectedLive(db2, user);
    assert selected2 <= selected;
    BooksStay(cfg, db, user, keys, items, trades);
    InitialExact(db2, user, keys2, selected2);
    var index2 := InitialIndex(db2, keys2);
    assert Exact(db2, index2, selected2);
    hide OnlyTouches;
    forall item | item in items && item.orderId != "" && OrderKey(user, item.correlation) in selected2
      ensures OrderKey(user, item.correlation) in db2.orders && HasBroker(db2.orders[OrderKey(user, item.correlation)])
    {
      NamedBySecond(db, user, selected, items, l, item);
    }
    NothingToLearn(l, db2, user, items, selected2, index2);
    forall t | t in trades && t.orderId in index2
      ensures Settled(db2, index2[t.orderId], t)
    {
      var k := index2[t.orderId];
      assert l.db.orders[k].brokerId == Some(t.orderId);
      assert l.index[t.orderId] == k;
    }
  }

  lemma ReadyKeepsLedger(cfg: Settings, db: Db, user: string, keys: seq<OrderKey>, items: seq<Item>, trades: seq<Trade>)
    requires Ready(db, user, keys, items, trades)
    ensures SameLedger(db, Pass(db, user, keys, items, trades))
  {
    hide Good, Learn, Import, Judge, Settled, InitialIndex, Exact;
    var selected, index := SelectedLive(db, user), InitialIndex(db, keys);
    InitialInto(db, keys, selected);
    SettledImport(db, db, index, trades);
    ImportKeeps(cfg, db, index, selected, trades);
    JudgeKeeps(cfg, Import(db, index, trades), index, selected, user, items);
  }

  /** Main result: a second pass over the same books leaves executions, fills and positions as they were. */
  lemma SecondPassChangesNothing(
      cfg: Settings, db: Db, user: string, keys: seq<OrderKey>, keys2: seq<OrderKey>, items: seq<Item>, trades: seq<Trade>)
    requires Good(db) && Lists(keys, SelectedLive(db, user))
    requires Distinct(db, user) && OneCorrelation(db, user, items)
    requires Lists(keys2, SelectedLive(Pass(db, user, keys, items, trades), user))
    ensures var db2 := Pass(db, user, keys, items, trades);
      SameLedger(db2, Pass(db2, user, keys2, items, trades))
  {
    hide *;
    ReadyAfterOne(cfg, db, user, keys, keys2, items, trades);
    ReadyKeepsLedger(cfg, Pass(db, user, keys, items, trades), user, keys2, items, trades);
  }

  /** The pass repeated over the same books, `rows[i]` being the query order of pass `i`. */
  function Passes(db: Db, user: string, rows: seq<seq<OrderKey>>, items: seq<Item>, trades: seq<Trade>): Db
    decreases |rows|
  {
    if rows == [] then db else Passes(Pass(db, user, rows[0], items, trades), user, rows[1..], items, trades)
  }

  ghost predicate AllList(db: Db, user: string, rows: seq<seq<OrderKey>>, items: seq<Item>, trades: seq<Trade>)
    decreases |rows|
  {
    rows != [] ==>
      Lists(rows[0], SelectedLive(db, user)) && AllList(Pass(db, user, rows[0], items, trades), user, rows[1..], items, trades)
  }

  /** Any number of further passes leaves the ledger of the first. */
  lemma {:induction false} PassesChangeNothing(
      cfg: Settings, db: Db, user: string, rows: seq<seq<OrderKey>>, items: seq<Item>, trades: seq<Trade>)
    requires rows != [] && Good(db) && Distinct(db, user) && OneCorrelation(db, user, items)
    requires AllList(db, user, rows, items, trades)
    ensures SameLedger(Pass(db, user, rows[0], items, trades), Passes(db, user, rows, items, trades))
    decreases |rows|
  {
    hide Good, Pass, Distinct, OneCorrelation;
    var db2 := Pass(db, user, rows[0], items, trades);
    BooksStay(cfg, db, user, rows[0], items, trades);
    if |rows| > 1 {
      PassesChangeNothing(cfg, db2, user, rows[1..], items, trades);
      SecondPassChangesNothing(cfg, db, user, rows[0], rows[1], items, trades);
    }
  }
}
