/** What a repeated reconciliation does not keep, and why broker ids must carry one correlation. */
module ReconcileLimits {
  import opened Ledger
  import opened Options
  import opened Paper
  import opened Live
  import opened Reconcile

  lemma OneKeyIndex(db: Db, k: OrderKey)
    requires k in db.orders
    ensures InitialIndex(db, [k]) == if HasBroker(db.orders[k]) then map[db.orders[k].brokerId.value := k] else map[]
  {
    assert [k][..0] == [];
    assert InitialIndex(db, [k][..0]) == map[];
  }

  lemma TwoTrades(db: Db, index: Index, a: Trade, b: Trade)
    ensures Import(db, index, [a, b]) == ImportOne(ImportOne(db, index, a), index, b)
  {
    assert [a, b][..1] == [a] && [a][..0] == [];
    assert Import(db, index, [a]) == ImportOne(Import(db, index, []), index, a);
    hide ImportOne;
  }

  lemma OnlyTrades(db: Db, user: string, k: OrderKey, a: Trade, b: Trade)
    requires k in db.orders && HasBroker(db.orders[k])
    ensures var index := map[db.orders[k].brokerId.value := k];
      Pass(db, user, [k], [], [a, b]) == ImportOne(ImportOne(db, index, a), index, b)
  {
    OneKeyIndex(db, k);
    TwoTrades(db, map[db.orders[k].brokerId.value := k], a, b);
    hide ImportOne, InitialIndex, HasBroker, SelectedLive, Import;
  }

  /** The status is not settled by one pass: when a trade that does not fit comes before one that does, the first pass ends
      PARTIALLY_FILLED and every later one UNKNOWN, on the same ledger. */
  lemma StatusIsNotSettled(db: Db, user: string, k: OrderKey, misfit: Trade, fit: Trade)
    requires Good(db) && k in db.orders && Lists([k], SelectedLive(db, user)) && HasBroker(db.orders[k])
    requires misfit.orderId == fit.orderId == db.orders[k].brokerId.value
    requires misfit.executionId != "" && fit.executionId != "" && misfit.executionId != fit.executionId
    requires !Imported(db.executions, user, Some(Exchange(misfit.executionId)))
    requires !Imported(db.executions, user, Some(Exchange(fit.executionId)))
    requires misfit.quantity > db.orders[k].quantity
    requires 0 < fit.quantity < db.orders[k].quantity - db.orders[k].filled
    ensures var once := Pass(db, user, [k], [], [misfit, fit]);
      var twice := Pass(once, user, [k], [], [misfit, fit]);
      && Lists([k], SelectedLive(once, user)) && SameLedger(once, twice) && k in once.orders
      && once.orders[k].status == PartiallyFilled && twice.orders[k].status == Unknown
  {
    assert k in SelectedLive(db, user) by { assert k in [k]; }
    NotNegative(db, k);
    hide Good, PositionAfter, Blend, Pass;
    var index := map[db.orders[k].brokerId.value := k];
    var refused := ImportOne(db, index, misfit);
    assert refused.orders[k] == db.orders[k].(status := Unknown, reason := Some("RECONCILIATION_INVALID_EXECUTION_QUANTITY"));
    assert refused.executions == db.executions;
    var once := ImportOne(refused, index, fit);
    OnlyTrades(db, user, k, misfit, fit);
    assert once.orders == refused.orders[k := FillOrder(refused.orders[k], fit.quantity, fit.price)];
    SelectedAfter(db, once, user, k);
    OnlyTrades(once, user, k, misfit, fit);
    StaysUnknown(once, index, k, misfit, fit);
  }

  lemma SelectedAfter(db: Db, once: Db, user: string, k: OrderKey)
    requires Lists([k], SelectedLive(db, user)) && k in db.orders && k in once.orders
    requires once.orders == db.orders[k := once.orders[k]] && once.orders[k].mode == db.orders[k].mode
    requires once.orders[k].status in OpenStatuses()
    ensures Lists([k], SelectedLive(once, user))
  {
    assert k in [k] && k in SelectedLive(db, user);
  }

  lemma StaysUnknown(once: Db, index: Index, k: OrderKey, misfit: Trade, fit: Trade)
    requires k in once.orders && once.orders[k].filled >= 0 && misfit.quantity > once.orders[k].quantity
    requires misfit.orderId == fit.orderId && misfit.orderId in index && index[misfit.orderId] == k
    requires misfit.executionId != "" && !Imported(once.executions, k.user, Some(Exchange(misfit.executionId)))
    requires fit.executionId != "" && Imported(once.executions, k.user, Some(Exchange(fit.executionId)))
    ensures var twice := ImportOne(ImportOne(once, index, misfit), index, fit);
      SameLedger(once, twice) && k in twice.orders && twice.orders[k].status == Unknown
  {
    hide PositionAfter, FillOrder;
  }

  // ---------------------------------------------------------------- one broker id, two correlations

  lemma TwoKeysIndex(db: Db, a: OrderKey, b: OrderKey)
    requires a in db.orders && b in db.orders && !HasBroker(db.orders[a]) && !HasBroker(db.orders[b])
    ensures InitialIndex(db, [a, b]) == map[] && InitialIndex(db, [b]) == map[]
  {
    OneKeyIndex(db, a);
    OneKeyIndex(db, b);
    assert [a, b][..1] == [a];
    hide HasBroker;
  }

  lemma TwoItems(l: Learned, db: Db, index: Index, selected: set<OrderKey>, user: string, x: Item, y: Item)
    ensures Learn(l, selected, user, [x, y]) == LearnOne(LearnOne(l, selected, user, x), selected, user, y)
    ensures Judge(db, index, selected, user, [x, y])
         == JudgeOne(JudgeOne(db, index, selected, user, x), index, selected, user, y)
  {
    assert [x, y][..1] == [x] && [x][..0] == [];
    assert Learn(l, selected, user, [x]) == LearnOne(Learn(l, selected, user, []), selected, user, x);
    assert Judge(db, index, selected, user, [x]) == JudgeOne(Judge(db, index, selected, user, []), index, selected, user, x);
    hide LearnOne, JudgeOne;
  }

  lemma OneTrade(db: Db, index: Index, t: Trade)
    ensures Import(db, index, [t]) == ImportOne(db, index, t)
  {
    assert [t][..0] == [];
    assert Import(db, index, []) == db;
    hide ImportOne;
  }

  lemma WordsMap()
    ensures MapStatus("PENDING") == Open && MapStatus("REJECTED") == Rejected
  {
    assert Upper("PENDING") == "PENDING" && Upper("REJECTED") == "REJECTED";
  }

  /** The assumption that a broker id carries one correlation is needed: when the order book names two of our orders under one
      id, the second pass over the same books books the trade on the other order. */
  lemma SharedIdMovesTrade(db: Db, user: string, a: string, b: string, id: string, t: Trade)
    requires var ka, kb := OrderKey(user, a), OrderKey(user, b);
      && a != b && ka in db.orders && kb in db.orders && Lists([ka, kb], SelectedLive(db, user))
      && !HasBroker(db.orders[ka]) && !HasBroker(db.orders[kb])
      && db.orders[ka].filled >= 0 && db.orders[kb].filled >= 0
      && t.quantity > db.orders[ka].quantity - db.orders[ka].filled
      && 0 < t.quantity < db.orders[kb].quantity - db.orders[kb].filled
    requires id != "" && t.orderId == id && t.executionId != ""
    requires !Imported(db.executions, user, Some(Exchange(t.executionId)))
    ensures var ka, kb := OrderKey(user, a), OrderKey(user, b);
      var items := [Item(id, a, "PENDING", ""), Item(id, b, "REJECTED", "")];
      var once := Pass(db, user, [ka, kb], items, [t]);
      var twice := Pass(once, user, [kb], items, [t]);
      && kb in once.orders && once.orders[kb] == db.orders[kb]
      && once.executions == db.executions && Lists([kb], SelectedLive(once, user))
      && kb in twice.orders && twice.orders[kb].filled == db.orders[kb].filled + t.quantity
      && |twice.executions| == |db.executions| + 1
  {
    var ka, kb := OrderKey(user, a), OrderKey(user, b);
    var x, y := Item(id, a, "PENDING", ""), Item(id, b, "REJECTED", "");
    var once := Pass(db, user, [ka, kb], [x, y], [t]);
    SharedFirst(db, user, ka, kb, x, y, t);
    SharedSecond(once, user, ka, kb, x, y, t);
    hide Pass, Imported;
  }

  /** A pass over two items and one trade, step by step. */
  lemma PassIs(db: Db, user: string, keys: seq<OrderKey>, x: Item, y: Item, t: Trade, l: Learned)
    requires var selected, start := SelectedLive(db, user), Learned(db, InitialIndex(db, keys));
      l == LearnOne(LearnOne(start, selected, user, x), selected, user, y)
    ensures var selected := SelectedLive(db, user);
      Pass(db, user, keys, [x, y], [t])
      == JudgeOne(JudgeOne(ImportOne(l.db, l.index, t), l.index, selected, user, x), l.index, selected, user, y)
  {
    var selected, start := SelectedLive(db, user), Learned(db, InitialIndex(db, keys));
    hide LearnOne, ImportOne, JudgeOne, InitialIndex, SelectedLive;
    TwoItems(start, ImportOne(l.db, l.index, t), l.index, selected, user, x, y);
    OneTrade(l.db, l.index, t);
    hide Learn, Import, Judge;
  }

  lemma FirstLearns(db: Db, selected: set<OrderKey>, user: string, ka: OrderKey, kb: OrderKey, x: Item, y: Item)
    requires ka.user == user && ka in db.orders && !HasBroker(db.orders[ka]) && ka in selected
    requires x.correlation == ka.client && x.orderId == y.orderId != ""
    ensures LearnOne(LearnOne(Learned(db, map[]), selected, user, x), selected, user, y)
         == Learned(PutRow(db, ka, db.orders[ka].(brokerId := Some(x.orderId))), map[x.orderId := ka])
  {
    var l1 := LearnOne(Learned(db, map[]), selected, user, x);
    assert l1 == Learned(PutRow(db, ka, db.orders[ka].(brokerId := Some(x.orderId))), map[x.orderId := ka]);
  }

  lemma Refuses(db: Db, ka: OrderKey, t: Trade)
    requires ka in db.orders && db.orders[ka].filled >= 0 && t.quantity > db.orders[ka].quantity - db.orders[ka].filled
    requires t.executionId != "" && !Imported(db.executions, ka.user, Some(Exchange(t.executionId)))
    ensures var after := ImportOne(db, map[t.orderId := ka], t);
      after.executions == db.executions && after.positions == db.positions
      && ka in after.orders && after.orders == db.orders[ka := after.orders[ka]]
      && after.orders[ka].filled == db.orders[ka].filled && after.orders[ka].mode == db.orders[ka].mode
  {
    hide PositionAfter, FillOrder;
  }

  lemma JudgesBoth(after: Db, ka: OrderKey, selected: set<OrderKey>, user: string, x: Item, y: Item)
    requires ka in after.orders && x.orderId == y.orderId && x.status == "PENDING" && y.status == "REJECTED"
    ensures var once := JudgeOne(JudgeOne(after, map[x.orderId := ka], selected, user, x), map[x.orderId := ka], selected, user, y);
      once.executions == after.executions && once.positions == after.positions
      && ka in once.orders && once.orders == after.orders[ka := once.orders[ka]] && once.orders[ka].status == Rejected
  {
    WordsMap();
    hide MapStatus;
    var index := map[x.orderId := ka];
    var j1 := JudgeOne(after, index, selected, user, x);
    assert j1 == PutRow(after, ka, Judged(after.orders[ka], x));
    var once := JudgeOne(j1, index, selected, user, y);
    assert once == PutRow(j1, ka, Judged(j1.orders[ka], y));
  }

  lemma SharedFirst(db: Db, user: string, ka: OrderKey, kb: OrderKey, x: Item, y: Item, t: Trade)
    requires ka.user == kb.user == user && ka != kb && ka in db.orders && kb in db.orders
    requires Lists([ka, kb], SelectedLive(db, user)) && !HasBroker(db.orders[ka]) && !HasBroker(db.orders[kb])
    requires db.orders[ka].filled >= 0 && t.quantity > db.orders[ka].quantity - db.orders[ka].filled
    requires x == Item(t.orderId, ka.client, "PENDING", "") && y == Item(t.orderId, kb.client, "REJECTED", "")
    requires t.orderId != "" && t.executionId != ""
    requires !Imported(db.executions, user, Some(Exchange(t.executionId)))
    ensures var once := Pass(db, user, [ka, kb], [x, y], [t]);
      && once.executions == db.executions && once.positions == db.positions
      && ka in once.orders && once.orders[ka].status == Rejected && once.orders == db.orders[ka := once.orders[ka]]
      && Lists([kb], SelectedLive(once, user))
  {
    hide MapStatus, ImportOne, JudgeOne, LearnOne, InitialIndex, Pass, Imported;
    var selected := SelectedLive(db, user);
    assert ka in selected && kb in selected by { assert ka in [ka, kb] && kb in [ka, kb]; }
    TwoKeysIndex(db, ka, kb);
    FirstLearns(db, selected, user, ka, kb, x, y);
    var l := Learned(PutRow(db, ka, db.orders[ka].(brokerId := Some(x.orderId))), map[x.orderId := ka]);
    PassIs(db, user, [ka, kb], x, y, t, l);
    Refuses(l.db, ka, t);
    var after := ImportOne(l.db, l.index, t);
    JudgesBoth(after, ka, selected, user, x, y);
    var once := Pass(db, user, [ka, kb], [x, y], [t]);
    assert once.orders == db.orders[ka := once.orders[ka]];
    OneLeft(db, once, user, ka, kb);
  }

  lemma OneLeft(db: Db, once: Db, user: string, ka: OrderKey, kb: OrderKey)
    requires ka != kb && ka in db.orders && ka in once.orders && Lists([ka, kb], SelectedLive(db, user))
    requires once.orders == db.orders[ka := once.orders[ka]] && once.orders[ka].status == Rejected
    ensures Lists([kb], SelectedLive(once, user))
  {
    assert kb in [ka, kb] && kb in SelectedLive(db, user);
    forall k | k in SelectedLive(once, user)
      ensures k == kb
    {
      assert k in SelectedLive(db, user) && k in [ka, kb];
    }
  }

  lemma SharedSecond(once: Db, user: string, ka: OrderKey, kb: OrderKey, x: Item, y: Item, t: Trade)
    requires ka.user == kb.user == user && ka.client != kb.client && kb in once.orders
    requires Lists([kb], SelectedLive(once, user)) && !HasBroker(once.orders[kb])
    requires once.orders[kb].filled >= 0 && 0 < t.quantity < once.orders[kb].quantity - once.orders[kb].filled
    requires x == Item(t.orderId, ka.client, "PENDING", "") && y == Item(t.orderId, kb.client, "REJECTED", "")
    requires t.orderId != "" && t.executionId != ""
    requires !Imported(once.executions, user, Some(Exchange(t.executionId)))
    ensures var twice := Pass(once, user, [kb], [x, y], [t]);
      kb in twice.orders && twice.orders[kb].filled == once.orders[kb].filled + t.quantity
      && |twice.executions| == |once.executions| + 1
  {
    hide MapStatus, ImportOne, JudgeOne, InitialIndex, Pass, Imported;
    var selected := SelectedLive(once, user);
    assert kb in selected by { assert kb in [kb]; }
    assert ka !in selected by { assert ka in selected ==> ka in [kb]; }
    OneKeyIndex(once, kb);
    var start := Learned(once, map[]);
    assert LearnOne(start, selected, user, x) == start;
    var l := LearnOne(start, selected, user, y);
    assert l == Learned(PutRow(once, kb, once.orders[kb].(brokerId := Some(t.orderId))), map[t.orderId := kb]);
    hide LearnOne;
    PassIs(once, user, [kb], x, y, t, l);
    Books(l.db, kb, t);
    var after := ImportOne(l.db, l.index, t);
    JudgesBoth(after, kb, selected, user, x, y);
    JudgedFills(after, kb, selected, user, x, y);
  }

  lemma Books(db: Db, k: OrderKey, t: Trade)
    requires k in db.orders && db.orders[k].filled >= 0 && 0 < t.quantity < db.orders[k].quantity - db.orders[k].filled
    requires t.executionId != "" && !Imported(db.executions, k.user, Some(Exchange(t.executionId)))
    ensures var after := ImportOne(db, map[t.orderId := k], t);
      k in after.orders && after.orders[k].filled == db.orders[k].filled + t.quantity
      && |after.executions| == |db.executions| + 1
  {
    hide PositionAfter, Blend;
  }

  lemma JudgedFills(after: Db, k: OrderKey, selected: set<OrderKey>, user: string, x: Item, y: Item)
    requires k in after.orders && x.orderId == y.orderId
    ensures var once := JudgeOne(JudgeOne(after, map[x.orderId := k], selected, user, x), map[x.orderId := k], selected, user, y);
      k in once.orders && once.orders[k].filled == after.orders[k].filled
  {
    hide MapStatus;
  }
}
