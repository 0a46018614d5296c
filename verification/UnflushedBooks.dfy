/** A reconciler pass in a session that does not flush before it queries, as production opens them
    (backend/app/database.py:12, backend/app/trading/reconcile.py): neither the position rows nor the executions that the
    transaction has added are found by the next lookup, and the commit meets the unique constraints of both tables. */
module UnflushedBooks {
  import opened Ledger
  import opened Options
  import opened Paper
  import opened Reconcile
  import opened Unflushed
  import opened Live
  import opened PositionBound
  import L = ReconcileLimits

  /** `apply_execution` of one trade in such a session. */
  function Apply(stored: Db, d: Draft, k: OrderKey, quantity: int, price: real, id: Option<ExecutionId>): Option<Draft>
    requires k in d.db.orders && d.db.orders[k].filled >= 0
  {
    var o := d.db.orders[k];
    var pk := PositionKeyOf(k, o);
    if Truthy(id) && Imported(stored.executions, k.user, id) then Some(d)
    else if !Accepts(o, quantity) then None
    else
      Some(Draft(
        d.db.(orders := d.db.orders[k := FillOrder(o, quantity, price)],
              executions := d.db.executions + [Execution(k, id, o.side, quantity, price)],
              positions := d.db.positions[
                pk := PositionAfter(PositionFound(stored, d, pk), Signed(o.side, quantity), price)]),
        d.added + if pk in stored.positions then [] else [pk]))
  }

  function TakeOne(stored: Db, d: Draft, index: Index, t: Trade): Draft {
    if t.orderId !in index || t.executionId == "" then d
    else
      var k := index[t.orderId];
      if k !in d.db.orders || d.db.orders[k].filled < 0 then d
      else
        match Apply(stored, d, k, t.quantity, t.price, Some(Exchange(t.executionId)))
        case Some(d2) => d2
        case None =>
          d.(db := PutRow(d.db, k, d.db.orders[k].(status := Unknown,
                                                   reason := Some("RECONCILIATION_INVALID_EXECUTION_QUANTITY"))))
  }

  function Take(stored: Db, index: Index, trades: seq<Trade>): Draft {
    if trades == [] then Draft(stored, [])
    else TakeOne(stored, Take(stored, index, trades[..|trades| - 1]), index, trades[|trades| - 1])
  }

  /** The commit meets no unique constraint: not of the position rows, not of the execution ids. */
  ghost predicate Commits(db: Db, user: string, keys: seq<OrderKey>, items: seq<Item>, trades: seq<Trade>) {
    var l := LearnPass(db, user, keys, items);
    var d := Take(l.db, l.index, trades);
    NoRepeat(d.added) && UniqueIds(d.db)
  }

  /** One whole pass; when the commit fails everything is as it was stored. */
  ghost function DraftPass(db: Db, user: string, keys: seq<OrderKey>, items: seq<Item>, trades: seq<Trade>): Db {
    var l := LearnPass(db, user, keys, items);
    if Commits(db, user, keys, items, trades)
    then Judge(Take(l.db, l.index, trades).db, l.index, SelectedLive(db, user), user, items) else db
  }

  /** The trade book lists each trade once. */
  predicate ListedOnce(trades: seq<Trade>) {
    forall i, j :: 0 <= i < j < |trades| && trades[i].executionId == trades[j].executionId ==> trades[i].executionId == ""
  }

  /** What the pass has booked so far has this trade already, what is stored has not. */
  predicate IsCopy(stored: Db, before: Db, index: Index, t: Trade) {
    && t.orderId in index && t.executionId != ""
    && var k, id := index[t.orderId], Some(Exchange(t.executionId));
    && k in before.orders && before.orders[k].filled >= 0
    && !Imported(stored.executions, k.user, id) && Imported(before.executions, k.user, id)
  }

  /** A copy that fits, once more, into what the order has left. */
  predicate IsFittingCopy(stored: Db, before: Db, index: Index, t: Trade) {
    IsCopy(stored, before, index, t) && Accepts(before.orders[index[t.orderId]], t.quantity)
  }

  predicate Copies(stored: Db, index: Index, trades: seq<Trade>) {
    exists j :: 0 <= j < |trades| && IsCopy(stored, Import(stored, index, trades[..j]), index, trades[j])
  }

  predicate FittingCopies(stored: Db, index: Index, trades: seq<Trade>) {
    exists j :: 0 <= j < |trades| && IsFittingCopy(stored, Import(stored, index, trades[..j]), index, trades[j])
  }

  /** Rows that differ in status and reason at most. */
  predicate Alike(a: map<OrderKey, Order>, b: map<OrderKey, Order>) {
    a.Keys == b.Keys && forall k :: k in a ==> a[k] == b[k].(status := a[k].status, reason := a[k].reason)
  }

  /** The position rows that booking these executions adds. */
  function Opened(orders: map<OrderKey, Order>, positions: map<PositionKey, Position>, es: seq<Execution>): seq<PositionKey> {
    if es == [] then []
    else
      var e := es[|es| - 1];
      Opened(orders, positions, es[..|es| - 1])
      + if e.order in orders && PositionKeyOf(e.order, orders[e.order]) !in positions
        then [PositionKeyOf(e.order, orders[e.order])] else []
  }

  // ---------------------------------------------------------------- the draft follows the flushing session

  ghost predicate Tracks(stored: Db, flushed: Db, d: Draft) {
    && stored.executions <= flushed.executions
    && Alike(d.db.orders, flushed.orders) && d.db.executions == flushed.executions && d.db.halts == flushed.halts
    && d.added == Opened(stored.orders, stored.positions, flushed.executions[|stored.executions|..])
    && (forall pk :: pk in d.db.positions <==> pk in stored.positions || pk in d.added)
    && (NoRepeat(d.added) ==> d.db.positions == flushed.positions)
  }

  /** Rows keep what a position key is made of. */
  predicate SameKeys(a: map<OrderKey, Order>, b: map<OrderKey, Order>) {
    a.Keys == b.Keys && forall k :: k in a ==> PositionKeyOf(k, a[k]) == PositionKeyOf(k, b[k])
  }

  lemma OpenedMore(orders: map<OrderKey, Order>, positions: map<PositionKey, Position>, es: seq<Execution>, e: Execution)
    ensures Opened(orders, positions, es + [e])
         == Opened(orders, positions, es)
            + if e.order in orders && PositionKeyOf(e.order, orders[e.order]) !in positions
              then [PositionKeyOf(e.order, orders[e.order])] else []
  {
    assert (es + [e])[..|es|] == es;
  }

  lemma FoundAlike(stored: Db, flushed: Db, d: Draft, pk: PositionKey)
    requires Tracks(stored, flushed, d) && NoRepeat(d.added + if pk in stored.positions then [] else [pk])
    ensures NoRepeat(d.added) && PositionFound(stored, d, pk) == PositionAt(flushed, pk)
  {
    hide Opened, Alike;
    if pk in stored.positions {
      assert d.added + [] == d.added;
    } else {
      LastRepeats(d.added, pk);
    }
  }

  /** What is stored stays imported. */
  lemma StaysImported(stored: seq<Execution>, es: seq<Execution>, user: string, id: Option<ExecutionId>)
    requires stored <= es && Imported(stored, user, id)
    ensures Imported(es, user, id)
  {
    var e :| e in stored && e.order.user == user && e.id == id;
    var i :| 0 <= i < |stored| && stored[i] == e;
    assert es[i] == e;
  }

  lemma RowFillsAlike(a: Order, b: Order, quantity: int, price: real)
    requires a == b.(status := a.status, reason := a.reason) && b.filled >= 0 && quantity > 0
    ensures var a2, b2 := FillOrder(a, quantity, price), FillOrder(b, quantity, price);
      && a2 == b2.(status := a2.status, reason := a2.reason)
      && b2 == b.(status := b2.status, filled := b2.filled, averageFill := b2.averageFill, completed := b2.completed)
  {
    hide Blend;
  }

  lemma FillsAlike(
      was: map<OrderKey, Order>, a: map<OrderKey, Order>, b: map<OrderKey, Order>, k: OrderKey, quantity: int, price: real)
    requires Alike(a, b) && SameKeys(was, b) && k in b && b[k].filled >= 0 && quantity > 0
    ensures SameKeys(was, b[k := FillOrder(b[k], quantity, price)])
    ensures Alike(a[k := FillOrder(a[k], quantity, price)], b[k := FillOrder(b[k], quantity, price)])
    ensures a[k] == b[k] ==> FillOrder(a[k], quantity, price) == FillOrder(b[k], quantity, price)
    ensures PositionKeyOf(k, FillOrder(b[k], quantity, price)) == PositionKeyOf(k, b[k]) == PositionKeyOf(k, a[k])
  {
    RowFillsAlike(a[k], b[k], quantity, price);
    hide FillOrder;
  }

  lemma BookedTracks(stored: Db, flushed: Db, d: Draft, k: OrderKey, t: Trade)
    requires Tracks(stored, flushed, d) && SameKeys(stored.orders, flushed.orders)
    requires k in flushed.orders && flushed.orders[k].filled >= 0 && Accepts(flushed.orders[k], t.quantity)
    requires t.executionId != "" && !Imported(flushed.executions, k.user, Some(Exchange(t.executionId)))
    requires !Imported(stored.executions, k.user, Some(Exchange(t.executionId)))
    ensures var id := Some(Exchange(t.executionId));
      var f2, d2 := ApplyExecution(flushed, k, t.quantity, t.price, id), Apply(stored, d, k, t.quantity, t.price, id);
      && f2.Some? && d2.Some? && Tracks(stored, f2.value, d2.value) && SameKeys(stored.orders, f2.value.orders)
      && (d.db.orders == flushed.orders ==> d2.value.db.orders == f2.value.orders)
  {
    hide Imported, FillOrder, PositionAfter, NoRepeat, PositionFound, PositionAt, Opened, Alike, SameKeys;
    assert d.db.orders.Keys == flushed.orders.Keys && d.db.orders[k].filled == flushed.orders[k].filled
        && d.db.orders[k].quantity == flushed.orders[k].quantity && d.db.orders[k].side == flushed.orders[k].side by {
      RowAlike(d.db.orders, flushed.orders, k);
    }
    var id := Some(Exchange(t.executionId));
    var o, pk := flushed.orders[k], PositionKeyOf(k, flushed.orders[k]);
    var e := Execution(k, id, o.side, t.quantity, t.price);
    var d2 := Apply(stored, d, k, t.quantity, t.price, id).value;
    FillsAlike(stored.orders, d.db.orders, flushed.orders, k, t.quantity, t.price);
    AddsOpened(stored, flushed, e);
    if NoRepeat(d2.added) {
      FoundAlike(stored, flushed, d, pk);
    }
  }

  lemma RowAlike(a: map<OrderKey, Order>, b: map<OrderKey, Order>, k: OrderKey)
    requires Alike(a, b)
    ensures a.Keys == b.Keys && (k in b ==> a[k] == b[k].(status := a[k].status, reason := a[k].reason))
  {
  }

  lemma AddsOpened(stored: Db, flushed: Db, e: Execution)
    requires stored.executions <= flushed.executions && SameKeys(stored.orders, flushed.orders) && e.order in flushed.orders
    ensures var n, pk := |stored.executions|, PositionKeyOf(e.order, flushed.orders[e.order]);
      Opened(stored.orders, stored.positions, (flushed.executions + [e])[n..])
      == Opened(stored.orders, stored.positions, flushed.executions[n..]) + if pk in stored.positions then [] else [pk]
  {
    var n := |stored.executions|;
    assert (flushed.executions + [e])[n..] == flushed.executions[n..] + [e];
    OpenedMore(stored.orders, stored.positions, flushed.executions[n..], e);
    hide Opened;
  }

  lemma MarkedAlike(
      was: map<OrderKey, Order>, a: map<OrderKey, Order>, b: map<OrderKey, Order>, k: OrderKey, o: Order, o2: Order)
    requires SameKeys(was, b) && Alike(a, b) && k in b
    requires o == b[k].(status := o.status, reason := o.reason) && o2 == b[k].(status := o2.status, reason := o2.reason)
    ensures SameKeys(was, b[k := o]) && Alike(a[k := o2], b[k := o])
  {
  }

  /** Marking a row as misfitting, in one session or in both, leaves the rows alike. */
  lemma MarkedTracks(stored: Db, flushed: Db, d: Draft, k: OrderKey, o: Order, o2: Order)
    requires Tracks(stored, flushed, d) && SameKeys(stored.orders, flushed.orders) && k in flushed.orders
    requires o == flushed.orders[k].(status := o.status, reason := o.reason)
    requires o2 == flushed.orders[k].(status := o2.status, reason := o2.reason)
    ensures Tracks(stored, flushed.(orders := flushed.orders[k := o]), d.(db := d.db.(orders := d.db.orders[k := o2])))
    ensures SameKeys(stored.orders, flushed.orders[k := o])
  {
    MarkedAlike(stored.orders, d.db.orders, flushed.orders, k, o, o2);
    hide Opened, NoRepeat, SameKeys, Alike;
  }

  /** A fitting copy is booked again, and its id then stands twice. */
  lemma CopyClashes(stored: Db, flushed: Db, d: Draft, index: Index, t: Trade)
    requires Tracks(stored, flushed, d) && IsFittingCopy(stored, flushed, index, t)
    ensures !UniqueIds(TakeOne(stored, d, index, t).db)
  {
    hide FillOrder, PositionAfter, PositionFound, Opened, NoRepeat;
    var k, id := index[t.orderId], Some(Exchange(t.executionId));
    var e :| e in flushed.executions && e.order.user == k.user && e.id == id;
    var i :| 0 <= i < |flushed.executions| && flushed.executions[i] == e;
    var d2 := TakeOne(stored, d, index, t).db;
    assert d2.executions == flushed.executions + [Execution(k, id, d.db.orders[k].side, t.quantity, t.price)];
    assert d2.executions[i] == e && d2.executions[|flushed.executions|].id == id;
  }

  lemma ClashStays(stored: Db, d: Draft, index: Index, t: Trade)
    requires !UniqueIds(d.db)
    ensures !UniqueIds(TakeOne(stored, d, index, t).db)
  {
    hide FillOrder, PositionAfter, PositionFound, Imported;
    var d2 := TakeOne(stored, d, index, t).db;
    assert d.db.executions <= d2.executions;
    var i, j :| 0 <= i < j < |d.db.executions| && Truthy(d.db.executions[i].id)
      && d.db.executions[i].order.user == d.db.executions[j].order.user
      && d.db.executions[i].id == d.db.executions[j].id;
    assert d2.executions[i] == d.db.executions[i] && d2.executions[j] == d.db.executions[j];
  }

  function Misfit(o: Order): Order {
    o.(status := Unknown, reason := Some("RECONCILIATION_INVALID_EXECUTION_QUANTITY"))
  }

  predicate Misfits(stored: Db, db: Db, index: Index, t: Trade) {
    && t.orderId in index && t.executionId != "" && index[t.orderId] in db.orders
    && db.orders[index[t.orderId]].filled >= 0 && !Accepts(db.orders[index[t.orderId]], t.quantity)
    && !Imported(stored.executions, index[t.orderId].user, Some(Exchange(t.executionId)))
  }

  lemma MisfitTaken(stored: Db, d: Draft, index: Index, t: Trade)
    requires Misfits(stored, d.db, index, t)
    ensures var k := index[t.orderId];
      TakeOne(stored, d, index, t) == d.(db := d.db.(orders := d.db.orders[k := Misfit(d.db.orders[k])]))
  {
    hide FillOrder, PositionAfter, PositionFound;
  }

  lemma MisfitImported(stored: Db, db: Db, index: Index, t: Trade)
    requires Misfits(stored, db, index, t)
    ensures var k := index[t.orderId];
      ImportOne(db, index, t)
      == if IsCopy(stored, db, index, t) then db else db.(orders := db.orders[k := Misfit(db.orders[k])])
  {
    hide FillOrder, PositionAfter, PositionAt;
  }

  /** A trade that does not fit: both sessions mark the row, or the draft alone when the trade is a copy. */
  lemma MisfitTracks(stored: Db, flushed: Db, d: Draft, index: Index, t: Trade)
    requires Tracks(stored, flushed, d) && SameKeys(stored.orders, flushed.orders) && Misfits(stored, flushed, index, t)
    ensures var f2, d2 := ImportOne(flushed, index, t), TakeOne(stored, d, index, t);
      && Tracks(stored, f2, d2) && SameKeys(stored.orders, f2.orders)
      && (d.db.orders == flushed.orders && !IsCopy(stored, flushed, index, t) ==> d2.db.orders == f2.orders)
  {
    var k := index[t.orderId];
    RowAlike(d.db.orders, flushed.orders, k);
    MisfitTaken(stored, d, index, t);
    MisfitImported(stored, flushed, index, t);
    hide Alike, Tracks, SameKeys, ImportOne, TakeOne, IsCopy, Imported;
    var o, o2 := flushed.orders[k], Misfit(d.db.orders[k]);
    if IsCopy(stored, flushed, index, t) {
      MarkedTracks(stored, flushed, d, k, o, o2);
      assert flushed.orders[k := o] == flushed.orders;
    } else {
      MarkedTracks(stored, flushed, d, k, Misfit(o), o2);
    }
  }

  lemma OneTracks(stored: Db, flushed: Db, d: Draft, index: Index, t: Trade)
    requires Tracks(stored, flushed, d) && SameKeys(stored.orders, flushed.orders)
    requires !IsFittingCopy(stored, flushed, index, t)
    ensures var f2, d2 := ImportOne(flushed, index, t), TakeOne(stored, d, index, t);
      && Tracks(stored, f2, d2) && SameKeys(stored.orders, f2.orders)
      && (d.db.orders == flushed.orders && !IsCopy(stored, flushed, index, t) ==> d2.db.orders == f2.orders)
  {
    assert stored.executions <= flushed.executions && d.db.orders.Keys == flushed.orders.Keys;
    if t.orderId in index && t.executionId != "" && index[t.orderId] in flushed.orders {
      var k, id := index[t.orderId], Some(Exchange(t.executionId));
      RowAlike(d.db.orders, flushed.orders, k);
      if Imported(stored.executions, k.user, id) {
        StaysImported(stored.executions, flushed.executions, k.user, id);
      }
      hide Imported, FillOrder, PositionAfter, PositionFound, PositionAt, Opened, Alike, Tracks, SameKeys;
      if flushed.orders[k].filled >= 0 && !Imported(stored.executions, k.user, id) {
        if !Accepts(flushed.orders[k], t.quantity) {
          MisfitTracks(stored, flushed, d, index, t);
        } else {
          BookedTracks(stored, flushed, d, k, t);
        }
      }
    }
  }

  lemma CopiesMore(stored: Db, index: Index, init: seq<Trade>, t: Trade)
    ensures Copies(stored, index, init + [t])
       <==> Copies(stored, index, init) || IsCopy(stored, Import(stored, index, init), index, t)
  {
    hide IsCopy, Import;
    var all, n := init + [t], |init|;
    forall j | 0 <= j <= n
      ensures all[..j] == if j < n then init[..j] else init
    {
    }
    if j :| 0 <= j < n && IsCopy(stored, Import(stored, index, init[..j]), index, init[j]) {
      assert IsCopy(stored, Import(stored, index, all[..j]), index, all[j]);
    }
    if IsCopy(stored, Import(stored, index, init), index, t) {
      assert IsCopy(stored, Import(stored, index, all[..n]), index, all[n]);
    }
  }

  lemma FittingCopiesMore(stored: Db, index: Index, init: seq<Trade>, t: Trade)
    ensures FittingCopies(stored, index, init + [t])
       <==> FittingCopies(stored, index, init) || IsFittingCopy(stored, Import(stored, index, init), index, t)
  {
    hide IsFittingCopy, Import;
    var all, n := init + [t], |init|;
    forall j | 0 <= j <= n
      ensures all[..j] == if j < n then init[..j] else init
    {
    }
    if j :| 0 <= j < n && IsFittingCopy(stored, Import(stored, index, init[..j]), index, init[j]) {
      assert IsFittingCopy(stored, Import(stored, index, all[..j]), index, all[j]);
    }
    if IsFittingCopy(stored, Import(stored, index, init), index, t) {
      assert IsFittingCopy(stored, Import(stored, index, all[..n]), index, all[n]);
    }
  }

  lemma {:induction false} TakeTracks(stored: Db, index: Index, trades: seq<Trade>)
    ensures var flushed, d := Import(stored, index, trades), Take(stored, index, trades);
      if FittingCopies(stored, index, trades) then !UniqueIds(d.db)
      else && Tracks(stored, flushed, d) && SameKeys(stored.orders, flushed.orders)
           && (!Copies(stored, index, trades) ==> d.db.orders == flushed.orders)
    decreases |trades|
  {
    hide ImportOne, TakeOne, UniqueIds, IsCopy, IsFittingCopy;
    if trades == [] {
      assert stored.executions[|stored.executions|..] == [];
    } else {
      var init, t := trades[..|trades| - 1], trades[|trades| - 1];
      assert trades == init + [t];
      TakeTracks(stored, index, init);
      CopiesMore(stored, index, init, t);
      FittingCopiesMore(stored, index, init, t);
      hide Tracks, SameKeys, Copies, FittingCopies;
      var flushed, d := Import(stored, index, init), Take(stored, index, init);
      if FittingCopies(stored, index, init) {
        ClashStays(stored, d, index, t);
      } else if IsFittingCopy(stored, flushed, index, t) {
        CopyClashes(stored, flushed, d, index, t);
      } else {
        OneTracks(stored, flushed, d, index, t);
      }
    }
  }

  /** Every id that the pass has booked belongs to a trade of the book. */
  lemma {:induction false} BookedIsListed(stored: Db, index: Index, trades: seq<Trade>, user: string, id: string)
    requires id != "" && !Imported(stored.executions, user, Some(Exchange(id)))
    requires Imported(Import(stored, index, trades).executions, user, Some(Exchange(id)))
    ensures exists t :: t in trades && t.executionId == id
    decreases |trades|
  {
    if trades != [] {
      var init, t := trades[..|trades| - 1], trades[|trades| - 1];
      if t.executionId != id {
        hide PositionAfter, FillOrder;
        var before := Import(stored, index, init);
        var e :| e in ImportOne(before, index, t).executions && e.order.user == user && e.id == Some(Exchange(id));
        assert e in before.executions;
        BookedIsListed(stored, index, init, user, id);
        var t2 :| t2 in init && t2.executionId == id;
        assert t2 in trades;
      }
    }
  }

  /** A trade book that lists each trade once has no copies. */
  lemma OnceIsNoCopy(stored: Db, index: Index, trades: seq<Trade>)
    requires ListedOnce(trades)
    ensures !Copies(stored, index, trades)
  {
    hide Import;
    forall j | 0 <= j < |trades|
      ensures !IsCopy(stored, Import(stored, index, trades[..j]), index, trades[j])
    {
      var t := trades[j];
      forall t2 | t2 in trades[..j]
        ensures t2.executionId == t.executionId ==> t.executionId == ""
      {
        var i :| 0 <= i < j && trades[..j][i] == t2;
        assert trades[i] == t2;
      }
      if IsCopy(stored, Import(stored, index, trades[..j]), index, t) {
        BookedIsListed(stored, index, trades[..j], index[t.orderId].user, t.executionId);
      }
    }
  }

  // ---------------------------------------------------------------- when the commit succeeds

  /** The execution needs a position row that is not there. */
  predicate Opens(before: Db, e: Execution) {
    e.order in before.orders && PositionKeyOf(e.order, before.orders[e.order]) !in before.positions
  }

  predicate Together(before: Db, a: Execution, b: Execution) {
    Opens(before, a) && Opens(before, b)
    && PositionKeyOf(a.order, before.orders[a.order]) == PositionKeyOf(b.order, before.orders[b.order])
  }

  /** Two of these executions belong to one position without a row. */
  predicate TwoOpen(before: Db, es: seq<Execution>) {
    exists i, j :: 0 <= i < j < |es| && Together(before, es[i], es[j])
  }

  lemma {:induction false} OpenedIs(db: Db, es: seq<Execution>, pk: PositionKey)
    ensures pk in Opened(db.orders, db.positions, es)
       <==> exists i :: 0 <= i < |es| && Opens(db, es[i]) && PositionKeyOf(es[i].order, db.orders[es[i].order]) == pk
    decreases |es|
  {
    if es != [] {
      var n := |es| - 1;
      OpenedIs(db, es[..n], pk);
      if i :| 0 <= i < n && Opens(db, es[..n][i]) && PositionKeyOf(es[..n][i].order, db.orders[es[..n][i].order]) == pk {
        assert es[i] == es[..n][i];
      }
      if i :| 0 <= i < |es| && Opens(db, es[i]) && PositionKeyOf(es[i].order, db.orders[es[i].order]) == pk {
        assert i < n ==> es[i] == es[..n][i];
      }
    }
  }

  lemma TwoOpenGrows(db: Db, es: seq<Execution>, e: Execution)
    ensures TwoOpen(db, es + [e]) <==> TwoOpen(db, es) || exists i :: 0 <= i < |es| && Together(db, es[i], e)
  {
    hide Together;
    var more := es + [e];
    assert forall i :: 0 <= i < |es| ==> more[i] == es[i];
    assert more[|es|] == e;
    if i, j :| 0 <= i < j < |more| && Together(db, more[i], more[j]) {
      assert Together(db, es[i], if j < |es| then es[j] else e);
    }
    if i, j :| 0 <= i < j < |es| && Together(db, es[i], es[j]) {
      assert Together(db, more[i], more[j]);
    }
    if i :| 0 <= i < |es| && Together(db, es[i], e) {
      assert Together(db, more[i], more[|es|]);
    }
  }

  lemma {:induction false} RepeatIsTwoOpen(db: Db, es: seq<Execution>)
    ensures NoRepeat(Opened(db.orders, db.positions, es)) <==> !TwoOpen(db, es)
    decreases |es|
  {
    if es != [] {
      var init, e := es[..|es| - 1], es[|es| - 1];
      assert es == init + [e];
      RepeatIsTwoOpen(db, init);
      TwoOpenGrows(db, init, e);
      OpenedMore(db.orders, db.positions, init, e);
      if Opens(db, e) {
        var pk := PositionKeyOf(e.order, db.orders[e.order]);
        OpenedIs(db, init, pk);
        LastRepeats(Opened(db.orders, db.positions, init), pk);
        assert forall i :: 0 <= i < |init| ==>
          (Together(db, init[i], e) <==> Opens(db, init[i]) && PositionKeyOf(init[i].order, db.orders[init[i].order]) == pk);
      } else {
        assert Opened(db.orders, db.positions, init) + [] == Opened(db.orders, db.positions, init);
      }
      hide Opened, NoRepeat, TwoOpen;
    }
  }

  // ---------------------------------------------------------------- main results

  /** Learning ids touches nothing that a position key is made of. */
  lemma {:induction false} LearnSameKeys(l: Learned, selected: set<OrderKey>, user: string, items: seq<Item>)
    ensures var l2 := Learn(l, selected, user, items);
      SameKeys(l.db.orders, l2.db.orders) && l2.db.positions == l.db.positions && l2.db.executions == l.db.executions
  {
    hide Find;
    if items != [] {
      LearnSameKeys(l, selected, user, items[..|items| - 1]);
    }
  }

  lemma SameTwoOpen(a: Db, b: Db, es: seq<Execution>)
    requires SameKeys(a.orders, b.orders) && a.positions == b.positions
    ensures TwoOpen(a, es) <==> TwoOpen(b, es)
  {
    assert forall e :: Opens(a, e) <==> Opens(b, e);
    assert forall x, y :: Together(a, x, y) <==> Together(b, x, y);
    hide Together, Opens;
    if i, j :| 0 <= i < j < |es| && Together(a, es[i], es[j]) {
      assert Together(b, es[i], es[j]);
    }
    if i, j :| 0 <= i < j < |es| && Together(b, es[i], es[j]) {
      assert Together(a, es[i], es[j]);
    }
  }

  lemma GoodIds(db: Db, es: seq<Execution>)
    requires Good(db) && db.executions == es
    ensures UniqueIds(db)
  {
    hide PaperRules;
  }

  lemma OneJudgedAlike(a: Db, b: Db, index: Index, selected: set<OrderKey>, user: string, item: Item)
    requires Alike(a.orders, b.orders) && a.(orders := b.orders) == b
    ensures var a2, b2 := JudgeOne(a, index, selected, user, item), JudgeOne(b, index, selected, user, item);
      Alike(a2.orders, b2.orders) && a2.(orders := b2.orders) == b2
  {
    hide Find, MapStatus;
  }

  /** Judging leaves alike rows alike. */
  lemma {:induction false} JudgeAlike(a: Db, b: Db, index: Index, selected: set<OrderKey>, user: string, items: seq<Item>)
    requires Alike(a.orders, b.orders) && a.(orders := b.orders) == b
    ensures var a2, b2 := Judge(a, index, selected, user, items), Judge(b, index, selected, user, items);
      Alike(a2.orders, b2.orders) && a2.(orders := b2.orders) == b2
  {
    hide JudgeOne, Alike;
    if items != [] {
      JudgeAlike(a, b, index, selected, user, items[..|items| - 1]);
      OneJudgedAlike(Judge(a, index, selected, user, items[..|items| - 1]), Judge(b, index, selected, user, items[..|items| - 1]),
                     index, selected, user, items[|items| - 1]);
    }
  }

  /** The pass books nothing twice that fits twice, and opens no position twice. */
  ghost predicate NoConflict(db: Db, user: string, keys: seq<OrderKey>, items: seq<Item>, trades: seq<Trade>)
    requires |db.executions| <= |Pass(db, user, keys, items, trades).executions|
  {
    var l := LearnPass(db, user, keys, items);
    && !FittingCopies(l.db, l.index, trades)
    && !TwoOpen(db, Pass(db, user, keys, items, trades).executions[|db.executions|..])
  }

  /** Main result: the commit of a pass that does not flush succeeds exactly when no trade is listed again that fits again, and
      no two of the executions that a flushing pass books belong to one position without a row. It then books what the flushing
      pass books; only a status or reason may differ, and only where a copy did not fit. Otherwise it changes nothing, not even a
      status, now and whenever it is repeated. */
  lemma PassCommitsExactly(cfg: Settings, db: Db, user: string, keys: seq<OrderKey>, items: seq<Item>, trades: seq<Trade>)
    requires Good(db) && Lists(keys, SelectedLive(db, user))
    ensures var l, flushed := LearnPass(db, user, keys, items), Pass(db, user, keys, items, trades);
      var drafted := DraftPass(db, user, keys, items, trades);
      && |db.executions| <= |flushed.executions|
      && (Commits(db, user, keys, items, trades) <==> NoConflict(db, user, keys, items, trades))
      && (if NoConflict(db, user, keys, items, trades)
          then Alike(drafted.orders, flushed.orders) && drafted.(orders := flushed.orders) == flushed
          else drafted == db)
      && (NoConflict(db, user, keys, items, trades) && !Copies(l.db, l.index, trades) ==> drafted == flushed)
  {
    hide Good, Learn, Import, Take, Judge, InitialIndex, TwoOpen, Opened, SameKeys, NoRepeat, UniqueIds, Into,
      AllLive, OnlyTouches, Bounded, FilledIsComplete, Copies, FittingCopies, Alike;
    var selected, start := SelectedLive(db, user), Learned(db, InitialIndex(db, keys));
    assert AllLive(db, selected) by { SelectedAllLive(db, user); }
    InitialInto(db, keys, selected);
    LearnKeeps(cfg, start, selected, user, items);
    LearnSameKeys(start, selected, user, items);
    var l := LearnPass(db, user, keys, items);
    assert AllLive(l.db, selected) by { StillLive(db, l.db, selected); }
    ImportKeeps(cfg, l.db, l.index, selected, trades);
    ImportAppends(l.db, l.index, trades);
    var flushed, d := Import(l.db, l.index, trades), Take(l.db, l.index, trades);
    assert AllLive(flushed, selected) by { StillLive(l.db, flushed, selected); }
    JudgeKeeps(cfg, flushed, l.index, selected, user, items);
    TakeTracks(l.db, l.index, trades);
    if !FittingCopies(l.db, l.index, trades) {
      var es := flushed.executions[|db.executions|..];
      RepeatIsTwoOpen(l.db, es);
      SameTwoOpen(db, l.db, es);
      GoodIds(flushed, flushed.executions);
      SameIds(flushed, d.db);
      if NoRepeat(d.added) {
        JudgeAlike(d.db, flushed, l.index, selected, user, items);
      }
    }
  }

  lemma {:induction false} ImportAppends(stored: Db, index: Index, trades: seq<Trade>)
    ensures stored.executions <= Import(stored, index, trades).executions
  {
    hide PositionAfter, FillOrder, Imported;
    if trades != [] {
      ImportAppends(stored, index, trades[..|trades| - 1]);
    }
  }

  lemma SameIds(a: Db, b: Db)
    requires a.executions == b.executions
    ensures UniqueIds(a) <==> UniqueIds(b)
  {
  }

  /** So the first order on an instrument that the exchange fills in two trades between two passes is never booked. */
  lemma SplitFillBlocks(cfg: Settings, db: Db, user: string, k: OrderKey, a: Trade, b: Trade)
    requires Good(db) && k in db.orders && Lists([k], SelectedLive(db, user)) && HasBroker(db.orders[k])
    requires PositionKeyOf(k, db.orders[k]) !in db.positions
    requires a.orderId == b.orderId == db.orders[k].brokerId.value && a.quantity > 0 && b.quantity > 0
    requires a.executionId != "" && b.executionId != "" && a.executionId != b.executionId
    requires !Imported(db.executions, user, Some(Exchange(a.executionId)))
    requires !Imported(db.executions, user, Some(Exchange(b.executionId)))
    requires db.orders[k].filled + a.quantity + b.quantity <= db.orders[k].quantity
    ensures DraftPass(db, user, [k], [], [a, b]) == db
    ensures |Pass(db, user, [k], [], [a, b]).executions| == |db.executions| + 2
  {
    assert k in SelectedLive(db, user) by { assert k in [k]; }
    NotNegative(db, k);
    L.OnlyTrades(db, user, k, a, b);
    BothBooked(db, map[db.orders[k].brokerId.value := k], k, a, b);
    hide Good, SelectedLive, Pass, DraftPass, Imported, ImportOne;
    PassCommitsExactly(cfg, db, user, [k], [], [a, b]);
    var es := Pass(db, user, [k], [], [a, b]).executions[|db.executions|..];
    assert Together(db, es[0], es[1]);
  }

  lemma BothBooked(db: Db, index: Index, k: OrderKey, a: Trade, b: Trade)
    requires a.orderId in index && index[a.orderId] == k && b.orderId == a.orderId
    requires k in db.orders && 0 <= db.orders[k].filled && a.quantity > 0 && b.quantity > 0
    requires a.executionId != "" && b.executionId != "" && a.executionId != b.executionId
    requires !Imported(db.executions, k.user, Some(Exchange(a.executionId)))
    requires !Imported(db.executions, k.user, Some(Exchange(b.executionId)))
    requires db.orders[k].filled + a.quantity + b.quantity <= db.orders[k].quantity
    ensures var es := ImportOne(ImportOne(db, index, a), index, b).executions;
      |es| == |db.executions| + 2 && es[|db.executions|].order == es[|db.executions| + 1].order == k
  {
    hide PositionAfter, Blend;
    var once := ImportOne(db, index, a);
    var e := Execution(k, Some(Exchange(a.executionId)), db.orders[k].side, a.quantity, a.price);
    assert once.executions == db.executions + [e];
    assert !Imported(once.executions, k.user, Some(Exchange(b.executionId)));
  }

  /** A trade that the book lists twice, and that fits twice, is booked twice in the draft: the commit fails, where a flushing
      session books it once. */
  lemma CopiedTradeBlocks(db: Db, user: string, k: OrderKey, t: Trade)
    requires Good(db) && k in db.orders && Lists([k], SelectedLive(db, user)) && HasBroker(db.orders[k])
    requires t.orderId == db.orders[k].brokerId.value && t.executionId != "" && t.quantity > 0
    requires !Imported(db.executions, user, Some(Exchange(t.executionId)))
    requires db.orders[k].filled + 2 * t.quantity <= db.orders[k].quantity
    ensures DraftPass(db, user, [k], [], [t, t]) == db
    ensures |Pass(db, user, [k], [], [t, t]).executions| == |db.executions| + 1
  {
    var index, id := map[db.orders[k].brokerId.value := k], Some(Exchange(t.executionId));
    assert k in SelectedLive(db, user) by { assert k in [k]; }
    NotNegative(db, k);
    L.OneKeyIndex(db, k);
    L.OnlyTrades(db, user, k, t, t);
    TwoTaken(db, index, t);
    TwiceTaken(db, index, k, t);
    hide Good, InitialIndex, SelectedLive, Pass, Imported, Take, TakeOne, Judge, UniqueIds, ImportOne;
  }

  lemma TwoTaken(db: Db, index: Index, t: Trade)
    ensures Take(db, index, [t, t]) == TakeOne(db, TakeOne(db, Draft(db, []), index, t), index, t)
  {
    assert [t, t][..1] == [t] && [t][..0] == [];
    assert Take(db, index, [t]) == TakeOne(db, Take(db, index, []), index, t);
    hide TakeOne;
  }

  lemma TwiceTaken(db: Db, index: Index, k: OrderKey, t: Trade)
    requires t.orderId in index && index[t.orderId] == k && k in db.orders && 0 <= db.orders[k].filled
    requires t.executionId != "" && t.quantity > 0 && !Imported(db.executions, k.user, Some(Exchange(t.executionId)))
    requires db.orders[k].filled + 2 * t.quantity <= db.orders[k].quantity
    ensures !UniqueIds(TakeOne(db, TakeOne(db, Draft(db, []), index, t), index, t).db)
    ensures |ImportOne(ImportOne(db, index, t), index, t).executions| == |db.executions| + 1
  {
    hide PositionAfter, Blend, PositionFound;
    var e, n := Execution(k, Some(Exchange(t.executionId)), db.orders[k].side, t.quantity, t.price), |db.executions|;
    var once := TakeOne(db, Draft(db, []), index, t);
    assert once.db.executions == db.executions + [e];
    var twice := TakeOne(db, once, index, t).db;
    assert twice.executions == db.executions + [e] + [e];
    assert twice.executions[n] == twice.executions[n + 1] == e;
    var booked := ImportOne(db, index, t);
    assert booked.executions[n] == e && e in booked.executions;
  }
}
