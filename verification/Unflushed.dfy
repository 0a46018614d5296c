/** A session that does not flush before it queries, as production opens them (backend/app/database.py:12): a position row
    added in the transaction is not found by the next lookup, and two rows for one position fail the commit. */
module Unflushed {
  import opened Ledger
  import opened Options
  import opened Paper
  import opened Reconcile
  import R = Runs

  /** The transaction so far: the rows as the session holds them, and the position rows it has added. */
  datatype Draft = Draft(db: Db, added: seq<PositionKey>)

  /** The row `_position` works on: a stored one with its changes so far, or a new one each time. */
  function PositionFound(stored: Db, d: Draft, pk: PositionKey): Position {
    if pk in stored.positions then PositionAt(d.db, pk) else FLAT
  }

  /** `apply_execution` for a whole paper fill in such a session. */
  function Fill(cfg: Settings, stored: Db, d: Draft, k: OrderKey, q: Quote): Option<Draft>
    requires k in d.db.orders && d.db.orders[k].filled >= 0
  {
    var o := d.db.orders[k];
    var quantity, price := o.quantity - o.filled, FillPrice(o, q, cfg.slippageBps);
    var pk := PositionKeyOf(k, o);
    if !Accepts(o, quantity) then None
    else
      Some(Draft(
        d.db.(orders := d.db.orders[k := FillOrder(o, quantity, price)],
              executions := d.db.executions + [Execution(k, FreshId(d.db), o.side, quantity, price)],
              positions := d.db.positions[
                pk := PositionAfter(PositionFound(stored, d, pk), Signed(o.side, quantity), price)]),
        d.added + if pk in stored.positions then [] else [pk]))
  }

  function FillAll(cfg: Settings, stored: Db, q: Quote, keys: seq<OrderKey>): Option<Draft> {
    if keys == [] then Some(Draft(stored, []))
    else
      var k := keys[|keys| - 1];
      match FillAll(cfg, stored, q, keys[..|keys| - 1])
      case None => None
      case Some(d) =>
        if k in d.db.orders && d.db.orders[k].filled >= 0 && IsCrossing(d.db.orders[k], q)
        then Fill(cfg, stored, d, k, q) else Some(d)
  }

  predicate NoRepeat(added: seq<PositionKey>) {
    forall i, j :: 0 <= i < j < |added| ==> added[i] != added[j]
  }

  /** The commit meets the unique constraint of the positions table; an error leaves everything as it was stored. */
  function ProcessQuote(cfg: Settings, stored: Db, q: Quote, keys: seq<OrderKey>): Db {
    match FillAll(cfg, stored, q, keys)
    case None => stored
    case Some(d) => if NoRepeat(d.added) then d.db else stored
  }

  /** Two of the queried orders cross and belong to one position that has no row yet. */
  predicate Collision(db: Db, q: Quote, keys: seq<OrderKey>) {
    exists i, j :: 0 <= i < j < |keys| && Clash(db, q, keys[i], keys[j])
  }

  predicate Clash(db: Db, q: Quote, a: OrderKey, b: OrderKey) {
    Opens(db, q, a) && Opens(db, q, b) && PositionKeyOf(a, db.orders[a]) == PositionKeyOf(b, db.orders[b])
  }

  predicate Opens(db: Db, q: Quote, k: OrderKey) {
    k in db.orders && IsCrossing(db.orders[k], q) && PositionKeyOf(k, db.orders[k]) !in db.positions
  }

  /** The rows the transaction adds. */
  function Added(db: Db, q: Quote, keys: seq<OrderKey>): seq<PositionKey> {
    if keys == [] then []
    else
      var k := keys[|keys| - 1];
      Added(db, q, keys[..|keys| - 1]) + if Opens(db, q, k) then [PositionKeyOf(k, db.orders[k])] else []
  }

  /** The draft has the flushing session's orders, and all its rows while no position row was added twice. */
  ghost predicate Follows(stored: Db, flushed: Db, d: Draft, q: Quote, keys: seq<OrderKey>) {
    && d.added == Added(stored, q, keys)
    && d.db.orders == flushed.orders
    && |d.db.executions| == |flushed.executions|
    && (forall pk :: pk in d.db.positions <==> pk in stored.positions || pk in d.added)
    && (NoRepeat(d.added) ==> d.db == flushed)
  }

  predicate Resting(db: Db, keys: seq<OrderKey>) {
    && (forall i :: 0 <= i < |keys| ==>
          keys[i] in db.orders && db.orders[keys[i]].mode == Mode.Paper && db.orders[keys[i]].status == Open)
    && (forall i, j :: 0 <= i < j < |keys| ==> keys[i] != keys[j])
  }

  lemma FlushedFill(cfg: Settings, db: Db, k: OrderKey, q: Quote)
    requires Sound(db) && k in db.orders && db.orders[k].filled >= 0 && Accepts(db.orders[k], db.orders[k].quantity - db.orders[k].filled)
    ensures var o := db.orders[k];
      var quantity, price := o.quantity - o.filled, FillPrice(o, q, cfg.slippageBps);
      FillRest(cfg, db, k, q) == Some(db.(
        orders := db.orders[k := FillOrder(o, quantity, price)],
        executions := db.executions + [Execution(k, FreshId(db), o.side, quantity, price)],
        positions := db.positions[
          PositionKeyOf(k, o) := PositionAfter(PositionAt(db, PositionKeyOf(k, o)), Signed(o.side, quantity), price)]))
  {
    hide FillPrice, FillOrder, PositionAfter;
    FreshIsUnseen(db, k.user);
  }

  /** A position row that was not added before is found as the flushing session finds it. */
  lemma FoundAlike(stored: Db, flushed: Db, d: Draft, q: Quote, init: seq<OrderKey>, pk: PositionKey)
    requires Follows(stored, flushed, d, q, init)
    requires NoRepeat(d.added + if pk in stored.positions then [] else [pk])
    ensures d.db == flushed && PositionFound(stored, d, pk) == PositionAt(flushed, pk)
  {
    var more := d.added + if pk in stored.positions then [] else [pk];
    assert forall i :: 0 <= i < |d.added| ==> more[i] == d.added[i];
    if pk !in stored.positions {
      assert more[|d.added|] == pk;
      assert pk !in d.added;
    }
  }

  lemma FillFollows(cfg: Settings, stored: Db, flushed: Db, d: Draft, q: Quote, init: seq<OrderKey>, k: OrderKey)
    requires Follows(stored, flushed, d, q, init) && Sound(flushed)
    requires k in stored.orders && k in flushed.orders && flushed.orders[k] == stored.orders[k]
    requires flushed.orders[k].filled == 0 && flushed.orders[k].quantity >= 1 && IsCrossing(stored.orders[k], q)
    ensures Fill(cfg, stored, d, k, q).Some? && FillRest(cfg, flushed, k, q).Some?
    ensures Follows(stored, FillRest(cfg, flushed, k, q).value, Fill(cfg, stored, d, k, q).value, q, init + [k])
  {
    FlushedFill(cfg, flushed, k, q);
    hide Sound, FillPrice, FillOrder, PositionAfter, FillRest, IsCrossing, NoRepeat, PositionFound, PositionAt, Added;
    AddedGrows(stored, q, init, k);
    var pk := PositionKeyOf(k, stored.orders[k]);
    var d2 := Fill(cfg, stored, d, k, q).value;
    if NoRepeat(d2.added) {
      FoundAlike(stored, flushed, d, q, init, pk);
    }
  }

  /** When the loop reaches an order it is still as it was stored. */
  lemma BeforeLast(cfg: Settings, stored: Db, q: Quote, init: seq<OrderKey>, k: OrderKey)
    requires Sound(stored) && PaperRules(stored) && Resting(stored, init + [k])
    ensures Resting(stored, init) && k in stored.orders && Paper.FillAll(cfg, stored, q, init).Some?
    ensures var flushed := Paper.FillAll(cfg, stored, q, init).value;
      Sound(flushed) && k in flushed.orders && flushed.orders[k] == stored.orders[k]
      && flushed.orders[k].filled == 0 && flushed.orders[k].quantity >= 1
  {
    hide Sound, FairFills, IsCrossing, Paper.FillAll;
    var keys, n := init + [k], |init|;
    assert forall i :: 0 <= i < n ==> keys[i] == init[i];
    assert keys[n] == k;
    FillAllKeepsRules(cfg, stored, q, init);
    assert AllOrNothing(stored.orders[k]);
  }

  lemma {:induction false} LoopFollows(cfg: Settings, stored: Db, q: Quote, keys: seq<OrderKey>)
    requires Sound(stored) && PaperRules(stored) && Resting(stored, keys)
    ensures FillAll(cfg, stored, q, keys).Some? && Paper.FillAll(cfg, stored, q, keys).Some?
    ensures Follows(stored, Paper.FillAll(cfg, stored, q, keys).value, FillAll(cfg, stored, q, keys).value, q, keys)
    decreases |keys|
  {
    hide Sound, PaperRules, Resting, IsCrossing, FillPrice, FillOrder, PositionAfter, Fill, FillRest;
    if keys != [] {
      var n := |keys| - 1;
      var init, k := keys[..n], keys[n];
      assert keys == init + [k];
      BeforeLast(cfg, stored, q, init, k);
      LoopFollows(cfg, stored, q, init);
      var flushed, d := Paper.FillAll(cfg, stored, q, init).value, FillAll(cfg, stored, q, init).value;
      SameOrders(stored, flushed, d, q, init);
      hide Follows;
      if IsCrossing(stored.orders[k], q) {
        FillFollows(cfg, stored, flushed, d, q, init, k);
      } else {
        SkipFollows(stored, flushed, d, q, init, k);
      }
    }
  }

  lemma SameOrders(stored: Db, flushed: Db, d: Draft, q: Quote, init: seq<OrderKey>)
    requires Follows(stored, flushed, d, q, init)
    ensures d.db.orders == flushed.orders
  {
  }

  lemma SkipFollows(stored: Db, flushed: Db, d: Draft, q: Quote, init: seq<OrderKey>, k: OrderKey)
    requires Follows(stored, flushed, d, q, init) && k in stored.orders && !IsCrossing(stored.orders[k], q)
    ensures Follows(stored, flushed, d, q, init + [k])
  {
    assert (init + [k])[..|init|] == init;
    hide IsCrossing;
  }

  lemma {:induction false} AddedIs(db: Db, q: Quote, keys: seq<OrderKey>, pk: PositionKey)
    ensures pk in Added(db, q, keys)
       <==> exists i :: 0 <= i < |keys| && Opens(db, q, keys[i]) && PositionKeyOf(keys[i], db.orders[keys[i]]) == pk
    decreases |keys|
  {
    if keys != [] {
      var n := |keys| - 1;
      AddedIs(db, q, keys[..n], pk);
      hide IsCrossing;
      if exists i :: 0 <= i < n && Opens(db, q, keys[..n][i]) && PositionKeyOf(keys[..n][i], db.orders[keys[..n][i]]) == pk {
        var i :| 0 <= i < n && Opens(db, q, keys[..n][i]) && PositionKeyOf(keys[..n][i], db.orders[keys[..n][i]]) == pk;
        assert keys[i] == keys[..n][i];
      }
      if exists i :: 0 <= i < |keys| && Opens(db, q, keys[i]) && PositionKeyOf(keys[i], db.orders[keys[i]]) == pk {
        var i :| 0 <= i < |keys| && Opens(db, q, keys[i]) && PositionKeyOf(keys[i], db.orders[keys[i]]) == pk;
        assert i < n ==> keys[i] == keys[..n][i];
      }
    }
  }

  lemma {:induction false} RepeatIsCollision(db: Db, q: Quote, keys: seq<OrderKey>)
    ensures NoRepeat(Added(db, q, keys)) <==> !Collision(db, q, keys)
    decreases |keys|
  {
    if keys != [] {
      var n := |keys| - 1;
      var init, k := keys[..n], keys[n];
      RepeatIsCollision(db, q, init);
      CollisionGrows(db, q, init, k);
      AddedGrows(db, q, init, k);
      assert keys == init + [k];
      LastAdded(db, q, init, k);
      hide IsCrossing, Added, NoRepeat, Collision, Clash, Opens;
    }
  }

  lemma LastAdded(db: Db, q: Quote, init: seq<OrderKey>, k: OrderKey)
    ensures NoRepeat(Added(db, q, init) + if Opens(db, q, k) then [PositionKeyOf(k, db.orders[k])] else [])
       <==> NoRepeat(Added(db, q, init)) && !exists i :: 0 <= i < |init| && Clash(db, q, init[i], k)
  {
    hide IsCrossing, Added;
    if Opens(db, q, k) {
      var pk := PositionKeyOf(k, db.orders[k]);
      AddedIs(db, q, init, pk);
      LastRepeats(Added(db, q, init), pk);
      assert forall i :: 0 <= i < |init| ==>
        (Clash(db, q, init[i], k) <==> Opens(db, q, init[i]) && PositionKeyOf(init[i], db.orders[init[i]]) == pk);
    } else {
      assert Added(db, q, init) + [] == Added(db, q, init);
    }
  }

  lemma LastRepeats(before: seq<PositionKey>, pk: PositionKey)
    ensures NoRepeat(before + [pk]) <==> NoRepeat(before) && pk !in before
  {
    var after := before + [pk];
    assert forall i :: 0 <= i < |before| ==> after[i] == before[i];
    if pk in before {
      var i :| 0 <= i < |before| && before[i] == pk;
      assert after[i] == after[|before|];
    }
  }

  lemma AddedGrows(db: Db, q: Quote, init: seq<OrderKey>, k: OrderKey)
    ensures Added(db, q, init + [k]) == Added(db, q, init) + if Opens(db, q, k) then [PositionKeyOf(k, db.orders[k])] else []
  {
    assert (init + [k])[..|init|] == init;
    hide Opens;
  }

  lemma CollisionGrows(db: Db, q: Quote, init: seq<OrderKey>, k: OrderKey)
    ensures Collision(db, q, init + [k])
       <==> Collision(db, q, init) || exists i :: 0 <= i < |init| && Clash(db, q, init[i], k)
  {
    hide Clash;
    var keys := init + [k];
    assert forall i :: 0 <= i < |init| ==> keys[i] == init[i];
    assert keys[|init|] == k;
    if Collision(db, q, keys) {
      var i, j :| 0 <= i < j < |keys| && Clash(db, q, keys[i], keys[j]);
      assert Clash(db, q, init[i], if j < |init| then init[j] else k);
    }
    if Collision(db, q, init) {
      var i, j :| 0 <= i < j < |init| && Clash(db, q, init[i], init[j]);
      assert Clash(db, q, keys[i], keys[j]);
    }
    if exists i :: 0 <= i < |init| && Clash(db, q, init[i], k) {
      var i :| 0 <= i < |init| && Clash(db, q, init[i], k);
      assert Clash(db, q, keys[i], keys[|init|]);
    }
  }

  /** Main result: without flushing, a quote does what it should exactly when no two crossing orders belong to one position
      without a row; otherwise it does nothing, now and whenever it is repeated. */
  lemma QuoteCommitsExactly(cfg: Settings, db: Db, user: string, q: Quote, keys: seq<OrderKey>)
    requires Good(db) && Lists(keys, Selected(db, user, q.instrument))
    ensures ProcessQuote(cfg, db, q, keys) == if Collision(db, q, keys) then db else Paper.ProcessQuote(cfg, db, q, keys)
  {
    R.SelectedAreOpen(db, user, q, keys);
    LoopFollows(cfg, db, q, keys);
    RepeatIsCollision(db, q, keys);
    hide FillAll, Paper.FillAll, Added, Collision, Good;
  }

  /** In the failing case crossing orders stay open. */
  lemma CollisionLeavesCrossing(cfg: Settings, db: Db, user: string, q: Quote, keys: seq<OrderKey>)
    requires Good(db) && Lists(keys, Selected(db, user, q.instrument)) && Collision(db, q, keys)
    ensures var db2 := ProcessQuote(cfg, db, q, keys);
      exists k :: k in db2.orders && k.user == user && db2.orders[k].status == Open && IsCrossing(db2.orders[k], q)
  {
    QuoteCommitsExactly(cfg, db, user, q, keys);
    R.SelectedAreOpen(db, user, q, keys);
    var i, j :| 0 <= i < j < |keys| && Clash(db, q, keys[i], keys[j]);
    assert keys[i] in Selected(db, user, q.instrument);
    hide Good, IsCrossing, ProcessQuote;
    assert IsCrossing(db.orders[keys[i]], q);
  }
}
