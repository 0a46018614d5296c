/** The trading code in its own form: a database session whose rows the operations update in place.
    Every method is proved to do exactly what the specification functions say. */
module Session {
  import opened Ledger
  import opened Options
  import opened Paper
  import opened Live
  import opened Reconcile

  /** An order, position and execution table, as one session sees them (its own writes included). */
  class TradingSession {
    const cfg: Settings
    var orders: map<OrderKey, Order>
    var executions: seq<Execution>
    var positions: map<PositionKey, Position>
    var halts: set<Scope>

    function Rows(): Db
      reads this
    {
      Db(orders, executions, positions, halts)
    }

    constructor (cfg: Settings)
      ensures this.cfg == cfg && Rows() == Db(map[], [], map[], {})
    {
      this.cfg := cfg;
      orders, executions, positions, halts := map[], [], map[], {};
    }

    /** What a session does when an error leaves it: uncommitted writes are gone. */
    method Rollback(saved: Db)
      modifies this
      ensures Rows() == saved
    {
      orders, executions, positions, halts := saved.orders, saved.executions, saved.positions, saved.halts;
    }

    /** `_position`: the row of the order's position, added when there is none. */
    method FetchPosition(pk: PositionKey) returns (p: Position)
      modifies this`positions
      ensures p == old(PositionAt(Rows(), pk))
      ensures positions == old(positions)[pk := p]
    {
      if pk in positions {
        p := positions[pk];
      } else {
        p := FLAT;
      }
      positions := positions[pk := p];
    }

    /** The second half of `apply_execution`: open, add, reduce, close or flip. */
    method MovePosition(pk: PositionKey, signed: int, price: real)
      requires signed != 0
      modifies this`positions
      ensures positions == old(positions)[pk := PositionAfter(old(PositionAt(Rows(), pk)), signed, price)]
    {
      hide Blend, Gain;
      var position := FetchPosition(pk);
      var held, next := position.quantity, position.quantity + signed;
      if held == 0 || (held > 0) == (signed > 0) {
        position := position.(average := Blend(position.average, Abs(held), price, Abs(signed), Abs(next)));
      } else {
        var closing := if Abs(held) < Abs(signed) then Abs(held) else Abs(signed);
        var direction := if held > 0 then 1 else -1;
        position := position.(realized := position.realized + Gain(closing, price, position.average, direction));
        if next == 0 {
          position := position.(average := 0.0);
        } else if (held > 0) != (next > 0) {
          position := position.(average := price);
        }
      }
      position := position.(quantity := next, lastPrice := Some(price));
      positions := positions[pk := position];
      assert positions == old(positions)[pk := position];
    }

    method ApplyExecution(k: OrderKey, quantity: int, price: real, id: Option<ExecutionId>) returns (ok: bool)
      requires k in orders && orders[k].filled >= 0
      modifies this
      ensures ok == old(Ledger.ApplyExecution(Rows(), k, quantity, price, id)).Some?
      ensures Rows() == if ok then old(Ledger.ApplyExecution(Rows(), k, quantity, price, id)).value else old(Rows())
    {
      hide Blend, PositionAfter;
      if Truthy(id) && exists e :: e in executions && e.order.user == k.user && e.id == id {
        return true;
      }
      if quantity <= 0 || orders[k].filled + quantity > orders[k].quantity {
        return false;
      }
      var order := orders[k];
      executions := executions + [Execution(k, id, order.side, quantity, price)];
      var previous := order.filled;
      order := order.(filled := previous + quantity);
      var average := if order.averageFill.Some? then order.averageFill.value else 0.0;
      order := order.(averageFill := Some(Blend(average, previous, price, quantity, order.filled)));
      order := order.(status := if order.filled == order.quantity then Status.Filled else PartiallyFilled);
      if order.status == Status.Filled {
        order := order.(completed := true);
      }
      orders := orders[k := order];
      MovePosition(PositionKeyOf(k, order), Signed(order.side, quantity), price);
      return true;
    }

    /** Fills what is left of one order at a quote. */
    method Fill(k: OrderKey, q: Quote) returns (ok: bool)
      requires k in orders && orders[k].filled >= 0
      modifies this
      ensures ok == old(FillRest(cfg, Rows(), k, q)).Some?
      ensures Rows() == if ok then old(FillRest(cfg, Rows(), k, q)).value else old(Rows())
    {
      var order := orders[k];
      ok := ApplyExecution(k, order.quantity - order.filled, FillPrice(order, q, cfg.slippageBps), FreshId(Rows()));
    }

    method Place(user: string, t: Ticket, quote: Option<Quote>, now: real) returns (r: Option<Error>)
      modifies this
      ensures match old(PlacePaper(cfg, Rows(), user, t, quote, now)) {
        case Inserted(db) => r == None && Rows() == db
        case Existing => r == None && Rows() == old(Rows())
        case Refused(error) => r == Some(error) && Rows() == old(Rows())
      }
    {
      var k := OrderKey(user, t.client);
      if cfg.mode != PaperMode {
        return Some(PaperTradingDisabled);
      }
      if k in orders {
        return if Matches(orders[k], t) then None else Some(IdempotencyConflict);
      }
      var check := PlaceCheck(cfg, Rows(), user, t, quote, now);
      if check.Some? {
        return check;
      }
      var saved := Rows();
      orders := orders[k := NewOrder(t, Mode.Paper, Open)];
      if quote.Some? && IsCrossing(orders[k], quote.value) {
        var ok := Fill(k, quote.value);
        if !ok {
          Rollback(saved);
          return Some(InvalidExecutionQuantity);
        }
      } else if t.validity == Ioc {
        orders := orders[k := orders[k].(status := Canceled, completed := true)];
      }
      return None;
    }

    method Cancel(k: OrderKey) returns (r: Option<Error>)
      requires k in orders
      modifies this
      ensures match old(CancelPaper(Rows(), k)) {
        case Changed(db) => r == None && Rows() == db
        case Failed(error) => r == Some(error) && Rows() == old(Rows())
      }
    {
      var order := orders[k];
      if order.mode != Mode.Paper || order.status !in OpenStatuses() {
        return Some(OrderNotCancelable);
      }
      order := order.(status := Canceled);
      order := order.(completed := true);
      order := order.(version := order.version + 1);
      orders := orders[k := order];
      return None;
    }

    method Modify(k: OrderKey, quantity: int, limitPrice: real, quote: Option<Quote>) returns (r: Option<Error>)
      requires k in orders && orders[k].filled >= 0
      modifies this
      ensures match old(ModifyPaper(cfg, Rows(), k, quantity, limitPrice, quote)) {
        case Changed(db) => r == None && Rows() == db
        case Failed(error) => r == Some(error) && Rows() == old(Rows())
      }
    {
      var order := orders[k];
      if order.mode != Mode.Paper || order.status !in OpenStatuses() || order.orderType != Limit {
        return Some(OrderNotModifiable);
      }
      if quantity < (if order.filled > 1 then order.filled else 1) {
        return Some(QuantityBelowFilled);
      }
      var saved := Rows();
      order := order.(quantity := quantity, limitPrice := Some(limitPrice), version := order.version + 1);
      orders := orders[k := order];
      if quote.Some? && IsCrossing(order, quote.value) {
        var ok := Fill(k, quote.value);
        if !ok {
          Rollback(saved);
          return Some(InvalidExecutionQuantity);
        }
      }
      return None;
    }

    /** Fills every selected order that crosses; `keys` is the order the query returned. */
    method ProcessQuote(user: string, q: Quote, keys: seq<OrderKey>) returns (filled: nat)
      requires Lists(keys, Selected(Rows(), user, q.instrument))
      requires forall k :: k in orders ==> orders[k].filled >= 0
      modifies this
      ensures Rows() == old(Paper.ProcessQuote(cfg, Rows(), q, keys))
      ensures filled == old(if FillAll(cfg, Rows(), q, keys).Some? then Crossings(Rows(), q, keys) else 0)
    {
      hide FillRest, IsCrossing, Selected;
      var saved := Rows();
      filled := 0;
      ListedRows(saved, user, q, keys);
      assert keys[..0] == [];
      for n := 0 to |keys|
        invariant filled == Crossings(saved, q, keys[..n])
        invariant forall i :: n <= i < |keys| ==>
          keys[i] in saved.orders && keys[i] in orders && orders[keys[i]] == saved.orders[keys[i]]
        invariant FillAll(cfg, saved, q, keys[..n]) == Some(Rows())
        invariant forall k :: k in saved.orders ==> k in orders
        invariant forall k :: k in orders ==> orders[k].filled >= 0
      {
        var k := keys[n];
        assert keys[..n + 1][..n] == keys[..n];
        if IsCrossing(orders[k], q) {
          FillsOneRow(cfg, Rows(), k, q);
          var ok := Fill(k, q);
          if !ok {
            NeverFillsAll(cfg, saved, q, keys, n + 1);
            Rollback(saved);
            return 0;
          }
          filled := filled + 1;
        }
      }
      assert keys[..|keys|] == keys;
    }

    /** `by_broker` over the selected rows. */
    method IndexBrokerIds(keys: seq<OrderKey>) returns (index: Index)
      requires forall k :: k in keys ==> k in orders
      ensures index == InitialIndex(Rows(), keys)
    {
      index := map[];
      assert keys[..0] == [];
      for n := 0 to |keys|
        invariant index == InitialIndex(Rows(), keys[..n])
      {
        assert keys[..n + 1][..n] == keys[..n];
        if HasBroker(orders[keys[n]]) {
          index := index[orders[keys[n]].brokerId.value := keys[n]];
        }
      }
      assert keys[..|keys|] == keys;
    }

    /** First loop of `_apply`: broker ids learned by correlation. */
    method LearnIds(index: Index, selected: set<OrderKey>, user: string, items: seq<Item>) returns (byBroker: Index)
      requires Into(index, selected) && selected <= orders.Keys
      modifies this`orders
      ensures Learned(Rows(), byBroker) == old(Learn(Learned(Rows(), index), selected, user, items))
      ensures Into(byBroker, selected) && orders.Keys == old(orders.Keys)
      ensures forall k :: k in orders ==> orders[k].filled == old(orders)[k].filled
    {
      byBroker := index;
      ghost var start := Rows();
      assert items[..0] == [];
      for n := 0 to |items|
        invariant Into(byBroker, selected) && orders.Keys == start.orders.Keys
        invariant forall k :: k in orders ==> orders[k].filled == start.orders[k].filled
        invariant Learned(Rows(), byBroker) == Learn(Learned(start, index), selected, user, items[..n])
      {
        var item := items[n];
        assert items[..n + 1][..n] == items[..n];
        var found := Find(byBroker, selected, user, item);
        if found.Some? && item.orderId != "" && !HasBroker(orders[found.value]) {
          orders := orders[found.value := orders[found.value].(brokerId := Some(item.orderId))];
          byBroker := byBroker[item.orderId := found.value];
        }
      }
      assert items[..|items|] == items;
    }

    /** Second loop: trades imported once each; a refused one marks its order UNKNOWN. */
    method ImportTrades(index: Index, selected: set<OrderKey>, trades: seq<Trade>)
      requires Into(index, selected) && selected <= orders.Keys
      requires forall k :: k in orders ==> orders[k].filled >= 0
      modifies this
      ensures Rows() == old(Import(Rows(), index, trades)) && orders.Keys == old(orders.Keys)
    {
      ghost var start := Rows();
      assert trades[..0] == [];
      for n := 0 to |trades|
        invariant orders.Keys == start.orders.Keys
        invariant forall k :: k in orders ==> orders[k].filled >= 0
        invariant Rows() == Import(start, index, trades[..n])
      {
        var trade := trades[n];
        assert trades[..n + 1][..n] == trades[..n];
        if trade.orderId in index && trade.executionId != "" {
          var k := index[trade.orderId];
          var ok := ApplyExecution(k, trade.quantity, trade.price, Some(Exchange(trade.executionId)));
          if !ok {
            orders := orders[k := orders[k].(status := Unknown,
                                             reason := Some("RECONCILIATION_INVALID_EXECUTION_QUANTITY"))];
          }
        }
      }
      assert trades[..|trades|] == trades;
    }

    /** Third loop: the order book's status, unless the trade book is short of a TRADED order. */
    method JudgeOrders(index: Index, selected: set<OrderKey>, user: string, items: seq<Item>)
      requires Into(index, selected) && selected <= orders.Keys
      modifies this`orders
      ensures Rows() == old(Judge(Rows(), index, selected, user, items))
    {
      ghost var start := Rows();
      assert items[..0] == [];
      for n := 0 to |items|
        invariant orders.Keys == start.orders.Keys
        invariant Rows() == Judge(start, index, selected, user, items[..n])
      {
        var item := items[n];
        assert items[..n + 1][..n] == items[..n];
        var found := Find(index, selected, user, item);
        if found.Some? {
          var order := orders[found.value];
          var status := MapStatus(item.status);
          if status == Status.Filled && order.filled != order.quantity {
            order := order.(status := Unknown, reason := Some("TRADE_BOOK_INCOMPLETE"));
          } else {
            order := order.(status := status);
            if status == Rejected && item.reason != "" {
              order := order.(reason := Some(if |item.reason| > 120 then item.reason[..120] else item.reason));
            }
            if status in Terminal() {
              order := order.(completed := true);
            }
          }
          orders := orders[found.value := order];
        }
      }
      assert items[..|items|] == items;
    }

    /** The reconciler's `_apply`. */
    method ApplyBooks(user: string, keys: seq<OrderKey>, items: seq<Item>, trades: seq<Trade>)
      requires Lists(keys, SelectedLive(Rows(), user))
      requires forall k :: k in orders ==> orders[k].filled >= 0
      modifies this
      ensures Rows() == old(Pass(Rows(), user, keys, items, trades))
    {
      var selected: set<OrderKey> := set k | k in keys;
      assert selected == SelectedLive(Rows(), user);
      var index := IndexBrokerIds(keys);
      InitialInto(Rows(), keys, selected);
      index := LearnIds(index, selected, user, items);
      ImportTrades(index, selected, trades);
      JudgeOrders(index, selected, user, items);
    }

    /** Live placement: commit the row, send it once, commit the reply. */
    method PlaceAtBroker(user: string, t: Ticket, quote: Option<Quote>, now: real, gate: bool, connected: bool, reply: Reply)
      returns (r: Option<Error>, sent: bool)
      requires cfg.mode == LiveMode
      modifies this
      ensures match old(PlaceLive(cfg, gate, connected, Rows(), user, t, quote, now)) {
        case Inserted(db) => sent && r == Raised(reply) && Rows() == ReplyPlace(db, OrderKey(user, t.client), reply)
        case Existing => !sent && r == None && Rows() == old(Rows())
        case Refused(error) => !sent && r == Some(error) && Rows() == old(Rows())
      }
    {
      sent := false;
      var k := OrderKey(user, t.client);
      if !gate {
        return Some(LiveGateClosed), false;
      }
      if k in orders {
        return if Matches(orders[k], t) then None else Some(IdempotencyConflict), false;
      }
      if t.orderType == Limit && t.limitPrice.None? {
        return Some(LimitPriceRequired), false;
      }
      var check := QuoteCheck(cfg, quote, now);
      if check.None? {
        check := RiskCheck(cfg, Rows(), user, t, quote.value.ltp, Mode.Live);
      }
      if check.None? && !connected {
        check := Some(ConnectionRequired);
      }
      if check.Some? {
        return check, false;
      }
      orders := orders[k := NewOrder(t, Mode.Live, Pending)];
      sent := true;
      var order := orders[k];
      match reply {
        case Response(orderId, status) =>
          order := order.(brokerId := if orderId != "" then Some(orderId) else None);
          order := order.(status := MapStatus(status));
          if order.status in {Rejected, Canceled, Expired} {
            order := order.(completed := true);
          }
          orders := orders[k := order];
          return None, true;
        case BrokerError(code, ambiguous) =>
          order := order.(status := if ambiguous then Unknown else Rejected);
          order := order.(reason := Some(code));
          if !ambiguous {
            order := order.(completed := true);
          }
          orders := orders[k := order];
          return Some(BrokerFailure(code)), true;
      }
    }

    /** Live cancellation: commit CANCEL_PENDING, ask the broker once, commit what it says or go back to the old status. */
    method CancelAtBroker(k: OrderKey, gate: bool, connected: bool, reply: Reply) returns (r: Option<Error>, sent: bool)
      requires k in orders
      modifies this
      ensures match old(StartCancel(gate, connected, Rows(), k)) {
        case Changed(db) =>
          && sent == (old(orders)[k].mode == Mode.Live) && r == (if sent then Raised(reply) else None)
          && Rows() == if sent then ReplyCancel(db, k, old(orders)[k].status, reply) else db
        case Failed(error) => !sent && r == Some(error) && Rows() == old(Rows())
      }
    {
      if orders[k].status !in OpenStatuses() {
        return Some(OrderNotCancelable), false;
      }
      if orders[k].mode == Mode.Paper {
        r := Cancel(k);
        return r, false;
      }
      if !gate {
        return Some(LiveGateClosed), false;
      }
      if !connected {
        return Some(ConnectionRequired), false;
      }
      var prior := orders[k].status;
      orders := orders[k := orders[k].(status := CancelPending, version := orders[k].version + 1)];
      var order := orders[k];
      match reply {
        case Response(_, status) =>
          order := order.(status := MapStatus(if status != "" then status else "CANCELLED"));
          if order.status == Canceled {
            order := order.(completed := true);
          }
        case BrokerError(code, ambiguous) =>
          order := order.(status := if ambiguous then Unknown else prior, reason := Some(code));
          orders := orders[k := order];
          return Some(BrokerFailure(code)), true;
      }
      orders := orders[k := order];
      return None, true;
    }

    /** Live modification: the new terms are in the row while the broker is asked, and come out again on an error. */
    method ModifyAtBroker(k: OrderKey, quantity: int, limitPrice: real, gate: bool, connected: bool, reply: Reply)
      returns (r: Option<Error>)
      requires k in orders && orders[k].mode == Mode.Live
      modifies this
      ensures match old(ModifyLive(gate, connected, Rows(), k, quantity, limitPrice, reply)) {
        case Changed(db) => r == Raised(reply) && Rows() == db
        case Failed(error) => r == Some(error) && Rows() == old(Rows())
      }
    {
      if !gate {
        return Some(LiveGateClosed);
      }
      var order := orders[k];
      if order.status !in OpenStatuses() || order.orderType != Limit {
        return Some(OrderNotModifiable);
      }
      if quantity < (if order.filled > 1 then order.filled else 1) {
        return Some(QuantityBelowFilled);
      }
      if !connected {
        return Some(ConnectionRequired);
      }
      var previousQuantity, previousLimit := order.quantity, order.limitPrice;
      order := order.(quantity := quantity, limitPrice := Some(limitPrice));
      match reply {
        case Response(_, status) => order := order.(status := MapStatus(status), version := order.version + 1);
        case BrokerError(code, ambiguous) =>
          order := order.(quantity := previousQuantity, limitPrice := previousLimit);
          order := order.(status := if ambiguous then Unknown else order.status, reason := Some(code));
          orders := orders[k := order];
          return Some(BrokerFailure(code));
      }
      orders := orders[k := order];
      return None;
    }
  }

  /** The error a broker call ends with. */
  function Raised(reply: Reply): Option<Error> {
    if reply.BrokerError? then Some(BrokerFailure(reply.code)) else None
  }

  /** How many of the listed orders the quote crosses. */
  function Crossings(db: Db, q: Quote, keys: seq<OrderKey>): nat {
    if keys == [] then 0
    else
      var k := keys[|keys| - 1];
      Crossings(db, q, keys[..|keys| - 1]) + if k in db.orders && IsCrossing(db.orders[k], q) then 1 else 0
  }

  lemma ListedRows(db: Db, user: string, q: Quote, keys: seq<OrderKey>)
    requires Lists(keys, Selected(db, user, q.instrument))
    ensures forall i :: 0 <= i < |keys| ==> keys[i] in db.orders
  {
    assert forall i :: 0 <= i < |keys| ==> keys[i] in Selected(db, user, q.instrument);
  }

  lemma FillsOneRow(cfg: Settings, db: Db, k: OrderKey, q: Quote)
    requires k in db.orders && db.orders[k].filled >= 0
    ensures var r := FillRest(cfg, db, k, q);
      r.Some? ==> k in r.value.orders && r.value.orders == db.orders[k := r.value.orders[k]] && r.value.orders[k].filled >= 0
  {
    hide FillPrice, PositionAfter, Blend;
  }

  /** Once one fill is refused the loop never succeeds. */
  lemma {:induction false} NeverFillsAll(cfg: Settings, db: Db, q: Quote, keys: seq<OrderKey>, n: nat)
    requires n <= |keys| && FillAll(cfg, db, q, keys[..n]).None?
    ensures FillAll(cfg, db, q, keys).None?
    decreases |keys|
  {
    if n == |keys| {
      assert keys[..n] == keys;
    } else {
      assert keys[..|keys| - 1][..n] == keys[..n];
      NeverFillsAll(cfg, db, q, keys[..|keys| - 1], n);
    }
  }
}
