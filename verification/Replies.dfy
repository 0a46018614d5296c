/** What the broker's words do to an order: the answers to placing, cancelling and modifying, and the status column of the
    order book (backend/app/trading/service.py, dhan.py, reconcile.py). */
module Replies {
  import opened Ledger
  import opened Options
  import opened Paper
  import opened Live
  import opened Reconcile

  // ---------------------------------------------------------------- status texts

  /** The text is this word, in any letter case; `word` is written in capitals. */
  predicate Spells(text: string, word: string) {
    |text| == |word|
    && forall i :: 0 <= i < |word| ==>
         text[i] == word[i] || ('A' <= word[i] <= 'Z' && text[i] as int == word[i] as int + 32)
  }

  lemma UpperSpells(text: string, word: string)
    requires forall i :: 0 <= i < |word| ==> !('a' <= word[i] <= 'z')
    ensures Upper(text) == word <==> Spells(text, word)
  {
    if Upper(text) == word {
      forall i | 0 <= i < |word|
        ensures text[i] == word[i] || ('A' <= word[i] <= 'Z' && text[i] as int == word[i] as int + 32)
      {
        assert Upper(text)[i] == word[i];
      }
    }
    if Spells(text, word) {
      forall i | 0 <= i < |word|
        ensures Upper(text)[i] == word[i]
      {
      }
    }
  }

  /** What a broker's text says about an order. */
  predicate Says(text: string, status: Status) {
    match status
    case Pending => Spells(text, "TRANSIT")
    case Open => Spells(text, "PENDING")
    case PartiallyFilled => Spells(text, "PART_TRADED")
    case Filled => Spells(text, "TRADED")
    case Canceled => Spells(text, "CANCELLED")
    case Rejected => Spells(text, "REJECTED")
    case Expired => Spells(text, "EXPIRED")
    case CancelPending => false
    case Unknown =>
      forall word :: word in {"TRANSIT", "PENDING", "PART_TRADED", "TRADED", "CANCELLED", "REJECTED", "EXPIRED"} ==>
        !Spells(text, word)
  }

  function Word(status: Status): string {
    match status
    case Pending => "TRANSIT"
    case Open => "PENDING"
    case PartiallyFilled => "PART_TRADED"
    case Filled => "TRADED"
    case Canceled => "CANCELLED"
    case Rejected => "REJECTED"
    case Expired => "EXPIRED"
    case _ => ""
  }

  const WORDS := {"TRANSIT", "PENDING", "PART_TRADED", "TRADED", "CANCELLED", "REJECTED", "EXPIRED"}

  lemma MapsByWord(text: string, status: Status)
    ensures MapStatus(text) == status <==>
      if status == Unknown then Upper(text) !in WORDS else status != CancelPending && Upper(text) == Word(status)
  {
    hide Upper;
  }

  /** Every text says exactly one thing, and that is the status it is mapped to. */
  lemma StatusTexts(text: string, status: Status)
    ensures MapStatus(text) == status <==> Says(text, status)
  {
    forall word | word in WORDS
      ensures Upper(text) == word <==> Spells(text, word)
    {
      UpperSpells(text, word);
    }
    MapsByWord(text, status);
    hide Spells, Upper, MapStatus;
  }

  // ---------------------------------------------------------------- placing

  predicate SameTerms(o: Order, o2: Order) {
    && o2.instrument == o.instrument && o2.mode == o.mode && o2.side == o.side && o2.orderType == o.orderType
    && o2.product == o.product && o2.validity == o.validity && o2.quantity == o.quantity && o2.limitPrice == o.limitPrice
    && o2.filled == o.filled && o2.averageFill == o.averageFill
  }

  /** Between its commit and the broker's answer a placed order is PENDING, carries the ticket and is open. */
  lemma PlacedPending(
      cfg: Settings, gate: bool, connected: bool, db: Db, user: string, t: Ticket, quote: Option<Quote>, now: real)
    requires cfg.mode == LiveMode && PlaceLive(cfg, gate, connected, db, user, t, quote, now).Inserted?
    ensures var db1, k := PlaceLive(cfg, gate, connected, db, user, t, quote, now).db, OrderKey(user, t.client);
      && gate && connected && k !in db.orders && k in SelectedLive(db1, user) && k in OpenOrders(db1, user)
      && db1 == db.(orders := db.orders[k := db1.orders[k]])
      && var o := db1.orders[k];
      && o.status == Pending && !o.completed && o.filled == 0 && o.brokerId == None && o.reason == None
      && o.instrument == t.instrument && o.side == t.side && o.orderType == t.orderType && o.product == t.product
      && o.validity == t.validity && o.quantity == t.quantity && o.limitPrice == t.limitPrice
  {
    hide RiskCheck, QuoteCheck;
  }

  /** How a placement ends. An order that the broker may have is UNKNOWN, still open, and read by the next reconciler pass; one
      that it refused is REJECTED, closed and never read again; one that it took has the broker's id and the status it says, and
      is closed when that says so. Its terms are the ticket's in every case. */
  lemma PlacementEnds(
      cfg: Settings, gate: bool, connected: bool, db: Db, user: string, t: Ticket, quote: Option<Quote>, now: real, reply: Reply)
    requires cfg.mode == LiveMode && PlaceLive(cfg, gate, connected, db, user, t, quote, now).Inserted?
    ensures var db1, k := PlaceLive(cfg, gate, connected, db, user, t, quote, now).db, OrderKey(user, t.client);
      var db2 := ReplyPlace(db1, k, reply);
      && db2 == db.(orders := db.orders[k := db2.orders[k]]) && SameTerms(db1.orders[k], db2.orders[k])
      && var o := db2.orders[k];
      match reply {
        case BrokerError(code, true) =>
          o.status == Unknown && !o.completed && o.reason == Some(code) && o.brokerId == None
          && k in SelectedLive(db2, user) && k in OpenOrders(db2, user)
        case BrokerError(code, false) =>
          o.status == Rejected && o.completed && o.reason == Some(code)
          && k !in SelectedLive(db2, user) && k !in OpenOrders(db2, user)
        case Response(orderId, text) =>
          Says(text, o.status) && o.brokerId == (if orderId == "" then None else Some(orderId))
          && (o.completed <==> o.status in {Rejected, Canceled, Expired})
          && (k in SelectedLive(db2, user) <==> o.status in {Pending, Open, PartiallyFilled, Unknown})
      }
  {
    PlacedPending(cfg, gate, connected, db, user, t, quote, now);
    if reply.Response? {
      StatusTexts(reply.status, MapStatus(reply.status));
    }
    hide PlaceLive, Says, MapStatus;
  }

  // ---------------------------------------------------------------- cancelling

  /** How a cancellation ends. While the broker is asked the order is CANCEL_PENDING and open. An error that leaves the result
      open makes it UNKNOWN, a refusal gives it its old status back, and neither closes it; an answer without a status means
      CANCELLED, any other is taken at its word, and only CANCELLED closes it. */
  lemma CancellationEnds(gate: bool, connected: bool, db: Db, k: OrderKey, reply: Reply)
    requires k in db.orders && db.orders[k].mode == Mode.Live && StartCancel(gate, connected, db, k).Changed?
    ensures var db1, o := StartCancel(gate, connected, db, k).db, db.orders[k];
      && gate && connected && k in SelectedLive(db, k.user) && k in SelectedLive(db1, k.user)
      && db1 == db.(orders := db.orders[k := o.(status := CancelPending, version := o.version + 1)])
      && var db2 := ReplyCancel(db1, k, o.status, reply);
      && db2 == db.(orders := db.orders[k := db2.orders[k]])
      && var o2 := db2.orders[k];
      && SameTerms(o, o2) && o2.brokerId == o.brokerId && o2.version == o.version + 1
      && match reply {
        case BrokerError(code, ambiguous) =>
          o2.status == (if ambiguous then Unknown else o.status) && o2.completed == o.completed && o2.reason == Some(code)
          && k in SelectedLive(db2, k.user)
        case Response(_, text) =>
          (if text == "" then o2.status == Canceled else Says(text, o2.status))
          && (o2.completed <==> o.completed || o2.status == Canceled) && o2.reason == o.reason
      }
  {
    if reply.Response? {
      assert Spells("CANCELLED", "CANCELLED");
      StatusTexts("CANCELLED", Canceled);
      StatusTexts(reply.status, MapStatus(reply.status));
    }
    hide Spells, Says, MapStatus;
  }

  // ---------------------------------------------------------------- modifying

  /** How a modification ends. Any error leaves the old quantity and limit, and makes the order UNKNOWN if the result is open;
      an answer gives it the new terms and the status it says. Nothing else changes. */
  lemma ModificationEnds(
      gate: bool, connected: bool, db: Db, k: OrderKey, quantity: int, limitPrice: real, reply: Reply)
    requires k in db.orders && db.orders[k].mode == Mode.Live
    requires ModifyLive(gate, connected, db, k, quantity, limitPrice, reply).Changed?
    ensures var db2, o := ModifyLive(gate, connected, db, k, quantity, limitPrice, reply).db, db.orders[k];
      && gate && connected && o.status in OpenStatuses() && o.orderType == Limit && quantity >= 1 && quantity >= o.filled
      && db2 == db.(orders := db.orders[k := db2.orders[k]])
      && var o2 := db2.orders[k];
      && SameTerms(o.(quantity := o2.quantity, limitPrice := o2.limitPrice), o2)
      && o2.brokerId == o.brokerId && o2.completed == o.completed
      && match reply {
        case BrokerError(code, ambiguous) =>
          o2.quantity == o.quantity && o2.limitPrice == o.limitPrice && o2.version == o.version && o2.reason == Some(code)
          && o2.status == (if ambiguous then Unknown else o.status) && k in SelectedLive(db2, k.user)
        case Response(_, text) =>
          o2.quantity == quantity && o2.limitPrice == Some(limitPrice) && o2.version == o.version + 1 && o2.reason == o.reason
          && Says(text, o2.status)
      }
  {
    if reply.Response? {
      StatusTexts(reply.status, MapStatus(reply.status));
    }
    hide Says, MapStatus;
  }

  // ---------------------------------------------------------------- the order book

  /** The item is about this order: by its broker id, or, where no row has that, by its correlation id. */
  predicate Names(index: Index, selected: set<OrderKey>, user: string, item: Item, k: OrderKey) {
    if item.orderId in index then index[item.orderId] == k
    else k == OrderKey(user, item.correlation) && k in selected
  }

  predicate HasId(db: Db, k: OrderKey, id: string) {
    k in db.orders && db.orders[k].brokerId == Some(id) && id != ""
  }

  /** A pass starts from the broker ids of the selected rows; of two rows with one id the later of the query stands for it. */
  lemma {:induction false} IndexIs(db: Db, keys: seq<OrderKey>, id: string)
    ensures id in InitialIndex(db, keys) <==> exists i :: 0 <= i < |keys| && HasId(db, keys[i], id)
    ensures id in InitialIndex(db, keys) ==>
      exists i :: 0 <= i < |keys| && HasId(db, keys[i], id) && InitialIndex(db, keys)[id] == keys[i]
                  && forall j :: i < j < |keys| ==> !HasId(db, keys[j], id)
    decreases |keys|
  {
    hide HasId, HasBroker;
    if keys != [] {
      var n := |keys| - 1;
      IndexGrows(db, keys, id);
      hide InitialIndex;
      IndexIs(db, keys[..n], id);
      if !HasId(db, keys[n], id) && id in InitialIndex(db, keys[..n]) {
        var i :| 0 <= i < n && HasId(db, keys[..n][i], id) && InitialIndex(db, keys[..n])[id] == keys[..n][i]
              && forall j :: i < j < n ==> !HasId(db, keys[..n][j], id);
        assert HasId(db, keys[i], id) && InitialIndex(db, keys)[id] == keys[i];
        assert forall j :: i < j < n ==> keys[j] == keys[..n][j];
      }
      if i :| 0 <= i < n && HasId(db, keys[i], id) {
        assert HasId(db, keys[..n][i], id);
      }
    }
  }

  lemma IndexGrows(db: Db, keys: seq<OrderKey>, id: string)
    requires keys != []
    ensures var index, before, k := InitialIndex(db, keys), InitialIndex(db, keys[..|keys| - 1]), keys[|keys| - 1];
      && (id in index <==> HasId(db, k, id) || id in before)
      && (id in index ==> index[id] == if HasId(db, k, id) then k else before[id])
  {
  }

  /** An item that carries an order id gives it to the order it is about when that has none yet; ids are never replaced, and an
      item changes nothing else. */
  lemma ItemTeaches(l: Learned, selected: set<OrderKey>, user: string, item: Item, k: OrderKey)
    requires k in l.db.orders
    ensures var l2, o := LearnOne(l, selected, user, item), l.db.orders[k];
      && k in l2.db.orders
      && if Names(l.index, selected, user, item, k) && item.orderId != "" && (o.brokerId == None || o.brokerId == Some(""))
         then l2.db.orders[k] == o.(brokerId := Some(item.orderId)) && l2.index == l.index[item.orderId := k]
         else l2.db.orders[k] == o
  {
  }

  /** What one trade of the book does: nothing without an order of that broker id or without an id of its own, nothing when the
      user has it already, one more fill when it fits, and otherwise it makes the order doubtful. */
  lemma TradeBooks(db: Db, index: Index, t: Trade)
    requires t.orderId in index ==> index[t.orderId] in db.orders && db.orders[index[t.orderId]].filled >= 0
    ensures var db2 := ImportOne(db, index, t);
      if t.orderId !in index || t.executionId == "" then db2 == db
      else
        var k, id := index[t.orderId], Some(Exchange(t.executionId));
        var o := db.orders[k];
        if exists e :: e in db.executions && e.order.user == k.user && e.id == id then db2 == db
        else if 1 <= t.quantity <= o.quantity - o.filled then
          db2.executions == db.executions + [Execution(k, id, o.side, t.quantity, t.price)]
          && k in db2.orders && db2.orders[k].filled == o.filled + t.quantity && db2.halts == db.halts
        else
          db2 == db.(orders := db.orders[k := o.(status := Unknown,
                                                 reason := Some("RECONCILIATION_INVALID_EXECUTION_QUANTITY"))])
  {
    hide PositionAfter, Blend;
  }

  /** What the row of an order shows after the last item about it. */
  predicate Shows(o: Order, item: Item) {
    if Spells(item.status, "TRADED") && o.filled != o.quantity then
      o.status == Unknown && o.reason == Some("TRADE_BOOK_INCOMPLETE")
    else
      Says(item.status, o.status)
      && (o.status in {Status.Filled, Canceled, Rejected, Expired} ==> o.completed)
      && (o.status == Rejected && 0 < |item.reason| <= 120 ==> o.reason == Some(item.reason))
      && (o.status == Rejected && |item.reason| > 120 ==> o.reason == Some(item.reason[..120]))
  }

  lemma JudgedShows(o: Order, item: Item)
    ensures Shows(Judged(o, item), item) && SameTerms(o, Judged(o, item)) && Judged(o, item).brokerId == o.brokerId
    ensures o.completed ==> Judged(o, item).completed
  {
    StatusTexts(item.status, Status.Filled);
    StatusTexts(item.status, MapStatus(item.status));
    hide Spells, MapStatus;
  }

  lemma OneJudged(db: Db, index: Index, selected: set<OrderKey>, user: string, item: Item, k: OrderKey)
    requires k in db.orders
    ensures var db2 := JudgeOne(db, index, selected, user, item);
      && k in db2.orders
      && if Names(index, selected, user, item, k) then Shows(db2.orders[k], item) else db2.orders[k] == db.orders[k]
  {
    JudgedShows(db.orders[k], item);
    hide Judged, Shows, SameTerms;
  }

  /** The last item about an order decides what its row shows. */
  lemma {:induction false} LastJudged(
      db: Db, index: Index, selected: set<OrderKey>, user: string, items: seq<Item>, k: OrderKey, j: nat)
    requires k in db.orders && j < |items| && Names(index, selected, user, items[j], k)
    requires forall i :: j < i < |items| ==> !Names(index, selected, user, items[i], k)
    ensures var db2 := Judge(db, index, selected, user, items);
      k in db2.orders && Shows(db2.orders[k], items[j])
    decreases |items|
  {
    hide Names, Shows, JudgeOne;
    var init, last := items[..|items| - 1], items[|items| - 1];
    StaysIn(db, index, selected, user, init, k);
    OneJudged(Judge(db, index, selected, user, init), index, selected, user, last, k);
    if j < |items| - 1 {
      assert init[j] == items[j] && forall i :: j < i < |init| ==> init[i] == items[i];
      LastJudged(db, index, selected, user, init, k, j);
    }
  }

  lemma {:induction false} StaysIn(
      db: Db, index: Index, selected: set<OrderKey>, user: string, items: seq<Item>, k: OrderKey)
    requires k in db.orders
    ensures k in Judge(db, index, selected, user, items).orders
    ensures (forall item :: item in items ==> !Names(index, selected, user, item, k)) ==>
      Judge(db, index, selected, user, items).orders[k] == db.orders[k]
    decreases |items|
  {
    hide Names, JudgeOne, Shows;
    if items != [] {
      var init, last := items[..|items| - 1], items[|items| - 1];
      assert items == init + [last];
      StaysIn(db, index, selected, user, init, k);
      OneJudged(Judge(db, index, selected, user, init), index, selected, user, last, k);
    }
  }

  /** Main result: after a reconciler pass over any books, an order shows what the last order-book item about it says: TRADED
      makes it FILLED and completed when its fills add up, and UNKNOWN as incomplete when they do not; CANCELLED, REJECTED and
      EXPIRED close it with just that status; an unknown text makes it UNKNOWN. An order that no item is about is left as the
      trades left it. */
  lemma PassShows(cfg: Settings, db: Db, user: string, keys: seq<OrderKey>, items: seq<Item>, trades: seq<Trade>, k: OrderKey)
    requires Good(db) && Lists(keys, SelectedLive(db, user)) && k in db.orders
    ensures var l, selected, db2 := LearnPass(db, user, keys, items), SelectedLive(db, user), Pass(db, user, keys, items, trades);
      && k in db2.orders
      && (forall j :: 0 <= j < |items| && Names(l.index, selected, user, items[j], k)
            && (forall i :: j < i < |items| ==> !Names(l.index, selected, user, items[i], k))
            ==> Shows(db2.orders[k], items[j]))
      && ((forall item :: item in items ==> !Names(l.index, selected, user, item, k)) ==>
            k in Import(l.db, l.index, trades).orders && db2.orders[k] == Import(l.db, l.index, trades).orders[k])
  {
    hide Names, Shows, Good, Into, AllLive, Carries, Judge, Learn, InitialIndex, Import;
    var l, selected, start := LearnPass(db, user, keys, items), SelectedLive(db, user), Learned(db, InitialIndex(db, keys));
    InitialInto(db, keys, selected);
    assert AllLive(db, selected) by { SelectedAllLive(db, user); }
    LearnKeeps(cfg, start, selected, user, items);
    StillLive(db, l.db, selected);
    CarriesGood(cfg, db, l.db);
    ImportKeeps(cfg, l.db, l.index, selected, trades);
    var imported := Import(l.db, l.index, trades);
    StaysIn(imported, l.index, selected, user, items, k);
    forall j | 0 <= j < |items| && Names(l.index, selected, user, items[j], k)
        && (forall i :: j < i < |items| ==> !Names(l.index, selected, user, items[i], k))
      ensures Shows(Judge(imported, l.index, selected, user, items).orders[k], items[j])
    {
      LastJudged(imported, l.index, selected, user, items, k, j);
    }
  }

  lemma CarriesGood(cfg: Settings, db: Db, db2: Db)
    requires Carries(cfg, db, db2)
    ensures Good(db2)
  {
  }
}
