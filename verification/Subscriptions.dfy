/** Keeping the broker's subscriptions equal to the desired ones (backend/app/market/dhan.py). */
module Subscriptions {
  import opened Options

  datatype Segment = IdxI | NseEq | NseFno | NseCurrency | BseEq | McxComm | BseCurrency | BseFno

  function Code(segment: Segment): nat {
    match segment
    case IdxI => 0
    case NseEq => 1
    case NseFno => 2
    case NseCurrency => 3
    case BseEq => 4
    case McxComm => 5
    case BseCurrency => 7
    case BseFno => 8
  }

  datatype Key = Key(code: nat, security: string)
  datatype Item = Item(segment: Segment, security: string, instrument: string)

  function KeyOf(item: Item): Key {
    Key(Code(item.segment), item.security)
  }

  /** What a message names: the segment and the security, nothing else. */
  datatype Name = Name(segment: Segment, security: string)
  datatype Message = Message(request: int, names: seq<Name>)

  function NameOf(item: Item): Name {
    Name(item.segment, item.security)
  }

  // ---------------------------------------------------------------- sorting

  predicate TextLeq(a: string, b: string) {
    a == "" || (b != "" && (a[0] < b[0] || (a[0] == b[0] && TextLeq(a[1..], b[1..]))))
  }

  predicate Leq(a: Item, b: Item) {
    var x, y := KeyOf(a), KeyOf(b);
    x.code < y.code || (x.code == y.code && TextLeq(x.security, y.security))
  }

  /** Texts are ordered as in a dictionary: a prefix first, else by the first character that differs. */
  lemma {:induction false} TextOrder(a: string, b: string, n: nat)
    requires n <= |a| && n <= |b| && a[..n] == b[..n]
    ensures n == |a| ==> TextLeq(a, b)
    ensures n < |a| && n == |b| ==> !TextLeq(a, b)
    ensures n < |a| && n < |b| && a[n] != b[n] ==> (TextLeq(a, b) <==> a[n] < b[n])
    decreases n
  {
    if n > 0 {
      assert a[0] == a[..n][0] == b[..n][0] == b[0];
      assert a[1..][..n - 1] == a[..n][1..] == b[..n][1..] == b[1..][..n - 1];
      TextOrder(a[1..], b[1..], n - 1);
    }
  }

  /** Items are ordered by their segment, in the order of the exchange's codes, and then by their security id. */
  lemma ItemOrder(a: Item, b: Item, i: nat, j: nat)
    requires var segments := [IdxI, NseEq, NseFno, NseCurrency, BseEq, McxComm, BseCurrency, BseFno];
      i < |segments| && j < |segments| && segments[i] == a.segment && segments[j] == b.segment
    ensures Leq(a, b) <==> i < j || (i == j && TextLeq(a.security, b.security))
    ensures KeyOf(a) == KeyOf(b) <==> a.segment == b.segment && a.security == b.security
  {
  }

  lemma {:induction false} TextTotal(a: string, b: string)
    ensures TextLeq(a, b) || TextLeq(b, a)
  {
    if a != "" && b != "" {
      TextTotal(a[1..], b[1..]);
    }
  }

  lemma {:induction false} TextTransitive(a: string, b: string, c: string)
    requires TextLeq(a, b) && TextLeq(b, c)
    ensures TextLeq(a, c)
  {
    if a != "" && b != "" && c != "" && a[0] == b[0] == c[0] {
      TextTransitive(a[1..], b[1..], c[1..]);
    }
  }

  lemma LeqOrder(a: Item, b: Item, c: Item)
    ensures Leq(a, b) || Leq(b, a)
    ensures Leq(a, b) && Leq(b, c) ==> Leq(a, c)
  {
    hide Code;
    TextTotal(a.security, b.security);
    if TextLeq(a.security, b.security) && TextLeq(b.security, c.security) {
      TextTransitive(a.security, b.security, c.security);
    }
  }

  predicate Ordered(items: seq<Item>) {
    forall i, j :: 0 <= i < j < |items| ==> Leq(items[i], items[j])
  }

  function Insert(item: Item, sorted: seq<Item>): seq<Item> {
    if sorted == [] || !Leq(sorted[0], item) then [item] + sorted
    else [sorted[0]] + Insert(item, sorted[1..])
  }

  function Sort(items: seq<Item>): seq<Item> {
    if items == [] then [] else Insert(items[|items| - 1], Sort(items[..|items| - 1]))
  }

  lemma {:induction false} InsertSorts(item: Item, sorted: seq<Item>)
    requires Ordered(sorted)
    ensures Ordered(Insert(item, sorted)) && multiset(Insert(item, sorted)) == multiset(sorted) + multiset{item}
    decreases |sorted|
  {
    hide Leq;
    if sorted == [] {
      assert Insert(item, sorted) == [item];
    } else if !Leq(sorted[0], item) {
      LeqOrder(item, sorted[0], sorted[0]);
      forall i | 0 <= i < |sorted|
        ensures Leq(item, sorted[i])
      {
        LeqOrder(item, sorted[0], sorted[i]);
      }
    } else {
      var rest := Insert(item, sorted[1..]);
      InsertSorts(item, sorted[1..]);
      assert sorted == [sorted[0]] + sorted[1..];
      forall x | x in rest
        ensures Leq(sorted[0], x)
      {
        assert x in multiset(rest);
      }
    }
  }

  /** Sorting gives an ordered rearrangement of the items. */
  lemma {:induction false} SortSorts(items: seq<Item>)
    ensures Ordered(Sort(items)) && multiset(Sort(items)) == multiset(items)
    decreases |items|
  {
    if items != [] {
      SortSorts(items[..|items| - 1]);
      InsertSorts(items[|items| - 1], Sort(items[..|items| - 1]));
      assert items == items[..|items| - 1] + [items[|items| - 1]];
    }
  }

  // ---------------------------------------------------------------- batches

  function Names(items: seq<Item>): (names: seq<Name>)
    ensures |names| == |items| && forall i :: 0 <= i < |items| ==> names[i] == NameOf(items[i])
  {
    seq(|items|, i requires 0 <= i < |items| => NameOf(items[i]))
  }

  function Batches(items: seq<Item>, request: int, size: nat): seq<Message>
    requires size > 0
  {
    if items == [] then []
    else
      var end := if size <= |items| then size else |items|;
      [Message(request, Names(items[..end]))] + Batches(items[end..], request, size)
  }

  const REQUESTS := {15, 16, 17, 18, 21, 22}

  datatype Outcome = Messages(messages: seq<Message>) | Unsupported

  /** A slice whose bound may lie past the end. */
  function From(items: seq<Item>, offset: nat): seq<Item> {
    if offset <= |items| then items[offset..] else []
  }

  method SubscriptionMessages(items: seq<Item>, request: int, size: nat) returns (r: Outcome)
    requires size > 0
    ensures r == if request in {15, 16, 17, 18, 21, 22} then Messages(Batches(Sort(items), request, size)) else Unsupported
  {
    hide Sort, Names, Batches, From;
    if request !in REQUESTS {
      return Unsupported;
    }
    var sorted := Sort(items);
    var messages: seq<Message> := [];
    var offset: nat := 0;
    AllBatches(sorted, request, size);
    while offset < |sorted|
      invariant Batches(sorted, request, size) == messages + Batches(From(sorted, offset), request, size)
    {
      var end := if offset + size <= |sorted| then offset + size else |sorted|;
      var batch := sorted[offset..end];
      messages := messages + [Message(request, Names(batch))];
      NextBatch(sorted, offset, end, request, size);
      offset := offset + size;
    }
    NoBatches(sorted, offset, request, size);
    return Messages(messages);
  }

  lemma AllBatches(items: seq<Item>, request: int, size: nat)
    requires size > 0
    ensures Batches(items, request, size) == [] + Batches(From(items, 0), request, size)
  {
    assert From(items, 0) == items;
  }

  lemma NoBatches(items: seq<Item>, offset: nat, request: int, size: nat)
    requires size > 0 && offset >= |items|
    ensures Batches(From(items, offset), request, size) == []
  {
  }

  lemma NextBatch(items: seq<Item>, offset: nat, end: nat, request: int, size: nat)
    requires size > 0 && offset < |items| && end == if offset + size <= |items| then offset + size else |items|
    ensures Batches(From(items, offset), request, size)
         == [Message(request, Names(items[offset..end]))] + Batches(From(items, offset + size), request, size)
  {
    assert items[offset..][..end - offset] == items[offset..end] && items[offset..][end - offset..] == items[end..];
    assert From(items, offset + size) == items[end..];
  }

  function AllNames(messages: seq<Message>): seq<Name> {
    if messages == [] then [] else messages[0].names + AllNames(messages[1..])
  }

  /** The batches carry all names in order, none is empty or too long, and there are no more of them than needed. */
  lemma {:induction false} BatchesCut(items: seq<Item>, request: int, size: nat)
    requires size > 0
    ensures var messages := Batches(items, request, size);
      && AllNames(messages) == Names(items)
      && (forall m :: m in messages ==> m.request == request && 0 < |m.names| <= size)
      && |messages| == (|items| + size - 1) / size
    decreases |items|
  {
    if items == [] {
      Quotient(size - 1, 0, size);
    } else {
      var end := if size <= |items| then size else |items|;
      BatchesCut(items[end..], request, size);
      assert Batches(items, request, size)[1..] == Batches(items[end..], request, size);
      assert Names(items) == Names(items[..end]) + Names(items[end..]);
      OneBatchMore(|items|, |items| - end, size);
    }
  }

  lemma Quotient(a: int, q: int, d: int)
    requires d > 0 && q * d <= a < q * d + d
    ensures a / d == q
  {
    var p := a / d;
    assert a == p * d + a % d;
    if p < q {
      TimesUp(p + 1, q, d);
    } else if p > q {
      TimesUp(q + 1, p, d);
    }
  }

  lemma TimesUp(p: int, q: int, d: int)
    requires p <= q && d > 0
    ensures p * d <= q * d
  {
    assert (q - p) * d >= 0;
  }

  lemma OneBatchMore(n: nat, left: nat, size: nat)
    requires n > 0 && size > 0 && left == if size <= n then n - size else 0
    ensures (n + size - 1) / size == (left + size - 1) / size + 1
  {
    var q := (left + size - 1) / size;
    assert left + size - 1 == q * size + (left + size - 1) % size;
    if size <= n {
      Quotient(n + size - 1, q + 1, size);
    } else {
      Quotient(size - 1, 0, size);
      Quotient(n + size - 1, 1, size);
    }
  }

  // ---------------------------------------------------------------- the broker's side

  /** The names a broker holds after a message: request codes come in pairs, subscribe and, one above, unsubscribe. */
  ghost function Receive(held: set<Name>, m: Message, subscribe: int): set<Name> {
    var named := set n | n in m.names;
    if m.request == subscribe then held + named else if m.request == subscribe + 1 then held - named else held
  }

  ghost function Replay(messages: seq<Message>, subscribe: int): set<Name> {
    if messages == [] then {}
    else Receive(Replay(messages[..|messages| - 1], subscribe), messages[|messages| - 1], subscribe)
  }

  ghost function ReplayOn(held: set<Name>, messages: seq<Message>, subscribe: int): set<Name> {
    if messages == [] then held
    else Receive(ReplayOn(held, messages[..|messages| - 1], subscribe), messages[|messages| - 1], subscribe)
  }

  lemma {:induction false} ReplaySplits(a: seq<Message>, b: seq<Message>, subscribe: int)
    ensures Replay(a + b, subscribe) == ReplayOn(Replay(a, subscribe), b, subscribe)
    decreases |b|
  {
    if b == [] {
      assert a + b == a;
    } else {
      ReplaySplits(a, b[..|b| - 1], subscribe);
      assert (a + b)[..|a + b| - 1] == a + b[..|b| - 1];
    }
  }

  lemma {:induction false} BatchesReplay(held: set<Name>, messages: seq<Message>, subscribe: int, request: int)
    requires request == subscribe || request == subscribe + 1
    requires forall m :: m in messages ==> m.request == request
    ensures var named := set n | n in AllNames(messages);
      ReplayOn(held, messages, subscribe) == if request == subscribe then held + named else held - named
    decreases |messages|
  {
    if messages != [] {
      var init, last := messages[..|messages| - 1], messages[|messages| - 1];
      BatchesReplay(held, init, subscribe, request);
      NamesAppend(init, last);
      assert messages == init + [last];
    }
  }

  lemma {:induction false} NamesAppend(messages: seq<Message>, m: Message)
    ensures AllNames(messages + [m]) == AllNames(messages) + m.names
    decreases |messages|
  {
    if messages == [] {
      assert [m][1..] == [];
      assert messages + [m] == [m];
    } else {
      NamesAppend(messages[1..], m);
      assert (messages + [m])[1..] == messages[1..] + [m];
    }
  }

  /** Names of a table of items. */
  ghost function Held(table: map<Key, Item>): set<Name> {
    set k | k in table :: NameOf(table[k])
  }

  ghost predicate Keyed(table: map<Key, Item>) {
    forall k :: k in table ==> KeyOf(table[k]) == k
  }

  // ---------------------------------------------------------------- the session

  /** The items by key. */
  function TableOf(items: seq<Item>): map<Key, Item> {
    if items == [] then map[] else TableOf(items[..|items| - 1])[KeyOf(items[|items| - 1]) := items[|items| - 1]]
  }

  /** A key is in the table exactly when some item has it, and its entry is the last such item. */
  lemma {:induction false} LastItemWins(items: seq<Item>, k: Key)
    ensures k in TableOf(items) <==> exists i :: 0 <= i < |items| && KeyOf(items[i]) == k
    ensures k in TableOf(items) ==>
      exists i :: 0 <= i < |items| && KeyOf(items[i]) == k && TableOf(items)[k] == items[i]
                  && forall j :: i < j < |items| ==> KeyOf(items[j]) != k
    decreases |items|
  {
    hide KeyOf;
    if items != [] {
      var n := |items| - 1;
      LastItemWins(items[..n], k);
      if KeyOf(items[n]) != k && k in TableOf(items[..n]) {
        var i :| 0 <= i < n && KeyOf(items[..n][i]) == k && TableOf(items[..n])[k] == items[..n][i]
              && forall j :: i < j < n ==> KeyOf(items[..n][j]) != k;
        assert KeyOf(items[i]) == k && TableOf(items)[k] == items[i];
        assert forall j :: i < j < n ==> items[j] == items[..n][j];
      }
    }
  }

  lemma {:induction false} TableIsKeyed(items: seq<Item>)
    ensures Keyed(TableOf(items))
    decreases |items|
  {
    if items != [] {
      TableIsKeyed(items[..|items| - 1]);
    }
  }

  /** What happens around one turn of the loop: replacements before it, and one that comes while it sends. */
  datatype Turn = Turn(before: seq<seq<Item>>, during: Option<seq<Item>>)

  /** The table a turn works from: that of the last replacement before it. */
  function Wanted(table: map<Key, Item>, before: seq<seq<Item>>): map<Key, Item> {
    if before == [] then table else TableOf(before[|before| - 1])
  }

  /** The table some turns leave. */
  function Left(table: map<Key, Item>, turns: seq<Turn>): map<Key, Item> {
    if turns == [] then table
    else
      var turn := turns[|turns| - 1];
      if turn.during.Some? then TableOf(turn.during.value) else Wanted(Left(table, turns[..|turns| - 1]), turn.before)
  }

  /** The table the last of some turns worked from, and nothing before the first. */
  function Synchronised(table: map<Key, Item>, turns: seq<Turn>): map<Key, Item> {
    if turns == [] then map[] else Wanted(Left(table, turns[..|turns| - 1]), turns[|turns| - 1].before)
  }

  class FeedSession {
    var desired: map<Key, Item>
    var changed: bool
    const request: int
    ghost var sent: seq<Message>

    ghost predicate Valid()
      reads this
    {
      request in {15, 17, 21} && Keyed(desired)
    }

    constructor (request: int)
      requires request in {15, 17, 21}
      ensures Valid() && this.request == request && desired == map[] && sent == [] && !changed
    {
      this.request := request;
      desired, changed, sent := map[], false, [];
    }

    method ReplaceSubscriptions(items: seq<Item>)
      requires Valid()
      modifies this`desired, this`changed
      ensures Valid() && desired == TableOf(items) && changed
    {
      var table: map<Key, Item> := map[];
      var i := 0;
      while i < |items|
        invariant 0 <= i <= |items| && table == TableOf(items[..i])
      {
        assert items[..i + 1][..i] == items[..i];
        table := table[KeyOf(items[i]) := items[i]];
        i := i + 1;
      }
      assert items[..i] == items;
      TableIsKeyed(items);
      desired := table;
      changed := true;
    }

    method Send(items: seq<Item>, request: int)
      requires request in REQUESTS
      modifies this`sent
      ensures sent == old(sent) + Batches(Sort(items), request, 100)
    {
      var r := SubscriptionMessages(items, request, 100);
      sent := sent + r.messages;
    }

    /** One turn of the connection loop: unsubscribe what is no longer desired, subscribe what is new. The broker ends with the
        table as it was when the turn began. A replacement that came meanwhile stays behind, its flag cleared with the others: the
        broker holds what is desired exactly when there was none, or none that changed the names. */
    method Synchronise(active: map<Key, Item>, during: Option<seq<Item>>) returns (now: map<Key, Item>)
      requires Valid() && Keyed(active) && Replay(sent, request) == Held(active)
      modifies this
      ensures Valid() && Keyed(now) && now == old(desired) && Replay(sent, request) == Held(now)
      ensures desired == (if during.Some? then TableOf(during.value) else now) && !changed
      ensures Replay(sent, request) == Held(desired) <==> during.None? || Held(TableOf(during.value)) == old(Held(desired))
    {
      hide Batches, Replay, Sort, Listed, Held, TableOf;
      var wanted := desired;
      ghost var first := sent;
      var removed := Pick(active, active.Keys - wanted.Keys);
      var added := Pick(wanted, wanted.Keys - active.Keys);
      if removed != [] {
        Send(removed, request + 1);
        SendReplays(first, removed, request, request + 1);
      }
      if during.Some? {
        ReplaceSubscriptions(during.value);
      }
      ghost var second := sent;
      if added != [] {
        Send(added, request);
        SendReplays(second, added, request, request);
      }
      now := wanted;
      Moved(active, wanted, removed, added);
      changed := false;
    }

    /** A connection over any number of turns. After the last the broker holds what was desired when it began, and so what is
        desired now exactly when no replacement came during that turn, or one that changed no name. */
    method Connected(turns: seq<Turn>) returns (active: map<Key, Item>)
      requires Valid() && sent == []
      modifies this
      ensures Valid() && active == Synchronised(old(desired), turns) && desired == Left(old(desired), turns)
      ensures Replay(sent, request) == Held(active)
      ensures turns != [] ==>
        var during := turns[|turns| - 1].during;
        (Replay(sent, request) == Held(desired) <==> during.None? || Held(TableOf(during.value)) == Held(active))
    {
      hide Held, TableOf, Replay, Keyed;
      active := map[];
      ghost var start := desired;
      var i := 0;
      NothingHeld(request);
      while i < |turns|
        invariant 0 <= i <= |turns| && Valid() && Keyed(active) && Replay(sent, request) == Held(active)
        invariant active == Synchronised(start, turns[..i]) && desired == Left(start, turns[..i])
      {
        assert turns[..i + 1][..i] == turns[..i];
        ghost var left := desired;
        var before := turns[i].before;
        var j := 0;
        while j < |before|
          invariant 0 <= j <= |before| && Valid() && Replay(sent, request) == Held(active)
          invariant desired == Wanted(left, before[..j])
        {
          ReplaceSubscriptions(before[j]);
          j := j + 1;
        }
        assert before[..j] == before;
        active := Synchronise(active, turns[i].during);
        i := i + 1;
      }
      assert turns[..i] == turns;
    }
  }

  lemma NothingHeld(request: int)
    ensures Replay([], request) == Held(map[]) && Keyed(map[])
  {
  }

  /** The items of some keys, in no particular order. */
  method Pick(table: map<Key, Item>, keys: set<Key>) returns (items: seq<Item>)
    requires keys <= table.Keys
    ensures Listed(items, table, keys)
  {
    items := [];
    var left := keys;
    while left != {}
      invariant left <= keys
      invariant forall i :: i in items <==> exists k :: k in keys - left && table[k] == i
      decreases left
    {
      var k :| k in left;
      ghost var done := keys - left;
      items := items + [table[k]];
      left := left - {k};
      assert keys - left == done + {k};
    }
    assert keys - left == keys;
  }

  lemma SendReplays(sent: seq<Message>, items: seq<Item>, subscribe: int, request: int)
    requires request == subscribe || request == subscribe + 1
    ensures var named := set i | i in items :: NameOf(i);
      Replay(sent + Batches(Sort(items), request, 100), subscribe)
      == if request == subscribe then Replay(sent, subscribe) + named else Replay(sent, subscribe) - named
  {
    var messages := Batches(Sort(items), request, 100);
    BatchesCut(Sort(items), request, 100);
    SortSorts(items);
    ReplaySplits(sent, messages, subscribe);
    BatchesReplay(Replay(sent, subscribe), messages, subscribe, request);
    SameNames(items, Sort(items));
    hide Sort, Batches, Replay, ReplayOn, AllNames, Names;
  }

  lemma SameNames(items: seq<Item>, sorted: seq<Item>)
    requires multiset(items) == multiset(sorted)
    ensures (set n | n in Names(sorted)) == (set i | i in items :: NameOf(i))
  {
    forall n | n in Names(sorted)
      ensures n in set i | i in items :: NameOf(i)
    {
      var j :| 0 <= j < |sorted| && Names(sorted)[j] == n;
      assert sorted[j] in multiset(sorted);
    }
    forall n | n in set i | i in items :: NameOf(i)
      ensures n in Names(sorted)
    {
      var i :| i in items && NameOf(i) == n;
      assert i in multiset(sorted);
      var j :| 0 <= j < |sorted| && sorted[j] == i;
      assert Names(sorted)[j] == n;
    }
  }

  ghost predicate Listed(items: seq<Item>, table: map<Key, Item>, keys: set<Key>)
    requires keys <= table.Keys
  {
    forall i :: i in items <==> exists k :: k in keys && table[k] == i
  }

  lemma NamesListed(items: seq<Item>, table: map<Key, Item>, keys: set<Key>, name: Name)
    requires keys <= table.Keys && Listed(items, table, keys)
    ensures name in (set i | i in items :: NameOf(i)) <==> exists k :: k in keys && NameOf(table[k]) == name
  {
    if name in (set i | i in items :: NameOf(i)) {
      var i :| i in items && NameOf(i) == name;
      var k :| k in keys && table[k] == i;
      assert NameOf(table[k]) == name;
    }
    if exists k :: k in keys && NameOf(table[k]) == name {
      var k :| k in keys && NameOf(table[k]) == name;
      assert table[k] in items;
    }
  }

  lemma Moved(active: map<Key, Item>, desired: map<Key, Item>, removed: seq<Item>, added: seq<Item>)
    requires Keyed(active) && Keyed(desired)
    requires Listed(removed, active, active.Keys - desired.Keys) && Listed(added, desired, desired.Keys - active.Keys)
    ensures Held(active) - (set i | i in removed :: NameOf(i)) + (set i | i in added :: NameOf(i)) == Held(desired)
  {
    var gone, come := set i | i in removed :: NameOf(i), set i | i in added :: NameOf(i);
    forall name: Name
      ensures name in Held(active) - gone + come <==> name in Held(desired)
    {
      NamesListed(removed, active, active.Keys - desired.Keys, name);
      NamesListed(added, desired, desired.Keys - active.Keys, name);
      OneName(active, desired, name);
      hide Listed;
    }
  }

  /** A name is held by the key that spells it, in both tables. */
  lemma OneName(active: map<Key, Item>, desired: map<Key, Item>, name: Name)
    requires Keyed(active) && Keyed(desired)
    ensures var gone := exists k :: k in active.Keys - desired.Keys && NameOf(active[k]) == name;
      var come := exists k :: k in desired.Keys - active.Keys && NameOf(desired[k]) == name;
      name in Held(desired) <==> (name in Held(active) && !gone) || come
  {
    var key := Key(Code(name.segment), name.security);
    OnlyKey(active, name, key);
    OnlyKey(desired, name, key);
  }

  lemma OnlyKey(table: map<Key, Item>, name: Name, key: Key)
    requires Keyed(table) && key == Key(Code(name.segment), name.security)
    ensures name in Held(table) <==> key in table
    ensures forall k :: k in table ==> (NameOf(table[k]) == name <==> k == key)
  {
  }
}
