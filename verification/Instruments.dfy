/** Importing the broker's instrument master into the instrument table (backend/app/market/instruments.py). */
module Instruments {
  import opened Decimals
  import opened Options

  /** The unique constraint of the table. */
  datatype Identity = Identity(exchange: string, segment: string, symbol: string)
  datatype TokenKey = TokenKey(feed: string, security: string)

  /** The broker's entry among a row's tokens: complete, absent, or anything else that is not empty. */
  datatype Token = NoToken | Structured(key: TokenKey) | Scalar(text: string)

  /** Columns copied from the file, and the broker's part of the metadata. */
  datatype Details = Details(
    tradingSymbol: string, name: string, kind: string, expiry: string, strike: string, option: string, lot: string,
    tick: string, metadata: string)

  datatype Instrument = Instrument(identity: Identity, token: Token, details: Details, active: bool)

  /** One supported line of the file, normalised. */
  datatype Line = Line(exchange: string, segment: string, symbol: string, token: TokenKey, details: Details)

  datatype Index = Index(byToken: map<TokenKey, nat>, legacy: map<string, Option<nat>>, identities: set<Identity>)

  datatype State = State(table: seq<Instrument>, index: Index, created: nat, updated: nat, skipped: nat)

  // ---------------------------------------------------------------- a free identity

  /** The n-th symbol tried: the plain one, with the security id, with the security id and a number. */
  function Candidate(line: Line, n: nat): Identity {
    Identity(line.exchange, line.segment,
             if n == 0 then line.symbol
             else line.symbol + ":" + line.token.security + if n > 1 then ":" + Decimal(n) else "")
  }

  lemma CandidatesDiffer(line: Line, m: nat, n: nat)
    requires m != n
    ensures Candidate(line, m) != Candidate(line, n)
  {
    DecimalInjective(m, n);
    var stem := line.symbol + ":" + line.token.security;
    if m > 1 && n > 1 {
      assert Candidate(line, m).symbol[|stem| + 1..] == Decimal(m) && Candidate(line, n).symbol[|stem| + 1..] == Decimal(n);
    }
    hide Decimal;
  }

  /** The symbols tried: the line's own, then with the security id after a colon, then with 2, 3 and so on after another. */
  lemma CandidateReads(line: Line, n: nat)
    ensures var c, stem := Candidate(line, n), line.symbol + ":" + line.token.security;
      && c.exchange == line.exchange && c.segment == line.segment
      && (n == 0 ==> c.symbol == line.symbol) && (n == 1 ==> c.symbol == stem)
      && (n >= 2 ==> |c.symbol| > |stem| && c.symbol[..|stem| + 1] == stem + ":" && Number(c.symbol[|stem| + 1..]) == n)
  {
    ReadsBack(n);
    var c, stem := Candidate(line, n), line.symbol + ":" + line.token.security;
    if n >= 2 {
      assert c.symbol == stem + ":" + Decimal(n);
      assert c.symbol[|stem| + 1..] == Decimal(n);
    }
    hide Decimal, Number;
  }

  ghost function Tried(line: Line, n: nat): set<Identity> {
    set i | 0 <= i < n :: Candidate(line, i)
  }

  lemma OneMoreTried(line: Line, n: nat)
    ensures Tried(line, n + 1) == Tried(line, n) + {Candidate(line, n)} && Candidate(line, n) !in Tried(line, n)
  {
    forall i | 0 <= i < n
      ensures Candidate(line, i) != Candidate(line, n)
    {
      CandidatesDiffer(line, i, n);
    }
  }

  /** The first symbol from the n-th on that is free. It exists because a finite table cannot hold them all. */
  function FirstFree(identities: set<Identity>, line: Line, n: nat): (free: nat)
    ensures n <= free && Candidate(line, free) !in identities
    ensures forall i :: n <= i < free ==> Candidate(line, i) in identities
    decreases identities - Tried(line, n)
  {
    if Candidate(line, n) !in identities then n
    else
      OneMoreTried(line, n);
      assert Candidate(line, n) in identities - Tried(line, n);
      FirstFree(identities, line, n + 1)
  }

  // ---------------------------------------------------------------- the import

  function IndexOf(table: seq<Instrument>): Index {
    if table == [] then Index(map[], map[], {})
    else
      var n := |table| - 1;
      var index, item := IndexOf(table[..n]), table[n];
      var index2 := index.(identities := index.identities + {item.identity});
      match item.token
      case NoToken => index2
      case Structured(key) => index2.(byToken := index.byToken[key := n])
      case Scalar(text) =>
        index2.(byToken := index.byToken[TokenKey("", text) := n],
                legacy := index.legacy[text := if text in index.legacy then None else Some(n)])
  }

  /** The row a token belongs to: the one with this token, else the only one with its security id as a token of the old kind. */
  function Found(index: Index, key: TokenKey): Option<nat> {
    if key in index.byToken then Some(index.byToken[key])
    else if key.security in index.legacy then index.legacy[key.security]
    else None
  }

  function Upsert(item: Instrument, line: Line): Instrument {
    item.(token := Structured(line.token), details := line.details, active := true)
  }

  function NewInstrument(identity: Identity, line: Line): Instrument {
    Instrument(identity, Structured(line.token), line.details, true)
  }

  function Import1(s: State, line: Option<Line>): State {
    match line
    case None => s.(skipped := s.skipped + 1)
    case Some(v) =>
      match Found(s.index, v.token)
      case Some(i) =>
        if i < |s.table| then s.(table := s.table[i := Upsert(s.table[i], v)], updated := s.updated + 1) else s
      case None =>
        var identity := Candidate(v, FirstFree(s.index.identities, v, 0));
        s.(table := s.table + [NewInstrument(identity, v)],
           index := s.index.(byToken := s.index.byToken[v.token := |s.table|], identities := s.index.identities + {identity}),
           created := s.created + 1)
  }

  function ImportFrom(s: State, file: seq<Option<Line>>): State {
    if file == [] then s else Import1(ImportFrom(s, file[..|file| - 1]), file[|file| - 1])
  }

  function Begin(table: seq<Instrument>): State {
    State(table, IndexOf(table), 0, 0, 0)
  }

  function Import(table: seq<Instrument>, file: seq<Option<Line>>): State {
    ImportFrom(Begin(table), file)
  }

  // ---------------------------------------------------------------- identities stay unique

  predicate UniqueIdentities(table: seq<Instrument>) {
    forall i, j :: 0 <= i < j < |table| ==> table[i].identity != table[j].identity
  }

  /** The index points into the table and knows exactly its identities. */
  ghost predicate Indexed(s: State) {
    && (forall k :: k in s.index.byToken ==> s.index.byToken[k] < |s.table|)
    && (forall t :: t in s.index.legacy && s.index.legacy[t].Some? ==> s.index.legacy[t].value < |s.table|)
    && (forall i :: 0 <= i < |s.table| ==> s.table[i].identity in s.index.identities)
    && (forall x :: x in s.index.identities ==> exists i :: 0 <= i < |s.table| && s.table[i].identity == x)
  }

  lemma {:induction false} BeginIndexed(table: seq<Instrument>)
    ensures Indexed(Begin(table))
    decreases |table|
  {
    if table != [] {
      var n := |table| - 1;
      BeginIndexed(table[..n]);
      var index := IndexOf(table);
      forall x | x in index.identities
        ensures exists i :: 0 <= i < |table| && table[i].identity == x
      {
        if x in IndexOf(table[..n]).identities {
          var i :| 0 <= i < n && table[..n][i].identity == x;
          assert table[i].identity == x;
        } else {
          assert table[n].identity == x;
        }
      }
      forall i | 0 <= i < |table|
        ensures table[i].identity in index.identities
      {
        if i < n {
          assert table[..n][i].identity in IndexOf(table[..n]).identities;
        }
      }
    }
  }

  lemma LineKeepsIndexed(s: State, line: Option<Line>)
    requires Indexed(s)
    ensures Indexed(Import1(s, line))
  {
    hide Candidate;
    var s2 := Import1(s, line);
    forall x | x in s2.index.identities
      ensures exists i :: 0 <= i < |s2.table| && s2.table[i].identity == x
    {
      if x in s.index.identities {
        var i :| 0 <= i < |s.table| && s.table[i].identity == x;
        assert s2.table[i].identity == x;
      } else {
        assert s2.table[|s.table|].identity == x;
      }
    }
  }

  lemma LineKeepsUnique(s: State, line: Option<Line>)
    requires Indexed(s) && UniqueIdentities(s.table)
    ensures Indexed(Import1(s, line)) && UniqueIdentities(Import1(s, line).table)
    ensures |Import1(s, line).table| - Import1(s, line).created == |s.table| - s.created
    ensures var s2 := Import1(s, line); s2.created + s2.updated + s2.skipped == s.created + s.updated + s.skipped + 1
  {
    LineKeepsIndexed(s, line);
    hide Candidate;
  }

  /** For every table, legacy tokens included: identities stay unique, no row is lost, and every line is accounted for. */
  lemma {:induction false} ImportKeepsUnique(table: seq<Instrument>, file: seq<Option<Line>>)
    requires UniqueIdentities(table)
    ensures var s := Import(table, file);
      && Indexed(s) && UniqueIdentities(s.table)
      && |s.table| == |table| + s.created && s.created + s.updated + s.skipped == |file|
    decreases |file|
  {
    if file == [] {
      BeginIndexed(table);
    } else {
      ImportKeepsUnique(table, file[..|file| - 1]);
      LineKeepsUnique(Import(table, file[..|file| - 1]), file[|file| - 1]);
      hide Import1, Indexed;
    }
  }

  // ---------------------------------------------------------------- what the index says about the table

  predicate StructuredIn(table: seq<Instrument>, key: TokenKey) {
    exists i :: 0 <= i < |table| && table[i].token == Structured(key)
  }

  /** Row `i` is the only one with this token of the old kind. */
  predicate HeldBy(table: seq<Instrument>, text: string, i: nat) {
    && i < |table| && table[i].token == Scalar(text)
    && forall j :: 0 <= j < |table| && table[j].token == Scalar(text) ==> j == i
  }

  predicate HeldOnce(table: seq<Instrument>, text: string) {
    exists i :: 0 <= i < |table| && HeldBy(table, text, i)
  }

  /** The last row with this token. */
  predicate LastWith(table: seq<Instrument>, key: TokenKey, i: nat) {
    && i < |table| && table[i].token == Structured(key)
    && forall j :: i < j < |table| ==> table[j].token != Structured(key)
  }

  lemma IndexGrows(table: seq<Instrument>, item: Instrument)
    ensures IndexOf(table + [item]).byToken
         == match item.token
            case NoToken => IndexOf(table).byToken
            case Structured(key) => IndexOf(table).byToken[key := |table|]
            case Scalar(text) => IndexOf(table).byToken[TokenKey("", text) := |table|]
    ensures IndexOf(table + [item]).legacy
         == if item.token.Scalar?
            then IndexOf(table).legacy[item.token.text := if item.token.text in IndexOf(table).legacy then None else Some(|table|)]
            else IndexOf(table).legacy
  {
    assert (table + [item])[..|table|] == table;
  }

  lemma {:induction false} TokenIndex(table: seq<Instrument>, key: TokenKey)
    requires key.feed != ""
    ensures key in IndexOf(table).byToken <==> StructuredIn(table, key)
    ensures key in IndexOf(table).byToken ==> LastWith(table, key, IndexOf(table).byToken[key])
    decreases |table|
  {
    if table != [] {
      var init, item := table[..|table| - 1], table[|table| - 1];
      TokenIndex(init, key);
      IndexGrows(init, item);
      assert table == init + [item];
      hide IndexOf;
      assert StructuredIn(table, key) <==> StructuredIn(init, key) || item.token == Structured(key) by {
        if StructuredIn(init, key) {
          var i :| 0 <= i < |init| && init[i].token == Structured(key);
          assert table[i].token == Structured(key);
        }
      }
      hide StructuredIn;
    }
  }

  predicate Holds(table: seq<Instrument>, text: string) {
    exists i :: 0 <= i < |table| && table[i].token == Scalar(text)
  }

  lemma {:induction false} LegacyIndex(table: seq<Instrument>, text: string)
    ensures text in IndexOf(table).legacy <==> Holds(table, text)
    ensures forall i: nat :: text in IndexOf(table).legacy && IndexOf(table).legacy[text] == Some(i) <==> HeldBy(table, text, i)
    decreases |table|
  {
    if table != [] {
      var init, item := table[..|table| - 1], table[|table| - 1];
      LegacyIndex(init, text);
      IndexGrows(init, item);
      assert table == init + [item];
      hide IndexOf;
      HoldsMore(init, item, text);
      hide Holds;
    }
  }

  lemma HoldsMore(table: seq<Instrument>, item: Instrument, text: string)
    ensures Holds(table + [item], text) <==> Holds(table, text) || item.token == Scalar(text)
    ensures forall i: nat :: HeldBy(table + [item], text, i) <==>
      if item.token == Scalar(text) then i == |table| && !Holds(table, text) else HeldBy(table, text, i)
  {
    var more := table + [item];
    assert forall i :: 0 <= i < |table| ==> more[i] == table[i];
    assert more[|table|] == item;
    if Holds(table, text) {
      var i :| 0 <= i < |table| && table[i].token == Scalar(text);
      assert more[i].token == Scalar(text);
    }
    forall i: nat | HeldBy(table, text, i) && item.token != Scalar(text)
      ensures HeldBy(more, text, i)
    {
      assert more[i].token == Scalar(text);
    }
  }

  // ---------------------------------------------------------------- what an import leaves in the rows

  predicate HasKey(file: seq<Option<Line>>, key: TokenKey) {
    exists i :: 0 <= i < |file| && file[i].Some? && file[i].value.token == key
  }

  /** The last line of the file that belongs to row `i`. */
  function LastAt(index: Index, file: seq<Option<Line>>, i: nat): (line: Option<Line>)
    ensures line.Some? ==> HasKey(file, line.value.token) && Found(index, line.value.token) == Some(i)
    ensures line.None? ==> forall key :: HasKey(file, key) ==> Found(index, key) != Some(i)
  {
    if file == [] then None
    else
      var init, last := file[..|file| - 1], file[|file| - 1];
      assert file == init + [last];
      assert forall key :: HasKey(file, key) <==> HasKey(init, key) || (last.Some? && last.value.token == key) by {
        KeysMore(init, last);
      }
      if last.Some? && Found(index, last.value.token) == Some(i) then last else LastAt(index, init, i)
  }

  lemma KeysMore(file: seq<Option<Line>>, last: Option<Line>)
    ensures forall key :: HasKey(file + [last], key) <==> HasKey(file, key) || (last.Some? && last.value.token == key)
  {
    var more := file + [last];
    assert more[|file|] == last && forall i :: 0 <= i < |file| ==> more[i] == file[i];
    forall key | HasKey(file, key)
      ensures HasKey(more, key)
    {
      var i :| 0 <= i < |file| && file[i].Some? && file[i].value.token == key;
      assert more[i].Some? && more[i].value.token == key;
    }
  }

  /** The row says what the line says. */
  /** The row has the line's token and columns, and is active. */
  predicate Shows(item: Instrument, line: Line) {
    item.token == Structured(line.token) && item.details == line.details && item.active
  }

  lemma ShownOnce(a: Instrument, b: Instrument, line: Line)
    requires Shows(a, line) && Shows(b, line) && a.identity == b.identity
    ensures a == b
  {
  }

  /** Where a token of `known` belongs does not change from `a` to `b`. */
  ghost predicate KeepsHomes(a: Index, b: Index) {
    forall key {:trigger Found(a, key)} {:trigger Found(b, key)} :: Found(a, key).Some? ==> Found(b, key) == Found(a, key)
  }

  lemma {:induction false} SameLast(a: Index, b: Index, file: seq<Option<Line>>, i: nat)
    requires forall key :: HasKey(file, key) ==> Found(b, key) == Found(a, key)
    ensures LastAt(b, file, i) == LastAt(a, file, i)
  {
    if file != [] {
      KeysMore(file[..|file| - 1], file[|file| - 1]);
      assert file == file[..|file| - 1] + [file[|file| - 1]];
      SameLast(a, b, file[..|file| - 1], i);
    }
  }

  /** After an import each row shows the last line that belongs to it, or is as it was before. */
  ghost predicate Written(before: seq<Instrument>, s: State, file: seq<Option<Line>>) {
    && |before| <= |s.table|
    && (forall i :: 0 <= i < |before| ==> s.table[i].identity == before[i].identity)
    && (forall key :: HasKey(file, key) ==> Found(s.index, key).Some? && Found(s.index, key).value < |s.table|)
    && (forall i :: 0 <= i < |s.table| ==>
          if LastAt(s.index, file, i).Some? then Shows(s.table[i], LastAt(s.index, file, i).value)
          else i < |before| && s.table[i] == before[i])
  }

  lemma LineKeepsHomes(s: State, line: Option<Line>)
    requires Indexed(s)
    ensures KeepsHomes(s.index, Import1(s, line).index)
    ensures line.Some? ==>
      && Found(Import1(s, line).index, line.value.token).Some?
      && Found(Import1(s, line).index, line.value.token).value < |Import1(s, line).table|
  {
    hide Candidate;
  }

  lemma LastMore(index: Index, file: seq<Option<Line>>, line: Option<Line>, i: nat)
    ensures LastAt(index, file + [line], i)
         == if line.Some? && Found(index, line.value.token) == Some(i) then line else LastAt(index, file, i)
  {
    assert (file + [line])[..|file|] == file;
  }

  lemma LineWrites(before: seq<Instrument>, s: State, file: seq<Option<Line>>, line: Option<Line>)
    requires Indexed(s) && Written(before, s, file)
    ensures Written(before, Import1(s, line), file + [line])
  {
    var s2 := Import1(s, line);
    LineKeepsHomes(s, line);
    KeysMore(file, line);
    hide HasKey, LastAt, Indexed;
    forall i | 0 <= i < |s2.table|
      ensures if LastAt(s2.index, file + [line], i).Some? then Shows(s2.table[i], LastAt(s2.index, file + [line], i).value)
              else i < |before| && s2.table[i] == before[i]
    {
      LastMore(s2.index, file, line, i);
      SameLast(s.index, s2.index, file, i);
    }
    hide Candidate;
  }

  // ---------------------------------------------------------------- where tokens belong

  /** The tokens the import added belong to rows of their own, after those of the table. */
  ghost predicate Homed(table: seq<Instrument>, index: Index) {
    && index.legacy == IndexOf(table).legacy
    && (forall key :: key in IndexOf(table).byToken ==>
          key in index.byToken && index.byToken[key] == IndexOf(table).byToken[key])
    && (forall key :: key in index.byToken && key !in IndexOf(table).byToken ==> index.byToken[key] >= |table|)
    && (forall a, b :: a in index.byToken && b in index.byToken && a !in IndexOf(table).byToken && b !in IndexOf(table).byToken ==>
          (index.byToken[a] == index.byToken[b] ==> a == b))
  }

  lemma LineKeepsHomed(table: seq<Instrument>, s: State, line: Option<Line>)
    requires Indexed(s) && Homed(table, s.index) && |table| <= |s.table|
    ensures Homed(table, Import1(s, line).index)
  {
    hide Candidate, IndexOf;
  }

  ghost predicate ImportedSo(table: seq<Instrument>, s: State, file: seq<Option<Line>>) {
    Indexed(s) && Written(table, s, file) && Homed(table, s.index) && KeepsHomes(IndexOf(table), s.index)
  }

  lemma {:induction false} ImportIsSo(table: seq<Instrument>, file: seq<Option<Line>>)
    ensures ImportedSo(table, Import(table, file), file)
    decreases |file|
  {
    if file == [] {
      BeginIndexed(table);
      hide IndexOf;
    } else {
      var init, last := file[..|file| - 1], file[|file| - 1];
      var s := Import(table, init);
      assert file == init + [last];
      ImportIsSo(table, init);
      LineKeepsIndexed(s, last);
      LineWrites(table, s, init, last);
      assert |table| <= |s.table|;
      LineKeepsHomed(table, s, last);
      LineKeepsHomes(s, last);
      hide IndexOf, Import1, Indexed, Written, Homed, Found;
    }
  }

  /** Every line names the segment its security id belongs to. */
  predicate Feeds(file: seq<Option<Line>>) {
    forall i :: 0 <= i < |file| && file[i].Some? ==> file[i].value.token.feed != ""
  }

  /** Two tokens, neither in the table, whose security id one row holds as a token of the old kind. */
  predicate Clash(table: seq<Instrument>, a: TokenKey, b: TokenKey) {
    a != b && a.security == b.security && HeldOnce(table, a.security) && !StructuredIn(table, a) && !StructuredIn(table, b)
  }

  /** For each token of the old kind that one row holds: the lines with its security id, apart from those whose own token is
      in the table, all carry one token. */
  predicate OneKeyEach(table: seq<Instrument>, file: seq<Option<Line>>) {
    forall i, j :: 0 <= i < |file| && 0 <= j < |file| && file[i].Some? && file[j].Some? ==>
      !Clash(table, file[i].value.token, file[j].value.token)
  }

  lemma KeyHasFeed(file: seq<Option<Line>>, key: TokenKey)
    requires Feeds(file) && HasKey(file, key)
    ensures key.feed != ""
  {
  }

  lemma OneKey(table: seq<Instrument>, file: seq<Option<Line>>, a: TokenKey, b: TokenKey)
    requires OneKeyEach(table, file) && HasKey(file, a) && HasKey(file, b)
    ensures !Clash(table, a, b)
  {
    hide Clash;
  }

  /** In the table before the import: the row found has the token itself, or is the only holder of the security id. */
  lemma FoundInTable(table: seq<Instrument>, key: TokenKey, i: nat)
    requires key.feed != "" && Found(IndexOf(table), key) == Some(i)
    ensures if StructuredIn(table, key) then LastWith(table, key, i) else HeldBy(table, key.security, i)
  {
    TokenIndex(table, key);
    LegacyIndex(table, key.security);
    hide IndexOf, StructuredIn, LastWith, HeldBy, Holds;
  }

  /** Under the condition, two tokens of the file never belong to one row. */
  lemma HomesDiffer(table: seq<Instrument>, s: State, file: seq<Option<Line>>, a: TokenKey, b: TokenKey, i: nat)
    requires ImportedSo(table, s, file) && Feeds(file) && OneKeyEach(table, file)
    requires HasKey(file, a) && HasKey(file, b) && Found(s.index, a) == Found(s.index, b) == Some(i)
    ensures a == b
  {
    KeyHasFeed(file, a);
    KeyHasFeed(file, b);
    BeginIndexed(table);
    HomeIs(table, s.index, a, i);
    HomeIs(table, s.index, b, i);
    hide IndexOf, Written, OneKeyEach, StructuredIn, HasKey, Feeds, KeepsHomes;
    if i < |table| {
      FoundInTable(table, a, i);
      FoundInTable(table, b, i);
      OneKey(table, file, a, b);
    }
  }

  /** A row of the table is found as it was before the import; a row after it only by its own new token. */
  lemma HomeIs(table: seq<Instrument>, index: Index, key: TokenKey, i: nat)
    requires Homed(table, index) && Indexed(Begin(table)) && Found(index, key) == Some(i)
    ensures i < |table| ==> Found(IndexOf(table), key) == Some(i)
    ensures i >= |table| ==> key in index.byToken && key !in IndexOf(table).byToken && index.byToken[key] == i
  {
    hide IndexOf;
  }

  // ---------------------------------------------------------------- a second import

  /** An import creates nothing exactly when every token of the file is found in the table it starts from. */
  lemma {:induction false} CreatesNothing(table: seq<Instrument>, file: seq<Option<Line>>)
    ensures var s := Import(table, file);
      && |s.table| == |table| + s.created
      && (s.created == 0 ==> s.index == IndexOf(table))
      && (s.created == 0 <==> forall key :: HasKey(file, key) ==> Found(IndexOf(table), key).Some?)
    decreases |file|
  {
    if file != [] {
      var init, last := file[..|file| - 1], file[|file| - 1];
      assert file == init + [last];
      CreatesNothing(table, init);
      KeysMore(init, last);
      ImportIsSo(table, init);
      hide Candidate, IndexOf, Found, Written, Homed, KeepsHomes, HasKey;
      var s := Import(table, init);
      if last.Some? && Found(s.index, last.value.token).Some? {
        FoundIsRow(s, last.value.token);
      }
    }
  }

  lemma FoundIsRow(s: State, key: TokenKey)
    requires Indexed(s) && Found(s.index, key).Some?
    ensures Found(s.index, key).value < |s.table|
  {
  }

  /** What the token of a row is after an import. */
  lemma ShowsKey(table: seq<Instrument>, s: State, file: seq<Option<Line>>, i: nat)
    requires Written(table, s, file) && i < |s.table|
    ensures if LastAt(s.index, file, i).Some? then s.table[i].token == Structured(LastAt(s.index, file, i).value.token)
            else i < |table| && s.table[i].token == table[i].token
  {
    hide LastAt, Found;
  }

  /** Under the condition, the row a token belongs to is the last one that has it after the import. */
  lemma LastHome(table: seq<Instrument>, s: State, file: seq<Option<Line>>, key: TokenKey, home: nat)
    requires ImportedSo(table, s, file) && Feeds(file) && OneKeyEach(table, file) && HasKey(file, key)
    requires Found(s.index, key) == Some(home)
    ensures LastWith(s.table, key, home)
  {
    KeyHasFeed(file, key);
    BeginIndexed(table);
    TokenIndex(table, key);
    HomeIs(table, s.index, key, home);
    var last := LastAt(s.index, file, home);
    HomesDiffer(table, s, file, key, last.value.token, home);
    ShowsKey(table, s, file, home);
    hide LastAt, HasKey, OneKeyEach, Feeds, IndexOf;
    forall j | home < j < |s.table|
      ensures s.table[j].token != Structured(key)
    {
      ShowsKey(table, s, file, j);
      if LastAt(s.index, file, j).None? {
        assert table[j].token == Structured(key) ==> StructuredIn(table, key);
      }
    }
  }

  /** Under the condition, the second import finds every token where the first put it. */
  lemma FoundAgain(table: seq<Instrument>, s: State, file: seq<Option<Line>>, key: TokenKey)
    requires ImportedSo(table, s, file) && Feeds(file) && OneKeyEach(table, file) && HasKey(file, key)
    ensures Found(IndexOf(s.table), key) == Found(s.index, key) && Found(s.index, key).Some?
  {
    hide IndexOf, Indexed, Homed, KeepsHomes, LastAt, OneKeyEach, Found;
    KeyHasFeed(file, key);
    assert Found(s.index, key).Some?;
    LastHome(table, s, file, key, Found(s.index, key).value);
    FoundLast(s.table, key, Found(s.index, key).value);
  }

  lemma FoundLast(table: seq<Instrument>, key: TokenKey, i: nat)
    requires LastWith(table, key, i) && key.feed != ""
    ensures Found(IndexOf(table), key) == Some(i)
  {
    TokenIndex(table, key);
    hide IndexOf;
    assert StructuredIn(table, key);
  }

  /** Two clashing tokens belong to one row, which the second import finds by the last of them only. */
  lemma LostToken(table: seq<Instrument>, s: State, file: seq<Option<Line>>, key: TokenKey, i: nat)
    requires ImportedSo(table, s, file) && HasKey(file, key) && key.feed != ""
    requires !StructuredIn(table, key) && HeldBy(table, key.security, i)
    requires LastAt(s.index, file, i).Some? && LastAt(s.index, file, i).value.token != key
    requires Found(s.index, key) == Some(i)
    ensures Found(IndexOf(s.table), key) == None
  {
    var once := s.table;
    TokenIndex(once, key);
    LegacyIndex(once, key.security);
    forall j | 0 <= j < |once|
      ensures once[j].token != Structured(key) && once[j].token != Scalar(key.security)
    {
      ShowsKey(table, s, file, j);
      if LastAt(s.index, file, j).None? {
        assert table[j].token == once[j].token;
      }
    }
    hide IndexOf;
  }

  /** In the table, a clashing token is found at the row that holds its security id. */
  lemma ClashFound(table: seq<Instrument>, s: State, file: seq<Option<Line>>, key: TokenKey, i: nat)
    requires ImportedSo(table, s, file) && key.feed != ""
    requires !StructuredIn(table, key) && HeldBy(table, key.security, i)
    ensures Found(s.index, key) == Some(i)
  {
    TokenIndex(table, key);
    LegacyIndex(table, key.security);
    assert Found(IndexOf(table), key) == Some(i);
    hide IndexOf, Written, Homed, Indexed;
  }

  /** Main result, an equivalence: importing a file again creates nothing, and leaves the table as the first import left it,
      exactly when no two of its tokens clash over a row of the table. */
  lemma SecondImportExactly(table: seq<Instrument>, file: seq<Option<Line>>)
    requires Feeds(file)
    ensures var once := Import(table, file).table;
      && (Import(once, file).created == 0 <==> OneKeyEach(table, file))
      && (Import(once, file).table == once <==> OneKeyEach(table, file))
  {
    var s := Import(table, file);
    ImportIsSo(table, file);
    CreatesNothing(s.table, file);
    if OneKeyEach(table, file) {
      forall key | HasKey(file, key)
        ensures Found(IndexOf(s.table), key) == Found(s.index, key)
        ensures Found(IndexOf(s.table), key).Some?
      {
        FoundAgain(table, s, file, key);
      }
      SameTable(table, s, file);
    } else {
      ClashCreates(table, s, file);
    }
  }

  lemma SameTable(table: seq<Instrument>, s: State, file: seq<Option<Line>>)
    requires ImportedSo(table, s, file) && Import(s.table, file).created == 0
    requires forall key :: HasKey(file, key) ==> Found(IndexOf(s.table), key) == Found(s.index, key)
    ensures Import(s.table, file).table == s.table
  {
    var again := Import(s.table, file);
    CreatesNothing(s.table, file);
    ImportIsSo(s.table, file);
    hide Import, IndexOf, Found, HasKey, Indexed, Homed, KeepsHomes;
    forall i | 0 <= i < |s.table|
      ensures again.table[i] == s.table[i]
    {
      SameLast(s.index, again.index, file, i);
      if LastAt(s.index, file, i).Some? {
        ShownOnce(again.table[i], s.table[i], LastAt(s.index, file, i).value);
      }
    }
  }

  lemma ClashCreates(table: seq<Instrument>, s: State, file: seq<Option<Line>>)
    requires ImportedSo(table, s, file) && Feeds(file) && !OneKeyEach(table, file)
    ensures exists key :: HasKey(file, key) && Found(IndexOf(s.table), key).None?
  {
    var i, j :| 0 <= i < |file| && 0 <= j < |file| && file[i].Some? && file[j].Some?
      && Clash(table, file[i].value.token, file[j].value.token);
    var a, b := file[i].value.token, file[j].value.token;
    assert HasKey(file, a) && HasKey(file, b) && a.feed != "" && b.feed != "";
    var row :| 0 <= row < |table| && HeldBy(table, a.security, row);
    hide IndexOf, Found, HasKey, StructuredIn, HeldBy;
    ClashFound(table, s, file, a, row);
    ClashFound(table, s, file, b, row);
    assert LastAt(s.index, file, row).Some?;
    if LastAt(s.index, file, row).value.token == a {
      LostToken(table, s, file, b, row);
    } else {
      LostToken(table, s, file, a, row);
    }
  }

  lemma IndexOfOne(item: Instrument)
    ensures IndexOf([item])
         == Index(match item.token case NoToken => map[] case Structured(key) => map[key := 0] case Scalar(text) => map[TokenKey("", text) := 0],
                  if item.token.Scalar? then map[item.token.text := Some(0)] else map[],
                  {item.identity})
  {
    assert [item][..0] == [];
    assert IndexOf([item][..0]) == Index(map[], map[], {});
  }

  /** With a token of the old kind it is not so: two lines share a security id on two exchanges, the first import gives
      both to the one old row, and the second creates another. */
  lemma OldTokensBreakIdempotence(details: Details)
    ensures var row := Instrument(Identity("NSE", "EQ", "A"), Scalar("1"), details, true);
      var file := [Some(Line("NSE", "EQ", "A", TokenKey("NSE_EQ", "1"), details)),
                   Some(Line("BSE", "EQ", "A", TokenKey("BSE_EQ", "1"), details))];
      var once := Import([row], file);
      once.created == 0 && once.updated == 2 && Import(once.table, file).created == 1
  {
    var row := Instrument(Identity("NSE", "EQ", "A"), Scalar("1"), details, true);
    var first, second := Line("NSE", "EQ", "A", TokenKey("NSE_EQ", "1"), details), Line("BSE", "EQ", "A", TokenKey("BSE_EQ", "1"), details);
    var file := [Some(first), Some(second)];
    assert file[..1] == [Some(first)] && [Some(first)][..0] == [];
    IndexOfOne(row);
    var s0 := Begin([row]);
    assert s0.index.byToken == map[TokenKey("", "1") := 0] && s0.index.legacy == map["1" := Some(0)];
    var s1 := Import1(s0, Some(first));
    assert s1.table == [Upsert(row, first)];
    var s2 := Import1(s1, Some(second));
    assert s2.table == [Upsert(row, second)];
    assert ImportFrom(s0, []) == s0 && ImportFrom(s0, [Some(first)]) == s1 && Import([row], file) == s2;
    var again := Begin(s2.table);
    IndexOfOne(s2.table[0]);
    assert again.index.byToken == map[second.token := 0] && again.index.legacy == map[];
    var t1 := Import1(again, Some(first));
    assert t1.created == 1 && t1.index.byToken[second.token] == 0;
    assert ImportFrom(again, []) == again && ImportFrom(again, [Some(first)]) == t1;
    assert Import(s2.table, file) == Import1(t1, Some(second));
  }

  // ---------------------------------------------------------------- the importer's own loops

  method ImportInstruments(table: seq<Instrument>, file: seq<Option<Line>>) returns (s: State)
    requires UniqueIdentities(table)
    ensures s == Import(table, file)
  {
    var index := Index(map[], map[], {});
    var n := 0;
    while n < |table|
      invariant 0 <= n <= |table| && index == IndexOf(table[..n])
    {
      var item := table[n];
      assert table[..n + 1][..n] == table[..n];
      match item.token {
        case NoToken =>
        case Structured(key) => index := index.(byToken := index.byToken[key := n]);
        case Scalar(text) =>
          index := index.(byToken := index.byToken[TokenKey("", text) := n],
                          legacy := index.legacy[text := if text in index.legacy then None else Some(n)]);
      }
      index := index.(identities := index.identities + {item.identity});
      n := n + 1;
    }
    assert table[..n] == table;
    s := State(table, index, 0, 0, 0);
    var i := 0;
    while i < |file|
      invariant 0 <= i <= |file| && s == Import(table, file[..i])
    {
      assert file[..i + 1][..i] == file[..i];
      ImportKeepsUnique(table, file[..i]);
      s := ImportLine(s, file[i]);
      i := i + 1;
    }
    assert file[..i] == file;
  }

  method ImportLine(s: State, line: Option<Line>) returns (s2: State)
    requires Indexed(s)
    ensures s2 == Import1(s, line)
  {
    if line.None? {
      return s.(skipped := s.skipped + 1);
    }
    var v := line.value;
    var found := Found(s.index, v.token);
    if found.None? {
      var suffix := Probe(s.index.identities, v);
      var identity := Candidate(v, suffix);
      s2 := s.(table := s.table + [NewInstrument(identity, v)],
               index := s.index.(byToken := s.index.byToken[v.token := |s.table|],
                                 identities := s.index.identities + {identity}),
               created := s.created + 1);
    } else {
      s2 := s.(table := s.table[found.value := Upsert(s.table[found.value], v)], updated := s.updated + 1);
    }
  }

  /** The probing loop. */
  method Probe(identities: set<Identity>, line: Line) returns (suffix: nat)
    ensures suffix == FirstFree(identities, line, 0)
  {
    var identity := Candidate(line, 0);
    suffix := 0;
    ghost var left := identities - Tried(line, 0);
    while identity in identities
      invariant identity == Candidate(line, suffix) && left == identities - Tried(line, suffix)
      invariant FirstFree(identities, line, 0) == FirstFree(identities, line, suffix)
      decreases left
    {
      OneMoreTried(line, suffix);
      assert identity in left;
      left := left - {identity};
      suffix := suffix + 1;
      identity := Candidate(line, suffix);
    }
  }
}
