/** Where each field of the broker's packets lies, byte by byte (backend/app/market/dhan.py). */
module Offsets {
  import opened Codec
  import opened Frames
  import Stream

  /** Two and four bytes, the lowest first. */
  function Two(b: seq<Byte>, at: nat): nat
    requires at + 2 <= |b|
  {
    b[at] + 256 * (b[at + 1] as int)
  }

  function Four(b: seq<Byte>, at: nat): nat
    requires at + 4 <= |b|
  {
    b[at] + 256 * (b[at + 1] as int) + 65536 * (b[at + 2] as int) + 16777216 * (b[at + 3] as int)
  }

  /** The value a structure has at a place, read at its offset. */
  function ValueAt(kind: Kind, b: seq<Byte>, at: nat): Value
    requires at + Width(kind) <= |b|
  {
    match kind
    case U8 => Num(b[at])
    case U16 => Num(Two(b, at))
    case U32 => Num(Four(b, at))
    case _ => Bits(b[at..at + Width(kind)])
  }

  lemma ReadIs(kind: Kind, b: seq<Byte>, at: nat)
    requires at + Width(kind) <= |b|
    ensures Read(kind, b[at..at + Width(kind)]) == ValueAt(kind, b, at)
  {
    var part := b[at..at + Width(kind)];
    if kind.U8? {
      assert part[1..] == [];
      assert FromLittle(part) == part[0] + 256 * FromLittle(part[1..]);
    } else if kind.U16? {
      TwoIs(part);
    } else if kind.U32? {
      TwoIs(part[2..]);
      assert part[1..][1..] == part[2..];
      assert FromLittle(part[1..]) == part[1] + 256 * FromLittle(part[2..]);
    }
  }

  lemma TwoIs(b: seq<Byte>)
    requires |b| == 2
    ensures FromLittle(b) == Two(b, 0)
  {
    assert b[1..][1..] == [];
    assert FromLittle(b[1..]) == b[1] + 256 * FromLittle(b[1..][1..]);
  }

  /** The values of a structure that starts at a place. */
  function Fields(layout: seq<Kind>, b: seq<Byte>, at: nat): (values: seq<Value>)
    requires at + Size(layout) <= |b|
    ensures |values| == |layout|
  {
    if layout == [] then []
    else [ValueAt(layout[0], b, at)] + Fields(layout[1..], b, at + Width(layout[0]))
  }

  lemma {:induction false} UnpackIs(layout: seq<Kind>, b: seq<Byte>, at: nat)
    requires at + Size(layout) <= |b|
    ensures Unpack(layout, b[at..]) == Fields(layout, b, at)
    decreases |layout|
  {
    hide ValueAt, Read;
    if layout != [] {
      var w := Width(layout[0]);
      ReadIs(layout[0], b, at);
      assert b[at..][..w] == b[at..at + w] && b[at..][w..] == b[at + w..];
      UnpackIs(layout[1..], b, at + w);
    }
  }

  lemma {:induction false} FieldsJoin(a: seq<Kind>, c: seq<Kind>, b: seq<Byte>, at: nat)
    requires at + Size(a) + Size(c) <= |b|
    ensures Size(a + c) == Size(a) + Size(c)
    ensures Fields(a + c, b, at) == Fields(a, b, at) + Fields(c, b, at + Size(a))
    decreases |a|
  {
    hide ValueAt;
    if a == [] {
      assert a + c == c;
    } else {
      assert (a + c)[1..] == a[1..] + c;
      FieldsJoin(a[1..], c, b, at + Width(a[0]));
    }
  }

  lemma OneField(k: Kind, b: seq<Byte>, at: nat)
    requires at + Width(k) <= |b|
    ensures Size([k]) == Width(k) && Fields([k], b, at) == [ValueAt(k, b, at)]
  {
    assert [k][1..] == [];
  }

  lemma TwoFields(k: Kind, l: Kind, b: seq<Byte>, at: nat)
    requires at + Width(k) + Width(l) <= |b|
    ensures Size([k, l]) == Width(k) + Width(l)
    ensures Fields([k, l], b, at) == [ValueAt(k, b, at), ValueAt(l, b, at + Width(k))]
  {
    hide Size, Fields, ValueAt;
    OneField(k, b, at);
    OneField(l, b, at + Width(k));
    FieldsJoin([k], [l], b, at);
    assert [k, l] == [k] + [l];
  }

  lemma ThreeFields(k: Kind, l: Kind, m: Kind, b: seq<Byte>, at: nat)
    requires at + Width(k) + Width(l) + Width(m) <= |b|
    ensures Size([k, l, m]) == Width(k) + Width(l) + Width(m)
    ensures Fields([k, l, m], b, at)
         == [ValueAt(k, b, at), ValueAt(l, b, at + Width(k)), ValueAt(m, b, at + Width(k) + Width(l))]
  {
    hide Size, Fields, ValueAt;
    TwoFields(k, l, b, at);
    OneField(m, b, at + Width(k) + Width(l));
    FieldsJoin([k, l], [m], b, at);
    assert [k, l, m] == [k, l] + [m];
  }

  lemma FourFields(k: Kind, l: Kind, m: Kind, n: Kind, b: seq<Byte>, at: nat)
    requires at + Width(k) + Width(l) + Width(m) + Width(n) <= |b|
    ensures Size([k, l, m, n]) == Width(k) + Width(l) + Width(m) + Width(n)
    ensures Fields([k, l, m, n], b, at)
         == [ValueAt(k, b, at), ValueAt(l, b, at + Width(k)), ValueAt(m, b, at + Width(k) + Width(l)),
             ValueAt(n, b, at + Width(k) + Width(l) + Width(m))]
  {
    hide Size, Fields, ValueAt;
    TwoFields(k, l, b, at);
    TwoFields(m, n, b, at + Width(k) + Width(l));
    FieldsJoin([k, l], [m, n], b, at);
    assert [k, l, m, n] == [k, l] + [m, n];
  }

  // ---------------------------------------------------------------- the fields

  ghost predicate TradeLies(t: Trade, b: seq<Byte>)
    requires |b| >= 22
  {
    t.ltp == b[8..12] && t.ltq == Two(b, 12) && t.ltt == Four(b, 14) && t.average == b[18..22]
  }

  ghost predicate TotalsLie(t: Totals, b: seq<Byte>)
    requires |b| >= 34
  {
    t.volume == Four(b, 22) && t.sells == Four(b, 26) && t.buys == Four(b, 30)
  }

  ghost predicate PricesLie(p: Prices, b: seq<Byte>, at: nat)
    requires |b| >= at + 16
  {
    p.open == b[at..at + 4] && p.close == b[at + 4..at + 8] && p.high == b[at + 8..at + 12] && p.low == b[at + 12..at + 16]
  }

  ghost predicate LevelLies(l: Level, b: seq<Byte>, at: nat)
    requires |b| >= at + 20
  {
    l.bidQuantity == Four(b, at) && l.askQuantity == Four(b, at + 4) && l.bidOrders == Two(b, at + 8)
    && l.askOrders == Two(b, at + 10) && l.bid == b[at + 12..at + 16] && l.ask == b[at + 16..at + 20]
  }

  ghost predicate BodyLies(code: nat, body: Body, b: seq<Byte>)
    requires |b| >= 8
  {
    match code
    case 2 => |b| >= 16 && body == Ticker(b[8..12], Four(b, 12))
    case 4 =>
      && |b| >= 50 && body.Quoted?
      && TradeLies(body.trade, b) && TotalsLie(body.totals, b) && PricesLie(body.prices, b, 34)
    case 5 => |b| >= 12 && body == OpenInterest(Four(b, 8))
    case 6 => |b| >= 16 && body == PreviousClose(b[8..12], Four(b, 12))
    case 8 =>
      && |b| >= 162 && body.Full?
      && TradeLies(body.trade, b) && TotalsLie(body.totals, b)
      && body.interest == Interest(Four(b, 34), Four(b, 38), Four(b, 42)) && PricesLie(body.prices, b, 46)
      && |body.depth| == 5 && forall i :: 0 <= i < 5 ==> LevelLies(body.depth[i], b, 62 + 20 * i)
    case 50 => |b| >= 10 && body == Disconnected(Two(b, 8))
    case _ => body == Unread
  }

  lemma HeaderLies(b: seq<Byte>)
    requires |b| >= 8
    ensures Size(HEADER) == 8 && Fields(HEADER, b, 0) == [Num(b[0]), Num(Two(b, 1)), Num(b[3]), Num(Four(b, 4))]
    ensures Unpack(HEADER, b) == Fields(HEADER, b, 0)
  {
    FourFields(U8, U16, U8, U32, b, 0);
    UnpackIs(HEADER, b, 0);
    assert b[0..] == b;
    hide Size, Fields;
  }

  /** Past its header a structure lies from the eighth byte on. */
  lemma BodyFields(rest: seq<Kind>, b: seq<Byte>)
    requires |b| >= 8 + Size(rest)
    ensures Size(HEADER + rest) == 8 + Size(rest) && Unpack(HEADER + rest, b)[4..] == Fields(rest, b, 8)
  {
    hide Fields, Size, Unpack;
    HeaderLies(b);
    FieldsJoin(HEADER, rest, b, 0);
    UnpackIs(HEADER + rest, b, 0);
    assert b[0..] == b;
  }

  lemma SmallLies(b: seq<Byte>)
    requires |b| >= 8
    ensures Size(TICKER) == 16 && Size(OPEN_INTEREST) == 12 && Size(DISCONNECT) == 10
    ensures |b| >= 16 ==> Unpack(TICKER, b)[4..] == [Bits(b[8..12]), Num(Four(b, 12))]
    ensures |b| >= 12 ==> Unpack(OPEN_INTEREST, b)[4..] == [Num(Four(b, 8))]
    ensures |b| >= 10 ==> Unpack(DISCONNECT, b)[4..] == [Num(Two(b, 8))]
  {
    Sizes();
    hide Size, Fields, Unpack;
    if |b| >= 16 {
      TwoFields(F32, U32, b, 8);
      BodyFields([F32, U32], b);
    }
    if |b| >= 12 {
      OneField(U32, b, 8);
      BodyFields([U32], b);
    }
    if |b| >= 10 {
      OneField(U16, b, 8);
      BodyFields([U16], b);
    }
  }

  lemma TradeIs(b: seq<Byte>)
    requires |b| >= 22
    ensures Size(TRADE) == 14 && TradeLies(TradeOf(Fields(TRADE, b, 8)), b)
  {
    FourFields(F32, U16, U32, F32, b, 8);
    hide Size, Fields;
  }

  lemma TotalsIs(b: seq<Byte>)
    requires |b| >= 34
    ensures Size(TOTALS) == 12 && TotalsLie(TotalsOf(Fields(TOTALS, b, 22)), b)
  {
    ThreeFields(U32, U32, U32, b, 22);
    hide Size, Fields;
  }

  lemma InterestIs(b: seq<Byte>)
    requires |b| >= 46
    ensures InterestOf(Fields(TOTALS, b, 34)) == Interest(Four(b, 34), Four(b, 38), Four(b, 42))
  {
    ThreeFields(U32, U32, U32, b, 34);
    hide Size, Fields;
  }

  lemma PricesIs(b: seq<Byte>, at: nat)
    requires |b| >= at + 16
    ensures Size(PRICES) == 16 && PricesLie(PricesOf(Fields(PRICES, b, at)), b, at)
  {
    FourFields(F32, F32, F32, F32, b, at);
    hide Size, Fields;
  }

  lemma QuoteLies(b: seq<Byte>)
    requires |b| >= 50
    ensures Size(QUOTE) == 50
    ensures var v := Unpack(QUOTE, b)[4..];
      && TradeLies(TradeOf(Part(v, 0, 4)), b) && TotalsLie(TotalsOf(Part(v, 4, 7)), b)
      && PricesLie(PricesOf(Part(v, 7, 11)), b, 34)
  {
    Sizes();
    hide Size, Fields, Unpack, TradeOf, TotalsOf, PricesOf, TradeLies, TotalsLie, PricesLie;
    TradeIs(b);
    TotalsIs(b);
    PricesIs(b, 34);
    FieldsJoin(TRADE, TOTALS, b, 8);
    FieldsJoin(TRADE + TOTALS, PRICES, b, 8);
    BodyFields(TRADE + TOTALS + PRICES, b);
    assert QUOTE == HEADER + (TRADE + TOTALS + PRICES);
    var t, n, p := Fields(TRADE, b, 8), Fields(TOTALS, b, 22), Fields(PRICES, b, 34);
    var v := t + n + p;
    assert Part(v, 0, 4) == t && Part(v, 4, 7) == n && Part(v, 7, 11) == p;
  }

  lemma FullLies(b: seq<Byte>)
    requires |b| >= 162
    ensures Size(FULL) == 162
    ensures var v := Unpack(FULL, b)[4..];
      && TradeLies(TradeOf(Part(v, 0, 4)), b) && TotalsLie(TotalsOf(Part(v, 4, 7)), b)
      && InterestOf(Part(v, 7, 10)) == Interest(Four(b, 34), Four(b, 38), Four(b, 42))
      && PricesLie(PricesOf(Part(v, 10, 14)), b, 46) && Part(v, 14, 15) == [Bits(b[62..162])]
  {
    Sizes();
    hide Size, Fields, Unpack, TradeOf, TotalsOf, InterestOf, PricesOf, TradeLies, TotalsLie, PricesLie, Part, Two, Four;
    TradeIs(b);
    TotalsIs(b);
    InterestIs(b);
    PricesIs(b, 46);
    OneField(Raw(100), b, 62);
    FieldsJoin(TRADE, TOTALS, b, 8);
    FieldsJoin(TRADE + TOTALS, TOTALS, b, 8);
    FieldsJoin(TRADE + TOTALS + TOTALS, PRICES, b, 8);
    FieldsJoin(TRADE + TOTALS + TOTALS + PRICES, [Raw(100)], b, 8);
    BodyFields(TRADE + TOTALS + TOTALS + PRICES + [Raw(100)], b);
    assert FULL == HEADER + (TRADE + TOTALS + TOTALS + PRICES + [Raw(100)]);
    FiveParts(Fields(TRADE, b, 8), Fields(TOTALS, b, 22), Fields(TOTALS, b, 34), Fields(PRICES, b, 46),
              [Bits(b[62..162])]);
  }

  lemma {:induction false} DepthLies(raw: seq<Byte>, i: nat)
    requires |raw| % 20 == 0 && 20 * i < |raw|
    ensures |Depth(raw)| == |raw| / 20 && LevelLies(Depth(raw)[i], raw, 20 * i)
    decreases i, |raw|
  {
    Sizes();
    LevelReads(raw);
    hide LevelOf;
    if i == 0 {
      if |raw| > 20 {
        DepthSize(raw[20..]);
      }
    } else {
      DepthLies(raw[20..], i - 1);
      LevelShifts(Depth(raw)[i], raw, 20, 20 * (i - 1));
    }
  }

  lemma {:induction false} DepthSize(raw: seq<Byte>)
    requires |raw| % 20 == 0
    ensures |Depth(raw)| == |raw| / 20
  {
    if raw != [] {
      DepthSize(raw[20..]);
    }
  }

  lemma LevelReads(raw: seq<Byte>)
    requires |raw| >= 20
    ensures Size(DEPTH_LEVEL) == 20
    ensures LevelLies(LevelOf(Unpack(DEPTH_LEVEL, raw)), raw, 0)
  {
    Sizes();
    LevelFields(raw);
    hide Size, Unpack, Two, Four;
  }

  lemma LevelFields(raw: seq<Byte>)
    requires |raw| >= 20
    ensures Size(DEPTH_LEVEL) == 20
    ensures Unpack(DEPTH_LEVEL, raw)
         == [Num(Four(raw, 0)), Num(Four(raw, 4)), Num(Two(raw, 8)), Num(Two(raw, 10)), Bits(raw[12..16]), Bits(raw[16..20])]
  {
    Sizes();
    hide Size, Unpack, Fields, Two, Four;
    ThreeFields(U32, U32, U16, raw, 0);
    ThreeFields(U16, F32, F32, raw, 10);
    FieldsJoin([U32, U32, U16], [U16, F32, F32], raw, 0);
    assert DEPTH_LEVEL == [U32, U32, U16] + [U16, F32, F32] && raw[0..] == raw;
    UnpackIs(DEPTH_LEVEL, raw, 0);
  }

  lemma LevelShifts(l: Level, b: seq<Byte>, shift: nat, at: nat)
    requires shift + at + 20 <= |b| && LevelLies(l, b[shift..], at)
    ensures LevelLies(l, b, shift + at)
  {
    Subslice(b, shift, |b|, at + 12, at + 16);
    Subslice(b, shift, |b|, at + 16, at + 20);
  }

  /** Main result: every field of an accepted frame is what stands at its place in the bytes, least significant byte first; the
      response code alone selects the kind of packet. */
  lemma FieldsLie(frame: seq<Byte>)
    requires |frame| >= 8
    ensures DecodeFrame(frame).Ok? ==>
      var p := DecodeFrame(frame).value;
      && p.code == frame[0] && p.length == Two(frame, 1) && p.exchange == frame[3] && p.security == Four(frame, 4)
      && BodyLies(p.code, p.body, frame)
    ensures DecodeFrame(frame).Err? <==>
      |frame| < (if frame[0] in {2, 6} then 16 else if frame[0] == 4 then 50 else if frame[0] == 5 then 12
                 else if frame[0] == 8 then 162 else if frame[0] == 50 then 10 else 8)
  {
    HeaderLies(frame);
    Sizes();
    hide Size, Unpack, Fields, BodyOf, BodyLies, Two, Four;
    var code := frame[0];
    if DecodeFrame(frame).Ok? {
      BodyIs(code, frame);
    }
  }

  lemma BodyIs(code: nat, b: seq<Byte>)
    requires |b| >= 8 && |b| >= Size(LayoutOf(code))
    ensures |Unpack(LayoutOf(code), b)| >= 4 && BodyLies(code, BodyOf(code, Unpack(LayoutOf(code), b)[4..]), b)
  {
    Sizes();
    hide Size, Unpack, Fields, Two, Four, TradeOf, TotalsOf, InterestOf, PricesOf, TradeLies, TotalsLie, PricesLie, LevelLies,
      DepthOf, Part;
    if code == 4 {
      QuoteLies(b);
    } else if code == 8 {
      FullLies(b);
      DepthsLie(b);
    } else {
      SmallLies(b);
    }
  }

  lemma DepthsLie(b: seq<Byte>)
    requires |b| >= 162
    ensures var levels := DepthOf([Bits(b[62..162])]);
      |levels| == 5 && forall i :: 0 <= i < 5 ==> LevelLies(levels[i], b, 62 + 20 * i)
  {
    var raw := b[62..162];
    DepthSize(raw);
    hide LevelLies, Depth;
    forall i | 0 <= i < 5
      ensures LevelLies(Depth(raw)[i], b, 62 + 20 * i)
    {
      DepthLies(raw, i);
      LevelMoves(Depth(raw)[i], b, 20 * i);
    }
  }

  /** Why the first packet of a message is refused: too few bytes for a header, a length field below the header's size or beyond
      the message, or fewer bytes than its response code needs. */
  lemma FirstRefused(data: seq<Byte>)
    requires data != []
    ensures |data| < 8 ==> Stream.Decode(data) == Err(TruncatedHeader)
    ensures |data| >= 8 && Two(data, 1) < 8 ==> Stream.Decode(data) == Err(InvalidLength(Two(data, 1)))
    ensures |data| >= 8 && Two(data, 1) > |data| ==> Stream.Decode(data) == Err(LengthExceedsMessage)
    ensures |data| >= 8 && 8 <= Two(data, 1) <= |data| ==>
      var needed := if data[0] in {2, 6} then 16 else if data[0] == 4 then 50 else if data[0] == 5 then 12
                    else if data[0] == 8 then 162 else if data[0] == 50 then 10 else 8;
      && (Two(data, 1) < needed ==> Stream.Decode(data) == Err(TruncatedPacket(data[0])))
      && (Two(data, 1) >= needed ==> DecodeFrame(data[..Two(data, 1)]).Ok?)
  {
    if |data| >= 8 {
      HeaderLies(data);
      assert Stream.LengthField(data) == Two(data, 1) by { hide Fields, Unpack, Size; }
      hide Stream.LengthField, Fields, Unpack, Size, BodyLies;
      if 8 <= Two(data, 1) <= |data| {
        var frame := data[..Two(data, 1)];
        FieldsLie(frame);
        Refused(frame);
        assert Two(frame, 1) == Two(data, 1) && frame[0] == data[0];
      }
    }
  }

  /** The only error of a whole frame is that it is too short for its code. */
  lemma Refused(frame: seq<Byte>)
    requires |frame| >= 8
    ensures DecodeFrame(frame).Err? ==> DecodeFrame(frame).error == TruncatedPacket(frame[0])
  {
    HeaderLies(frame);
    hide Fields, Unpack, Size, BodyOf;
  }

  lemma LevelMoves(l: Level, b: seq<Byte>, at: nat)
    requires |b| >= 162 && at + 20 <= 100 && LevelLies(l, b[62..162], at)
    ensures LevelLies(l, b, 62 + at)
  {
    Subslice(b, 62, 162, at + 12, at + 16);
    Subslice(b, 62, 162, at + 16, at + 20);
  }

  lemma Subslice(b: seq<Byte>, from: nat, to: nat, x: nat, y: nat)
    requires from <= to <= |b| && x <= y <= to - from
    ensures b[from..to][x..y] == b[from + x..from + y]
  {
    var inner, outer := b[from..to][x..y], b[from + x..from + y];
    assert |inner| == |outer| && forall i :: 0 <= i < |inner| ==> inner[i] == outer[i];
  }
}
