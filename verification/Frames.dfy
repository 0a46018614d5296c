/** Packets of the broker's feed and the messages that carry them (backend/app/market/dhan.py). */
module Frames {
  import opened Codec

  type Float = seq<Byte>

  datatype Level = Level(bidQuantity: nat, askQuantity: nat, bidOrders: nat, askOrders: nat, bid: Float, ask: Float)

  datatype Trade = Trade(ltp: Float, ltq: nat, ltt: nat, average: Float)
  datatype Totals = Totals(volume: nat, sells: nat, buys: nat)
  datatype Interest = Interest(oi: nat, dayHigh: nat, dayLow: nat)
  datatype Prices = Prices(open: Float, close: Float, high: Float, low: Float)

  datatype Body =
    | Ticker(ltp: Float, ltt: nat)
    | Quoted(trade: Trade, totals: Totals, prices: Prices)
    | OpenInterest(oi: nat)
    | PreviousClose(close: Float, previousOi: nat)
    | Full(trade: Trade, totals: Totals, interest: Interest, prices: Prices, depth: seq<Level>)
    | Disconnected(reason: nat)
    | Unread

  datatype Packet = Packet(code: nat, length: nat, exchange: nat, security: nat, body: Body)

  // ---------------------------------------------------------------- one packet

  function Number(values: seq<Value>, i: nat): nat {
    if i < |values| && values[i].Num? then values[i].n else 0
  }

  function Raws(values: seq<Value>, i: nat): seq<Byte> {
    if i < |values| && values[i].Bits? then values[i].bytes else []
  }

  function LayoutOf(code: nat): seq<Kind> {
    if code == 2 || code == 6 then TICKER
    else if code == 4 then QUOTE
    else if code == 5 then OPEN_INTEREST
    else if code == 8 then FULL
    else if code == 50 then DISCONNECT
    else HEADER
  }

  function LevelOf(v: seq<Value>): Level {
    Level(Number(v, 0), Number(v, 1), Number(v, 2), Number(v, 3), Raws(v, 4), Raws(v, 5))
  }

  function LevelValues(l: Level): seq<Value> {
    [Num(l.bidQuantity), Num(l.askQuantity), Num(l.bidOrders), Num(l.askOrders), Bits(l.bid), Bits(l.ask)]
  }

  function Depth(raw: seq<Byte>): seq<Level>
    requires |raw| % 20 == 0
  {
    if raw == [] then []
    else
      Sizes();
      [LevelOf(Unpack(DEPTH_LEVEL, raw))] + Depth(raw[20..])
  }

  function Part(v: seq<Value>, from: nat, to: nat): seq<Value> {
    if from <= to <= |v| then v[from..to] else []
  }

  function TradeOf(v: seq<Value>): Trade {
    Trade(Raws(v, 0), Number(v, 1), Number(v, 2), Raws(v, 3))
  }

  function TotalsOf(v: seq<Value>): Totals {
    Totals(Number(v, 0), Number(v, 1), Number(v, 2))
  }

  function InterestOf(v: seq<Value>): Interest {
    Interest(Number(v, 0), Number(v, 1), Number(v, 2))
  }

  function PricesOf(v: seq<Value>): Prices {
    Prices(Raws(v, 0), Raws(v, 1), Raws(v, 2), Raws(v, 3))
  }

  function DepthOf(v: seq<Value>): seq<Level> {
    if |Raws(v, 0)| % 20 == 0 then Depth(Raws(v, 0)) else []
  }

  /** The body of a packet, from the values that follow the header's four. */
  function BodyOf(code: nat, v: seq<Value>): Body {
    if code == 2 then Ticker(Raws(v, 0), Number(v, 1))
    else if code == 4 then Quoted(TradeOf(Part(v, 0, 4)), TotalsOf(Part(v, 4, 7)), PricesOf(Part(v, 7, 11)))
    else if code == 5 then OpenInterest(Number(v, 0))
    else if code == 6 then PreviousClose(Raws(v, 0), Number(v, 1))
    else if code == 8 then
      Full(TradeOf(Part(v, 0, 4)), TotalsOf(Part(v, 4, 7)), InterestOf(Part(v, 7, 10)), PricesOf(Part(v, 10, 14)),
           DepthOf(Part(v, 14, 15)))
    else if code == 50 then Disconnected(Number(v, 0))
    else Unread
  }

  function DecodeFrame(frame: seq<Byte>): Result<Packet>
    requires |frame| >= 8
  {
    Sizes();
    var h := Unpack(HEADER, frame);
    var code := Number(h, 0);
    if |frame| < Size(LayoutOf(code)) then Err(TruncatedPacket(code))
    else Ok(Packet(code, Number(h, 1), Number(h, 2), Number(h, 3), BodyOf(code, Unpack(LayoutOf(code), frame)[4..])))
  }

  // ---------------------------------------------------------------- its encoding

  function DepthBytes(levels: seq<Level>): (b: seq<Byte>)
    requires forall l :: l in levels ==> Fits(DEPTH_LEVEL, LevelValues(l))
    ensures |b| == 20 * |levels|
  {
    if levels == [] then []
    else
      Sizes();
      Pack(DEPTH_LEVEL, LevelValues(levels[0])) + DepthBytes(levels[1..])
  }

  ghost predicate GoodDepth(levels: seq<Level>) {
    |levels| == 5 && forall l :: l in levels ==> Fits(DEPTH_LEVEL, LevelValues(l))
  }

  predicate CodeFits(code: nat, body: Body) {
    match body
    case Ticker(_, _) => code == 2
    case Quoted(_, _, _) => code == 4
    case OpenInterest(_) => code == 5
    case PreviousClose(_, _) => code == 6
    case Full(_, _, _, _, _) => code == 8
    case Disconnected(_) => code == 50
    case Unread => code !in {2, 4, 5, 6, 8, 50}
  }

  function TradeValues(t: Trade): seq<Value> {
    [Bits(t.ltp), Num(t.ltq), Num(t.ltt), Bits(t.average)]
  }

  function TotalsValues(t: Totals): seq<Value> {
    [Num(t.volume), Num(t.sells), Num(t.buys)]
  }

  function InterestValues(i: Interest): seq<Value> {
    [Num(i.oi), Num(i.dayHigh), Num(i.dayLow)]
  }

  function PricesValues(p: Prices): seq<Value> {
    [Bits(p.open), Bits(p.close), Bits(p.high), Bits(p.low)]
  }

  ghost function BodyValues(body: Body): seq<Value>
    requires body.Full? ==> GoodDepth(body.depth)
  {
    match body
    case Ticker(ltp, ltt) => [Bits(ltp), Num(ltt)]
    case Quoted(trade, totals, prices) => TradeValues(trade) + TotalsValues(totals) + PricesValues(prices)
    case OpenInterest(oi) => [Num(oi)]
    case PreviousClose(close, previousOi) => [Bits(close), Num(previousOi)]
    case Full(trade, totals, interest, prices, depth) =>
      TradeValues(trade) + TotalsValues(totals) + InterestValues(interest) + PricesValues(prices) + [Bits(DepthBytes(depth))]
    case Disconnected(reason) => [Num(reason)]
    case Unread => []
  }

  ghost function Values(p: Packet): seq<Value>
    requires p.body.Full? ==> GoodDepth(p.body.depth)
  {
    [Num(p.code), Num(p.length), Num(p.exchange), Num(p.security)] + BodyValues(p.body)
  }

  /** Every field is in the range of its place in the structure its code selects. */
  ghost predicate Wellformed(p: Packet) {
    && CodeFits(p.code, p.body)
    && (p.body.Full? ==> GoodDepth(p.body.depth))
    && Fits(LayoutOf(p.code), Values(p))
  }

  /** The packet's bytes, and bytes after them that its length covers and no reader looks at. */
  ghost function Encode(p: Packet, padding: seq<Byte>): seq<Byte>
    requires Wellformed(p)
  {
    Pack(LayoutOf(p.code), Values(p)) + padding
  }

  lemma {:induction false} DepthRoundTrip(levels: seq<Level>)
    requires forall l :: l in levels ==> Fits(DEPTH_LEVEL, LevelValues(l))
    ensures Depth(DepthBytes(levels)) == levels
  {
    if levels != [] {
      Sizes();
      var b := DepthBytes(levels);
      PackUnpack(DEPTH_LEVEL, LevelValues(levels[0]), DepthBytes(levels[1..]));
      DepthRoundTrip(levels[1..]);
      assert b[20..] == DepthBytes(levels[1..]);
      hide Unpack, Pack, Fits, Size;
    }
  }

  lemma {:induction false} DepthBack(raw: seq<Byte>)
    requires |raw| % 20 == 0
    ensures forall l :: l in Depth(raw) ==> Fits(DEPTH_LEVEL, LevelValues(l))
    ensures DepthBytes(Depth(raw)) == raw && |Depth(raw)| == |raw| / 20
    decreases |raw|
  {
    if raw != [] {
      Sizes();
      UnpackPack(DEPTH_LEVEL, raw);
      LevelBack(Unpack(DEPTH_LEVEL, raw));
      DepthBack(raw[20..]);
      hide Unpack, Pack, Fits, Size;
      assert Depth(raw)[1..] == Depth(raw[20..]);
    }
  }

  lemma LevelBack(v: seq<Value>)
    requires Fits(DEPTH_LEVEL, v)
    ensures LevelValues(LevelOf(v)) == v
  {
    hide Limit, Width;
    assert forall i :: 0 <= i < 6 ==> Holds(DEPTH_LEVEL[i], v[i]);
  }

  lemma GroupsRoundTrip(trade: Trade, totals: Totals, interest: Interest, prices: Prices)
    ensures TradeOf(TradeValues(trade)) == trade && TotalsOf(TotalsValues(totals)) == totals
    ensures InterestOf(InterestValues(interest)) == interest && PricesOf(PricesValues(prices)) == prices
  {
  }

  lemma BodyRoundTrip(p: Packet)
    requires Wellformed(p)
    ensures BodyOf(p.code, Values(p)[4..]) == p.body
  {
    hide Fits, LayoutOf;
    assert Values(p)[4..] == BodyValues(p.body);
    if p.body.Full? {
      FullRoundTrip(p.body);
    } else if p.body.Quoted? {
      QuotedRoundTrip(p.body);
    }
  }

  lemma QuotedRoundTrip(body: Body)
    requires body.Quoted?
    ensures BodyOf(4, BodyValues(body)) == body
  {
    GroupsRoundTrip(body.trade, body.totals, Interest(0, 0, 0), body.prices);
    var t, n, p := TradeValues(body.trade), TotalsValues(body.totals), PricesValues(body.prices);
    assert |t| == 4 && |n| == 3 && |p| == 4;
    hide TradeValues, TotalsValues, PricesValues, TradeOf, TotalsOf, PricesOf;
    var v := BodyValues(body);
    assert Part(v, 0, 4) == t && Part(v, 4, 7) == n && Part(v, 7, 11) == p;
  }

  lemma FullRoundTrip(body: Body)
    requires body.Full? && GoodDepth(body.depth)
    ensures BodyOf(8, BodyValues(body)) == body
  {
    GroupsRoundTrip(body.trade, body.totals, body.interest, body.prices);
    DepthRoundTrip(body.depth);
    var t, n, i, p := TradeValues(body.trade), TotalsValues(body.totals), InterestValues(body.interest), PricesValues(body.prices);
    var d := [Bits(DepthBytes(body.depth))];
    assert |t| == 4 && |n| == 3 && |i| == 3 && |p| == 4;
    assert DepthOf(d) == body.depth;
    hide TradeValues, TotalsValues, InterestValues, PricesValues, TradeOf, TotalsOf, InterestOf, PricesOf, DepthOf, DepthBytes;
    FiveParts(t, n, i, p, d);
  }

  lemma FiveParts(t: seq<Value>, n: seq<Value>, i: seq<Value>, p: seq<Value>, d: seq<Value>)
    requires |t| == 4 && |n| == 3 && |i| == 3 && |p| == 4 && |d| == 1
    ensures var v := t + n + i + p + d;
      Part(v, 0, 4) == t && Part(v, 4, 7) == n && Part(v, 7, 10) == i && Part(v, 10, 14) == p && Part(v, 14, 15) == d
  {
    var head := t + n;
    assert head[0..4] == t && head[4..7] == n;
    var v := head + (i + p + d);
    assert v == t + n + i + p + d && v[7..] == i + p + d;
    assert v[0..4] == head[0..4] && v[4..7] == head[4..7];
    assert (i + p + d)[0..3] == i && (i + p + d)[3..7] == p && (i + p + d)[7..8] == d;
    assert v[7..10] == v[7..][0..3] && v[10..14] == v[7..][3..7] && v[14..15] == v[7..][7..8];
  }

  lemma Starts(code: nat) returns (more: seq<Kind>)
    ensures LayoutOf(code) == HEADER + more
  {
    more := LayoutOf(code)[4..];
  }

  /** A frame decodes to the packet it encodes, whatever padding the length covers. */
  lemma FrameRoundTrip(p: Packet, padding: seq<Byte>)
    requires Wellformed(p)
    ensures |Encode(p, padding)| == Size(LayoutOf(p.code)) + |padding| >= 8
    ensures DecodeFrame(Encode(p, padding)) == Ok(p)
  {
    Sizes();
    PackUnpack(LayoutOf(p.code), Values(p), padding);
    var more := Starts(p.code);
    HeaderSmallest(p.code);
    UnpackPrefix(HEADER, more, Encode(p, padding));
    BodyRoundTrip(p);
    hide LayoutOf, BodyOf, Unpack, Pack, Fits, Size, BodyValues;
  }

  lemma HeaderSmallest(code: nat)
    ensures Size(LayoutOf(code)) >= 8
  {
    Sizes();
    hide Size;
  }

  // ---------------------------------------------------------------- and back

  lemma KindsOf(layout: seq<Kind>, v: seq<Value>, i: nat)
    requires Fits(layout, v) && i < |layout|
    ensures if IsNumber(layout[i]) then v[i] == Num(Number(v, i)) else v[i] == Bits(Raws(v, i)) && |Raws(v, i)| == Width(layout[i])
  {
    hide Limit;
  }

  /** The layout after the header, and the values there. */
  lemma FitsTail(layout: seq<Kind>, v: seq<Value>)
    requires Fits(layout, v) && |layout| >= 4
    ensures Fits(layout[4..], v[4..])
  {
    hide Holds;
  }

  lemma BodyBack(code: nat, v: seq<Value>)
    requires |LayoutOf(code)| >= 4 && Fits(LayoutOf(code)[4..], v)
    ensures CodeFits(code, BodyOf(code, v))
    ensures BodyOf(code, v).Full? ==> GoodDepth(BodyOf(code, v).depth)
    ensures BodyValues(BodyOf(code, v)) == v
  {
    if code == 8 {
      FullBack(v);
    } else if code == 4 {
      QuotedBack(v);
    } else {
      forall i | 0 <= i < |v|
        ensures v[i] == if IsNumber(LayoutOf(code)[4..][i]) then Num(Number(v, i)) else Bits(Raws(v, i))
      {
        KindsOf(LayoutOf(code)[4..], v, i);
      }
      hide Fits, Number, Raws, Depth;
    }
  }

  lemma TradeBack(v: seq<Value>)
    requires Fits(TRADE, v)
    ensures TradeValues(TradeOf(v)) == v
  {
    hide Codec.Limit;
    assert Holds(TRADE[0], v[0]) && Holds(TRADE[1], v[1]) && Holds(TRADE[2], v[2]) && Holds(TRADE[3], v[3]);
  }

  lemma TotalsBack(v: seq<Value>)
    requires Fits(TOTALS, v)
    ensures TotalsValues(TotalsOf(v)) == v && InterestValues(InterestOf(v)) == v
  {
    hide Codec.Limit;
    assert Holds(TOTALS[0], v[0]) && Holds(TOTALS[1], v[1]) && Holds(TOTALS[2], v[2]);
  }

  lemma PricesBack(v: seq<Value>)
    requires Fits(PRICES, v)
    ensures PricesValues(PricesOf(v)) == v
  {
    hide Codec.Limit;
    assert Holds(PRICES[0], v[0]) && Holds(PRICES[1], v[1]) && Holds(PRICES[2], v[2]) && Holds(PRICES[3], v[3]);
  }

  lemma FitsPart(layout: seq<Kind>, v: seq<Value>, from: nat, to: nat)
    requires Fits(layout, v) && from <= to <= |layout|
    ensures Fits(layout[from..to], Part(v, from, to)) && Part(v, from, to) == v[from..to]
  {
    hide Holds;
  }

  lemma QuotedBack(v: seq<Value>)
    requires Fits(QUOTE[4..], v)
    ensures BodyOf(4, v).Quoted? && BodyValues(BodyOf(4, v)) == v
  {
    var kinds := QUOTE[4..];
    assert kinds == TRADE + TOTALS + PRICES;
    assert kinds[0..4] == TRADE && kinds[4..7] == TOTALS && kinds[7..11] == PRICES;
    FitsPart(kinds, v, 0, 4);
    FitsPart(kinds, v, 4, 7);
    FitsPart(kinds, v, 7, 11);
    TradeBack(Part(v, 0, 4));
    TotalsBack(Part(v, 4, 7));
    PricesBack(Part(v, 7, 11));
    hide Fits, TradeValues, TotalsValues, PricesValues, TradeOf, TotalsOf, PricesOf, Part;
    assert v == v[0..4] + v[4..7] + v[7..11];
  }

  lemma FullKinds()
    ensures var kinds := FULL[4..];
      && |kinds| == 15 && kinds[0..4] == TRADE && kinds[4..7] == TOTALS && kinds[7..10] == TOTALS && kinds[10..14] == PRICES
      && kinds[14..15] == [Raw(100)]
  {
    assert FULL[4..] == TRADE + TOTALS + TOTALS + PRICES + [Raw(100)];
  }

  lemma FullParts(kinds: seq<Kind>, v: seq<Value>)
    requires |kinds| == 15 && kinds[0..4] == TRADE && kinds[4..7] == TOTALS && kinds[7..10] == TOTALS
    requires kinds[10..14] == PRICES && kinds[14..15] == [Raw(100)] && Fits(kinds, v)
    ensures Fits(TRADE, Part(v, 0, 4)) && Fits(TOTALS, Part(v, 4, 7)) && Fits(TOTALS, Part(v, 7, 10))
    ensures Fits(PRICES, Part(v, 10, 14)) && Fits([Raw(100)], Part(v, 14, 15))
    ensures v == Part(v, 0, 4) + Part(v, 4, 7) + Part(v, 7, 10) + Part(v, 10, 14) + Part(v, 14, 15)
  {
    FitsPart(kinds, v, 0, 4);
    FitsPart(kinds, v, 4, 7);
    FitsPart(kinds, v, 7, 10);
    FitsPart(kinds, v, 10, 14);
    FitsPart(kinds, v, 14, 15);
    assert |v| == 15;
    hide Fits, Part;
    assert v == v[0..4] + v[4..7] + v[7..10] + v[10..14] + v[14..15];
  }

  lemma FullBack(v: seq<Value>)
    requires Fits(FULL[4..], v)
    ensures BodyOf(8, v).Full? && GoodDepth(BodyOf(8, v).depth) && BodyValues(BodyOf(8, v)) == v
  {
    FullKinds();
    hide Fits, TradeValues, TotalsValues, InterestValues, PricesValues, TradeOf, TotalsOf, InterestOf, PricesOf, DepthOf,
      Part, DepthBytes, GoodDepth;
    FullParts(FULL[4..], v);
    TradeBack(Part(v, 0, 4));
    TotalsBack(Part(v, 4, 7));
    TotalsBack(Part(v, 7, 10));
    PricesBack(Part(v, 10, 14));
    DepthOfBack(Part(v, 14, 15));
  }

  lemma DepthOfBack(v: seq<Value>)
    requires Fits([Raw(100)], v)
    ensures GoodDepth(DepthOf(v)) && [Bits(DepthBytes(DepthOf(v)))] == v
  {
    assert Holds(Raw(100), v[0]);
    DepthBack(Raws(v, 0));
    hide Depth, DepthBytes, Unpack;
  }

  lemma ValuesBack(code: nat, v: seq<Value>)
    requires Fits(LayoutOf(code), v) && Number(v, 0) == code
    ensures var p := Packet(code, Number(v, 1), Number(v, 2), Number(v, 3), BodyOf(code, v[4..]));
      Wellformed(p) && Values(p) == v
  {
    var more := Starts(code);
    FitsTail(LayoutOf(code), v);
    BodyBack(code, v[4..]);
    forall i | 0 <= i < 4
      ensures v[i] == Num(Number(v, i))
    {
      KindsOf(LayoutOf(code), v, i);
    }
    hide LayoutOf, BodyOf, Fits, BodyValues;
    assert v == v[..4] + v[4..];
    assert v[..4] == [v[0], v[1], v[2], v[3]];
  }

  /** Every accepted frame is the encoding of the packet it decodes to. */
  lemma DecodedIsEncoding(frame: seq<Byte>)
    requires |frame| >= 8 && DecodeFrame(frame).Ok?
    ensures var p := DecodeFrame(frame).value;
      && Wellformed(p)
      && Size(LayoutOf(p.code)) <= |frame|
      && frame == Encode(p, frame[Size(LayoutOf(p.code))..])
  {
    hide LayoutOf, BodyOf, Unpack, Pack, Fits, Size, BodyValues, Wellformed, Values;
    Sizes();
    var code := Number(Unpack(HEADER, frame), 0);
    var v := Unpack(LayoutOf(code), frame);
    var more := Starts(code);
    UnpackPrefix(HEADER, more, frame);
    UnpackPack(LayoutOf(code), frame);
    ValuesBack(code, v);
  }
}
