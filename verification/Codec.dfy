/** The broker's binary feed: packed little-endian structures, one after another in a message
    (backend/app/market/dhan.py). Four-byte floats stay opaque. */
module Codec {
  type Byte = n: int | 0 <= n < 256 witness 0

  datatype Result<T> = Ok(value: T) | Err(error: ProtocolError)
  datatype ProtocolError = TruncatedHeader | InvalidLength(length: nat) | LengthExceedsMessage | TruncatedPacket(code: nat)

  // ---------------------------------------------------------------- structures

  datatype Kind = U8 | U16 | U32 | F32 | Raw(size: nat)
  datatype Value = Num(n: nat) | Bits(bytes: seq<Byte>)

  const HEADER: seq<Kind> := [U8, U16, U8, U32]
  const TICKER: seq<Kind> := HEADER + [F32, U32]
  const TRADE: seq<Kind> := [F32, U16, U32, F32]
  const TOTALS: seq<Kind> := [U32, U32, U32]
  const PRICES: seq<Kind> := [F32, F32, F32, F32]
  const QUOTE: seq<Kind> := HEADER + TRADE + TOTALS + PRICES
  const OPEN_INTEREST: seq<Kind> := HEADER + [U32]
  const FULL: seq<Kind> := HEADER + TRADE + TOTALS + TOTALS + PRICES + [Raw(100)]
  const DISCONNECT: seq<Kind> := HEADER + [U16]
  const DEPTH_LEVEL: seq<Kind> := [U32, U32, U16, U16, F32, F32]

  function Width(kind: Kind): nat {
    match kind
    case U8 => 1
    case U16 => 2
    case U32 => 4
    case F32 => 4
    case Raw(size) => size
  }

  predicate IsNumber(kind: Kind) {
    kind.U8? || kind.U16? || kind.U32?
  }

  function Size(layout: seq<Kind>): nat {
    if layout == [] then 0 else Width(layout[0]) + Size(layout[1..])
  }

  function Limit(width: nat): nat {
    if width == 0 then 1 else 256 * Limit(width - 1)
  }

  function FromLittle(b: seq<Byte>): nat {
    if b == [] then 0 else b[0] + 256 * FromLittle(b[1..])
  }

  function ToLittle(n: nat, width: nat): (b: seq<Byte>)
    ensures |b| == width
  {
    if width == 0 then [] else [n % 256] + ToLittle(n / 256, width - 1)
  }

  function Read(kind: Kind, b: seq<Byte>): Value {
    if IsNumber(kind) then Num(FromLittle(b)) else Bits(b)
  }

  predicate Holds(kind: Kind, v: Value) {
    if IsNumber(kind) then v.Num? && v.n < Limit(Width(kind)) else v.Bits? && |v.bytes| == Width(kind)
  }

  function Write(kind: Kind, v: Value): (b: seq<Byte>)
    requires Holds(kind, v)
    ensures |b| == Width(kind)
  {
    if IsNumber(kind) then ToLittle(v.n, Width(kind)) else v.bytes
  }

  predicate Fits(layout: seq<Kind>, values: seq<Value>) {
    |values| == |layout| && forall i :: 0 <= i < |layout| ==> Holds(layout[i], values[i])
  }

  function Unpack(layout: seq<Kind>, b: seq<Byte>): (values: seq<Value>)
    requires Size(layout) <= |b|
    ensures |values| == |layout|
  {
    if layout == [] then []
    else [Read(layout[0], b[..Width(layout[0])])] + Unpack(layout[1..], b[Width(layout[0])..])
  }

  function Pack(layout: seq<Kind>, values: seq<Value>): (b: seq<Byte>)
    requires Fits(layout, values)
    ensures |b| == Size(layout)
  {
    if layout == [] then [] else Write(layout[0], values[0]) + Pack(layout[1..], values[1..])
  }

  lemma {:induction false} LittleRoundTrip(n: nat, width: nat)
    requires n < Limit(width)
    ensures FromLittle(ToLittle(n, width)) == n
  {
    if width > 0 {
      LittleRoundTrip(n / 256, width - 1);
      assert ToLittle(n, width)[1..] == ToLittle(n / 256, width - 1);
    }
  }

  lemma {:induction false} LittleBack(b: seq<Byte>)
    ensures FromLittle(b) < Limit(|b|) && ToLittle(FromLittle(b), |b|) == b
  {
    if b != [] {
      LittleBack(b[1..]);
      assert FromLittle(b) % 256 == b[0] && FromLittle(b) / 256 == FromLittle(b[1..]);
    }
  }

  lemma FieldRoundTrip(kind: Kind, v: Value)
    requires Holds(kind, v)
    ensures Read(kind, Write(kind, v)) == v
  {
    if IsNumber(kind) {
      LittleRoundTrip(v.n, Width(kind));
    }
  }

  lemma FieldBack(kind: Kind, b: seq<Byte>)
    requires |b| == Width(kind)
    ensures Holds(kind, Read(kind, b)) && Write(kind, Read(kind, b)) == b
  {
    if IsNumber(kind) {
      LittleBack(b);
    }
  }

  /** A structure reads back what was written, whatever follows it. */
  lemma {:induction false} PackUnpack(layout: seq<Kind>, values: seq<Value>, rest: seq<Byte>)
    requires Fits(layout, values)
    ensures Unpack(layout, Pack(layout, values) + rest) == values
  {
    hide Read, Write, Holds, Width;
    if layout != [] {
      var w, b := Width(layout[0]), Pack(layout, values) + rest;
      FieldRoundTrip(layout[0], values[0]);
      PackUnpack(layout[1..], values[1..], rest);
      assert b[..w] == Write(layout[0], values[0]);
      assert b[w..] == Pack(layout[1..], values[1..]) + rest;
    }
  }

  /** And every byte string of the right size is what its values write. */
  lemma {:induction false} UnpackPack(layout: seq<Kind>, b: seq<Byte>)
    requires Size(layout) <= |b|
    ensures Fits(layout, Unpack(layout, b)) && Pack(layout, Unpack(layout, b)) == b[..Size(layout)]
  {
    hide Read, Write, Holds, Width;
    if layout != [] {
      var w := Width(layout[0]);
      FieldBack(layout[0], b[..w]);
      UnpackPack(layout[1..], b[w..]);
      var values := Unpack(layout, b);
      assert values[1..] == Unpack(layout[1..], b[w..]);
      assert b[w..][..Size(layout[1..])] == b[w..Size(layout)];
    }
  }

  /** Reading a structure's first fields alone gives the same values. */
  lemma {:induction false} UnpackPrefix(first: seq<Kind>, more: seq<Kind>, b: seq<Byte>)
    requires Size(first + more) <= |b|
    ensures Size(first) <= Size(first + more) && Unpack(first, b) == Unpack(first + more, b)[..|first|]
    decreases |first|
  {
    if first != [] {
      assert (first + more)[1..] == first[1..] + more;
      UnpackPrefix(first[1..], more, b[Width(first[0])..]);
    }
    hide Read;
  }

  /** Values written for the whole structure split where the layout does. */
  lemma {:induction false} UnpackWithin(layout: seq<Kind>, b: seq<Byte>, rest: seq<Byte>)
    requires Size(layout) <= |b|
    ensures Unpack(layout, b + rest) == Unpack(layout, b)
    decreases |layout|
  {
    if layout != [] {
      var w := Width(layout[0]);
      UnpackWithin(layout[1..], b[w..], rest);
      assert (b + rest)[w..] == b[w..] + rest && (b + rest)[..w] == b[..w];
    }
    hide Read;
  }

  lemma {:induction false} SizeAppends(a: seq<Kind>, b: seq<Kind>)
    ensures Size(a + b) == Size(a) + Size(b)
    decreases |a|
  {
    if a == [] {
      assert a + b == b;
    } else {
      assert (a + b)[1..] == a[1..] + b;
      SizeAppends(a[1..], b);
    }
  }

  lemma SizeOfFew(layout: seq<Kind>)
    requires 1 <= |layout| <= 4
    ensures Size(layout)
         == Width(layout[0]) + (if |layout| > 1 then Width(layout[1]) else 0) + (if |layout| > 2 then Width(layout[2]) else 0)
          + (if |layout| > 3 then Width(layout[3]) else 0)
  {
    var r1 := layout[1..];
    if r1 != [] {
      var r2 := r1[1..];
      if r2 != [] {
        assert Size(r2) == Width(r2[0]) + Size(r2[1..]);
      }
    }
  }

  lemma Sizes()
    ensures Size(HEADER) == 8 && Size(TICKER) == 16 && Size(QUOTE) == 50 && Size(OPEN_INTEREST) == 12
    ensures Size(FULL) == 162 && Size(DISCONNECT) == 10 && Size(DEPTH_LEVEL) == 20
  {
    SizeOfFew(HEADER);
    SizeOfFew(TRADE);
    SizeOfFew(TOTALS);
    SizeOfFew(PRICES);
    SizeOfFew([F32, U32]);
    SizeOfFew([U32]);
    SizeOfFew([U16]);
    SizeOfFew([Raw(100)]);
    SizeOfFew([U32, U32, U16, U16]);
    SizeOfFew([F32, F32]);
    hide Size;
    SizeAppends(HEADER, [F32, U32]);
    SizeAppends(HEADER, [U32]);
    SizeAppends(HEADER, [U16]);
    SizeAppends([U32, U32, U16, U16], [F32, F32]);
    assert DEPTH_LEVEL == [U32, U32, U16, U16] + [F32, F32];
    SizeAppends(HEADER, TRADE);
    SizeAppends(HEADER + TRADE, TOTALS);
    SizeAppends(HEADER + TRADE + TOTALS, PRICES);
    SizeAppends(HEADER + TRADE + TOTALS, TOTALS);
    SizeAppends(HEADER + TRADE + TOTALS + TOTALS, PRICES);
    SizeAppends(HEADER + TRADE + TOTALS + TOTALS + PRICES, [Raw(100)]);
  }
}
