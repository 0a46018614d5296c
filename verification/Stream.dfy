/** Messages: packets back to back, each as long as its header says (backend/app/market/dhan.py). */
module Stream {
  import opened Codec
  import opened Frames

  function LengthField(data: seq<Byte>): nat
    requires |data| >= 8
  {
    Sizes();
    Number(Unpack(HEADER, data), 1)
  }

  function Decode(data: seq<Byte>): Result<seq<Packet>>
    decreases |data|
  {
    if data == [] then Ok([])
    else if |data| < 8 then Err(TruncatedHeader)
    else
      var length := LengthField(data);
      if length < 8 then Err(InvalidLength(length))
      else if length > |data| then Err(LengthExceedsMessage)
      else
        match DecodeFrame(data[..length])
        case Err(error) => Err(error)
        case Ok(packet) => Prepend([packet], Decode(data[length..]))
  }

  function Prepend(packets: seq<Packet>, r: Result<seq<Packet>>): Result<seq<Packet>> {
    match r
    case Err(error) => Err(error)
    case Ok(more) => Ok(packets + more)
  }

  lemma PrependNone(r: Result<seq<Packet>>)
    ensures Prepend([], r) == r
  {
    if r.Ok? {
      assert [] + r.value == r.value;
    }
  }

  lemma PrependTwice(a: seq<Packet>, b: seq<Packet>, r: Result<seq<Packet>>)
    ensures Prepend(a, Prepend(b, r)) == Prepend(a + b, r)
  {
    if r.Ok? {
      assert a + (b + r.value) == a + b + r.value;
    }
  }

  /** The loop of the original: an offset that every accepted packet moves by at least eight. */
  method DecodeFrames(data: seq<Byte>) returns (r: Result<seq<Packet>>)
    ensures r == Decode(data)
  {
    var packets: seq<Packet> := [];
    var offset := 0;
    PrependNone(Decode(data));
    assert data[0..] == data;
    while offset < |data|
      invariant 0 <= offset <= |data|
      invariant Decode(data) == Prepend(packets, Decode(data[offset..]))
      decreases |data| - offset
    {
      if |data| - offset < 8 {
        return Err(TruncatedHeader);
      }
      var length := LengthField(data[offset..]);
      if length < 8 {
        return Err(InvalidLength(length));
      }
      var end := offset + length;
      if end > |data| {
        return Err(LengthExceedsMessage);
      }
      assert data[offset..][..length] == data[offset..end];
      assert data[offset..][length..] == data[end..];
      var frame := DecodeFrame(data[offset..end]);
      if frame.Err? {
        return Err(frame.error);
      }
      PrependTwice(packets, [frame.value], Decode(data[end..]));
      packets := packets + [frame.value];
      offset := end;
    }
    assert data[offset..] == [] && packets + [] == packets;
    return Ok(packets);
  }

  // ---------------------------------------------------------------- what messages are

  /** A packet as it travels: with the bytes its length covers beyond its structure. */
  datatype Carried = Carried(packet: Packet, padding: seq<Byte>)

  ghost predicate Sendable(c: Carried) {
    Wellformed(c.packet) && c.packet.length == Size(LayoutOf(c.packet.code)) + |c.padding|
  }

  ghost function Message(carried: seq<Carried>): seq<Byte>
    requires forall c :: c in carried ==> Sendable(c)
  {
    if carried == [] then []
    else
      assert Sendable(carried[0]);
      Encode(carried[0].packet, carried[0].padding) + Message(carried[1..])
  }

  function Packets(carried: seq<Carried>): (packets: seq<Packet>)
    ensures |packets| == |carried| && forall i :: 0 <= i < |carried| ==> packets[i] == carried[i].packet
  {
    seq(|carried|, i requires 0 <= i < |carried| => carried[i].packet)
  }

  function TotalLength(packets: seq<Packet>): nat {
    if packets == [] then 0 else packets[0].length + TotalLength(packets[1..])
  }

  /** The length field is the frame's own, read before the frame is cut out. */
  lemma LengthOfFrame(data: seq<Byte>, length: nat)
    requires 8 <= length <= |data|
    ensures LengthField(data[..length]) == LengthField(data)
    ensures DecodeFrame(data[..length]).Ok? ==> DecodeFrame(data[..length]).value.length == LengthField(data)
  {
    Sizes();
    UnpackWithin(HEADER, data[..length], data[length..]);
    assert data[..length] + data[length..] == data;
    hide Unpack, Size, LayoutOf, BodyOf;
  }

  lemma FirstFrame(c: Carried, rest: seq<Byte>)
    requires Sendable(c)
    ensures var b := Encode(c.packet, c.padding);
      && |b| == c.packet.length >= 8 && LengthField(b + rest) == |b|
      && DecodeFrame((b + rest)[..|b|]) == Ok(c.packet) && (b + rest)[|b|..] == rest
  {
    var b := Encode(c.packet, c.padding);
    FrameRoundTrip(c.packet, c.padding);
    assert (b + rest)[..|b|] == b;
    hide Encode, DecodeFrame;
    LengthOfFrame(b + rest, |b|);
    LengthFieldOf(c);
  }

  lemma LengthFieldOf(c: Carried)
    requires Sendable(c) && |Encode(c.packet, c.padding)| >= 8
    ensures LengthField(Encode(c.packet, c.padding)) == c.packet.length
  {
    var b := Encode(c.packet, c.padding);
    FrameRoundTrip(c.packet, c.padding);
    LengthOfFrame(b, |b|);
    assert b[..|b|] == b;
    hide Encode, DecodeFrame;
  }

  /** Main result: a message of packets decodes to exactly those packets. */
  lemma {:induction false} MessageRoundTrip(carried: seq<Carried>)
    requires forall c :: c in carried ==> Sendable(c)
    ensures Decode(Message(carried)) == Ok(Packets(carried))
  {
    if carried == [] {
      assert Packets(carried) == [];
    } else {
      MessageRoundTrip(carried[1..]);
      FirstFrame(carried[0], Message(carried[1..]));
      assert Packets(carried) == [carried[0].packet] + Packets(carried[1..]);
      hide Encode, DecodeFrame, LengthField, Wellformed;
    }
  }

  lemma DecodeStep(data: seq<Byte>, length: nat)
    requires |data| >= 8 && length == LengthField(data) && 8 <= length <= |data| && DecodeFrame(data[..length]).Ok?
    ensures Decode(data) == Prepend([DecodeFrame(data[..length]).value], Decode(data[length..]))
  {
    hide DecodeFrame, LengthField;
  }

  lemma FirstOk(data: seq<Byte>)
    requires data != [] && Decode(data).Ok?
    ensures |data| >= 8 && 8 <= LengthField(data) <= |data|
    ensures DecodeFrame(data[..LengthField(data)]).Ok? && Decode(data[LengthField(data)..]).Ok?
  {
    hide DecodeFrame, LengthField;
  }

  /** Main result: every accepted message is the message of the packets it decodes to, for some padding. */
  lemma {:induction false} AcceptedIsMessage(data: seq<Byte>) returns (carried: seq<Carried>)
    requires Decode(data).Ok?
    ensures (forall c :: c in carried ==> Sendable(c)) && data == Message(carried) && Decode(data) == Ok(Packets(carried))
    decreases |data|
  {
    if data == [] {
      carried := [];
      assert Packets(carried) == [];
    } else {
      hide Encode, DecodeFrame, LengthField, Sendable, Decode;
      FirstOk(data);
      var length := LengthField(data);
      DecodeStep(data, length);
      var first := FrameCarried(data, length);
      var rest := AcceptedIsMessage(data[length..]);
      carried := [first] + rest;
      Together(first, rest);
      hide Message, Packets;
      assert data == data[..length] + data[length..];
    }
  }

  lemma Together(first: Carried, rest: seq<Carried>)
    requires Sendable(first) && forall c :: c in rest ==> Sendable(c)
    ensures var all := [first] + rest;
      && (forall c :: c in all ==> Sendable(c))
      && Message(all) == Encode(first.packet, first.padding) + Message(rest)
      && Packets(all) == [first.packet] + Packets(rest)
  {
    hide Sendable, Encode;
    assert ([first] + rest)[1..] == rest;
  }

  lemma FrameCarried(data: seq<Byte>, length: nat) returns (c: Carried)
    requires 8 <= length <= |data| && length == LengthField(data) && DecodeFrame(data[..length]).Ok?
    ensures Sendable(c) && Encode(c.packet, c.padding) == data[..length] && DecodeFrame(data[..length]) == Ok(c.packet)
  {
    var frame := data[..length];
    LengthOfFrame(data, length);
    DecodedIsEncoding(frame);
    var p := DecodeFrame(frame).value;
    c := Carried(p, frame[Size(LayoutOf(p.code))..]);
    hide DecodeFrame, LengthField;
    assert |frame| == Size(LayoutOf(p.code)) + |c.padding|;
  }

  // ---------------------------------------------------------------- composition

  /** What a decode of `a + b` gives once `a` decodes: the packets of `a`, then whatever `b` decodes to. */
  lemma {:induction false} DecodeAppends(a: seq<Byte>, b: seq<Byte>)
    requires Decode(a).Ok?
    ensures Decode(a + b) == Prepend(Decode(a).value, Decode(b))
    decreases |a|
  {
    hide DecodeFrame, LengthField;
    if a == [] {
      assert a + b == b;
      PrependNone(Decode(b));
    } else {
      hide Decode;
      FirstOk(a);
      var length := LengthField(a);
      FieldOfPrefix(a, b);
      assert (a + b)[..length] == a[..length];
      assert (a + b)[length..] == a[length..] + b;
      DecodeStep(a, length);
      DecodeStep(a + b, length);
      DecodeAppends(a[length..], b);
      PrependTwice([DecodeFrame(a[..length]).value], Decode(a[length..]).value, Decode(b));
    }
  }

  lemma FieldOfPrefix(a: seq<Byte>, b: seq<Byte>)
    requires |a| >= 8
    ensures LengthField(a + b) == LengthField(a)
  {
    Sizes();
    UnpackWithin(HEADER, a, b);
    hide Unpack, Size;
  }

  /** The lengths of a message's packets add up to the message. */
  lemma {:induction false} LengthsAddUp(data: seq<Byte>)
    requires Decode(data).Ok?
    ensures TotalLength(Decode(data).value) == |data|
    decreases |data|
  {
    if data != [] {
      var length := LengthField(data);
      LengthOfFrame(data, length);
      LengthsAddUp(data[length..]);
      hide DecodeFrame, LengthField;
      var packets := Decode(data).value;
      assert packets[1..] == Decode(data[length..]).value;
    }
  }

  /** The first `k` packets of a message take `n` bytes. */
  predicate Boundary(packets: seq<Packet>, n: nat, k: nat) {
    k <= |packets| && TotalLength(packets[..k]) == n
  }

  predicate CutError(r: Result<seq<Packet>>) {
    r == Err(TruncatedHeader) || r == Err(LengthExceedsMessage)
  }

  /** A message cut short decodes to the packets before the cut when it is cut between two, and is refused elsewhere. */
  ghost predicate CutsCleanly(packets: seq<Packet>, n: nat, r: Result<seq<Packet>>) {
    && (forall k: nat :: Boundary(packets, n, k) ==> r == Ok(packets[..k]))
    && ((exists k: nat :: Boundary(packets, n, k)) || CutError(r))
  }

  lemma BoundaryShifts(packet: Packet, packets: seq<Packet>, n: nat, k: nat)
    requires packet.length > 0
    ensures Boundary([packet] + packets, n, k)
       <==> if k == 0 then n == 0 else n >= packet.length && Boundary(packets, n - packet.length, k - 1)
  {
    var all := [packet] + packets;
    if 0 < k <= |all| {
      assert all[..k][0] == packet && all[..k][1..] == packets[..k - 1];
    }
  }

  /** Main result, for every message that decodes and every place to cut it. */
  lemma {:induction false} CutMessage(data: seq<Byte>, n: nat)
    requires Decode(data).Ok? && n <= |data|
    ensures CutsCleanly(Decode(data).value, n, Decode(data[..n]))
    decreases |data|
  {
    if data == [] {
      assert Boundary(Decode(data).value, n, 0);
    } else {
      var length := LengthField(data);
      LengthOfFrame(data, length);
      var packet, packets := DecodeFrame(data[..length]).value, Decode(data[length..]).value;
      if n < length {
        CutInside(data, n);
        assert CutsCleanly([packet] + packets, n, Decode(data[..n])) by {
          CutHead(packet, packets, n, Decode(data[..n]));
        }
      } else {
        CutMessage(data[length..], n - length);
        CutTail(packet, packets, n, Decode(data[length..][..n - length]));
        LengthOfFrame(data, n);
        assert data[..n][..length] == data[..length];
        assert data[..n][length..] == data[length..][..n - length];
        hide CutsCleanly, DecodeFrame, LengthField;
      }
    }
  }

  lemma CutInside(data: seq<Byte>, n: nat)
    requires data != [] && Decode(data).Ok? && n < LengthField(data)
    ensures if n == 0 then Decode(data[..n]) == Ok([]) else CutError(Decode(data[..n]))
  {
    if n >= 8 {
      LengthOfFrame(data, n);
    }
    hide DecodeFrame, LengthField;
  }

  lemma CutHead(packet: Packet, packets: seq<Packet>, n: nat, r: Result<seq<Packet>>)
    requires packet.length > n && (if n == 0 then r == Ok([]) else CutError(r))
    ensures CutsCleanly([packet] + packets, n, r)
  {
    var all := [packet] + packets;
    BoundaryShifts(packet, packets, n, 0);
    forall k: nat | Boundary(all, n, k)
      ensures r == Ok(all[..k])
    {
      BoundaryShifts(packet, packets, n, k);
    }
    hide Boundary;
  }

  lemma CutTail(packet: Packet, packets: seq<Packet>, n: nat, r: Result<seq<Packet>>)
    requires 0 < packet.length <= n && CutsCleanly(packets, n - packet.length, r)
    ensures CutsCleanly([packet] + packets, n, Prepend([packet], r))
  {
    var all := [packet] + packets;
    var m := n - packet.length;
    forall k: nat | Boundary(all, n, k)
      ensures Prepend([packet], r) == Ok(all[..k])
    {
      BoundaryShifts(packet, packets, n, k);
      assert Boundary(packets, m, k - 1) && all[..k] == [packet] + packets[..k - 1];
    }
    if exists k: nat :: Boundary(packets, m, k) {
      var k: nat :| Boundary(packets, m, k);
      BoundaryShifts(packet, packets, n, k + 1);
      assert Boundary(all, n, k + 1);
    }
    hide Boundary;
  }
}
