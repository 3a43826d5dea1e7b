/** Frames in a byte stream: when one is complete, and that later bytes never change it. */
module Framing {
  import opened Bytes
  import opened Wire
  import opened Packets
  import opened Decoding
  import opened RoundTrip

  // ---------- A frame described by its bytes ----------

  /** Bytes that form one variable-length integer: only the last one is below 128. */
  ghost predicate IsVarInt(s: seq<byte>) {
    |s| > 0 && s[|s| - 1] < 128 && forall i :: 0 <= i < |s| - 1 ==> s[i] >= 128
  }

  ghost function LittleEndian(s: seq<byte>): nat {
    if s == [] then 0 else s[0] % 128 + 128 * LittleEndian(s[1..])
  }

  /** The first byte, `k` bytes of length and as many more bytes as they announce. */
  ghost predicate FrameAt(data: seq<byte>, k: nat) {
    && k + 1 <= |data|
    && IsVarInt(data[1..k + 1])
    && LittleEndian(data[1..k + 1]) <= |data| - (k + 1)
  }

  ghost predicate HasFrame(data: seq<byte>) {
    exists k :: FrameAt(data, k)
  }

  lemma {:induction false} VarIntMeaning(data: seq<byte>, k: nat)
    requires k <= |data| && IsVarInt(data[..k])
    ensures DecodeVarInt(data) == Ok(data[k..], LittleEndian(data[..k]))
  {
    var s := data[..k];
    assert s[1..] == data[1..][..k - 1];
    if k > 1 {
      assert IsVarInt(s[1..]);
      VarIntMeaning(data[1..], k - 1);
    } else {
      assert LittleEndian(s[1..]) == 0;
    }
  }

  lemma {:induction false} VarIntExtent(data: seq<byte>) returns (k: nat)
    requires DecodeVarInt(data).Ok?
    ensures k <= |data| && IsVarInt(data[..k])
  {
    if data[0] < 128 {
      k := 1;
    } else {
      k := VarIntExtent(data[1..]);
      assert data[..k + 1] == [data[0]] + data[1..][..k];
      k := k + 1;
    }
  }

  lemma FrameDecodes(data: seq<byte>, k: nat)
    requires FrameAt(data, k)
    ensures DecodeVarInt(data[1..]) == Ok(data[k + 1..], LittleEndian(data[1..k + 1]))
  {
    assert data[1..][..k] == data[1..k + 1] && data[1..][k..] == data[k + 1..];
    VarIntMeaning(data[1..], k);
  }

  /** `decode_packet` asks for more data exactly when no complete frame has arrived, unless two
      bytes are there and the first already names no packet type. In particular a body that is
      too short inside a complete frame is an error and never a request for more. */
  lemma InsufficientExactly(data: seq<byte>)
    ensures DecodePacket(data) == Err(InsufficientData)
       <==> |data| < 2 || (data[0] >= 16 && !HasFrame(data))
  {
    if |data| >= 2 && data[0] >= 16 {
      if HasFrame(data) {
        var k :| FrameAt(data, k);
        FrameDecodes(data, k);
      }
      var d := DecodeVarInt(data[1..]);
      if d.Ok? {
        var k := VarIntExtent(data[1..]);
        VarIntMeaning(data[1..], k);
        assert data[1..][..k] == data[1..k + 1] && data[1..][k..] == data[k + 1..];
        if DecodePacket(data) != Err(InsufficientData) {
          assert FrameAt(data, k);
        }
      }
    }
  }

  // ---------- More bytes change nothing ----------

  lemma RestStable(first: byte, length: nat, data: seq<byte>, more: seq<byte>)
    requires first >= 16 && length <= |data|
    ensures DecodeRest(first, length, data + more)
         == match DecodeRest(first, length, data) {
              case Ok(rest, p) => Ok(rest + more, p)
              case Err(e) => Err(e)
            }
  {
    assert (data + more)[..length] == data[..length];
    assert (data + more)[length..] == data[length..] + more;
  }

  /** Once a frame decodes, or fails to for good, bytes appended later change nothing. */
  lemma PacketStable(data: seq<byte>, more: seq<byte>)
    requires DecodePacket(data) != Err(InsufficientData)
    ensures DecodePacket(data + more)
         == match DecodePacket(data) {
              case Ok(rest, p) => Ok(rest + more, p)
              case Err(e) => Err(e)
            }
  {
    assert (data + more)[1..] == data[1..] + more;
    if data[0] >= 16 {
      VarIntStable(data[1..], more);
      var d := DecodeVarInt(data[1..]);
      RestStable(data[0], d.value, d.rest, more);
    }
  }

  lemma FrontOf(data: seq<byte>, n: nat, m: nat)
    requires 1 <= m <= n <= |data|
    ensures data[..n][1..m] == data[1..m] && data[..n] + data[n..] == data
  {
  }

  /** `decode_packet` looks at one complete frame and at nothing behind it: it consumes exactly
      the frame, and yields the same packet or error for the frame alone. */
  lemma OneFrame(data: seq<byte>, k: nat)
    requires FrameAt(data, k) && data[0] >= 16
    ensures var n := k + 1 + LittleEndian(data[1..k + 1]);
            && DecodePacket(data[..n]) != Err(InsufficientData)
            && DecodePacket(data) == match DecodePacket(data[..n]) {
                 case Ok(rest, p) => Ok(data[n..], p)
                 case Err(e) => Err(e)
               }
            && (DecodePacket(data[..n]).Ok? ==> DecodePacket(data[..n]).rest == [])
  {
    var n := k + 1 + LittleEndian(data[1..k + 1]);
    var frame := data[..n];
    FrontOf(data, n, k + 1);
    assert FrameAt(frame, k);
    InsufficientExactly(frame);
    FrameDecodes(frame, k);
    PacketStable(frame, data[n..]);
    assert frame[k + 1..][n - k - 1..] == [] && [] + data[n..] == data[n..];
  }

  // ---------- Encodings as frames ----------

  /** A frame whose length is not yet complete, or whose body is not. */
  lemma PartialFrame(first: byte, tail: seq<byte>)
    requires first >= 16 && tail != []
    requires var d := DecodeVarInt(tail); d == Err(InsufficientData) || (d.Ok? && |d.rest| < d.value)
    ensures DecodePacket([first] + tail) == Err(InsufficientData)
  {
    assert ([first] + tail)[1..] == tail;
  }

  lemma FramePrefix(first: byte, body: seq<byte>, n: nat)
    requires first >= 16 && n < |Frame(first, body)|
    ensures DecodePacket(Frame(first, body)[..n]) == Err(InsufficientData)
  {
    if n >= 2 {
      var length := VarInt(|body|);
      assert Frame(first, body)[..n] == [first] + (length + body)[..n - 1];
      if n - 1 < |length| {
        assert (length + body)[..n - 1] == length[..n - 1];
        VarIntPrefix(|body|, n - 1);
        PartialFrame(first, length[..n - 1]);
      } else {
        var part := body[..n - 1 - |length|];
        assert (length + body)[..n - 1] == length + part;
        VarIntRoundTrip(|body|, part);
        PartialFrame(first, length + part);
      }
    }
  }

  /** Every strict prefix of an encoded packet is a request for more data. */
  lemma StrictPrefix(p: Packet, n: nat)
    requires PacketOk(p) && n < |Encode(p)|
    ensures DecodePacket(Encode(p)[..n]) == Err(InsufficientData)
  {
    FirstByte(p);
    FramePrefix(HeaderByte(FlagsOf(p), TypeOf(p)), Body(p), n);
  }

  lemma CompleteFrame(p: Packet, r: seq<byte>)
    requires PacketOk(p)
    ensures DecodePacket(Encode(p) + r) != Err(InsufficientData)
  {
    FirstByte(p);
    FrameParts(HeaderByte(FlagsOf(p), TypeOf(p)), Body(p), r);
    VarIntRoundTrip(|Body(p)|, Body(p) + r);
  }

  lemma EqualEncodings(p: Packet, q: Packet)
    requires PacketOk(p) && PacketOk(q) && WireSafe(p) && WireSafe(q) && Encode(p) == Encode(q)
    ensures Settled(p) == Settled(q)
  {
    PacketRoundTrip(p, []);
    PacketRoundTrip(q, []);
  }

  lemma WholePrefix(a: seq<byte>, b: seq<byte>)
    requires a <= b && DecodePacket(a + []) != Err(InsufficientData)
    requires |a| < |b| ==> DecodePacket(b[..|a|]) == Err(InsufficientData)
    ensures a == b
  {
    assert a + [] == a == b[..|a|];
  }

  /** No encoded packet is a proper prefix of another, and one encoding stands for one packet. */
  lemma PrefixFree(p: Packet, q: Packet)
    requires PacketOk(p) && PacketOk(q) && Encode(p) <= Encode(q)
    ensures Encode(p) == Encode(q)
    ensures WireSafe(p) && WireSafe(q) ==> Settled(p) == Settled(q)
  {
    CompleteFrame(p, []);
    if |Encode(p)| < |Encode(q)| {
      StrictPrefix(q, |Encode(p)|);
    }
    WholePrefix(Encode(p), Encode(q));
    if WireSafe(p) && WireSafe(q) {
      EqualEncodings(p, q);
    }
  }

  // ---------- Sequences of packets ----------

  ghost predicate AllOk(ps: seq<Packet>) {
    forall p :: p in ps ==> PacketOk(p)
  }

  ghost predicate AllSafe(ps: seq<Packet>) {
    forall p :: p in ps ==> PacketOk(p) && WireSafe(p)
  }

  ghost function EncodeAll(ps: seq<Packet>): seq<byte>
    requires AllOk(ps)
  {
    if ps == [] then []
    else
      assert PacketOk(ps[0]);
      Encode(ps[0]) + EncodeAll(ps[1..])
  }

  ghost function SettledAll(ps: seq<Packet>): seq<Packet> {
    if ps == [] then [] else [Settled(ps[0])] + SettledAll(ps[1..])
  }

  /** Decode packets until nothing is left. */
  ghost function DecodeAll(data: seq<byte>): Decoded<seq<Packet>>
    decreases |data|
  {
    if data == [] then Ok([], [])
    else
      var (d, p) :- DecodePacket(data);
      var (d, ps) :- DecodeAll(d);
      Ok(d, [p] + ps)
  }

  /** The concatenated encodings of any list of packets decode to that list. */
  lemma {:induction false} ListRoundTrip(ps: seq<Packet>)
    requires AllSafe(ps)
    ensures DecodeAll(EncodeAll(ps)) == Ok([], SettledAll(ps))
  {
    if ps != [] {
      assert PacketOk(ps[0]) && WireSafe(ps[0]);
      PacketRoundTrip(ps[0], EncodeAll(ps[1..]));
      ListRoundTrip(ps[1..]);
    }
  }

  lemma {:induction false} EncodeAllAppend(a: seq<Packet>, b: seq<Packet>)
    requires AllOk(a) && AllOk(b)
    ensures AllOk(a + b) && EncodeAll(a + b) == EncodeAll(a) + EncodeAll(b)
  {
    if a == [] {
      assert a + b == b;
    } else {
      assert PacketOk(a[0]);
      assert a + b == [a[0]] + (a[1..] + b);
      EncodeAllAppend(a[1..], b);
      assert (a + b)[1..] == a[1..] + b;
      Assoc(Encode(a[0]), EncodeAll(a[1..]), EncodeAll(b));
    }
  }
}
