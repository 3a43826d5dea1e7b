/** Fixed and variable-length integers, binary data and text on the wire
    (sections 1.5.2 to 1.5.7 of MQTT Version 5.0). */
module Wire {
  import opened Bytes

  // ---------- Fixed-size integers ----------

  function Pow256(size: nat): (p: nat)
    ensures p > 0
  {
    if size == 0 then 1 else 256 * Pow256(size - 1)
  }

  /** `value.to_bytes(size, "big")`; a value that does not fit raises OverflowError. */
  function FixedInteger(value: nat, size: nat): (bytes: seq<byte>)
    requires value < Pow256(size)
    ensures |bytes| == size
  {
    if size == 0 then [] else FixedInteger(value / 256, size - 1) + [value % 256]
  }

  /** `int.from_bytes(bytes, "big")` */
  function BigEndian(bytes: seq<byte>): (value: nat)
    ensures value < Pow256(|bytes|)
  {
    if bytes == [] then 0 else BigEndian(bytes[..|bytes| - 1]) * 256 + bytes[|bytes| - 1]
  }

  function DecodeFixedInteger(data: seq<byte>, size: nat): Decoded<nat> {
    if |data| < size then Err(InsufficientData) else Ok(data[size..], BigEndian(data[..size]))
  }

  method EncodeFixedInteger(value: nat, buffer: Buffer, size: nat)
    requires value < Pow256(size)
    modifies buffer
    ensures buffer.data == old(buffer.data) + FixedInteger(value, size)
  {
    buffer.Extend(FixedInteger(value, size));
  }

  lemma {:induction false} BigEndianFixed(value: nat, size: nat)
    requires value < Pow256(size)
    ensures BigEndian(FixedInteger(value, size)) == value
  {
    if size > 0 {
      BigEndianFixed(value / 256, size - 1);
      var bytes := FixedInteger(value, size);
      assert bytes[..size - 1] == FixedInteger(value / 256, size - 1);
    }
  }

  lemma FixedRoundTrip(value: nat, size: nat, r: seq<byte>)
    requires value < Pow256(size)
    ensures DecodeFixedInteger(FixedInteger(value, size) + r, size) == Ok(r, value)
  {
    BigEndianFixed(value, size);
    var bytes := FixedInteger(value, size);
    assert (bytes + r)[..size] == bytes && (bytes + r)[size..] == r;
  }

  lemma Powers()
    ensures Pow256(1) == 0x100
    ensures Pow256(2) == 0x1_0000
    ensures Pow256(4) == 0x1_0000_0000
  {
    assert Pow256(3) == 256 * Pow256(2);
  }

  // ---------- Variable-length integers (section 1.5.5) ----------

  function VarInt(value: nat): (bytes: seq<byte>)
    ensures |bytes| > 0
  {
    if value < 128 then [value] else [value % 128 + 128] + VarInt(value / 128)
  }

  function DecodeVarInt(data: seq<byte>): (r: Decoded<nat>)
    ensures r.Ok? ==> |r.rest| < |data|
    ensures r.Err? ==> r.error == InsufficientData
  {
    if data == [] then Err(InsufficientData)
    else if data[0] < 128 then Ok(data[1..], data[0])
    else
      var (rest, high) :- DecodeVarInt(data[1..]);
      Ok(rest, data[0] - 128 + 128 * high)
  }

  method EncodeVariableInteger(value: nat, buffer: Buffer)
    modifies buffer
    ensures buffer.data == old(buffer.data) + VarInt(value)
  {
    var left := value;
    while true
      invariant old(buffer.data) + VarInt(value) == buffer.data + VarInt(left)
      decreases left
    {
      var newByte := left % 128;
      ghost var before, sent := left, buffer.data;
      left := left / 128;
      if left > 0 {
        newByte := newByte + 128;
      }
      buffer.Append(newByte);
      if left == 0 {
        assert VarInt(before) == [newByte];
        return;
      }
      assert VarInt(before) == [newByte] + VarInt(left);
      assert sent + VarInt(before) == buffer.data + VarInt(left);
    }
  }

  method DecodeVariableInteger(data: seq<byte>) returns (r: Decoded<nat>)
    ensures r == DecodeVarInt(data)
  {
    var multiplier: nat, value: nat := 1, 0;
    for i := 0 to |data|
      invariant multiplier > 0
      invariant DecodeVarInt(data) == Scaled(DecodeVarInt(data[i..]), value, multiplier)
    {
      var val: nat := data[i];
      ScaleStep(data[i..], value, multiplier);
      assert data[i..][1..] == data[i + 1..];
      value := value + val % 128 * multiplier;
      multiplier := multiplier * 128;
      if val < 128 {
        return Ok(data[i + 1..], value);
      }
    }
    return Err(InsufficientData);
  }

  /** The result of decoding a suffix, with the digits before it already summed up. */
  ghost function Scaled(r: Decoded<nat>, value: nat, multiplier: nat): Decoded<nat> {
    if r.Err? then r else Ok(r.rest, value + Product(multiplier, r.value))
  }

  ghost function Product(a: nat, b: nat): nat {
    a * b
  }

  lemma Distribute(multiplier: nat, digit: nat, high: nat)
    ensures Product(multiplier, digit + 128 * high) == Product(digit, multiplier) + Product(multiplier * 128, high)
  {
    assert multiplier * (digit + 128 * high) == multiplier * digit + multiplier * (128 * high);
    assert multiplier * (128 * high) == multiplier * 128 * high;
  }

  lemma ScaleStep(data: seq<byte>, value: nat, multiplier: nat)
    requires data != []
    ensures var sum := value + Product(data[0] % 128, multiplier);
            Scaled(DecodeVarInt(data), value, multiplier)
            == if data[0] < 128 then Ok(data[1..], sum)
               else Scaled(DecodeVarInt(data[1..]), sum, multiplier * 128)
  {
    var tail := DecodeVarInt(data[1..]);
    Distribute(multiplier, data[0] % 128, if data[0] >= 128 && tail.Ok? then tail.value else 0);
  }

  lemma {:induction false} VarIntRoundTrip(value: nat, r: seq<byte>)
    ensures DecodeVarInt(VarInt(value) + r) == Ok(r, value)
  {
    var bytes := VarInt(value) + r;
    if value < 128 {
      assert bytes[1..] == r;
    } else {
      VarIntRoundTrip(value / 128, r);
      assert bytes[1..] == VarInt(value / 128) + r;
    }
  }

  lemma {:induction false} VarIntPrefix(value: nat, n: nat)
    requires n < |VarInt(value)|
    ensures DecodeVarInt(VarInt(value)[..n]) == Err(InsufficientData)
  {
    if value >= 128 && n > 0 {
      VarIntPrefix(value / 128, n - 1);
      assert VarInt(value)[..n][1..] == VarInt(value / 128)[..n - 1];
    }
  }

  /** More bytes after an encoded integer change nothing. */
  lemma {:induction false} VarIntStable(data: seq<byte>, more: seq<byte>)
    requires DecodeVarInt(data).Ok?
    ensures DecodeVarInt(data + more) == Ok(DecodeVarInt(data).rest + more, DecodeVarInt(data).value)
  {
    assert (data + more)[1..] == data[1..] + more;
    if data[0] >= 128 {
      VarIntStable(data[1..], more);
    }
  }

  /** No byte string that decodes to a value is shorter than the encoder's. */
  lemma {:induction false} VarIntMinimal(data: seq<byte>)
    requires DecodeVarInt(data).Ok?
    ensures |VarInt(DecodeVarInt(data).value)| <= |data| - |DecodeVarInt(data).rest|
  {
    if data[0] >= 128 {
      VarIntMinimal(data[1..]);
    }
  }

  // ---------- Binary data and text ----------

  function Binary(value: seq<byte>): seq<byte>
    requires |value| < 0x1_0000
  {
    Powers();
    FixedInteger(|value|, 2) + value
  }

  function DecodeBinary(data: seq<byte>): (r: Decoded<seq<byte>>)
    ensures r.Ok? ==> |r.rest| < |data| && |r.value| < 0x1_0000
  {
    Powers();
    var (d, length) :- DecodeFixedInteger(data, 2);
    if |d| < length then Err(InsufficientData) else Ok(d[length..], d[..length])
  }

  /** Text short enough for its two-byte length. */
  predicate TextFits(text: Text) {
    |text| < 0x1_0000 && ValidUtf8(text)
  }

  function DecodeUtf8(data: seq<byte>): (r: Decoded<Text>)
    ensures r.Ok? ==> |r.rest| < |data| && TextFits(r.value)
  {
    Powers();
    var (d, length) :- DecodeFixedInteger(data, 2);
    if |d| < length then Err(InsufficientData)
    else if !ValidUtf8(d[..length]) then Err(DecodeError)
    else Ok(d[length..], d[..length])
  }

  method EncodeBinary(value: seq<byte>, buffer: Buffer)
    requires |value| < 0x1_0000
    modifies buffer
    ensures buffer.data == old(buffer.data) + Binary(value)
  {
    Powers();
    EncodeFixedInteger(|value|, buffer, 2);
    buffer.Extend(value);
  }

  lemma BinaryRoundTrip(value: seq<byte>, r: seq<byte>)
    requires |value| < 0x1_0000
    ensures DecodeBinary(Binary(value) + r) == Ok(r, value)
  {
    Powers();
    FixedRoundTrip(|value|, 2, value + r);
    assert Binary(value) + r == FixedInteger(|value|, 2) + (value + r);
    assert (value + r)[|value|..] == r;
  }

  lemma Utf8RoundTrip(text: Text, r: seq<byte>)
    requires TextFits(text)
    ensures DecodeUtf8(Binary(text) + r) == Ok(r, text)
  {
    Powers();
    FixedRoundTrip(|text|, 2, text + r);
    assert Binary(text) + r == FixedInteger(|text|, 2) + (text + r);
    assert (text + r)[|text|..] == r;
  }
}
