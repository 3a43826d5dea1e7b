/** UTF-8 text (section 3 of RFC 3629): the valid byte strings are the encodings of Unicode scalar values. */
module Utf8 {
  import opened Bytes

  /** A Unicode scalar value: a code point that is no surrogate. */
  predicate IsScalar(c: nat) {
    c < 0xD800 || 0xE000 <= c < 0x11_0000
  }

  /** One to four bytes, with six bits of the scalar value in each byte behind the first. */
  function EncodeScalar(c: nat): seq<byte>
    requires IsScalar(c)
  {
    if c < 0x80 then [c]
    else if c < 0x800 then [0xC0 + c / 64, 0x80 + c % 64]
    else if c < 0x1_0000 then [0xE0 + c / 4096, 0x80 + c / 64 % 64, 0x80 + c % 64]
    else [0xF0 + c / 26_2144, 0x80 + c / 4096 % 64, 0x80 + c / 64 % 64, 0x80 + c % 64]
  }

  ghost predicate Scalars(cs: seq<nat>) {
    forall c :: c in cs ==> IsScalar(c)
  }

  ghost function EncodeScalars(cs: seq<nat>): Text
    requires Scalars(cs)
  {
    if cs == [] then []
    else
      assert IsScalar(cs[0]);
      EncodeScalar(cs[0]) + EncodeScalars(cs[1..])
  }

  lemma ScalarValid(c: nat, rest: Text)
    requires IsScalar(c)
    ensures ValidUtf8(EncodeScalar(c) + rest) <==> ValidUtf8(rest)
  {
    var s := EncodeScalar(c) + rest;
    assert s[|EncodeScalar(c)|..] == rest;
    if c >= 0x1_0000 {
      FourByteScalar(c, s, rest);
    } else if c >= 0x800 {
      ThreeByteScalar(c, s, rest);
    }
  }

  lemma ThreeByteScalar(c: nat, s: Text, rest: Text)
    requires IsScalar(c) && 0x800 <= c < 0x1_0000 && s == EncodeScalar(c) + rest
    ensures ValidUtf8(s) <==> ValidUtf8(rest)
  {
    assert s[3..] == rest;
    assert s[0] == 0xE0 ==> Between(s[1], 0xA0, 0xBF);
    assert s[0] == 0xED ==> Between(s[1], 0x80, 0x9F);
  }

  lemma FourByteScalar(c: nat, s: Text, rest: Text)
    requires IsScalar(c) && 0x1_0000 <= c && s == EncodeScalar(c) + rest
    ensures ValidUtf8(s) <==> ValidUtf8(rest)
  {
    assert s[4..] == rest;
    assert s[0] == 0xF0 ==> Between(s[1], 0x90, 0xBF);
    assert s[0] == 0xF4 ==> Between(s[1], 0x80, 0x8F);
  }

  lemma {:induction false} ScalarsValid(cs: seq<nat>)
    requires Scalars(cs)
    ensures ValidUtf8(EncodeScalars(cs))
  {
    if cs != [] {
      assert IsScalar(cs[0]);
      ScalarsValid(cs[1..]);
      ScalarValid(cs[0], EncodeScalars(cs[1..]));
    }
  }

  lemma SixBits(high: nat, low: nat)
    requires low < 64
    ensures (high * 64 + low) / 64 == high && (high * 64 + low) % 64 == low
  {
  }

  lemma TwoBytesScalar(x: nat, y: nat)
    requires 2 <= x < 0x20 && y < 64
    ensures var c := x * 64 + y; IsScalar(c) && EncodeScalar(c) == [0xC0 + x, 0x80 + y]
  {
    SixBits(x, y);
  }

  lemma ThreeBytesScalar(x: nat, y: nat, z: nat)
    requires x < 16 && y < 64 && z < 64 && (x == 0 ==> y >= 32) && (x == 13 ==> y < 32)
    ensures var c := (x * 64 + y) * 64 + z; IsScalar(c) && EncodeScalar(c) == [0xE0 + x, 0x80 + y, 0x80 + z]
  {
    SixBits(x, y);
    SixBits(x * 64 + y, z);
  }

  lemma FourBytesScalar(w: nat, x: nat, y: nat, z: nat)
    requires w < 5 && x < 64 && y < 64 && z < 64 && (w == 0 ==> x >= 16) && (w == 4 ==> x < 16)
    ensures var c := ((w * 64 + x) * 64 + y) * 64 + z;
            IsScalar(c) && EncodeScalar(c) == [0xF0 + w, 0x80 + x, 0x80 + y, 0x80 + z]
  {
    SixBits(w, x);
    SixBits(w * 64 + x, y);
    SixBits((w * 64 + x) * 64 + y, z);
  }

  /** The scalar value whose encoding a valid text begins with. */
  lemma FirstScalar(s: Text) returns (c: nat, n: nat)
    requires s != [] && ValidUtf8(s)
    ensures IsScalar(c) && 1 <= n <= |s| && EncodeScalar(c) == s[..n] && ValidUtf8(s[n..])
  {
    var b0: nat := s[0];
    if b0 < 0x80 {
      c, n := b0, 1;
    } else if b0 < 0xE0 {
      var x: nat, y: nat := b0 - 0xC0, s[1] - 0x80;
      TwoBytesScalar(x, y);
      c, n := x * 64 + y, 2;
    } else if b0 < 0xF0 {
      var x: nat, y: nat, z: nat := b0 - 0xE0, s[1] - 0x80, s[2] - 0x80;
      ThreeBytesScalar(x, y, z);
      c, n := (x * 64 + y) * 64 + z, 3;
    } else {
      var w: nat, x: nat, y: nat, z: nat := b0 - 0xF0, s[1] - 0x80, s[2] - 0x80, s[3] - 0x80;
      FourBytesScalar(w, x, y, z);
      c, n := ((w * 64 + x) * 64 + y) * 64 + z, 4;
    }
  }

  lemma {:induction false} ValidScalars(s: Text) returns (cs: seq<nat>)
    requires ValidUtf8(s)
    ensures Scalars(cs) && EncodeScalars(cs) == s
    decreases |s|
  {
    if s == [] {
      cs := [];
    } else {
      var c, n := FirstScalar(s);
      var rest := ValidScalars(s[n..]);
      cs := [c] + rest;
      assert cs[1..] == rest && s == s[..n] + s[n..];
      assert forall x :: x in cs <==> x == c || x in rest;
    }
  }

  /** A byte string is valid if and only if it encodes a string of Unicode scalar values. */
  lemma ValidExactly(s: Text)
    ensures ValidUtf8(s) <==> exists cs :: Scalars(cs) && EncodeScalars(cs) == s
  {
    if ValidUtf8(s) {
      var cs := ValidScalars(s);
    }
    if cs :| Scalars(cs) && EncodeScalars(cs) == s {
      ScalarsValid(cs);
    }
  }
}
