/** The language that `decode_packet` accepts, written out in bytes. Nothing here calls an encoder or
    names a constant of the codec: packet types, flags, reason codes and property kinds are the
    numbers of MQTT Version 5.0, and every accepted byte string is a concatenation. */
module Grammar {
  import opened Bytes
  import opened Wire
  import opened Properties

  // ---------- Integers and text ----------

  /** The high byte comes first. */
  function Two(n: nat): seq<byte>
    requires n < 0x1_0000
  {
    [n / 256, n % 256]
  }

  function Four(n: nat): seq<byte>
    requires n < 0x1_0000_0000
  {
    [n / 0x100_0000, n / 0x1_0000 % 256, n / 256 % 256, n % 256]
  }

  /** Bytes behind their two-byte length. */
  function Prefixed(bytes: seq<byte>): seq<byte>
    requires |bytes| < 0x1_0000
  {
    Two(|bytes|) + bytes
  }

  ghost function DigitsValue(digits: seq<byte>): nat {
    if digits == [] then 0 else digits[0] % 128 + 128 * DigitsValue(digits[1..])
  }

  /** Digits of base 128, the lowest first; all but the last have their high bit set. */
  ghost predicate Digits(digits: seq<byte>, n: nat) {
    && digits != []
    && (forall i :: 0 <= i < |digits| - 1 ==> digits[i] >= 128)
    && digits[|digits| - 1] < 128
    && DigitsValue(digits) == n
  }

  ghost predicate NumberAt(data: seq<byte>, n: nat, rest: seq<byte>) {
    exists digits :: Digits(digits, n) && data == digits + rest
  }

  lemma DigitsCons(first: byte, digits: seq<byte>, n: nat)
    requires first >= 128 && Digits(digits, n)
    ensures Digits([first] + digits, first - 128 + 128 * n)
  {
    var all := [first] + digits;
    assert all[1..] == digits;
    assert all[|all| - 1] == digits[|digits| - 1];
    assert forall i :: 1 <= i < |all| - 1 ==> all[i] == digits[i - 1];
  }

  lemma DigitsTail(digits: seq<byte>, n: nat)
    requires Digits(digits, n) && |digits| > 1
    ensures digits[0] >= 128 && n >= digits[0] - 128 && (n - (digits[0] - 128)) % 128 == 0
    ensures Digits(digits[1..], (n - (digits[0] - 128)) / 128)
  {
    assert digits[1..][|digits| - 2] == digits[|digits| - 1];
  }

  /** Whatever starts with such digits decodes to their number. */
  lemma {:induction false} DigitsDecode(digits: seq<byte>, n: nat, rest: seq<byte>)
    requires Digits(digits, n)
    ensures DecodeVarInt(digits + rest) == Ok(rest, n)
  {
    var data := digits + rest;
    if |digits| == 1 {
      assert digits[1..] == [] && data[1..] == rest;
      assert DigitsValue([]) == 0;
    } else {
      DigitsTail(digits, n);
      DigitsDecode(digits[1..], (n - (digits[0] - 128)) / 128, rest);
      assert data[1..] == digits[1..] + rest && data[0] == digits[0];
    }
  }

  lemma {:induction false} DecodedDigits(data: seq<byte>) returns (digits: seq<byte>)
    requires DecodeVarInt(data).Ok?
    ensures Digits(digits, DecodeVarInt(data).value) && data == digits + DecodeVarInt(data).rest
  {
    if data[0] < 128 {
      digits := [data[0]];
      assert digits[1..] == [];
    } else {
      var tail := DecodedDigits(data[1..]);
      DigitsCons(data[0], tail, DecodeVarInt(data[1..]).value);
      digits := [data[0]] + tail;
    }
  }

  /** A variable-length integer is read off the front exactly if its digits stand there. */
  lemma VarIntMeans(data: seq<byte>, n: nat, rest: seq<byte>)
    ensures DecodeVarInt(data) == Ok(rest, n) <==> NumberAt(data, n, rest)
  {
    if DecodeVarInt(data) == Ok(rest, n) {
      var digits := DecodedDigits(data);
    }
    if NumberAt(data, n, rest) {
      var digits :| Digits(digits, n) && data == digits + rest;
      DigitsDecode(digits, n, rest);
    }
  }

  lemma TwoMeans(data: seq<byte>, n: nat, rest: seq<byte>)
    ensures DecodeFixedInteger(data, 2) == Ok(rest, n) <==> n < 0x1_0000 && data == Two(n) + rest
  {
    Powers();
    if |data| >= 2 {
      assert data[..2][..1] == [data[0]] && [data[0]][..0] == [];
      var high: nat, low: nat := data[0], data[1];
      assert BigEndian([data[0]]) == high;
      assert BigEndian(data[..2]) == high * 256 + low;
      assert data == [data[0], data[1]] + data[2..];
    }
  }

  lemma FourMeans(data: seq<byte>, n: nat, rest: seq<byte>)
    ensures DecodeFixedInteger(data, 4) == Ok(rest, n) <==> n < 0x1_0000_0000 && data == Four(n) + rest
  {
    Powers();
    if |data| >= 4 {
      hide BigEndian;
      BigEndianFour(data[..4]);
      FourDigits(data[0], data[1], data[2], data[3]);
      assert data == Four(BigEndian(data[..4])) + data[4..];
      if n < 0x1_0000_0000 && data == Four(n) + rest {
        FourValue(n);
        assert data[4..] == rest;
      }
    }
  }

  lemma FourValue(n: nat)
    requires n < 0x1_0000_0000
    ensures ((n / 0x100_0000 * 256 + n / 0x1_0000 % 256) * 256 + n / 256 % 256) * 256 + n % 256 == n
  {
  }

  lemma FourDigits(n0: byte, n1: byte, n2: byte, n3: byte)
    ensures var n: nat := ((n0 * 256 + n1) * 256 + n2) * 256 + n3;
            n / 0x100_0000 == n0 && n / 0x1_0000 % 256 == n1 && n / 256 % 256 == n2 && n % 256 == n3
  {
  }

  lemma BigEndianFour(b: seq<byte>)
    requires |b| == 4
    ensures var n0: nat, n1: nat, n2: nat, n3: nat := b[0], b[1], b[2], b[3];
            BigEndian(b) == ((n0 * 256 + n1) * 256 + n2) * 256 + n3
  {
    var n0: nat, n1: nat, n2: nat := b[0], b[1], b[2];
    assert b[..3][..2] == b[..2] && b[..2][..1] == b[..1] && b[..1][..0] == [];
    assert BigEndian(b[..1]) == n0;
    assert BigEndian(b[..2]) == n0 * 256 + n1;
    assert BigEndian(b[..3]) == (n0 * 256 + n1) * 256 + n2;
  }

  lemma ByteMeans(data: seq<byte>, b: nat, rest: seq<byte>)
    ensures DecodeFixedInteger(data, 1) == Ok(rest, b) <==> b < 256 && data == [b] + rest
  {
    Powers();
    if |data| >= 1 {
      assert data[..1][..0] == [] && BigEndian(data[..1]) == data[0];
      assert data == [data[0]] + data[1..];
    }
  }

  lemma PrefixedMeans(data: seq<byte>, bytes: seq<byte>, rest: seq<byte>)
    ensures DecodeBinary(data) == Ok(rest, bytes) <==> |bytes| < 0x1_0000 && data == Prefixed(bytes) + rest
  {
    Powers();
    if DecodeBinary(data) == Ok(rest, bytes) {
      var d := DecodeFixedInteger(data, 2);
      TwoMeans(data, d.value, d.rest);
      assert d.rest == bytes + rest;
    }
    if |bytes| < 0x1_0000 && data == Prefixed(bytes) + rest {
      assert data == Two(|bytes|) + (bytes + rest);
      TwoMeans(data, |bytes|, bytes + rest);
      assert (bytes + rest)[..|bytes|] == bytes && (bytes + rest)[|bytes|..] == rest;
    }
  }

  lemma TextMeans(data: seq<byte>, text: Text, rest: seq<byte>)
    ensures DecodeUtf8(data) == Ok(rest, text)
       <==> |text| < 0x1_0000 && ValidUtf8(text) && data == Prefixed(text) + rest
  {
    PrefixedMeans(data, text, rest);
    Powers();
    if |text| < 0x1_0000 && data == Prefixed(text) + rest {
      assert data == Two(|text|) + (text + rest);
      TwoMeans(data, |text|, text + rest);
    }
  }

  // ---------- The head of a CONNECT ----------

  /** "MQTT" behind its length, version 5, a byte of flags and the keep-alive interval. */
  function HeadBytes(flags: byte, keepAlive: nat): seq<byte>
    requires keepAlive < 0x1_0000
  {
    [0x00, 0x04, 0x4D, 0x51, 0x54, 0x54, 0x05, flags, keepAlive / 256, keepAlive % 256]
  }

  // ---------- Property values ----------

  /** The property kinds by the bytes of their values (table 2-4 of MQTT Version 5.0). */
  predicate OneByteKind(kind: nat) {
    kind in {0x01, 0x17, 0x19, 0x24, 0x25, 0x28, 0x29, 0x2A}
  }

  predicate TwoByteKind(kind: nat) {
    kind in {0x13, 0x21, 0x22, 0x23}
  }

  predicate FourByteKind(kind: nat) {
    kind in {0x02, 0x11, 0x18, 0x27}
  }

  predicate TextKind(kind: nat) {
    kind in {0x03, 0x08, 0x12, 0x15, 0x1A, 0x1C, 0x1F}
  }

  predicate BinaryKind(kind: nat) {
    kind in {0x09, 0x16}
  }

  /** The bytes that stand for a value of a property kind. No other kinds exist. */
  ghost predicate ValueBytes(kind: nat, v: Value, bytes: seq<byte>) {
    if OneByteKind(kind) then v.Number? && v.n < 0x100 && bytes == [v.n]
    else if TwoByteKind(kind) then v.Number? && v.n < 0x1_0000 && bytes == Two(v.n)
    else if FourByteKind(kind) then v.Number? && v.n < 0x1_0000_0000 && bytes == Four(v.n)
    else if kind == 0x0B then v.Number? && Digits(bytes, v.n)
    else if TextKind(kind) then v.Str? && IsText(v.text) && bytes == Prefixed(v.text)
    else if BinaryKind(kind) then v.Blob? && |v.bytes| < 0x1_0000 && bytes == Prefixed(v.bytes)
    else if kind == 0x26 then
      v.Pair? && IsText(v.key) && IsText(v.val) && bytes == Prefixed(v.key) + Prefixed(v.val)
    else false
  }

  predicate IsText(text: Text) {
    |text| < 0x1_0000 && ValidUtf8(text)
  }

  predicate IsKind(kind: nat) {
    || OneByteKind(kind) || TwoByteKind(kind) || FourByteKind(kind) || TextKind(kind) || BinaryKind(kind)
    || kind in {0x0B, 0x26}
  }

  lemma {:induction false} GetFirst<K, V>(entries: seq<(K, V)>, i: nat)
    requires i < |entries| && forall j :: 0 <= j < i ==> entries[j].0 != entries[i].0
    ensures Get(entries, entries[i].0) == Some(entries[i].1)
  {
    if i > 0 {
      GetFirst(entries[1..], i - 1);
    }
  }

  lemma {:induction false} GetNone<K, V>(entries: seq<(K, V)>, key: K)
    requires forall j :: 0 <= j < |entries| ==> entries[j].0 != key
    ensures Get(entries, key) == None
  {
    if entries != [] {
      GetNone(entries[1..], key);
    }
  }

  function FormatByKind(kind: nat): Option<Format> {
    if OneByteKind(kind) then Some(FixedFormat(1))
    else if TwoByteKind(kind) then Some(FixedFormat(2))
    else if FourByteKind(kind) then Some(FixedFormat(4))
    else if kind == 0x0B then Some(VarIntFormat)
    else if TextKind(kind) then Some(TextFormat)
    else if BinaryKind(kind) then Some(BinaryFormat)
    else if kind == 0x26 then Some(PairFormat)
    else None
  }

  /** The kinds in the order of the table. */
  const KINDS: seq<nat> :=
    [0x01, 0x02, 0x03, 0x08, 0x09, 0x0B, 0x11, 0x12, 0x13, 0x15, 0x16, 0x17, 0x18, 0x19, 0x1A, 0x1C, 0x1F,
     0x21, 0x22, 0x23, 0x24, 0x25, 0x27, 0x28, 0x29, 0x2A]

  lemma TableKinds()
    ensures |FORMATS| == |KINDS|
    ensures forall i :: 0 <= i < |KINDS| ==> FORMATS[i].0 == KINDS[i]
  {
  }

  lemma TableFormats()
    ensures |FORMATS| == |KINDS|
    ensures forall i :: 0 <= i < |KINDS| ==> FormatByKind(KINDS[i]) == Some(FORMATS[i].1)
  {
  }

  lemma KindsAscend()
    ensures forall i, j :: 0 <= i < j < |KINDS| ==> KINDS[i] < KINDS[j]
  {
  }

  lemma KindsAll(kind: nat)
    ensures kind in KINDS <==> IsKind(kind) && kind != 0x26
  {
  }

  /** The formats of all property kinds. */
  lemma FormatMeans(kind: nat)
    ensures FormatOf(kind) == FormatByKind(kind)
  {
    TableKinds();
    TableFormats();
    KindsAscend();
    KindsAll(kind);
    if kind in KINDS {
      var i :| 0 <= i < |KINDS| && KINDS[i] == kind;
      GetFirst(FORMATS, i);
    } else if kind != 0x26 {
      GetNone(FORMATS, kind);
    }
  }

  ghost predicate ValueAt(kind: nat, data: seq<byte>, v: Value, rest: seq<byte>) {
    exists bytes :: ValueBytes(kind, v, bytes) && data == bytes + rest
  }

  lemma PairMeans(data: seq<byte>, key: Text, val: Text, rest: seq<byte>)
    ensures DecodeValue(PairFormat, data) == Ok(rest, Pair(key, val))
       <==> IsText(key) && IsText(val) && data == Prefixed(key) + Prefixed(val) + rest
  {
    var d := DecodeUtf8(data);
    if DecodeValue(PairFormat, data) == Ok(rest, Pair(key, val)) {
      TextMeans(data, key, d.rest);
      TextMeans(d.rest, val, rest);
      Assoc(Prefixed(key), Prefixed(val), rest);
    }
    if IsText(key) && IsText(val) && data == Prefixed(key) + Prefixed(val) + rest {
      Assoc(Prefixed(key), Prefixed(val), rest);
      TextMeans(data, key, Prefixed(val) + rest);
      TextMeans(Prefixed(val) + rest, val, rest);
    }
  }

  /** Only one byte string stands for the value. */
  lemma OneSpelling(kind: nat, v: Value, bytes: seq<byte>, data: seq<byte>, rest: seq<byte>)
    requires ValueBytes(kind, v, bytes) && kind != 0x0B
    ensures ValueAt(kind, data, v, rest) <==> data == bytes + rest
  {
  }

  lemma NumberMeans(kind: nat, data: seq<byte>, n: nat, rest: seq<byte>)
    requires OneByteKind(kind) || TwoByteKind(kind) || FourByteKind(kind) || kind == 0x0B
    ensures DecodeValue(FormatByKind(kind).value, data) == Ok(rest, Number(n))
       <==> ValueAt(kind, data, Number(n), rest)
  {
    if OneByteKind(kind) {
      ByteMeans(data, n, rest);
      if n < 0x100 {
        OneSpelling(kind, Number(n), [n], data, rest);
      }
    } else if TwoByteKind(kind) {
      TwoMeans(data, n, rest);
      if n < 0x1_0000 {
        OneSpelling(kind, Number(n), Two(n), data, rest);
      }
    } else if FourByteKind(kind) {
      FourMeans(data, n, rest);
      if n < 0x1_0000_0000 {
        OneSpelling(kind, Number(n), Four(n), data, rest);
      }
    } else {
      VarIntMeans(data, n, rest);
      assert forall bytes :: ValueBytes(kind, Number(n), bytes) <==> Digits(bytes, n);
    }
  }

  lemma TextValueMeans(kind: nat, data: seq<byte>, text: Text, rest: seq<byte>)
    requires TextKind(kind)
    ensures DecodeValue(TextFormat, data) == Ok(rest, Str(text)) <==> ValueAt(kind, data, Str(text), rest)
  {
    TextMeans(data, text, rest);
    if IsText(text) {
      OneSpelling(kind, Str(text), Prefixed(text), data, rest);
    }
  }

  lemma BlobMeans(kind: nat, data: seq<byte>, bytes: seq<byte>, rest: seq<byte>)
    requires BinaryKind(kind)
    ensures DecodeValue(BinaryFormat, data) == Ok(rest, Blob(bytes)) <==> ValueAt(kind, data, Blob(bytes), rest)
  {
    PrefixedMeans(data, bytes, rest);
    if |bytes| < 0x1_0000 {
      OneSpelling(kind, Blob(bytes), Prefixed(bytes), data, rest);
    }
  }

  lemma PairValueMeans(data: seq<byte>, key: Text, val: Text, rest: seq<byte>)
    ensures DecodeValue(PairFormat, data) == Ok(rest, Pair(key, val)) <==> ValueAt(0x26, data, Pair(key, val), rest)
  {
    PairMeans(data, key, val, rest);
    if IsText(key) && IsText(val) {
      OneSpelling(0x26, Pair(key, val), Prefixed(key) + Prefixed(val), data, rest);
    }
  }

  /** A value is read off the front exactly if its bytes stand there. */
  lemma ValueMeans(kind: nat, data: seq<byte>, v: Value, rest: seq<byte>)
    requires FormatOf(kind).Some?
    ensures DecodeValue(FormatOf(kind).value, data) == Ok(rest, v) <==> ValueAt(kind, data, v, rest)
  {
    FormatMeans(kind);
    var f := FormatByKind(kind).value;
    if f.PairFormat? && v.Pair? {
      PairValueMeans(data, v.key, v.val, rest);
    } else if f.TextFormat? && v.Str? {
      TextValueMeans(kind, data, v.text, rest);
    } else if f.BinaryFormat? && v.Blob? {
      BlobMeans(kind, data, v.bytes, rest);
    } else if (f.FixedFormat? || f.VarIntFormat?) && v.Number? {
      NumberMeans(kind, data, v.n, rest);
    }
  }

  // ---------- Property blocks ----------

  /** Entries one after the other, each the digits of its kind and the bytes of its value. */
  ghost predicate Spells(bytes: seq<byte>, raw: seq<Entry>)
    decreases |raw|
  {
    if raw == [] then bytes == []
    else
      exists kind, value, rest ::
        && Digits(kind, raw[0].0) && ValueBytes(raw[0].0, raw[0].1, value) && Spells(rest, raw[1..])
        && bytes == kind + (value + rest)
  }

  /** The keys of the user properties, each where it first occurs. */
  ghost function UserKeys(seen: seq<Text>, raw: seq<Entry>): seq<Text>
    decreases |raw|
  {
    if raw == [] then seen
    else if raw[0].0 == 0x26 && raw[0].1.Pair? && raw[0].1.key !in seen
    then UserKeys(seen + [raw[0].1.key], raw[1..])
    else UserKeys(seen, raw[1..])
  }

  /** The two dictionaries that raw entries stand for: ordinary properties as they come, and for each
      key of a user property the last value. */
  ghost predicate Denotes(raw: seq<Entry>, p: Props) {
    && p.known == NonUser(raw)
    && |p.user| == |UserKeys([], raw)|
    && forall i :: 0 <= i < |p.user| ==>
         p.user[i].0 == UserKeys([], raw)[i] && Some(p.user[i].1) == LastUser(raw, p.user[i].0, None)
  }

  /** Only allowed kinds, and no ordinary one twice. */
  ghost predicate Permitted(allowed: set<nat>, raw: seq<Entry>) {
    (forall e :: e in raw ==> e.0 in allowed) && DistinctKeys(NonUser(raw))
  }

  ghost predicate IsBlock(allowed: set<nat>, block: seq<byte>, p: Props) {
    exists length, content, raw ::
      && Digits(length, |content|) && Spells(content, raw) && Permitted(allowed, raw) && Denotes(raw, p)
      && block == length + content
  }

  ghost predicate BlockAt(allowed: set<nat>, data: seq<byte>, p: Props, rest: seq<byte>) {
    exists block :: IsBlock(allowed, block, p) && data == block + rest
  }

  /** The dictionaries after the entries, from those filled so far. */
  ghost function Collected(acc: Props, raw: seq<Entry>): Props
    requires forall e :: e in raw && e.0 == 0x26 ==> e.1.Pair?
    decreases |raw|
  {
    if raw == [] then acc
    else
      assert raw[0] in raw;
      Collected(WithEntry(acc, raw[0].0, raw[0].1), raw[1..])
  }

  ghost predicate Pairs(raw: seq<Entry>) {
    forall e :: e in raw && e.0 == 0x26 ==> e.1.Pair?
  }

  lemma SpellsCons(kind: seq<byte>, value: seq<byte>, rest: seq<byte>, e: Entry, raw: seq<Entry>)
    requires Digits(kind, e.0) && ValueBytes(e.0, e.1, value) && Spells(rest, raw)
    ensures Spells(kind + (value + rest), [e] + raw)
  {
    assert ([e] + raw)[1..] == raw;
  }

  lemma {:induction false} SpelledPairs(bytes: seq<byte>, raw: seq<Entry>)
    requires Spells(bytes, raw)
    ensures Pairs(raw)
    decreases |raw|
  {
    if raw != [] {
      var kind, value, rest :|
        && Digits(kind, raw[0].0) && ValueBytes(raw[0].0, raw[0].1, value) && Spells(rest, raw[1..])
        && bytes == kind + (value + rest);
      SpelledPairs(rest, raw[1..]);
      assert forall e :: e in raw <==> e == raw[0] || e in raw[1..];
    }
  }

  /** The entry at the front is decoded. */
  lemma EntryDecodes(e: Entry, kind: seq<byte>, value: seq<byte>, rest: seq<byte>)
    requires Digits(kind, e.0) && ValueBytes(e.0, e.1, value)
    ensures DecodeVarInt(kind + (value + rest)) == Ok(value + rest, e.0)
    ensures FormatOf(e.0).Some? && DecodeValue(FormatOf(e.0).value, value + rest) == Ok(rest, e.1)
  {
    DigitsDecode(kind, e.0, value + rest);
    FormatMeans(e.0);
    ValueMeans(e.0, value + rest, e.1, rest);
  }

  /** Taking in the first entry adds it to the ordinary properties, or not. */
  lemma NonUserStep(acc: Props, raw: seq<Entry>)
    requires raw != [] && Pairs(raw)
    ensures raw[0].0 == 0x26 ==> raw[0].1.Pair?
    ensures acc.known + NonUser(raw) == WithEntry(acc, raw[0].0, raw[0].1).known + NonUser(raw[1..])
    ensures raw[0].0 != 0x26 && DistinctKeys(acc.known + NonUser(raw)) ==> !HasKey(acc.known, raw[0].0)
  {
    assert raw[0] in raw;
    if raw[0].0 != 0x26 {
      Assoc(acc.known, [raw[0]], NonUser(raw[1..]));
      if DistinctKeys(acc.known + NonUser(raw)) {
        FreshKey(acc.known, NonUser(raw));
      }
    } else {
      assert [] + NonUser(raw[1..]) == NonUser(raw[1..]);
    }
  }

  /** One pass of the loop on an entry at the front. */
  lemma EntryTaken(allowed: set<nat>, e: Entry, kind: seq<byte>, value: seq<byte>, rest: seq<byte>, acc: Props)
    requires Digits(kind, e.0) && ValueBytes(e.0, e.1, value) && e.0 in allowed
    requires e.0 != 0x26 ==> !HasKey(acc.known, e.0)
    ensures e.0 == 0x26 ==> e.1.Pair?
    ensures DecodeEntries(allowed, kind + (value + rest), acc)
         == DecodeEntries(allowed, rest, WithEntry(acc, e.0, e.1))
  {
    EntryDecodes(e, kind, value, rest);
  }

  /** Every spelling of permitted entries is accepted, and collects them. */
  lemma {:induction false} SpelledDecodes(allowed: set<nat>, bytes: seq<byte>, raw: seq<Entry>, acc: Props)
    requires Spells(bytes, raw) && (forall e :: e in raw ==> e.0 in allowed)
    requires DistinctKeys(acc.known + NonUser(raw))
    ensures Pairs(raw) && DecodeEntries(allowed, bytes, acc) == Ok([], Collected(acc, raw))
    decreases |raw|
  {
    SpelledPairs(bytes, raw);
    if raw != [] {
      var e := raw[0];
      var kind, value, rest :|
        && Digits(kind, e.0) && ValueBytes(e.0, e.1, value) && Spells(rest, raw[1..])
        && bytes == kind + (value + rest);
      assert e in raw && forall x :: x in raw[1..] ==> x in raw;
      NonUserStep(acc, raw);
      EntryTaken(allowed, e, kind, value, rest, acc);
      SpelledDecodes(allowed, rest, raw[1..], WithEntry(acc, e.0, e.1));
    }
  }

  /** The entry that one pass of the loop takes off the front. */
  lemma EntryRead(allowed: set<nat>, bytes: seq<byte>, acc: Props)
    returns (e: Entry, kind: seq<byte>, value: seq<byte>, rest: seq<byte>)
    requires bytes != [] && DecodeEntries(allowed, bytes, acc).Ok?
    ensures Digits(kind, e.0) && ValueBytes(e.0, e.1, value) && bytes == kind + (value + rest) && |rest| < |bytes|
    ensures e.0 in allowed && (e.0 == 0x26 ==> e.1.Pair?) && (e.0 != 0x26 ==> !HasKey(acc.known, e.0))
    ensures DecodeEntries(allowed, bytes, acc) == DecodeEntries(allowed, rest, WithEntry(acc, e.0, e.1))
  {
    var number := DecodeVarInt(bytes);
    kind := DecodedDigits(bytes);
    var item := DecodeValue(FormatOf(number.value).value, number.rest);
    e, rest := (number.value, item.value), item.rest;
    ValueMeans(e.0, number.rest, e.1, rest);
    value :| ValueBytes(e.0, e.1, value) && number.rest == value + rest;
  }

  lemma KnownMore(acc: Props, e: Entry)
    requires DistinctKeys(acc.known) && (e.0 != 0x26 ==> !HasKey(acc.known, e.0)) && (e.0 == 0x26 ==> e.1.Pair?)
    ensures DistinctKeys(WithEntry(acc, e.0, e.1).known)
  {
  }

  /** Whatever is accepted is such a spelling. */
  lemma {:induction false} DecodedSpells(allowed: set<nat>, bytes: seq<byte>, acc: Props) returns (raw: seq<Entry>)
    requires DecodeEntries(allowed, bytes, acc).Ok? && DistinctKeys(acc.known)
    ensures Spells(bytes, raw) && (forall e :: e in raw ==> e.0 in allowed)
    ensures Pairs(raw) && DistinctKeys(acc.known + NonUser(raw))
    decreases |bytes|
  {
    if bytes == [] {
      raw := [];
      assert acc.known + [] == acc.known;
    } else {
      var e, kind, value, rest := EntryRead(allowed, bytes, acc);
      KnownMore(acc, e);
      var tail := DecodedSpells(allowed, rest, WithEntry(acc, e.0, e.1));
      raw := [e] + tail;
      OneMore(e, tail, raw, allowed);
      SpellsCons(kind, value, rest, e, tail);
      NonUserStep(acc, raw);
    }
  }

  lemma OneMore(e: Entry, tail: seq<Entry>, raw: seq<Entry>, allowed: set<nat>)
    requires raw == [e] + tail && e.0 in allowed && (e.0 == 0x26 ==> e.1.Pair?)
    requires Pairs(tail) && forall x :: x in tail ==> x.0 in allowed
    ensures raw[0] == e && raw[1..] == tail && Pairs(raw) && forall x :: x in raw ==> x.0 in allowed
  {
    assert forall x :: x in raw <==> x == e || x in tail;
  }

  function Keys<K, V>(entries: seq<(K, V)>): seq<K> {
    seq(|entries|, i requires 0 <= i < |entries| => entries[i].0)
  }

  lemma KeysHave<K, V>(entries: seq<(K, V)>, key: K)
    ensures HasKey(entries, key) <==> key in Keys(entries)
  {
    if HasKey(entries, key) {
      var i :| 0 <= i < |entries| && entries[i].0 == key;
      assert Keys(entries)[i] == key;
    }
  }

  lemma {:induction false} PutOrder<K, V>(entries: seq<(K, V)>, key: K, val: V)
    ensures Keys(Put(entries, key, val)) == if HasKey(entries, key) then Keys(entries) else Keys(entries) + [key]
  {
    if entries != [] {
      HasKeyCons(entries);
      var r := Put(entries, key, val);
      if entries[0].0 == key {
        assert Keys(r) == Keys(entries);
      } else {
        PutOrder(entries[1..], key, val);
        assert Keys(r) == [entries[0].0] + Keys(Put(entries[1..], key, val));
        assert Keys(entries) == [entries[0].0] + Keys(entries[1..]);
      }
    }
  }

  /** What has been collected: the entries of the dictionaries, their order included. */
  lemma {:induction false} CollectedMeans(acc: Props, raw: seq<Entry>)
    requires Pairs(raw) && DistinctKeys(acc.user)
    ensures var p := Collected(acc, raw);
            && p.known == acc.known + NonUser(raw)
            && DistinctKeys(p.user) && Keys(p.user) == UserKeys(Keys(acc.user), raw)
            && forall key :: Get(p.user, key) == LastUser(raw, key, Get(acc.user, key))
    decreases |raw|
  {
    if raw == [] {
      assert acc.known + [] == acc.known;
    } else {
      var e := raw[0];
      assert e in raw && forall x :: x in raw[1..] ==> x in raw;
      var next := WithEntry(acc, e.0, e.1);
      NonUserStep(acc, raw);
      if e.0 == 0x26 {
        PutKeys(acc.user, e.1.key, e.1.val);
        PutOrder(acc.user, e.1.key, e.1.val);
        KeysHave(acc.user, e.1.key);
      }
      CollectedMeans(next, raw[1..]);
    }
  }

  lemma CollectedDenotes(raw: seq<Entry>)
    requires Pairs(raw)
    ensures Denotes(raw, Collected(NO_PROPS, raw))
  {
    CollectedMeans(NO_PROPS, raw);
    var p := Collected(NO_PROPS, raw);
    assert Keys<Text, Text>([]) == [] && [] + NonUser(raw) == NonUser(raw);
    forall i | 0 <= i < |p.user|
      ensures p.user[i].0 == Keys(p.user)[i] && Get(p.user, p.user[i].0) == Some(p.user[i].1)
    {
      GetFirst(p.user, i);
    }
  }

  lemma DenotesOne(raw: seq<Entry>, p: Props, q: Props)
    requires Denotes(raw, p) && Denotes(raw, q)
    ensures p == q
  {
    forall i | 0 <= i < |p.user| ensures p.user[i] == q.user[i] {
      assert p.user[i].0 == q.user[i].0;
      assert Some(p.user[i].1) == Some(q.user[i].1);
    }
    assert p.user == q.user;
  }

  lemma BlockDecodes(allowed: set<nat>, length: seq<byte>, content: seq<byte>, raw: seq<Entry>, p: Props,
                     rest: seq<byte>)
    requires Digits(length, |content|) && Spells(content, raw) && Permitted(allowed, raw) && Denotes(raw, p)
    ensures DecodeProps(allowed, (length + content) + rest) == Ok(rest, p)
  {
    Assoc(length, content, rest);
    DigitsDecode(length, |content|, content + rest);
    assert (content + rest)[..|content|] == content && (content + rest)[|content|..] == rest;
    assert [] + NonUser(raw) == NonUser(raw);
    SpelledDecodes(allowed, content, raw, NO_PROPS);
    CollectedDenotes(raw);
    DenotesOne(raw, p, Collected(NO_PROPS, raw));
  }

  lemma DecodedBlock(allowed: set<nat>, data: seq<byte>)
    requires DecodeProps(allowed, data).Ok?
    ensures BlockAt(allowed, data, DecodeProps(allowed, data).value, DecodeProps(allowed, data).rest)
  {
    hide Spells, DecodeEntries, Digits, Denotes;
    var d := DecodeVarInt(data);
    var length := DecodedDigits(data);
    var content, rest := d.rest[..d.value], d.rest[d.value..];
    var raw := DecodedSpells(allowed, content, NO_PROPS);
    assert [] + NonUser(raw) == NonUser(raw);
    SpelledDecodes(allowed, content, raw, NO_PROPS);
    CollectedDenotes(raw);
    assert IsBlock(allowed, length + content, Collected(NO_PROPS, raw));
    assert data == (length + content) + rest;
  }

  /** Two dictionaries are read off the front exactly if a block that denotes them stands there. */
  lemma PropsMeans(allowed: set<nat>, data: seq<byte>, p: Props, rest: seq<byte>)
    ensures DecodeProps(allowed, data) == Ok(rest, p) <==> BlockAt(allowed, data, p, rest)
  {
    if DecodeProps(allowed, data) == Ok(rest, p) {
      DecodedBlock(allowed, data);
    }
    if BlockAt(allowed, data, p, rest) {
      var block :| IsBlock(allowed, block, p) && data == block + rest;
      var length, content, raw :|
        && Digits(length, |content|) && Spells(content, raw) && Permitted(allowed, raw) && Denotes(raw, p)
        && block == length + content;
      BlockDecodes(allowed, length, content, raw, p, rest);
    }
  }
}
