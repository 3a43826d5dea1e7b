/** Property blocks (section 2.2.2 of MQTT Version 5.0). */
module Properties {
  import opened Bytes
  import opened Wire

  // ---------- Property kinds ----------

  const PAYLOAD_FORMAT_INDICATOR: nat := 0x01
  const MESSAGE_EXPIRY_INTERVAL: nat := 0x02
  const CONTENT_TYPE: nat := 0x03
  const RESPONSE_TOPIC: nat := 0x08
  const CORRELATION_DATA: nat := 0x09
  const SUBSCRIPTION_IDENTIFIER: nat := 0x0B
  const SESSION_EXPIRY_INTERVAL: nat := 0x11
  const ASSIGNED_CLIENT_IDENTIFIER: nat := 0x12
  const SERVER_KEEP_ALIVE: nat := 0x13
  const AUTHENTICATION_METHOD: nat := 0x15
  const AUTHENTICATION_DATA: nat := 0x16
  const REQUEST_PROBLEM_INFORMATION: nat := 0x17
  const WILL_DELAY_INTERVAL: nat := 0x18
  const REQUEST_RESPONSE_INFORMATION: nat := 0x19
  const RESPONSE_INFORMATION: nat := 0x1A
  const SERVER_REFERENCE: nat := 0x1C
  const REASON_STRING: nat := 0x1F
  const RECEIVE_MAXIMUM: nat := 0x21
  const TOPIC_ALIAS_MAXIMUM: nat := 0x22
  const TOPIC_ALIAS: nat := 0x23
  const MAXIMUM_QOS: nat := 0x24
  const RETAIN_AVAILABLE: nat := 0x25
  const USER_PROPERTY: nat := 0x26
  const MAXIMUM_PACKET_SIZE: nat := 0x27
  const WILDCARD_SUBSCRIPTION_AVAILABLE: nat := 0x28
  const SUBSCRIPTION_IDENTIFIER_AVAILABLE: nat := 0x29
  const SHARED_SUBSCRIPTION_AVAILABLE: nat := 0x2A

  /** How the value of a property kind travels. */
  datatype Format = FixedFormat(size: nat) | VarIntFormat | TextFormat | BinaryFormat | PairFormat

  const FORMATS: seq<(nat, Format)> := [
    (PAYLOAD_FORMAT_INDICATOR, FixedFormat(1)), (MESSAGE_EXPIRY_INTERVAL, FixedFormat(4)),
    (CONTENT_TYPE, TextFormat), (RESPONSE_TOPIC, TextFormat), (CORRELATION_DATA, BinaryFormat),
    (SUBSCRIPTION_IDENTIFIER, VarIntFormat), (SESSION_EXPIRY_INTERVAL, FixedFormat(4)),
    (ASSIGNED_CLIENT_IDENTIFIER, TextFormat), (SERVER_KEEP_ALIVE, FixedFormat(2)),
    (AUTHENTICATION_METHOD, TextFormat), (AUTHENTICATION_DATA, BinaryFormat),
    (REQUEST_PROBLEM_INFORMATION, FixedFormat(1)), (WILL_DELAY_INTERVAL, FixedFormat(4)),
    (REQUEST_RESPONSE_INFORMATION, FixedFormat(1)), (RESPONSE_INFORMATION, TextFormat),
    (SERVER_REFERENCE, TextFormat), (REASON_STRING, TextFormat), (RECEIVE_MAXIMUM, FixedFormat(2)),
    (TOPIC_ALIAS_MAXIMUM, FixedFormat(2)), (TOPIC_ALIAS, FixedFormat(2)), (MAXIMUM_QOS, FixedFormat(1)),
    (RETAIN_AVAILABLE, FixedFormat(1)), (MAXIMUM_PACKET_SIZE, FixedFormat(4)),
    (WILDCARD_SUBSCRIPTION_AVAILABLE, FixedFormat(1)), (SUBSCRIPTION_IDENTIFIER_AVAILABLE, FixedFormat(1)),
    (SHARED_SUBSCRIPTION_AVAILABLE, FixedFormat(1))]

  /** `dict.get(key)` */
  function Get<K(==), V>(entries: seq<(K, V)>, key: K): Option<V> {
    if entries == [] then None
    else if entries[0].0 == key then Some(entries[0].1)
    else Get(entries[1..], key)
  }

  /** The format of each property kind, `None` for a number that is no kind at all. */
  function FormatOf(kind: nat): Option<Format> {
    if kind == USER_PROPERTY then Some(PairFormat) else Get(FORMATS, kind)
  }

  datatype Value =
    | Number(n: nat)
    | Str(text: Text)
    | Blob(bytes: seq<byte>)
    | Pair(key: Text, val: Text)

  predicate ValueFits(f: Format, v: Value) {
    match f
    case FixedFormat(size) => v.Number? && v.n < Pow256(size)
    case VarIntFormat => v.Number?
    case TextFormat => v.Str? && TextFits(v.text)
    case BinaryFormat => v.Blob? && |v.bytes| < 0x1_0000
    case PairFormat => v.Pair? && TextFits(v.key) && TextFits(v.val)
  }

  function EncodeValue(f: Format, v: Value): seq<byte>
    requires ValueFits(f, v)
  {
    match f
    case FixedFormat(size) => FixedInteger(v.n, size)
    case VarIntFormat => VarInt(v.n)
    case TextFormat => Binary(v.text)
    case BinaryFormat => Binary(v.bytes)
    case PairFormat => Binary(v.key) + Binary(v.val)
  }

  function DecodeValue(f: Format, data: seq<byte>): (r: Decoded<Value>)
    ensures r.Ok? ==> |r.rest| <= |data| && ValueFits(f, r.value)
  {
    match f
    case FixedFormat(size) =>
      var (d, n) :- DecodeFixedInteger(data, size);
      Ok(d, Number(n))
    case VarIntFormat =>
      var (d, n) :- DecodeVarInt(data);
      Ok(d, Number(n))
    case TextFormat =>
      var (d, t) :- DecodeUtf8(data);
      Ok(d, Str(t))
    case BinaryFormat =>
      var (d, b) :- DecodeBinary(data);
      Ok(d, Blob(b))
    case PairFormat =>
      var (d, key) :- DecodeUtf8(data);
      var (d', val) :- DecodeUtf8(d);
      Ok(d', Pair(key, val))
  }

  lemma PairRoundTrip(key: Text, val: Text, r: seq<byte>)
    requires TextFits(key) && TextFits(val)
    ensures DecodeValue(PairFormat, (Binary(key) + Binary(val)) + r) == Ok(r, Pair(key, val))
  {
    assert (Binary(key) + Binary(val)) + r == Binary(key) + (Binary(val) + r);
    Utf8RoundTrip(key, Binary(val) + r);
    Utf8RoundTrip(val, r);
  }

  lemma ValueRoundTrip(f: Format, v: Value, r: seq<byte>)
    requires ValueFits(f, v)
    ensures DecodeValue(f, EncodeValue(f, v) + r) == Ok(r, v)
  {
    match f
    case FixedFormat(size) => FixedRoundTrip(v.n, size, r);
    case VarIntFormat => VarIntRoundTrip(v.n, r);
    case TextFormat => Utf8RoundTrip(v.text, r);
    case BinaryFormat => BinaryRoundTrip(v.bytes, r);
    case PairFormat => PairRoundTrip(v.key, v.val, r);
  }

  // ---------- Property maps ----------

  type Entry = (nat, Value)
  type UserEntry = (Text, Text)

  /** The two dictionaries of a packet, as entries in insertion order. */
  datatype Props = Props(known: seq<Entry>, user: seq<UserEntry>)

  const NO_PROPS := Props([], [])

  predicate HasKey<K(==), V>(entries: seq<(K, V)>, key: K) {
    exists i :: 0 <= i < |entries| && entries[i].0 == key
  }

  /** No key occurs twice: the entries are those of a dictionary. */
  ghost predicate DistinctKeys<K, V>(entries: seq<(K, V)>) {
    forall i, j :: 0 <= i < j < |entries| ==> entries[i].0 != entries[j].0
  }

  /** `dict[key] = val`: an existing key keeps its place, a new one goes last. */
  function Put<K(==), V>(entries: seq<(K, V)>, key: K, val: V): (r: seq<(K, V)>)
    ensures !HasKey(entries, key) ==> r == entries + [(key, val)]
  {
    if entries == [] then [(key, val)]
    else if entries[0].0 == key then [(key, val)] + entries[1..]
    else
      assert HasKey(entries[1..], key) ==> HasKey(entries, key) by {
        if HasKey(entries[1..], key) {
          var i :| 0 <= i < |entries[1..]| && entries[1..][i].0 == key;
          assert entries[i + 1].0 == key;
        }
      }
      [entries[0]] + Put(entries[1..], key, val)
  }

  predicate KnownFits(e: Entry) {
    FormatOf(e.0).Some? && ValueFits(FormatOf(e.0).value, e.1)
  }

  predicate UserFits(e: UserEntry) {
    TextFits(e.0) && TextFits(e.1)
  }

  /** Two dictionaries whose values the encoder can write. */
  ghost predicate PropsFit(p: Props) {
    && (forall e :: e in p.known ==> KnownFits(e))
    && (forall e :: e in p.user ==> UserFits(e))
    && DistinctKeys(p.known)
    && DistinctKeys(p.user)
  }

  /** Every kind is in the packet's `allowed_property_types`, and user properties stand in the
      dictionary of their own. */
  ghost predicate PropsAllowed(allowed: set<nat>, p: Props) {
    forall e :: e in p.known ==> e.0 in allowed && e.0 != USER_PROPERTY
  }

  // ---------- Encoding ----------

  function EncodeKnown(known: seq<Entry>): seq<byte>
    requires forall e :: e in known ==> KnownFits(e)
  {
    if known == [] then []
    else
      assert KnownFits(known[0]);
      VarInt(known[0].0) + (EncodeValue(FormatOf(known[0].0).value, known[0].1) + EncodeKnown(known[1..]))
  }

  function EncodeUser(user: seq<UserEntry>): seq<byte>
    requires forall e :: e in user ==> UserFits(e)
  {
    if user == [] then []
    else
      assert UserFits(user[0]);
      VarInt(USER_PROPERTY) + ((Binary(user[0].0) + Binary(user[0].1)) + EncodeUser(user[1..]))
  }

  ghost function EncodeEntries(p: Props): seq<byte>
    requires PropsFit(p)
  {
    EncodeKnown(p.known) + EncodeUser(p.user)
  }

  ghost function EncodeProps(p: Props): seq<byte>
    requires PropsFit(p)
  {
    VarInt(|EncodeEntries(p)|) + EncodeEntries(p)
  }

  // ---------- Decoding ----------

  /** The `while view` loop of `decode_properties`, from the maps filled so far. */
  function DecodeEntries(allowed: set<nat>, view: seq<byte>, acc: Props): Decoded<Props>
    decreases |view|
  {
    if view == [] then Ok([], acc)
    else
      var (v1, kind) :- DecodeVarInt(view);
      if FormatOf(kind).None? then Err(DecodeError)
      else if kind !in allowed then Err(UnsupportedProperty)
      else
        var (v2, value) :- DecodeValue(FormatOf(kind).value, v1);
        if kind == USER_PROPERTY then
          DecodeEntries(allowed, v2, Props(acc.known, Put(acc.user, value.key, value.val)))
        else if HasKey(acc.known, kind) then Err(DecodeError)
        else DecodeEntries(allowed, v2, Props(acc.known + [(kind, value)], acc.user))
  }

  function DecodeProps(allowed: set<nat>, data: seq<byte>): (r: Decoded<Props>)
    ensures r.Ok? ==> |r.rest| < |data|
  {
    var (d, length) :- DecodeVarInt(data);
    if |d| < length then Err(InsufficientData)
    else
      var (_, props) :- DecodeEntries(allowed, d[..length], NO_PROPS);
      Ok(d[length..], props)
  }

  // ---------- The loops as the source runs them ----------

  method EncodeValueInto(f: Format, v: Value, buffer: Buffer)
    requires ValueFits(f, v)
    modifies buffer
    ensures buffer.data == old(buffer.data) + EncodeValue(f, v)
  {
    match f
    case FixedFormat(size) => EncodeFixedInteger(v.n, buffer, size);
    case VarIntFormat => EncodeVariableInteger(v.n, buffer);
    case TextFormat => EncodeBinary(v.text, buffer);
    case BinaryFormat => EncodeBinary(v.bytes, buffer);
    case PairFormat =>
      EncodeBinary(v.key, buffer);
      EncodeBinary(v.val, buffer);
  }

  lemma Assoc4(sent: seq<byte>, a: seq<byte>, b: seq<byte>, c: seq<byte>)
    ensures sent + (a + (b + c)) == sent + a + b + c
  {
  }

  method EncodeKnownInto(known: seq<Entry>, buffer: Buffer)
    requires forall e :: e in known ==> KnownFits(e)
    modifies buffer
    ensures buffer.data == old(buffer.data) + EncodeKnown(known)
  {
    for i := 0 to |known|
      invariant buffer.data + EncodeKnown(known[i..]) == old(buffer.data) + EncodeKnown(known)
    {
      var (kind, value) := known[i];
      assert KnownFits(known[i]) && known[i..][1..] == known[i + 1..];
      ghost var sent, rest := buffer.data, EncodeKnown(known[i + 1..]);
      EncodeVariableInteger(kind, buffer);
      EncodeValueInto(FormatOf(kind).value, value, buffer);
      Assoc4(sent, VarInt(kind), EncodeValue(FormatOf(kind).value, value), rest);
    }
  }

  method EncodeUserInto(user: seq<UserEntry>, buffer: Buffer)
    requires forall e :: e in user ==> UserFits(e)
    modifies buffer
    ensures buffer.data == old(buffer.data) + EncodeUser(user)
  {
    for i := 0 to |user|
      invariant buffer.data + EncodeUser(user[i..]) == old(buffer.data) + EncodeUser(user)
    {
      var (key, value) := user[i];
      assert UserFits(user[i]) && user[i..][1..] == user[i + 1..];
      ghost var sent, rest := buffer.data, EncodeUser(user[i + 1..]);
      EncodeVariableInteger(USER_PROPERTY, buffer);
      EncodeValueInto(PairFormat, Pair(key, value), buffer);
      Assoc4(sent, VarInt(USER_PROPERTY), Binary(key) + Binary(value), rest);
    }
  }

  /** The entries in a buffer of their own, whose length comes first. */
  method EncodeBlock(p: Props) returns (block: seq<byte>)
    requires PropsFit(p)
    ensures block == EncodeEntries(p)
  {
    var inner := new Buffer();
    EncodeKnownInto(p.known, inner);
    EncodeUserInto(p.user, inner);
    block := inner.data;
    assert [] + EncodeKnown(p.known) == EncodeKnown(p.known);
  }

  method EncodeProperties(p: Props, buffer: Buffer)
    requires PropsFit(p)
    modifies buffer
    ensures buffer.data == old(buffer.data) + EncodeProps(p)
  {
    var block := EncodeBlock(p);
    Assoc(buffer.data, VarInt(|block|), block);
    EncodeVariableInteger(|block|, buffer);
    buffer.Extend(block);
  }

  method DecodeProperties(allowed: set<nat>, data: seq<byte>) returns (r: Decoded<Props>)
    ensures r == DecodeProps(allowed, data)
  {
    var block := DecodeVariableInteger(data);
    if block.Err? {
      return Err(block.error);
    }
    var length := block.value;
    if |block.rest| < length {
      return Err(InsufficientData);
    }
    var rest, view := block.rest[length..], block.rest[..length];
    var known: seq<Entry>, user: seq<UserEntry> := [], [];
    while view != []
      invariant DecodeEntries(allowed, block.rest[..length], NO_PROPS)
             == DecodeEntries(allowed, view, Props(known, user))
      decreases |view|
    {
      var number := DecodeVariableInteger(view);
      if number.Err? {
        return Err(number.error);
      }
      var kind := number.value;
      if FormatOf(kind).None? {
        return Err(DecodeError);
      }
      if kind !in allowed {
        return Err(UnsupportedProperty);
      }
      var item := DecodeValue(FormatOf(kind).value, number.rest);
      if item.Err? {
        return Err(item.error);
      }
      view := item.rest;
      if kind == USER_PROPERTY {
        user := Put(user, item.value.key, item.value.val);
      } else {
        if HasKey(known, kind) {
          return Err(DecodeError);
        }
        known := known + [(kind, item.value)];
      }
    }
    return Ok(rest, Props(known, user));
  }

  // ---------- Round trip ----------

  lemma FreshKey<K, V>(before: seq<(K, V)>, entries: seq<(K, V)>)
    requires entries != [] && DistinctKeys(before + entries)
    ensures !HasKey(before, entries[0].0)
    ensures before + entries == before + [entries[0]] + entries[1..]
  {
    var all := before + entries;
    assert all[|before|] == entries[0];
    forall i | 0 <= i < |before| ensures before[i].0 != entries[0].0 {
      assert all[i] == before[i];
    }
  }

  lemma KnownStep(allowed: set<nat>, e: Entry, tail: seq<byte>, acc: Props)
    requires KnownFits(e) && e.0 in allowed && e.0 != USER_PROPERTY && !HasKey(acc.known, e.0)
    ensures var bytes := VarInt(e.0) + (EncodeValue(FormatOf(e.0).value, e.1) + tail);
            DecodeEntries(allowed, bytes, acc) == DecodeEntries(allowed, tail, Props(acc.known + [e], acc.user))
  {
    VarIntRoundTrip(e.0, EncodeValue(FormatOf(e.0).value, e.1) + tail);
    ValueRoundTrip(FormatOf(e.0).value, e.1, tail);
  }

  lemma {:induction false} KnownRoundTrip(allowed: set<nat>, known: seq<Entry>, r: seq<byte>, acc: Props)
    requires forall e :: e in known ==> KnownFits(e) && e.0 in allowed && e.0 != USER_PROPERTY
    requires DistinctKeys(acc.known + known)
    ensures DecodeEntries(allowed, EncodeKnown(known) + r, acc)
         == DecodeEntries(allowed, r, Props(acc.known + known, acc.user))
  {
    if known == [] {
      assert EncodeKnown(known) + r == r && acc.known + known == acc.known;
    } else {
      var e := known[0];
      assert KnownFits(e) && e.0 in allowed && e.0 != USER_PROPERTY;
      FreshKey(acc.known, known);
      var value, rest := EncodeValue(FormatOf(e.0).value, e.1), EncodeKnown(known[1..]);
      assert EncodeKnown(known) + r == VarInt(e.0) + (value + (rest + r));
      KnownStep(allowed, e, rest + r, acc);
      KnownRoundTrip(allowed, known[1..], r, Props(acc.known + [e], acc.user));
    }
  }

  lemma UserStep(allowed: set<nat>, e: UserEntry, tail: seq<byte>, acc: Props)
    requires UserFits(e) && USER_PROPERTY in allowed && !HasKey(acc.user, e.0)
    ensures var bytes := VarInt(USER_PROPERTY) + ((Binary(e.0) + Binary(e.1)) + tail);
            DecodeEntries(allowed, bytes, acc) == DecodeEntries(allowed, tail, Props(acc.known, acc.user + [e]))
  {
    VarIntRoundTrip(USER_PROPERTY, (Binary(e.0) + Binary(e.1)) + tail);
    PairRoundTrip(e.0, e.1, tail);
  }

  lemma {:induction false} UserRoundTrip(allowed: set<nat>, user: seq<UserEntry>, acc: Props)
    requires forall e :: e in user ==> UserFits(e)
    requires USER_PROPERTY in allowed
    requires DistinctKeys(acc.user + user)
    ensures DecodeEntries(allowed, EncodeUser(user), acc) == Ok([], Props(acc.known, acc.user + user))
  {
    if user == [] {
      assert acc.user + user == acc.user;
    } else {
      var e := user[0];
      assert UserFits(e);
      FreshKey(acc.user, user);
      UserStep(allowed, e, EncodeUser(user[1..]), acc);
      UserRoundTrip(allowed, user[1..], Props(acc.known, acc.user + [e]));
    }
  }

  /** Encoding two property maps, in whatever order their entries are, and decoding the block
      gives back the same two maps and leaves what follows the block alone. */
  lemma PropsRoundTrip(allowed: set<nat>, p: Props, r: seq<byte>)
    requires PropsFit(p) && PropsAllowed(allowed, p) && USER_PROPERTY in allowed
    ensures DecodeProps(allowed, EncodeProps(p) + r) == Ok(r, p)
  {
    var entries := EncodeEntries(p);
    VarIntRoundTrip(|entries|, entries + r);
    assert EncodeProps(p) + r == VarInt(|entries|) + (entries + r);
    assert (entries + r)[..|entries|] == entries && (entries + r)[|entries|..] == r;
    assert [] + p.known == p.known && [] + p.user == p.user;
    KnownRoundTrip(allowed, p.known, EncodeUser(p.user), NO_PROPS);
    UserRoundTrip(allowed, p.user, Props(p.known, []));
  }

  // ---------- What an arbitrary accepted block yields ----------

  lemma {:induction false} PutKeys<K, V>(entries: seq<(K, V)>, key: K, val: V)
    requires DistinctKeys(entries)
    ensures DistinctKeys(Put(entries, key, val))
    ensures forall e :: e in Put(entries, key, val) ==> e in entries || e == (key, val)
    ensures forall k :: HasKey(Put(entries, key, val), k) <==> k == key || HasKey(entries, k)
    ensures forall k :: Get(Put(entries, key, val), k) == if k == key then Some(val) else Get(entries, k)
  {
    var r := Put(entries, key, val);
    if entries != [] {
      var (first, rest) := (entries[0], entries[1..]);
      if first.0 == key {
        assert r[0] == (key, val) && r[1..] == rest;
        assert forall k :: HasKey(r, k) ==> k == key || HasKey(entries, k) by {
          forall k | HasKey(r, k) ensures k == key || HasKey(entries, k) {
            var i :| 0 <= i < |r| && r[i].0 == k;
            assert i > 0 ==> entries[i].0 == k;
          }
        }
        forall k | HasKey(entries, k) ensures HasKey(r, k) {
          var i :| 0 <= i < |entries| && entries[i].0 == k;
          assert r[i].0 == k;
        }
        assert r[0].0 == key;
      } else {
        PutKeys(rest, key, val);
        var tail := Put(rest, key, val);
        assert r[0] == first && r[1..] == tail;
        HasKeyCons(entries);
        HasKeyCons(r);
        forall i | 0 < i < |r| ensures r[i].0 != first.0 {
          assert r[i] == tail[i - 1] && HasKey(tail, tail[i - 1].0);
          assert !HasKey(rest, first.0) by {
            forall j | 0 <= j < |rest| ensures rest[j].0 != first.0 {
              assert rest[j] == entries[j + 1];
            }
          }
        }
        forall i, j | 0 <= i < j < |r| ensures r[i].0 != r[j].0 {
          if i > 0 {
            assert r[i] == tail[i - 1] && r[j] == tail[j - 1];
          }
        }
      }
    } else {
      assert r[0].0 == key;
    }
  }

  lemma HasKeyCons<K, V>(entries: seq<(K, V)>)
    requires entries != []
    ensures forall k :: HasKey(entries, k) <==> k == entries[0].0 || HasKey(entries[1..], k)
  {
    forall k | HasKey(entries, k) ensures k == entries[0].0 || HasKey(entries[1..], k) {
      var i :| 0 <= i < |entries| && entries[i].0 == k;
      assert i > 0 ==> entries[1..][i - 1].0 == k;
    }
    forall k | k == entries[0].0 || HasKey(entries[1..], k) ensures HasKey(entries, k) {
      if k == entries[0].0 {
        assert entries[0].0 == k;
      } else {
        var i :| 0 <= i < |entries[1..]| && entries[1..][i].0 == k;
        assert entries[i + 1].0 == k;
      }
    }
  }

  /** The entries of a block as they stand on the wire, repetitions included. */
  ghost function RawEntries(view: seq<byte>): Decoded<seq<Entry>>
    decreases |view|
  {
    if view == [] then Ok([], [])
    else
      var (v1, kind) :- DecodeVarInt(view);
      if FormatOf(kind).None? then Err(DecodeError)
      else
        var (v2, value) :- DecodeValue(FormatOf(kind).value, v1);
        var (_, tail) :- RawEntries(v2);
        Ok([], [(kind, value)] + tail)
  }

  ghost function NonUser(raw: seq<Entry>): seq<Entry> {
    if raw == [] then []
    else (if raw[0].0 == USER_PROPERTY then [] else [raw[0]]) + NonUser(raw[1..])
  }

  /** The value of the last user property with this key, `otherwise` if there is none. */
  ghost function LastUser(raw: seq<Entry>, key: Text, otherwise: Option<Text>): Option<Text> {
    if raw == [] then otherwise
    else if raw[0].0 == USER_PROPERTY && raw[0].1.Pair? && raw[0].1.key == key
    then LastUser(raw[1..], key, Some(raw[0].1.val))
    else LastUser(raw[1..], key, otherwise)
  }

  /** One pass of the decoding loop that accepts an entry. */
  ghost function WithEntry(acc: Props, kind: nat, value: Value): Props
    requires kind == USER_PROPERTY ==> value.Pair?
  {
    if kind == USER_PROPERTY then Props(acc.known, Put(acc.user, value.key, value.val))
    else Props(acc.known + [(kind, value)], acc.user)
  }

  lemma EntriesStep(allowed: set<nat>, view: seq<byte>, acc: Props) returns (kind: nat, value: Value, rest: seq<byte>)
    requires view != [] && DecodeEntries(allowed, view, acc).Ok?
    ensures |rest| < |view| && kind in allowed
    ensures kind == USER_PROPERTY ==> value.Pair?
    ensures kind == USER_PROPERTY ==> UserFits((value.key, value.val))
    ensures kind != USER_PROPERTY ==> KnownFits((kind, value)) && !HasKey(acc.known, kind)
    ensures DecodeEntries(allowed, view, acc) == DecodeEntries(allowed, rest, WithEntry(acc, kind, value))
    ensures RawEntries(rest).Ok? ==> RawEntries(view) == Ok([], [(kind, value)] + RawEntries(rest).value)
  {
    kind := DecodeVarInt(view).value;
    var item := DecodeValue(FormatOf(kind).value, DecodeVarInt(view).rest);
    value, rest := item.value, item.rest;
  }

  /** Whatever block is accepted, the decoded maps are ones the encoder can write. */
  lemma {:induction false} EntriesRange(allowed: set<nat>, view: seq<byte>, acc: Props)
    requires PropsFit(acc) && PropsAllowed(allowed, acc)
    requires DecodeEntries(allowed, view, acc).Ok?
    ensures var p := DecodeEntries(allowed, view, acc).value; PropsFit(p) && PropsAllowed(allowed, p)
    decreases |view|
  {
    if view != [] {
      var kind, value, rest := EntriesStep(allowed, view, acc);
      if kind == USER_PROPERTY {
        PutKeys(acc.user, value.key, value.val);
      }
      EntriesRange(allowed, rest, WithEntry(acc, kind, value));
    }
  }

  /** The maps a list of raw entries adds to the maps filled so far. */
  ghost predicate Means(raw: seq<Entry>, acc: Props, p: Props) {
    && p.known == acc.known + NonUser(raw)
    && (forall key :: Get(p.user, key) == LastUser(raw, key, Get(acc.user, key)))
  }

  lemma MeansCons(acc: Props, kind: nat, value: Value, tail: seq<Entry>, p: Props)
    requires DistinctKeys(acc.user)
    requires kind == USER_PROPERTY ==> value.Pair?
    requires Means(tail, WithEntry(acc, kind, value), p)
    ensures Means([(kind, value)] + tail, acc, p)
  {
    var raw := [(kind, value)] + tail;
    assert raw[1..] == tail;
    if kind == USER_PROPERTY {
      PutKeys(acc.user, value.key, value.val);
    } else {
      Assoc(acc.known, [(kind, value)], NonUser(tail));
    }
  }

  lemma {:induction false} EntriesMeaning(allowed: set<nat>, view: seq<byte>, acc: Props)
    requires DistinctKeys(acc.user)
    requires DecodeEntries(allowed, view, acc).Ok?
    ensures RawEntries(view).Ok?
    ensures Means(RawEntries(view).value, acc, DecodeEntries(allowed, view, acc).value)
    decreases |view|
  {
    if view == [] {
      assert acc.known + NonUser([]) == acc.known;
    } else {
      var kind, value, rest := EntriesStep(allowed, view, acc);
      if kind == USER_PROPERTY {
        PutKeys(acc.user, value.key, value.val);
      }
      EntriesMeaning(allowed, rest, WithEntry(acc, kind, value));
      MeansCons(acc, kind, value, RawEntries(rest).value, DecodeEntries(allowed, view, acc).value);
    }
  }

  lemma PropsRange(allowed: set<nat>, data: seq<byte>)
    requires DecodeProps(allowed, data).Ok?
    ensures var p := DecodeProps(allowed, data).value; PropsFit(p) && PropsAllowed(allowed, p)
  {
    var d := DecodeVarInt(data);
    EntriesRange(allowed, d.rest[..d.value], NO_PROPS);
  }

  /** In every accepted block the non-user kinds occur once each and are kept in wire order,
      and of several user properties with one key the last one wins. */
  lemma AcceptedBlock(allowed: set<nat>, block: seq<byte>)
    requires DecodeEntries(allowed, block, NO_PROPS).Ok?
    ensures RawEntries(block).Ok?
    ensures var raw, p := RawEntries(block).value, DecodeEntries(allowed, block, NO_PROPS).value;
            && p.known == NonUser(raw)
            && DistinctKeys(NonUser(raw))
            && (forall key :: Get(p.user, key) == LastUser(raw, key, None))
  {
    EntriesMeaning(allowed, block, NO_PROPS);
    EntriesRange(allowed, block, NO_PROPS);
  }
}
