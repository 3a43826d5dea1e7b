/** Bytes, decoding results, and UTF-8 text.

    Text is represented by its UTF-8 encoding, so a topic, a payload or a client id is a
    sequence of bytes for which `ValidUtf8` holds. */
module Bytes {

  type byte = b: int | 0 <= b < 256

  type Text = seq<byte>

  datatype Option<+T> = None | Some(value: T)

  /** What the library raises. `ShortBody` is the RuntimeError of `decode_packet`, `Overflow`
      an integer that does not fit its field, `KeyMissing` a KeyError. */
  datatype Error =
    | InsufficientData
    | DecodeError
    | ProtocolError
    | UnsupportedProperty
    | InvalidPattern
    | ShortBody
    | Overflow
    | ValueError
    | KeyMissing
    | AssertionError

  /** The result of a decoder: the undecoded rest and a value, or the exception it raises. */
  datatype Decoded<+T> = Ok(rest: seq<byte>, value: T) | Err(error: Error) {
    predicate IsFailure() {
      Err?
    }

    function PropagateFailure<U>(): Decoded<U>
      requires Err?
    {
      Err(error)
    }

    function Extract(): (seq<byte>, T)
      requires Ok?
    {
      (rest, value)
    }
  }

  lemma Assoc<T>(a: seq<T>, b: seq<T>, c: seq<T>)
    ensures a + b + c == a + (b + c)
  {
  }

  predicate Between(b: byte, low: int, high: int) {
    low <= b <= high
  }

  predicate IsTail(b: byte) {
    Between(b, 0x80, 0xBF)
  }

  /** Well-formed UTF-8, by the grammar of section 4 of RFC 3629. */
  predicate ValidUtf8(s: Text) {
    if s == [] then true
    else if s[0] < 0x80 then ValidUtf8(s[1..])
    else if |s| >= 2 && Between(s[0], 0xC2, 0xDF) then IsTail(s[1]) && ValidUtf8(s[2..])
    else if |s| >= 3 && Between(s[0], 0xE0, 0xEF) then
      && (match s[0]
          case 0xE0 => Between(s[1], 0xA0, 0xBF)
          case 0xED => Between(s[1], 0x80, 0x9F)
          case _ => IsTail(s[1]))
      && IsTail(s[2])
      && ValidUtf8(s[3..])
    else if |s| >= 4 && Between(s[0], 0xF0, 0xF4) then
      && (match s[0]
          case 0xF0 => Between(s[1], 0x90, 0xBF)
          case 0xF4 => Between(s[1], 0x80, 0x8F)
          case _ => IsTail(s[1]))
      && IsTail(s[2])
      && IsTail(s[3])
      && ValidUtf8(s[4..])
    else false
  }

  /** A growing byte buffer, the `bytearray` every encoder appends to. */
  class Buffer {
    var data: seq<byte>

    constructor ()
      ensures data == []
    {
      data := [];
    }

    method Append(b: byte)
      modifies this
      ensures data == old(data) + [b]
    {
      data := data + [b];
    }

    method Extend(bytes: seq<byte>)
      modifies this
      ensures data == old(data) + bytes
    {
      data := data + bytes;
    }
  }
}
