/**
 * The part of the Protocol Buffers binary wire format that the verifier's
 * messages use. LocalAssertionOfferAdditionalInfo,
 * LocalAssertionRequestAdditionalInfo and LocalAssertion each have one
 * populated field, number 1, of type string or bytes; its encoding is the key
 * byte (field number << 3 | wire type 2), the length as a base-128 varint, and
 * the bytes themselves.
 */
module Wire {
  import opened Bytes
  import opened Wrappers

  /** The key of field number 1 with the length-delimited wire type 2. */
  const FieldOneKey: byte := 0x0A

  /** The base-128 varint encoding of `n`: low seven bits first, high bit set on every byte but the last. */
  function Varint(n: nat): (r: seq<byte>)
    ensures 1 <= |r|
    decreases n
  {
    if n < 0x80 then [n as byte]
    else [(n % 0x80 + 0x80) as byte] + Varint(n / 0x80)
  }

  /** Reads a varint at the start of `s`: the value and the number of bytes it occupies. */
  function ParseVarint(s: seq<byte>): (r: Option<(nat, nat)>)
    ensures r.Some? ==> 1 <= r.value.1 <= |s|
  {
    if s == [] then None
    else if s[0] < 0x80 then Some((s[0] as nat, 1))
    else match ParseVarint(s[1..])
      case None => None
      case Some((v, k)) => Some(((s[0] as int - 0x80) + 0x80 * v, k + 1))
  }

  lemma {:induction false} ParseVarintOfVarint(n: nat, rest: seq<byte>)
    ensures ParseVarint(Varint(n) + rest) == Some((n, |Varint(n)|))
    decreases n
  {
    if n >= 0x80 {
      var s := Varint(n) + rest;
      assert s[0] == (n % 0x80 + 0x80) as byte;
      assert s[1..] == Varint(n / 0x80) + rest;
      ParseVarintOfVarint(n / 0x80, rest);
    }
  }

  /** SerializeToString of a message whose field 1 is set to `value`. */
  function SerializeField(value: seq<byte>): (s: seq<byte>)
    ensures |s| > |value|
  {
    [FieldOneKey] + Varint(|value|) + value
  }

  /**
   * ParseFromString of such a message, returning the field's value. Empty input
   * is a message with the field unset, whose value reads as empty. Anything
   * other than the empty input or one field-1 record spanning the whole input is
   * rejected.
   */
  function ParseField(s: seq<byte>): (r: Option<seq<byte>>)
    ensures r.Some? ==> |r.value| <= |s|
    ensures r.Some? && s != [] ==> s[0] == FieldOneKey
  {
    if s == [] then Some([])
    else if s[0] != FieldOneKey then None
    else match ParseVarint(s[1..])
      case None => None
      case Some((len, k)) => if 1 + k + len == |s| then Some(s[1 + k..]) else None
  }

  /** Parsing what was serialized gives back the field's value. */
  lemma ParseSerializeField(value: seq<byte>)
    ensures ParseField(SerializeField(value)) == Some(value)
  {
    var s := SerializeField(value);
    assert s[1..] == Varint(|value|) + value;
    ParseVarintOfVarint(|value|, value);
    assert s[1 + |Varint(|value|)|..] == value;
  }
}
