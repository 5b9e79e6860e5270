/** The byte-level payloads exchanged between the parent and the child:
    `base64_encode(serialize($value))` and `@unserialize(base64_decode($text))`.
    PHP's serializer is foreign code; it is a parameter here, a pair of
    functions, `serialize` total, of which the round trip is assumed. */
module Wire {
  import opened Wrappers
  import opened Php
  import Base64

  /** `serialize` and `unserialize`; `unserialize` answers `None` where PHP
      returns false for a string it cannot read. */
  datatype Serializer = Serializer(serialize: Value -> seq<byte>, unserialize: seq<byte> -> Option<Value>)

  /** Unserializing what was serialized gives the value back. */
  ghost predicate RoundTrips(c: Serializer) {
    forall v :: c.unserialize(c.serialize(v)) == Some(v)
  }

  /** `unserialize("")` is false: PHP's serializer never produces the empty
      string. */
  ghost predicate RefusesEmpty(c: Serializer) {
    c.unserialize([]) == None
  }

  /** `base64_encode(serialize($v))`. */
  function Encode(c: Serializer, v: Value): (text: string)
    ensures |text| == 4 * ((|c.serialize(v)| + 2) / 3)
  {
    Base64.Encode(c.serialize(v))
  }

  /** `@unserialize(base64_decode($text))`: the lenient decode never fails,
      so the value is false exactly when the bytes it yields cannot be
      unserialized, or when they are the serialization of false. */
  function Decode(c: Serializer, text: string): (v: Value)
    ensures c.unserialize(Base64.Decode(text)).None? ==> v == Bool(false)
    ensures v != Bool(false) ==> c.unserialize(Base64.Decode(text)) == Some(v)
  {
    match c.unserialize(Base64.Decode(text))
    case None => Bool(false)
    case Some(v) => v
  }

  /** Decoding an encoded value gives it back. */
  lemma DecodeEncode(c: Serializer, v: Value)
    requires RoundTrips(c)
    ensures Decode(c, Encode(c, v)) == v
  {
    Base64.RoundTrip(c.serialize(v));
  }

  /** An empty stream decodes to false. */
  lemma DecodeEmpty(c: Serializer)
    requires RefusesEmpty(c)
    ensures Decode(c, "") == Bool(false)
  {
  }

  /** Distinct values travel as distinct texts. */
  lemma EncodeInjective(c: Serializer, v: Value, w: Value)
    requires RoundTrips(c)
    requires Encode(c, v) == Encode(c, w)
    ensures v == w
  {
    DecodeEncode(c, v);
    DecodeEncode(c, w);
  }

  /** A payload whose padding was dropped still reads: the text "YjoxOw"
      carries the serialization of true, so it decodes to true. */
  lemma UnpaddedPayloadReads(c: Serializer)
    requires c.unserialize([98, 58, 49, 59]) == Some(Bool(true))
    ensures Decode(c, "YjoxOw") == Bool(true)
  {
    Base64.UnpaddedText();
  }
}
