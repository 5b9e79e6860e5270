/** Base64 as section 4 of RFC 4648 defines it (the alphabet ending in "+/",
    with "=" padding): what `base64_encode` produces, and what
    `base64_decode` reads in its default, non-strict mode. */
module Base64 {
  import opened Wrappers
  import opened Php

  /** A 6-bit value, carried by one character of the alphabet. */
  type Sextet = i: nat | i < 64

  /** The character for a 6-bit value. */
  function CharOf(i: Sextet): (c: char)
    ensures c != '='
  {
    if i < 26 then ('A' as int + i) as char
    else if i < 52 then ('a' as int + (i - 26)) as char
    else if i < 62 then ('0' as int + (i - 52)) as char
    else if i == 62 then '+'
    else '/'
  }

  /** The 6-bit value of a character of the alphabet; `None` for any other
      character, the padding "=" included. */
  function IndexOf(c: char): (r: Option<Sextet>)
    ensures c == '=' ==> r.None?
  {
    if 'A' <= c <= 'Z' then Some(c as int - 'A' as int)
    else if 'a' <= c <= 'z' then Some(c as int - 'a' as int + 26)
    else if '0' <= c <= '9' then Some(c as int - '0' as int + 52)
    else if c == '+' then Some(62)
    else if c == '/' then Some(63)
    else None
  }

  lemma IndexOfCharOf(i: Sextet)
    ensures IndexOf(CharOf(i)) == Some(i)
  {
  }

  /** Three bytes as four characters. */
  function EncodeGroup(b0: byte, b1: byte, b2: byte): (q: string)
    ensures |q| == 4
  {
    [CharOf(b0 as nat / 4), CharOf((b0 as nat % 4) * 16 + b1 as nat / 16),
     CharOf((b1 as nat % 16) * 4 + b2 as nat / 64), CharOf(b2 as nat % 64)]
  }

  /** `base64_encode`: four characters per three bytes, the last group
      padded with "=" when the input length is not a multiple of three. */
  function Encode(b: seq<byte>): (s: string)
    ensures |s| == 4 * ((|b| + 2) / 3)
  {
    if |b| == 0 then []
    else if |b| == 1 then [CharOf(b[0] as nat / 4), CharOf((b[0] as nat % 4) * 16), '=', '=']
    else if |b| == 2 then
      [CharOf(b[0] as nat / 4), CharOf((b[0] as nat % 4) * 16 + b[1] as nat / 16),
       CharOf((b[1] as nat % 16) * 4), '=']
    else EncodeGroup(b[0], b[1], b[2]) + Encode(b[3..])
  }

  /** Four 6-bit values as three bytes. */
  function DecodeValues(c0: Sextet, c1: Sextet, c2: Sextet, c3: Sextet): (g: seq<byte>)
    ensures |g| == 3
  {
    [(c0 * 4 + c1 / 16) as byte, ((c1 % 16) * 16 + c2 / 4) as byte, ((c2 % 4) * 64 + c3) as byte]
  }

  /** The 6-bit values of the alphabet characters of `s`, in order: what
      `base64_decode` keeps of its input, skipping the padding and every
      character outside the alphabet. */
  function Sextets(s: string): (v: seq<Sextet>)
    ensures |v| <= |s|
    ensures forall c :: c in s && IndexOf(c).None? ==> |v| < |s|
  {
    if s == [] then []
    else
      match IndexOf(s[0])
      case Some(x) => [x] + Sextets(s[1..])
      case None => Sextets(s[1..])
  }

  /** The bytes of a run of 6-bit values: three per four, two for a final
      three, one for a final two, none for a final one (whose bits cannot
      fill a byte). */
  function DecodeSextets(v: seq<Sextet>): (b: seq<byte>)
    ensures |b| == 3 * (|v| / 4) + (if |v| % 4 == 0 then 0 else |v| % 4 - 1)
  {
    if |v| >= 4 then DecodeValues(v[0], v[1], v[2], v[3]) + DecodeSextets(v[4..])
    else if |v| == 3 then DecodeValues(v[0], v[1], v[2], 0)[..2]
    else if |v| == 2 then DecodeValues(v[0], v[1], 0, 0)[..1]
    else []
  }

  /** `base64_decode($s)` in its default, non-strict mode: the alphabet
      characters are decoded in order and everything else ("=", white space,
      any other character) is skipped, so that missing padding is accepted
      and the result is never false. */
  function Decode(s: string): (b: seq<byte>)
    ensures |b| == 3 * (|Sextets(s)| / 4) + (if |Sextets(s)| % 4 == 0 then 0 else |Sextets(s)| % 4 - 1)
  {
    DecodeSextets(Sextets(s))
  }

  lemma SplitFirst(x0: nat, x1: nat)
    requires x0 < 256 && x1 < 256
    ensures ((x0 % 4) * 16 + x1 / 16) / 16 == x0 % 4
    ensures ((x0 % 4) * 16 + x1 / 16) % 16 == x1 / 16
    ensures (x0 / 4) * 4 + x0 % 4 == x0
  {
  }

  lemma SplitSecond(x1: nat, x2: nat)
    requires x1 < 256 && x2 < 256
    ensures ((x1 % 16) * 4 + x2 / 64) / 4 == x1 % 16
    ensures ((x1 % 16) * 4 + x2 / 64) % 4 == x2 / 64
    ensures (x1 / 16) * 16 + x1 % 16 == x1
    ensures (x2 / 64) * 64 + x2 % 64 == x2
  {
  }

  /** The three bytes come back out of their four 6-bit values. */
  lemma GroupValues(b0: byte, b1: byte, b2: byte)
    ensures var x0, x1, x2 := b0 as nat, b1 as nat, b2 as nat;
      DecodeValues(x0 / 4, (x0 % 4) * 16 + x1 / 16, (x1 % 16) * 4 + x2 / 64, x2 % 64) == [b0, b1, b2]
  {
    var x0, x1, x2 := b0 as nat, b1 as nat, b2 as nat;
    var c1, c2 := (x0 % 4) * 16 + x1 / 16, (x1 % 16) * 4 + x2 / 64;
    assert (x0 / 4) * 4 + c1 / 16 == x0 by {
      SplitFirst(x0, x1);
    }
    assert (c1 % 16) * 16 + c2 / 4 == x1 by {
      SplitFirst(x0, x1);
      SplitSecond(x1, x2);
    }
    assert (c2 % 4) * 64 + x2 % 64 == x2 by {
      SplitSecond(x1, x2);
    }
  }

  /** Skipping characters outside the alphabet distributes over
      concatenation. */
  lemma {:induction false} SextetsAppend(a: string, b: string)
    ensures Sextets(a + b) == Sextets(a) + Sextets(b)
  {
    if a != [] {
      assert (a + b)[0] == a[0];
      assert (a + b)[1..] == a[1..] + b;
      SextetsAppend(a[1..], b);
    } else {
      assert a + b == b;
    }
  }

  /** One character: its value, or nothing when it is not in the alphabet. */
  lemma SextetsOfChar(c: char)
    ensures Sextets([c]) == (match IndexOf(c) case Some(x) => [x] case None => [])
  {
    assert [c][1..] == [];
  }

  /** A group of four characters contributes the values of its alphabet
      characters, in order. */
  lemma SextetsOfGroup(q: string)
    requires |q| == 4
    ensures Sextets(q) == Sextets([q[0]]) + Sextets([q[1]]) + Sextets([q[2]]) + Sextets([q[3]])
  {
    assert q == [q[0]] + [q[1]] + [q[2]] + [q[3]];
    SextetsAppend([q[0]] + [q[1]] + [q[2]], [q[3]]);
    SextetsAppend([q[0]] + [q[1]], [q[2]]);
    SextetsAppend([q[0]], [q[1]]);
  }

  /** The alphabet characters of a group give back their values; the
      padding adds nothing. */
  lemma SextetsOfChars(q: string, c0: Sextet, c1: Sextet, c2: Sextet, c3: Sextet)
    requires |q| == 4 && q[0] == CharOf(c0) && q[1] == CharOf(c1)
    ensures q[2] == CharOf(c2) && q[3] == CharOf(c3) ==> Sextets(q) == [c0, c1, c2, c3]
    ensures q[2] == CharOf(c2) && q[3] == '=' ==> Sextets(q) == [c0, c1, c2]
    ensures q[2] == '=' && q[3] == '=' ==> Sextets(q) == [c0, c1]
  {
    IndexOfCharOf(c0);
    IndexOfCharOf(c1);
    IndexOfCharOf(c2);
    IndexOfCharOf(c3);
    SextetsOfGroup(q);
    SextetsOfChar(q[0]);
    SextetsOfChar(q[1]);
    SextetsOfChar(q[2]);
    SextetsOfChar(q[3]);
  }

  /** Four values in front of more decode as their three bytes, then the
      rest. */
  lemma DecodeSextetsThenRest(g: seq<Sextet>, rest: seq<Sextet>)
    requires |g| == 4
    ensures DecodeSextets(g + rest) == DecodeValues(g[0], g[1], g[2], g[3]) + DecodeSextets(rest)
  {
    assert (g + rest)[4..] == rest;
  }

  /** A full group decodes back to its three bytes. */
  lemma GroupRoundTrip(b0: byte, b1: byte, b2: byte, rest: string)
    ensures Decode(EncodeGroup(b0, b1, b2) + rest) == [b0, b1, b2] + Decode(rest)
  {
    var x0, x1, x2 := b0 as nat, b1 as nat, b2 as nat;
    var c0, c1, c2, c3 := x0 / 4, (x0 % 4) * 16 + x1 / 16, (x1 % 16) * 4 + x2 / 64, x2 % 64;
    SextetsOfChars(EncodeGroup(b0, b1, b2), c0, c1, c2, c3);
    SextetsAppend(EncodeGroup(b0, b1, b2), rest);
    DecodeSextetsThenRest([c0, c1, c2, c3], Sextets(rest));
    GroupValues(b0, b1, b2);
  }

  /** A single byte, padded with "==", decodes back. */
  lemma OneByteRoundTrip(b: seq<byte>)
    requires |b| == 1
    ensures Decode(Encode(b)) == b
  {
    var x0 := b[0] as nat;
    var c0, c1 := x0 / 4, (x0 % 4) * 16;
    var q := Encode(b);
    SextetsOfChars(q, c0, c1, 0, 0);
    var g := DecodeValues(c0, c1, 0, 0);
    assert Decode(q) == DecodeSextets([c0, c1]) == g[..1];
    SplitFirst(x0, 0);
    assert g[0] == b[0];
  }

  /** The two bytes come back out of their three 6-bit values. */
  lemma TwoValues(b0: byte, b1: byte, c0: Sextet, c1: Sextet, c2: Sextet)
    requires c0 == b0 as nat / 4 && c1 == (b0 as nat % 4) * 16 + b1 as nat / 16 && c2 == (b1 as nat % 16) * 4
    ensures DecodeValues(c0, c1, c2, 0)[..2] == [b0, b1]
  {
    SplitFirst(b0 as nat, b1 as nat);
    SplitSecond(b1 as nat, 0);
  }

  /** Two bytes, padded with "=", decode back. */
  lemma TwoBytesRoundTrip(b: seq<byte>)
    requires |b| == 2
    ensures Decode(Encode(b)) == b
  {
    var x0, x1 := b[0] as nat, b[1] as nat;
    var c0, c1, c2 := x0 / 4, (x0 % 4) * 16 + x1 / 16, (x1 % 16) * 4;
    var q := Encode(b);
    SextetsOfChars(q, c0, c1, c2, 0);
    assert Decode(q) == DecodeSextets([c0, c1, c2]) == DecodeValues(c0, c1, c2, 0)[..2];
    assert DecodeValues(c0, c1, c2, 0)[..2] == [b[0], b[1]] by {
      TwoValues(b[0], b[1], c0, c1, c2);
    }
    assert [b[0], b[1]] == b;
  }

  lemma SplitThree(b: seq<byte>)
    requires |b| >= 3
    ensures [b[0], b[1], b[2]] + b[3..] == b
  {
    var c := [b[0], b[1], b[2]] + b[3..];
    assert |c| == |b|;
    forall i | 0 <= i < |b|
      ensures c[i] == b[i]
    {
    }
  }

  /** Decoding what `base64_encode` produced gives back the bytes. */
  lemma {:induction false} RoundTrip(b: seq<byte>)
    ensures Decode(Encode(b)) == b
  {
    if |b| == 1 {
      OneByteRoundTrip(b);
    } else if |b| == 2 {
      TwoBytesRoundTrip(b);
    } else if |b| >= 3 {
      RoundTrip(b[3..]);
      GroupRoundTrip(b[0], b[1], b[2], Encode(b[3..]));
      SplitThree(b);
    }
  }

  /** A character outside the alphabet (padding, white space, anything
      else) is skipped wherever it stands: together with `RoundTrip`, text
      whose padding was dropped or which was wrapped over lines still
      decodes to the bytes. */
  lemma SkipsForeign(x: string, c: char, y: string)
    requires IndexOf(c).None?
    ensures Decode(x + [c] + y) == Decode(x + y)
  {
    SextetsAppend(x + [c], y);
    SextetsAppend(x, [c]);
    SextetsAppend(x, y);
    SextetsOfChar(c);
    assert Sextets(x) + [] == Sextets(x);
  }

  /** The unpadded text "YjoxOw" decodes to the four bytes of `b:1;`, which
      is how PHP serializes true. */
  lemma UnpaddedText()
    ensures Decode("YjoxOw") == [98, 58, 49, 59]
  {
    var s := "YjoxOw";
    assert Sextets(s[5..]) == [48] by {
      assert s[5..][1..] == [];
    }
    assert Sextets(s[4..]) == [14, 48] by {
      assert s[4..][1..] == s[5..];
    }
    assert Sextets(s[3..]) == [49, 14, 48] by {
      assert s[3..][1..] == s[4..];
    }
    assert Sextets(s[2..]) == [40, 49, 14, 48] by {
      assert s[2..][1..] == s[3..];
    }
    assert Sextets(s[1..]) == [35, 40, 49, 14, 48] by {
      assert s[1..][1..] == s[2..];
    }
    assert Sextets(s) == [24, 35, 40, 49, 14, 48];
    var v: seq<Sextet> := [24, 35, 40, 49, 14, 48];
    assert DecodeSextets(v) == DecodeValues(24, 35, 40, 49) + DecodeSextets([14, 48]) by {
      assert v[4..] == [14, 48];
    }
    assert DecodeValues(24, 35, 40, 49) == [98, 58, 49];
    assert DecodeSextets([14, 48]) == [59];
  }
}
