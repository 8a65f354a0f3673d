/** The base 64 encoding of section 4 of RFC 4648, with `=` padding, as
    `Buffer.prototype.toString('base64')` produces it. It is a reversible
    transfer encoding, not a protection of what it encodes. */
module Base64 {
  import opened Wrappers
  import opened Bytes

  /** Character of the 6-bit value `v` in the RFC 4648 alphabet. */
  function Sextet(v: nat): (c: char)
    requires v < 64
  {
    if v < 26 then ('A' as int + v) as char
    else if v < 52 then ('a' as int + (v - 26)) as char
    else if v < 62 then ('0' as int + (v - 52)) as char
    else if v == 62 then '+'
    else '/'
  }

  /** Value of an alphabet character; `None` for anything else, `=` included. */
  function SextetValue(c: char): (r: Option<nat>)
    ensures r.Some? ==> r.value < 64
  {
    if 'A' <= c <= 'Z' then Some(c as int - 'A' as int)
    else if 'a' <= c <= 'z' then Some(c as int - 'a' as int + 26)
    else if '0' <= c <= '9' then Some(c as int - '0' as int + 52)
    else if c == '+' then Some(62)
    else if c == '/' then Some(63)
    else None
  }

  predicate InAlphabet(c: char) {
    SextetValue(c).Some?
  }

  lemma SextetRoundTrip(v: nat)
    requires v < 64
    ensures SextetValue(Sextet(v)) == Some(v)
  {
  }

  /** Three bytes become four characters, six bits each, most significant first. */
  function EncodeGroup(b0: byte, b1: byte, b2: byte): (s: string)
  {
    [Sextet(b0 / 4), Sextet((b0 % 4) * 16 + b1 / 16), Sextet((b1 % 16) * 4 + b2 / 64), Sextet(b2 % 64)]
  }

  function Encode(b: seq<byte>): (s: string)
    ensures |s| == 4 * ((|b| + 2) / 3)
  {
    if |b| == 0 then []
    else if |b| == 1 then [Sextet(b[0] / 4), Sextet((b[0] % 4) * 16), '=', '=']
    else if |b| == 2 then [Sextet(b[0] / 4), Sextet((b[0] % 4) * 16 + b[1] / 16), Sextet((b[1] % 16) * 4), '=']
    else
      var rest := Encode(b[3..]);
      assert (|b| + 2) / 3 == (|b| - 1) / 3 + 1;
      EncodeGroup(b[0], b[1], b[2]) + rest
  }

  /** Every character of an encoding is in the alphabet or is the padding `=`. */
  lemma {:induction false} EncodeAlphabet(b: seq<byte>)
    ensures forall i :: 0 <= i < |Encode(b)| ==> InAlphabet(Encode(b)[i]) || Encode(b)[i] == '='
  {
    if |b| >= 3 {
      EncodeAlphabet(b[3..]);
      var g, rest := EncodeGroup(b[0], b[1], b[2]), Encode(b[3..]);
      SextetRoundTrip(b[0] / 4);
      SextetRoundTrip((b[0] % 4) * 16 + b[1] / 16);
      SextetRoundTrip((b[1] % 16) * 4 + b[2] / 64);
      SextetRoundTrip(b[2] % 64);
      assert Encode(b) == g + rest;
      forall i | 0 <= i < |g + rest|
        ensures InAlphabet((g + rest)[i]) || (g + rest)[i] == '='
      {
        if i >= 4 {
          assert (g + rest)[i] == rest[i - 4];
        }
      }
    } else if |b| == 2 {
      SextetRoundTrip(b[0] / 4);
      SextetRoundTrip((b[0] % 4) * 16 + b[1] / 16);
      SextetRoundTrip((b[1] % 16) * 4);
    } else if |b| == 1 {
      SextetRoundTrip(b[0] / 4);
      SextetRoundTrip((b[0] % 4) * 16);
    }
  }

  /** Four characters without padding back to three bytes. */
  function DecodeGroup(s: string): (r: Option<seq<byte>>)
    requires |s| == 4
    ensures r.Some? ==> |r.value| == 3
  {
    match (SextetValue(s[0]), SextetValue(s[1]), SextetValue(s[2]), SextetValue(s[3]))
    case (Some(v0), Some(v1), Some(v2), Some(v3)) =>
      Some([v0 * 4 + v1 / 16, (v1 % 16) * 16 + v2 / 4, (v2 % 4) * 64 + v3])
    case _ => None
  }

  /** Strict decoder: the length is a multiple of four, padding only at the end,
      and the bits the padding leaves over are zero. */
  function Decode(s: string): (r: Option<seq<byte>>)
  {
    if |s| == 0 then Some([])
    else if |s| < 4 then None
    else if |s| == 4 && s[2] == '=' && s[3] == '=' then
      match (SextetValue(s[0]), SextetValue(s[1]))
      case (Some(v0), Some(v1)) =>
        if v1 % 16 == 0 then Some([v0 * 4 + v1 / 16]) else None
      case _ => None
    else if |s| == 4 && s[3] == '=' then
      match (SextetValue(s[0]), SextetValue(s[1]), SextetValue(s[2]))
      case (Some(v0), Some(v1), Some(v2)) =>
        if v2 % 4 == 0 then Some([v0 * 4 + v1 / 16, (v1 % 16) * 16 + v2 / 4]) else None
      case _ => None
    else
      match DecodeGroup(s[..4])
      case None => None
      case Some(g) =>
        match Decode(s[4..])
        case None => None
        case Some(rest) => Some(g + rest)
  }

  lemma DecodeEncodeGroup(b0: byte, b1: byte, b2: byte)
    ensures DecodeGroup(EncodeGroup(b0, b1, b2)) == Some([b0, b1, b2])
  {
    var v0, v1, v2, v3 := b0 / 4, (b0 % 4) * 16 + b1 / 16, (b1 % 16) * 4 + b2 / 64, b2 % 64;
    SextetRoundTrip(v0);
    SextetRoundTrip(v1);
    SextetRoundTrip(v2);
    SextetRoundTrip(v3);
    RegroupBits(b0, b1, b2);
    assert DecodeGroup(EncodeGroup(b0, b1, b2)) == Some([v0 * 4 + v1 / 16, (v1 % 16) * 16 + v2 / 4, (v2 % 4) * 64 + v3]);
  }

  /** Cutting three bytes into four sextets and joining them again gives the bytes back. */
  lemma RegroupBits(b0: byte, b1: byte, b2: byte)
    ensures var v0, v1, v2, v3 := b0 / 4, (b0 % 4) * 16 + b1 / 16, (b1 % 16) * 4 + b2 / 64, b2 % 64;
      v0 * 4 + v1 / 16 == b0 && (v1 % 16) * 16 + v2 / 4 == b1 && (v2 % 4) * 64 + v3 == b2
  {
    var v1, v2 := (b0 % 4) * 16 + b1 / 16, (b1 % 16) * 4 + b2 / 64;
    assert v1 / 16 == b0 % 4 && v1 % 16 == b1 / 16;
    assert v2 / 4 == b1 % 16 && v2 % 4 == b2 / 64;
  }

  /** One byte is two characters and two `=`, and they decode to it. */
  lemma DecodeOnePadded(b0: byte)
    ensures Decode([Sextet(b0 / 4), Sextet((b0 % 4) * 16), '=', '=']) == Some([b0])
  {
    SextetRoundTrip(b0 / 4);
    SextetRoundTrip((b0 % 4) * 16);
  }

  /** Two bytes are three characters and one `=`, and they decode to them. */
  lemma DecodeTwoPadded(b0: byte, b1: byte)
    ensures Decode([Sextet(b0 / 4), Sextet((b0 % 4) * 16 + b1 / 16), Sextet((b1 % 16) * 4), '=']) == Some([b0, b1])
  {
    var v0, v1, v2 := b0 / 4, (b0 % 4) * 16 + b1 / 16, (b1 % 16) * 4;
    SextetRoundTrip(v0);
    SextetRoundTrip(v1);
    SextetRoundTrip(v2);
    assert v1 / 16 == b0 % 4 && v1 % 16 == b1 / 16;
    assert v2 % 4 == 0 && v2 / 4 == b1 % 16;
    assert Sextet(v2) != '=' by { assert InAlphabet(Sextet(v2)); }
  }

  /** Decoding the encoding gives back the bytes. */
  lemma {:induction false} DecodeEncode(b: seq<byte>)
    ensures Decode(Encode(b)) == Some(b)
  {
    if |b| == 0 {
    } else if |b| == 1 {
      DecodeOnePadded(b[0]);
      assert b == [b[0]];
    } else if |b| == 2 {
      DecodeTwoPadded(b[0], b[1]);
      assert b == [b[0], b[1]];
    } else {
      DecodeEncode(b[3..]);
      DecodeEncodeGroups(b);
    }
  }

  /** One step of the round trip: a full leading group followed by a tail that round-trips. */
  lemma DecodeEncodeGroups(b: seq<byte>)
    requires |b| >= 3 && Decode(Encode(b[3..])) == Some(b[3..])
    ensures Decode(Encode(b)) == Some(b)
  {
    var g := EncodeGroup(b[0], b[1], b[2]);
    EncodeStep(b);
    DecodeEncodeGroup(b[0], b[1], b[2]);
    SextetRoundTrip(b[2] % 64);
    DecodeStep(g, Encode(b[3..]), [b[0], b[1], b[2]], b[3..]);
    SplitThree(b);
  }

  lemma SplitThree(b: seq<byte>)
    requires |b| >= 3
    ensures [b[0], b[1], b[2]] + b[3..] == b
  {
  }

  /** The encoding of three bytes or more starts with the group of its first three. */
  lemma EncodeStep(b: seq<byte>)
    requires |b| >= 3
    ensures Encode(b) == EncodeGroup(b[0], b[1], b[2]) + Encode(b[3..])
  {
  }

  /** A leading group with no padding decodes on its own, ahead of the rest. */
  lemma DecodeStep(g: string, s: string, x: seq<byte>, y: seq<byte>)
    requires |g| == 4 && InAlphabet(g[3])
    requires DecodeGroup(g) == Some(x) && Decode(s) == Some(y)
    ensures Decode(g + s) == Some(x + y)
  {
    var t := g + s;
    assert t[..4] == g && t[4..] == s;
    assert t[3] == g[3];
  }

  /** Different byte sequences never share an encoding. */
  lemma EncodeInjective(a: seq<byte>, b: seq<byte>)
    requires Encode(a) == Encode(b)
    ensures a == b
  {
    DecodeEncode(a);
    DecodeEncode(b);
  }
}
