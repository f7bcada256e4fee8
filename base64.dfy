/**
 * The base 64 encoding of section 4 of RFC 4648 (alphabet of Table 1, '=' padding),
 * which `Buffer.toString('base64')` produces for the serverless resume response,
 * and its canonical decoding, which the function host applies to a body flagged
 * `isBase64Encoded`. The two are proved mutually inverse.
 */
module Base64 {
  import opened Wrappers

  newtype byte = x: int | 0 <= x < 256

  /** The character of Table 1 of RFC 4648 for a 6-bit value. */
  function Letter(v: int): char
    requires 0 <= v < 64
  {
    if v < 26 then ('A' as int + v) as char
    else if v < 52 then ('a' as int + v - 26) as char
    else if v < 62 then ('0' as int + v - 52) as char
    else if v == 62 then '+'
    else '/'
  }

  /** The 6-bit value of an alphabet character; None for '=' and every character outside the alphabet. */
  function ValueOf(c: char): (r: Option<int>)
    ensures r.Some? ==> 0 <= r.value < 64 && Letter(r.value) == c
    ensures r.None? ==> forall v | 0 <= v < 64 :: Letter(v) != c
  {
    if 'A' <= c <= 'Z' then Some(c as int - 'A' as int)
    else if 'a' <= c <= 'z' then Some(c as int - 'a' as int + 26)
    else if '0' <= c <= '9' then Some(c as int - '0' as int + 52)
    else if c == '+' then Some(62)
    else if c == '/' then Some(63)
    else None
  }

  lemma ValueOfLetter(v: int)
    requires 0 <= v < 64
    ensures ValueOf(Letter(v)) == Some(v)
  {
  }

  /** Four characters for three bytes (a full 24-bit quantum). */
  function EncodeQuantum(b0: byte, b1: byte, b2: byte): string {
    var x0, x1, x2 := b0 as int, b1 as int, b2 as int;
    [Letter(x0 / 4), Letter((x0 % 4) * 16 + x1 / 16), Letter((x1 % 16) * 4 + x2 / 64), Letter(x2 % 64)]
  }

  /** A final quantum of 8 bits: two characters and "==". */
  function EncodeOne(b0: byte): string {
    var x0 := b0 as int;
    [Letter(x0 / 4), Letter((x0 % 4) * 16), '=', '=']
  }

  /** A final quantum of 16 bits: three characters and "=". */
  function EncodeTwo(b0: byte, b1: byte): string {
    var x0, x1 := b0 as int, b1 as int;
    [Letter(x0 / 4), Letter((x0 % 4) * 16 + x1 / 16), Letter((x1 % 16) * 4), '=']
  }

  /** Base 64 encoding (section 4 of RFC 4648). */
  function Encode(b: seq<byte>): (s: string)
    ensures |s| == 4 * ((|b| + 2) / 3)
    ensures forall k | 0 <= k < |s| - 2 :: ValueOf(s[k]).Some?
    ensures |b| % 3 == 0 ==> forall k | 0 <= k < |s| :: ValueOf(s[k]).Some?
    decreases |b|
  {
    if |b| == 0 then []
    else if |b| == 1 then EncodeOne(b[0])
    else if |b| == 2 then EncodeTwo(b[0], b[1])
    else EncodeQuantum(b[0], b[1], b[2]) + Encode(b[3..])
  }

  /** Three bytes from four alphabet characters; None if any character is outside the alphabet. */
  function DecodeQuantum(q: string): (r: Option<seq<byte>>)
    requires |q| == 4
    ensures r.Some? ==> |r.value| == 3
  {
    match (ValueOf(q[0]), ValueOf(q[1]), ValueOf(q[2]), ValueOf(q[3]))
    case (Some(c0), Some(c1), Some(c2), Some(c3)) =>
      Some([(c0 * 4 + c1 / 16) as byte, ((c1 % 16) * 16 + c2 / 4) as byte, ((c2 % 4) * 64 + c3) as byte])
    case _ => None
  }

  /**
   * The last quantum, possibly padded. Padding bits that are not zero make the
   * input non-canonical, and it is rejected (section 3.5 of RFC 4648).
   */
  function DecodeFinal(q: string): (r: Option<seq<byte>>)
    requires |q| == 4
    ensures r.Some? ==> 1 <= |r.value| <= 3
  {
    if q[2] == '=' && q[3] == '=' then
      match (ValueOf(q[0]), ValueOf(q[1]))
      case (Some(c0), Some(c1)) =>
        if c1 % 16 == 0 then Some([(c0 * 4 + c1 / 16) as byte]) else None
      case _ => None
    else if q[3] == '=' then
      match (ValueOf(q[0]), ValueOf(q[1]), ValueOf(q[2]))
      case (Some(c0), Some(c1), Some(c2)) =>
        if c2 % 4 == 0 then Some([(c0 * 4 + c1 / 16) as byte, ((c1 % 16) * 16 + c2 / 4) as byte]) else None
      case _ => None
    else
      DecodeQuantum(q)
  }

  /** Canonical base 64 decoding; None for input that no byte sequence encodes to. */
  function Decode(s: string): (r: Option<seq<byte>>)
    decreases |s|
  {
    if |s| == 0 then Some([])
    else if |s| < 4 then None
    else if |s| == 4 then DecodeFinal(s)
    else
      match DecodeQuantum(s[..4])
      case None => None
      case Some(h) =>
        match Decode(s[4..])
        case None => None
        case Some(t) => Some(h + t)
  }

  lemma QuantumRoundTrip(b0: byte, b1: byte, b2: byte)
    ensures DecodeQuantum(EncodeQuantum(b0, b1, b2)) == Some([b0, b1, b2])
  {
    var x0, x1, x2 := b0 as int, b1 as int, b2 as int;
    var c0, c1, c2, c3 := x0 / 4, (x0 % 4) * 16 + x1 / 16, (x1 % 16) * 4 + x2 / 64, x2 % 64;
    ValueOfLetter(c0);
    ValueOfLetter(c1);
    ValueOfLetter(c2);
    ValueOfLetter(c3);
    assert c0 * 4 + c1 / 16 == x0;
    assert (c1 % 16) * 16 + c2 / 4 == x1;
    assert (c2 % 4) * 64 + c3 == x2;
  }

  lemma OneRoundTrip(b0: byte)
    ensures DecodeFinal(EncodeOne(b0)) == Some([b0])
  {
    var x0 := b0 as int;
    var c0, c1 := x0 / 4, (x0 % 4) * 16;
    ValueOfLetter(c0);
    ValueOfLetter(c1);
    assert c1 % 16 == 0 && c0 * 4 + c1 / 16 == x0;
  }

  lemma TwoRoundTrip(b0: byte, b1: byte)
    ensures DecodeFinal(EncodeTwo(b0, b1)) == Some([b0, b1])
  {
    var x0, x1 := b0 as int, b1 as int;
    var c0, c1, c2 := x0 / 4, (x0 % 4) * 16 + x1 / 16, (x1 % 16) * 4;
    ValueOfLetter(c0);
    ValueOfLetter(c1);
    ValueOfLetter(c2);
    assert c2 % 4 == 0 && c0 * 4 + c1 / 16 == x0 && (c1 % 16) * 16 + c2 / 4 == x1;
  }

  /** A full quantum in front of a non-empty rest decodes to the bytes of both. */
  lemma DecodeCons(q: string, rest: string)
    requires |q| == 4 && |rest| > 0
    requires DecodeQuantum(q).Some? && Decode(rest).Some?
    ensures Decode(q + rest) == Some(DecodeQuantum(q).value + Decode(rest).value)
  {
    var s := q + rest;
    assert s[..4] == q && s[4..] == rest;
  }

  /** Decoding undoes encoding: the receiver of the body gets exactly the encoded bytes. */
  lemma {:induction false} DecodeEncode(b: seq<byte>)
    ensures Decode(Encode(b)) == Some(b)
    decreases |b|
  {
    if |b| == 1 {
      OneRoundTrip(b[0]);
      assert b == [b[0]];
    } else if |b| == 2 {
      TwoRoundTrip(b[0], b[1]);
      assert b == [b[0], b[1]];
    } else if |b| > 2 {
      var q := EncodeQuantum(b[0], b[1], b[2]);
      var rest := Encode(b[3..]);
      assert Encode(b) == q + rest;
      QuantumRoundTrip(b[0], b[1], b[2]);
      DecodeEncode(b[3..]);
      assert [b[0], b[1], b[2]] + b[3..] == b;
      if |rest| == 0 {
        assert b[3..] == [];
        assert q + rest == q;
        assert q[2] != '=' && q[3] != '=';
        assert Decode(q) == DecodeFinal(q) == DecodeQuantum(q);
        assert b == [b[0], b[1], b[2]];
        assert Encode(b) == q;
      } else {
        DecodeCons(q, rest);
      }
    }
  }

  lemma QuantumReencodes(q: string)
    requires |q| == 4 && DecodeQuantum(q).Some?
    ensures var h := DecodeQuantum(q).value; EncodeQuantum(h[0], h[1], h[2]) == q
  {
    var c0, c1, c2, c3 := ValueOf(q[0]).value, ValueOf(q[1]).value, ValueOf(q[2]).value, ValueOf(q[3]).value;
    var x0, x1, x2 := c0 * 4 + c1 / 16, (c1 % 16) * 16 + c2 / 4, (c2 % 4) * 64 + c3;
    assert x0 / 4 == c0;
    assert (x0 % 4) * 16 + x1 / 16 == c1;
    assert (x1 % 16) * 4 + x2 / 64 == c2;
    assert x2 % 64 == c3;
  }

  lemma OneReencodes(q: string)
    requires |q| == 4 && q[2] == '=' && q[3] == '=' && DecodeFinal(q).Some?
    ensures Encode(DecodeFinal(q).value) == q
  {
    var c0, c1 := ValueOf(q[0]).value, ValueOf(q[1]).value;
    var x0 := c0 * 4 + c1 / 16;
    assert DecodeFinal(q).value == [x0 as byte];
    assert x0 / 4 == c0;
    assert (x0 % 4) * 16 == c1;
  }

  lemma TwoReencodes(q: string)
    requires |q| == 4 && q[2] != '=' && q[3] == '=' && DecodeFinal(q).Some?
    ensures Encode(DecodeFinal(q).value) == q
  {
    var c0, c1, c2 := ValueOf(q[0]).value, ValueOf(q[1]).value, ValueOf(q[2]).value;
    var x0, x1 := c0 * 4 + c1 / 16, (c1 % 16) * 16 + c2 / 4;
    assert DecodeFinal(q).value == [x0 as byte, x1 as byte];
    assert x0 / 4 == c0;
    assert (x0 % 4) * 16 + x1 / 16 == c1;
    assert (x1 % 16) * 4 == c2;
  }

  lemma FinalReencodes(q: string)
    requires |q| == 4 && DecodeFinal(q).Some?
    ensures Encode(DecodeFinal(q).value) == q
  {
    if q[2] == '=' && q[3] == '=' {
      OneReencodes(q);
    } else if q[3] == '=' {
      TwoReencodes(q);
    } else {
      var h := DecodeFinal(q).value;
      QuantumReencodes(q);
      assert h[3..] == [];
      assert Encode(h) == EncodeQuantum(h[0], h[1], h[2]) + Encode(h[3..]);
    }
  }

  /** Whatever decodes, decodes from the encoding of its result: the decoder accepts nothing else. */
  lemma {:induction false} EncodeDecode(s: string)
    requires Decode(s).Some?
    ensures Encode(Decode(s).value) == s
    decreases |s|
  {
    if |s| == 4 {
      FinalReencodes(s);
    } else if |s| > 4 {
      var h := DecodeQuantum(s[..4]).value;
      var t := Decode(s[4..]).value;
      EncodeDecode(s[4..]);
      QuantumReencodes(s[..4]);
      var b := h + t;
      assert b[3..] == t;
      assert b[0] == h[0] && b[1] == h[1] && b[2] == h[2];
      assert |t| > 0 by {
        assert Encode(t) == s[4..];
      }
      assert Encode(b) == EncodeQuantum(h[0], h[1], h[2]) + Encode(t);
      assert s == s[..4] + s[4..];
    }
  }

  /** The decoder is exactly the inverse of the encoder. */
  lemma DecodeIffEncode(s: string, b: seq<byte>)
    ensures Decode(s) == Some(b) <==> s == Encode(b)
  {
    if Decode(s) == Some(b) {
      EncodeDecode(s);
    }
    if s == Encode(b) {
      DecodeEncode(b);
    }
  }
}
