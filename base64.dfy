/** Base 64 encoding as section 4 of RFC 4648 defines it, which is what
    `Convert.ToBase64String` produces: 3-byte groups become 4 characters
    of the 64-character alphabet, and a final group of 1 or 2 bytes is
    padded with "==" or "=". The decoder is the inverse used to show that
    the encoding loses nothing. */
module Base64 {
  import opened Wrappers
  import opened Platform

  /** A character of the alphabet of Table 1 in RFC 4648. */
  predicate IsAlphabetChar(c: char)
  {
    'A' <= c <= 'Z' || 'a' <= c <= 'z' || '0' <= c <= '9' || c == '+' || c == '/'
  }

  /** A character that may appear in encoded output: the alphabet or the pad. */
  predicate IsEncodedChar(c: char)
  {
    IsAlphabetChar(c) || c == '='
  }

  predicate AllAlphabet(s: string)
  {
    forall i :: 0 <= i < |s| ==> IsAlphabetChar(s[i])
  }

  /** The character that encodes the 6-bit value `v`. */
  function Digit(v: nat): (c: char)
    requires v < 64
    ensures IsAlphabetChar(c)
  {
    if v < 26 then (65 + v) as char
    else if v < 52 then (97 + v - 26) as char
    else if v < 62 then (48 + v - 52) as char
    else if v == 62 then '+'
    else '/'
  }

  /** The 6-bit value an alphabet character encodes. */
  function Value(c: char): (v: nat)
    requires IsAlphabetChar(c)
    ensures v < 64
  {
    if 'A' <= c <= 'Z' then c as int - 65
    else if 'a' <= c <= 'z' then c as int - 97 + 26
    else if '0' <= c <= '9' then c as int - 48 + 52
    else if c == '+' then 62
    else 63
  }

  /** The four characters for three bytes: the 24 bits of the group cut
      into four 6-bit values, most significant first. */
  function EncodeQuantum(b0: byte, b1: byte, b2: byte): (r: string)
    ensures |r| == 4 && AllAlphabet(r)
  {
    [Digit(b0 / 4), Digit(b0 % 4 * 16 + b1 / 16), Digit(b1 % 16 * 4 + b2 / 64), Digit(b2 % 64)]
  }

  /** The three bytes four alphabet characters stand for. */
  function DecodeQuantum(s: string): (r: seq<byte>)
    requires |s| == 4 && AllAlphabet(s)
    ensures |r| == 3
  {
    var v0, v1, v2, v3 := Value(s[0]), Value(s[1]), Value(s[2]), Value(s[3]);
    [v0 * 4 + v1 / 16, v1 % 16 * 16 + v2 / 4, v2 % 4 * 64 + v3]
  }

  /** `Convert.ToBase64String`. */
  function Encode(b: seq<byte>): (r: string)
    ensures |r| == (|b| + 2) / 3 * 4
    ensures forall i :: 0 <= i < |r| ==> IsEncodedChar(r[i])
  {
    if |b| == 0 then ""
    else if |b| == 1 then EncodeQuantum(b[0], 0, 0)[..2] + "=="
    else if |b| == 2 then EncodeQuantum(b[0], b[1], 0)[..3] + "="
    else EncodeQuantum(b[0], b[1], b[2]) + Encode(b[3..])
  }

  /** The last group of four characters, with its padding. The bits the
      padding leaves unused must be zero (section 3.5 of RFC 4648), so that
      each byte sequence has exactly one encoding that decodes to it. */
  function DecodeFinal(s: string): (r: Option<seq<byte>>)
    requires |s| == 4
    ensures r.Some? ==> 1 <= |r.value| <= 3
  {
    if AllAlphabet(s) then Some(DecodeQuantum(s))
    else if AllAlphabet(s[..3]) && s[3] == '=' && Value(s[2]) % 4 == 0 then
      Some(DecodeQuantum(s[..3] + "A")[..2])
    else if AllAlphabet(s[..2]) && s[2..] == "==" && Value(s[1]) % 16 == 0 then
      Some(DecodeQuantum(s[..2] + "AA")[..1])
    else None
  }

  /** Decoding: None for text that is not a sequence of 4-character groups
      of which only the last may be padded, with zero padding bits. */
  function Decode(s: string): (r: Option<seq<byte>>)
  {
    if |s| == 0 then Some([])
    else if |s| % 4 != 0 then None
    else if |s| == 4 then DecodeFinal(s)
    else if !AllAlphabet(s[..4]) then None
    else match Decode(s[4..])
      case None => None
      case Some(rest) => Some(DecodeQuantum(s[..4]) + rest)
  }

  lemma ValueOfDigit(v: nat)
    requires v < 64
    ensures Value(Digit(v)) == v
  {
  }

  /** A full group decodes to the three bytes it was made from. */
  lemma QuantumRoundTrip(b0: byte, b1: byte, b2: byte)
    ensures DecodeQuantum(EncodeQuantum(b0, b1, b2)) == [b0, b1, b2]
  {
    var v0, v1, v2, v3 := b0 / 4, b0 % 4 * 16 + b1 / 16, b1 % 16 * 4 + b2 / 64, b2 % 64;
    ValueOfDigit(v0);
    ValueOfDigit(v1);
    ValueOfDigit(v2);
    ValueOfDigit(v3);
    assert v1 / 16 == b0 % 4 && v1 % 16 == b1 / 16;
    assert v2 / 4 == b1 % 16 && v2 % 4 == b2 / 64;
    assert v0 * 4 + v1 / 16 == b0;
    assert v1 % 16 * 16 + v2 / 4 == b1;
    assert v2 % 4 * 64 + v3 == b2;
  }

  /** Zero bytes at the end of a group encode as 'A' characters, which is
      why the padded forms decode by putting 'A' back in place of '='. */
  lemma PaddedQuantum(b0: byte, b1: byte)
    ensures EncodeQuantum(b0, b1, 0)[3] == 'A'
    ensures b1 == 0 ==> EncodeQuantum(b0, b1, 0)[2] == 'A'
  {
  }

  /** One byte encodes as two characters and "==", which decode back to it. */
  lemma RoundTripOne(b0: byte)
    ensures Decode(Encode([b0])) == Some([b0])
  {
    var s, q := Encode([b0]), EncodeQuantum(b0, 0, 0);
    PaddedQuantum(b0, 0);
    QuantumRoundTrip(b0, 0, 0);
    assert !IsAlphabetChar(s[2]);
    assert !AllAlphabet(s[..3]);
    assert s[..2] == q[..2] && AllAlphabet(s[..2]) && s[2..] == "==";
    ValueOfDigit(b0 % 4 * 16);
    assert Value(s[1]) % 16 == 0;
    assert s[..2] + "AA" == q;
    assert |s| == 4 && Decode(s) == DecodeFinal(s);
    assert DecodeFinal(s) == Some(DecodeQuantum(q)[..1]);
    assert [b0, 0, 0][..1] == [b0];
  }

  /** Two bytes encode as three characters and "=", which decode back to them. */
  lemma RoundTripTwo(b0: byte, b1: byte)
    ensures Decode(Encode([b0, b1])) == Some([b0, b1])
  {
    var s, q := Encode([b0, b1]), EncodeQuantum(b0, b1, 0);
    PaddedQuantum(b0, b1);
    QuantumRoundTrip(b0, b1, 0);
    assert !IsAlphabetChar(s[3]);
    assert s[..3] == q[..3] && AllAlphabet(s[..3]);
    ValueOfDigit(b1 % 16 * 4);
    assert Value(s[2]) % 4 == 0;
    assert s[..3] + "A" == q;
    assert |s| == 4 && Decode(s) == DecodeFinal(s);
    assert DecodeFinal(s) == Some(DecodeQuantum(q)[..2]);
    assert [b0, b1, 0][..2] == [b0, b1];
  }

  /** Decodable text comes in groups of four characters. */
  lemma DecodeLength(t: string)
    requires Decode(t).Some?
    ensures |t| % 4 == 0
  {
  }

  /** One step of `Decode` on text longer than one group. */
  lemma DecodeUnfold(s: string, k: nat)
    requires |s| == 4 * k + 4 && k > 0 && AllAlphabet(s[..4])
    ensures Decode(s) == match Decode(s[4..])
      case None => None
      case Some(rest) => Some(DecodeQuantum(s[..4]) + rest)
  {
    assert |s| % 4 == 0 && |s| != 0 && |s| != 4;
  }

  /** A full group in front of decodable text decodes on its own. */
  lemma DecodeGroupThenRest(q: string, t: string)
    requires |q| == 4 && AllAlphabet(q)
    requires |t| > 0 && Decode(t).Some?
    ensures Decode(q + t) == Some(DecodeQuantum(q) + Decode(t).value)
  {
    var s := q + t;
    assert s[..4] == q && s[4..] == t;
    DecodeLength(t);
    DecodeUnfold(s, |t| / 4);
  }

  lemma EncodeGroup(b: seq<byte>)
    requires |b| >= 3
    ensures Encode(b) == EncodeQuantum(b[0], b[1], b[2]) + Encode(b[3..])
  {
    assert !(|b| == 0 || |b| == 1 || |b| == 2);
  }

  /** Three bytes encode as one unpadded group. */
  lemma RoundTripThree(b: seq<byte>)
    requires |b| == 3
    ensures Decode(Encode(b)) == Some(b)
  {
    var q := EncodeQuantum(b[0], b[1], b[2]);
    EncodeGroup(b);
    QuantumRoundTrip(b[0], b[1], b[2]);
    assert Encode(b) == q;
    assert Decode(q) == DecodeFinal(q) == Some(DecodeQuantum(q));
    assert b == [b[0], b[1], b[2]];
  }

  /** A leading full group decodes ahead of the rest. */
  lemma RoundTripGroup(b: seq<byte>)
    requires |b| > 3
    requires Decode(Encode(b[3..])) == Some(b[3..])
    ensures Decode(Encode(b)) == Some(b)
  {
    var q, t := EncodeQuantum(b[0], b[1], b[2]), Encode(b[3..]);
    EncodeGroup(b);
    assert |t| > 0;
    DecodeGroupThenRest(q, t);
    assert Decode(Encode(b)) == Some(DecodeQuantum(q) + b[3..]);
    QuantumRoundTrip(b[0], b[1], b[2]);
    FirstThree(b);
  }

  lemma FirstThree(b: seq<byte>)
    requires |b| >= 3
    ensures [b[0], b[1], b[2]] + b[3..] == b
  {
  }

  /** Decoding undoes encoding, so the encoding is injective. */
  lemma {:induction false} RoundTrip(b: seq<byte>)
    ensures Decode(Encode(b)) == Some(b)
  {
    if |b| == 1 {
      assert b == [b[0]];
      RoundTripOne(b[0]);
    } else if |b| == 2 {
      assert b == [b[0], b[1]];
      RoundTripTwo(b[0], b[1]);
    } else if |b| == 3 {
      RoundTripThree(b);
    } else if |b| > 3 {
      RoundTrip(b[3..]);
      RoundTripGroup(b);
    }
  }

  lemma DigitOfValue(c: char)
    requires IsAlphabetChar(c)
    ensures Digit(Value(c)) == c
  {
  }

  /** Four alphabet characters are the encoding of the bytes they decode to. */
  lemma QuantumCanonical(q: string)
    requires |q| == 4 && AllAlphabet(q)
    ensures var b := DecodeQuantum(q); EncodeQuantum(b[0], b[1], b[2]) == q
  {
    var v0, v1, v2, v3 := Value(q[0]), Value(q[1]), Value(q[2]), Value(q[3]);
    var b := DecodeQuantum(q);
    assert b[0] / 4 == v0 && b[0] % 4 == v1 / 16;
    assert b[1] / 16 == v1 % 16 && b[1] % 16 == v2 / 4;
    assert b[2] / 64 == v2 % 4 && b[2] % 64 == v3;
    assert b[0] % 4 * 16 + b[1] / 16 == v1;
    assert b[1] % 16 * 4 + b[2] / 64 == v2;
    DigitOfValue(q[0]);
    DigitOfValue(q[1]);
    DigitOfValue(q[2]);
    DigitOfValue(q[3]);
  }

  /** A last group that decodes is the encoding of what it decodes to. */
  lemma FinalCanonical(s: string)
    requires |s| == 4 && DecodeFinal(s).Some?
    ensures s == Encode(DecodeFinal(s).value)
  {
    if AllAlphabet(s) {
      var b := DecodeQuantum(s);
      QuantumCanonical(s);
      EncodeGroup(b);
      assert b[3..] == [];
    } else if AllAlphabet(s[..3]) && s[3] == '=' && Value(s[2]) % 4 == 0 {
      var q := s[..3] + "A";
      assert AllAlphabet(q) by {
        assert q[..3] == s[..3];
      }
      var b := DecodeQuantum(q);
      QuantumCanonical(q);
      assert b[2] == 0;
      assert Encode(b[..2]) == EncodeQuantum(b[0], b[1], 0)[..3] + "=";
      assert EncodeQuantum(b[0], b[1], 0)[..3] == s[..3];
      assert s == s[..3] + "=";
    } else {
      var q := s[..2] + "AA";
      assert AllAlphabet(q) by {
        assert q[..2] == s[..2];
      }
      var b := DecodeQuantum(q);
      QuantumCanonical(q);
      assert b[1] == 0 && b[2] == 0;
      assert Encode(b[..1]) == EncodeQuantum(b[0], 0, 0)[..2] + "==";
      assert EncodeQuantum(b[0], 0, 0)[..2] == s[..2];
      assert s == s[..2] + "==";
    }
  }

  /** Text that decodes is exactly the encoding of what it decodes to, so
      `Encode` is the only text that decodes to a given byte sequence. */
  lemma {:induction false} DecodeCanonical(s: string, b: seq<byte>)
    requires Decode(s) == Some(b)
    ensures s == Encode(b)
  {
    if |s| == 4 {
      FinalCanonical(s);
    } else if |s| > 4 {
      var q, t := s[..4], s[4..];
      var rest := Decode(t).value;
      DecodeCanonical(t, rest);
      DecodeUnfold(s, |t| / 4);
      assert b == DecodeQuantum(q) + rest;
      assert rest != [];
      QuantumCanonical(q);
      EncodeGroup(b);
      assert b[..3] == DecodeQuantum(q) && b[3..] == rest;
      assert s == q + t;
    }
  }

  /** A text decodes to a byte sequence exactly when it is that sequence's
      encoding. */
  lemma DecodesExactly(s: string, b: seq<byte>)
    ensures Decode(s) == Some(b) <==> s == Encode(b)
  {
    RoundTrip(b);
    if Decode(s) == Some(b) {
      DecodeCanonical(s, b);
    }
  }

  /** Encoded text never holds a line break or a colon, so it can stand as
      a field of the newline-separated string-to-sign and after the colon
      of the authorization value. */
  lemma NoSeparators(b: seq<byte>)
    ensures '\n' !in Encode(b) && ':' !in Encode(b)
  {
  }
}
