/**
 * Base 64 encoding as defined in section 4 of RFC 4648, the browser's
 * `atob`, and the service's `decodeBase64`, which copies the character codes
 * of `atob`'s binary string into a `Uint8Array`.
 */
module Base64 {
  import opened Wrappers
  import opened Bytes

  /** A character of the 64-character alphabet of Table 1 of RFC 4648. */
  predicate IsAlphabetChar(c: char) {
    ('A' <= c <= 'Z') || ('a' <= c <= 'z') || ('0' <= c <= '9') || c == '+' || c == '/'
  }

  /** The 6-bit value a character of the alphabet encodes. */
  function DecodeSextet(c: char): (v: int)
    requires IsAlphabetChar(c)
    ensures 0 <= v < 64
  {
    if 'A' <= c <= 'Z' then c as int - 'A' as int
    else if 'a' <= c <= 'z' then c as int - 'a' as int + 26
    else if '0' <= c <= '9' then c as int - '0' as int + 52
    else if c == '+' then 62
    else 63
  }

  /** The alphabet character for a 6-bit value; `DecodeSextet` reads it back. */
  function EncodeSextet(v: int): (c: char)
    requires 0 <= v < 64
    ensures IsAlphabetChar(c) && DecodeSextet(c) == v
  {
    if v < 26 then ('A' as int + v) as char
    else if v < 52 then ('a' as int + (v - 26)) as char
    else if v < 62 then ('0' as int + (v - 52)) as char
    else if v == 62 then '+'
    else '/'
  }

  /** The alphabet and the 6-bit values are in one-to-one correspondence. */
  lemma SextetBijection(c: char)
    requires IsAlphabetChar(c)
    ensures EncodeSextet(DecodeSextet(c)) == c
  {
  }

  /** A full 24-bit group: three bytes become four characters. */
  function EncodeGroup3(b0: byte, b1: byte, b2: byte): string {
    [EncodeSextet(b0 as int / 4), EncodeSextet((b0 as int % 4) * 16 + b1 as int / 16),
     EncodeSextet((b1 as int % 16) * 4 + b2 as int / 64), EncodeSextet(b2 as int % 64)]
  }

  /** A final group of 16 bits: two characters, one zero-padded character and one "=". */
  function EncodeGroup2(b0: byte, b1: byte): string {
    [EncodeSextet(b0 as int / 4), EncodeSextet((b0 as int % 4) * 16 + b1 as int / 16),
     EncodeSextet((b1 as int % 16) * 4), '=']
  }

  /** A final group of 8 bits: one character, one zero-padded character and "==". */
  function EncodeGroup1(b0: byte): string {
    [EncodeSextet(b0 as int / 4), EncodeSextet((b0 as int % 4) * 16), '=', '=']
  }

  /** Base 64 encoding with padding (section 4 of RFC 4648). */
  function Encode(b: seq<byte>): (s: string)
    ensures |s| == 4 * ((|b| + 2) / 3)
    decreases |b|
  {
    if |b| == 0 then ""
    else if |b| == 1 then EncodeGroup1(b[0])
    else if |b| == 2 then EncodeGroup2(b[0], b[1])
    else EncodeGroup3(b[0], b[1], b[2]) + Encode(b[3..])
  }

  /** The three bytes that four 6-bit values carry. */
  function Join(d0: int, d1: int, d2: int, d3: int): seq<byte>
    requires 0 <= d0 < 64 && 0 <= d1 < 64 && 0 <= d2 < 64 && 0 <= d3 < 64
  {
    [(d0 * 4 + d1 / 16) as byte, ((d1 % 16) * 16 + d2 / 4) as byte, ((d2 % 4) * 64 + d3) as byte]
  }

  /**
   * One 4-character quantum: four alphabet characters give three bytes; when
   * it is the last quantum, "x y z =" gives two bytes and "x y = =" one.
   * Whatever else is not valid base 64. Bits below the padding are discarded
   * without being checked, as `atob` does.
   */
  function DecodeQuantum(q: string, isLast: bool): (r: Option<seq<byte>>)
    requires |q| == 4
    ensures r.Some? ==> 1 <= |r.value| <= 3 && (!isLast ==> |r.value| == 3)
  {
    if IsAlphabetChar(q[0]) && IsAlphabetChar(q[1]) then
      var d0, d1 := DecodeSextet(q[0]), DecodeSextet(q[1]);
      if IsAlphabetChar(q[2]) && IsAlphabetChar(q[3]) then
        Some(Join(d0, d1, DecodeSextet(q[2]), DecodeSextet(q[3])))
      else if isLast && IsAlphabetChar(q[2]) && q[3] == '=' then
        Some(Join(d0, d1, DecodeSextet(q[2]), 0)[..2])
      else if isLast && q[2] == '=' && q[3] == '=' then
        Some(Join(d0, d1, 0, 0)[..1])
      else None
    else None
  }

  /**
   * Base 64 decoding: `None` for any text that is not a padded base 64
   * encoding. Four characters carry three bytes, less at most two for the
   * padding of the last quantum.
   */
  function Decode(s: string): (r: Option<seq<byte>>)
    ensures r.Some? ==> 4 * |r.value| <= 3 * |s| <= 4 * |r.value| + 8
    decreases |s|
  {
    if |s| == 0 then Some([])
    else if |s| < 4 then None
    else
      match DecodeQuantum(s[..4], |s| == 4)
      case None => None
      case Some(q) =>
        match Decode(s[4..])
        case None => None
        case Some(rest) => Some(q + rest)
  }

  lemma Group3RoundTrip(b0: byte, b1: byte, b2: byte, isLast: bool)
    ensures DecodeQuantum(EncodeGroup3(b0, b1, b2), isLast) == Some([b0, b1, b2])
  {
    var q := EncodeGroup3(b0, b1, b2);
    var d0, d1 := b0 as int / 4, (b0 as int % 4) * 16 + b1 as int / 16;
    var d2, d3 := (b1 as int % 16) * 4 + b2 as int / 64, b2 as int % 64;
    assert DecodeSextet(q[0]) == d0 && DecodeSextet(q[1]) == d1;
    assert DecodeSextet(q[2]) == d2 && DecodeSextet(q[3]) == d3;
    assert d1 / 16 == b0 as int % 4 && d1 % 16 == b1 as int / 16;
    assert d2 / 4 == b1 as int % 16 && d2 % 4 == b2 as int / 64;
    assert Join(d0, d1, d2, d3) == [b0, b1, b2];
  }

  lemma Group2RoundTrip(b0: byte, b1: byte)
    ensures DecodeQuantum(EncodeGroup2(b0, b1), true) == Some([b0, b1])
  {
    var q := EncodeGroup2(b0, b1);
    var d0, d1, d2 := b0 as int / 4, (b0 as int % 4) * 16 + b1 as int / 16, (b1 as int % 16) * 4;
    assert DecodeSextet(q[0]) == d0 && DecodeSextet(q[1]) == d1 && DecodeSextet(q[2]) == d2;
    assert !IsAlphabetChar(q[3]) && q[3] == '=';
    assert d1 / 16 == b0 as int % 4 && d1 % 16 == b1 as int / 16 && d2 / 4 == b1 as int % 16;
    assert Join(d0, d1, d2, 0)[..2] == [b0, b1];
  }

  lemma Group1RoundTrip(b0: byte)
    ensures DecodeQuantum(EncodeGroup1(b0), true) == Some([b0])
  {
    var q := EncodeGroup1(b0);
    var d0, d1 := b0 as int / 4, (b0 as int % 4) * 16;
    assert DecodeSextet(q[0]) == d0 && DecodeSextet(q[1]) == d1;
    assert !IsAlphabetChar(q[2]) && q[2] == '=' && q[3] == '=';
    assert d1 / 16 == b0 as int % 4;
    assert Join(d0, d1, 0, 0)[..1] == [b0];
  }

  /** Decoding undoes encoding, for every byte sequence including the empty one. */
  lemma {:induction false} DecodeEncode(b: seq<byte>)
    ensures Decode(Encode(b)) == Some(b)
    decreases |b|
  {
    if |b| == 0 {
    } else if |b| <= 2 {
      DecodeFinalGroup(b);
    } else {
      DecodeEncode(b[3..]);
      DecodeFullGroup(b);
    }
  }

  /** A one- or two-byte input is one padded quantum, which decodes back to it. */
  lemma {:induction false} DecodeFinalGroup(b: seq<byte>)
    requires 1 <= |b| <= 2
    ensures Decode(Encode(b)) == Some(b)
  {
    var s := Encode(b);
    assert s[..4] == s && s[4..] == "";
    if |b| == 1 {
      Group1RoundTrip(b[0]);
      assert DecodeQuantum(s[..4], true) == Some([b[0]]);
      assert [b[0]] + [] == b;
    } else {
      Group2RoundTrip(b[0], b[1]);
      assert DecodeQuantum(s[..4], true) == Some([b[0], b[1]]);
      assert [b[0], b[1]] + [] == b;
    }
  }

  /** A full leading group decodes back to its three bytes, ahead of whatever the rest decodes to. */
  lemma {:induction false} DecodeFullGroup(b: seq<byte>)
    requires |b| >= 3 && Decode(Encode(b[3..])) == Some(b[3..])
    ensures Decode(Encode(b)) == Some(b)
  {
    EncodeFullGroup(b);
    var s := Encode(b);
    Group3RoundTrip(b[0], b[1], b[2], |s| == 4);
    FirstThree(b);
    DecodeFirstQuantum(s, b[..3], b[3..]);
  }

  lemma FirstThree(b: seq<byte>)
    requires |b| >= 3
    ensures b[..3] == [b[0], b[1], b[2]] && b[..3] + b[3..] == b
  {
    assert b[..3] + b[3..] == b;
  }

  /** Three or more bytes encode as the first group's four characters followed by the rest's encoding. */
  lemma EncodeFullGroup(b: seq<byte>)
    requires |b| >= 3
    ensures var s := Encode(b);
      |s| >= 4 && s[..4] == EncodeGroup3(b[0], b[1], b[2]) && s[4..] == Encode(b[3..])
  {
    var s, head := Encode(b), EncodeGroup3(b[0], b[1], b[2]);
    assert s == head + Encode(b[3..]);
  }

  /** Decoding a text is decoding its first quantum, then the rest. */
  lemma DecodeFirstQuantum(s: string, q: seq<byte>, rest: seq<byte>)
    requires |s| >= 4 && DecodeQuantum(s[..4], |s| == 4) == Some(q) && Decode(s[4..]) == Some(rest)
    ensures Decode(s) == Some(q + rest)
  {
  }

  /** Text whose length is not a multiple of four is rejected. */
  lemma {:induction false} DecodeRejectsLength(s: string)
    requires |s| % 4 != 0
    ensures Decode(s) == None
    decreases |s|
  {
    if |s| >= 4 {
      DecodeRejectsLength(s[4..]);
    }
  }

  /** Text holding a character that is neither in the alphabet nor "=" is rejected. */
  lemma {:induction false} DecodeRejectsForeignChar(s: string, i: nat)
    requires i < |s| && !IsAlphabetChar(s[i]) && s[i] != '='
    ensures Decode(s) == None
    decreases |s|
  {
    if |s| >= 4 && i >= 4 {
      DecodeRejectsForeignChar(s[4..], i - 4);
    }
  }

  /**
   * `atob`: the "binary string" whose i-th character has the code of the
   * i-th decoded byte, or `None` where the browser throws `InvalidCharacterError`.
   */
  function Atob(s: string): (r: Option<string>)
    ensures r.Some? <==> Decode(s).Some?
    ensures r.Some? ==> |r.value| == |Decode(s).value|
    ensures r.Some? ==> forall i :: 0 <= i < |r.value| ==> r.value[i] as int == Decode(s).value[i] as int
  {
    match Decode(s)
    case None => None
    case Some(b) => Some(seq(|b|, i requires 0 <= i < |b| => b[i] as int as char))
  }

  /**
   * `decodeBase64`: runs `atob` and copies each character code into a new
   * byte array of the same length. `None` is the `atob` exception.
   */
  method DecodeBase64(base64: string) returns (r: Option<array<byte>>)
    ensures r.None? <==> Decode(base64).None?
    ensures r.Some? ==> Decode(base64) == Some(r.value[..])
  {
    var binaryString := Atob(base64);
    if binaryString.None? {
      return None;
    }
    var s := binaryString.value;
    var len := |s|;
    var bytes := new byte[len];
    for i := 0 to len
      invariant forall k :: 0 <= k < i ==> bytes[k] as int == s[k] as int
    {
      bytes[i] := ToUint8(s[i] as int);
    }
    assert bytes[..] == Decode(base64).value;
    return Some(bytes);
  }

  /** `decodeBase64` of an encoding gives back the encoded bytes. */
  method DecodeBase64OfEncoding(b: seq<byte>) returns (r: Option<array<byte>>)
    ensures r.Some? && r.value[..] == b
  {
    DecodeEncode(b);
    r := DecodeBase64(Encode(b));
  }
}
