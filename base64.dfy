/**
 * Base64 with the standard alphabet and padding (section 4 of RFC 4648), the encoding that
 * `general_purpose::STANDARD` of the `base64` crate implements and src/encryption.rs uses
 * for nonces, ciphertexts and wrapped keys.
 *
 * Decoding is canonical, as that engine is configured: the input length is a multiple of
 * four, `=` appears only as the one or two final characters, and the padding bits of the
 * last sextet before the padding are zero. Under these rules `Decode` is the exact inverse
 * of `Encode`: it accepts precisely the strings `Encode` produces (lemmas `DecodeEncode`
 * and `EncodeDecode`).
 */
module Base64 {
  import opened Errors

  type Sextet = x: int | 0 <= x < 64

  const Pad: char := '='

  /** The character of the standard alphabet for a 6-bit value. */
  function Letter(v: Sextet): (c: char)
    ensures c != Pad
  {
    if v < 26 then (65 + v) as char
    else if v < 52 then (97 + v - 26) as char
    else if v < 62 then (48 + v - 52) as char
    else if v == 62 then '+'
    else '/'
  }

  /** The 6-bit value of a character of the alphabet; `None` for every other character. */
  function SextetOf(c: char): (r: Option<Sextet>)
    ensures r.Some? ==> Letter(r.value) == c
    ensures c == Pad ==> r == None
  {
    if 'A' <= c <= 'Z' then Some(c as int - 65)
    else if 'a' <= c <= 'z' then Some(c as int - 97 + 26)
    else if '0' <= c <= '9' then Some(c as int - 48 + 52)
    else if c == '+' then Some(62)
    else if c == '/' then Some(63)
    else None
  }

  lemma SextetOfLetter(v: Sextet)
    ensures SextetOf(Letter(v)) == Some(v)
  {
  }

  // ----- encoding -----

  /** Three bytes as four characters. */
  function EncodeBlock(a: Byte, b: Byte, c: Byte): string {
    [Letter(a / 4), Letter((a % 4) * 16 + b / 16), Letter((b % 16) * 4 + c / 64), Letter(c % 64)]
  }

  /** The final two bytes of an input whose length is 2 modulo 3. */
  function EncodeTail2(a: Byte, b: Byte): string {
    [Letter(a / 4), Letter((a % 4) * 16 + b / 16), Letter((b % 16) * 4), Pad]
  }

  /** The final byte of an input whose length is 1 modulo 3. */
  function EncodeTail1(a: Byte): string {
    [Letter(a / 4), Letter((a % 4) * 16), Pad, Pad]
  }

  function Encode(b: Bytes): (s: string)
    ensures |s| == 4 * ((|b| + 2) / 3)
    decreases |b|
  {
    if |b| == 0 then ""
    else if |b| == 1 then EncodeTail1(b[0])
    else if |b| == 2 then EncodeTail2(b[0], b[1])
    else EncodeBlock(b[0], b[1], b[2]) + Encode(b[3..])
  }

  // ----- decoding -----

  /** Four sextets as three bytes. */
  function Join3(v0: Sextet, v1: Sextet, v2: Sextet, v3: Sextet): (r: Bytes)
    ensures |r| == 3
  {
    var a: Byte := v0 * 4 + v1 / 16;
    var b: Byte := (v1 % 16) * 16 + v2 / 4;
    var c: Byte := (v2 % 4) * 64 + v3;
    [a, b, c]
  }

  /** Three sextets as the two bytes of a block that ends in one `=`. */
  function Join2(v0: Sextet, v1: Sextet, v2: Sextet): (r: Bytes)
    ensures |r| == 2
  {
    var a: Byte := v0 * 4 + v1 / 16;
    var b: Byte := (v1 % 16) * 16 + v2 / 4;
    [a, b]
  }

  /** Two sextets as the one byte of a block that ends in `==`. */
  function Join1(v0: Sextet, v1: Sextet): (r: Bytes)
    ensures |r| == 1
  {
    var a: Byte := v0 * 4 + v1 / 16;
    [a]
  }

  /** Four alphabet characters as three bytes. */
  function DecodeBlock(c0: char, c1: char, c2: char, c3: char): Option<Bytes> {
    match (SextetOf(c0), SextetOf(c1), SextetOf(c2), SextetOf(c3))
    case (Some(v0), Some(v1), Some(v2), Some(v3)) => Some(Join3(v0, v1, v2, v3))
    case _ => None
  }

  /**
   * The last four characters, which may end in one or two `=`; the bits that the padding
   * drops must be zero.
   */
  function DecodeFinal(c0: char, c1: char, c2: char, c3: char): Option<Bytes> {
    if c2 == Pad && c3 == Pad then
      match (SextetOf(c0), SextetOf(c1))
      case (Some(v0), Some(v1)) => if v1 % 16 == 0 then Some(Join1(v0, v1)) else None
      case _ => None
    else if c3 == Pad then
      match (SextetOf(c0), SextetOf(c1), SextetOf(c2))
      case (Some(v0), Some(v1), Some(v2)) => if v2 % 4 == 0 then Some(Join2(v0, v1, v2)) else None
      case _ => None
    else
      DecodeBlock(c0, c1, c2, c3)
  }

  function Decode(s: string): (r: Option<Bytes>)
    ensures r.Some? ==> |s| % 4 == 0
    decreases |s|
  {
    if |s| == 0 then Some([])
    else if |s| < 4 then None
    else if |s| == 4 then DecodeFinal(s[0], s[1], s[2], s[3])
    else
      match DecodeBlock(s[0], s[1], s[2], s[3])
      case None => None
      case Some(head) =>
        match Decode(s[4..])
        case None => None
        case Some(tail) => Some(head + tail)
  }

  // ----- round trips -----

  lemma DivMod4(q: int, r: int)
    requires 0 <= r < 4
    ensures (q * 4 + r) / 4 == q && (q * 4 + r) % 4 == r
  {
  }

  lemma DivMod16(q: int, r: int)
    requires 0 <= r < 16
    ensures (q * 16 + r) / 16 == q && (q * 16 + r) % 16 == r
  {
  }

  lemma DivMod64(q: int, r: int)
    requires 0 <= r < 64
    ensures (q * 64 + r) / 64 == q && (q * 64 + r) % 64 == r
  {
  }

  /** Splitting a byte triple into sextets and joining them again gives the triple back. */
  lemma BlockRoundTrip(a: Byte, b: Byte, c: Byte)
    ensures var e := EncodeBlock(a, b, c); DecodeBlock(e[0], e[1], e[2], e[3]) == Some([a, b, c])
  {
    var v0, v1, v2, v3 := a / 4, (a % 4) * 16 + b / 16, (b % 16) * 4 + c / 64, c % 64;
    SextetOfLetter(v0);
    SextetOfLetter(v1);
    SextetOfLetter(v2);
    SextetOfLetter(v3);
    DivMod16(a % 4, b / 16);
    DivMod4(b % 16, c / 64);
    assert Join3(v0, v1, v2, v3) == [a, b, c];
  }

  lemma Tail2RoundTrip(a: Byte, b: Byte)
    ensures var e := EncodeTail2(a, b); DecodeFinal(e[0], e[1], e[2], e[3]) == Some([a, b])
  {
    var v0, v1, v2 := a / 4, (a % 4) * 16 + b / 16, (b % 16) * 4;
    SextetOfLetter(v0);
    SextetOfLetter(v1);
    SextetOfLetter(v2);
    DivMod16(a % 4, b / 16);
    DivMod4(b % 16, 0);
    assert Join2(v0, v1, v2) == [a, b];
  }

  lemma Tail1RoundTrip(a: Byte)
    ensures var e := EncodeTail1(a); DecodeFinal(e[0], e[1], e[2], e[3]) == Some([a])
  {
    var v0, v1 := a / 4, (a % 4) * 16;
    SextetOfLetter(v0);
    SextetOfLetter(v1);
    DivMod16(a % 4, 0);
    assert Join1(v0, v1) == [a];
  }

  /** Joining sextets into bytes and splitting them again gives the sextets back. */
  lemma JoinSplit3(v0: Sextet, v1: Sextet, v2: Sextet, v3: Sextet)
    ensures var d := Join3(v0, v1, v2, v3); EncodeBlock(d[0], d[1], d[2]) == [Letter(v0), Letter(v1), Letter(v2), Letter(v3)]
  {
    DivMod4(v0, v1 / 16);
    DivMod16(v1 % 16, v2 / 4);
    DivMod64(v2 % 4, v3);
  }

  lemma JoinSplit2(v0: Sextet, v1: Sextet, v2: Sextet)
    requires v2 % 4 == 0
    ensures var d := Join2(v0, v1, v2); EncodeTail2(d[0], d[1]) == [Letter(v0), Letter(v1), Letter(v2), Pad]
  {
    DivMod4(v0, v1 / 16);
    DivMod16(v1 % 16, v2 / 4);
  }

  lemma JoinSplit1(v0: Sextet, v1: Sextet)
    requires v1 % 16 == 0
    ensures var d := Join1(v0, v1); EncodeTail1(d[0]) == [Letter(v0), Letter(v1), Pad, Pad]
  {
    DivMod4(v0, v1 / 16);
  }

  /** One step of `Decode` on an input longer than one block. */
  lemma DecodeStep(s: string, head: Bytes, tail: Bytes)
    requires |s| > 4
    requires DecodeBlock(s[0], s[1], s[2], s[3]) == Some(head)
    requires Decode(s[4..]) == Some(tail)
    ensures Decode(s) == Some(head + tail)
  {
  }

  /** One step of `Encode` on an input longer than three bytes. */
  lemma EncodeStep(b: Bytes)
    requires |b| > 3
    ensures var e := EncodeBlock(b[0], b[1], b[2]);
      Encode(b) == e + Encode(b[3..]) && |Encode(b[3..])| >= 4
  {
  }

  /** `Decode` on exactly one block. */
  lemma DecodeOne(s: string)
    requires |s| == 4
    ensures Decode(s) == DecodeFinal(s[0], s[1], s[2], s[3])
  {
  }

  lemma DecodeEncode1(b: Bytes)
    requires |b| == 1
    ensures Decode(Encode(b)) == Some(b)
  {
    var e := EncodeTail1(b[0]);
    assert Encode(b) == e;
    DecodeOne(e);
    Tail1RoundTrip(b[0]);
    assert b == [b[0]];
  }

  lemma DecodeEncode2(b: Bytes)
    requires |b| == 2
    ensures Decode(Encode(b)) == Some(b)
  {
    var e := EncodeTail2(b[0], b[1]);
    assert Encode(b) == e;
    DecodeOne(e);
    Tail2RoundTrip(b[0], b[1]);
    assert b == [b[0], b[1]];
  }

  lemma DecodeEncode3(b: Bytes)
    requires |b| == 3
    ensures Decode(Encode(b)) == Some(b)
  {
    var e := EncodeBlock(b[0], b[1], b[2]);
    assert Encode(b) == e + Encode([]);
    assert Encode(b) == e;
    DecodeOne(e);
    BlockRoundTrip(b[0], b[1], b[2]);
    assert b == [b[0], b[1], b[2]];
  }

  /** The round trip for inputs of at most one block. */
  lemma DecodeEncodeShort(b: Bytes)
    requires |b| <= 3
    ensures Decode(Encode(b)) == Some(b)
  {
    if |b| == 1 {
      DecodeEncode1(b);
    } else if |b| == 2 {
      DecodeEncode2(b);
    } else if |b| == 3 {
      DecodeEncode3(b);
    }
  }

  /** Decoding undoes encoding, for every byte string. */
  lemma {:induction false} DecodeEncode(b: Bytes)
    ensures Decode(Encode(b)) == Some(b)
    decreases |b|
  {
    if |b| <= 3 {
      DecodeEncodeShort(b);
    } else {
      var e := EncodeBlock(b[0], b[1], b[2]);
      var s := Encode(b);
      EncodeStep(b);
      BlockRoundTrip(b[0], b[1], b[2]);
      assert s[..4] == e;
      assert s[4..] == Encode(b[3..]);
      DecodeEncode(b[3..]);
      DecodeStep(s, [b[0], b[1], b[2]], b[3..]);
      assert b == [b[0], b[1], b[2]] + b[3..];
    }
  }

  lemma BlockCanonical(c0: char, c1: char, c2: char, c3: char)
    requires DecodeBlock(c0, c1, c2, c3).Some?
    ensures var d := DecodeBlock(c0, c1, c2, c3).value;
      |d| == 3 && EncodeBlock(d[0], d[1], d[2]) == [c0, c1, c2, c3]
  {
    JoinSplit3(SextetOf(c0).value, SextetOf(c1).value, SextetOf(c2).value, SextetOf(c3).value);
  }

  lemma FinalCanonical(c0: char, c1: char, c2: char, c3: char)
    requires DecodeFinal(c0, c1, c2, c3).Some?
    ensures var d := DecodeFinal(c0, c1, c2, c3).value;
      1 <= |d| <= 3 && Encode(d) == [c0, c1, c2, c3]
  {
    var d := DecodeFinal(c0, c1, c2, c3).value;
    if c2 == Pad && c3 == Pad {
      JoinSplit1(SextetOf(c0).value, SextetOf(c1).value);
    } else if c3 == Pad {
      JoinSplit2(SextetOf(c0).value, SextetOf(c1).value, SextetOf(c2).value);
    } else {
      BlockCanonical(c0, c1, c2, c3);
      assert d[3..] == [];
    }
  }

  /** `Decode` on an input longer than one block, in the case where it succeeds. */
  lemma DecodeSplit(s: string)
    requires |s| > 4 && Decode(s).Some?
    ensures DecodeBlock(s[0], s[1], s[2], s[3]).Some? && Decode(s[4..]).Some?
    ensures Decode(s).value == DecodeBlock(s[0], s[1], s[2], s[3]).value + Decode(s[4..]).value
  {
  }

  /** Encoding a block followed by a nonempty rest. */
  lemma EncodeJoin(head: Bytes, tail: Bytes)
    requires |head| == 3 && |tail| > 0
    ensures Encode(head + tail) == EncodeBlock(head[0], head[1], head[2]) + Encode(tail)
  {
    var d := head + tail;
    assert d[0] == head[0] && d[1] == head[1] && d[2] == head[2] && d[3..] == tail;
  }

  /** Decoding accepts only canonical encodings: whatever it accepts re-encodes to the input. */
  lemma {:induction false} EncodeDecode(s: string)
    requires Decode(s).Some?
    ensures Encode(Decode(s).value) == s
    decreases |s|
  {
    if |s| == 0 {
    } else if |s| == 4 {
      FinalCanonical(s[0], s[1], s[2], s[3]);
      assert s == [s[0], s[1], s[2], s[3]];
    } else {
      DecodeSplit(s);
      var head := DecodeBlock(s[0], s[1], s[2], s[3]).value;
      var tail := Decode(s[4..]).value;
      BlockCanonical(s[0], s[1], s[2], s[3]);
      EncodeDecode(s[4..]);
      assert |tail| > 0;
      EncodeJoin(head, tail);
      assert s == [s[0], s[1], s[2], s[3]] + s[4..];
    }
  }

  /** The two round trips together: `Decode` is exactly the inverse of `Encode`. */
  lemma DecodeIffEncode(s: string, b: Bytes)
    ensures Decode(s) == Some(b) <==> Encode(b) == s
  {
    if Decode(s) == Some(b) {
      EncodeDecode(s);
    }
    if Encode(b) == s {
      DecodeEncode(b);
    }
  }
}
