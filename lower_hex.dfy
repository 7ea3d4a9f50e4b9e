/**
 * Lowercase hexadecimal formatting of a byte string, two digits per byte, which is what
 * `format!("{:x}", digest)` produces for the SHA-256 output in `hash_sha256`
 * (src/encryption.rs:331-335).
 */
module LowerHex {
  import opened Errors

  type Nibble = x: int | 0 <= x < 16

  predicate IsLowerHexDigit(c: char) {
    '0' <= c <= '9' || 'a' <= c <= 'f'
  }

  function Digit(v: Nibble): (c: char)
    ensures IsLowerHexDigit(c)
  {
    if v < 10 then (48 + v) as char else (97 + v - 10) as char
  }

  function DigitValue(c: char): (r: Option<Nibble>)
    ensures r.Some? <==> IsLowerHexDigit(c)
    ensures r.Some? ==> Digit(r.value) == c
  {
    if '0' <= c <= '9' then Some(c as int - 48)
    else if 'a' <= c <= 'f' then Some(c as int - 97 + 10)
    else None
  }

  function Format(b: Bytes): (s: string)
    ensures |s| == 2 * |b|
    ensures forall i | 0 <= i < |s| :: IsLowerHexDigit(s[i])
  {
    if b == [] then "" else [Digit(b[0] / 16), Digit(b[0] % 16)] + Format(b[1..])
  }

  /** Reads back the output of `Format`; `None` on an odd length or a non-digit. */
  function Parse(s: string): Option<Bytes>
    decreases |s|
  {
    if |s| == 0 then Some([])
    else if |s| == 1 then None
    else
      match (DigitValue(s[0]), DigitValue(s[1]), Parse(s[2..]))
      case (Some(hi), Some(lo), Some(rest)) =>
        var byte: Byte := hi as int * 16 + lo as int;
        Some([byte] + rest)
      case _ => None
  }

  /** Formatting loses nothing: every byte string is read back from its hex form. */
  lemma {:induction false} ParseFormat(b: Bytes)
    ensures Parse(Format(b)) == Some(b)
  {
    if b != [] {
      var s := Format(b);
      assert s[2..] == Format(b[1..]);
      assert DigitValue(Digit(b[0] / 16)) == Some(b[0] / 16);
      assert DigitValue(Digit(b[0] % 16)) == Some(b[0] % 16);
      ParseFormat(b[1..]);
      assert b == [b[0] / 16 * 16 + b[0] % 16] + b[1..];
    }
  }
}
