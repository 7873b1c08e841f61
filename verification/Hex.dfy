/**
  Hexadecimal text for byte strings: `Btox` and `Xtob` of pkg/utils/hex_string.go.
  Both delegate to Go's encoding/hex, whose pairwise decoding loop and error order are modelled here.
 */
module Hex {
  import opened Wrappers

  newtype byte = x: int | 0 <= x < 256
  type bytes = seq<byte>

  datatype HexError = InvalidByte(c: char) | OddLength

  /** Lower-case digit of a nibble. */
  function Digit(n: nat): char
    requires n < 16
  {
    if n < 10 then ('0' as int + n) as char else ('a' as int + n - 10) as char
  }

  predicate IsHexDigit(c: char) {
    '0' <= c <= '9' || 'a' <= c <= 'f' || 'A' <= c <= 'F'
  }

  function Nibble(c: char): nat
    requires IsHexDigit(c)
  {
    if c <= '9' then c as int - '0' as int
    else if 'a' <= c then c as int - 'a' as int + 10
    else c as int - 'A' as int + 10
  }

  function Lower(c: char): char {
    if 'A' <= c <= 'F' then (c as int + 32) as char else c
  }

  function LowerAll(s: string): string {
    seq(|s|, i requires 0 <= i < |s| => Lower(s[i]))
  }

  function Btox(b: bytes): (s: string)
    ensures |s| == 2 * |b|
  {
    if b == [] then "" else [Digit(b[0] as int / 16), Digit(b[0] as int % 16)] + Btox(b[1..])
  }

  function Xtob(s: string): Result<bytes, HexError> {
    if s == "" then Ok([])
    else if !IsHexDigit(s[0]) then Err(InvalidByte(s[0]))
    else if |s| == 1 then Err(OddLength)
    else if !IsHexDigit(s[1]) then Err(InvalidByte(s[1]))
    else
      match Xtob(s[2..])
      case Ok(rest) => Ok([(16 * Nibble(s[0]) + Nibble(s[1])) as byte] + rest)
      case Err(e) => Err(e)
  }

  /** The bytes of a Go string; its characters stand for its bytes. */
  function Bytes(s: string): (b: bytes)
    ensures |b| == |s|
  {
    seq(|s|, i requires 0 <= i < |s| => (s[i] as int % 256) as byte)
  }

  function Text(b: bytes): (s: string)
    ensures Bytes(s) == b
  {
    seq(|b|, i requires 0 <= i < |b| => b[i] as int as char)
  }

  /** Decoding undoes encoding, for every byte string. */
  lemma {:induction false} DecodeEncode(b: bytes)
    ensures Xtob(Btox(b)) == Ok(b)
  {
    if b == [] {
    } else {
      var hi, lo := b[0] as int / 16, b[0] as int % 16;
      DigitNibble(hi);
      DigitNibble(lo);
      assert Btox(b)[2..] == Btox(b[1..]);
      DecodeEncode(b[1..]);
      assert [b[0]] + b[1..] == b;
    }
  }

  lemma DigitNibble(n: nat)
    requires n < 16
    ensures IsHexDigit(Digit(n)) && Nibble(Digit(n)) == n
  {
  }

  /** Decoding succeeds exactly on even-length texts of hex digits, and re-encoding gives the lower-case text. */
  lemma {:induction false} EncodeDecode(s: string)
    ensures Xtob(s).Ok? <==> |s| % 2 == 0 && forall i :: 0 <= i < |s| ==> IsHexDigit(s[i])
    ensures Xtob(s).Ok? ==> Btox(Xtob(s).value) == LowerAll(s)
  {
    if |s| >= 2 {
      EncodeDecode(s[2..]);
      assert forall i :: 2 <= i < |s| ==> s[i] == s[2..][i - 2];
      if Xtob(s).Ok? {
        var b := Xtob(s).value;
        NibbleDigit(s[0]);
        NibbleDigit(s[1]);
        assert b[1..] == Xtob(s[2..]).value;
        assert LowerAll(s) == [Lower(s[0]), Lower(s[1])] + LowerAll(s[2..]);
      }
    }
  }

  lemma NibbleDigit(c: char)
    requires IsHexDigit(c)
    ensures Nibble(c) < 16 && Digit(Nibble(c)) == Lower(c)
  {
  }
}
