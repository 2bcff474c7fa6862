/** Base-16 text as the `hex` crate reads and writes it: `hex::encode` writes two lower-case
    digits per byte, `hex::decode` accepts upper- and lower-case digits, rejects an odd length
    before looking at any digit, and otherwise reports the first character that is not a digit. */
module Hex {
  import opened Wrappers

  newtype byte = x: int | 0 <= x < 256

  datatype FromHexError = OddLength | InvalidHexCharacter(c: char, index: nat)

  /** The value of a hexadecimal digit of either case, or `None` for any other character. */
  function DigitValue(c: char): (v: Option<nat>)
    ensures v.Some? ==> v.value < 16
  {
    if '0' <= c <= '9' then Some(c as int - '0' as int)
    else if 'a' <= c <= 'f' then Some(c as int - 'a' as int + 10)
    else if 'A' <= c <= 'F' then Some(c as int - 'A' as int + 10)
    else None
  }

  predicate IsHexDigit(c: char) {
    DigitValue(c).Some?
  }

  /** The lower-case digit for a value below 16. */
  function Digit(n: nat): (c: char)
    requires n < 16
    ensures DigitValue(c) == Some(n)
    ensures !('A' <= c <= 'Z')
  {
    if n < 10 then ('0' as int + n) as char else ('a' as int + n - 10) as char
  }

  /** `hex::encode`: two lower-case digits per byte, high nibble first. */
  function Encode(bytes: seq<byte>): (s: string)
    ensures |s| == 2 * |bytes|
    ensures forall i :: 0 <= i < |s| ==> IsHexDigit(s[i]) && !('A' <= s[i] <= 'Z')
  {
    if bytes == [] then ""
    else [Digit(bytes[0] as nat / 16), Digit(bytes[0] as nat % 16)] + Encode(bytes[1..])
  }

  /** Decodes the digit pairs of `s`; `offset` is the index of `s[0]` in the whole input, used
      in the error the way the crate reports it. */
  function DecodePairs(s: string, offset: nat): (r: Result<seq<byte>, FromHexError>)
    requires |s| % 2 == 0
    ensures r.Ok? <==> forall i :: 0 <= i < |s| ==> IsHexDigit(s[i])
    ensures r.Ok? ==> 2 * |r.value| == |s|
    ensures r.Err? ==> exists i :: 0 <= i < |s| && r.error == InvalidHexCharacter(s[i], offset + i)
    decreases |s|
  {
    if s == [] then Ok([])
    else
      match (DigitValue(s[0]), DigitValue(s[1]))
      case (None, _) => Err(InvalidHexCharacter(s[0], offset))
      case (_, None) => Err(InvalidHexCharacter(s[1], offset + 1))
      case (Some(hi), Some(lo)) =>
        match DecodePairs(s[2..], offset + 2)
        case Err(e) => Err(e)
        case Ok(rest) => Ok([(hi * 16 + lo) as byte] + rest)
  }

  /** `hex::decode`. */
  function Decode(s: string): (r: Result<seq<byte>, FromHexError>)
    ensures r.Ok? <==> |s| % 2 == 0 && forall i :: 0 <= i < |s| ==> IsHexDigit(s[i])
    ensures r.Ok? ==> 2 * |r.value| == |s|
    ensures |s| % 2 == 1 ==> r == Err(OddLength)
  {
    if |s| % 2 != 0 then Err(OddLength) else DecodePairs(s, 0)
  }

  lemma {:induction false} DecodePairsEncode(bytes: seq<byte>, offset: nat)
    ensures DecodePairs(Encode(bytes), offset) == Ok(bytes)
  {
    if bytes != [] {
      var s := Encode(bytes);
      assert s[2..] == Encode(bytes[1..]);
      DecodePairsEncode(bytes[1..], offset + 2);
      var b := bytes[0] as nat;
      assert (b / 16) * 16 + b % 16 == b;
      assert [bytes[0]] + bytes[1..] == bytes;
    }
  }

  /** Decoding undoes encoding: every byte string survives the trip through hex text. */
  lemma DecodeEncode(bytes: seq<byte>)
    ensures Decode(Encode(bytes)) == Ok(bytes)
  {
    var s := Encode(bytes);
    assert |s| % 2 == 0 by { assert |s| == 2 * |bytes|; }
    DecodePairsEncode(bytes, 0);
    assert Decode(s) == DecodePairs(s, 0);
  }

  /** Replacing one digit by another of the same value, that is by its other case, changes
      nothing that decoding yields. */
  lemma {:induction false} DecodePairsSameDigit(s: string, offset: nat, i: nat, c: char)
    requires |s| % 2 == 0 && i < |s| && IsHexDigit(s[i]) && DigitValue(c) == DigitValue(s[i])
    ensures DecodePairs(s[i := c], offset) == DecodePairs(s, offset)
    decreases |s|
  {
    var t := s[i := c];
    if i >= 2 {
      assert t[2..] == s[2..][i - 2 := c];
      DecodePairsSameDigit(s[2..], offset + 2, i - 2, c);
    } else {
      assert t[2..] == s[2..];
    }
  }

  /** `hex::decode` reads a digit the same in either case. */
  lemma DecodeSameDigit(s: string, i: nat, c: char)
    requires i < |s| && IsHexDigit(s[i]) && DigitValue(c) == DigitValue(s[i])
    ensures Decode(s[i := c]) == Decode(s)
  {
    if |s| % 2 == 0 {
      DecodePairsSameDigit(s, 0, i, c);
    }
  }
}
