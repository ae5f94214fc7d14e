/**
 * Buffer hex encoding, `buf.toString('hex')`: two lower-case hex digits per
 * byte, high nibble first. `Unhex` is a reference decoder for exactly that
 * alphabet; the two are proved mutually inverse, so the encoding is injective.
 */
module HexEncoding {
  import opened Wrappers

  newtype byte = x: int | 0 <= x < 256

  /** The lower-case hex digit of a nibble. */
  function HexDigit(k: nat): char
    requires k < 16
  {
    if k < 10 then ('0' as int + k) as char else ('a' as int + k - 10) as char
  }

  predicate IsHexDigit(c: char) {
    '0' <= c <= '9' || 'a' <= c <= 'f'
  }

  function HexByte(b: byte): string {
    [HexDigit(b as int / 16), HexDigit(b as int % 16)]
  }

  /** `toString('hex')` of a Buffer holding bs. */
  function Hex(bs: seq<byte>): (r: string)
    ensures |r| == 2 * |bs|
    ensures forall i :: 0 <= i < |r| ==> IsHexDigit(r[i])
  {
    if bs == [] then "" else HexByte(bs[0]) + Hex(bs[1..])
  }

  /** The value of a lower-case hex digit. */
  function DigitValue(c: char): (r: Option<nat>)
    ensures r.Some? <==> IsHexDigit(c)
    ensures r.Some? ==> r.value < 16 && HexDigit(r.value) == c
  {
    if '0' <= c <= '9' then Some(c as nat - '0' as nat)
    else if 'a' <= c <= 'f' then Some(c as nat - 'a' as nat + 10)
    else None
  }

  /** Decodes a string of lower-case hex digit pairs; anything else is rejected. */
  function Unhex(s: string): (r: Option<seq<byte>>)
    ensures r.Some? ==> |s| == 2 * |r.value|
  {
    if s == [] then Some([])
    else if |s| < 2 then None
    else match (DigitValue(s[0]), DigitValue(s[1]), Unhex(s[2..]))
      case (Some(hi), Some(lo), Some(rest)) => Some([(hi * 16 + lo) as byte] + rest)
      case _ => None
  }

  lemma HexByteDecodes(b: byte)
    ensures DigitValue(HexByte(b)[0]) == Some(b as nat / 16)
    ensures DigitValue(HexByte(b)[1]) == Some(b as nat % 16)
  {
  }

  /** Decoding an encoding gives back the bytes. */
  lemma {:induction false} UnhexHex(bs: seq<byte>)
    ensures Unhex(Hex(bs)) == Some(bs)
  {
    if bs != [] {
      var s := Hex(bs);
      assert s[..2] == HexByte(bs[0]) && s[2..] == Hex(bs[1..]);
      HexByteDecodes(bs[0]);
      UnhexHex(bs[1..]);
      assert [bs[0]] + bs[1..] == bs;
    }
  }

  /** Encoding a decoded string gives back the string. */
  lemma {:induction false} HexUnhex(s: string)
    requires Unhex(s).Some?
    ensures Hex(Unhex(s).value) == s
  {
    if s != [] {
      var hi, lo := DigitValue(s[0]).value, DigitValue(s[1]).value;
      var b := (hi * 16 + lo) as byte;
      HexUnhex(s[2..]);
      assert Unhex(s).value == [b] + Unhex(s[2..]).value;
      assert HexByte(b) == s[..2];
      assert s == s[..2] + s[2..];
    }
  }

  /** Distinct byte strings have distinct hex encodings. */
  lemma HexInjective(a: seq<byte>, b: seq<byte>)
    requires Hex(a) == Hex(b)
    ensures a == b
  {
    UnhexHex(a);
    UnhexHex(b);
  }
}
