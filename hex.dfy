/**
 * Lower-case hexadecimal rendering of a byte string, as Go's `%x` verb prints
 * a `[]byte`: two digits per byte, most significant nibble first, `a`-`f`.
 */
module HexFormat {
  import opened Wrappers

  newtype byte = x: int | 0 <= x < 256

  /** The output of HMAC-SHA256: always 32 bytes. */
  type Digest = s: seq<byte> | |s| == 32 witness seq(32, _ => 0)

  const DIGITS: string := "0123456789abcdef"

  predicate IsLowerHex(c: char) {
    '0' <= c <= '9' || 'a' <= c <= 'f'
  }

  function Digit(n: int): (c: char)
    requires 0 <= n < 16
    ensures IsLowerHex(c)
  {
    DIGITS[n]
  }

  /** The value of one lower-case hex digit; upper case is not what `%x` writes. */
  function DigitValue(c: char): (r: Option<int>)
    ensures r.Some? <==> IsLowerHex(c)
    ensures r.Some? ==> 0 <= r.value < 16 && Digit(r.value) == c
  {
    if '0' <= c <= '9' then Some(c as int - '0' as int)
    else if 'a' <= c <= 'f' then Some(c as int - 'a' as int + 10)
    else None
  }

  /** `fmt.Sprintf("%x", bs)`. */
  function Hex(bs: seq<byte>): (r: string)
    ensures |r| == 2 * |bs|
    ensures forall i :: 0 <= i < |r| ==> IsLowerHex(r[i])
  {
    if bs == [] then ""
    else [Digit(bs[0] as int / 16), Digit(bs[0] as int % 16)] + Hex(bs[1..])
  }

  /** Reads back what `Hex` writes; `None` for odd length or a character outside `[0-9a-f]`. */
  function UnHex(s: string): (r: Option<seq<byte>>)
    ensures r.Some? ==> 2 * |r.value| == |s|
  {
    if s == [] then Some([])
    else if |s| == 1 then None
    else
      match (DigitValue(s[0]), DigitValue(s[1]), UnHex(s[2..]))
      case (Some(hi), Some(lo), Some(rest)) => Some([(hi * 16 + lo) as byte] + rest)
      case _ => None
  }

  /** A digest renders as exactly 64 lower-case hex characters. */
  lemma DigestHexShape(d: Digest)
    ensures |Hex(d)| == 64
    ensures forall i :: 0 <= i < 64 ==> Hex(d)[i] in DIGITS
  {
  }

  /** `UnHex` inverts `Hex`: the hex text determines the bytes. */
  lemma {:induction false} UnHexHex(bs: seq<byte>)
    ensures UnHex(Hex(bs)) == Some(bs)
  {
    if bs != [] {
      var b := bs[0] as int;
      assert Hex(bs) == [Digit(b / 16), Digit(b % 16)] + Hex(bs[1..]);
      UnHexCons(b / 16, b % 16, Hex(bs[1..]));
      UnHexHex(bs[1..]);
      NibblesOfByte(bs[0]);
      assert [bs[0]] + bs[1..] == bs;
    }
  }

  /** Two digits in front of `rest` read as one byte in front of what `rest` reads as. */
  lemma UnHexCons(hi: int, lo: int, rest: string)
    requires 0 <= hi < 16 && 0 <= lo < 16
    ensures UnHex(rest).Some? ==> UnHex([Digit(hi), Digit(lo)] + rest) == Some([(hi * 16 + lo) as byte] + UnHex(rest).value)
  {
    var s := [Digit(hi), Digit(lo)] + rest;
    assert s[2..] == rest;
    DigitValueOfDigit(hi);
    DigitValueOfDigit(lo);
  }

  lemma NibblesOfByte(x: byte)
    ensures ((x as int / 16) * 16 + x as int % 16) as byte == x
  {
  }

  lemma DigitValueOfDigit(n: int)
    requires 0 <= n < 16
    ensures DigitValue(Digit(n)) == Some(n)
  {
  }

  /** No hex rendering contains the query separators `&` or `=`. */
  lemma HexHasNoSeparators(bs: seq<byte>)
    ensures '&' !in Hex(bs) && '=' !in Hex(bs)
  {
  }
}
