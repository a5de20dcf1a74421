/** `fmt.Sprintf("%x", digest)` on a byte array: two lower-case hexadecimal
    digits per byte, most significant nibble first, no separators. `Unhex` is
    its inverse, so the encoding loses nothing. */
module HexEncoding {
  import opened GoValues

  /** '0'..'9' are bytes 48..57, 'a'..'f' are bytes 97..102. */
  predicate IsLowerHexDigit(c: byte) {
    48 <= c <= 57 || 97 <= c <= 102
  }

  function Digit(n: int): (c: byte)
    requires 0 <= n < 16
    ensures IsLowerHexDigit(c)
  {
    if n < 10 then (48 + n) as byte else (87 + n) as byte
  }

  function DigitValue(c: byte): (n: int)
    requires IsLowerHexDigit(c)
    ensures 0 <= n < 16
  {
    if c <= 57 then c as int - 48 else c as int - 87
  }

  lemma DigitValueOfDigit(n: int)
    requires 0 <= n < 16
    ensures DigitValue(Digit(n)) == n
  {
  }

  function Hex(bs: seq<byte>): (r: GoString)
    ensures |r| == 2 * |bs|
    ensures forall i :: 0 <= i < |r| ==> IsLowerHexDigit(r[i])
  {
    if bs == [] then []
    else [Digit(bs[0] as int / 16), Digit(bs[0] as int % 16)] + Hex(bs[1..])
  }

  /** Reads back a string of an even number of lower-case hex digits. */
  function Unhex(s: GoString): (r: Option<seq<byte>>)
    ensures r.Some? ==> 2 * |r.value| == |s|
    decreases |s|
  {
    if s == [] then Some([])
    else if |s| == 1 || !IsLowerHexDigit(s[0]) || !IsLowerHexDigit(s[1]) then None
    else
      match Unhex(s[2..])
      case None => None
      case Some(rest) => Some([(16 * DigitValue(s[0]) + DigitValue(s[1])) as byte] + rest)
  }

  lemma {:induction false} HexRoundTrip(bs: seq<byte>)
    ensures Unhex(Hex(bs)) == Some(bs)
  {
    if bs != [] {
      var hi, lo := bs[0] as int / 16, bs[0] as int % 16;
      var h := Hex(bs);
      assert h == [Digit(hi), Digit(lo)] + Hex(bs[1..]);
      assert h[2..] == Hex(bs[1..]);
      HexRoundTrip(bs[1..]);
      DigitValueOfDigit(hi);
      DigitValueOfDigit(lo);
      assert (16 * hi + lo) as byte == bs[0];
      assert [bs[0]] + bs[1..] == bs;
    }
  }

  /** Distinct byte strings have distinct hex encodings. */
  lemma HexInjective(a: seq<byte>, b: seq<byte>)
    ensures Hex(a) == Hex(b) <==> a == b
  {
    HexRoundTrip(a);
    HexRoundTrip(b);
  }
}
