/** The document store's object identifier: twelve bytes, shown to clients
    as the 24 lower-case hexadecimal digits that `ObjectID.Hex()` renders.
    How fresh identifiers are generated is not modelled: a fresh identifier
    is a parameter wherever the store assigns one. */
module ObjectIds {
  import opened Base

  type ObjectId = s: Bytes | |s| == 12 witness [0, 0, 0, 0, 0, 0, 0, 0, 0, 0, 0, 0]

  /** The zero value of an identifier, which an entity holds before the
      store assigns it one. */
  const NilObjectId: ObjectId := [0, 0, 0, 0, 0, 0, 0, 0, 0, 0, 0, 0]

  predicate IsHexDigit(c: char) {
    '0' <= c <= '9' || 'a' <= c <= 'f'
  }

  /** The lower-case hexadecimal digit of a nibble. */
  function HexDigit(n: nat): (c: char)
    requires n < 16
    ensures IsHexDigit(c)
    ensures DigitValue(c) == n
  {
    if n < 10 then ('0' as int + n) as char else ('a' as int + n - 10) as char
  }

  /** The nibble a hexadecimal digit stands for. */
  function DigitValue(c: char): (n: nat)
    requires IsHexDigit(c)
    ensures n < 16
  {
    if c <= '9' then c as int - '0' as int else c as int - 'a' as int + 10
  }

  predicate AllHexDigits(h: string) {
    forall i :: 0 <= i < |h| ==> IsHexDigit(h[i])
  }

  /** `hex.EncodeToString`: two digits per byte, high nibble first. */
  function HexEncode(s: Bytes): (h: string)
    ensures |h| == 2 * |s|
    ensures AllHexDigits(h)
  {
    if s == [] then ""
    else [HexDigit(s[0] as int / 16), HexDigit(s[0] as int % 16)] + HexEncode(s[1..])
  }

  /** The inverse of HexEncode, on strings of an even number of digits. */
  function HexDecode(h: string): (s: Bytes)
    requires |h| % 2 == 0 && AllHexDigits(h)
    ensures |s| == |h| / 2
  {
    if h == [] then []
    else [(DigitValue(h[0]) * 16 + DigitValue(h[1])) as byte] + HexDecode(h[2..])
  }

  /** Decoding the rendering gives the bytes back. */
  lemma {:induction false} HexRoundTrip(s: Bytes)
    ensures HexDecode(HexEncode(s)) == s
  {
    if s != [] {
      var h := HexEncode(s);
      assert h[2..] == HexEncode(s[1..]);
      HexRoundTrip(s[1..]);
      assert DigitValue(h[0]) * 16 + DigitValue(h[1]) == s[0] as int;
    }
  }

  /** `ObjectID.Hex()`. */
  function Hex(id: ObjectId): (h: string)
    ensures |h| == 24 && AllHexDigits(h)
  {
    HexEncode(id)
  }

  /** Distinct identifiers are rendered as distinct strings. */
  lemma HexInjective(a: ObjectId, b: ObjectId)
    ensures Hex(a) == Hex(b) <==> a == b
  {
    HexRoundTrip(a);
    HexRoundTrip(b);
  }
}
