/** Value types shared by every layer of the model: bytes, Go's nil-or-value
    results and Go's `error` values. */
module Base {

  /** One octet, as in Go's `byte`. */
  newtype byte = x: int | 0 <= x < 256

  /** A Go `[]byte` that is not nil. */
  type Bytes = seq<byte>

  /** A Go pointer or slice that may be nil. */
  datatype Option<+T> = None | Some(value: T)

  /** A Go `error`: only its `Error()` text is observable. */
  datatype Error = Error(message: string)

  /** The `(value, error)` pair a Go function returns: `Fail` stands for a
      non-nil error (the value is then nil), `Ok` for a nil error. */
  datatype Result<+T> = Ok(value: T) | Fail(error: Error)

  /** Go's `[]byte(s)` for a string whose characters are all ASCII: UTF-8
      encodes each of them as the one byte with the same code. */
  function AsciiBytes(s: string): (b: Bytes)
    requires forall i :: 0 <= i < |s| ==> s[i] as int < 128
    ensures |b| == |s|
    ensures forall i :: 0 <= i < |s| ==> b[i] as int == s[i] as int
  {
    seq(|s|, i requires 0 <= i < |s| => s[i] as int as byte)
  }

  /** Every character is a decimal digit. */
  predicate AllDigits(r: string) {
    forall i :: 0 <= i < |r| ==> '0' <= r[i] <= '9'
  }

  /** The number a string of decimal digits stands for, most significant
      digit first. */
  function DigitsValue(r: string): nat
    requires AllDigits(r)
  {
    if r == [] then 0 else DigitsValue(r[..|r| - 1]) * 10 + (r[|r| - 1] as int - '0' as int)
  }

  /** `fmt.Sprintf("%v", n)` for an integer: the decimal digits of its
      magnitude without leading zeros, after a minus sign when it is
      negative. */
  function Decimal(n: int): (r: string)
    ensures |r| > 0
    ensures (r[0] == '-') <==> n < 0
    ensures var mag := if n < 0 then r[1..] else r;
      && |mag| > 0 && AllDigits(mag)
      && DigitsValue(mag) == (if n < 0 then -n else n)
      && (|mag| > 1 ==> mag[0] != '0')
  {
    if n < 0 then "-" + Digits(-n) else Digits(n)
  }

  /** The decimal digits of a natural number, most significant first, with
      no leading zero. */
  function Digits(n: nat): (r: string)
    ensures |r| > 0 && AllDigits(r)
    ensures DigitsValue(r) == n
    ensures (r[0] == '0') <==> n == 0
    ensures |r| > 1 ==> r[0] != '0'
    decreases n
  {
    var last := [('0' as int + n % 10) as char];
    if n < 10 then last
    else
      var high := Digits(n / 10);
      assert (high + last)[..|high|] == high;
      high + last
  }
}
