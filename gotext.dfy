/** Go's string and byte-slice primitives that the core relies on, stated in
    Dafny's terms: a Go `string` whose code points are iterated is a
    `seq<char>`, its bytes (`[]byte(s)`) are its UTF-8 encoding. */
module GoText {

  newtype byte = x: int | 0 <= x < 256

  /** A value or nothing: Go's nil-able results and `error` returns. */
  datatype Option<+T> = None | Some(value: T)

  /** Go's `(value, error)` pair with exactly one side meaningful. */
  datatype Result<+T, +E> = Ok(value: T) | Err(error: E)

  type Bytes = seq<byte>

  /** `strings.HasPrefix`: a raw comparison of leading characters. */
  predicate HasPrefix<T(==)>(s: seq<T>, prefix: seq<T>)
  {
    |prefix| <= |s| && s[..|prefix|] == prefix
  }

  /** The UTF-8 encoding of one Unicode scalar value (1 to 4 bytes). */
  function EncodeRune(c: char): (b: Bytes)
    ensures 1 <= |b| <= 4
    ensures |b| == 1 <==> c as int < 0x80
    ensures |b| == 1 ==> b[0] as int == c as int
    ensures 0x800 <= c as int < 0x1_0000 ==> |b| == 3
  {
    var v := c as int;
    if v < 0x80 then [v as byte]
    else if v < 0x800 then [(0xC0 + v / 64) as byte, (0x80 + v % 64) as byte]
    else if v < 0x1_0000 then
      [(0xE0 + v / 4096) as byte, (0x80 + (v / 64) % 64) as byte, (0x80 + v % 64) as byte]
    else
      [(0xF0 + v / 262144) as byte, (0x80 + (v / 4096) % 64) as byte,
       (0x80 + (v / 64) % 64) as byte, (0x80 + v % 64) as byte]
  }

  /** `[]byte(s)`: the bytes of a Go string holding valid UTF-8. */
  function Utf8(s: string): (b: Bytes)
    ensures |s| <= |b| <= 4 * |s|
  {
    if |s| == 0 then [] else EncodeRune(s[0]) + Utf8(s[1..])
  }

  lemma Utf8Single(c: char)
    ensures Utf8([c]) == EncodeRune(c)
  {
    assert [c][1..] == [];
  }

  lemma {:induction false} Utf8Append(s: string, t: string)
    ensures Utf8(s + t) == Utf8(s) + Utf8(t)
  {
    if |s| == 0 {
      assert s + t == t;
    } else {
      assert (s + t)[0] == s[0];
      assert (s + t)[1..] == s[1..] + t;
      Utf8Append(s[1..], t);
      var e := EncodeRune(s[0]);
      assert Utf8(s + t) == e + (Utf8(s[1..]) + Utf8(t));
      assert e + (Utf8(s[1..]) + Utf8(t)) == (e + Utf8(s[1..])) + Utf8(t);
    }
  }

  /** A string of code points below 0x80 encodes to one byte per code point,
      with the byte equal to the code point. */
  lemma {:induction false} Utf8Ascii(s: string)
    requires forall k :: 0 <= k < |s| ==> s[k] as int < 0x80
    ensures |Utf8(s)| == |s|
    ensures forall k :: 0 <= k < |s| ==> Utf8(s)[k] as int == s[k] as int
  {
    if |s| > 0 {
      Utf8Ascii(s[1..]);
      var rest := Utf8(s[1..]);
      assert Utf8(s) == [EncodeRune(s[0])[0]] + rest;
      forall k | 1 <= k < |s|
        ensures Utf8(s)[k] as int == s[k] as int
      {
        assert Utf8(s)[k] == rest[k - 1];
        assert s[1..][k - 1] == s[k];
      }
    }
  }

  /** A decimal digit, for rendering integers. */
  function DigitChar(d: int): (c: char)
    requires 0 <= d < 10
    ensures '0' <= c <= '9' && c as int - '0' as int == d
  {
    ('0' as int + d) as char
  }

  /** The decimal rendering of a natural number, as `%d` prints it. */
  function NatToDecimal(n: nat): (s: string)
    ensures |s| >= 1
    ensures forall k :: 0 <= k < |s| ==> '0' <= s[k] <= '9'
    ensures n < 10 <==> |s| == 1
    decreases n
  {
    if n < 10 then [DigitChar(n)] else NatToDecimal(n / 10) + [DigitChar(n % 10)]
  }

  /** The value a string of decimal digits denotes. */
  function DecimalValue(s: string): (n: nat)
    requires forall k :: 0 <= k < |s| ==> '0' <= s[k] <= '9'
  {
    if |s| == 0 then 0
    else 10 * DecimalValue(s[..|s| - 1]) + (s[|s| - 1] as int - '0' as int)
  }

  /** Rendering in decimal is lossless: the digits read back as the number. */
  lemma {:induction false} NatToDecimalRoundTrip(n: nat)
    ensures DecimalValue(NatToDecimal(n)) == n
    decreases n
  {
    if n >= 10 {
      var s := NatToDecimal(n);
      assert s[..|s| - 1] == NatToDecimal(n / 10);
      NatToDecimalRoundTrip(n / 10);
    }
  }

  /** `%d` of a Go int: a leading '-' for negative values. */
  function IntToDecimal(i: int): (s: string)
    ensures |s| >= 1
    ensures i < 0 <==> s[0] == '-'
  {
    if i < 0 then "-" + NatToDecimal(-i) else NatToDecimal(i)
  }

  /** The lower-case hexadecimal digit of a nibble. */
  function HexDigit(d: int): (c: char)
    requires 0 <= d < 16
  {
    if d < 10 then ('0' as int + d) as char else ('a' as int + d - 10) as char
  }

  /** The nibble a lower-case hexadecimal digit denotes (16 for a non-digit). */
  function HexValue(c: char): (d: int)
    ensures 0 <= d <= 16
  {
    if '0' <= c <= '9' then c as int - '0' as int
    else if 'a' <= c <= 'f' then c as int - 'a' as int + 10
    else 16
  }

  /** `hex.EncodeToString`: two lower-case digits per byte, high nibble first. */
  function HexEncode(b: Bytes): (s: string)
    ensures |s| == 2 * |b|
    ensures forall k :: 0 <= k < |s| ==> HexValue(s[k]) < 16
  {
    if |b| == 0 then []
    else HexEncode(b[..|b| - 1]) + [HexDigit(b[|b| - 1] as int / 16), HexDigit(b[|b| - 1] as int % 16)]
  }

  /** Reads back a string produced by HexEncode, two digits per byte from
      the end (a stray leading digit or a non-digit reads as some byte;
      HexRoundTrip only needs what HexEncode produces). */
  function HexDecode(s: string): Bytes
  {
    if |s| < 2 then []
    else HexDecode(s[..|s| - 2]) + [((16 * HexValue(s[|s| - 2]) + HexValue(s[|s| - 1])) % 256) as byte]
  }

  lemma HexDigitValue(d: int)
    requires 0 <= d < 16
    ensures HexValue(HexDigit(d)) == d
  {
  }

  lemma HexEncodeSnoc(b: Bytes, x: byte)
    ensures HexEncode(b + [x]) == HexEncode(b) + [HexDigit(x as int / 16), HexDigit(x as int % 16)]
  {
    assert (b + [x])[..|b|] == b;
  }

  lemma HexDecodeSnoc(s: string, hi: char, lo: char)
    ensures HexDecode(s + [hi, lo]) == HexDecode(s) + [((16 * HexValue(hi) + HexValue(lo)) % 256) as byte]
  {
    var u := s + [hi, lo];
    assert u[..|u| - 2] == s;
    assert u[|u| - 2] == hi && u[|u| - 1] == lo;
    assert HexDecode(u) == HexDecode(u[..|u| - 2])
      + [((16 * HexValue(u[|u| - 2]) + HexValue(u[|u| - 1])) % 256) as byte];
  }

  lemma Nibbles(x: byte)
    ensures ((16 * (x as int / 16) + x as int % 16) % 256) as byte == x
  {
  }

  /** Decoding the two digits of one more byte appends that byte. */
  lemma HexByteRoundTrip(e: string, x: byte)
    ensures HexDecode(e + [HexDigit(x as int / 16), HexDigit(x as int % 16)]) == HexDecode(e) + [x]
  {
    var hi, lo := HexDigit(x as int / 16), HexDigit(x as int % 16);
    HexDecodeSnoc(e, hi, lo);
    HexDigitValue(x as int / 16);
    HexDigitValue(x as int % 16);
    Nibbles(x);
  }

  /** Hex encoding loses nothing, so two checksums are equal exactly when the
      digests they render are equal. */
  lemma {:induction false} HexRoundTrip(b: Bytes)
    ensures HexDecode(HexEncode(b)) == b
  {
    if |b| > 0 {
      var p, x := b[..|b| - 1], b[|b| - 1];
      assert b == p + [x];
      HexEncodeSnoc(p, x);
      HexByteRoundTrip(HexEncode(p), x);
      HexRoundTrip(p);
    }
  }

  lemma HexEncodeInjective(a: Bytes, b: Bytes)
    requires HexEncode(a) == HexEncode(b)
    ensures a == b
  {
    HexRoundTrip(a);
    HexRoundTrip(b);
  }
}
