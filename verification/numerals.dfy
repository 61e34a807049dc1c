/** Decimal text of Go integers: strconv.Itoa, strconv.Atoi, and the zero padding done
    by fmt's `%0Nd` verb and by `strings.Repeat("0", n-len(s)) + s`. */
module Numerals {
  import opened Wrappers
  import opened Text

  const Int64Min: int := -0x8000_0000_0000_0000
  const Int64Max: int := 0x7FFF_FFFF_FFFF_FFFF

  /** Go's `int` on the 64-bit targets the library is built for. */
  type Int64 = x: int | Int64Min <= x <= Int64Max

  predicate IsDigit(c: char) {
    '0' <= c <= '9'
  }

  predicate AllDigits(s: string) {
    forall i | 0 <= i < |s| :: IsDigit(s[i])
  }

  function DigitChar(d: nat): (c: char)
    requires d < 10
    ensures IsDigit(c)
    ensures c == '0' <==> d == 0
  {
    ('0' as int + d) as char
  }

  function DigitValue(c: char): (d: nat)
    requires IsDigit(c)
    ensures d < 10
  {
    c as int - '0' as int
  }

  function Pow10(k: nat): (p: nat)
    ensures p >= 1
  {
    if k == 0 then 1 else 10 * Pow10(k - 1)
  }

  /** The number a string of decimal digits denotes, most significant digit first. */
  function DigitsValue(s: string): nat
    requires AllDigits(s)
  {
    if |s| == 0 then 0 else 10 * DigitsValue(s[..|s| - 1]) + DigitValue(s[|s| - 1])
  }

  /** `s` is decimal digits that read as `n`. */
  predicate DigitsOf(s: string, n: nat) {
    AllDigits(s) && DigitsValue(s) == n
  }

  /** The canonical decimal digits of `n`: never empty, and no leading zero unless
      `n` is 0. Reading them back gives `n`. */
  function NatToDigits(n: nat): (s: string)
    ensures 1 <= |s| && AllDigits(s)
    ensures DigitsValue(s) == n
    ensures s[0] == '0' ==> n == 0 && s == "0"
  {
    if n < 10 then [DigitChar(n)]
    else
      var prefix := NatToDigits(n / 10);
      var s := prefix + [DigitChar(n % 10)];
      assert s[..|s| - 1] == prefix;
      s
  }

  /** strconv.Itoa: a '-' for negative numbers, then the canonical digits. */
  function Itoa(n: int): (s: string)
    ensures 1 <= |s|
  {
    if n < 0 then "-" + NatToDigits(-n) else NatToDigits(n)
  }

  /** The shape strconv.Atoi accepts in base 10: an optional '+' or '-' followed by
      at least one digit. */
  predicate SignedDigits(s: string) {
    if |s| > 0 && (s[0] == '+' || s[0] == '-') then 2 <= |s| && AllDigits(s[1..])
    else 1 <= |s| && AllDigits(s)
  }

  /** The value of text of the shape `SignedDigits`. */
  function SignedValue(s: string): int
    requires SignedDigits(s)
  {
    if s[0] == '-' then -(DigitsValue(s[1..]) as int)
    else if s[0] == '+' then DigitsValue(s[1..])
    else DigitsValue(s)
  }

  /** strconv.Atoi on a 64-bit target: the value of `s`, or None on a syntax error or
      when the value does not fit in 64 bits. */
  function Atoi(s: string): Option<int> {
    if SignedDigits(s) && Int64Min <= SignedValue(s) <= Int64Max then Some(SignedValue(s))
    else None
  }

  /** Whatever strconv.Itoa prints for a 64-bit integer, strconv.Atoi reads back. */
  lemma AtoiItoa(n: Int64)
    ensures Atoi(Itoa(n)) == Some(n)
  {
    if n < 0 {
      var d := NatToDigits(-(n as int));
      assert ("-" + d)[1..] == d;
    }
  }

  /** Left-pads `s` with '0' up to width `w`; text already that wide is kept. */
  function ZeroPad(s: string, w: nat): (r: string)
    ensures |r| == if |s| < w then w else |s|
    ensures r[|r| - |s|..] == s
  {
    if |s| < w then Repeat('0', w - |s|) + s else s
  }

  /** A number below 10^k has at most k digits. */
  lemma {:induction false} DigitCountBound(n: nat, k: nat)
    requires 1 <= k && n < Pow10(k)
    ensures |NatToDigits(n)| <= k
  {
    if n >= 10 {
      assert k != 1;
      assert n / 10 < Pow10(k - 1);
      DigitCountBound(n / 10, k - 1);
    }
  }

  /** A run of zeros denotes 0. */
  lemma {:induction false} ZerosValue(k: nat)
    ensures AllDigits(Repeat('0', k))
    ensures DigitsValue(Repeat('0', k)) == 0
  {
    if k > 0 {
      assert Repeat('0', k)[..k - 1] == Repeat('0', k - 1);
      ZerosValue(k - 1);
    }
  }

  /** Leading zeros do not change the value of a digit string. */
  lemma {:induction false} LeadingZeros(k: nat, s: string)
    requires AllDigits(s)
    ensures AllDigits(Repeat('0', k) + s)
    ensures DigitsValue(Repeat('0', k) + s) == DigitsValue(s)
    decreases |s|
  {
    var z := Repeat('0', k);
    var t := z + s;
    if |s| == 0 {
      assert t == z;
      ZerosValue(k);
    } else {
      assert t[..|t| - 1] == z + s[..|s| - 1];
      LeadingZeros(k, s[..|s| - 1]);
    }
  }

  /** Zero-padding the digits of a number below 10^w gives exactly w digits that read
      back as that number. */
  lemma FixedWidth(n: nat, w: nat)
    requires 1 <= w && n < Pow10(w)
    ensures |ZeroPad(Itoa(n), w)| == w
    ensures AllDigits(ZeroPad(Itoa(n), w))
    ensures DigitsValue(ZeroPad(Itoa(n), w)) == n
  {
    var d := NatToDigits(n);
    DigitCountBound(n, w);
    LeadingZeros(w - |d|, d);
    if |d| == w {
      assert ZeroPad(d, w) == d;
    }
  }

  /** A number below 100 as two digits: the `%02d`-style padding of Go's date
      layout elements "01", "02" and "06", and of the fractional part of the
      two-decimal text. */
  function TwoDigits(n: nat): string
    requires n < 100
  {
    ZeroPad(Itoa(n), 2)
  }

  /** strconv.FormatFloat(x, 'f', 2, 64) for x = hundredths / 100: a '-' for negative
      values, the integer part, '.', and exactly two fractional digits. */
  function TwoDecimals(hundredths: int): string {
    var magnitude := if hundredths < 0 then -hundredths else hundredths;
    (if hundredths < 0 then "-" else "") + Itoa(magnitude / 100) + "." + TwoDigits(magnitude % 100)
  }

  /** Digits as strconv prints them: at least one, and no leading zero unless the
      number is 0 itself. */
  predicate CanonicalDigits(d: string) {
    1 <= |d| && AllDigits(d) && (d[0] == '0' ==> |d| == 1)
  }

  /** `s` reads as a two-decimal number of the given sign and magnitude in hundredths:
      a '-' first when negative, then canonical integer digits, a '.' third from the
      end, and two fractional digits; the digits around the '.' read back as the
      magnitude. */
  predicate DecimalReading(s: string, negative: bool, magnitude: nat) {
    var sign := if negative then 1 else 0;
    && 3 + sign <= |s|
    && (negative ==> s[0] == '-')
    && s[|s| - 3] == '.'
    && CanonicalDigits(s[sign..|s| - 3]) && AllDigits(s[|s| - 2..])
    && DigitsValue(s[sign..|s| - 3]) * 100 + DigitsValue(s[|s| - 2..]) == magnitude
  }

  /** Where the parts of `pre + ip + "." + fp` end up. */
  lemma DecimalSlices(pre: string, ip: string, fp: string)
    requires |fp| == 2
    ensures var s := pre + ip + "." + fp;
      && |s| == |pre| + |ip| + 3 && s[|s| - 3] == '.'
      && s[|pre|..|s| - 3] == ip && s[|s| - 2..] == fp
      && (0 < |pre| ==> s[0] == pre[0])
  {
    var s := pre + ip + "." + fp;
    assert s[|pre|..|s| - 3] == ip;
    assert s[|s| - 2..] == fp;
  }

  /** A sign, canonical integer digits, '.', and two fractional digits read as the
      number they spell. */
  lemma DecimalLayout(negative: bool, ip: string, fp: string, magnitude: nat)
    requires |fp| == 2 && CanonicalDigits(ip) && AllDigits(fp)
    requires DigitsValue(ip) * 100 + DigitsValue(fp) == magnitude
    ensures DecimalReading((if negative then "-" else "") + ip + "." + fp, negative, magnitude)
  {
    DecimalSlices(if negative then "-" else "", ip, fp);
  }

  /** The two-decimal text reads back as the hundredths it was printed from. */
  lemma {:induction false} TwoDecimalsReadBack(hundredths: int)
    ensures DecimalReading(TwoDecimals(hundredths), hundredths < 0,
                           if hundredths < 0 then -hundredths else hundredths)
  {
    var m: nat := if hundredths < 0 then -hundredths else hundredths;
    var ip := NatToDigits(m / 100);
    var fp := TwoDigits(m % 100);
    assert TwoDecimals(hundredths) == (if hundredths < 0 then "-" else "") + ip + "." + fp;
    TwoDigitsReadBack(m % 100);
    assert m / 100 * 100 + m % 100 == m;
    DecimalLayout(hundredths < 0, ip, fp, m);
  }

  /** Two-decimal text always contains a '.'. */
  lemma TwoDecimalsHasPoint(hundredths: int)
    ensures '.' in TwoDecimals(hundredths)
  {
    TwoDecimalsReadBack(hundredths);
    var s := TwoDecimals(hundredths);
    assert s[|s| - 3] == '.';
  }

  /** Two-digit text is exactly two digits that read back as the number. */
  lemma TwoDigitsReadBack(n: nat)
    requires n < 100
    ensures |TwoDigits(n)| == 2 && AllDigits(TwoDigits(n))
    ensures DigitsValue(TwoDigits(n)) == n
  {
    assert Pow10(2) == 100;
    FixedWidth(n, 2);
  }
}
