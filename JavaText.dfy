/** Java integer widths and the string helpers the adapter calls
    (decimal rendering of an `int`, `StringUtils.leftPad`), together with the
    reading functions (`DecimalValue`, `Split`, `LastIndexOf`) used to state
    what the built strings mean. */
module JavaText {

  const INT_MIN: int := -0x8000_0000
  const INT_MAX: int := 0x7fff_ffff
  const LONG_MIN: int := -0x8000_0000_0000_0000
  const LONG_MAX: int := 0x7fff_ffff_ffff_ffff

  /** Values of a Java `int`. */
  type Int32 = x: int | INT_MIN <= x <= INT_MAX
  /** Values of a Java `long`; every `Int32` is one (widening keeps the value). */
  type Int64 = x: int | LONG_MIN <= x <= LONG_MAX

  predicate IsDigit(c: char) { '0' <= c <= '9' }

  predicate AllDigits(s: string) { forall i :: 0 <= i < |s| ==> IsDigit(s[i]) }

  /** The characters a rendered integer is made of. */
  predicate IsNumeralChar(c: char) { IsDigit(c) || c == '-' }

  predicate AllNumeral(s: string) { forall i :: 0 <= i < |s| ==> IsNumeralChar(s[i]) }

  /** A character that cannot appear in a rendered integer does not. */
  lemma NumeralLacks(s: string, c: char)
    requires AllNumeral(s) && !IsNumeralChar(c)
    ensures c !in s
  {
  }

  function DigitChar(d: nat): (c: char)
    requires d < 10
    ensures IsDigit(c) && c as int - '0' as int == d
  {
    ('0' as int + d) as char
  }

  /** Decimal text of a non-negative number, without leading zeros. */
  function NatToDecimal(n: nat): (s: string)
    ensures 1 <= |s| && AllDigits(s)
    ensures s[0] == '0' <==> n == 0
    ensures |s| == 1 <==> n < 10
    ensures |s| == 2 <==> 10 <= n < 100
  {
    if n < 10 then [DigitChar(n)] else NatToDecimal(n / 10) + [DigitChar(n % 10)]
  }

  /** The number a string of decimal digits denotes; leading zeros are allowed. */
  function DecimalValue(s: string): nat
    requires AllDigits(s)
  {
    if s == [] then 0 else DecimalValue(s[..|s| - 1]) * 10 + (s[|s| - 1] as int - '0' as int)
  }

  /** Reading back the decimal text of `n` gives `n`. */
  lemma {:induction false} DecimalRoundTrip(n: nat)
    ensures DecimalValue(NatToDecimal(n)) == n
  {
    if n >= 10 {
      var s := NatToDecimal(n);
      assert s[..|s| - 1] == NatToDecimal(n / 10);
      DecimalRoundTrip(n / 10);
    }
  }

  /** `String.valueOf(int)` and the `%d` conversion: digits, with a minus sign
      in front of a negative number. */
  function IntToDecimal(n: int): (s: string)
    ensures 1 <= |s|
    ensures AllNumeral(s)
    ensures n >= 0 ==> AllDigits(s) && DecimalValue(s) == n
    ensures n < 0 ==> s[0] == '-' && AllDigits(s[1..]) && DecimalValue(s[1..]) == -n
  {
    if n < 0 then
      DecimalRoundTrip(-n);
      var d := NatToDecimal(-n);
      assert ("-" + d)[1..] == d;
      "-" + d
    else
      DecimalRoundTrip(n);
      NatToDecimal(n)
  }

  /** Zeros put in front of a digit string do not change the number it denotes. */
  lemma {:induction false} LeadingZeroValue(s: string)
    requires AllDigits(s)
    ensures AllDigits("0" + s) && DecimalValue("0" + s) == DecimalValue(s)
  {
    var t := "0" + s;
    if s != [] {
      assert t[..|t| - 1] == "0" + s[..|s| - 1];
      LeadingZeroValue(s[..|s| - 1]);
    }
  }

  /** `n` copies of `c`. */
  function Repeat(c: char, n: nat): (r: string)
    ensures |r| == n && forall i :: 0 <= i < n ==> r[i] == c
  {
    if n == 0 then [] else [c] + Repeat(c, n - 1)
  }

  /** `StringUtils.leftPad(str, size, padChar)` for a non-null `str`: the string
      is padded on the left with `padChar` up to `size` characters, and a string
      that is already that long comes back unchanged. */
  function LeftPad(s: string, size: int, padChar: char): (r: string)
    ensures |r| == if |s| < size then size else |s|
    ensures r[|r| - |s|..] == s
    ensures forall i :: 0 <= i < |r| - |s| ==> r[i] == padChar
  {
    if size - |s| <= 0 then s else Repeat(padChar, size - |s|) + s
  }

  /** One more position of padding puts one more pad character in front. */
  lemma PadOneMore(s: string, size: int, padChar: char)
    requires size > |s|
    ensures LeftPad(s, size, padChar) == [padChar] + LeftPad(s, size - 1, padChar)
  {
    if size - 1 - |s| > 0 {
      assert Repeat(padChar, size - |s|) + s == [padChar] + (Repeat(padChar, size - 1 - |s|) + s);
    }
  }

  /** Padding with '0' keeps a rendered integer made of numeral characters. */
  lemma LeftPadKeepsNumeral(s: string, size: int)
    requires AllNumeral(s)
    ensures AllNumeral(LeftPad(s, size, '0'))
  {
    var r := LeftPad(s, size, '0');
    forall i | |r| - |s| <= i < |r| ensures IsNumeralChar(r[i]) {
      assert r[i] == r[|r| - |s|..][i - (|r| - |s|)];
    }
  }

  /** Padding a digit string with '0' keeps it a digit string denoting the same number. */
  lemma {:induction false} LeftPadValue(s: string, size: int)
    requires AllDigits(s)
    ensures AllDigits(LeftPad(s, size, '0'))
    ensures DecimalValue(LeftPad(s, size, '0')) == DecimalValue(s)
    decreases size - |s|
  {
    if size > |s| {
      var shorter := LeftPad(s, size - 1, '0');
      PadOneMore(s, size, '0');
      LeftPadValue(s, size - 1);
      LeadingZeroValue(shorter);
    }
  }

  /** The pieces of `s` between occurrences of `sep`, empty pieces included
      (what `String.split` returns with a negative limit). */
  function Split(s: string, sep: char): (parts: seq<string>)
    ensures |parts| >= 1
    ensures forall i :: 0 <= i < |parts| ==> sep !in parts[i]
  {
    if s == [] then [[]]
    else
      var rest := Split(s[1..], sep);
      if s[0] == sep then [[]] + rest else [[s[0]] + rest[0]] + rest[1..]
  }

  /** A string without the separator is one piece. */
  lemma {:induction false} SplitWithoutSeparator(a: string, sep: char)
    requires sep !in a
    ensures Split(a, sep) == [a]
  {
    if a != [] {
      assert sep !in a[1..];
      SplitWithoutSeparator(a[1..], sep);
      assert [a[0]] + a[1..] == a;
    }
  }

  /** Splitting after a separator-free prefix and one separator. */
  lemma {:induction false} SplitAfterPrefix(a: string, sep: char, b: string)
    requires sep !in a
    ensures Split(a + [sep] + b, sep) == [a] + Split(b, sep)
  {
    var s := a + [sep] + b;
    if a == [] {
      assert s[1..] == b;
    } else {
      assert s[1..] == a[1..] + [sep] + b;
      assert sep !in a[1..];
      SplitAfterPrefix(a[1..], sep, b);
      assert [a[0]] + a[1..] == a;
    }
  }

  /** `String.lastIndexOf(char)`: the position of the last `c` in `s`, or -1. */
  function LastIndexOf(s: string, c: char): (i: int)
    ensures -1 <= i < |s|
    ensures i >= 0 ==> s[i] == c
    ensures forall j :: i < j < |s| ==> s[j] != c
  {
    if s == [] then -1
    else if s[|s| - 1] == c then |s| - 1
    else LastIndexOf(s[..|s| - 1], c)
  }

  /** The last `c` in `p + q` lies in `q` when `q` holds one, else it is the last in `p`. */
  lemma {:induction false} LastIndexOfConcat(p: string, q: string, c: char)
    ensures LastIndexOf(p + q, c) == if c in q then |p| + LastIndexOf(q, c) else LastIndexOf(p, c)
  {
    var s := p + q;
    if q != [] {
      assert s[..|s| - 1] == p + q[..|q| - 1];
      LastIndexOfConcat(p, q[..|q| - 1], c);
      if s[|s| - 1] != c {
        assert c in q <==> c in q[..|q| - 1] by {
          assert q == q[..|q| - 1] + [q[|q| - 1]];
        }
      }
    } else {
      assert s == p;
    }
  }
}
