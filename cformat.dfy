/** The C library's atoi and printf's "%0Nd", as the scanner uses them to
    turn sysfs attribute files into numbers and numbers back into strings. */
module CFormat {

  predicate IsDigit(c: char) { '0' <= c <= '9' }

  predicate AllDigits(s: string) { forall i :: 0 <= i < |s| ==> IsDigit(s[i]) }

  /** isspace in the C locale. */
  predicate IsSpace(c: char)
  {
    c == ' ' || c == '\t' || c == '\n' || c == '\U{B}' || c == '\U{C}' || c == '\r'
  }

  function SkipSpace(s: string): (r: string)
    ensures |r| <= |s| && r == s[|s| - |r|..]
    ensures r != [] ==> !IsSpace(r[0])
  {
    if s != [] && IsSpace(s[0]) then SkipSpace(s[1..]) else s
  }

  /** The longest prefix of s made of decimal digits. */
  function LeadingDigits(s: string): (r: string)
    ensures |r| <= |s| && r == s[..|r|]
    ensures AllDigits(r)
    ensures |r| < |s| ==> !IsDigit(s[|r|])
  {
    if s != [] && IsDigit(s[0]) then [s[0]] + LeadingDigits(s[1..]) else ""
  }

  /** The value of a string of decimal digits; the empty string is 0. */
  function Value(d: string): nat
    requires AllDigits(d)
  {
    if d == [] then 0 else 10 * Value(d[..|d| - 1]) + (d[|d| - 1] - '0') as nat
  }

  /** atoi: leading white space, an optional sign, then as many digits as
      there are; anything else ends the number, and no digit at all gives 0.
      Integers are unbounded here: atoi's overflow is not modelled. */
  function Atoi(s: string): int
  {
    var t := SkipSpace(s);
    if t != [] && t[0] == '-' then -(Value(LeadingDigits(t[1..])) as int)
    else if t != [] && t[0] == '+' then Value(LeadingDigits(t[1..]))
    else Value(LeadingDigits(t))
  }

  function DigitChar(n: nat): char
    requires n < 10
  {
    ('0' as int + n) as char
  }

  /** The decimal digits of n, without leading zeros ("0" for zero). */
  function Digits(n: nat): (r: string)
    ensures |r| >= 1 && AllDigits(r)
  {
    if n < 10 then [DigitChar(n)] else Digits(n / 10) + [DigitChar(n % 10)]
  }

  function Zeros(k: nat): (r: string)
    ensures |r| == k && AllDigits(r)
  {
    if k == 0 then "" else "0" + Zeros(k - 1)
  }

  /** d left-padded with zeros to at least w characters. */
  function PadZeros(d: string, w: nat): string
  {
    if |d| < w then Zeros(w - |d|) + d else d
  }

  /** printf("%0<w>d", n): a minus sign for a negative number, then the
      digits, padded with zeros after the sign up to w characters in all. */
  function FormatInt(n: int, w: nat): string
  {
    if n < 0 then "-" + PadZeros(Digits(-n), if w == 0 then 0 else w - 1)
    else PadZeros(Digits(n), w)
  }

  lemma {:induction false} ValueOfDigits(n: nat)
    ensures Value(Digits(n)) == n
  {
    if n >= 10 {
      var d := Digits(n);
      assert d[..|d| - 1] == Digits(n / 10);
      ValueOfDigits(n / 10);
    }
  }

  lemma {:induction false} ValueLeadingZeros(k: nat, d: string)
    requires AllDigits(d)
    ensures AllDigits(Zeros(k) + d) && Value(Zeros(k) + d) == Value(d)
  {
    if d == [] {
      assert Zeros(k) + d == Zeros(k);
      ZerosValue(k);
    } else {
      var s := Zeros(k) + d;
      assert s[..|s| - 1] == Zeros(k) + d[..|d| - 1];
      ValueLeadingZeros(k, d[..|d| - 1]);
    }
  }

  lemma {:induction false} ZerosValue(k: nat)
    ensures Value(Zeros(k)) == 0
  {
    if k > 0 {
      var z := Zeros(k);
      assert z[..|z| - 1] == Zeros(k - 1) by {
        ZerosSnoc(k - 1);
      }
      ZerosValue(k - 1);
    }
  }

  lemma {:induction false} ZerosSnoc(k: nat)
    ensures Zeros(k + 1) == Zeros(k) + "0"
  {
    if k > 0 {
      ZerosSnoc(k - 1);
    }
  }

  lemma {:induction false} LeadingDigitsOfDigits(d: string)
    requires AllDigits(d)
    ensures LeadingDigits(d) == d
  {
    if d != [] {
      LeadingDigitsOfDigits(d[1..]);
    }
  }

  lemma AtoiOfDigits(p: string)
    requires AllDigits(p)
    ensures Atoi(p) == Value(p)
  {
    LeadingDigitsOfDigits(p);
    if p != [] {
      assert IsDigit(p[0]);
      assert !IsSpace(p[0]);
    }
    assert SkipSpace(p) == p;
    assert !(p != [] && p[0] == '-') && !(p != [] && p[0] == '+');
  }

  lemma AtoiOfNegative(p: string)
    requires AllDigits(p)
    ensures Atoi("-" + p) == -(Value(p) as int)
  {
    var t := "-" + p;
    assert SkipSpace(t) == t by {
      assert t[0] == '-' && !IsSpace(t[0]);
    }
    assert t[1..] == p;
    LeadingDigitsOfDigits(p);
  }

  lemma ValuePadZeros(n: nat, w: nat)
    ensures AllDigits(PadZeros(Digits(n), w)) && Value(PadZeros(Digits(n), w)) == n
  {
    var d := Digits(n);
    ValueOfDigits(n);
    if |d| < w {
      ValueLeadingZeros(w - |d|, d);
    }
  }

  /** What "%0<w>d" prints, atoi reads back. */
  lemma AtoiFormatInt(n: int, w: nat)
    ensures Atoi(FormatInt(n, w)) == n
  {
    if n < 0 {
      var w' := if w == 0 then 0 else w - 1;
      ValuePadZeros(-n, w');
      AtoiOfNegative(PadZeros(Digits(-n), w'));
    } else {
      ValuePadZeros(n, w);
      AtoiOfDigits(PadZeros(Digits(n), w));
    }
  }

  /** A non-negative number printed with "%0<w>d" is all decimal digits and
      at least w characters long. */
  lemma FormatNonNegative(n: nat, w: nat)
    ensures AllDigits(FormatInt(n, w)) && |FormatInt(n, w)| >= w
  {
  }

  /** Every "%0<w>d" output is a decimal numeral: digits after an optional
      minus sign. */
  predicate IsDecimal(s: string)
  {
    s != [] && (AllDigits(s) || (s[0] == '-' && AllDigits(s[1..])))
  }

  lemma FormatIsDecimal(n: int, w: nat)
    ensures IsDecimal(FormatInt(n, w))
  {
    if n < 0 {
      assert FormatInt(n, w)[1..] == PadZeros(Digits(-n), if w == 0 then 0 else w - 1);
    }
  }

  /** sysfs prints bInterfaceNumber in hexadecimal; atoi stops at the first
      non-decimal character, so interface 0x0a reads as interface 0. */
  lemma HexInterfaceTenReadsAsZero()
    ensures Atoi("0a\n") == 0 && FormatInt(Atoi("0a\n"), 2) == "00"
  {
    assert SkipSpace("0a\n") == "0a\n";
    assert !IsDigit('a');
    assert LeadingDigits("0a\n") == "0" + LeadingDigits("a\n") == "0";
    assert Value("0") == 0;
    assert FormatInt(0, 2) == Zeros(1) + "0" == "00";
  }
}
