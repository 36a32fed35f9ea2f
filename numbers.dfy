/**
 * Numbers as the node components see them. A JavaScript number that comes
 * from the user's text is a finite decimal `m / 10^e` or NaN. This module
 * gives `Number(text)`, `parseInt(text)`, `x.toString()`, Python's `int(text)`,
 * and the floor-based output-length formula of the convolution and pooling
 * layers, including the infinite and NaN results that a zero stride or a
 * missing operand gives.
 */
module Numbers {
  import opened Wrappers
  import Text

  predicate IsDigit(c: char) { '0' <= c <= '9' }

  predicate AllDigits(s: string) {
    forall i :: 0 <= i < |s| ==> IsDigit(s[i])
  }

  function DigitValue(c: char): nat
    requires IsDigit(c)
  {
    c as int - '0' as int
  }

  function DigitChar(d: nat): (c: char)
    requires d < 10
    ensures IsDigit(c) && DigitValue(c) == d
  {
    ('0' as int + d) as char
  }

  function Pow10(e: nat): (p: nat)
    ensures p >= 1
  {
    if e == 0 then 1 else 10 * Pow10(e - 1)
  }

  function Abs(n: int): nat { if n < 0 then -n else n }

  /** The value of a string of decimal digits, most significant first. */
  function DigitsValue(s: string): nat
    requires AllDigits(s)
  {
    if s == [] then 0 else 10 * DigitsValue(s[..|s| - 1]) + DigitValue(s[|s| - 1])
  }

  /** The decimal digits of `n` without leading zeros. */
  function NatText(n: nat): (s: string)
    ensures |s| >= 1 && AllDigits(s)
    ensures '.' !in s && '-' !in s
  {
    if n < 10 then [DigitChar(n)] else NatText(n / 10) + [DigitChar(n % 10)]
  }

  /** The digits of a natural number read back as that number. */
  lemma {:induction false} NatTextValue(n: nat)
    ensures DigitsValue(NatText(n)) == n
  {
    if n >= 10 {
      var s := NatText(n);
      assert s[..|s| - 1] == NatText(n / 10);
      NatTextValue(n / 10);
    }
  }

  /** A number below `10^e` has at most `e` digits. */
  lemma {:induction false} NatTextLength(n: nat, e: nat)
    requires n < Pow10(e)
    ensures |NatText(n)| <= e || (n == 0 && e == 0)
  {
    if n >= 10 {
      NatTextLength(n / 10, e - 1);
    }
  }

  /** The value of digits `a` followed by digits `b`. */
  lemma {:induction false} DigitsValueAppend(a: string, b: string)
    requires AllDigits(a) && AllDigits(b)
    ensures AllDigits(a + b)
    ensures DigitsValue(a + b) == DigitsValue(a) * Pow10(|b|) + DigitsValue(b)
    decreases |b|
  {
    if b == [] {
      assert a + b == a;
    } else {
      var b' := b[..|b| - 1];
      assert (a + b)[..|a + b| - 1] == a + b';
      DigitsValueAppend(a, b');
      calc {
        DigitsValue(a + b);
        10 * DigitsValue(a + b') + DigitValue(b[|b| - 1]);
        10 * (DigitsValue(a) * Pow10(|b'|) + DigitsValue(b')) + DigitValue(b[|b| - 1]);
        { ShiftDigit(DigitsValue(a), Pow10(|b'|), DigitsValue(b'), DigitValue(b[|b| - 1])); }
        DigitsValue(a) * (10 * Pow10(|b'|)) + (10 * DigitsValue(b') + DigitValue(b[|b| - 1]));
      }
    }
  }

  /** Appending a digit multiplies the place value of the digits before it by ten. */
  lemma ShiftDigit(x: int, p: int, y: int, d: int)
    ensures 10 * (x * p + y) + d == x * (10 * p) + (10 * y + d)
  {
  }

  /** `n` zeros. */
  function Zeros(n: nat): (s: string)
    ensures |s| == n && AllDigits(s) && DigitsValue(s) == 0
  {
    if n == 0 then "" else
      var s := Zeros(n - 1) + "0";
      assert s[..|s| - 1] == Zeros(n - 1);
      s
  }

  /** The digits of `a` with leading zeros added so that at least `e + 1` digits remain. */
  function Padded(a: nat, e: nat): (s: string)
    ensures |s| >= e + 1 && AllDigits(s) && DigitsValue(s) == a
  {
    var t := NatText(a);
    var z := Zeros(if |t| <= e then e + 1 - |t| else 0);
    NatTextValue(a);
    DigitsValueAppend(z, t);
    z + t
  }

  /** `n.toString()` for an integer. */
  function IntText(n: int): (s: string)
    ensures |s| >= 1 && '.' !in s && ',' !in s
    ensures forall i :: 0 <= i < |s| ==> s[i] == '-' || IsDigit(s[i])
  {
    if n < 0 then "-" + NatText(-n) else NatText(n)
  }

  /** The string starts with a minus sign. */
  predicate Negative(t: string) { |t| > 0 && t[0] == '-' }

  /** The string without its leading sign, if it has one. */
  function Unsigned(t: string): string {
    if |t| > 0 && (t[0] == '-' || t[0] == '+') then t[1..] else t
  }

  /** `v` with the sign `t` starts with. */
  function Signed(t: string, v: int): int {
    if Negative(t) then -v else v
  }

  /** The longest run of digits at the start of `s`. */
  function LeadingDigits(s: string): (r: string)
    ensures r <= s && AllDigits(r)
    ensures |r| < |s| ==> !IsDigit(s[|r|])
  {
    if s != [] && IsDigit(s[0]) then [s[0]] + LeadingDigits(s[1..]) else ""
  }

  /**
   * `parseInt(s)`: leading whitespace, an optional sign, then the longest
   * digit prefix; `None` is NaN (no digit after the sign).
   */
  function JsParseInt(s: string): Option<int> {
    var t := Text.TrimStart(s);
    var ds := LeadingDigits(Unsigned(t));
    if ds == [] then None else Some(Signed(t, DigitsValue(ds)))
  }

  /** A run of digits is its own longest digit prefix when no digit follows it. */
  lemma {:induction false} LeadingDigitsOf(ds: string, rest: string)
    requires AllDigits(ds)
    requires rest == [] || !IsDigit(rest[0])
    ensures LeadingDigits(ds + rest) == ds
  {
    if ds == [] {
      assert ds + rest == rest;
    } else {
      assert (ds + rest)[1..] == ds[1..] + rest;
      LeadingDigitsOf(ds[1..], rest);
      assert [ds[0]] + ds[1..] == ds;
    }
  }

  /**
   * `parseInt` reads back a rendered integer, whatever non-digit text follows
   * it (a shape token such as "20)" still gives 20).
   */
  lemma ParseIntOfIntText(n: int, rest: string)
    requires rest == [] || !IsDigit(rest[0])
    ensures JsParseInt(IntText(n) + rest) == Some(n)
  {
    var s := IntText(n) + rest;
    var digits := NatText(Abs(n));
    SignedText(n, rest);
    assert Text.TrimStart(s) == s by {
      Text.TrimNoSpace(s);
    }
    LeadingDigitsOf(digits, rest);
    NatTextValue(Abs(n));
  }

  /** A rendered integer followed by `rest` is its sign, then its digits, then `rest`. */
  lemma SignedText(n: int, rest: string)
    ensures var s := IntText(n) + rest;
            s != [] && !Text.IsSpace(s[0]) &&
            Unsigned(s) == NatText(Abs(n)) + rest && (Negative(s) <==> n < 0)
  {
    var s := IntText(n) + rest;
    var digits := NatText(Abs(n));
    assert IsDigit(digits[0]);
    if n < 0 {
      assert s == "-" + (digits + rest);
      assert s[1..] == digits + rest;
    } else {
      assert s == digits + rest;
    }
  }

  /** Python's `int(s)`: optional surrounding whitespace and sign, then only digits. */
  function PyInt(s: string): Option<int> {
    var t := Text.Trim(s);
    var body := Unsigned(t);
    if body == [] || !AllDigits(body) then None else Some(Signed(t, DigitsValue(body)))
  }

  /** Python's `int` reads a digit string. */
  lemma PyIntOfDigits(digits: string)
    requires |digits| >= 1 && AllDigits(digits)
    ensures PyInt(digits) == Some(DigitsValue(digits) as int)
  {
    assert Text.Trimmed(digits) by {
      assert IsDigit(digits[0]) && IsDigit(digits[|digits| - 1]);
    }
    assert Unsigned(digits) == digits && !Negative(digits) by {
      assert IsDigit(digits[0]);
    }
    PyIntOfTrimmed(digits, digits);
  }

  /** Python's `int` reads a digit string after a minus sign. */
  lemma PyIntOfNegative(digits: string)
    requires |digits| >= 1 && AllDigits(digits)
    ensures PyInt("-" + digits) == Some(-(DigitsValue(digits) as int))
  {
    var t := "-" + digits;
    assert Text.Trimmed(t) by {
      assert t[|t| - 1] == digits[|digits| - 1];
      assert IsDigit(digits[|digits| - 1]);
    }
    assert Unsigned(t) == digits && Negative(t) by {
      assert t[1..] == digits;
    }
    PyIntOfTrimmed(t, digits);
  }

  /** `int` of a trimmed text whose unsigned part is the given digits. */
  lemma PyIntOfTrimmed(t: string, digits: string)
    requires |digits| >= 1 && AllDigits(digits) && Text.Trimmed(t) && Unsigned(t) == digits
    ensures PyInt(t) == Some(Signed(t, DigitsValue(digits)))
  {
  }

  /** Python's `int` reads back a rendered integer. */
  lemma PyIntOfIntText(n: int)
    ensures PyInt(IntText(n)) == Some(n)
  {
    var digits := NatText(Abs(n));
    NatTextValue(Abs(n));
    if n < 0 {
      PyIntOfNegative(digits);
    } else {
      PyIntOfDigits(digits);
    }
  }

  /** A JavaScript number: NaN or the finite decimal `m / 10^e`. */
  datatype JsNum = NaN | Num(m: int, e: nat)

  /** The single representation JavaScript has for a value: no trailing fraction zeros. */
  predicate Canonical(x: JsNum) {
    x.Num? ==> (x.e == 0 || x.m % 10 != 0)
  }

  function Int(n: int): JsNum { Num(n, 0) }

  /** The value a finite number denotes. */
  function ToReal(x: JsNum): real
    requires x.Num?
  {
    x.m as real / Pow10(x.e) as real
  }

  /** `m / 10^e` with trailing fraction zeros removed; the value is unchanged. */
  function Normalize(m: int, e: nat): (x: JsNum)
    ensures x.Num? && Canonical(x) && x.e <= e
    ensures x.m * Pow10(e - x.e) == m
    decreases e
  {
    if e > 0 && m % 10 == 0 then
      var x := Normalize(m / 10, e - 1);
      assert Pow10(e - x.e) == 10 * Pow10(e - 1 - x.e);
      x
    else Num(m, e)
  }

  function Negate(x: JsNum): (r: JsNum)
    ensures Canonical(x) ==> Canonical(r)
  {
    match x
    case NaN => NaN
    case Num(m, e) => Num(-m, e)
  }

  /** A decimal numeral without sign: digits, optionally a point and more digits. */
  function UnsignedDecimal(t: string): JsNum {
    var k := Text.IndexOf(t, '.');
    var ip := if k < 0 then t else t[..k];
    var fp := if k < 0 then "" else t[k + 1..];
    if AllDigits(ip) && AllDigits(fp) && |ip| + |fp| >= 1 then
      assert AllDigits(ip + fp);
      Normalize(DigitsValue(ip + fp), |fp|)
    else NaN
  }

  /**
   * `Number(s)`: surrounding whitespace ignored, the empty string is 0, and
   * anything but a whole signed decimal numeral is NaN.
   */
  function JsNumber(s: string): (x: JsNum)
    ensures Canonical(x)
  {
    var t := Text.Trim(s);
    if t == "" then Int(0)
    else
      if Negative(t) then Negate(UnsignedDecimal(Unsigned(t))) else UnsignedDecimal(Unsigned(t))
  }

  /**
   * The unsigned numeral of `a / 10^e`: the digits of `a` with a point `e`
   * places from the right, and a zero before the point when `a < 10^e`.
   */
  function DecimalBody(a: nat, e: nat): (t: string)
    ensures t != [] && IsDigit(t[0]) && IsDigit(t[|t| - 1])
  {
    if e == 0 then NatText(a)
    else
      var p := Padded(a, e);
      p[..|p| - e] + "." + p[|p| - e..]
  }

  /** `x.toString()` in positional notation. */
  function NumberText(x: JsNum): string {
    match x
    case NaN => "NaN"
    case Num(m, e) => (if m < 0 then "-" else "") + DecimalBody(Abs(m), e)
  }

  /** The point of a decimal body is found after the integer digits. */
  lemma UnsignedDecimalOfBody(a: nat, e: nat)
    requires e == 0 || a % 10 != 0
    ensures UnsignedDecimal(DecimalBody(a, e)) == Num(a, e)
  {
    var t := DecimalBody(a, e);
    if e == 0 {
      NatTextValue(a);
      assert Text.IndexOf(t, '.') == -1;
      assert t + "" == t;
    } else {
      var p := Padded(a, e);
      var ip, fp := p[..|p| - e], p[|p| - e..];
      assert ip + fp == p;
      PointAfterDigits(ip, fp);
    }
  }

  /** The point of `ip + "." + fp` sits right after the digits `ip`. */
  lemma {:induction false} PointAfterDigits(ip: string, fp: string)
    requires AllDigits(ip)
    ensures var t := ip + "." + fp;
            Text.IndexOf(t, '.') == |ip| && t[..|ip|] == ip && t[|ip| + 1..] == fp
  {
    var t := ip + "." + fp;
    if ip != [] {
      assert t[1..] == ip[1..] + "." + fp;
      PointAfterDigits(ip[1..], fp);
    }
  }

  /** `Number` of a non-empty string without surrounding whitespace reads its sign and numeral. */
  lemma JsNumberOfTrimmed(t: string)
    requires t != [] && Text.Trimmed(t)
    ensures JsNumber(t) == if Negative(t) then Negate(UnsignedDecimal(Unsigned(t))) else UnsignedDecimal(Unsigned(t))
  {
    Text.TrimNoSpace(t);
  }

  /** A rendered finite number is its sign followed by its unsigned numeral. */
  lemma NumberTextShape(m: int, e: nat)
    ensures NumberText(Num(m, e)) != [] && Text.Trimmed(NumberText(Num(m, e)))
    ensures Unsigned(NumberText(Num(m, e))) == DecimalBody(Abs(m), e)
    ensures Negative(NumberText(Num(m, e))) <==> m < 0
  {
    var body := DecimalBody(Abs(m), e);
    var text := NumberText(Num(m, e));
    assert text[|text| - 1] == body[|body| - 1];
    if m < 0 {
      assert text[1..] == body;
    }
  }

  /** `Number` reads back what `toString` renders. */
  lemma NumberOfNumberText(x: JsNum)
    requires Canonical(x)
    ensures JsNumber(NumberText(x)) == x
  {
    match x
    case NaN =>
      NumberOfNaNText();
    case Num(m, e) =>
      AbsKeepsLastDigit(m);
      NumberOfNumText(m, e);
  }

  /** "NaN" is not a numeral. */
  lemma NumberOfNaNText()
    ensures JsNumber(NumberText(NaN)) == NaN
  {
    var t := "NaN";
    assert t[|t| - 1] == 'N';
    JsNumberOfTrimmed(t);
    assert !Negative(t) && Unsigned(t) == t;
    UnsignedDecimalNaN(t);
  }

  /** A finite number's text reads back as that number. */
  lemma NumberOfNumText(m: int, e: nat)
    requires e == 0 || Abs(m) % 10 != 0
    ensures JsNumber(NumberText(Num(m, e))) == Num(m, e)
  {
    var text := NumberText(Num(m, e));
    NumberTextShape(m, e);
    UnsignedDecimalOfBody(Abs(m), e);
    JsNumberOfTrimmed(text);
    assert UnsignedDecimal(Unsigned(text)) == Num(Abs(m), e);
  }

  /** An integer and its absolute value end in the same digit modulo ten, so in zero together. */
  lemma AbsKeepsLastDigit(m: int)
    ensures (m % 10 == 0) <==> (Abs(m) % 10 == 0)
  {
  }

  /**
   * `Number` of a text ending in a character that is neither a digit, a
   * point nor whitespace is NaN: no numeral ends that way.
   */
  lemma NaNWhenLastNotNumeral(s: string)
    requires |s| >= 1
    requires var c := s[|s| - 1]; !IsDigit(c) && c != '.' && !Text.IsSpace(c)
    ensures JsNumber(s).NaN?
  {
    var t := Text.Trim(s);
    TrimKeepsLast(s);
    var u := Unsigned(t);
    assert u == [] || u[|u| - 1] == t[|t| - 1];
    UnsignedDecimalNaN(u);
    JsNumberOfTrimmed(t);
  }

  /** Trimming a text that ends in a non-space keeps that last character. */
  lemma TrimKeepsLast(s: string)
    requires |s| >= 1 && !Text.IsSpace(s[|s| - 1])
    ensures var t := Text.Trim(s); t != [] && t[|t| - 1] == s[|s| - 1] && Text.Trimmed(t)
  {
    var t0 := Text.TrimStart(s);
    assert !Text.IsSpace(s[|s| - 1]);
    assert t0 != [] && t0[|t0| - 1] == s[|s| - 1];
    Text.TrimNoSpace(t0);
  }

  /** An unsigned numeral is not empty and ends in a digit or the point. */
  lemma UnsignedDecimalNaN(u: string)
    requires u == [] || (!IsDigit(u[|u| - 1]) && u[|u| - 1] != '.')
    ensures UnsignedDecimal(u).NaN?
  {
    var k := Text.IndexOf(u, '.');
    if u == [] {
    } else if k < 0 {
      assert !IsDigit(u[|u| - 1]);
    } else {
      var fp := u[k + 1..];
      assert k < |u| - 1;
      assert fp[|fp| - 1] == u[|u| - 1];
    }
  }

  /** One half is written and read as "0.5". */
  lemma HalfText()
    ensures NumberText(Num(5, 1)) == "0.5" && JsNumber("0.5") == Num(5, 1)
  {
    HalfRendered();
    NumberOfNumText(5, 1);
  }

  lemma HalfRendered()
    ensures NumberText(Num(5, 1)) == "0.5"
  {
    HalfBody();
  }

  lemma HalfBody()
    ensures DecimalBody(5, 1) == "0" + "." + "5"
  {
    var p := Padded(5, 1);
    HalfPadded();
    assert DecimalBody(5, 1) == p[..1] + "." + p[1..];
    PointInsideTwoDigits(p);
  }

  lemma HalfPadded()
    ensures Padded(5, 1) == "05"
  {
    assert NatText(5) == "5";
    assert Zeros(1) == "0";
  }

  lemma PointInsideTwoDigits(p: string)
    requires p == "05"
    ensures p[..1] + "." + p[1..] == "0" + "." + "5"
  {
    assert p[..1] == "0" && p[1..] == "5";
  }

  /** `v > 0` for a number (false for NaN). */
  predicate Positive(x: JsNum) { x.Num? && x.m > 0 }

  /** `v >= 0` for a number (false for NaN). */
  predicate NonNegative(x: JsNum) { x.Num? && x.m >= 0 }

  /** `v < 1` for a number (false for NaN). */
  predicate LessThanOne(x: JsNum) { x.Num? && x.m < Pow10(x.e) }

  /** `v <= 1` for a number (false for NaN). */
  predicate AtMostOne(x: JsNum) { x.Num? && x.m <= Pow10(x.e) }

  /** Dividing by a positive power of ten keeps the side of any integer bound. */
  lemma ScaleCompare(m: int, p: nat, k: int)
    requires p >= 1
    ensures (m as real / p as real > k as real) <==> m > k * p
    ensures (m as real / p as real >= k as real) <==> m >= k * p
  {
    var r := m as real / p as real;
    assert r * p as real == m as real;
    assert (k * p) as real == k as real * p as real;
  }

  /** The comparisons agree with the values the numbers denote. */
  lemma ComparisonsMeanValues(x: JsNum)
    requires x.Num?
    ensures Positive(x) <==> ToReal(x) > 0.0
    ensures NonNegative(x) <==> ToReal(x) >= 0.0
    ensures LessThanOne(x) <==> !(ToReal(x) >= 1.0)
    ensures AtMostOne(x) <==> !(ToReal(x) > 1.0)
  {
    ScaleCompare(x.m, Pow10(x.e), 0);
    ScaleCompare(x.m, Pow10(x.e), 1);
  }

  /** JavaScript truthiness of a number: 0 and NaN are false. */
  predicate Truthy(x: JsNum) { x.Num? && x.m != 0 }

  /** `x * k` for an integer factor. */
  function MulInt(x: JsNum, k: int): JsNum {
    match x
    case NaN => NaN
    case Num(m, e) => Normalize(m * k, e)
  }

  /** `Math.floor(a / b)` for integers, `b` non-zero. */
  function FloorDiv(a: int, b: int): (q: int)
    requires b != 0
    ensures b > 0 ==> q * b <= a < q * b + b
    ensures b < 0 ==> q * b >= a > q * b + b
  {
    if b > 0 then a / b else (-a) / (-b)
  }

  /** The outcome of the output-length formula in floating point. */
  datatype Length = Finite(n: int) | Infinite(negative: bool) | NotANumber

  /** The text a length renders as (`toString`, or a template literal). */
  function LengthText(l: Length): string {
    match l
    case Finite(n) => IntText(n)
    case Infinite(negative) => if negative then "-Infinity" else "Infinity"
    case NotANumber => "NaN"
  }

  /**
   * `Math.floor((L + 2 * padding - dilation * (kernel - 1) - 1) / stride + 1)`
   * over finite decimals: the numerator is put over the common denominator and
   * the floor taken exactly; a zero stride gives an infinity of the
   * numerator's sign, or NaN when the numerator is zero too.
   */
  function OutputLength(L: JsNum, kernel: JsNum, stride: JsNum, padding: JsNum, dilation: JsNum): Length {
    if L.NaN? || kernel.NaN? || stride.NaN? || padding.NaN? || dilation.NaN? then NotANumber
    else
      var pl, pk, ps, pp, pd := Pow10(L.e), Pow10(kernel.e), Pow10(stride.e), Pow10(padding.e), Pow10(dilation.e);
      var numer := L.m * pk * pp * pd + 2 * padding.m * pl * pk * pd
                   - dilation.m * (kernel.m - pk) * pl * pp - pl * pk * pp * pd;
      if stride.m == 0 then
        if numer > 0 then Infinite(false) else if numer < 0 then Infinite(true) else NotANumber
      else
        DenominatorNonZero(pl, pk, pp, pd, stride.m);
        Finite(FloorDiv(numer * ps, pl * pk * pp * pd * stride.m) + 1)
  }

  /** A product of powers of ten and a non-zero stride is not zero. */
  lemma DenominatorNonZero(pl: nat, pk: nat, pp: nat, pd: nat, s: int)
    requires pl >= 1 && pk >= 1 && pp >= 1 && pd >= 1 && s != 0
    ensures pl * pk * pp * pd * s != 0
  {
    AtLeastOne(pl, pk);
    AtLeastOne(pl * pk, pp);
    AtLeastOne(pl * pk * pp, pd);
    var den := pl * pk * pp * pd;
    assert den * s != 0 by {
      if s > 0 { AtLeastOne(den, s); } else { AtLeastOne(den, -s); assert den * s == -(den * -s); }
    }
  }

  lemma AtLeastOne(a: int, b: int)
    requires a >= 1 && b >= 1
    ensures a * b >= 1
  {
  }

  /** On whole-number operands the formula is the integer floor formula of 1-D convolution and pooling. */
  lemma OutputLengthOfIntegers(L: int, kernel: int, stride: int, padding: int, dilation: int)
    requires stride != 0
    ensures OutputLength(Int(L), Int(kernel), Int(stride), Int(padding), Int(dilation))
            == Finite(FloorDiv(L + 2 * padding - dilation * (kernel - 1) - 1, stride) + 1)
  {
    var one := Pow10(0);
    assert one == 1;
    assert L * one * one * one + 2 * padding * one * one * one - dilation * (kernel - one) * one * one
           - one * one * one * one == L + 2 * padding - dilation * (kernel - 1) - 1;
    assert one * one * one * one * stride == stride;
  }

  /**
   * With a positive whole-number stride the result `n` is the unique integer
   * with `(n - 1) * stride <= L + 2p - d(k - 1) - 1 < n * stride`.
   */
  lemma OutputLengthIsFloor(L: int, kernel: int, stride: int, padding: int, dilation: int)
    requires stride > 0
    ensures var r := OutputLength(Int(L), Int(kernel), Int(stride), Int(padding), Int(dilation));
            var x := L + 2 * padding - dilation * (kernel - 1) - 1;
            r.Finite? && (r.n - 1) * stride <= x < r.n * stride
  {
    OutputLengthOfIntegers(L, kernel, stride, padding, dilation);
  }

  /** With stride 1, no padding and dilation 1 the layer removes `kernel - 1` positions. */
  lemma UnitStrideLength(L: int, kernel: int)
    ensures OutputLength(Int(L), Int(kernel), Int(1), Int(0), Int(1)) == Finite(L - kernel + 1)
  {
    OutputLengthOfIntegers(L, kernel, 1, 0, 1);
  }

  /** A zero stride divides by zero and yields an infinity rather than a length. */
  lemma ZeroStrideLength(L: int, kernel: int)
    requires L > kernel
    ensures OutputLength(Int(L), Int(kernel), Int(0), Int(0), Int(1)) == Infinite(false)
  {
  }
}
