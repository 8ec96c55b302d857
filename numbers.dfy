/**
 * JavaScript's conversions from text to number, kept exact: the values are reals
 * rather than doubles, and a text that is not a number converts to NaN.
 * Two conversions are modelled: unary plus (`+s`, ToNumber) and `parseFloat(s)`.
 * Both read the decimal form [sign] digits ['.' digits]; unary plus needs the
 * whole text to have that form (the empty text is 0), parseFloat reads the
 * longest such prefix.
 */
module Numbers {

  /** A JavaScript number: an exact finite value, or NaN. */
  datatype Num = Finite(v: real) | NaN

  predicate IsDigit(c: char) {
    '0' <= c <= '9'
  }

  predicate AllDigits(s: string) {
    forall i :: 0 <= i < |s| ==> IsDigit(s[i])
  }

  /** The value of a string of decimal digits ("" is 0). */
  function DigitsValue(ds: string): nat
    requires AllDigits(ds)
  {
    if ds == "" then 0 else 10 * DigitsValue(ds[..|ds| - 1]) + (ds[|ds| - 1] as int - '0' as int)
  }

  function Pow10(n: nat): (r: nat)
    ensures r >= 1
  {
    if n == 0 then 1 else 10 * Pow10(n - 1)
  }

  /** The longest prefix of `s` made of digits. */
  function LeadingDigits(s: string): (r: string)
    ensures r <= s && AllDigits(r)
    ensures |r| == |s| || !IsDigit(s[|r|])
  {
    if s != "" && IsDigit(s[0]) then [s[0]] + LeadingDigits(s[1..]) else ""
  }

  /** What the unsigned part of a decimal text holds: digits ['.' digits]. */
  datatype Unsigned = Unsigned(intDigits: string, dot: bool, fracDigits: string) {
    predicate WellFormed() {
      AllDigits(intDigits) && AllDigits(fracDigits) && (dot || fracDigits == "")
    }
    predicate HasDigit() {
      intDigits != "" || fracDigits != ""
    }
    function Text(): string {
      intDigits + (if dot then "." else "") + fracDigits
    }
    function Magnitude(): real
      requires WellFormed()
    {
      DigitsValue(intDigits) as real + DigitsValue(fracDigits) as real / Pow10(|fracDigits|) as real
    }
  }

  /** Digits, the '.' after them and digits after that make a prefix of the text. */
  lemma DottedPrefix(rest: string, ip: string, fp: string)
    requires ip <= rest && |ip| < |rest| && rest[|ip|] == '.'
    requires fp <= rest[|ip| + 1..]
    ensures Unsigned(ip, true, fp).Text() <= rest
  {
    var t := Unsigned(ip, true, fp).Text();
    assert t == ip + ['.'] + fp;
    assert |t| <= |rest|;
    forall i | 0 <= i < |t|
      ensures t[i] == rest[i]
    {
      if |ip| < i {
        assert t[i] == fp[i - |ip| - 1] == rest[|ip| + 1..][i - |ip| - 1];
      }
    }
  }

  /** The longest prefix of `rest` shaped like digits ['.' digits]. */
  function ScanUnsigned(rest: string): (u: Unsigned)
    ensures u.WellFormed() && u.Text() <= rest
  {
    var ip := LeadingDigits(rest);
    if |ip| < |rest| && rest[|ip|] == '.' then
      var fp := LeadingDigits(rest[|ip| + 1..]);
      DottedPrefix(rest, ip, fp);
      Unsigned(ip, true, fp)
    else
      var u := Unsigned(ip, false, "");
      assert u.Text() == ip;
      u
  }

  /** The longest prefix of a text shaped like [sign] digits ['.' digits]. */
  datatype Scan = Scan(negative: bool, signLength: nat, body: Unsigned)

  predicate IsSign(c: char) {
    c == '+' || c == '-'
  }

  function ScanDecimal(s: string): (d: Scan)
    ensures d.body.WellFormed()
    ensures d.signLength + |d.body.Text()| <= |s|
  {
    if s != "" && IsSign(s[0]) then Scan(s[0] == '-', 1, ScanUnsigned(s[1..]))
    else Scan(false, 0, ScanUnsigned(s))
  }

  function ScanValue(d: Scan): real
    requires d.body.WellFormed()
  {
    if d.negative then -d.body.Magnitude() else d.body.Magnitude()
  }

  /** Unary plus on a text: `+s`. */
  function ToNumber(s: string): (r: Num)
    ensures s == "" ==> r == Finite(0.0)
    ensures s != "" && !IsDigit(s[0]) && !IsSign(s[0]) && s[0] != '.' ==> r.NaN?
  {
    if s == "" then Finite(0.0)
    else
      var d := ScanDecimal(s);
      if d.signLength + |d.body.Text()| == |s| && d.body.HasDigit() then Finite(ScanValue(d)) else NaN
  }

  /** `parseFloat(s)`: the longest numeric prefix, NaN when there is none. */
  function ParseFloat(s: string): (r: Num)
    ensures s == "" ==> r.NaN?
    ensures s != "" && !IsDigit(s[0]) && !IsSign(s[0]) && s[0] != '.' ==> r.NaN?
    ensures s != "" && ToNumber(s).Finite? ==> r == ToNumber(s)
    ensures r.NaN? ==> s == "" || ToNumber(s).NaN?
  {
    var d := ScanDecimal(s);
    if d.body.HasDigit() then Finite(ScanValue(d)) else NaN
  }

  /** `a + b` on numbers: NaN is absorbing. */
  function Add(a: Num, b: Num): (r: Num)
    ensures r.Finite? <==> a.Finite? && b.Finite?
    ensures r.Finite? ==> r.v == a.v + b.v
  {
    if a.Finite? && b.Finite? then Finite(a.v + b.v) else NaN
  }

  /** `a > b`: false whenever either side is NaN. */
  predicate Greater(a: Num, b: Num) {
    a.Finite? && b.Finite? && a.v > b.v
  }

  /** `a >= b`: false whenever either side is NaN. */
  predicate AtLeast(a: Num, b: Num) {
    a.Finite? && b.Finite? && a.v >= b.v
  }

  // ---------------------------------------------------------------------------
  // The decimal grammar, stated independently of the scanner.

  /** `s` is a sign ("", "+" or "-") followed by a well-formed unsigned part with some digit. */
  ghost predicate LiteralParts(s: string, sign: string, u: Unsigned) {
    && (sign == "" || sign == "+" || sign == "-")
    && u.WellFormed() && u.HasDigit()
    && s == sign + u.Text()
  }

  ghost predicate IsDecimalLiteral(s: string) {
    exists sign, u :: LiteralParts(s, sign, u)
  }

  /** The value a literal denotes. */
  ghost function LiteralValue(sign: string, u: Unsigned): real
    requires u.WellFormed()
  {
    if sign == "-" then -u.Magnitude() else u.Magnitude()
  }

  /** No digit other than '0' occurs. */
  predicate NoNonzeroDigit(s: string) {
    forall i :: 0 <= i < |s| ==> !('1' <= s[i] <= '9')
  }

  lemma {:induction false} LeadingDigitsOf(a: string, t: string)
    requires AllDigits(a)
    requires t == "" || !IsDigit(t[0])
    ensures LeadingDigits(a + t) == a
  {
    if a == "" {
      assert a + t == t;
    } else {
      assert (a + t)[1..] == a[1..] + t;
      LeadingDigitsOf(a[1..], t);
      assert a == [a[0]] + a[1..];
    }
  }

  /** The unsigned scanner reads back any well-formed unsigned part exactly. */
  lemma ScanUnsignedText(u: Unsigned)
    requires u.WellFormed()
    ensures ScanUnsigned(u.Text()) == u
  {
    var dotText := if u.dot then "." else "";
    var rest := u.Text();
    assert rest == u.intDigits + (dotText + u.fracDigits);
    LeadingDigitsOf(u.intDigits, dotText + u.fracDigits);
    assert rest[|u.intDigits|..] == dotText + u.fracDigits;
    if u.dot {
      assert (dotText + u.fracDigits)[1..] == u.fracDigits + "";
      LeadingDigitsOf(u.fracDigits, "");
    }
  }

  /** A literal's first character is a sign only when the literal has one. */
  lemma LiteralSign(s: string, sign: string, u: Unsigned)
    requires LiteralParts(s, sign, u)
    ensures s != "" && (IsSign(s[0]) <==> sign != "")
    ensures sign != "" ==> s[1..] == u.Text() && (s[0] == '-' <==> sign == "-")
    ensures sign == "" ==> s == u.Text()
  {
    if sign == "" {
      assert s == u.Text();
      if u.intDigits != "" {
        assert s[0] == u.intDigits[0];
      } else {
        assert s[0] == '.';
      }
    } else {
      assert s[0] == sign[0];
      assert s[1..] == u.Text();
    }
  }

  /** Both conversions read a well-formed literal as the value it denotes. */
  lemma LiteralConverts(s: string, sign: string, u: Unsigned)
    requires LiteralParts(s, sign, u)
    ensures ToNumber(s) == Finite(LiteralValue(sign, u))
    ensures ParseFloat(s) == ToNumber(s)
  {
    LiteralSign(s, sign, u);
    ScanUnsignedText(u);
    var d := ScanDecimal(s);
    if sign == "" {
      assert d == Scan(false, 0, u);
    } else {
      assert d == Scan(sign == "-", 1, u);
    }
    assert d.signLength + |u.Text()| == |s|;
    assert ScanValue(d) == LiteralValue(sign, u);
  }

  /** Unary plus yields a number exactly for the empty text and the decimal literals. */
  lemma ToNumberFinite(s: string)
    ensures ToNumber(s).Finite? <==> s == "" || IsDecimalLiteral(s)
  {
    if s != "" {
      if IsDecimalLiteral(s) {
        var sign, u :| LiteralParts(s, sign, u);
        LiteralConverts(s, sign, u);
      }
      if ToNumber(s).Finite? {
        var d := ScanDecimal(s);
        var sign := s[..d.signLength];
        assert s == sign + s[d.signLength..];
        assert s[d.signLength..] == d.body.Text();
        assert LiteralParts(s, sign, d.body);
      }
    }
  }

  lemma {:induction false} DigitsValueZero(ds: string)
    requires AllDigits(ds)
    ensures DigitsValue(ds) == 0 <==> forall i :: 0 <= i < |ds| ==> ds[i] == '0'
  {
    if ds != "" {
      var init := ds[..|ds| - 1];
      DigitsValueZero(init);
      assert forall i :: 0 <= i < |init| ==> init[i] == ds[i];
    }
  }

  /** A concatenation has a nonzero digit exactly when one of its parts has. */
  lemma NoNonzeroDigitConcat(a: string, b: string)
    ensures NoNonzeroDigit(a + b) <==> NoNonzeroDigit(a) && NoNonzeroDigit(b)
  {
    var t := a + b;
    assert forall i :: 0 <= i < |a| ==> t[i] == a[i];
    assert forall i :: 0 <= i < |b| ==> t[|a| + i] == b[i];
    if NoNonzeroDigit(a) && NoNonzeroDigit(b) {
      forall i | 0 <= i < |t| ensures !('1' <= t[i] <= '9') {
        if i >= |a| {
          assert t[i] == b[i - |a|];
        }
      }
    }
  }

  /** A digit run denotes zero exactly when it has no nonzero digit. */
  lemma DigitsZeroText(ds: string)
    requires AllDigits(ds)
    ensures DigitsValue(ds) == 0 <==> NoNonzeroDigit(ds)
  {
    DigitsValueZero(ds);
  }

  /** An integer part plus a scaled fraction, both non-negative, is zero only when both are. */
  lemma ScaledSumZero(m: nat, n: nat, p: nat)
    requires p >= 1
    ensures m as real + n as real / p as real == 0.0 <==> m == 0 && n == 0
  {
    assert n as real / p as real >= 0.0;
  }

  /** An unsigned part is zero exactly when its every digit is '0'. */
  lemma MagnitudeZero(u: Unsigned)
    requires u.WellFormed()
    ensures u.Magnitude() == 0.0 <==> NoNonzeroDigit(u.Text())
  {
    DigitsZeroText(u.intDigits);
    DigitsZeroText(u.fracDigits);
    var dotText := if u.dot then "." else "";
    assert NoNonzeroDigit(dotText);
    NoNonzeroDigitConcat(dotText, u.fracDigits);
    NoNonzeroDigitConcat(u.intDigits, dotText + u.fracDigits);
    assert u.Text() == u.intDigits + (dotText + u.fracDigits);
    ScaledSumZero(DigitsValue(u.intDigits), DigitsValue(u.fracDigits), Pow10(|u.fracDigits|));
  }

  /**
   * `+s === 0` holds exactly for the empty text and for the literals whose every
   * digit is '0' ("0", "-0", "0.00", ".0", "00." ...).
   */
  lemma ToNumberZero(s: string)
    ensures ToNumber(s) == Finite(0.0) <==> s == "" || (IsDecimalLiteral(s) && NoNonzeroDigit(s))
  {
    ToNumberFinite(s);
    if s != "" && IsDecimalLiteral(s) {
      var sign, u :| LiteralParts(s, sign, u);
      LiteralConverts(s, sign, u);
      MagnitudeZero(u);
      NoNonzeroDigitConcat(sign, u.Text());
      assert NoNonzeroDigit(sign);
    }
  }
}
