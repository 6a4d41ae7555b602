/** JavaScript numbers as the form code and the route handlers see them: `String(n)`,
    `Number(s)` and `parseInt(s)` / `parseFloat(s)`, restricted to integral values. */
module Numbers {

  /** A JavaScript number that is an integer, or NaN. */
  datatype JsNumber = Finite(value: int) | NaN

  predicate IsDigit(c: char) { '0' <= c <= '9' }

  predicate AllDigits(s: string) { forall i :: 0 <= i < |s| ==> IsDigit(s[i]) }

  /** The white space `parseInt` skips and `Number` trims (its ASCII members). */
  predicate IsSpace(c: char) { c == ' ' || c == '\t' || c == '\n' || c == '\r' || c == '\U{B}' || c == '\U{C}' }

  function DigitChar(d: nat): (c: char)
    requires d < 10
    ensures IsDigit(c)
  {
    ('0' as int + d) as char
  }

  function DigitValue(c: char): (d: nat)
    requires IsDigit(c)
    ensures d < 10 && DigitChar(d) == c
  {
    c as int - '0' as int
  }

  /** Decimal digits of `n`, most significant first, without leading zeros. */
  function NatDigits(n: nat): (s: string)
    ensures s != [] && AllDigits(s)
    ensures n > 0 ==> s[0] != '0'
    decreases n
  {
    if n < 10 then [DigitChar(n)] else NatDigits(n / 10) + [DigitChar(n % 10)]
  }

  /** The value of a string of decimal digits. */
  function DigitsValue(s: string): nat
    requires AllDigits(s)
    decreases |s|
  {
    if s == [] then 0 else DigitsValue(s[..|s| - 1]) * 10 + DigitValue(s[|s| - 1])
  }

  lemma {:induction false} DigitsValueOfNatDigits(n: nat)
    ensures DigitsValue(NatDigits(n)) == n
    decreases n
  {
    if n >= 10 {
      DigitsValueOfNatDigits(n / 10);
      var s := NatDigits(n / 10) + [DigitChar(n % 10)];
      assert s[..|s| - 1] == NatDigits(n / 10);
    }
  }

  /** `String(n)` for an integer or NaN. */
  function NumberToString(x: JsNumber): (s: string)
    ensures x.NaN? ==> s == "NaN"
    ensures x.Finite? ==> s != [] && (s[0] == '-' <==> x.value < 0)
  {
    match x
    case NaN => "NaN"
    case Finite(n) => if n < 0 then "-" + NatDigits(-n) else NatDigits(n)
  }

  function SkipSpaces(s: string): (r: string)
    ensures |r| <= |s| && r == s[|s| - |r|..]
    ensures r != [] ==> !IsSpace(r[0])
    decreases |s|
  {
    if s != [] && IsSpace(s[0]) then SkipSpaces(s[1..]) else s
  }

  function TrimEnd(s: string): (r: string)
    ensures |r| <= |s| && r == s[..|r|]
    ensures r != [] ==> !IsSpace(r[|r| - 1])
    decreases |s|
  {
    if s != [] && IsSpace(s[|s| - 1]) then TrimEnd(s[..|s| - 1]) else s
  }

  /** The longest prefix of `s` made of decimal digits. */
  function LeadingDigits(s: string): (r: string)
    ensures |r| <= |s| && r == s[..|r|] && AllDigits(r)
    ensures |r| < |s| ==> !IsDigit(s[|r|])
    decreases |s|
  {
    if s != [] && IsDigit(s[0]) then [s[0]] + LeadingDigits(s[1..]) else []
  }

  /** An optional sign: whether it is '-' and what follows it. */
  function SplitSign(s: string): (bool, string) {
    if s != [] && (s[0] == '-' || s[0] == '+') then (s[0] == '-', s[1..]) else (false, s)
  }

  function Signed(negative: bool, magnitude: nat): int {
    if negative then -(magnitude as int) else magnitude
  }

  /** `parseInt(s)` (base 10): skip leading space, an optional sign, then as many digits as
      follow; NaN when no digit follows. */
  function ParseInt(s: string): (x: JsNumber)
    ensures x.NaN? <==> LeadingDigits(SplitSign(SkipSpaces(s)).1) == []
  {
    var (negative, rest) := SplitSign(SkipSpaces(s));
    var digits := LeadingDigits(rest);
    if digits == [] then NaN else Finite(Signed(negative, DigitsValue(digits)))
  }

  /** `Number(s)`: blank text is 0; otherwise the whole trimmed text must be a signed
      decimal integer, else NaN. */
  function ToNumber(s: string): (x: JsNumber)
    ensures TrimEnd(SkipSpaces(s)) == [] ==> x == Finite(0)
  {
    var t := TrimEnd(SkipSpaces(s));
    if t == [] then Finite(0)
    else
      var (negative, rest) := SplitSign(t);
      if rest != [] && AllDigits(rest) then Finite(Signed(negative, DigitsValue(rest))) else NaN
  }

  lemma LeadingDigitsOfDigits(s: string)
    requires AllDigits(s)
    ensures LeadingDigits(s) == s
  {
  }

  /** `parseInt` of a text whose sign is followed by nothing but digits. */
  lemma ParseIntOfSignedDigits(s: string, negative: bool, digits: string)
    requires SplitSign(SkipSpaces(s)) == (negative, digits)
    requires digits != [] && AllDigits(digits)
    ensures ParseInt(s) == Finite(Signed(negative, DigitsValue(digits)))
  {
    LeadingDigitsOfDigits(digits);
  }

  /** The decimal text of an integer parses back to it. */
  lemma ParseIntOfFinite(n: int)
    ensures ParseInt(NumberToString(Finite(n))) == Finite(n)
  {
    var m: nat := if n < 0 then -n else n;
    var digits := NatDigits(m);
    var s := NumberToString(Finite(n));
    assert SplitSign(SkipSpaces(s)) == (n < 0, digits) by {
      assert s == (if n < 0 then "-" else "") + digits;
      assert s != [] && !IsSpace(s[0]);
      assert SkipSpaces(s) == s;
      if n < 0 {
        assert s[1..] == digits;
      }
    }
    ParseIntOfSignedDigits(s, n < 0, digits);
    DigitsValueOfNatDigits(m);
  }

  /** "NaN" has no leading digit. */
  lemma ParseIntOfNaN()
    ensures ParseInt(NumberToString(NaN)) == NaN
  {
    assert SkipSpaces("NaN") == "NaN";
    assert SplitSign("NaN") == (false, "NaN");
    assert LeadingDigits("NaN") == [];
  }

  /** `parseInt(String(x)) == x`: what the form sends, the route reads back. */
  lemma ParseIntOfString(x: JsNumber)
    ensures ParseInt(NumberToString(x)) == x
  {
    if x.NaN? {
      ParseIntOfNaN();
    } else {
      ParseIntOfFinite(x.value);
    }
  }

  /** `Number(String(x)) == x`. */
  lemma ToNumberOfString(x: JsNumber)
    ensures ToNumber(NumberToString(x)) == x
  {
    var s := NumberToString(x);
    if x.Finite? {
      var n := x.value;
      var m: nat := if n < 0 then -n else n;
      var digits := NatDigits(m);
      assert s == (if n < 0 then "-" else "") + digits;
      assert !IsSpace(s[0]) && !IsSpace(s[|s| - 1]);
      assert SkipSpaces(s) == s && TrimEnd(s) == s;
      DigitsValueOfNatDigits(m);
      if n < 0 {
        assert s[1..] == digits;
        assert SplitSign(s) == (true, digits);
      } else {
        assert SplitSign(s) == (false, digits);
      }
    } else {
      assert SkipSpaces(s) == s && TrimEnd(s) == s;
      assert SplitSign(s) == (false, s) && !IsDigit(s[0]);
    }
  }
}
