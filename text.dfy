/**
 * The string primitives the validation rules rely on: `trim()`-blankness,
 * `Number(...)` on a string, and the unanchored e-mail pattern `\S+@\S+\.\S+`.
 */
module Text {
  import opened Wrappers

  /** The ASCII whitespace characters that `trim()` strips and `\S` refuses. */
  predicate IsSpace(c: char) {
    c == ' ' || c == '\t' || c == '\n' || c == '\r' || c == '\U{000B}' || c == '\U{000C}'
  }

  /** `!s.trim()`: the string is empty once surrounding whitespace is removed. */
  predicate IsBlank(s: string) {
    forall i :: 0 <= i < |s| ==> IsSpace(s[i])
  }

  predicate IsDigit(c: char) {
    '0' <= c <= '9'
  }

  predicate AllDigits(s: string) {
    forall i :: 0 <= i < |s| ==> IsDigit(s[i])
  }

  function TrimStart(s: string): (r: string)
    ensures |r| <= |s| && r == s[|s| - |r|..]
    ensures r == [] || !IsSpace(r[0])
    ensures IsBlank(s[..|s| - |r|])
  {
    if s != [] && IsSpace(s[0]) then
      var r := TrimStart(s[1..]);
      assert s[..|s| - |r|] == [s[0]] + s[1..][..|s| - 1 - |r|];
      r
    else
      s
  }

  function TrimEnd(s: string): (r: string)
    ensures |r| <= |s| && r == s[..|r|]
    ensures r == [] || !IsSpace(r[|r| - 1])
    ensures IsBlank(s[|r|..])
  {
    if s != [] && IsSpace(s[|s| - 1]) then
      var r := TrimEnd(s[..|s| - 1]);
      assert s[|r|..] == s[..|s| - 1][|r|..] + [s[|s| - 1]];
      r
    else
      s
  }

  /** `s.trim()`. */
  function Trim(s: string): string {
    TrimEnd(TrimStart(s))
  }

  /** Trimming leaves nothing exactly when the string is blank. */
  lemma TrimEmptyIffBlank(s: string)
    ensures Trim(s) == [] <==> IsBlank(s)
  {
    var t := TrimStart(s);
    if !IsBlank(s) {
      var i :| 0 <= i < |s| && !IsSpace(s[i]);
      var d := |s| - |t|;
      forall k | 0 <= k < d
        ensures IsSpace(s[k])
      {
        assert s[..d][k] == s[k];
      }
      assert t[i - d] == s[i];
      assert t[0..] == t;
    }
  }

  /** The UTF-16 code units a character takes: two outside the Basic Multilingual Plane. */
  function Utf16Units(c: char): nat {
    if c as int >= 0x1_0000 then 2 else 1
  }

  /** `s.length` in JavaScript, which counts UTF-16 code units rather than characters. */
  function Utf16Length(s: string): (n: nat)
    ensures |s| <= n <= 2 * |s|
    ensures n == 0 <==> s == []
  {
    if s == [] then 0 else Utf16Units(s[0]) + Utf16Length(s[1..])
  }

  /** Within the Basic Multilingual Plane the two lengths agree. */
  lemma {:induction false} BmpUtf16Length(s: string)
    requires forall i :: 0 <= i < |s| ==> s[i] as int < 0x1_0000
    ensures Utf16Length(s) == |s|
  {
    if s != [] {
      BmpUtf16Length(s[1..]);
    }
  }

  /** Characters outside the Basic Multilingual Plane count twice. */
  lemma {:induction false} AstralUtf16Length(s: string)
    requires forall i :: 0 <= i < |s| ==> s[i] as int >= 0x1_0000
    ensures Utf16Length(s) == 2 * |s|
  {
    if s != [] {
      AstralUtf16Length(s[1..]);
    }
  }

  function DigitValue(c: char): nat
    requires IsDigit(c)
  {
    (c as int) - ('0' as int)
  }

  /** The integer a string of decimal digits denotes. */
  function DigitsValue(ds: string): nat
    requires AllDigits(ds)
  {
    if ds == [] then 0 else 10 * DigitsValue(ds[..|ds| - 1]) + DigitValue(ds[|ds| - 1])
  }

  /** The value of the digits after a decimal point: "25" denotes 0.25. */
  function FractionValue(ds: string): (v: real)
    requires AllDigits(ds)
    ensures 0.0 <= v < 1.0
  {
    if ds == [] then 0.0 else (DigitValue(ds[0]) as real + FractionValue(ds[1..])) / 10.0
  }

  /** Position of the first '.', or |s| when there is none. */
  function IndexOfDot(s: string): (k: nat)
    ensures k <= |s|
    ensures k < |s| ==> s[k] == '.'
    ensures forall i :: 0 <= i < k ==> s[i] != '.'
  {
    if s == [] then 0 else if s[0] == '.' then 0 else 1 + IndexOfDot(s[1..])
  }

  /** An unsigned decimal literal: digits, an optional point, digits, at least one digit. */
  function ParseUnsigned(u: string): (r: Option<real>)
    ensures r.Some? ==> r.value >= 0.0
  {
    var k := IndexOfDot(u);
    var whole := u[..k];
    var frac := if k < |u| then u[k + 1..] else "";
    if AllDigits(whole) && AllDigits(frac) && |whole| + |frac| > 0 then
      Some(DigitsValue(whole) as real + FractionValue(frac))
    else
      None
  }

  /**
   * `Number(s)` for the strings a price input produces, None standing for NaN:
   * surrounding whitespace is ignored, a blank string is 0, then an optional
   * sign and an unsigned decimal literal.
   */
  function ParseNumber(s: string): (r: Option<real>)
    ensures IsBlank(s) ==> r == Some(0.0)
  {
    TrimEmptyIffBlank(s);
    var t := Trim(s);
    if t == [] then Some(0.0)
    else if t[0] == '-' then
      match ParseUnsigned(t[1..])
      case Some(v) => Some(-v)
      case None => None
    else if t[0] == '+' then ParseUnsigned(t[1..])
    else ParseUnsigned(t)
  }

  /** No character of the string is whitespace (`\S*`). */
  predicate NoSpace(t: string) {
    forall k :: 0 <= k < |t| ==> !IsSpace(t[k])
  }

  /** A string that neither starts nor ends with whitespace is its own trim. */
  lemma TrimUnpadded(s: string)
    requires s != [] ==> !IsSpace(s[0]) && !IsSpace(s[|s| - 1])
    ensures Trim(s) == s
  {
  }

  /** A non-empty string of digits denotes the integer it spells. */
  lemma ParseNumberOfDigits(ds: string)
    requires |ds| > 0 && AllDigits(ds)
    ensures ParseNumber(ds) == Some(DigitsValue(ds) as real)
  {
    assert IsDigit(ds[0]) && IsDigit(ds[|ds| - 1]);
    TrimUnpadded(ds);
    assert ds[0] != '-' && ds[0] != '+';
    UnsignedDigits(ds);
  }

  lemma UnsignedDigits(ds: string)
    requires |ds| > 0 && AllDigits(ds)
    ensures ParseUnsigned(ds) == Some(DigitsValue(ds) as real)
  {
    var k := IndexOfDot(ds);
    assert k == |ds|;
    assert ds[..k] == ds;
  }

  /** `Number("10000")` is ten thousand. */
  lemma TenThousandParses()
    ensures ParseNumber("10000") == Some(10000.0)
  {
    DigitLiterals();
    ParseNumberOfDigits("10000");
  }

  /** `Number("5000")` is five thousand. */
  lemma FiveThousandParses()
    ensures ParseNumber("5000") == Some(5000.0)
  {
    DigitLiterals();
    ParseNumberOfDigits("5000");
  }

  /** The integers the digit strings of those literals spell. */
  lemma DigitLiterals()
    ensures DigitsValue("10000") == 10000 && DigitsValue("5000") == 5000
  {
    assert DigitsValue("1") == 1 by { assert "1"[..0] == ""; }
    assert DigitsValue("10") == 10 by { assert "10"[..1] == "1"; }
    assert DigitsValue("100") == 100 by { assert "100"[..2] == "10"; }
    assert DigitsValue("1000") == 1000 by { assert "1000"[..3] == "100"; }
    assert DigitsValue("10000") == 10000 by { assert "10000"[..4] == "1000"; }
    assert DigitsValue("5") == 5 by { assert "5"[..0] == ""; }
    assert DigitsValue("50") == 50 by { assert "50"[..1] == "5"; }
    assert DigitsValue("500") == 500 by { assert "500"[..2] == "50"; }
    assert DigitsValue("5000") == 5000 by { assert "5000"[..3] == "500"; }
  }

  /** `Number("abc")` is NaN. */
  lemma WordIsNaN()
    ensures ParseNumber("abc") == None
  {
    assert Trim("abc") == "abc" by { TrimUnpadded("abc"); }
    assert ParseUnsigned("abc") == None by {
      assert IndexOfDot("abc") == 3 by {
        assert "abc"[1..] == "bc" && "bc"[1..] == "c" && "c"[1..] == "";
      }
      assert "abc"[..3] == "abc";
      assert !AllDigits("abc") by { assert !IsDigit("abc"[0]); }
    }
  }

  /**
   * `/\S+@\S+\.\S+/.test(s)` read literally: some substring s[i..j] is one or
   * more non-space characters, '@', one or more non-space characters, '.', and
   * one or more non-space characters.
   */
  ghost predicate RegexMatches(s: string) {
    exists i, at, dot, j ::
      0 <= i < at && at + 1 < dot && dot + 1 < j <= |s| &&
      s[at] == '@' && s[dot] == '.' && NoSpace(s[i..j])
  }

  /**
   * The same test by positions only: a non-space character before an '@',
   * a non-empty run of non-space characters up to a later '.', and a non-space
   * character after that '.'.
   */
  predicate EmailShaped(s: string) {
    exists at, dot | 0 <= at < |s| && 0 <= dot < |s| :: EmailAt(s, at, dot)
  }

  /** The '@' at position `at` and the '.' at position `dot` make `s` e-mail shaped. */
  predicate EmailAt(s: string, at: int, dot: int) {
    0 < at && at + 1 < dot && dot + 1 < |s| &&
    s[at] == '@' && s[dot] == '.' &&
    !IsSpace(s[at - 1]) && !IsSpace(s[dot + 1]) && NoSpace(s[at + 1..dot])
  }

  lemma EmailShapedMatchesRegex(s: string, at: int, dot: int)
    requires EmailAt(s, at, dot)
    ensures RegexMatches(s)
  {
    var t := s[at - 1..dot + 2];
    forall k | 0 <= k < |t| ensures !IsSpace(t[k]) {
      assert t[k] == s[at - 1 + k];
      if 2 <= k < dot - at + 1 {
        assert t[k] == s[at + 1..dot][k - 2];
      }
    }
    assert NoSpace(s[at - 1..dot + 2]);
  }

  lemma RegexMatchIsEmailShaped(s: string, i: int, at: int, dot: int, j: int)
    requires 0 <= i < at && at + 1 < dot && dot + 1 < j <= |s|
    requires s[at] == '@' && s[dot] == '.' && NoSpace(s[i..j])
    ensures EmailShaped(s)
  {
    assert s[at - 1] == s[i..j][at - 1 - i];
    assert s[dot + 1] == s[i..j][dot + 1 - i];
    var mid := s[at + 1..dot];
    forall k | 0 <= k < |mid| ensures !IsSpace(mid[k]) {
      assert mid[k] == s[i..j][at + 1 + k - i];
    }
    assert EmailAt(s, at, dot);
  }

  /** The positional test agrees with the pattern on every string. */
  lemma EmailShapedIffRegex(s: string)
    ensures EmailShaped(s) <==> RegexMatches(s)
  {
    if EmailShaped(s) {
      EmailShapedImpliesRegex(s);
    }
    if RegexMatches(s) {
      RegexImpliesEmailShaped(s);
    }
  }

  lemma EmailShapedImpliesRegex(s: string)
    requires EmailShaped(s)
    ensures RegexMatches(s)
  {
    var at, dot :| 0 <= at < |s| && 0 <= dot < |s| && EmailAt(s, at, dot);
    EmailShapedMatchesRegex(s, at, dot);
  }

  lemma RegexImpliesEmailShaped(s: string)
    requires RegexMatches(s)
    ensures EmailShaped(s)
  {
    var i, at, dot, j :| 0 <= i < at && at + 1 < dot && dot + 1 < j <= |s| &&
      s[at] == '@' && s[dot] == '.' && NoSpace(s[i..j]);
    RegexMatchIsEmailShaped(s, i, at, dot, j);
  }

  /** A string without '@' never has the e-mail shape. */
  lemma NoAtNotEmail(s: string)
    requires forall i :: 0 <= i < |s| ==> s[i] != '@'
    ensures !EmailShaped(s)
  {
  }
}
