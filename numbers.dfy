/** Decimal integers as text, as the two tiers read and write them:
    .NET's `int.TryParse` (default `NumberStyles.Integer`, culture signs
    `-` and `+`), `int.ToString()`, JavaScript's `parseInt(s, 10)` and
    `String(n)` for an integral number. */
module Numbers {
  import opened Common

  const MinInt32: int := -0x8000_0000
  const MaxInt32: int := 0x7FFF_FFFF

  /** C#'s `int`. */
  type Int32 = x: int | MinInt32 <= x <= MaxInt32

  predicate IsDigit(c: char) { '0' <= c <= '9' }

  predicate AllDigits(s: string) { forall i | 0 <= i < |s| :: IsDigit(s[i]) }

  predicate AllSatisfy(s: string, p: char -> bool) { forall i | 0 <= i < |s| :: p(s[i]) }

  function DigitChar(d: nat): (c: char)
    requires d < 10
    ensures IsDigit(c) && c as int == '0' as int + d
  {
    ('0' as int + d) as char
  }

  /** The value of a string of decimal digits, most significant first. */
  function DigitsValue(s: string): nat
    requires AllDigits(s)
  {
    if s == [] then 0 else DigitsValue(s[..|s| - 1]) * 10 + (s[|s| - 1] as int - '0' as int)
  }

  /** The shortest decimal digits of `n`. */
  function NatDigits(n: nat): (s: string)
    ensures |s| >= 1 && AllDigits(s)
    ensures DigitsValue(s) == n
    ensures s[0] == '0' <==> n == 0
  {
    if n < 10 then [DigitChar(n)]
    else
      var t := NatDigits(n / 10);
      var s := t + [DigitChar(n % 10)];
      assert s[..|s| - 1] == t;
      s
  }

  /** `n.ToString()` in C# and `String(n)` in JavaScript: an optional `-`
      followed by the shortest decimal digits. */
  function FormatInt(n: int): (s: string)
    ensures |s| >= 1
    ensures s[0] == '-' <==> n < 0
    ensures n >= 0 ==> AllDigits(s) && DigitsValue(s) == n && (s == "0" || s[0] != '0')
    ensures n < 0 ==> AllDigits(s[1..]) && DigitsValue(s[1..]) == -n && s[1] != '0'
  {
    if n < 0 then
      var d := NatDigits(-n);
      assert ("-" + d)[1..] == d;
      "-" + d
    else NatDigits(n)
  }

  /** JavaScript's `s.length`: UTF-16 code units, so a character above
      U+FFFF counts twice. */
  function JsLength(s: string): (n: nat)
    ensures |s| <= n <= 2 * |s|
    ensures (forall i | 0 <= i < |s| :: s[i] <= '\U{FFFF}') ==> n == |s|
  {
    if s == [] then 0
    else (if s[0] > '\U{FFFF}' then 2 else 1) + JsLength(s[1..])
  }

  /** Two characters outside the Basic Multilingual Plane have length 4. */
  lemma JsLengthOfAstral()
    ensures JsLength("\U{1D54F}\U{1D54F}") == 4
  {
  }

  // ---------------------------------------------------------------------
  // White space

  /** White space that `NumberStyles.AllowLeadingWhite` and
      `AllowTrailingWhite` skip: U+0009 to U+000D and U+0020. */
  predicate IsNetWhiteSpace(c: char) { c == ' ' || '\t' <= c <= '\r' }

  /** White space that JavaScript's `parseInt` skips (StrWhiteSpaceChar):
      the line terminators, TAB, VT, FF, ZWNBSP and the space separators. */
  predicate IsJsWhiteSpace(c: char) {
    || IsNetWhiteSpace(c)
    || c == '\U{00A0}' || c == '\U{1680}'
    || '\U{2000}' <= c <= '\U{200A}'
    || c == '\U{2028}' || c == '\U{2029}'
    || c == '\U{202F}' || c == '\U{205F}' || c == '\U{3000}'
    || c == '\U{FEFF}'
  }

  function TrimLeading(s: string, isWhite: char -> bool): string {
    if s != [] && isWhite(s[0]) then TrimLeading(s[1..], isWhite) else s
  }

  /** Trimming the front leaves a suffix. */
  lemma {:induction false} TrimLeadingIsSuffix(s: string, isWhite: char -> bool)
    ensures var r := TrimLeading(s, isWhite); |r| <= |s| && r == s[|s| - |r|..]
  {
    if s != [] && isWhite(s[0]) {
      TrimLeadingIsSuffix(s[1..], isWhite);
      var r := TrimLeading(s[1..], isWhite);
      assert s[1..][|s| - 1 - |r|..] == s[|s| - |r|..];
    }
  }

  function TrimTrailing(s: string, isWhite: char -> bool): string {
    if s != [] && isWhite(s[|s| - 1]) then TrimTrailing(s[..|s| - 1], isWhite) else s
  }

  /** Trimming the back leaves a prefix. */
  lemma {:induction false} TrimTrailingIsPrefix(s: string, isWhite: char -> bool)
    ensures var r := TrimTrailing(s, isWhite); |r| <= |s| && r == s[..|r|]
  {
    if s != [] && isWhite(s[|s| - 1]) {
      TrimTrailingIsPrefix(s[..|s| - 1], isWhite);
    }
  }

  lemma {:induction false} TrimLeadingWhitePrefix(ws: string, t: string, isWhite: char -> bool)
    requires AllSatisfy(ws, isWhite)
    ensures TrimLeading(ws + t, isWhite) == TrimLeading(t, isWhite)
  {
    if ws != [] {
      var u := ws + t;
      assert u[0] == ws[0] && isWhite(u[0]);
      assert u[1..] == ws[1..] + t;
      assert TrimLeading(u, isWhite) == TrimLeading(u[1..], isWhite);
      TrimLeadingWhitePrefix(ws[1..], t, isWhite);
    } else {
      assert ws + t == t;
    }
  }

  lemma {:induction false} TrimTrailingWhiteSuffix(t: string, ws: string, isWhite: char -> bool)
    requires AllSatisfy(ws, isWhite)
    ensures TrimTrailing(t + ws, isWhite) == TrimTrailing(t, isWhite)
  {
    if ws != [] {
      var u := t + ws;
      assert u[|u| - 1] == ws[|ws| - 1] && isWhite(u[|u| - 1]);
      assert u[..|u| - 1] == t + ws[..|ws| - 1];
      TrimTrailingWhiteSuffix(t, ws[..|ws| - 1], isWhite);
    } else {
      assert t + ws == t;
    }
  }

  // ---------------------------------------------------------------------
  // .NET int.TryParse

  /** `int.TryParse(s, out v)` with the default `NumberStyles.Integer`:
      leading and trailing white space, at most one leading sign, one or more
      ASCII digits, and a value inside the `int` range. A `null` string never
      parses. `None` is the `false` return. */
  function TryParseInt32(s: Option<string>): (r: Option<Int32>)
    ensures r.Some? ==> s.Some? && exists i | 0 <= i < |s.value| :: IsDigit(s.value[i])
  {
    if s.None? then None
    else
      var t := TrimTrailing(TrimLeading(s.value, IsNetWhiteSpace), IsNetWhiteSpace);
      var hasSign := |t| > 0 && (t[0] == '-' || t[0] == '+');
      var negative := |t| > 0 && t[0] == '-';
      var digits := if hasSign then t[1..] else t;
      if digits == [] || !AllDigits(digits) then None
      else
        var u := TrimLeading(s.value, IsNetWhiteSpace);
        TrimLeadingIsSuffix(s.value, IsNetWhiteSpace);
        TrimTrailingIsPrefix(u, IsNetWhiteSpace);
        var k := if hasSign then 1 else 0;
        assert digits[0] == t[k] == u[k] == s.value[|s.value| - |u| + k];
        var v: int := if negative then 0 - DigitsValue(digits) else DigitsValue(digits);
        if MinInt32 <= v <= MaxInt32 then Some(v) else None
  }

  /** The digits-and-sign part of a formatted number is a fixed point of both trims. */
  lemma FormattedIsTrimmed(n: int)
    ensures TrimLeading(FormatInt(n), IsNetWhiteSpace) == FormatInt(n)
    ensures TrimTrailing(FormatInt(n), IsNetWhiteSpace) == FormatInt(n)
  {
    var f := FormatInt(n);
    var d := if n < 0 then NatDigits(-n) else NatDigits(n);
    assert f[|f| - 1] == d[|d| - 1];
  }

  /** Every `int` survives formatting, white-space padding and parsing,
      negative values included: `int.TryParse` accepts a leading `-` and
      surrounding white space. */
  lemma TryParseFormatted(ws1: string, n: Int32, ws2: string)
    requires AllSatisfy(ws1, IsNetWhiteSpace) && AllSatisfy(ws2, IsNetWhiteSpace)
    ensures TryParseInt32(Some(ws1 + FormatInt(n) + ws2)) == Some(n)
  {
    var f := FormatInt(n);
    assert ws1 + f + ws2 == ws1 + (f + ws2);
    TrimLeadingWhitePrefix(ws1, f + ws2, IsNetWhiteSpace);
    FormattedIsTrimmed(n);
    assert TrimLeading(f + ws2, IsNetWhiteSpace) == f + ws2;
    TrimTrailingWhiteSuffix(f, ws2, IsNetWhiteSpace);
    if n < 0 {
      assert f[1..] == NatDigits(0 - n as int);
    }
  }

  /** The plain round trip: `int.TryParse(n.ToString())` gives back `n`. */
  lemma TryParseFormatInt(n: Int32)
    ensures TryParseInt32(Some(FormatInt(n))) == Some(n)
  {
    var f := FormatInt(n);
    assert "" + f + "" == f;
    TryParseFormatted("", n, "");
  }

  /** A decimal integer outside the `int` range does not parse. */
  lemma TryParseRejectsOutOfRange(n: int)
    requires n < MinInt32 || MaxInt32 < n
    ensures TryParseInt32(Some(FormatInt(n))) == None
  {
    var f := FormatInt(n);
    FormattedIsTrimmed(n);
    if n < 0 {
      assert f[1..] == NatDigits(0 - n as int);
    }
  }

  // ---------------------------------------------------------------------
  // JavaScript parseInt

  /** The longest prefix of `s` made of decimal digits. */
  function DigitPrefix(s: string): (p: string)
    ensures AllDigits(p) && p <= s
    ensures |p| < |s| ==> !IsDigit(s[|p|])
  {
    if s != [] && IsDigit(s[0]) then [s[0]] + DigitPrefix(s[1..]) else []
  }

  lemma {:induction false} DigitPrefixOfDigits(p: string, rest: string)
    requires AllDigits(p)
    requires rest == [] || !IsDigit(rest[0])
    ensures DigitPrefix(p + rest) == p
  {
    if p != [] {
      assert (p + rest)[1..] == p[1..] + rest;
      DigitPrefixOfDigits(p[1..], rest);
    }
  }

  /** `parseInt(s, 10)`: `None` stands for `NaN`. A `null` argument is
      first turned into the text `"null"`; leading white space is skipped,
      one sign is read, then the longest run of digits; whatever follows is
      ignored. */
  function JsParseInt(s: Option<string>): (r: Option<int>)
    ensures r.Some? ==> s.Some? && exists i | 0 <= i < |s.value| :: IsDigit(s.value[i])
  {
    var text := if s.None? then "null" else s.value;
    var t := TrimLeading(text, IsJsWhiteSpace);
    var hasSign := |t| > 0 && (t[0] == '-' || t[0] == '+');
    var negative := |t| > 0 && t[0] == '-';
    var digits := DigitPrefix(if hasSign then t[1..] else t);
    if digits == [] then None
    else
      var k := if hasSign then 1 else 0;
      TrimLeadingIsSuffix(text, IsJsWhiteSpace);
      assert IsDigit(t[k]) && t[k] == text[|text| - |t| + k];
      Some(if negative then 0 - DigitsValue(digits) else DigitsValue(digits))
  }

  /** `parseInt(String(n) + rest, 10) == n` for every integer `n`, as long
      as `rest` does not continue the digits: JavaScript's number round trip
      through text, and its tolerance of trailing text such as `"12px"`. */
  lemma JsParseIntFormatted(n: int, rest: string)
    requires rest == [] || !IsDigit(rest[0])
    ensures JsParseInt(Some(FormatInt(n) + rest)) == Some(n)
  {
    var f := FormatInt(n);
    var d := if n < 0 then NatDigits(-n) else NatDigits(n);
    assert TrimLeading(f + rest, IsJsWhiteSpace) == f + rest;
    if n < 0 {
      assert (f + rest)[1..] == d + rest;
    }
    DigitPrefixOfDigits(d, rest);
  }

  /** `parseInt(null, 10)` is `NaN`. */
  lemma JsParseIntNull()
    ensures JsParseInt(None) == None
  {
    assert TrimLeading("null", IsJsWhiteSpace) == "null";
  }
}
