/**
 * The part of JavaScript's global `parseInt` that the bot relies on when it reads
 * a subject number: leading white space is skipped, one optional sign is taken,
 * then the longest run of decimal digits; whatever follows is ignored, and when
 * there is no digit at all the result is NaN (here `None`).
 */
module JsParseInt {
  import opened Maybe

  /** ECMAScript's StrWhiteSpaceChar: the WhiteSpace and LineTerminator code points. */
  predicate IsJsWhitespace(c: char) {
    c == '\t' || c == '\n' || c == '\U{000B}' || c == '\U{000C}' || c == '\r' || c == ' '
    || c == '\U{00A0}' || c == '\U{1680}' || ('\U{2000}' <= c <= '\U{200A}')
    || c == '\U{2028}' || c == '\U{2029}' || c == '\U{202F}' || c == '\U{205F}'
    || c == '\U{3000}' || c == '\U{FEFF}'
  }

  predicate IsDigit(c: char) {
    '0' <= c <= '9'
  }

  predicate AllDigits(s: string) {
    forall i :: 0 <= i < |s| ==> IsDigit(s[i])
  }

  function DigitValue(c: char): nat
    requires IsDigit(c)
  {
    (c as int) - ('0' as int)
  }

  function DigitChar(d: nat): (c: char)
    requires d < 10
    ensures IsDigit(c) && DigitValue(c) == d
  {
    (('0' as int) + d) as char
  }

  /** What is left once the leading white space is dropped. */
  function TrimStart(s: string): (r: string)
    ensures |r| <= |s| && r == s[|s| - |r|..]
    ensures r == [] || !IsJsWhitespace(r[0])
    ensures forall i :: 0 <= i < |s| - |r| ==> IsJsWhitespace(s[i])
  {
    if s != [] && IsJsWhitespace(s[0]) then TrimStart(s[1..]) else s
  }

  /** The longest prefix made of decimal digits. */
  function LeadingDigits(s: string): (r: string)
    ensures |r| <= |s| && r == s[..|r|] && AllDigits(r)
    ensures |r| == |s| || !IsDigit(s[|r|])
  {
    if s != [] && IsDigit(s[0]) then [s[0]] + LeadingDigits(s[1..]) else []
  }

  /** The value of a digit string, most significant digit first. */
  function DigitsValue(ds: string): nat
    requires AllDigits(ds)
  {
    if ds == [] then 0 else 10 * DigitsValue(ds[..|ds| - 1]) + DigitValue(ds[|ds| - 1])
  }

  /** The text after the one optional sign. */
  function Unsigned(t: string): string {
    if t != [] && (t[0] == '-' || t[0] == '+') then t[1..] else t
  }

  /** `parseInt(s)` with no radix, read as a decimal prefix; `None` stands for NaN. */
  function ParseIntPrefix(s: string): (r: Option<int>)
    ensures r.Some? ==> TrimStart(s) != [] && (r.value < 0 ==> TrimStart(s)[0] == '-')
  {
    ParseTrimmed(TrimStart(s))
  }

  /** The sign and digits part of `parseInt`, once the white space is gone. */
  function ParseTrimmed(t: string): (r: Option<int>)
    ensures r.Some? ==> t != [] && (r.value < 0 ==> t[0] == '-')
  {
    var ds := LeadingDigits(Unsigned(t));
    if ds == [] then None
    else if t[0] == '-' then Some(-(DigitsValue(ds) as int))
    else Some(DigitsValue(ds))
  }

  /** The decimal form of a natural number, as JavaScript's number-to-string conversion writes it. */
  function Decimal(n: nat): (r: string)
    ensures |r| > 0 && AllDigits(r)
    ensures r[0] == '0' ==> n == 0
  {
    if n < 10 then [DigitChar(n)] else Decimal(n / 10) + [DigitChar(n % 10)]
  }

  lemma {:induction false} DecimalValue(n: nat)
    ensures DigitsValue(Decimal(n)) == n
  {
    if n >= 10 {
      DecimalValue(n / 10);
      var d := Decimal(n);
      assert d[..|d| - 1] == Decimal(n / 10);
    }
  }

  lemma {:induction false} LeadingDigitsStopAtNonDigit(ds: string, rest: string)
    requires AllDigits(ds)
    requires rest == [] || !IsDigit(rest[0])
    ensures LeadingDigits(ds + rest) == ds
  {
    if ds == [] {
      assert ds + rest == rest;
    } else {
      assert (ds + rest)[1..] == ds[1..] + rest;
      LeadingDigitsStopAtNonDigit(ds[1..], rest);
    }
  }

  /** Text that does not start with white space has none to drop. */
  lemma TrimStartKeeps(s: string)
    requires s != [] && !IsJsWhitespace(s[0])
    ensures TrimStart(s) == s
  {
  }

  /** Text that starts with a digit is read from its first character on. */
  lemma ParseFromDigit(u: string)
    requires u != [] && IsDigit(u[0])
    ensures ParseIntPrefix(u) == Some(DigitsValue(LeadingDigits(u)))
  {
    TrimStartKeeps(u);
    assert Unsigned(u) == u;
  }

  /**
   * Round trip: a number written in decimal, followed by anything that does not
   * begin with a digit, parses back to that number (so "2", "2." and "2. Physics"
   * all read as 2).
   */
  lemma ParseDecimal(n: nat, rest: string)
    requires rest == [] || !IsDigit(rest[0])
    ensures ParseIntPrefix(Decimal(n) + rest) == Some(n)
  {
    var s := Decimal(n) + rest;
    assert s[0] == Decimal(n)[0];
    ParseFromDigit(s);
    LeadingDigitsStopAtNonDigit(Decimal(n), rest);
    DecimalValue(n);
  }

  /** A leading sign is where `parseInt` starts reading: only the text after it holds digits. */
  lemma ParseAfterSign(c: char, u: string)
    requires c == '-' || c == '+'
    ensures ParseIntPrefix([c] + u) == ParseTrimmed([c] + u)
    ensures Unsigned([c] + u) == u
  {
    var s := [c] + u;
    TrimStartKeeps(s);
    assert s[1..] == u;
  }

  /** A minus sign in front negates the number read. */
  lemma ParseNegativeDecimal(n: nat, rest: string)
    requires rest == [] || !IsDigit(rest[0])
    ensures ParseIntPrefix("-" + Decimal(n) + rest) == Some(-(n as int))
  {
    var u := Decimal(n) + rest;
    assert "-" + Decimal(n) + rest == ['-'] + u;
    ParseAfterSign('-', u);
    LeadingDigitsStopAtNonDigit(Decimal(n), rest);
    DecimalValue(n);
  }

  lemma {:induction false} TrimStartSkips(w: string, s: string)
    requires forall i :: 0 <= i < |w| ==> IsJsWhitespace(w[i])
    ensures TrimStart(w + s) == TrimStart(s)
  {
    if w != [] {
      assert (w + s)[1..] == w[1..] + s;
      TrimStartSkips(w[1..], s);
    } else {
      assert w + s == s;
    }
  }

  /** Leading white space never changes what is read. */
  lemma ParseSkipsWhitespace(w: string, s: string)
    requires forall i :: 0 <= i < |w| ==> IsJsWhitespace(w[i])
    ensures ParseIntPrefix(w + s) == ParseIntPrefix(s)
  {
    TrimStartSkips(w, s);
  }

  /** NaN exactly when no digit follows the white space and the optional sign. */
  lemma ParseNaN(s: string)
    ensures ParseIntPrefix(s).None? <==> (Unsigned(TrimStart(s)) == [] || !IsDigit(Unsigned(TrimStart(s))[0]))
  {
  }

  /** A reply with no digit at all reads as NaN. */
  lemma ParseLettersIsNaN()
    ensures ParseIntPrefix("abc") == None
  {
    var s := "abc";
    TrimStartKeeps(s);
    assert Unsigned(s) == s && !IsDigit(s[0]);
  }

  /** A lone sign reads as NaN. */
  lemma ParseSignAloneIsNaN()
    ensures ParseIntPrefix("+") == None
  {
    assert "+" == ['+'] + "";
    ParseAfterSign('+', "");
  }

}
