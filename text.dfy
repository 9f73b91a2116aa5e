/** Text rendering used by the reports and by validation: decimal digits,
    Long and BigDecimal (scale 2) rendering, ASCII lower-casing of enum
    names, Kotlin's notion of a blank string, and StringBuilder.appendLine. */
module Text {
  import opened Outcomes

  predicate IsDigit(c: char) { '0' <= c <= '9' }

  predicate AllDigits(s: string) { forall i :: 0 <= i < |s| ==> IsDigit(s[i]) }

  function Digit(d: nat): (c: char)
    requires d < 10
    ensures IsDigit(c) && c as int - '0' as int == d
  {
    ('0' as int + d) as char
  }

  function DigitValue(c: char): (d: nat)
    requires IsDigit(c)
    ensures d < 10 && Digit(d) == c
  {
    c as int - '0' as int
  }

  /** The value of a string of decimal digits (most significant first). */
  function DigitsValue(s: string): nat
    requires AllDigits(s)
  {
    if s == [] then 0 else 10 * DigitsValue(s[..|s| - 1]) + DigitValue(s[|s| - 1])
  }

  /** Long.toString of a non-negative value: canonical decimal digits. */
  function NatToString(n: nat): (r: string)
    ensures |r| >= 1 && AllDigits(r)
    ensures |r| > 1 ==> r[0] != '0'
  {
    if n < 10 then [Digit(n)] else NatToString(n / 10) + [Digit(n % 10)]
  }

  /** Reading the digits back gives the number. */
  lemma {:induction false} NatToStringRoundTrip(n: nat)
    ensures DigitsValue(NatToString(n)) == n
  {
    var r := NatToString(n);
    if n >= 10 {
      NatToStringRoundTrip(n / 10);
      assert r[..|r| - 1] == NatToString(n / 10);
    }
  }

  lemma NatToStringInjective(m: nat, n: nat)
    requires NatToString(m) == NatToString(n)
    ensures m == n
  {
    NatToStringRoundTrip(m);
    NatToStringRoundTrip(n);
  }

  function Abs(x: int): nat { if x < 0 then -x else x }

  /** BigDecimal.toString of an amount of scale 2 given in cents: an optional
      minus sign, the integer part, a point and exactly two fraction digits. */
  function AmountToString(cents: int): string
  {
    var a := Abs(cents);
    (if cents < 0 then "-" else "") + NatToString(a / 100) + ['.', Digit(a % 100 / 10), Digit(a % 100 % 10)]
  }

  /** Reads text of the shape AmountToString produces back into cents. */
  function ParseAmount(s: string): (r: Option<int>)
  {
    if |s| > 0 && s[0] == '-' then
      match ParseUnsigned(s[1..])
      case Some(v) => Some(-(v as int))
      case None => None
    else ParseUnsigned(s)
  }

  /** Digits, a point and two digits, read as cents. */
  function ParseUnsigned(body: string): Option<nat>
  {
    var n := |body|;
    if n >= 4 && body[n - 3] == '.' && AllDigits(body[..n - 3])
       && IsDigit(body[n - 2]) && IsDigit(body[n - 1])
    then Some(100 * DigitsValue(body[..n - 3]) + 10 * DigitValue(body[n - 2]) + DigitValue(body[n - 1]))
    else None
  }

  /** Concatenation regrouped; stated over any element type so that proofs
      about strings need not unfold them. */
  lemma ConcatAssoc<T>(x: seq<T>, y: seq<T>, z: seq<T>, w: seq<T>)
    ensures x + y + z + w == x + (y + z + w)
  {
  }

  /** The last three elements of a sequence and what precedes them. */
  lemma SplitLastThree<T>(x: seq<T>, a: T, b: T, c: T)
    ensures |x + [a, b, c]| == |x| + 3
    ensures (x + [a, b, c])[..|x|] == x
    ensures (x + [a, b, c])[|x|] == a && (x + [a, b, c])[|x| + 1] == b && (x + [a, b, c])[|x| + 2] == c
  {
  }

  /** Parsing a rendered body: digits, a point and two digits. */
  lemma ParseBody(digits: string, d1: char, d2: char)
    requires |digits| >= 1 && AllDigits(digits) && IsDigit(d1) && IsDigit(d2)
    ensures ParseUnsigned(digits + ['.', d1, d2]) == Some(100 * DigitsValue(digits) + 10 * DigitValue(d1) + DigitValue(d2))
  {
    SplitLastThree(digits, '.', d1, d2);
  }

  lemma DivMod100(a: nat)
    ensures 100 * (a / 100) + 10 * (a % 100 / 10) + a % 100 % 10 == a
  {
    var r := a % 100;
    assert a == 100 * (a / 100) + r;
    assert r == 10 * (r / 10) + r % 10;
  }

  /** The rendering of an amount is read back exactly, so totals written to a
      report lose no precision. */
  lemma AmountRoundTrip(cents: int)
    ensures ParseAmount(AmountToString(cents)) == Some(cents)
  {
    var a := Abs(cents);
    var digits := NatToString(a / 100);
    var d1, d2 := Digit(a % 100 / 10), Digit(a % 100 % 10);
    var body := digits + ['.', d1, d2];
    ParseBody(digits, d1, d2);
    NatToStringRoundTrip(a / 100);
    DivMod100(a);
    assert ParseUnsigned(body) == Some(a);
    var s := AmountToString(cents);
    if cents < 0 {
      assert "-" + digits + ['.', d1, d2] == "-" + body;
      assert s == "-" + body;
      assert s[0] == '-' && s[1..] == body;
    } else {
      assert "" + digits == digits;
      assert s == body;
      assert s[0] == digits[0];
    }
  }

  /** ASCII lower-casing, which is what `lowercase()` does to enum names. */
  function LowerChar(c: char): char
  {
    if 'A' <= c <= 'Z' then (c as int + 32) as char else c
  }

  function Lower(s: string): (r: string)
    ensures |r| == |s| && forall i :: 0 <= i < |s| ==> r[i] == LowerChar(s[i])
  {
    if s == [] then [] else [LowerChar(s[0])] + Lower(s[1..])
  }

  /** Kotlin's Char.isWhitespace: Java whitespace or a Unicode space separator. */
  predicate IsWhitespace(c: char)
  {
    || ('\t' <= c <= '\r')                  // tab, line feed, vertical tab, form feed, return
    || ('\U{1C}' <= c <= '\U{1F}')         // information separators
    || c == ' ' || c == '\U{A0}' || c == '\U{1680}'
    || ('\U{2000}' <= c <= '\U{200A}')
    || c == '\U{2028}' || c == '\U{2029}' || c == '\U{202F}' || c == '\U{205F}' || c == '\U{3000}'
  }

  /** Kotlin's isBlank: empty or whitespace only. */
  predicate IsBlank(s: string)
  {
    forall i :: 0 <= i < |s| ==> IsWhitespace(s[i])
  }

  /** The text a StringBuilder holds after appendLine of each line in turn. */
  function JoinLines(lines: seq<string>): string
  {
    if lines == [] then "" else JoinLines(lines[..|lines| - 1]) + lines[|lines| - 1] + "\n"
  }

  lemma JoinLinesAppend(lines: seq<string>, line: string)
    ensures JoinLines(lines + [line]) == JoinLines(lines) + line + "\n"
  {
    assert (lines + [line])[..|lines|] == lines;
  }

  lemma {:induction false} JoinLinesConcat(a: seq<string>, b: seq<string>)
    ensures JoinLines(a + b) == JoinLines(a) + JoinLines(b)
  {
    if b == [] {
      assert a + b == a;
    } else {
      var init, last := b[..|b| - 1], b[|b| - 1];
      assert init + [last] == b;
      calc {
        JoinLines(a + b);
        { assert a + b == (a + init) + [last]; }
        JoinLines((a + init) + [last]);
        { JoinLinesAppend(a + init, last); }
        JoinLines(a + init) + last + "\n";
        { JoinLinesConcat(a, init); }
        JoinLines(a) + JoinLines(init) + last + "\n";
        { ConcatAssoc(JoinLines(a), JoinLines(init), last, "\n"); }
        JoinLines(a) + (JoinLines(init) + last + "\n");
        { JoinLinesAppend(init, last); }
        JoinLines(a) + JoinLines(b);
      }
    }
  }

  function CountChar(s: string, c: char): nat
  {
    if s == [] then 0 else CountChar(s[..|s| - 1], c) + (if s[|s| - 1] == c then 1 else 0)
  }

  lemma {:induction false} CountCharConcat(s: string, t: string, c: char)
    ensures CountChar(s + t, c) == CountChar(s, c) + CountChar(t, c)
  {
    if t != [] {
      CountCharConcat(s, t[..|t| - 1], c);
      assert (s + t)[..|s + t| - 1] == s + t[..|t| - 1];
    } else {
      assert s + t == s;
    }
  }

  lemma {:induction false} CountCharAbsent(s: string, c: char)
    requires forall i :: 0 <= i < |s| ==> s[i] != c
    ensures CountChar(s, c) == 0
  {
    if s != [] {
      CountCharAbsent(s[..|s| - 1], c);
    }
  }

  /** Lines free of line breaks produce exactly one line break each, so the
      number of lines in the built text is the number of lines appended. */
  lemma {:induction false} JoinLinesCount(lines: seq<string>)
    requires forall k, i :: 0 <= k < |lines| && 0 <= i < |lines[k]| ==> lines[k][i] != '\n'
    ensures CountChar(JoinLines(lines), '\n') == |lines|
  {
    if lines != [] {
      var init := lines[..|lines| - 1];
      var last := lines[|lines| - 1];
      JoinLinesCount(init);
      CountCharConcat(JoinLines(init), last, '\n');
      CountCharConcat(JoinLines(init) + last, "\n", '\n');
      CountCharAbsent(last, '\n');
      assert CountChar("\n", '\n') == 1 by {
        assert "\n"[..0] == "";
      }
    }
  }
}
