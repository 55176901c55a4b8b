/** The decimal text Java produces for a `Long` in a string concatenation such
    as `"Rollout " + rolloutId`, a parser for it, and the facts that let an
    agent read the identifier back out of a confirmation string. */
module JavaText {

  predicate IsDigit(c: char)
  {
    '0' <= c <= '9'
  }

  predicate AllDigits(s: string)
  {
    forall i :: 0 <= i < |s| ==> IsDigit(s[i])
  }

  function DigitChar(d: nat): (c: char)
    requires d < 10
    ensures IsDigit(c)
  {
    ('0' as int + d) as char
  }

  function DigitValue(c: char): (d: nat)
    requires IsDigit(c)
    ensures d < 10 && DigitChar(d) == c
  {
    c as int - '0' as int
  }

  /** The digits of `n`, most significant first, without leading zeros. */
  function Digits(n: nat): (s: string)
    ensures 1 <= |s| && AllDigits(s)
    ensures s[0] == '0' ==> n == 0 && |s| == 1
    decreases n
  {
    if n < 10 then [DigitChar(n)] else Digits(n / 10) + [DigitChar(n % 10)]
  }

  /** The number a string of digits denotes. */
  function DigitsValue(s: string): (n: nat)
    requires AllDigits(s)
    decreases |s|
  {
    if s == [] then 0 else DigitsValue(s[..|s| - 1]) * 10 + DigitValue(s[|s| - 1])
  }

  lemma {:induction false} DigitsRoundTrip(n: nat)
    ensures DigitsValue(Digits(n)) == n
    decreases n
  {
    var s := Digits(n);
    if n >= 10 {
      DigitsRoundTrip(n / 10);
      assert s[..|s| - 1] == Digits(n / 10);
    }
  }

  /** `Long.toString(n)`: a minus sign for negative values, then the digits. */
  function LongText(n: int): (s: string)
    ensures 1 <= |s|
    ensures (s[0] == '-') <==> n < 0
    ensures forall i :: 0 <= i < |s| ==> IsDigit(s[i]) || (i == 0 && s[i] == '-')
    ensures s[0] == '0' ==> n == 0 && |s| == 1
    ensures s[0] == '-' ==> 2 <= |s| && s[1] != '0'
  {
    if n < 0 then "-" + Digits(-n) else Digits(n)
  }

  /** Reads back a value written by LongText. */
  function ParseLong(s: string): (n: int)
    requires 1 <= |s|
    requires forall i :: 0 <= i < |s| ==> IsDigit(s[i]) || (i == 0 && s[i] == '-')
  {
    if s[0] == '-' then
      assert AllDigits(s[1..]) by {
        forall i | 0 <= i < |s[1..]| ensures IsDigit(s[1..][i]) {
          assert s[1..][i] == s[i + 1];
        }
      }
      0 - DigitsValue(s[1..])
    else
      DigitsValue(s)
  }

  lemma LongTextRoundTrip(n: int)
    ensures ParseLong(LongText(n)) == n
  {
    var s := LongText(n);
    if n < 0 {
      assert s[1..] == Digits(-n);
      DigitsRoundTrip(-n);
    } else {
      DigitsRoundTrip(n);
    }
  }

  /** Distinct values have distinct texts. */
  lemma LongTextInjective(a: int, b: int)
    requires LongText(a) == LongText(b)
    ensures a == b
  {
    LongTextRoundTrip(a);
    LongTextRoundTrip(b);
  }

  /** A message made of a fixed prefix, a value and a fixed suffix names the value. */
  lemma LabelledValueInjective(prefix: string, suffix: string, a: int, b: int)
    requires prefix + LongText(a) + suffix == prefix + LongText(b) + suffix
    ensures a == b
  {
    var ma := prefix + LongText(a) + suffix;
    var mb := prefix + LongText(b) + suffix;
    assert LongText(a) == ma[|prefix|..|ma| - |suffix|];
    assert LongText(b) == mb[|prefix|..|mb| - |suffix|];
    LongTextInjective(a, b);
  }

  /** `m` is a fixed prefix, the decimal text of `n` and a fixed suffix. */
  predicate Labels(m: string, prefix: string, suffix: string, n: int)
  {
    |prefix| + |suffix| < |m|
    && m[..|prefix|] == prefix
    && m[|m| - |suffix|..] == suffix
    && m[|prefix|..|m| - |suffix|] == LongText(n)
  }

  lemma LabelledValueLabels(prefix: string, suffix: string, n: int)
    ensures Labels(prefix + LongText(n) + suffix, prefix, suffix, n)
  {
  }

  /** The value can be read back from between the prefix and the suffix. */
  lemma LabelsReadBack(m: string, prefix: string, suffix: string, n: int)
    requires Labels(m, prefix, suffix, n)
    ensures var v := m[|prefix|..|m| - |suffix|];
      1 <= |v| && (forall i :: 0 <= i < |v| ==> IsDigit(v[i]) || (i == 0 && v[i] == '-')) && ParseLong(v) == n
  {
    LongTextRoundTrip(n);
  }

  /** A value text followed by a suffix that starts with a space can be split
      back into the two: the value text holds no space. */
  lemma SplitBeforeSpace(a: int, s: string, b: int, t: string)
    requires |s| >= 1 && s[0] == ' ' && |t| >= 1 && t[0] == ' '
    requires LongText(a) + s == LongText(b) + t
    ensures a == b && s == t
  {
    var x, y := LongText(a), LongText(b);
    assert x == (x + s)[..|x|] && y == (y + t)[..|y|];
    LongTextInjective(a, b);
    assert s == (x + s)[|x|..] && t == (y + t)[|y|..];
  }

  /** A fixed prefix, a value text and a suffix that starts with a space:
      the message determines both the value and the suffix. */
  lemma PrefixedSplitBeforeSpace(prefix: string, a: int, s: string, b: int, t: string)
    requires |s| >= 1 && s[0] == ' ' && |t| >= 1 && t[0] == ' '
    requires prefix + LongText(a) + s == prefix + LongText(b) + t
    ensures a == b && s == t
  {
    var m1, m2 := prefix + LongText(a) + s, prefix + LongText(b) + t;
    assert m1[|prefix|..] == LongText(a) + s;
    assert m2[|prefix|..] == LongText(b) + t;
    SplitBeforeSpace(a, s, b, t);
  }
}
