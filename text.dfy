/** The parts of the .NET string and number library that the location codec
    relies on, with the library's own edge cases: IndexOf answers -1 when the
    pattern is absent, Substring throws on an out-of-range argument, int.Parse
    throws on malformed or out-of-range text. */
module Text {
  import opened Exceptions

  /** `pat` occurs in `s` starting at index `k`. */
  predicate OccursAt(s: string, pat: string, k: int) {
    0 <= k && k + |pat| <= |s| && s[k..k + |pat|] == pat
  }

  /** Ordinal search for `pat` in `s`, starting at `from`. */
  function IndexOfFrom(s: string, pat: string, from: nat): (r: int)
    requires from <= |s|
    ensures r == -1 || (from <= r && OccursAt(s, pat, r))
    ensures forall k :: from <= k && (r == -1 || k < r) ==> !OccursAt(s, pat, k)
    decreases |s| - from
  {
    if from + |pat| > |s| then -1
    else if s[from..from + |pat|] == pat then from
    else IndexOfFrom(s, pat, from + 1)
  }

  /** String.IndexOf(pat, StringComparison.Ordinal): the first index at which
      `pat` occurs, or -1 when it does not occur at all. */
  function IndexOf(s: string, pat: string): (r: int)
    ensures r == -1 || OccursAt(s, pat, r)
    ensures forall k :: 0 <= k && (r == -1 || k < r) ==> !OccursAt(s, pat, k)
  {
    IndexOfFrom(s, pat, 0)
  }

  /** The first occurrence is determined by where `pat` occurs. */
  lemma IndexOfIs(s: string, pat: string, r: int)
    requires OccursAt(s, pat, r)
    requires forall k :: 0 <= k < r ==> !OccursAt(s, pat, k)
    ensures IndexOf(s, pat) == r
  {
  }

  /** Text appended after the first occurrence does not move it. */
  lemma IndexOfAppend(a: string, b: string, pat: string)
    requires IndexOf(a, pat) >= 0
    ensures IndexOf(a + b, pat) == IndexOf(a, pat)
  {
    var r := IndexOf(a, pat);
    assert (a + b)[r..r + |pat|] == a[r..r + |pat|];
    forall k | 0 <= k < r
      ensures !OccursAt(a + b, pat, k)
    {
      assert (a + b)[k..k + |pat|] == a[k..k + |pat|];
      assert !OccursAt(a, pat, k);
    }
    IndexOfIs(a + b, pat, r);
  }

  /** An occurrence that lies inside a prefix is found by searching the prefix alone. */
  lemma IndexOfPrefix(a: string, b: string, pat: string)
    requires 0 <= IndexOf(a + b, pat) && IndexOf(a + b, pat) + |pat| <= |a|
    ensures IndexOf(a, pat) == IndexOf(a + b, pat)
  {
    var r := IndexOf(a + b, pat);
    assert (a + b)[r..r + |pat|] == a[r..r + |pat|];
    forall k | 0 <= k < r
      ensures !OccursAt(a, pat, k)
    {
      assert (a + b)[k..k + |pat|] == a[k..k + |pat|];
      assert !OccursAt(a + b, pat, k);
    }
    IndexOfIs(a, pat, r);
  }

  /** A single character that `s` does not contain is first found right after `s`. */
  lemma IndexOfCharAfter(s: string, c: char, rest: string)
    requires c !in s
    ensures IndexOf(s + [c] + rest, [c]) == |s|
  {
    var t := s + [c] + rest;
    assert t[|s|..|s| + 1] == [c];
    forall k | 0 <= k < |s|
      ensures !OccursAt(t, [c], k)
    {
      assert t[k..k + 1] == [s[k]];
    }
    IndexOfIs(t, [c], |s|);
  }

  /** The first occurrence of a character splits `s` into a part without it,
      the character, and the rest. */
  lemma IndexOfCharSplit(s: string, c: char)
    requires IndexOf(s, [c]) >= 0
    ensures var r := IndexOf(s, [c]);
      r < |s| && s[r] == c && c !in s[..r] && s == s[..r] + [c] + s[r + 1..]
  {
    var r := IndexOf(s, [c]);
    assert s[r..r + 1] == [c];
    forall k | 0 <= k < r
      ensures s[..r][k] != c
    {
      assert !OccursAt(s, [c], k);
      assert s[k..k + 1] == [s[k]];
    }
    assert s == s[..r] + [c] + s[r + 1..];
  }

  /** A single character that `s` does not contain does not occur in it. */
  lemma IndexOfCharAbsent(s: string, c: char)
    requires c !in s
    ensures IndexOf(s, [c]) == -1
  {
    forall k | 0 <= k < |s|
      ensures !OccursAt(s, [c], k)
    {
      assert s[k..k + 1] == [s[k]];
    }
  }

  /** String.Substring(start): the suffix from `start`. */
  function SubstringFrom(s: string, start: int): Result<string> {
    if 0 <= start <= |s| then Ok(s[start..]) else Err(ArgumentOutOfRangeException)
  }

  /** String.Substring(start, length). */
  function Substring(s: string, start: int, length: int): Result<string> {
    if 0 <= start && 0 <= length && start + length <= |s| then Ok(s[start..start + length])
    else Err(ArgumentOutOfRangeException)
  }

  /** String.EndsWith(suffix). */
  predicate EndsWith(s: string, suffix: string) {
    |suffix| <= |s| && s[|s| - |suffix|..] == suffix
  }

  // ---------------------------------------------------------------------
  // 32-bit integers in decimal

  type Int32 = x: int | -0x8000_0000 <= x < 0x8000_0000

  predicate IsDigit(c: char) { '0' <= c <= '9' }

  predicate AllDigits(s: string) { forall i :: 0 <= i < |s| ==> IsDigit(s[i]) }

  /** The white space that NumberStyles.Integer allows around a number. */
  predicate IsWhite(c: char) { c == ' ' || '\t' <= c <= '\r' }

  function DigitChar(d: nat): (c: char)
    requires d < 10
    ensures IsDigit(c) && DigitValue(c) == d
  {
    ('0' as int + d) as char
  }

  function DigitValue(c: char): nat
    requires IsDigit(c)
  {
    c as int - '0' as int
  }

  /** The decimal digits of `n`, most significant first, without leading zeros. */
  function NatToDecimal(n: nat): (s: string)
    ensures |s| > 0 && AllDigits(s)
    decreases n
  {
    if n < 10 then [DigitChar(n)] else NatToDecimal(n / 10) + [DigitChar(n % 10)]
  }

  /** The number that a string of decimal digits denotes. */
  function DigitsValue(s: string): nat
    requires AllDigits(s)
  {
    if |s| == 0 then 0 else DigitsValue(s[..|s| - 1]) * 10 + DigitValue(s[|s| - 1])
  }

  lemma {:induction false} DecimalRoundTrip(n: nat)
    ensures DigitsValue(NatToDecimal(n)) == n
  {
    if n >= 10 {
      var s := NatToDecimal(n);
      assert s[..|s| - 1] == NatToDecimal(n / 10);
      DecimalRoundTrip(n / 10);
    }
  }

  /** Digits that start with a non-zero digit denote a positive number. */
  lemma {:induction false} DigitsPositive(s: string)
    requires |s| > 0 && AllDigits(s) && s[0] != '0'
    ensures DigitsValue(s) > 0
  {
    if |s| > 1 {
      DigitsPositive(s[..|s| - 1]);
    }
  }

  /** Digits without a leading zero are the decimal text of the number they denote. */
  lemma {:induction false} DecimalOfDigits(s: string)
    requires |s| > 0 && AllDigits(s) && (s[0] != '0' || |s| == 1)
    ensures NatToDecimal(DigitsValue(s)) == s
  {
    var front := s[..|s| - 1];
    var d := DigitValue(s[|s| - 1]);
    if |s| == 1 {
      assert DigitsValue(front) == 0;
      assert DigitChar(d) == s[0];
    } else {
      DigitsPositive(front);
      DecimalOfDigits(front);
      var n := DigitsValue(s);
      assert n == DigitsValue(front) * 10 + d;
      assert n / 10 == DigitsValue(front) && n % 10 == d;
      assert DigitChar(d) == s[|s| - 1];
      assert s == front + [s[|s| - 1]];
    }
  }

  /** Int32.ToString(): an optional minus sign followed by the decimal digits. */
  function Int32ToString(m: Int32): (s: string)
    ensures |s| > 0 && IsDigit(s[|s| - 1])
    ensures forall i :: 0 <= i < |s| ==> IsDigit(s[i]) || (i == 0 && s[i] == '-')
  {
    if m < 0 then "-" + NatToDecimal(-(m as int)) else NatToDecimal(m)
  }

  /** String.Trim's leading half: `s` without its leading white space. */
  function TrimStart(s: string): (t: string)
    ensures |t| <= |s|
  {
    if |s| > 0 && IsWhite(s[0]) then TrimStart(s[1..]) else s
  }

  /** What TrimStart removes is a run of white space in front of what it keeps. */
  lemma {:induction false} TrimStartDrops(s: string)
    ensures TrimStart(s) == s[|s| - |TrimStart(s)|..]
    ensures forall i :: 0 <= i < |s| - |TrimStart(s)| ==> IsWhite(s[i])
  {
    if |s| > 0 && IsWhite(s[0]) {
      TrimStartDrops(s[1..]);
      assert s[1..][|s| - 1 - |TrimStart(s)|..] == s[|s| - |TrimStart(s)|..];
      forall i | 1 <= i < |s| - |TrimStart(s)|
        ensures IsWhite(s[i])
      {
        assert s[1..][i - 1] == s[i];
      }
    }
  }

  /** String.Trim's trailing half: `s` without its trailing white space. */
  function TrimEnd(s: string): (t: string)
    ensures |t| <= |s|
  {
    if |s| > 0 && IsWhite(s[|s| - 1]) then TrimEnd(s[..|s| - 1]) else s
  }

  /** What TrimEnd removes is a run of white space behind what it keeps. */
  lemma {:induction false} TrimEndDrops(s: string)
    ensures TrimEnd(s) == s[..|TrimEnd(s)|]
    ensures forall i :: |TrimEnd(s)| <= i < |s| ==> IsWhite(s[i])
  {
    if |s| > 0 && IsWhite(s[|s| - 1]) {
      TrimEndDrops(s[..|s| - 1]);
      assert s[..|s| - 1][..|TrimEnd(s)|] == s[..|TrimEnd(s)|];
      forall i | |TrimEnd(s)| <= i < |s| - 1
        ensures IsWhite(s[i])
      {
        assert s[..|s| - 1][i] == s[i];
      }
    }
  }

  /** `s` without its final run of NUL characters. */
  function TrimTrailingNul(s: string): (t: string)
    ensures |t| <= |s|
  {
    if |s| > 0 && s[|s| - 1] == '\0' then TrimTrailingNul(s[..|s| - 1]) else s
  }

  /** What TrimTrailingNul removes is a run of NUL characters behind what it keeps. */
  lemma {:induction false} TrimTrailingNulDrops(s: string)
    ensures TrimTrailingNul(s) == s[..|TrimTrailingNul(s)|]
    ensures forall i :: |TrimTrailingNul(s)| <= i < |s| ==> s[i] == '\0'
  {
    if |s| > 0 && s[|s| - 1] == '\0' {
      TrimTrailingNulDrops(s[..|s| - 1]);
      assert s[..|s| - 1][..|TrimTrailingNul(s)|] == s[..|TrimTrailingNul(s)|];
      forall i | |TrimTrailingNul(s)| <= i < |s| - 1
        ensures s[i] == '\0'
      {
        assert s[..|s| - 1][i] == s[i];
      }
    }
  }

  /** The part of the text int.Parse reads as a number: leading white space
      is skipped, and so are a final run of NUL characters (accepted for
      compatibility) and the white space before it. */
  function NumberText(s: string): string {
    TrimEnd(TrimTrailingNul(TrimStart(s)))
  }

  /** int.Parse(s) with NumberStyles.Integer: white space around an optional
      sign and at least one decimal digit, optionally followed by NUL
      characters; anything else is a FormatException, a value outside the
      32-bit range an OverflowException. */
  function ParseInt32(s: string): (r: Result<Int32>)
  {
    var t := NumberText(s);
    var negative := |t| > 0 && t[0] == '-';
    var digits := if |t| > 0 && (t[0] == '-' || t[0] == '+') then t[1..] else t;
    if |digits| == 0 || !AllDigits(digits) then Err(FormatException)
    else
      var v: int := if negative then 0 - DigitsValue(digits) else DigitsValue(digits);
      if -0x8000_0000 <= v < 0x8000_0000 then Ok(v) else Err(OverflowException)
  }

  /** A text that neither starts with white space nor ends with white space
      or NUL is read whole. */
  lemma TrimsNothing(s: string)
    requires |s| > 0 && !IsWhite(s[0]) && !IsWhite(s[|s| - 1]) && s[|s| - 1] != '\0'
    ensures NumberText(s) == s
  {
  }

  /** The decimal text of every 32-bit integer parses back to that integer. */
  lemma ParseToString(m: Int32)
    ensures ParseInt32(Int32ToString(m)) == Ok(m)
  {
    var s := Int32ToString(m);
    if m < 0 {
      DecimalRoundTrip(-(m as int));
      ParseSigned(s, NatToDecimal(-(m as int)));
    } else {
      DecimalRoundTrip(m);
      ParseUnsigned(s);
    }
  }

  /** "-" followed by digits is the negated digit value. */
  lemma ParseSigned(s: string, digits: string)
    requires |s| > 1 && s[0] == '-' && s[1..] == digits
    requires AllDigits(digits) && DigitsValue(digits) <= 0x8000_0000
    ensures ParseInt32(s) == Ok(0 - DigitsValue(digits))
  {
    assert s[|s| - 1] == digits[|digits| - 1];
    assert IsDigit(digits[|digits| - 1]);
    TrimsNothing(s);
  }

  /** A run of digits is its digit value. */
  lemma ParseUnsigned(s: string)
    requires |s| > 0 && AllDigits(s) && DigitsValue(s) < 0x8000_0000
    ensures ParseInt32(s) == Ok(DigitsValue(s))
  {
    assert IsDigit(s[0]) && IsDigit(s[|s| - 1]);
    TrimsNothing(s);
    assert s[0] != '-' && s[0] != '+';
  }

  /** A single digit parses to its value. */
  lemma DigitParses(s: string, d: Int32)
    requires 0 <= d < 10 && s == [DigitChar(d)]
    ensures ParseInt32(s) == Ok(d)
  {
    ParseToString(d);
    assert Int32ToString(d) == s;
  }

  /** A leading zero is accepted: "01" parses to 1. */
  lemma LeadingZeroParses(s: string)
    requires s == "01"
    ensures ParseInt32(s) == Ok(1)
  {
    var front := s[..1];
    assert front == [DigitChar(0)] && DigitsValue(front[..0]) == 0;
    assert DigitsValue(front) == 0;
    assert DigitsValue(s) == DigitsValue(front) * 10 + DigitValue(s[1]);
    ParseUnsigned(s);
  }

  /** A character that is neither a digit, nor white space, nor a sign makes
      int.Parse throw a FormatException wherever it stands, unless it is part
      of the final run of NUL characters: at or after it stands a non-NUL
      character at index `j`. */
  lemma ParseRejectsOtherText(s: string, i: nat, j: nat)
    requires i < |s| && !IsDigit(s[i]) && !IsWhite(s[i]) && s[i] != '+' && s[i] != '-'
    requires i <= j < |s| && s[j] != '\0'
    ensures ParseInt32(s) == Err(FormatException)
  {
    var k := NumberTextKeeps(s, i, j);
    var t := NumberText(s);
    var digits := if |t| > 0 && (t[0] == '-' || t[0] == '+') then t[1..] else t;
    if digits == t {
      assert !IsDigit(digits[k]);
    } else {
      assert k > 0;
      assert digits[k - 1] == t[k];
    }
  }

  /** A character that is not white space, standing before a non-NUL one,
      is kept in the number text, at index `k`. */
  lemma NumberTextKeeps(s: string, i: nat, j: nat) returns (k: nat)
    requires i < |s| && !IsWhite(s[i])
    requires i <= j < |s| && s[j] != '\0'
    ensures k < |NumberText(s)| && NumberText(s)[k] == s[i]
  {
    var u := TrimStart(s);
    TrimStartDrops(s);
    var a := |s| - |u|;
    assert a <= i;
    var v := TrimTrailingNul(u);
    TrimTrailingNulDrops(u);
    assert j - a < |v| by {
      assert u[j - a] == s[j];
    }
    var t := TrimEnd(v);
    TrimEndDrops(v);
    assert i - a < |t| by {
      assert v[i - a] == u[i - a] == s[i];
    }
    k := i - a;
  }

  /** A final run of NUL characters is skipped: "7" followed by NUL parses to 7. */
  lemma TrailingNulParses(s: string)
    requires s == ['7', '\0']
    ensures ParseInt32(s) == Ok(7)
  {
    assert TrimStart(s) == s;
    assert TrimTrailingNul(s) == s[..1] == [DigitChar(7)];
    DigitParses(s[..1], 7);
  }

  /** An empty segment is not a number. */
  lemma ParseRejectsEmpty()
    ensures ParseInt32("") == Err(FormatException)
  {
  }
}
