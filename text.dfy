/**
 * The string operations the page applies to its inputs: `trim()` on the API key,
 * `toUpperCase()` on the symbol, and the zero padding of helpers.formatDate.
 */
module Text {
  import opened Common

  /** ECMAScript WhiteSpace and LineTerminator code points, the characters `trim()` removes. */
  predicate IsJsSpace(c: char) {
    var k := c as int;
    || k == 0x09 || k == 0x0A || k == 0x0B || k == 0x0C || k == 0x0D || k == 0x20
    || k == 0xA0 || k == 0x1680 || (0x2000 <= k <= 0x200A) || k == 0x2028 || k == 0x2029
    || k == 0x202F || k == 0x205F || k == 0x3000 || k == 0xFEFF
  }

  /**
   * The ASCII blanks are white space to `trim()`, and no ASCII letter or digit is,
   * so trimming never cuts into a key or a symbol.
   */
  lemma JsSpaceCharacters(c: char)
    ensures c == ' ' || c == '\t' || c == '\n' || c == '\r' ==> IsJsSpace(c)
    ensures IsJsSpace(c) ==> !('0' <= c <= '9') && !('A' <= c <= 'Z') && !('a' <= c <= 'z')
  {
  }

  predicate AllSpace(s: string) {
    forall i :: 0 <= i < |s| ==> IsJsSpace(s[i])
  }

  /** How many white-space characters `s` starts with. */
  function LeadingSpaces(s: string): (n: nat)
    ensures n <= |s|
    ensures forall i :: 0 <= i < n ==> IsJsSpace(s[i])
    ensures n < |s| ==> !IsJsSpace(s[n])
  {
    if s != [] && IsJsSpace(s[0]) then 1 + LeadingSpaces(s[1..]) else 0
  }

  /** Leading white space removed: a suffix of `s`, all of whose cut prefix is white space. */
  function TrimStart(s: string): (r: string)
    ensures |r| <= |s| && r == s[|s| - |r|..]
    ensures AllSpace(s[..|s| - |r|])
    ensures r != [] ==> !IsJsSpace(r[0])
  {
    s[LeadingSpaces(s)..]
  }

  /** Trailing white space removed: a prefix of `s`, all of whose cut suffix is white space. */
  function TrimEnd(s: string): (r: string)
    ensures |r| <= |s| && r == s[..|r|]
    ensures AllSpace(s[|r|..])
    ensures r != [] ==> !IsJsSpace(r[|r| - 1])
  {
    if s != [] && IsJsSpace(s[|s| - 1]) then TrimEnd(s[..|s| - 1]) else s
  }

  /** `String.prototype.trim`. */
  function Trim(s: string): (r: string)
    ensures |r| <= |s|
    ensures r != [] ==> !IsJsSpace(r[0]) && !IsJsSpace(r[|r| - 1])
  {
    var t := TrimStart(s);
    var r := TrimEnd(t);
    assert r != [] ==> r[0] == t[0];
    r
  }

  /** Trim gives the empty string exactly when the input is all white space. */
  lemma TrimEmpty(s: string)
    ensures Trim(s) == [] <==> AllSpace(s)
  {
    var t := TrimStart(s);
    assert s == s[..|s| - |t|] + t;
    if TrimEnd(t) == [] {
      assert t[0..] == t;
    }
  }

  lemma TrimStartPadded(pre: string, rest: string)
    requires AllSpace(pre) && (rest == [] || !IsJsSpace(rest[0]))
    ensures TrimStart(pre + rest) == rest
  {
    var s, n := pre + rest, LeadingSpaces(pre + rest);
    assert forall i :: 0 <= i < |pre| ==> s[i] == pre[i];
    assert rest != [] ==> s[|pre|] == rest[0];
    assert n == |pre|;
    assert s[|pre|..] == rest;
  }

  lemma {:induction false} TrimEndPadded(core: string, post: string)
    requires AllSpace(post) && (core == [] || !IsJsSpace(core[|core| - 1]))
    ensures TrimEnd(core + post) == core
  {
    if post != [] {
      assert (core + post)[..|core + post| - 1] == core + post[..|post| - 1];
      TrimEndPadded(core, post[..|post| - 1]);
    } else {
      assert core + post == core;
    }
  }

  /**
   * Trim takes off exactly the surrounding white space: whatever white space is
   * put around a text that neither starts nor ends with white space, Trim gives
   * that text back.
   */
  lemma TrimOfPadded(pre: string, core: string, post: string)
    requires AllSpace(pre) && AllSpace(post)
    requires core != [] ==> !IsJsSpace(core[0]) && !IsJsSpace(core[|core| - 1])
    ensures Trim(pre + core + post) == core
  {
    if core == [] {
      assert pre + core + post == pre + post;
      assert AllSpace(pre + post) by {
        forall i | 0 <= i < |pre + post| ensures IsJsSpace((pre + post)[i]) {
          if i >= |pre| { assert (pre + post)[i] == post[i - |pre|]; }
        }
      }
    } else {
      assert pre + core + post == pre + (core + post);
      TrimStartPadded(pre, core + post);
      TrimEndPadded(core, post);
    }
  }

  /** Trimming twice is trimming once. */
  lemma TrimIdempotent(s: string)
    ensures Trim(Trim(s)) == Trim(s)
  {
    var t := Trim(s);
    assert TrimStart(t) == t;
    assert TrimEnd(t) == t;
  }

  /** `toUpperCase` on one character, for the ASCII letters. */
  function UpperChar(c: char): char {
    if 'a' <= c <= 'z' then (c as int - 'a' as int + 'A' as int) as char else c
  }

  /** `String.prototype.toUpperCase`, on ASCII letters only. */
  function ToUpper(s: string): (r: string)
    ensures |r| == |s|
    ensures forall i :: 0 <= i < |s| ==> (r[i] == s[i] <==> !('a' <= s[i] <= 'z'))
    ensures forall i :: 0 <= i < |s| ==> !('a' <= r[i] <= 'z')
    ensures forall i :: 0 <= i < |s| && 'a' <= s[i] <= 'z' ==> r[i] as int == s[i] as int - ('a' as int - 'A' as int)
  {
    MapSeq(s, UpperChar)
  }

  /** The symbol is empty after upper-casing exactly when it was empty before. */
  lemma ToUpperEmpty(s: string)
    ensures ToUpper(s) == [] <==> s == []
  {
  }

  // ---------------------------------------------------------------------------
  // Decimal digits and helpers.formatDate

  predicate IsDigit(c: char) {
    '0' <= c <= '9'
  }

  predicate IsDigits(s: string) {
    forall i :: 0 <= i < |s| ==> IsDigit(s[i])
  }

  function DigitChar(d: nat): (c: char)
    requires d < 10
    ensures IsDigit(c) && c as int - '0' as int == d
  {
    ('0' as int + d) as char
  }

  function DigitValue(c: char): nat
    requires IsDigit(c)
  {
    c as int - '0' as int
  }

  /** `Number.prototype.toString()` of a non-negative integer: its decimal digits, no leading zero. */
  function NatToString(n: nat): (s: string)
    ensures |s| >= 1 && IsDigits(s)
    ensures n < 10 ==> |s| == 1
    ensures 10 <= n < 100 ==> |s| == 2
    ensures n == 0 ==> s == "0"
    ensures n >= 1 ==> s[0] != '0'
  {
    if n < 10 then [DigitChar(n)] else NatToString(n / 10) + [DigitChar(n % 10)]
  }

  /** The value of a string of decimal digits (the reference for the round trips below). */
  function ParseNat(s: string): nat
    requires IsDigits(s)
  {
    if s == [] then 0 else ParseNat(s[..|s| - 1]) * 10 + DigitValue(s[|s| - 1])
  }

  /** Writing a number in decimal and reading it back gives the number. */
  lemma {:induction false} NatToStringRoundTrip(n: nat)
    ensures ParseNat(NatToString(n)) == n
  {
    var s := NatToString(n);
    if n >= 10 {
      assert s[..|s| - 1] == NatToString(n / 10);
      NatToStringRoundTrip(n / 10);
    }
  }

  /** A leading zero does not change the value of a digit string. */
  lemma {:induction false} LeadingZero(s: string)
    requires IsDigits(s)
    ensures ParseNat("0" + s) == ParseNat(s)
  {
    if s != [] {
      assert ("0" + s)[..|"0" + s| - 1] == "0" + s[..|s| - 1];
      LeadingZero(s[..|s| - 1]);
    }
  }

  /** `padStart(2, '0')`. */
  function PadStart2(s: string): (r: string)
    ensures |r| == if |s| >= 2 then |s| else 2
    ensures r[|r| - |s|..] == s
    ensures forall i :: 0 <= i < |r| - |s| ==> r[i] == '0'
    ensures IsDigits(s) ==> IsDigits(r)
  {
    if |s| >= 2 then s else if |s| == 1 then "0" + s else "00"
  }

  /** A number below 100, padded to two digits, is two digits long and still reads as that number. */
  lemma Pad2RoundTrip(n: nat)
    requires n < 100
    ensures |PadStart2(NatToString(n))| == 2
    ensures ParseNat(PadStart2(NatToString(n))) == n
  {
    NatToStringRoundTrip(n);
    if n < 10 {
      LeadingZero(NatToString(n));
    }
  }

  /**
   * helpers.formatDate after the `Date` fields are read: `year-MM-DD`. For a
   * calendar month and day the text is six characters longer than the year's
   * digits, with dashes right after the year and two places later.
   */
  function FormatDate(year: nat, month: nat, day: nat): (r: string)
    ensures var n := |NatToString(year)|;
            1 <= month <= 12 && 1 <= day <= 31 ==> |r| == n + 6 && r[n] == '-' && r[n + 3] == '-'
  {
    var y, m, d := NatToString(year), PadStart2(NatToString(month)), PadStart2(NatToString(day));
    DashLayout(y, m, d);
    y + "-" + m + "-" + d
  }

  /** Where the two dashes of `a-b-c` are. */
  lemma DashLayout(a: string, b: string, c: string)
    ensures var s := a + "-" + b + "-" + c;
            |s| == |a| + |b| + |c| + 2 && s[|a|] == '-' && s[|a| + 1 + |b|] == '-'
  {
    var ab := a + "-" + b;
    assert ab[|a|] == '-';
    assert (ab + "-")[|a|] == '-' && (ab + "-")[|ab|] == '-';
  }

  /**
   * For a calendar month and day the formatted date is the year's digits, a dash,
   * two digits that read back as the month, a dash and two digits that read back
   * as the day; the year's digits read back as the year.
   */
  lemma FormatDateFields(year: nat, month: nat, day: nat)
    requires 1 <= month <= 12 && 1 <= day <= 31
    ensures var y, m, d := NatToString(year), PadStart2(NatToString(month)), PadStart2(NatToString(day));
            && FormatDate(year, month, day) == y + "-" + m + "-" + d
            && |m| == 2 && |d| == 2 && IsDigits(y) && IsDigits(m) && IsDigits(d)
            && ParseNat(y) == year && ParseNat(m) == month && ParseNat(d) == day
  {
    Pad2RoundTrip(month);
    Pad2RoundTrip(day);
    NatToStringRoundTrip(year);
  }

  /** The first day of a year, as the page writes the start date. */
  lemma StartOfYear(year: nat)
    ensures FormatDate(year, 1, 1) == NatToString(year) + "-01-01"
  {
  }
}
