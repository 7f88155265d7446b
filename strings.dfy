/** The JavaScript string operations the services rely on: `toLowerCase`,
    `includes`, `startsWith`, `trim`, and the decimal rendering of integers
    that template literals and `toString()` perform. */
module Strings {

  /* ---------------- toLowerCase ---------------- */

  /** Lower-case mapping of one character, for the capitals that map to a
      single character: Basic Latin, Latin-1 (À..Þ but the multiplication
      sign ×), the ligature Œ and Ÿ, the Kelvin, Ohm and Ångström signs,
      the Greek capitals Α..Ϋ and the Cyrillic capitals Ѐ..Я. */
  function LowerChar(c: char): (r: char)
    ensures ('A' <= c <= 'Z') ==> r as int == c as int + 32
    ensures c == '\U{0152}' ==> r == '\U{0153}'
    ensures c == '\U{0178}' ==> r == '\U{00FF}'
    ensures c == '\U{212A}' ==> r == 'k'
    ensures !IsUpper(c) ==> r == c
    ensures !IsUpper(r)
  {
    if 'A' <= c <= 'Z' || ('À' <= c <= 'Þ' && c != '×') then (c as int + 32) as char
    else if c == '\U{0152}' then '\U{0153}'
    else if c == '\U{0178}' then '\U{00FF}'
    else if c == '\U{212A}' then 'k'
    else if c == '\U{2126}' then '\U{03C9}'
    else if c == '\U{212B}' then '\U{00E5}'
    else if '\U{0391}' <= c <= '\U{03AB}' && c != '\U{03A2}' then (c as int + 32) as char
    else if '\U{0400}' <= c <= '\U{040F}' then (c as int + 80) as char
    else if '\U{0410}' <= c <= '\U{042F}' then (c as int + 32) as char
    else c
  }

  /** The characters `LowerChar` changes. */
  predicate IsUpper(c: char) {
    || 'A' <= c <= 'Z' || ('À' <= c <= 'Þ' && c != '×')
    || c == '\U{0152}' || c == '\U{0178}' || c == '\U{212A}' || c == '\U{2126}' || c == '\U{212B}'
    || ('\U{0391}' <= c <= '\U{03AB}' && c != '\U{03A2}')
    || '\U{0400}' <= c <= '\U{042F}'
  }

  function ToLower(s: string): (r: string)
    ensures |r| == |s|
    ensures forall i :: 0 <= i < |s| ==> r[i] == LowerChar(s[i])
  {
    seq(|s|, i requires 0 <= i < |s| => LowerChar(s[i]))
  }

  /** Lower-casing twice is lower-casing once: what makes the
      keyword classifiers case-insensitive. */
  lemma ToLowerIdempotent(s: string)
    ensures ToLower(ToLower(s)) == ToLower(s)
  {
    forall i | 0 <= i < |s|
      ensures LowerChar(LowerChar(s[i])) == LowerChar(s[i])
    {
    }
  }

  /* ---------------- startsWith / includes ---------------- */

  predicate StartsWith(s: string, prefix: string) {
    |prefix| <= |s| && s[..|prefix|] == prefix
  }

  ghost predicate OccursAt(s: string, sub: string, i: int) {
    0 <= i && i + |sub| <= |s| && s[i..i + |sub|] == sub
  }

  /** `s.includes(sub)`, searched position by position. */
  predicate Contains(s: string, sub: string)
    decreases |s|
  {
    StartsWith(s, sub) || (|s| > 0 && Contains(s[1..], sub))
  }

  lemma OccursAtStart(s: string, sub: string)
    ensures OccursAt(s, sub, 0) <==> StartsWith(s, sub)
  {
  }

  lemma OccursAtShift(s: string, sub: string, i: int)
    requires |s| > 0 && i >= 1
    ensures OccursAt(s, sub, i) <==> OccursAt(s[1..], sub, i - 1)
  {
    if i + |sub| <= |s| {
      assert s[1..][i - 1..i - 1 + |sub|] == s[i..i + |sub|];
    }
  }

  /** The search agrees with the definition of `includes`: `sub` occurs in
      `s` at some position. */
  lemma {:induction false} ContainsIff(s: string, sub: string)
    ensures Contains(s, sub) <==> exists i :: OccursAt(s, sub, i)
    decreases |s|
  {
    OccursAtStart(s, sub);
    if StartsWith(s, sub) {
      assert OccursAt(s, sub, 0);
    } else if |s| == 0 {
      forall i | OccursAt(s, sub, i) ensures false {}
    } else {
      ContainsIff(s[1..], sub);
      if Contains(s[1..], sub) {
        var i :| OccursAt(s[1..], sub, i);
        OccursAtShift(s, sub, i + 1);
      } else {
        forall i | OccursAt(s, sub, i) ensures false {
          if i >= 1 {
            OccursAtShift(s, sub, i);
          }
        }
      }
    }
  }

  lemma ToLowerAppend(a: string, b: string)
    ensures ToLower(a + b) == ToLower(a) + ToLower(b)
  {
  }

  /** A word found anywhere in a text, in any case, is found by a
      lower-case search of the lower-cased text. */
  lemma ContainsLowerInfix(a: string, w: string, b: string)
    ensures Contains(ToLower(a + w + b), ToLower(w))
  {
    ToLowerAppend(a + w, b);
    ToLowerAppend(a, w);
    var s := ToLower(a) + ToLower(w) + ToLower(b);
    assert s[|a|..|a| + |w|] == ToLower(w);
    assert OccursAt(s, ToLower(w), |a|);
    ContainsIff(s, ToLower(w));
  }

  /* ---------------- trim ---------------- */

  /** The characters `String.prototype.trim` removes: ECMAScript
      WhiteSpace (including the Unicode space separators) and
      LineTerminator. */
  predicate IsJsWhitespace(c: char) {
    c == '\t' || c == '\n' || c == '\U{000B}' || c == '\U{000C}' || c == '\r' ||
    c == ' ' || c == '\U{00A0}' || c == '\U{1680}' ||
    ('\U{2000}' <= c <= '\U{200A}') ||
    c == '\U{2028}' || c == '\U{2029}' || c == '\U{202F}' || c == '\U{205F}' ||
    c == '\U{3000}' || c == '\U{FEFF}'
  }

  function TrimStart(s: string): (r: string)
    decreases |s|
  {
    if |s| > 0 && IsJsWhitespace(s[0]) then TrimStart(s[1..]) else s
  }

  function TrimEnd(s: string): (r: string)
    decreases |s|
  {
    if |s| > 0 && IsJsWhitespace(s[|s| - 1]) then TrimEnd(s[..|s| - 1]) else s
  }

  function Trim(s: string): string {
    TrimEnd(TrimStart(s))
  }

  predicate AllWhitespace(s: string) {
    forall i :: 0 <= i < |s| ==> IsJsWhitespace(s[i])
  }

  lemma {:induction false} TrimStartEmpty(s: string)
    ensures TrimStart(s) == "" <==> AllWhitespace(s)
    decreases |s|
  {
    if |s| > 0 && IsJsWhitespace(s[0]) {
      TrimStartEmpty(s[1..]);
      assert AllWhitespace(s) <==> AllWhitespace(s[1..]) by {
        if AllWhitespace(s[1..]) {
          forall i | 0 <= i < |s| ensures IsJsWhitespace(s[i]) {
            if i > 0 { assert s[i] == s[1..][i - 1]; }
          }
        }
      }
    }
  }

  lemma {:induction false} TrimEndOfNonBlank(s: string)
    requires |s| > 0 && !IsJsWhitespace(s[0])
    ensures TrimEnd(s) != ""
    decreases |s|
  {
    if IsJsWhitespace(s[|s| - 1]) {
      TrimEndOfNonBlank(s[..|s| - 1]);
    }
  }

  /** `!s.trim()` holds exactly when `s` consists of whitespace only
      (the empty string included). */
  lemma TrimEmptyIff(s: string)
    ensures Trim(s) == "" <==> AllWhitespace(s)
  {
    TrimStartEmpty(s);
    var t := TrimStart(s);
    if t != "" {
      TrimStartNonBlankHead(s);
      TrimEndOfNonBlank(t);
    }
  }

  lemma {:induction false} TrimStartNonBlankHead(s: string)
    ensures TrimStart(s) != "" ==> !IsJsWhitespace(TrimStart(s)[0])
    decreases |s|
  {
    if |s| > 0 && IsJsWhitespace(s[0]) {
      TrimStartNonBlankHead(s[1..]);
    }
  }

  /* ---------------- integers as decimal text ---------------- */

  predicate IsDigit(c: char) {
    '0' <= c <= '9'
  }

  function DigitChar(d: nat): (c: char)
    requires d < 10
    ensures IsDigit(c) && c as int - '0' as int == d
  {
    ('0' as int + d) as char
  }

  /** `n.toString()` for a non-negative integer. */
  function Decimal(n: nat): (r: string)
    ensures |r| >= 1
    ensures forall i :: 0 <= i < |r| ==> IsDigit(r[i])
  {
    if n < 10 then [DigitChar(n)] else Decimal(n / 10) + [DigitChar(n % 10)]
  }

  /** The number a string of digits denotes. */
  function DigitsValue(s: string): nat
    requires forall i :: 0 <= i < |s| ==> IsDigit(s[i])
  {
    if s == [] then 0
    else
      var last := s[|s| - 1];
      assert IsDigit(last);
      DigitsValue(s[..|s| - 1]) * 10 + (last as int - '0' as int)
  }

  /** The decimal rendering is read back as the same number. */
  lemma {:induction false} DecimalRoundTrip(n: nat)
    ensures DigitsValue(Decimal(n)) == n
  {
    if n >= 10 {
      DecimalRoundTrip(n / 10);
      var s := Decimal(n);
      assert s[..|s| - 1] == Decimal(n / 10);
    }
  }

  /** `String(i)` for any integer. */
  function IntToString(i: int): (r: string)
    ensures i >= 0 ==> r == Decimal(i)
    ensures i < 0 ==> r == "-" + Decimal(-i)
  {
    if i < 0 then "-" + Decimal(-i) else Decimal(i)
  }

  function Pow10(k: nat): (p: nat)
    ensures p >= 1
  {
    if k == 0 then 1 else 10 * Pow10(k - 1)
  }

  /** A number below 10^k has at most k digits. */
  lemma {:induction false} DecimalLength(n: nat, k: nat)
    ensures n < Pow10(k) && k >= 1 ==> |Decimal(n)| <= k
  {
    if n >= 10 && k >= 1 {
      DecimalLength(n / 10, k - 1);
    }
  }

  /** Left-pads the decimal rendering of `n` with zeros to `width` digits. */
  function ZeroPad(n: nat, width: nat): (r: string)
    ensures |r| >= width && |r| >= 1
    ensures 1 <= width && n < Pow10(width) ==> |r| == width
    ensures forall i :: 0 <= i < |r| ==> IsDigit(r[i])
  {
    var d := Decimal(n);
    DecimalLength(n, width);
    if |d| >= width then d else seq(width - |d|, i => '0') + d
  }
}
