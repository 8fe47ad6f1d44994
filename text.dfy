/**
 * String helpers the dashboard relies on: ASCII lower-casing and substring search (for
 * `toLowerCase().includes(...)`), `trim()`, decimal rendering (`String(n)`, `padStart`) and
 * the digit parsing that reads those renderings back.
 */
module Text {
  import opened Wrappers


  // ---------------------------------------------------------------- case and search

  function LowerChar(c: char): char {
    if 'A' <= c <= 'Z' then (c as int + 32) as char else c
  }

  /** ASCII model of `String.prototype.toLowerCase`. */
  function Lower(s: string): (r: string)
    ensures |r| == |s|
    ensures forall i | 0 <= i < |s| :: r[i] == LowerChar(s[i])
  {
    seq(|s|, i requires 0 <= i < |s| => LowerChar(s[i]))
  }

  lemma LowerIdempotent(s: string)
    ensures Lower(Lower(s)) == Lower(s)
  {
  }

  ghost predicate OccursAt(hay: string, needle: string, i: int) {
    0 <= i && i + |needle| <= |hay| && hay[i..i + |needle|] == needle
  }

  /** `hay.includes(needle)`: an occurrence of `needle` at some position of `hay`. */
  function Contains(hay: string, needle: string): (r: bool)
    ensures r <==> exists i :: OccursAt(hay, needle, i)
    decreases |hay|
  {
    if needle <= hay then
      assert OccursAt(hay, needle, 0);
      true
    else if |hay| == 0 then
      false
    else
      var r := Contains(hay[1..], needle);
      assert forall i :: OccursAt(hay[1..], needle, i) ==> OccursAt(hay, needle, i + 1);
      assert forall i :: OccursAt(hay, needle, i) && i > 0 ==> OccursAt(hay[1..], needle, i - 1);
      assert !OccursAt(hay, needle, 0);
      r
  }

  /** `hay.toLowerCase().includes(query.toLowerCase())` */
  function ContainsIgnoringCase(hay: string, query: string): bool {
    Contains(Lower(hay), Lower(query))
  }

  lemma EmptyQueryMatches(hay: string)
    ensures ContainsIgnoringCase(hay, "")
  {
    assert OccursAt(Lower(hay), Lower(""), 0);
  }

  /** The query's own case never matters: it is lower-cased before the comparison. */
  lemma QueryCaseIrrelevant(hay: string, query: string)
    ensures ContainsIgnoringCase(hay, query) == ContainsIgnoringCase(hay, Lower(query))
  {
    LowerIdempotent(query);
  }

  // ---------------------------------------------------------------- trim

  /** The ASCII members of ECMAScript's WhiteSpace and LineTerminator sets. */
  predicate IsSpace(c: char) {
    c == ' ' || c == '\t' || c == '\n' || c == '\r' || c == '\U{000B}' || c == '\U{000C}'
  }

  predicate IsBlank(s: string) {
    forall i | 0 <= i < |s| :: IsSpace(s[i])
  }

  function TrimStart(s: string): string
    decreases |s|
  {
    if |s| > 0 && IsSpace(s[0]) then TrimStart(s[1..]) else s
  }

  function TrimEnd(s: string): string
    decreases |s|
  {
    if |s| > 0 && IsSpace(s[|s| - 1]) then TrimEnd(s[..|s| - 1]) else s
  }

  /** `s.trim()` */
  function Trim(s: string): string {
    TrimEnd(TrimStart(s))
  }

  lemma {:induction false} TrimStartEmpty(s: string)
    ensures TrimStart(s) == "" <==> IsBlank(s)
    decreases |s|
  {
    if |s| > 0 && IsSpace(s[0]) {
      TrimStartEmpty(s[1..]);
      assert IsBlank(s) <==> IsBlank(s[1..]) by {
        if IsBlank(s[1..]) {
          forall i | 0 <= i < |s| ensures IsSpace(s[i]) {
            if i > 0 { assert s[i] == s[1..][i - 1]; }
          }
        }
      }
    }
  }

  lemma {:induction false} TrimEndEmpty(s: string)
    ensures TrimEnd(s) == "" <==> IsBlank(s)
    decreases |s|
  {
    if |s| > 0 && IsSpace(s[|s| - 1]) {
      TrimEndEmpty(s[..|s| - 1]);
      assert IsBlank(s) <==> IsBlank(s[..|s| - 1]) by {
        if IsBlank(s[..|s| - 1]) {
          forall i | 0 <= i < |s| ensures IsSpace(s[i]) {
            if i < |s| - 1 { assert s[i] == s[..|s| - 1][i]; }
          }
        }
      }
    }
  }

  lemma {:induction false} TrimStartSuffix(s: string)
    ensures exists k :: 0 <= k <= |s| && TrimStart(s) == s[k..] && IsBlank(s[..k])
    decreases |s|
  {
    if |s| > 0 && IsSpace(s[0]) {
      TrimStartSuffix(s[1..]);
      var k :| 0 <= k <= |s[1..]| && TrimStart(s[1..]) == s[1..][k..] && IsBlank(s[1..][..k]);
      assert s[1..][k..] == s[k + 1..];
      assert IsBlank(s[..k + 1]) by {
        forall i | 0 <= i < k + 1 ensures IsSpace(s[i]) {
          if i > 0 { assert s[i] == s[1..][..k][i - 1]; }
        }
      }
    } else {
      assert s[0..] == s;
    }
  }

  /** `s.trim() === ""` holds exactly for the strings made of white space only. */
  lemma TrimEmptyIffBlank(s: string)
    ensures Trim(s) == "" <==> IsBlank(s)
  {
    TrimEndEmpty(TrimStart(s));
    TrimStartSuffix(s);
    var k :| 0 <= k <= |s| && TrimStart(s) == s[k..] && IsBlank(s[..k]);
    if IsBlank(s[k..]) {
      forall i | 0 <= i < |s| ensures IsSpace(s[i]) {
        if i < k { assert s[i] == s[..k][i]; } else { assert s[i] == s[k..][i - k]; }
      }
    }
  }

  // ---------------------------------------------------------------- decimal numbers

  predicate IsDigit(c: char) {
    '0' <= c <= '9'
  }

  predicate AllDigits(s: string) {
    forall i | 0 <= i < |s| :: IsDigit(s[i])
  }

  function DigitChar(d: nat): (c: char)
    requires d < 10
    ensures IsDigit(c)
  {
    ('0' as int + d) as char
  }

  /** `String(n)` for a non-negative integer: shortest decimal digits. */
  function ToDecimal(n: nat): (s: string)
    ensures |s| >= 1 && AllDigits(s)
    ensures s[0] == '0' ==> n == 0
    ensures n >= 10 ==> |s| >= 2
  {
    if n < 10 then [DigitChar(n)] else ToDecimal(n / 10) + [DigitChar(n % 10)]
  }

  /** `String(i)` for any integer. */
  function IntToString(i: int): string {
    if i < 0 then "-" + ToDecimal(-i) else ToDecimal(i)
  }

  /** The value of a string of decimal digits (leading zeros allowed). */
  function DecimalValue(s: string): nat
    requires AllDigits(s)
  {
    if |s| == 0 then 0 else DecimalValue(s[..|s| - 1]) * 10 + (s[|s| - 1] as int - '0' as int)
  }

  lemma {:induction false} DecimalRoundTrip(n: nat)
    ensures DecimalValue(ToDecimal(n)) == n
  {
    if n >= 10 {
      DecimalRoundTrip(n / 10);
      var s := ToDecimal(n);
      assert s[..|s| - 1] == ToDecimal(n / 10);
    }
  }

  lemma ToDecimalInjective(a: nat, b: nat)
    requires ToDecimal(a) == ToDecimal(b)
    ensures a == b
  {
    DecimalRoundTrip(a);
    DecimalRoundTrip(b);
  }

  /** Digit counts: a number below 10^k has at most k digits, one at or above 10^(k-1) at least k. */
  lemma {:induction false} ToDecimalLength(n: nat)
    ensures n < 10 ==> |ToDecimal(n)| == 1
    ensures n < 100 ==> |ToDecimal(n)| <= 2
    ensures n < 1000 ==> |ToDecimal(n)| <= 3
    ensures n >= 1000 ==> |ToDecimal(n)| >= 4
  {
    if n >= 10 { ToDecimalLength(n / 10); }
  }

  /** `s.padStart(width, fill)` for a one-character fill string. */
  function PadStart(s: string, width: nat, fill: char): (r: string)
    ensures |r| >= width && |r| >= |s|
    ensures s <= r[|r| - |s|..] && r[|r| - |s|..] == s
  {
    if |s| >= width then s else seq(width - |s|, _ => fill) + s
  }

  /** `String(n).padStart(width, "0")`, the shape of every record id in the corpus. */
  function Padded(n: nat, width: nat): (r: string)
    ensures AllDigits(r) && |r| >= width
  {
    PadStart(ToDecimal(n), width, '0')
  }

  lemma {:induction false} LeadingZerosValue(z: nat, s: string)
    requires AllDigits(s)
    ensures AllDigits(seq(z, _ => '0') + s)
    ensures DecimalValue(seq(z, _ => '0') + s) == DecimalValue(s)
    decreases |s|, z
  {
    var t := seq(z, _ => '0') + s;
    if |s| > 0 {
      var s' := s[..|s| - 1];
      LeadingZerosValue(z, s');
      assert t[..|t| - 1] == seq(z, _ => '0') + s';
    } else if z > 0 {
      LeadingZerosValue(z - 1, s);
      assert t[..|t| - 1] == seq(z - 1, _ => '0') + s;
    } else {
      assert t == s;
    }
  }

  /** Zero padding never changes the number a padded id denotes. */
  lemma PaddedValue(n: nat, width: nat)
    ensures DecimalValue(Padded(n, width)) == n
  {
    DecimalRoundTrip(n);
    var d := ToDecimal(n);
    if |d| < width {
      LeadingZerosValue(width - |d|, d);
    }
  }

  lemma PaddedInjective(a: nat, b: nat, width: nat)
    requires Padded(a, width) == Padded(b, width)
    ensures a == b
  {
    PaddedValue(a, width);
    PaddedValue(b, width);
  }

  /** A number with fewer digits than the width is padded with at least one leading '0'. */
  lemma PaddedLeadingZero(n: nat, width: nat)
    requires |ToDecimal(n)| < width
    ensures |Padded(n, width)| == width && Padded(n, width)[0] == '0'
  {
  }

  /** `${prefix}${String(n).padStart(width, "0")}`: the shape of every record id in the corpus. */
  function PrefixedId(prefix: string, n: nat, width: nat): (id: string)
    ensures |id| >= |prefix| + width && id[..|prefix|] == prefix
    ensures id[|prefix|..] == Padded(n, width)
  {
    assert (prefix + Padded(n, width))[|prefix|..] == Padded(n, width);
    prefix + Padded(n, width)
  }

  /** Ids with the same prefix are equal only for the same number. */
  lemma PrefixedIdInjective(prefix: string, a: nat, b: nat, width: nat)
    requires PrefixedId(prefix, a, width) == PrefixedId(prefix, b, width)
    ensures a == b
  {
    PaddedInjective(a, b, width);
  }

  /** The run of leading decimal digits of a string. */
  function LeadingDigits(s: string): (r: string)
    ensures AllDigits(r) && r <= s
    ensures |r| < |s| ==> !IsDigit(s[|r|])
  {
    if |s| > 0 && IsDigit(s[0]) then [s[0]] + LeadingDigits(s[1..]) else []
  }

  lemma {:induction false} LeadingDigitsOfDecimal(d: string, rest: string)
    requires AllDigits(d) && (|rest| == 0 || !IsDigit(rest[0]))
    ensures LeadingDigits(d + rest) == d
  {
    if |d| > 0 {
      LeadingDigitsOfDecimal(d[1..], rest);
      assert (d + rest)[1..] == d[1..] + rest;
    } else {
      assert d + rest == rest;
    }
  }

  /** `Number.parseInt(s, 10)` on a string that starts with its digits; `None` stands for NaN. */
  function ParseInt(s: string): (r: Option<int>)
    ensures r.None? <==> |s| == 0 || !IsDigit(s[0])
    ensures r.Some? ==> r.value >= 0
  {
    var d := LeadingDigits(s);
    if d == [] then None else Some(DecimalValue(d))
  }

  /** Parsing reads back a printed number up to the first non-digit after it. */
  lemma ParseIntOfDecimal(n: nat, rest: string)
    requires |rest| == 0 || !IsDigit(rest[0])
    ensures ParseInt(ToDecimal(n) + rest) == Some(n)
  {
    LeadingDigitsOfDecimal(ToDecimal(n), rest);
    DecimalRoundTrip(n);
  }

  /** `s.replace(c, "")` for a one-character pattern: only the first occurrence goes. */
  function RemoveFirst(s: string, c: char): (r: string)
    ensures c !in s ==> r == s
    ensures c in s ==> |r| == |s| - 1
  {
    if |s| == 0 then s else if s[0] == c then s[1..] else [s[0]] + RemoveFirst(s[1..], c)
  }

  /** What follows the first occurrence of `c`, or `None` when `c` does not occur. */
  function AfterFirst(s: string, c: char): (r: Option<string>)
    ensures r.None? <==> c !in s
    ensures r.Some? ==> |r.value| < |s|
  {
    if |s| == 0 then None else if s[0] == c then Some(s[1..]) else AfterFirst(s[1..], c)
  }

  lemma {:induction false} AfterFirstPast(d: string, c: char, rest: string)
    requires c !in d
    ensures AfterFirst(d + [c] + rest, c) == Some(rest)
  {
    if |d| > 0 {
      AfterFirstPast(d[1..], c, rest);
      assert (d + [c] + rest)[1..] == d[1..] + [c] + rest;
    } else {
      assert d + [c] + rest == [c] + rest;
    }
  }
}
