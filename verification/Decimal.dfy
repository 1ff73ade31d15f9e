/**
 Canonical decimal strings of unsigned 64-bit numbers: the schema's pattern, the validator's loop and
 the client's loop, proved to accept the same strings.
 */
module Decimal {
  import opened Wrappers

  const U64_MAX := 18446744073709551615
  const MAX_TEXT := "18446744073709551615"

  predicate IsDigit(c: char) { '0' <= c <= '9' }

  predicate AllDigits(s: string) { forall i :: 0 <= i < |s| ==> IsDigit(s[i]) }

  function DigitValue(c: char): nat
    requires IsDigit(c)
  {
    (c - '0') as nat
  }

  function Value(s: string): nat
    requires AllDigits(s)
  {
    if s == "" then 0 else 10 * Value(s[..|s| - 1]) + DigitValue(s[|s| - 1])
  }

  function Pow10(n: nat): nat {
    if n == 0 then 1 else 10 * Pow10(n - 1)
  }

  /** The language: digits without a leading zero, of a number that fits. */
  predicate Canonical(s: string) {
    s != "" && AllDigits(s) && (s[0] == '0' ==> |s| == 1)
  }

  predicate CanonicalU64(s: string) {
    Canonical(s) && Value(s) <= U64_MAX
  }

  // ---------------------------------------------------------------- printing

  function DigitChar(d: nat): (c: char)
    requires d < 10
    ensures IsDigit(c) && DigitValue(c) == d
  {
    '0' + d as char
  }

  /** The decimal string of a number. */
  function Print(n: nat): (s: string)
    ensures s != "" && AllDigits(s)
  {
    if n < 10 then [DigitChar(n)] else Print(n / 10) + [DigitChar(n % 10)]
  }

  lemma ValueAppend(s: string, c: char)
    requires AllDigits(s) && IsDigit(c)
    ensures AllDigits(s + [c]) && Value(s + [c]) == 10 * Value(s) + DigitValue(c)
  {
  }

  lemma {:induction false} PrintIsCanonical(n: nat)
    ensures Canonical(Print(n)) && Value(Print(n)) == n && (Print(n)[0] == '0' <==> n == 0)
  {
    if n >= 10 {
      PrintIsCanonical(n / 10);
      ValueAppend(Print(n / 10), DigitChar(n % 10));
      assert Print(n)[0] == Print(n / 10)[0];
    } else {
      assert Print(n)[..0] == "";
    }
  }

  lemma {:induction false} LeadingDigitCounts(s: string)
    requires Canonical(s) && |s| >= 2
    ensures Value(s) >= 10
  {
    var front := s[..|s| - 1];
    if |front| >= 2 {
      LeadingDigitCounts(front);
    } else {
      assert front == [s[0]] && front[..0] == "";
    }
  }

  /** A canonical string is the print of its value, so equal values have equal strings. */
  lemma {:induction false} CanonicalIsPrint(s: string)
    requires Canonical(s)
    ensures Print(Value(s)) == s
  {
    var front, c := s[..|s| - 1], s[|s| - 1];
    assert s == front + [c] && [DigitChar(DigitValue(c))] == [c];
    if |s| == 1 {
      assert Value(s) == DigitValue(c);
    } else {
      LeadingDigitCounts(s);
      CanonicalIsPrint(front);
    }
  }

  // ---------------------------------------------------------------- order of values

  lemma {:induction false} ValueBelow(s: string)
    requires AllDigits(s)
    ensures Value(s) < Pow10(|s|)
  {
    if s != "" { ValueBelow(s[..|s| - 1]); }
  }

  lemma {:induction false} ValueSplit(s: string, i: nat)
    requires AllDigits(s) && i <= |s|
    ensures AllDigits(s[..i]) && AllDigits(s[i..]) && Value(s) == Value(s[..i]) * Pow10(|s| - i) + Value(s[i..])
    decreases |s| - i
  {
    if i == |s| {
      assert s[..i] == s;
    } else {
      var front := s[..|s| - 1];
      ValueSplit(front, i);
      assert front[..i] == s[..i] && s[i..][..|s| - i - 1] == front[i..];
      assert Value(s) == 10 * (Value(s[..i]) * Pow10(|s| - i - 1) + Value(front[i..])) + DigitValue(s[|s| - 1]);
      TenTimes(Value(s[..i]), Pow10(|s| - i - 1));
    }
  }

  lemma TenTimes(v: nat, p: nat)
    ensures 10 * (v * p) == v * (10 * p)
  {
  }

  /** The value of a string of digits, by the digit at one place. */
  lemma ValueAt(s: string, i: nat)
    requires AllDigits(s) && i < |s|
    ensures IsDigit(s[i]) && AllDigits(s[..i]) && AllDigits(s[i + 1..]) && Value(s[i + 1..]) < Pow10(|s| - i - 1)
    ensures Value(s) == (10 * Value(s[..i]) + DigitValue(s[i])) * Pow10(|s| - i - 1) + Value(s[i + 1..])
  {
    hide Value, Pow10;
    ValueSplit(s, i + 1);
    ValueBelow(s[i + 1..]);
    assert s[..i + 1] == s[..i] + [s[i]];
    ValueAppend(s[..i], s[i]);
  }

  /** Between digit strings of one length, the first difference decides. */
  lemma FirstDifference(s: string, t: string, i: nat)
    requires AllDigits(s) && AllDigits(t) && |s| == |t| && i < |s| && s[..i] == t[..i] && s[i] < t[i]
    ensures Value(s) < Value(t)
  {
    hide Value, Pow10, AllDigits;
    ValueAt(s, i);
    ValueAt(t, i);
    ScaledBelow(10 * Value(s[..i]) + DigitValue(s[i]), 10 * Value(t[..i]) + DigitValue(t[i]), Pow10(|s| - i - 1),
      Value(s[i + 1..]), Value(t[i + 1..]));
  }

  lemma ScaledBelow(a: nat, b: nat, p: nat, x: nat, y: nat)
    requires a < b && x < p
    ensures a * p + x < b * p + y
  {
    assert (a + 1) * p <= b * p;
  }

  /** The first place where two strings of one length differ, or their length. */
  function Difference(s: string, t: string): (i: nat)
    requires |s| == |t|
    ensures i <= |s| && s[..i] == t[..i] && (i < |s| ==> s[i] != t[i])
    ensures i == |s| ==> s == t
  {
    DifferenceFrom(s, t, 0)
  }

  function DifferenceFrom(s: string, t: string, k: nat): (i: nat)
    requires |s| == |t| && k <= |s| && s[..k] == t[..k]
    ensures k <= i <= |s| && s[..i] == t[..i] && (i < |s| ==> s[i] != t[i])
    ensures i == |s| ==> s == t
    decreases |s| - k
  {
    if k == |s| then assert s == s[..k]; assert t == t[..k]; k
    else if s[k] != t[k] then k
    else
      assert s[..k + 1] == s[..k] + [s[k]];
      assert t[..k + 1] == t[..k] + [t[k]];
      DifferenceFrom(s, t, k + 1)
  }

  // ---------------------------------------------------------------- the schema's pattern

  /** One alternative of the pattern: a literal, one character of a range, then so many digits. */
  datatype Alternative = Alternative(literal: string, low: char, high: char, least: nat, most: nat)

  predicate Matches(a: Alternative, s: string) {
    var n := |a.literal|;
    && n + 1 + a.least <= |s| <= n + 1 + a.most
    && s[..n] == a.literal && a.low <= s[n] <= a.high
    && AllDigits(s[n + 1..])
  }

  const ZERO := Alternative("", '0', '0', 0, 0)

  /** The alternatives of the generation pattern, in its order; a literal digit last in a prefix is a range of one. */
  const ALTERNATIVES: seq<Alternative> := [
    Alternative("", '1', '9', 0, 18),
    Alternative("1", '0', '7', 18, 18),
    Alternative("18", '0', '3', 17, 17),
    Alternative("184", '0', '3', 16, 16),
    Alternative("1844", '0', '5', 15, 15),
    Alternative("18446", '0', '6', 14, 14),
    Alternative("184467", '0', '3', 13, 13),
    Alternative("1844674", '0', '3', 12, 12),
    Alternative("184467440", '0', '6', 10, 10),
    Alternative("1844674407", '0', '2', 9, 9),
    Alternative("18446744073", '0', '6', 8, 8),
    Alternative("1844674407370", '0', '8', 6, 6),
    Alternative("18446744073709", '0', '4', 5, 5),
    Alternative("184467440737095", '0', '4', 4, 4),
    Alternative("1844674407370955", '0', '0', 3, 3),
    Alternative("18446744073709551", '0', '5', 2, 2),
    Alternative("184467440737095516", '0', '0', 1, 1),
    Alternative("1844674407370955161", '0', '5', 0, 0)]

  ghost predicate MatchesGeneration(s: string) {
    exists k :: 0 <= k < |ALTERNATIVES| && Matches(ALTERNATIVES[k], s)
  }

  ghost predicate MatchesDecimal(s: string) {
    Matches(ZERO, s) || MatchesGeneration(s)
  }

  /** The place of the ranged digit of a twenty-digit alternative. */
  function Place(k: nat): nat {
    if k < 8 then k else if k < 11 then k + 1 else k + 2
  }

  /** Alternative k copies the maximum up to its place and stays below it there, or at the last place up to it. */
  lemma AlternativeIs(k: nat)
    requires 1 <= k < |ALTERNATIVES|
    ensures |MAX_TEXT| == 20 && Place(k) < 20
    ensures var a, j := ALTERNATIVES[k], Place(k);
      && |a.literal| == j && a.literal == MAX_TEXT[..j] && a.low == '0' && a.least == a.most == 19 - j
      && '0' < MAX_TEXT[j] <= '9' && a.high == if j == 19 then MAX_TEXT[j] else MAX_TEXT[j] - 1 as char
  {
    LiteralIs(k);
  }

  lemma LiteralIs(k: nat)
    requires 1 <= k < |ALTERNATIVES|
    ensures ALTERNATIVES[k].literal == MAX_TEXT[..Place(k)]
  {
    if k <= 9 { ShortLiteralIs(k); } else { LongLiteralIs(k); }
  }

  lemma ShortLiteralIs(k: nat)
    requires 1 <= k <= 9
    ensures ALTERNATIVES[k].literal == MAX_TEXT[..Place(k)]
  {
  }

  lemma LongLiteralIs(k: nat)
    requires 10 <= k < |ALTERNATIVES|
    ensures ALTERNATIVES[k].literal == MAX_TEXT[..Place(k)]
  {
  }

  /** The digits of the maximum that no alternative ranges over are zeros. */
  lemma SkippedPlaces(j: nat)
    requires 1 <= j < 20
    ensures if j == 8 || j == 12 then MAX_TEXT[j] == '0' else exists k :: 1 <= k < |ALTERNATIVES| && Place(k) == j
  {
    if j != 8 && j != 12 {
      var k := if j < 8 then j else if j < 12 then j - 1 else j - 2;
      assert Place(k) == j;
    }
  }

  lemma MaxDigits()
    ensures |MAX_TEXT| == 20 && AllDigits(MAX_TEXT) && MAX_TEXT[0] == '1'
  {
  }

  lemma MaxPrefix(k: nat, c: char, v: nat)
    requires |MAX_TEXT| == 20 && AllDigits(MAX_TEXT) && k < 20 && MAX_TEXT[k] == c && Value(MAX_TEXT[..k]) == v
    ensures Value(MAX_TEXT[..k + 1]) == 10 * v + (c - '0') as int
  {
    hide Value;
    assert MAX_TEXT[..k + 1] == MAX_TEXT[..k] + [MAX_TEXT[k]];
    ValueAppend(MAX_TEXT[..k], MAX_TEXT[k]);
  }

  lemma FirstTen()
    requires |MAX_TEXT| == 20 && AllDigits(MAX_TEXT) && Value(MAX_TEXT[..0]) == 0
    ensures Value(MAX_TEXT[..10]) == 1844674407
  {
    hide Value, AllDigits, IsDigit;
    MaxPrefix(0, '1', 0);
    MaxPrefix(1, '8', 1);
    MaxPrefix(2, '4', 18);
    MaxPrefix(3, '4', 184);
    MaxPrefix(4, '6', 1844);
    MaxPrefix(5, '7', 18446);
    MaxPrefix(6, '4', 184467);
    MaxPrefix(7, '4', 1844674);
    MaxPrefix(8, '0', 18446744);
    MaxPrefix(9, '7', 184467440);
  }

  lemma LastTen()
    requires |MAX_TEXT| == 20 && AllDigits(MAX_TEXT) && Value(MAX_TEXT[..10]) == 1844674407
    ensures Value(MAX_TEXT[..20]) == 18446744073709551615
  {
    hide Value, AllDigits, IsDigit;
    MaxPrefix(10, '3', 1844674407);
    MaxPrefix(11, '7', 18446744073);
    MaxPrefix(12, '0', 184467440737);
    MaxPrefix(13, '9', 1844674407370);
    MaxPrefix(14, '5', 18446744073709);
    MaxPrefix(15, '5', 184467440737095);
    MaxPrefix(16, '1', 1844674407370955);
    MaxPrefix(17, '6', 18446744073709551);
    MaxPrefix(18, '1', 184467440737095516);
    MaxPrefix(19, '5', 1844674407370955161);
  }

  lemma MaxText()
    ensures |MAX_TEXT| == 20 && AllDigits(MAX_TEXT) && MAX_TEXT[0] == '1' && Value(MAX_TEXT) == U64_MAX
  {
    MaxDigits();
    WholeSlices(MAX_TEXT);
    hide Value, AllDigits;
    FirstTen();
    LastTen();
  }

  lemma WholeSlices(s: string)
    ensures Value(s[..0]) == 0 && s[..|s|] == s
  {
  }

  // ---------------------------------------------------------------- the pattern is the language

  lemma {:induction false} PowersGrow(m: nat, n: nat)
    requires m <= n
    ensures 1 <= Pow10(m) <= Pow10(n)
  {
    if m < n { PowersGrow(m, n - 1); } else if 0 < m { PowersGrow(m - 1, m - 1); }
  }

  lemma Powers()
    ensures Pow10(19) == 10000000000000000000 && Pow10(20) == 100000000000000000000
  {
    assert Pow10(4) == 10000;
    assert Pow10(8) == 100000000;
    assert Pow10(12) == 1000000000000;
    assert Pow10(16) == 10000000000000000;
  }

  lemma {:induction false} ValueAtLeast(s: string)
    requires AllDigits(s) && s != "" && s[0] != '0'
    ensures Value(s) >= Pow10(|s| - 1)
  {
    var front := s[..|s| - 1];
    if |s| == 1 {
      assert Value(front) == 0;
    } else {
      ValueAtLeast(front);
    }
  }

  lemma FewDigitsFit(s: string)
    requires AllDigits(s) && |s| <= 19
    ensures Value(s) < Pow10(19) <= U64_MAX
  {
    ValueBelow(s);
    PowersGrow(|s|, 19);
    Powers();
  }

  lemma ManyDigitsDoNot(s: string)
    requires Canonical(s) && |s| > 20
    ensures Value(s) > U64_MAX
  {
    ValueAtLeast(s);
    PowersGrow(20, |s| - 1);
    Powers();
  }

  lemma MatchedHasLength(s: string, k: nat)
    requires k < |ALTERNATIVES| && Matches(ALTERNATIVES[k], s)
    ensures if k == 0 then 1 <= |s| <= 19 else |s| == 20
  {
  }

  lemma ShortMatches(s: string)
    requires |s| < 20
    ensures MatchesGeneration(s) <==> Canonical(s) && s[0] != '0'
  {
    if MatchesGeneration(s) {
      var k :| 0 <= k < |ALTERNATIVES| && Matches(ALTERNATIVES[k], s);
      MatchedHasLength(s, k);
      FirstAlternative(s);
    }
    if Canonical(s) && s[0] != '0' {
      FirstAlternative(s);
    }
  }

  lemma FirstAlternative(s: string)
    ensures Matches(ALTERNATIVES[0], s) <==> 1 <= |s| <= 19 && AllDigits(s) && s[0] != '0'
  {
  }

  lemma MatchedIsBelow(s: string, k: nat)
    requires |s| == 20 && k < |ALTERNATIVES| && Matches(ALTERNATIVES[k], s)
    ensures Canonical(s) && s[0] != '0' && Value(s) <= U64_MAX
  {
    hide Matches, Value, AllDigits, IsDigit;
    MatchedHasLength(s, k);
    MaxText();
    var j := MatchedDigits(s, k);
    if s[j] < MAX_TEXT[j] { FirstDifference(s, MAX_TEXT, j); }
  }

  /** A matched string of twenty digits leaves the maximum at one place, downwards, or nowhere. */
  lemma MatchedDigits(s: string, k: nat) returns (j: nat)
    requires |s| == 20 && 1 <= k < |ALTERNATIVES| && Matches(ALTERNATIVES[k], s)
    ensures |MAX_TEXT| == 20 && j < 20 && AllDigits(s) && s[0] == MAX_TEXT[0] != '0' && s[..j] == MAX_TEXT[..j]
    ensures s[j] < MAX_TEXT[j] || s == MAX_TEXT
  {
    AlternativeIs(k);
    MaxText();
    j := Place(k);
    MatchedSplits(ALTERNATIVES[k], s, MAX_TEXT, j);
  }

  /** A string matched by an alternative that copies the front of another follows it up to the ranged digit. */
  lemma MatchedSplits(a: Alternative, s: string, other: string, j: nat)
    requires Matches(a, s) && |s| == |other| && 0 < j < |other| && AllDigits(other)
    requires a.literal == other[..j] && a.low == '0' && a.least == a.most == |other| - 1 - j
    requires a.high == if j == |other| - 1 then other[j] else other[j] - 1 as char
    ensures AllDigits(s) && s[..j] == other[..j] && s[0] == other[0] && (s[j] < other[j] || s == other)
  {
  }

  /** A string below the maximum at the first difference, inside the number, is matched by that place's alternative. */
  lemma BelowAtPlace(s: string, i: nat)
    requires |s| == 20 && Canonical(s) && s[0] != '0' && |MAX_TEXT| == 20 && MAX_TEXT[0] == '1'
    requires i < 20 && s[..i] == MAX_TEXT[..i] && s[i] < MAX_TEXT[i]
    ensures MatchesGeneration(s)
  {
    hide Value;
    assert i >= 1;
    SkippedPlaces(i);
    var k :| 1 <= k < |ALTERNATIVES| && Place(k) == i;
    AlternativeIs(k);
    assert Matches(ALTERNATIVES[k], s);
  }

  lemma MaxIsMatched()
    ensures MatchesGeneration(MAX_TEXT)
  {
    MaxDigits();
    AlternativeIs(17);
    assert Matches(ALTERNATIVES[17], MAX_TEXT);
  }

  lemma BelowIsMatched(s: string)
    requires |s| == 20 && Canonical(s) && Value(s) <= U64_MAX
    ensures MatchesGeneration(s)
  {
    hide Value, MatchesGeneration, Canonical, AllDigits;
    MaxText();
    CanonicalDigits(s);
    var i := Difference(s, MAX_TEXT);
    if i == 20 {
      MaxIsMatched();
    } else {
      if s[i] > MAX_TEXT[i] { FirstDifference(MAX_TEXT, s, i); }
      BelowAtPlace(s, i);
    }
  }

  lemma CanonicalDigits(s: string)
    requires Canonical(s)
    ensures AllDigits(s) && s != "" && (s[0] == '0' ==> |s| == 1)
  {
  }

  /** The generation pattern is exactly the canonical decimals from 1 to 2^64 - 1. */
  lemma GenerationPattern(s: string)
    ensures MatchesGeneration(s) <==> CanonicalU64(s) && Value(s) >= 1
  {
    hide Value, Matches;
    if AllDigits(s) && |s| <= 19 { FewDigitsFit(s); }
    if Canonical(s) { ZeroIsZero(s); }
    if |s| < 20 {
      ShortMatches(s);
    } else if |s| > 20 {
      if MatchesGeneration(s) {
        var k :| 0 <= k < |ALTERNATIVES| && Matches(ALTERNATIVES[k], s);
        MatchedHasLength(s, k);
      }
      if Canonical(s) { ManyDigitsDoNot(s); }
    } else {
      if MatchesGeneration(s) {
        var k :| 0 <= k < |ALTERNATIVES| && Matches(ALTERNATIVES[k], s);
        MatchedIsBelow(s, k);
      }
      if CanonicalU64(s) { BelowIsMatched(s); }
    }
  }

  lemma ZeroIsZero(s: string)
    requires Canonical(s)
    ensures Value(s) == 0 <==> s == "0"
    ensures Value(s) == 0 <==> s[0] == '0'
  {
  }

  lemma ZeroMatches(s: string)
    ensures Matches(ZERO, s) <==> s == "0"
  {
  }

  /**
   The decimal pattern is exactly the canonical decimals from 0 to 2^64 - 1; the schema's length bounds add
   nothing.
   */
  lemma DecimalPattern(s: string)
    ensures MatchesDecimal(s) <==> CanonicalU64(s)
    ensures MatchesDecimal(s) ==> 1 <= |s| <= 20
    ensures MatchesGeneration(s) <==> MatchesDecimal(s) && s != "0"
  {
    hide Value, MatchesGeneration;
    GenerationPattern(s);
    if Canonical(s) { ZeroIsZero(s); }
    if Canonical(s) && |s| > 20 { ManyDigitsDoNot(s); }
    ZeroMatches(s);
  }

  // ---------------------------------------------------------------- the loops

  datatype DecimalError = Malformed | Overflow

  /**
   The validator's parser. Although it stops early on overflow, it accepts exactly the language, inverts
   printing, and reports overflow exactly for the canonical twenty-digit strings that are too large.
   */
  method ParseDecimalU64(s: string) returns (r: Result<nat, DecimalError>)
    ensures r.Success? <==> CanonicalU64(s)
    ensures r.Success? ==> r.value == Value(s) && Print(r.value) == s
    ensures r == Failure(Overflow) <==> |s| == 20 && Canonical(s) && Value(s) > U64_MAX
  {
    hide Value;
    if s == "" || |s| > 20 {
      if Canonical(s) { ManyDigitsDoNot(s); }
      return Failure(Malformed);
    }
    if s[0] == '0' {
      if |s| != 1 { return Failure(Malformed); }
      assert s == "0";
      ZeroIsZero(s);
      return Success(0);
    }
    var value := 0;
    WholeSlices(s);
    for i := 0 to |s|
      invariant AllDigits(s[..i]) && value == Value(s[..i]) <= U64_MAX
    {
      var ch := s[i];
      assert s[..i + 1] == s[..i] + [ch];
      if ch < '0' || ch > '9' {
        assert !IsDigit(s[i]);
        return Failure(Malformed);
      }
      ValueAppend(s[..i], ch);
      value := value * 10 + (ch - '0') as nat;
      if value > U64_MAX {
        OverflowIsLast(s, i);
        return Failure(Overflow);
      }
    }
    assert s[..|s|] == s;
    CanonicalIsPrint(s);
    r := Success(value);
  }

  /** Only the twentieth digit can overflow. */
  lemma OverflowIsLast(s: string, i: nat)
    requires i < |s| <= 20 && s[0] != '0' && AllDigits(s[..i + 1]) && Value(s[..i + 1]) > U64_MAX
    ensures |s| == 20 && Canonical(s) && Value(s) > U64_MAX
  {
    hide Value;
    if i + 1 <= 19 { FewDigitsFit(s[..i + 1]); }
    assert s[..20] == s;
  }

  /** The client's check. */
  method IsCanonicalDecimalU64(value: string) returns (ok: bool)
    ensures ok <==> CanonicalU64(value)
  {
    hide Value;
    if |value| == 0 || |value| > 20 {
      if Canonical(value) { ManyDigitsDoNot(value); }
      return false;
    }
    if value[0] == '0' {
      if |value| == 1 { ZeroIsZero(value); }
      return |value| == 1;
    }
    for i := 0 to |value|
      invariant AllDigits(value[..i])
    {
      assert value[..i + 1] == value[..i] + [value[i]];
      if value[i] < '0' || value[i] > '9' {
        assert !IsDigit(value[i]);
        return false;
      }
    }
    assert value[..|value|] == value;
    ok := 0 <= Value(value) <= U64_MAX;
  }

  /** The validator's generation check. */
  method SemanticGeneration(s: string) returns (ok: bool)
    ensures ok <==> MatchesGeneration(s)
  {
    GenerationPattern(s);
    var r := ParseDecimalU64(s);
    ok := r.Success? && r.value >= 1;
  }

  /** Pattern, validator and client accept the same strings: the prints of the 64-bit numbers, each once. */
  lemma ThreeFormsAgree(s: string)
    ensures MatchesDecimal(s) <==> exists n :: 0 <= n <= U64_MAX && Print(n) == s
    ensures forall m, n | 0 <= m && 0 <= n && Print(m) == Print(n) :: m == n
  {
    hide Value, MatchesDecimal;
    DecimalPattern(s);
    if CanonicalU64(s) {
      CanonicalIsPrint(s);
      assert Print(Value(s)) == s;
    }
    forall n | 0 <= n <= U64_MAX && Print(n) == s ensures CanonicalU64(s) { PrintIsCanonical(n); }
    forall m, n | 0 <= m && 0 <= n && Print(m) == Print(n) ensures m == n {
      PrintIsCanonical(m);
      PrintIsCanonical(n);
    }
  }
}
