/** Opaque identifiers: the schema's pattern on characters, and the scan both programs run on encoded units. */
module OpaqueId {

  const MAX_ID_BYTES := 128

  // ---------------------------------------------------------------- the scan

  predicate DigitUnit(c: int) { 48 <= c <= 57 }

  predicate AllowedUnit(c: int) {
    65 <= c <= 90 || 97 <= c <= 122 || DigitUnit(c) || c == 46 || c == 95 || c == 45 || c == 58
  }

  ghost predicate OpaqueUnits(units: seq<int>) {
    && 1 <= |units| <= MAX_ID_BYTES
    && (forall i :: 0 <= i < |units| ==> AllowedUnit(units[i]))
    && exists i :: 0 <= i < |units| && !DigitUnit(units[i])
  }

  /** The loop of the validator, over UTF-8 bytes, and of the client, over UTF-16 code units. */
  method IsOpaqueId(units: seq<int>) returns (ok: bool)
    ensures ok <==> OpaqueUnits(units)
  {
    if |units| < 1 || |units| > MAX_ID_BYTES { return false; }
    var allDigits := true;
    for i := 0 to |units|
      invariant forall j :: 0 <= j < i ==> AllowedUnit(units[j])
      invariant allDigits <==> forall j :: 0 <= j < i ==> DigitUnit(units[j])
    {
      var c := units[i];
      if !AllowedUnit(c) { return false; }
      if c < 48 || c > 57 { allDigits := false; }
    }
    ok := !allDigits;
  }

  // ---------------------------------------------------------------- encodings

  datatype Form = Utf8 | Utf16

  /** The units of one character (RFC 3629 section 3, RFC 2781 section 2.1). */
  function Encode(form: Form, c: char): (units: seq<int>)
    ensures (c as int) < 0x80 ==> units == [c as int]
    ensures (c as int) >= 0x80 ==> units != [] && forall i :: 0 <= i < |units| ==> units[i] >= 0x80
  {
    var v := c as int;
    if v < 0x80 then [v]
    else if form == Utf8 then
      if v < 0x800 then [0xC0 + v / 0x40, 0x80 + v % 0x40]
      else if v < 0x1_0000 then [0xE0 + v / 0x1000, 0x80 + v / 0x40 % 0x40, 0x80 + v % 0x40]
      else [0xF0 + v / 0x4_0000, 0x80 + v / 0x1000 % 0x40, 0x80 + v / 0x40 % 0x40, 0x80 + v % 0x40]
    else if v < 0x1_0000 then [v]
    else [0xD800 + (v - 0x1_0000) / 0x400, 0xDC00 + (v - 0x1_0000) % 0x400]
  }

  function Units(form: Form, s: string): seq<int> {
    if s == "" then [] else Encode(form, s[0]) + Units(form, s[1..])
  }

  // ---------------------------------------------------------------- the pattern

  predicate Digit(c: char) { '0' <= c <= '9' }

  predicate NonDigit(c: char) {
    'A' <= c <= 'Z' || 'a' <= c <= 'z' || c == '.' || c == '_' || c == ':' || c == '-'
  }

  ghost predicate AllAllowed(s: string) {
    forall i :: 0 <= i < |s| ==> Digit(s[i]) || NonDigit(s[i])
  }

  /** Allowed characters, then a non-digit, then allowed characters, within the length bounds of the schema. */
  ghost predicate MatchesOpaque(s: string) {
    && 1 <= |s| <= MAX_ID_BYTES
    && exists i :: 0 <= i < |s| && AllAllowed(s[..i]) && NonDigit(s[i]) && AllAllowed(s[i + 1..])
  }

  lemma AllowedIs(c: char)
    ensures AllowedUnit(c as int) <==> Digit(c) || NonDigit(c)
    ensures AllowedUnit(c as int) ==> (DigitUnit(c as int) <==> !NonDigit(c))
  {
  }

  /** Allowed text encodes to itself; other text has a unit that is not allowed. */
  lemma {:induction false} UnitsOf(form: Form, s: string)
    ensures AllAllowed(s) ==>
      |Units(form, s)| == |s| && forall i :: 0 <= i < |s| ==> Units(form, s)[i] == s[i] as int
    ensures !AllAllowed(s) ==> exists i :: 0 <= i < |Units(form, s)| && !AllowedUnit(Units(form, s)[i])
  {
    if s != "" {
      var head, tail := Encode(form, s[0]), Units(form, s[1..]);
      UnitsOf(form, s[1..]);
      AllowedIs(s[0]);
      hide Encode;
      assert Units(form, s) == head + tail;
      assert AllAllowed(s) <==> (Digit(s[0]) || NonDigit(s[0])) && AllAllowed(s[1..]) by {
        assert s == [s[0]] + s[1..];
      }
      if !AllAllowed(s) {
        if AllowedUnit(s[0] as int) {
          var i :| 0 <= i < |tail| && !AllowedUnit(tail[i]);
          assert (head + tail)[|head| + i] == tail[i];
        } else {
          assert (head + tail)[0] == head[0];
        }
      }
    }
  }

  /** The schema, the validator on bytes and the client on code units accept the same strings. */
  lemma ThreeScansAgree(form: Form, s: string)
    ensures OpaqueUnits(Units(form, s)) <==> MatchesOpaque(s)
  {
    UnitsOf(form, s);
    var units := Units(form, s);
    hide Units;
    if MatchesOpaque(s) {
      var i :| 0 <= i < |s| && AllAllowed(s[..i]) && NonDigit(s[i]) && AllAllowed(s[i + 1..]);
      assert s == s[..i] + [s[i]] + s[i + 1..];
      assert AllAllowed(s);
      forall k | 0 <= k < |s| ensures AllowedUnit(units[k]) { AllowedIs(s[k]); }
      AllowedIs(s[i]);
    }
    if OpaqueUnits(units) {
      var i :| 0 <= i < |units| && !DigitUnit(units[i]);
      AllowedIs(s[i]);
      assert AllAllowed(s[..i]) && AllAllowed(s[i + 1..]);
    }
  }
}
