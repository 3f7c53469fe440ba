/** Hand-written matchers for the three regular expressions of the settings
    schema, each beside a declarative description of the strings it accepts
    and a lemma that the two agree.  The schema validator tests a `pattern`
    with an unanchored search, so a pattern without `^`/`$` accepts every
    string that merely contains a match. */
module Patterns {

  /** `[0-9a-fA-F]` */
  predicate IsHexDigit(c: char) {
    ('0' <= c <= '9') || ('a' <= c <= 'f') || ('A' <= c <= 'F')
  }

  /** `["'`]` as a character class */
  predicate IsWrapperQuote(c: char) {
    c == '"' || c == '\'' || c == '`'
  }

  /** `[0-9a-fA-F]{n}` matched at position `i` of `s`, one character at a time. */
  predicate HexRun(s: string, i: nat, n: nat)
    requires i + n <= |s|
    decreases n
  {
    n == 0 || (IsHexDigit(s[i]) && HexRun(s, i + 1, n - 1))
  }

  lemma {:induction false} HexRunMeansAllHex(s: string, i: nat, n: nat)
    requires i + n <= |s|
    ensures HexRun(s, i, n) <==> forall j :: i <= j < i + n ==> IsHexDigit(s[j])
    decreases n
  {
    if n > 0 {
      HexRunMeansAllHex(s, i + 1, n - 1);
    }
  }

  // ---------------------------------------------------------------------
  // token: `(?:^[0-9a-fA-F]{40}$)|^$`

  /** Both alternatives are anchored at both ends, so the search succeeds
      exactly on a whole string of 40 hex digits or on the empty string.
      (Without the multiline flag `$` matches only at the end of input.) */
  predicate TokenMatch(s: string) {
    (|s| == 40 && HexRun(s, 0, 40)) || |s| == 0
  }

  lemma TokenMatchIff(s: string)
    ensures TokenMatch(s) <==>
      s == "" || (|s| == 40 && forall j :: 0 <= j < |s| ==> IsHexDigit(s[j]))
  {
    if |s| == 40 {
      HexRunMeansAllHex(s, 0, 40);
    }
  }

  // ---------------------------------------------------------------------
  // filter_wrapper: `["'`]` (unanchored)

  /** The search tries every position from left to right. */
  predicate ContainsQuote(s: string)
    decreases |s|
  {
    |s| > 0 && (IsWrapperQuote(s[0]) || ContainsQuote(s[1..]))
  }

  lemma {:induction false} ContainsQuoteIff(s: string)
    ensures ContainsQuote(s) <==> exists i :: 0 <= i < |s| && IsWrapperQuote(s[i])
    decreases |s|
  {
    if |s| > 0 {
      ContainsQuoteIff(s[1..]);
      if !IsWrapperQuote(s[0]) && (exists i :: 0 <= i < |s| && IsWrapperQuote(s[i])) {
        var i :| 0 <= i < |s| && IsWrapperQuote(s[i]);
        assert s[1..][i - 1] == s[i];
      }
    }
  }

  // ---------------------------------------------------------------------
  // uuid: `[0-9a-fA-F]{8}-[0-9a-fA-F]{4}-[0-9a-fA-F]{4}-[0-9a-fA-F]{4}-[0-9a-fA-F]{12}` (unanchored)

  /** Length of the 8-4-4-4-12 shape, dashes included. */
  const UuidLength: nat := 36

  /** The pattern matched at position `i`, group by group. */
  predicate UuidAt(s: string, i: nat) {
    && i + UuidLength <= |s|
    && HexRun(s, i, 8) && s[i + 8] == '-'
    && HexRun(s, i + 9, 4) && s[i + 13] == '-'
    && HexRun(s, i + 14, 4) && s[i + 18] == '-'
    && HexRun(s, i + 19, 4) && s[i + 23] == '-'
    && HexRun(s, i + 24, 12)
  }

  /** The unanchored search: try position `i`, then the next one. */
  predicate SearchUuid(s: string, i: nat)
    decreases |s| - i
  {
    i + UuidLength <= |s| && (UuidAt(s, i) || SearchUuid(s, i + 1))
  }

  predicate ContainsUuid(s: string) {
    SearchUuid(s, 0)
  }

  /** Positions of the four dashes in an 8-4-4-4-12 string. */
  predicate IsDashPosition(j: int) {
    j == 8 || j == 13 || j == 18 || j == 23
  }

  /** Declarative description of a string of the 8-4-4-4-12 shape. */
  ghost predicate UuidShaped(t: string) {
    && |t| == UuidLength
    && forall j :: 0 <= j < |t| ==> if IsDashPosition(j) then t[j] == '-' else IsHexDigit(t[j])
  }

  lemma UuidAtIffShaped(s: string, i: nat)
    requires i + UuidLength <= |s|
    ensures UuidAt(s, i) <==> UuidShaped(s[i..i + UuidLength])
  {
    var t := s[i..i + UuidLength];
    assert forall j :: 0 <= j < UuidLength ==> t[j] == s[i + j];
    HexRunMeansAllHex(s, i, 8);
    HexRunMeansAllHex(s, i + 9, 4);
    HexRunMeansAllHex(s, i + 14, 4);
    HexRunMeansAllHex(s, i + 19, 4);
    HexRunMeansAllHex(s, i + 24, 12);
    if UuidAt(s, i) {
      forall j | 0 <= j < |t|
        ensures if IsDashPosition(j) then t[j] == '-' else IsHexDigit(t[j])
      {
        assert t[j] == s[i + j];
      }
    }
    if UuidShaped(t) {
      forall j | i <= j < i + UuidLength && !IsDashPosition(j - i)
        ensures IsHexDigit(s[j])
      {
        assert t[j - i] == s[j];
      }
      assert t[8] == '-' && t[13] == '-' && t[18] == '-' && t[23] == '-';
    }
  }

  lemma {:induction false} SearchUuidIff(s: string, i: nat)
    ensures SearchUuid(s, i) <==> exists k: nat :: i <= k && UuidAt(s, k)
    decreases |s| - i
  {
    if i + UuidLength <= |s| {
      SearchUuidIff(s, i + 1);
      if exists k: nat :: i <= k && UuidAt(s, k) {
        var k: nat :| i <= k && UuidAt(s, k);
        assert k == i || (i + 1 <= k && UuidAt(s, k));
      }
    }
  }

  /** The uuid search succeeds iff some substring has the 8-4-4-4-12 shape. */
  lemma ContainsUuidIff(s: string)
    ensures ContainsUuid(s) <==>
      exists a, b :: 0 <= a <= b <= |s| && UuidShaped(s[a..b])
  {
    SearchUuidIff(s, 0);
    if ContainsUuid(s) {
      var k: nat :| 0 <= k && UuidAt(s, k);
      UuidAtIffShaped(s, k);
      assert UuidShaped(s[k..k + UuidLength]);
    }
    if exists a, b :: 0 <= a <= b <= |s| && UuidShaped(s[a..b]) {
      var a, b :| 0 <= a <= b <= |s| && UuidShaped(s[a..b]);
      assert b == a + UuidLength;
      UuidAtIffShaped(s, a);
      assert UuidAt(s, a);
    }
  }

  /** ASCII lower-casing.  Case-insensitive matching of the hex digits and of
      the letters of `urn:uuid:` folds exactly the ASCII capitals onto them. */
  function LowerAscii(c: char): char {
    if 'A' <= c <= 'Z' then (c as int + 32) as char else c
  }

  const UrnPrefix: string := "urn:uuid:"

  /** The optional `urn:uuid:` prefix of the uuid format, in any letter case. */
  predicate HasUrnPrefix(s: string) {
    |s| >= |UrnPrefix| && forall j :: 0 <= j < |UrnPrefix| ==> LowerAscii(s[j]) == UrnPrefix[j]
  }

  /** The `uuid` string format, anchored at both ends: an 8-4-4-4-12 hex
      string, optionally preceded by `urn:uuid:`, hex digits of either case. */
  predicate UuidFormatMatch(s: string) {
    || (|s| == UuidLength && UuidAt(s, 0))
    || (|s| == |UrnPrefix| + UuidLength && HasUrnPrefix(s) && UuidAt(s, |UrnPrefix|))
  }

  /** The format accepts a whole UUID, or the prefix followed by a whole UUID. */
  lemma UuidFormatIff(s: string)
    ensures UuidFormatMatch(s) <==>
      UuidShaped(s) || (|s| == |UrnPrefix| + UuidLength && HasUrnPrefix(s) && UuidShaped(s[|UrnPrefix|..]))
  {
    if |s| == UuidLength {
      UuidAtIffShaped(s, 0);
      assert s[0..UuidLength] == s;
    }
    if |s| == |UrnPrefix| + UuidLength {
      UuidAtIffShaped(s, |UrnPrefix|);
      assert s[|UrnPrefix|..|UrnPrefix| + UuidLength] == s[|UrnPrefix|..];
    }
  }

  /** A string in the uuid format also passes the unanchored uuid search. */
  lemma UuidFormatContainsUuid(s: string)
    requires UuidFormatMatch(s)
    ensures ContainsUuid(s)
  {
    SearchUuidIff(s, 0);
    if |s| == UuidLength && UuidAt(s, 0) {
      assert exists k: nat :: 0 <= k && UuidAt(s, k);
    } else {
      assert UuidAt(s, |UrnPrefix|);
    }
  }
}
