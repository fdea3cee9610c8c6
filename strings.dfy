/** The handful of JavaScript string operations the chat client relies on: `trim`, ASCII
    `toLowerCase`/`toUpperCase`, `includes`, `split` on one character and decimal rendering of a
    non-negative integer. Characters are Unicode scalar values; JavaScript's UTF-16 code units and
    full Unicode case mapping are not modelled. */
module Strings {

  /** ECMAScript's WhiteSpace and LineTerminator characters, the set `String.prototype.trim`
      strips: tab, LF, VT, FF, CR, space, NBSP, OGHAM SPACE MARK, EN QUAD..HAIR SPACE, LINE and
      PARAGRAPH SEPARATOR, NARROW NBSP, MEDIUM MATHEMATICAL SPACE, IDEOGRAPHIC SPACE and BOM. */
  predicate IsSpace(c: char) {
    || c == '\t' || c == '\n' || c == '\U{000B}' || c == '\U{000C}' || c == '\r'
    || c == ' ' || c == '\U{00A0}' || c == '\U{1680}'
    || ('\U{2000}' <= c <= '\U{200A}')
    || c == '\U{2028}' || c == '\U{2029}' || c == '\U{202F}' || c == '\U{205F}'
    || c == '\U{3000}' || c == '\U{FEFF}'
  }

  predicate AllSpace(s: string) {
    forall i :: 0 <= i < |s| ==> IsSpace(s[i])
  }

  /** Drops the leading white space: the result is the suffix of `s` that starts at its first
      non-space character. */
  function TrimStart(s: string): (r: string)
    ensures |r| <= |s| && r == s[|s| - |r|..]
    ensures AllSpace(s[..|s| - |r|])
    ensures r != [] ==> !IsSpace(r[0])
    decreases |s|
  {
    if s != [] && IsSpace(s[0]) then TrimStart(s[1..]) else s
  }

  /** Drops the trailing white space: the result is the prefix of `s` that ends at its last
      non-space character. */
  function TrimEnd(s: string): (r: string)
    ensures |r| <= |s| && r == s[..|r|]
    ensures AllSpace(s[|r|..])
    ensures r != [] ==> !IsSpace(r[|r| - 1])
    decreases |s|
  {
    if s != [] && IsSpace(s[|s| - 1]) then
      var r := TrimEnd(s[..|s| - 1]);
      assert s[|r|..] == s[..|s| - 1][|r|..] + [s[|s| - 1]];
      r
    else s
  }

  /** `s.trim()`. */
  function Trim(s: string): string {
    TrimEnd(TrimStart(s))
  }

  /** JavaScript's `!s.trim()`: the trimmed text is empty exactly when every character is white
      space. */
  lemma {:induction false} TrimEmptyIffBlank(s: string)
    ensures Trim(s) == [] <==> AllSpace(s)
  {
    var t := TrimStart(s);
    if Trim(s) == [] {
      assert t[0..] == t;
      assert t == [];
      assert s[..|s|] == s;
    } else {
      var r := Trim(s);
      assert r == t[..|r|];
      assert !IsSpace(r[0]);
      assert t != [] && t[0] == r[0];
      assert s[|s| - |t|] == t[0];
    }
  }

  /** The trimmed text sits in `s` right after the leading white space. */
  lemma TrimOccurs(s: string)
    ensures OccursAt(s, Trim(s), |s| - |TrimStart(s)|)
  {
    var t := TrimStart(s);
    var r := TrimEnd(t);
    var k := |s| - |t|;
    SliceOfSuffix(s, k, |r|);
  }

  /** A prefix of a suffix is a slice. */
  lemma SliceOfSuffix(s: string, k: nat, n: nat)
    requires k + n <= |s|
    ensures s[k..][..n] == s[k..k + n]
  {
  }

  /** The trimmed text starts with what `TrimStart` starts with. */
  lemma TrimFirst(s: string)
    requires Trim(s) != []
    ensures !IsSpace(Trim(s)[0])
  {
    var t := TrimStart(s);
    assert Trim(s) == t[..|Trim(s)|];
    assert Trim(s)[0] == t[0];
  }

  /** A trimmed string neither starts nor ends with white space and occurs inside `s`. */
  lemma TrimShape(s: string)
    ensures var r := Trim(s);
      && (r != [] ==> !IsSpace(r[0]) && !IsSpace(r[|r| - 1]))
      && exists k: nat :: OccursAt(s, r, k)
  {
    TrimOccurs(s);
    if Trim(s) != [] {
      TrimFirst(s);
    }
  }

  function LowerChar(c: char): char {
    if 'A' <= c <= 'Z' then (c as int + 32) as char else c
  }

  function UpperChar(c: char): char {
    if 'a' <= c <= 'z' then (c as int - 32) as char else c
  }

  /** `s.toLowerCase()` on the ASCII letters. */
  function ToLower(s: string): (r: string)
    ensures |r| == |s|
  {
    seq(|s|, i requires 0 <= i < |s| => LowerChar(s[i]))
  }

  lemma ToLowerIdempotent(s: string)
    ensures ToLower(ToLower(s)) == ToLower(s)
  {
  }

  predicate StartsWith(s: string, prefix: string) {
    |prefix| <= |s| && s[..|prefix|] == prefix
  }

  /** `haystack.includes(needle)`. */
  predicate Contains(haystack: string, needle: string)
    decreases |haystack|
  {
    StartsWith(haystack, needle) || (haystack != [] && Contains(haystack[1..], needle))
  }

  /** `needle` occurs in `haystack` starting at offset `k`. */
  predicate OccursAt(haystack: string, needle: string, k: nat) {
    k + |needle| <= |haystack| && haystack[k..k + |needle|] == needle
  }

  /** `includes` finds its needle exactly when the needle occurs at some offset. */
  lemma {:induction false} ContainsIffOccurs(haystack: string, needle: string)
    ensures Contains(haystack, needle) <==> exists k: nat :: OccursAt(haystack, needle, k)
    decreases |haystack|
  {
    if StartsWith(haystack, needle) {
      assert OccursAt(haystack, needle, 0);
    } else if haystack == [] {
    } else {
      var tail := haystack[1..];
      ContainsIffOccurs(tail, needle);
      if Contains(tail, needle) {
        var k: nat :| OccursAt(tail, needle, k);
        assert haystack[k + 1..k + 1 + |needle|] == tail[k..k + |needle|];
        assert OccursAt(haystack, needle, k + 1);
      } else {
        forall k: nat ensures !OccursAt(haystack, needle, k) {
          if k > 0 && OccursAt(haystack, needle, k) {
            assert tail[k - 1..k - 1 + |needle|] == haystack[k..k + |needle|];
            assert OccursAt(tail, needle, k - 1);
          }
        }
      }
    }
  }

  /** Every string includes the empty string, so an empty search query keeps everything. */
  lemma ContainsEmpty(s: string)
    ensures Contains(s, [])
  {
    assert StartsWith(s, []);
  }

  /** `s.split(sep)` for a one-character separator: the maximal runs between separators, empty
      runs included, so a string with k separators has k + 1 parts. */
  function Split(s: string, sep: char): (parts: seq<string>)
    ensures |parts| >= 1
    decreases |s|
  {
    if s == [] then [[]]
    else if s[0] == sep then [[]] + Split(s[1..], sep)
    else
      var rest := Split(s[1..], sep);
      [[s[0]] + rest[0]] + rest[1..]
  }

  /** `parts.join(sep)`. */
  function Join(parts: seq<string>, sep: char): string
    decreases |parts|
  {
    if parts == [] then []
    else if |parts| == 1 then parts[0]
    else parts[0] + [sep] + Join(parts[1..], sep)
  }

  /** `split` and `join` are inverse: no part holds the separator and joining the parts with it
      gives the string back. */
  lemma {:induction false} SplitJoin(s: string, sep: char)
    ensures Join(Split(s, sep), sep) == s
    ensures forall p :: p in Split(s, sep) ==> sep !in p
    decreases |s|
  {
    if s == [] {
    } else if s[0] == sep {
      SplitJoin(s[1..], sep);
      var rest := Split(s[1..], sep);
      assert Split(s, sep) == [[]] + rest;
      assert ([[]] + rest)[1..] == rest;
    } else {
      SplitJoin(s[1..], sep);
      var rest := Split(s[1..], sep);
      var parts := [[s[0]] + rest[0]] + rest[1..];
      assert Split(s, sep) == parts;
      assert parts[1..] == rest[1..];
      if |rest| == 1 {
        assert Join(parts, sep) == [s[0]] + rest[0];
      } else {
        assert Join(rest, sep) == rest[0] + [sep] + Join(rest[1..], sep);
        assert Join(parts, sep) == [s[0]] + rest[0] + [sep] + Join(rest[1..], sep);
      }
      assert s == [s[0]] + s[1..];
      forall p | p in parts ensures sep !in p {
        if p != parts[0] {
          assert p in rest;
        }
      }
    }
  }

  /** `s.split(sep)[0]`: the text before the first separator. */
  function FirstSegment(s: string, sep: char): string {
    Split(s, sep)[0]
  }

  /** `s.split(sep).pop()`: the text after the last separator. */
  function LastSegment(s: string, sep: char): string {
    var parts := Split(s, sep);
    parts[|parts| - 1]
  }

  /** The first segment is the longest separator-free prefix of `s`. */
  lemma {:induction false} FirstSegmentShape(s: string, sep: char)
    ensures var r := FirstSegment(s, sep);
      && StartsWith(s, r) && sep !in r
      && (|r| < |s| ==> s[|r|] == sep)
    decreases |s|
  {
    if s != [] && s[0] != sep {
      FirstSegmentShape(s[1..], sep);
    }
  }

  /** More than one part means the separator occurs. */
  lemma {:induction false} SplitManyHasSep(s: string, sep: char)
    ensures |Split(s, sep)| > 1 ==> sep in s
    decreases |s|
  {
    if s != [] && s[0] != sep {
      SplitManyHasSep(s[1..], sep);
    }
  }

  /** The shape `LastSegmentShape` states, for a segment `r` of `s`. */
  predicate SuffixSegment(s: string, r: string, sep: char) {
    && |r| <= |s| && s[|s| - |r|..] == r && sep !in r
    && (|r| < |s| ==> s[|s| - |r| - 1] == sep)
  }

  /** A segment of the tail is one of the whole text too. */
  lemma SuffixSegmentCons(c: char, t: string, r: string, sep: char)
    requires SuffixSegment(t, r, sep) && |r| < |t|
    ensures SuffixSegment([c] + t, r, sep)
  {
    var s := [c] + t;
    assert s[|s| - |r|..] == t[|t| - |r|..];
    assert s[|s| - |r| - 1] == t[|t| - |r| - 1];
  }

  /** The last segment is the longest separator-free suffix of `s`. */
  lemma {:induction false} LastSegmentShape(s: string, sep: char)
    ensures SuffixSegment(s, LastSegment(s, sep), sep)
    decreases |s|
  {
    if s != [] {
      var t := s[1..];
      assert s == [s[0]] + t;
      LastSegmentShape(t, sep);
      var rest := Split(t, sep);
      var r := LastSegment(t, sep);
      if s[0] == sep {
        assert Split(s, sep) == [[]] + rest;
        assert LastSegment(s, sep) == r;
        if |r| == |t| {
          assert s[|s| - |r|..] == t;
        } else {
          SuffixSegmentCons(s[0], t, r, sep);
        }
      } else if |rest| == 1 {
        SplitJoin(t, sep);
        assert rest[0] == t;
        assert LastSegment(s, sep) == [s[0]] + rest[0] == s;
      } else {
        assert Split(s, sep)[|Split(s, sep)| - 1] == rest[|rest| - 1];
        assert LastSegment(s, sep) == r;
        SplitManyHasSep(t, sep);
        SplitJoin(t, sep);
        SuffixSegmentCons(s[0], t, r, sep);
      }
    }
  }

  predicate IsAsciiLetter(c: char) {
    ('A' <= c <= 'Z') || ('a' <= c <= 'z')
  }

  function LowerAll(parts: seq<string>): (r: seq<string>)
    ensures |r| == |parts|
  {
    seq(|parts|, i requires 0 <= i < |parts| => ToLower(parts[i]))
  }

  lemma ToLowerCons(c: char, t: string)
    ensures ToLower([c] + t) == [LowerChar(c)] + ToLower(t)
  {
  }

  lemma LowerAllCons(p: string, parts: seq<string>)
    ensures LowerAll([p] + parts) == [ToLower(p)] + LowerAll(parts)
  {
  }

  lemma LowerAllTail(parts: seq<string>)
    requires parts != []
    ensures LowerAll(parts)[1..] == LowerAll(parts[1..]) && LowerAll(parts)[0] == ToLower(parts[0])
  {
  }

  /** Lower-casing leaves a non-letter separator where it is, so splitting the lower-cased text
      gives the lower-cased parts. */
  lemma {:induction false} SplitLower(s: string, sep: char)
    requires !IsAsciiLetter(sep)
    ensures Split(ToLower(s), sep) == LowerAll(Split(s, sep))
    decreases |s|
  {
    if s != [] {
      var ls := ToLower(s);
      ToLowerCons(s[0], s[1..]);
      assert s == [s[0]] + s[1..];
      assert ls[0] == LowerChar(s[0]) && ls[1..] == ToLower(s[1..]);
      SplitLower(s[1..], sep);
      var rest := Split(s[1..], sep);
      var lrest := LowerAll(rest);
      if s[0] == sep {
        assert ls[0] == sep;
        assert Split(ls, sep) == [[]] + lrest;
        LowerAllCons([], rest);
      } else {
        assert ls[0] != sep;
        assert Split(ls, sep) == [[ls[0]] + lrest[0]] + lrest[1..];
        ToLowerCons(s[0], rest[0]);
        LowerAllTail(rest);
        LowerAllCons([s[0]] + rest[0], rest[1..]);
      }
    }
  }

  /** ASCII case mapping commutes with taking the last segment after a non-letter separator. */
  lemma LastSegmentLower(s: string, sep: char)
    requires !IsAsciiLetter(sep)
    ensures LastSegment(ToLower(s), sep) == ToLower(LastSegment(s, sep))
  {
    SplitLower(s, sep);
  }

  function DigitChar(d: nat): char
    requires d < 10
  {
    "0123456789"[d]
  }

  function DigitValue(c: char): nat {
    if '0' <= c <= '9' then c as nat - '0' as nat else 0
  }

  predicate IsDigit(c: char) {
    '0' <= c <= '9'
  }

  /** The decimal rendering of `n` that a JavaScript template literal produces for a
      non-negative integer: digits only, no leading zero. */
  function NatToString(n: nat): (r: string)
    ensures r != [] && forall i :: 0 <= i < |r| ==> IsDigit(r[i])
    ensures |r| > 1 ==> r[0] != '0'
    decreases n
  {
    if n < 10 then [DigitChar(n)] else NatToString(n / 10) + [DigitChar(n % 10)]
  }

  /** Reads a string of decimal digits back as a number. */
  function ParseNat(s: string): nat
    decreases |s|
  {
    if s == [] then 0 else 10 * ParseNat(s[..|s| - 1]) + DigitValue(s[|s| - 1])
  }

  /** Decimal rendering is injective: reading the digits back gives the number. */
  lemma {:induction false} ParseNatToString(n: nat)
    ensures ParseNat(NatToString(n)) == n
    decreases n
  {
    if n >= 10 {
      ParseNatToString(n / 10);
      var r := NatToString(n);
      assert r[..|r| - 1] == NatToString(n / 10);
    }
  }
}
