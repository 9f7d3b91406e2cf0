/**
 * The JavaScript string operations the handlers rely on: `toLowerCase`,
 * `includes`, `trim`, number-to-string and `parseInt` on the decimal
 * labels of the dashboard, and `join` / `split` on the CSV export.
 */
module Text {

  import opened Wrappers

  // -------------------------------------------------------------- casing

  /** Lower-cases the ASCII letters A-Z; every other character is kept. */
  function LowerChar(c: char): char {
    if 'A' <= c <= 'Z' then (c as int + 32) as char else c
  }

  function Lower(s: string): (r: string)
    ensures |r| == |s|
    ensures forall i :: 0 <= i < |s| ==> r[i] == LowerChar(s[i])
  {
    seq(|s|, i requires 0 <= i < |s| => LowerChar(s[i]))
  }

  lemma LowerIdempotent(s: string)
    ensures Lower(Lower(s)) == Lower(s)
  {
  }

  // ----------------------------------------------------------- substring

  /** `sub` occurs in `s` starting at position `i`. */
  predicate OccursAt(s: string, sub: string, i: int) {
    0 <= i && i + |sub| <= |s| && s[i..i + |sub|] == sub
  }

  /** `s.includes(sub)`. */
  function Contains(s: string, sub: string): (b: bool)
    ensures b <==> exists i :: OccursAt(s, sub, i)
    decreases |s|
  {
    if |sub| <= |s| && s[..|sub|] == sub then
      assert OccursAt(s, sub, 0);
      true
    else if |s| <= |sub| then
      assert forall i :: !OccursAt(s, sub, i);
      false
    else
      ShiftOccurrence(s, sub);
      Contains(s[1..], sub)
  }

  /** An occurrence in `s` past position 0 is an occurrence in `s[1..]`, and back. */
  lemma ShiftOccurrence(s: string, sub: string)
    requires |s| > 0 && !OccursAt(s, sub, 0)
    ensures (exists i :: OccursAt(s, sub, i)) <==> (exists i :: OccursAt(s[1..], sub, i))
  {
    forall i | OccursAt(s, sub, i) ensures OccursAt(s[1..], sub, i - 1) {
      assert i != 0;
      assert s[1..][i - 1..i - 1 + |sub|] == s[i..i + |sub|];
    }
    forall i | OccursAt(s[1..], sub, i) ensures OccursAt(s, sub, i + 1) {
      assert s[1..][i..i + |sub|] == s[i + 1..i + 1 + |sub|];
    }
  }

  /** The empty string occurs in every string. */
  lemma ContainsEmpty(s: string)
    ensures Contains(s, "")
  {
    assert OccursAt(s, "", 0);
  }

  /** `s.toLowerCase().includes(sub.toLowerCase())`. */
  predicate ContainsIgnoringCase(s: string, sub: string) {
    Contains(Lower(s), Lower(sub))
  }

  /** An empty search term matches everything. */
  lemma ContainsIgnoringCaseEmpty(s: string)
    ensures ContainsIgnoringCase(s, "")
  {
    ContainsEmpty(Lower(s));
  }

  // ---------------------------------------------------------------- trim

  /** The characters `String.prototype.trim` removes: white space and line terminators. */
  predicate IsWhitespace(c: char) {
    c == ' ' || c == '\t' || c == '\n' || c == '\r' || c == '\U{B}' || c == '\U{C}'
    || c == '\U{A0}' || c == '\U{FEFF}' || c == '\U{1680}' || ('\U{2000}' <= c <= '\U{200A}')
    || c == '\U{2028}' || c == '\U{2029}' || c == '\U{202F}' || c == '\U{205F}' || c == '\U{3000}'
  }

  predicate IsBlank(s: string) {
    forall i :: 0 <= i < |s| ==> IsWhitespace(s[i])
  }

  function TrimStart(s: string): (r: string)
    ensures |r| <= |s| && r == s[|s| - |r|..]
    ensures forall i :: 0 <= i < |s| - |r| ==> IsWhitespace(s[i])
    ensures r != [] ==> !IsWhitespace(r[0])
    decreases |s|
  {
    if s != [] && IsWhitespace(s[0]) then TrimStart(s[1..]) else s
  }

  function TrimEnd(s: string): (r: string)
    ensures |r| <= |s| && r == s[..|r|]
    ensures forall i :: |r| <= i < |s| ==> IsWhitespace(s[i])
    ensures r != [] ==> !IsWhitespace(r[|r| - 1])
    decreases |s|
  {
    if s != [] && IsWhitespace(s[|s| - 1]) then TrimEnd(s[..|s| - 1]) else s
  }

  /** `s.trim()`. */
  function Trim(s: string): string {
    TrimEnd(TrimStart(s))
  }

  /** `!s.trim()` holds exactly for the strings made of white space only. */
  lemma TrimEmptyIffBlank(s: string)
    ensures Trim(s) == "" <==> IsBlank(s)
  {

  }

  // ------------------------------------------------------------- numbers

  function DigitChar(d: nat): (c: char)
    requires d < 10
    ensures '0' <= c <= '9'
  {
    "0123456789"[d]
  }

  function DigitValue(c: char): int {
    c as int - '0' as int
  }

  /** Decimal digits of `n`, most significant first, without leading zeros. */
  function NatToString(n: nat): (s: string)
    ensures |s| >= 1
    ensures forall i :: 0 <= i < |s| ==> '0' <= s[i] <= '9'
    decreases n
  {
    if n < 10 then [DigitChar(n)] else NatToString(n / 10) + [DigitChar(n % 10)]
  }

  /** `String(n)` for an integer: a minus sign for negative values, then the digits. */
  function IntToString(n: int): (s: string)
    ensures |s| >= 1
    ensures (n < 0) <==> s[0] == '-'
    ensures forall i :: 0 <= i < |s| ==> s[i] == '-' || '0' <= s[i] <= '9'
  {
    if n < 0 then "-" + NatToString(-n) else NatToString(n)
  }

  /** `parseInt` on a string of decimal digits. */
  function ParseDigits(s: string): int
    decreases |s|
  {
    if s == [] then 0 else ParseDigits(s[..|s| - 1]) * 10 + DigitValue(s[|s| - 1])
  }

  lemma {:induction false} ParseDigitsOfNat(n: nat)
    ensures ParseDigits(NatToString(n)) == n
    decreases n
  {
    var s := NatToString(n);
    if n < 10 {
      assert s[..|s| - 1] == [];
      assert "0123456789"[n] as int - '0' as int == n;
    } else {
      ParseDigitsOfNat(n / 10);
      assert s[..|s| - 1] == NatToString(n / 10);
      assert "0123456789"[n % 10] as int - '0' as int == n % 10;
    }
  }

  /** No printed integer contains a separator of the CSV layout. */
  lemma IntToStringHasNoSeparator(n: int)
    ensures ',' !in IntToString(n) && '\n' !in IntToString(n)
  {
  }

  // --------------------------------------------------------- join, split

  /** `parts.join(sep)`. */
  function Join(parts: seq<string>, sep: string): string
    decreases |parts|
  {
    if |parts| == 0 then ""
    else if |parts| == 1 then parts[0]
    else parts[0] + sep + Join(parts[1..], sep)
  }

  /** `s.split(c)`: the maximal pieces between occurrences of `c`. */
  function Split(s: string, c: char): (r: seq<string>)
    ensures |r| >= 1
    decreases |s|
  {
    if s == [] then [""]
    else
      var rest := Split(s[1..], c);
      if s[0] == c then [""] + rest else [[s[0]] + rest[0]] + rest[1..]
  }

  /** A piece free of `c`, followed by `c` (or by nothing), splits off as one field. */
  lemma {:induction false} SplitPiece(p: string, c: char, tail: Option<string>)
    requires c !in p
    ensures tail.None? ==> Split(p, c) == [p]
    ensures tail.Some? ==> Split(p + [c] + tail.value, c) == [p] + Split(tail.value, c)
    decreases |p|
  {
    if p != [] {
      SplitPiece(p[1..], c, tail);
      assert [p[0]] + p[1..] == p;
      if tail.Some? {
        assert (p + [c] + tail.value)[1..] == p[1..] + [c] + tail.value;
      }
    } else if tail.Some? {
      assert p + [c] + tail.value == [c] + tail.value;
      assert ([c] + tail.value)[1..] == tail.value;
    }
  }

  /** Splitting a join on a separator that no part contains gives the parts back. */
  lemma {:induction false} SplitJoin(parts: seq<string>, c: char)
    requires |parts| >= 1
    requires forall i :: 0 <= i < |parts| ==> c !in parts[i]
    ensures Split(Join(parts, [c]), c) == parts
    decreases |parts|
  {
    if |parts| == 1 {
      SplitPiece(parts[0], c, None);
    } else {
      SplitJoin(parts[1..], c);
      SplitPiece(parts[0], c, Some(Join(parts[1..], [c])));
      assert [parts[0]] + parts[1..] == parts;
    }
  }
}
