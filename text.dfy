/**
 * Character classes and string helpers with the meaning JavaScript gives them
 * in the extension's content script: `\d`, `\w`/`\b`, `\s`, `trim()`,
 * `toLowerCase()`, `includes()`, `endsWith()`, `repeat()` and `join()`.
 */
module Text {

  predicate IsDigit(c: char) { '0' <= c <= '9' }

  predicate IsAsciiLetter(c: char) { 'a' <= c <= 'z' || 'A' <= c <= 'Z' }

  /** The `\w` class; `\b` (without the `u` flag) is defined on it. */
  predicate IsWordChar(c: char) { IsAsciiLetter(c) || IsDigit(c) || c == '_' }

  predicate IsLineTerminator(c: char) {
    c == '\n' || c == '\r' || c == '\U{2028}' || c == '\U{2029}'
  }

  /** The `\s` class: white space and line terminators; also what `trim()` strips. */
  predicate IsSpace(c: char) {
    || c == '\t' || c == '\U{B}' || c == '\U{C}' || c == ' ' || c == '\U{A0}'
    || c == '\U{1680}' || ('\U{2000}' <= c <= '\U{200A}') || c == '\U{202F}'
    || c == '\U{205F}' || c == '\U{3000}' || c == '\U{FEFF}' || IsLineTerminator(c)
  }

  /** `toLowerCase()` on one character, for ASCII and the Latin-1 capitals. */
  function Lower(c: char): (r: char)
    ensures IsWordChar(r) == IsWordChar(c)
    ensures IsDigit(r) == IsDigit(c) && IsSpace(r) == IsSpace(c)
    ensures !('A' <= r <= 'Z')
    ensures r == c || ('A' <= c <= 'Z' && r as int == c as int + 32)
                   || ('\U{C0}' <= c <= '\U{DE}' && r as int == c as int + 32)
  {
    if 'A' <= c <= 'Z' || ('\U{C0}' <= c <= '\U{DE}' && c != '\U{D7}') then
      (c as int + 32) as char
    else
      c
  }

  lemma LowerIdempotent(c: char)
    ensures Lower(Lower(c)) == Lower(c)
  {
  }

  function LowerStr(s: string): (r: string)
    ensures |r| == |s|
    ensures forall k :: 0 <= k < |s| ==> r[k] == Lower(s[k])
  {
    seq(|s|, k requires 0 <= k < |s| => Lower(s[k]))
  }

  /** A `\b` assertion at position `p` of `s`. */
  predicate Boundary(s: string, p: int)
    requires 0 <= p <= |s|
  {
    (p > 0 && IsWordChar(s[p - 1])) != (p < |s| && IsWordChar(s[p]))
  }

  lemma BoundaryLower(s: string, p: int)
    requires 0 <= p <= |s|
    ensures Boundary(LowerStr(s), p) == Boundary(s, p)
  {
  }

  predicate AllIn(s: string, i: int, j: int, P: char -> bool)
    requires 0 <= i <= j <= |s|
  {
    forall k :: i <= k < j ==> P(s[k])
  }

  /** The end of the longest run of characters satisfying `P` that starts at `i` and stays below `j`. */
  function RunEnd(s: string, i: nat, j: nat, P: char -> bool): (r: nat)
    requires i <= j <= |s|
    ensures i <= r <= j
    ensures AllIn(s, i, r, P)
    ensures r < j ==> !P(s[r])
    decreases j - i
  {
    if i < j && P(s[i]) then RunEnd(s, i + 1, j, P) else i
  }

  /** A run is determined by its characters: whatever ends it is `RunEnd`. */
  lemma RunEndUnique(s: string, i: nat, j: nat, r: nat, P: char -> bool)
    requires i <= r <= j <= |s|
    requires AllIn(s, i, r, P)
    requires r < j ==> !P(s[r])
    ensures RunEnd(s, i, j, P) == r
    decreases r - i
  {
    if i < r {
      RunEndUnique(s, i + 1, j, r, P);
    }
  }

  /** Two strings whose characters agree on `P` have the same runs. */
  lemma RunEndSame(s: string, t: string, i: nat, j: nat, P: char -> bool)
    requires i <= j <= |s| == |t|
    requires forall k :: i <= k < j ==> P(s[k]) == P(t[k])
    ensures RunEnd(s, i, j, P) == RunEnd(t, i, j, P)
    decreases j - i
  {
    if i < j && P(s[i]) {
      RunEndSame(s, t, i + 1, j, P);
    }
  }

  function TrimStart(s: string): (r: string)
    ensures |r| <= |s| && r == s[|s| - |r|..]
    ensures r == [] || !IsSpace(r[0])
    ensures forall k :: 0 <= k < |s| - |r| ==> IsSpace(s[k])
  {
    if s != [] && IsSpace(s[0]) then TrimStart(s[1..]) else s
  }

  function TrimEnd(s: string): (r: string)
    ensures |r| <= |s| && r == s[..|r|]
    ensures r == [] || !IsSpace(r[|r| - 1])
    ensures forall k :: |r| <= k < |s| ==> IsSpace(s[k])
  {
    if s != [] && IsSpace(s[|s| - 1]) then TrimEnd(s[..|s| - 1]) else s
  }

  /** `String.prototype.trim`: drops leading and trailing white space, nothing else. */
  function Trim(s: string): (r: string)
    ensures |r| <= |s|
    ensures r == [] || (!IsSpace(r[0]) && !IsSpace(r[|r| - 1]))
    ensures exists a :: 0 <= a <= |s| && OccursAt(s, r, a)
  {
    var t := TrimStart(s);
    var r := TrimEnd(t);
    assert OccursAt(s, r, |s| - |t|);
    r
  }

  predicate OccursAt(s: string, p: string, i: int)
    requires 0 <= i
  {
    i + |p| <= |s| && s[i..i + |p|] == p
  }

  /** `s.includes(p)`. */
  predicate Contains(s: string, p: string) {
    exists i :: 0 <= i <= |s| && OccursAt(s, p, i)
  }

  /** `s.endsWith(suffix)`. */
  predicate EndsWith(s: string, suffix: string) {
    |suffix| <= |s| && s[|s| - |suffix|..] == suffix
  }

  /** Two suffixes of one string: the shorter is a suffix of the longer. */
  lemma EndsWithBoth(s: string, a: string, b: string)
    requires EndsWith(s, a) && EndsWith(s, b) && |a| <= |b|
    ensures EndsWith(b, a)
  {
    assert b[|b| - |a|..] == s[|s| - |a|..];
  }

  /** `"c".repeat(n)`. */
  function Repeat(c: char, n: nat): (r: string)
    ensures |r| == n && forall k :: 0 <= k < n ==> r[k] == c
  {
    seq(n, _ => c)
  }

  /** `Array.prototype.join(sep)`. */
  function Join(parts: seq<string>, sep: string): string {
    if parts == [] then ""
    else if |parts| == 1 then parts[0]
    else parts[0] + sep + Join(parts[1..], sep)
  }

  /** The characters of `s` that satisfy `P`, in order (`s.replace(/\D/g, "")` for `IsDigit`). */
  function Filter(s: string, P: char -> bool): (r: string)
    ensures |r| <= |s|
    ensures forall k :: 0 <= k < |r| ==> P(r[k])
  {
    if s == [] then [] else (if P(s[0]) then [s[0]] else []) + Filter(s[1..], P)
  }
}
