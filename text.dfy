/** Character classes and string helpers shared by the whole model: Python's
    notion of whitespace, `str.strip()`, the "blank message" test and the
    `encode("ascii", errors="ignore")` filter. */
module Text {

  datatype Option<+T> = None | Some(value: T)

  /** Whitespace as Python 3 `str.strip()` and the `\s` class of a `str`
      regular expression see it (`str.isspace()`). */
  predicate IsSpace(c: char) {
    ('\t' <= c <= '\r') || ('\U{1C}' <= c <= '\U{1F}') || c == ' '
    || c == '\U{85}' || c == '\U{A0}' || c == '\U{1680}'
    || ('\U{2000}' <= c <= '\U{200A}') || c == '\U{2028}' || c == '\U{2029}'
    || c == '\U{202F}' || c == '\U{205F}' || c == '\U{3000}'
  }

  /** Whitespace of a Python 2 byte string (C locale `isspace`, and `\s` of a
      regular expression compiled without the UNICODE flag). */
  predicate IsAsciiSpace(c: char) {
    c == ' ' || c == '\t' || c == '\n' || c == '\r' || c == '\U{0B}' || c == '\U{0C}'
  }

  predicate IsDigit(c: char) {
    '0' <= c <= '9'
  }

  predicate IsAscii(c: char) {
    c < '\U{80}'
  }

  /** Length of the longest prefix of `s` whose characters all satisfy `p`. */
  function LeadingRun(s: string, p: char -> bool): (n: nat)
    ensures n <= |s|
    ensures forall i :: 0 <= i < n ==> p(s[i])
    ensures n < |s| ==> !p(s[n])
    decreases |s|
  {
    if s != [] && p(s[0]) then 1 + LeadingRun(s[1..], p) else 0
  }

  /** `LeadingRun` is exactly `n` when the first `n` characters satisfy `p`
      and the next one, if any, does not. */
  lemma {:induction false} LeadingRunIs(s: string, p: char -> bool, n: nat)
    requires n <= |s|
    requires forall i :: 0 <= i < n ==> p(s[i])
    requires n < |s| ==> !p(s[n])
    ensures LeadingRun(s, p) == n
  {
    if n > 0 {
      LeadingRunIs(s[1..], p, n - 1);
    }
  }

  /** Length of the longest suffix of `s` whose characters all satisfy `p`. */
  function TrailingRun(s: string, p: char -> bool): (n: nat)
    ensures n <= |s|
    ensures forall i :: |s| - n <= i < |s| ==> p(s[i])
    ensures n < |s| ==> !p(s[|s| - 1 - n])
    decreases |s|
  {
    if s != [] && p(s[|s| - 1]) then 1 + TrailingRun(s[..|s| - 1], p) else 0
  }

  /** `TrailingRun` is exactly `n` when the last `n` characters satisfy `p`
      and the one before them, if any, does not. */
  lemma {:induction false} TrailingRunIs(s: string, p: char -> bool, n: nat)
    requires n <= |s|
    requires forall i :: |s| - n <= i < |s| ==> p(s[i])
    requires n < |s| ==> !p(s[|s| - 1 - n])
    ensures TrailingRun(s, p) == n
  {
    if n > 0 {
      TrailingRunIs(s[..|s| - 1], p, n - 1);
    }
  }

  /** `s.strip()` with `p` as the whitespace class: the middle slice of `s`
      left once every leading and trailing `p` character is removed. */
  function Strip(s: string, p: char -> bool): (r: string)
    ensures |r| <= |s|
    ensures r != [] ==> !p(r[0]) && !p(r[|r| - 1])
    ensures LeadingRun(s, p) + |r| <= |s| && r == s[LeadingRun(s, p)..LeadingRun(s, p) + |r|]
    ensures forall i :: LeadingRun(s, p) + |r| <= i < |s| ==> p(s[i])
  {
    var a := LeadingRun(s, p);
    var t := s[a..];
    var r := t[..|t| - TrailingRun(t, p)];
    assert r == s[a..a + |r|];
    assert forall i :: a + |r| <= i < |s| ==> s[i] == t[i - a];
    r
  }

  /** `len(s.strip()) == 0` in Python 3. */
  predicate IsBlank(s: string) {
    |Strip(s, IsSpace)| == 0
  }

  /** `len(s.strip()) == 0` for a Python 2 byte string. */
  predicate IsAsciiBlank(s: string) {
    |Strip(s, IsAsciiSpace)| == 0
  }

  /** A string strips to nothing exactly when every character is whitespace. */
  lemma {:induction false} StripsToNothing(s: string, p: char -> bool)
    ensures |Strip(s, p)| == 0 <==> forall i :: 0 <= i < |s| ==> p(s[i])
  {
    var a := LeadingRun(s, p);
    if !forall i :: 0 <= i < |s| ==> p(s[i]) {
      var j :| 0 <= j < |s| && !p(s[j]);
      assert a <= j;
      var t := s[a..];
      assert !p(t[0]);
      assert TrailingRun(t, p) < |t|;
    }
  }

  /** `s.encode("ascii", errors="ignore")`: every non-ASCII character is dropped. */
  function AsciiIgnore(s: string): (r: string)
    ensures |r| <= |s|
    ensures forall i :: 0 <= i < |r| ==> IsAscii(r[i])
    ensures (forall i :: 0 <= i < |s| ==> IsAscii(s[i])) ==> r == s
    decreases |s|
  {
    if s == [] then []
    else if IsAscii(s[0]) then [s[0]] + AsciiIgnore(s[1..])
    else AsciiIgnore(s[1..])
  }
}
