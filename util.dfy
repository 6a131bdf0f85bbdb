/** `slugfy` of `twitter_monitor/util.py`: a Python 2 pipeline over the byte
    string left after dropping non-ASCII characters. Delete everything that
    is not a word character, whitespace or `-`; strip; lowercase; turn every
    run of `-` and whitespace into one `-`. */
module Util {
  import opened Text

  /** `\w` of a byte-string pattern compiled without the UNICODE flag. */
  predicate IsWordChar(c: char) {
    ('a' <= c <= 'z') || ('A' <= c <= 'Z') || ('0' <= c <= '9') || c == '_'
  }

  /** What `[^\w\s-]` does not match: the characters the first `re.sub` keeps. */
  predicate IsSlugKeep(c: char) {
    IsWordChar(c) || IsAsciiSpace(c) || c == '-'
  }

  /** What `[-\s]` matches: the characters the last `re.sub` collapses. */
  predicate IsSeparator(c: char) {
    c == '-' || IsAsciiSpace(c)
  }

  /** The characters a slug is made of. */
  predicate IsSlugChar(c: char) {
    ('a' <= c <= 'z') || ('0' <= c <= '9') || c == '_' || c == '-'
  }

  /** `re.sub('[^\w\s-]', '', s)`: every other character is deleted. */
  function KeepSlugChars(s: string): (r: string)
    ensures |r| <= |s|
    ensures forall i :: 0 <= i < |r| ==> IsSlugKeep(r[i])
    ensures (forall i :: 0 <= i < |s| ==> IsSlugKeep(s[i])) ==> r == s
    decreases |s|
  {
    if s == [] then []
    else (if IsSlugKeep(s[0]) then [s[0]] else []) + KeepSlugChars(s[1..])
  }

  /** The filter works character by character: it deletes in place and keeps
      the order of what it keeps. */
  lemma {:induction false} KeepSlugCharsAppend(a: string, b: string)
    ensures KeepSlugChars(a + b) == KeepSlugChars(a) + KeepSlugChars(b)
    decreases |a|
  {
    if a != [] {
      assert (a + b)[1..] == a[1..] + b;
      KeepSlugCharsAppend(a[1..], b);
    } else {
      assert a + b == b;
    }
  }

  function LowerChar(c: char): (r: char)
    ensures IsWordChar(c) ==> IsWordChar(r) && !('A' <= r <= 'Z')
    ensures !('A' <= c <= 'Z') ==> r == c
  {
    if 'A' <= c <= 'Z' then (c as int - 'A' as int + 'a' as int) as char else c
  }

  /** `str.lower()` of a byte string: only `A`..`Z` change. */
  function Lower(s: string): (r: string)
    ensures |r| == |s|
    ensures forall i :: 0 <= i < |s| ==> r[i] == LowerChar(s[i])
    decreases |s|
  {
    if s == [] then [] else [LowerChar(s[0])] + Lower(s[1..])
  }

  /** `re.sub('[-\s]+', '-', s)`: each maximal run of separators becomes a
      single `-`; every other character is copied. */
  function Collapse(s: string): (r: string)
    ensures |r| <= |s|
    ensures forall i :: 0 <= i < |r| ==> r[i] == '-' || (r[i] in s && !IsSeparator(r[i]))
    ensures s != [] ==> r != [] && (r[0] == '-' <==> IsSeparator(s[0]))
    decreases |s|
  {
    if s == [] then []
    else if IsSeparator(s[0]) then
      var n := LeadingRun(s, IsSeparator);
      ['-'] + Collapse(s[n..])
    else [s[0]] + Collapse(s[1..])
  }

  /** `slugfy(value)` on the text left after normalisation. A slug is never
      longer than the text, is made of `a`..`z`, `0`..`9`, `_` and `-` only,
      has no whitespace, and never two `-` in a row. */
  function Slugfy(value: string): (r: string)
    ensures |r| <= |value|
    ensures forall i :: 0 <= i < |r| ==> IsSlugChar(r[i])
    ensures Collapsed(r)
  {
    var lowered := Lower(Strip(KeepSlugChars(AsciiIgnore(value)), IsAsciiSpace));
    LoweredChars(KeepSlugChars(AsciiIgnore(value)));
    CollapseIsCollapsed(lowered);
    Collapse(lowered)
  }

  /** The characters of `s` that are not separators, in order. */
  function NonSeparators(s: string): string
    decreases |s|
  {
    if s == [] then []
    else (if IsSeparator(s[0]) then [] else [s[0]]) + NonSeparators(s[1..])
  }

  /** No `-` is followed by another, and there is no whitespace. */
  predicate Collapsed(s: string) {
    && (forall i :: 0 <= i < |s| ==> !IsAsciiSpace(s[i]))
    && (forall i :: 0 <= i < |s| - 1 ==> !(s[i] == '-' && s[i + 1] == '-'))
  }

  /** A run of separators contributes nothing but the one `-`. */
  lemma {:induction false} NonSeparatorsOfRun(s: string, n: nat)
    requires n <= |s| && forall i :: 0 <= i < n ==> IsSeparator(s[i])
    ensures NonSeparators(s) == NonSeparators(s[n..])
    decreases n
  {
    if n > 0 {
      NonSeparatorsOfRun(s[1..], n - 1);
      assert s[1..][n - 1..] == s[n..];
    }
  }

  /** Collapsing keeps every other character, in order. */
  lemma {:induction false} CollapseKeepsWords(s: string)
    ensures NonSeparators(Collapse(s)) == NonSeparators(s)
    decreases |s|
  {
    if s != [] {
      var r := Collapse(s);
      if IsSeparator(s[0]) {
        var n := LeadingRun(s, IsSeparator);
        CollapseKeepsWords(s[n..]);
        NonSeparatorsOfRun(s, n);
        assert r == ['-'] + Collapse(s[n..]);
        assert r[1..] == Collapse(s[n..]);
      } else {
        CollapseKeepsWords(s[1..]);
        assert r[1..] == Collapse(s[1..]);
      }
    }
  }

  /** Putting a character in front of a collapsed string keeps it collapsed
      unless it is whitespace or a second `-`. */
  lemma ConsCollapsed(c: char, t: string)
    requires Collapsed(t) && !IsAsciiSpace(c) && (c == '-' && t != [] ==> t[0] != '-')
    ensures Collapsed([c] + t)
  {
    var r := [c] + t;
    forall i | 1 <= i < |r| - 1
      ensures !(r[i] == '-' && r[i + 1] == '-')
    {
      assert r[i] == t[i - 1] && r[i + 1] == t[i];
    }
  }

  /** The output of `Collapse` has no whitespace and no two adjacent `-`. */
  lemma {:induction false} CollapseIsCollapsed(s: string)
    ensures Collapsed(Collapse(s))
    decreases |s|
  {
    if s != [] {
      if IsSeparator(s[0]) {
        var rest := s[LeadingRun(s, IsSeparator)..];
        CollapseIsCollapsed(rest);
        assert rest != [] ==> !IsSeparator(rest[0]);
        ConsCollapsed('-', Collapse(rest));
        assert Collapse(s) == ['-'] + Collapse(rest);
      } else {
        CollapseIsCollapsed(s[1..]);
        ConsCollapsed(s[0], Collapse(s[1..]));
        assert Collapse(s) == [s[0]] + Collapse(s[1..]);
      }
    }
  }

  /** A string that is already collapsed is left alone. */
  lemma {:induction false} CollapseOfCollapsed(s: string)
    requires Collapsed(s)
    ensures Collapse(s) == s
    decreases |s|
  {
    if s != [] {
      assert Collapsed(s[1..]) by {
        assert forall i :: 0 <= i < |s[1..]| ==> s[1..][i] == s[i + 1];
      }
      CollapseOfCollapsed(s[1..]);
      if IsSeparator(s[0]) {
        LeadingRunIs(s, IsSeparator, 1);
      }
    }
  }

  /** After the filter, the strip and the lowercasing, every character other
      than a separator is a slug character. */
  lemma LoweredChars(kept: string)
    requires forall i :: 0 <= i < |kept| ==> IsSlugKeep(kept[i])
    ensures forall i :: 0 <= i < |Lower(Strip(kept, IsAsciiSpace))| ==>
              var c := Lower(Strip(kept, IsAsciiSpace))[i]; IsSeparator(c) || IsSlugChar(c)
  {
    var stripped := Strip(kept, IsAsciiSpace);
    assert forall i :: 0 <= i < |stripped| ==> stripped[i] == kept[LeadingRun(kept, IsAsciiSpace) + i];
  }

  /** An edge `-` of a slug comes from a `-` at that edge of the stripped
      text, never from surrounding whitespace. */
  lemma SlugEdges(value: string)
    ensures var t := Strip(KeepSlugChars(AsciiIgnore(value)), IsAsciiSpace);
            var r := Slugfy(value);
            && (r == [] <==> t == [])
            && (r != [] ==> (r[0] == '-' <==> t[0] == '-'))
            && (r != [] ==> (r[|r| - 1] == '-' <==> t[|t| - 1] == '-'))
  {
    var t := Strip(KeepSlugChars(AsciiIgnore(value)), IsAsciiSpace);
    var l := Lower(t);
    var r := Collapse(l);
    assert r == Slugfy(value);
    if t != [] {
      assert IsSeparator(l[0]) <==> t[0] == '-' by { SeparatorOfLower(t[0]); }
      assert IsSeparator(l[|l| - 1]) <==> t[|t| - 1] == '-' by { SeparatorOfLower(t[|t| - 1]); }
      CollapseLast(l);
    }
  }

  /** Lowercasing a non-space character makes a separator only of `-`. */
  lemma SeparatorOfLower(c: char)
    requires !IsAsciiSpace(c)
    ensures IsSeparator(LowerChar(c)) <==> c == '-'
  {
  }

  /** The last character of a collapse is `-` exactly when the input ends in a separator. */
  lemma {:induction false} CollapseLast(s: string)
    requires s != []
    ensures Collapse(s)[|Collapse(s)| - 1] == '-' <==> IsSeparator(s[|s| - 1])
    decreases |s|
  {
    var r := Collapse(s);
    if IsSeparator(s[0]) {
      var n := LeadingRun(s, IsSeparator);
      assert r == ['-'] + Collapse(s[n..]);
      if n < |s| {
        CollapseLast(s[n..]);
        assert s[n..][|s[n..]| - 1] == s[|s| - 1];
        assert r[|r| - 1] == Collapse(s[n..])[|Collapse(s[n..])| - 1];
      }
    } else if |s| > 1 {
      assert r == [s[0]] + Collapse(s[1..]);
      CollapseLast(s[1..]);
      assert s[1..][|s[1..]| - 1] == s[|s| - 1];
      assert r[|r| - 1] == Collapse(s[1..])[|Collapse(s[1..])| - 1];
    }
  }

  /** A slug is its own slug. */
  lemma SlugIdempotent(value: string)
    ensures Slugfy(Slugfy(value)) == Slugfy(value)
  {
    SlugIsFixed(Slugfy(value));
  }

  /** Every stage of the pipeline leaves a collapsed string of slug
      characters unchanged. */
  lemma SlugIsFixed(r: string)
    requires forall i :: 0 <= i < |r| ==> IsSlugChar(r[i])
    requires Collapsed(r)
    ensures Slugfy(r) == r
  {
    calc {
      Slugfy(r);
      Collapse(Lower(Strip(KeepSlugChars(AsciiIgnore(r)), IsAsciiSpace)));
      { AsciiFixed(r); }
      Collapse(Lower(Strip(KeepSlugChars(r), IsAsciiSpace)));
      { KeepFixed(r); }
      Collapse(Lower(Strip(r, IsAsciiSpace)));
      { StripFixed(r); }
      Collapse(Lower(r));
      { LowerFixed(r); }
      Collapse(r);
      { CollapseOfCollapsed(r); }
      r;
    }
  }

  lemma AsciiFixed(r: string)
    requires forall i :: 0 <= i < |r| ==> IsSlugChar(r[i])
    ensures AsciiIgnore(r) == r
  {
    assert forall i :: 0 <= i < |r| ==> IsAscii(r[i]);
  }

  lemma KeepFixed(r: string)
    requires forall i :: 0 <= i < |r| ==> IsSlugChar(r[i])
    ensures KeepSlugChars(r) == r
  {
    assert forall i :: 0 <= i < |r| ==> IsSlugKeep(r[i]);
  }

  lemma StripFixed(r: string)
    requires forall i :: 0 <= i < |r| ==> IsSlugChar(r[i])
    ensures Strip(r, IsAsciiSpace) == r
  {
    LeadingRunIs(r, IsAsciiSpace, 0);
    assert TrailingRun(r, IsAsciiSpace) == 0;
  }

  lemma LowerFixed(r: string)
    requires forall i :: 0 <= i < |r| ==> IsSlugChar(r[i])
    ensures Lower(r) == r
  {
  }

  /** `Lower(s)` is `t` when `t` is `s` lowercased character by character. */
  lemma LowerIs(s: string, t: string)
    requires |s| == |t| && forall i :: 0 <= i < |s| ==> LowerChar(s[i]) == t[i]
    ensures Lower(s) == t
  {
  }

  /** A word boundary splits a collapse: text ending in a non-separator
      collapses independently of what follows. */
  lemma {:induction false} CollapseAppend(a: string, b: string)
    requires a != [] && !IsSeparator(a[|a| - 1])
    ensures Collapse(a + b) == Collapse(a) + Collapse(b)
    decreases |a|, 1
  {
    if IsSeparator(a[0]) {
      CollapseAppendRun(a, b);
    } else if |a| > 1 {
      assert (a + b)[1..] == a[1..] + b;
      CollapseAppend(a[1..], b);
    } else {
      assert (a + b)[1..] == b;
    }
  }

  /** `CollapseAppend` when `a` starts with a run of separators. */
  lemma {:induction false} CollapseAppendRun(a: string, b: string)
    requires a != [] && !IsSeparator(a[|a| - 1]) && IsSeparator(a[0])
    ensures Collapse(a + b) == Collapse(a) + Collapse(b)
    decreases |a|, 0
  {
    var n := LeadingRun(a, IsSeparator);
    RunInPrefix(a, b);
    assert (a + b)[n..] == a[n..] + b;
    CollapseAppend(a[n..], b);
  }

  /** A run of separators that ends inside `a` is not extended by what follows `a`. */
  lemma RunInPrefix(a: string, b: string)
    requires a != [] && !IsSeparator(a[|a| - 1])
    ensures LeadingRun(a + b, IsSeparator) == LeadingRun(a, IsSeparator) < |a|
  {
    var n := LeadingRun(a, IsSeparator);
    assert n < |a|;
    LeadingRunIs(a + b, IsSeparator, n);
  }

  predicate NoSeparator(w: string) {
    forall i :: 0 <= i < |w| ==> !IsSeparator(w[i])
  }

  predicate AllSeparators(run: string) {
    forall i :: 0 <= i < |run| ==> IsSeparator(run[i])
  }

  /** Text made of runs of separators, each followed by a word. */
  function Join(parts: seq<(string, string)>): string
  {
    if parts == [] then [] else parts[0].0 + parts[0].1 + Join(parts[1..])
  }

  /** The same words, each preceded by a single `-`. */
  function Dashed(parts: seq<(string, string)>): string
  {
    if parts == [] then [] else "-" + parts[0].1 + Dashed(parts[1..])
  }

  predicate WellSpaced(parts: seq<(string, string)>) {
    && (forall k :: 0 <= k < |parts| ==> parts[k].0 != [] && AllSeparators(parts[k].0))
    && (forall k :: 0 <= k < |parts| ==> parts[k].1 != [] && NoSeparator(parts[k].1))
  }

  /** A run of separators followed by a word becomes one `-` before it. */
  lemma RunThenWord(run: string, w: string, tail: string)
    requires run != [] && AllSeparators(run) && w != [] && NoSeparator(w)
    ensures Collapse(run + (w + tail)) == ['-'] + (w + Collapse(tail))
  {
    var s := run + (w + tail);
    LeadingRunIs(s, IsSeparator, |run|);
    assert s[|run|..] == w + tail;
    CollapseAppend(w, tail);
    CollapseOfCollapsed(w);
  }

  /** Each run of separators before a word becomes a single `-`. */
  lemma {:induction false} CollapseDashes(parts: seq<(string, string)>)
    requires WellSpaced(parts)
    ensures Collapse(Join(parts)) == Dashed(parts)
    decreases |parts|
  {
    if parts != [] {
      var run, w, tail := parts[0].0, parts[0].1, Join(parts[1..]);
      assert WellSpaced(parts[1..]) by {
        assert forall k :: 0 <= k < |parts[1..]| ==> parts[1..][k] == parts[k + 1];
      }
      calc {
        Collapse(Join(parts));
        { assert Join(parts) == run + (w + tail); }
        Collapse(run + (w + tail));
        { RunThenWord(run, w, tail); }
        ['-'] + (w + Collapse(tail));
        { CollapseDashes(parts[1..]); }
        ['-'] + (w + Dashed(parts[1..]));
        Dashed(parts);
      }
    }
  }

  /** Words separated by runs of separators collapse to the words joined by
      single hyphens; a trailing run of separators leaves one trailing `-`. */
  lemma CollapseJoin(first: string, parts: seq<(string, string)>, trail: string)
    requires first != [] && NoSeparator(first)
    requires WellSpaced(parts) && AllSeparators(trail)
    ensures Collapse(first + Join(parts) + trail)
            == first + Dashed(parts) + (if trail == [] then "" else "-")
  {
    var words := first + Join(parts);
    CollapseDashes(parts);
    CollapseOfCollapsed(first);
    CollapseAppend(first, Join(parts));
    if trail != [] {
      assert words != [] && !IsSeparator(words[|words| - 1]) by {
        JoinEnd(first, parts);
      }
      CollapseAppend(words, trail);
      LeadingRunIs(trail, IsSeparator, |trail|);
    } else {
      assert words + trail == words;
    }
  }

  /** Text that ends in a word ends in a character that is not a separator. */
  lemma {:induction false} JoinEnd(first: string, parts: seq<(string, string)>)
    requires first != [] && NoSeparator(first) && WellSpaced(parts)
    ensures var s := first + Join(parts); s != [] && !IsSeparator(s[|s| - 1])
    decreases |parts|
  {
    if parts != [] {
      var w := parts[0].1;
      assert WellSpaced(parts[1..]) by {
        assert forall k :: 0 <= k < |parts[1..]| ==> parts[1..][k] == parts[k + 1];
      }
      JoinEnd(w, parts[1..]);
      var tail := w + Join(parts[1..]);
      assert first + Join(parts) == (first + parts[0].0) + tail;
    }
  }

  // Each stage of the pipeline on a concrete input, stated once for any
  // input of the right shape.

  lemma AsciiIs(s: string)
    requires forall i :: 0 <= i < |s| ==> IsAscii(s[i])
    ensures AsciiIgnore(s) == s
  {
  }

  lemma KeptIs(s: string)
    requires forall i :: 0 <= i < |s| ==> IsSlugKeep(s[i])
    ensures KeepSlugChars(s) == s
  {
  }

  lemma StripIs(s: string, pre: string, t: string, post: string)
    requires s == pre + t + post
    requires forall i :: 0 <= i < |pre| ==> IsAsciiSpace(pre[i])
    requires forall i :: 0 <= i < |post| ==> IsAsciiSpace(post[i])
    requires t != [] && !IsAsciiSpace(t[0]) && !IsAsciiSpace(t[|t| - 1])
    ensures Strip(s, IsAsciiSpace) == t
  {
    LeadingRunIs(s, IsAsciiSpace, |pre|);
    assert s[|pre|..] == t + post;
    TrailingRunIs(t + post, IsAsciiSpace, |post|);
    assert (t + post)[..|t|] == t;
  }

  lemma CollapseJoinIs(s: string, first: string, parts: seq<(string, string)>, trail: string, t: string)
    requires first != [] && NoSeparator(first)
    requires WellSpaced(parts) && AllSeparators(trail)
    requires s == first + Join(parts) + trail
    requires t == first + Dashed(parts) + (if trail == [] then "" else "-")
    ensures Collapse(s) == t
  {
    CollapseJoin(first, parts, trail);
  }

  /** The first example of the documentation and the tests. */
  lemma SlugOfName()
    ensures Slugfy("Alisson dos Reis Perez  ") == "alisson-dos-reis-perez"
  {
    calc {
      Slugfy("Alisson dos Reis Perez  ");
      { NameAscii(); }
      Collapse(Lower(Strip(KeepSlugChars("Alisson dos Reis Perez  "), IsAsciiSpace)));
      { NameKept(); }
      Collapse(Lower(Strip("Alisson dos Reis Perez  ", IsAsciiSpace)));
      { NameStrip(); }
      Collapse(Lower("Alisson dos Reis Perez"));
      { NameLower(); }
      Collapse("alisson dos reis perez");
      { NameCollapse(); }
      "alisson-dos-reis-perez";
    }
  }

  lemma NameAscii()
    ensures AsciiIgnore("Alisson dos Reis Perez  ") == "Alisson dos Reis Perez  "
  {
    AsciiIs("Alisson dos Reis Perez  ");
  }

  lemma NameKept()
    ensures KeepSlugChars("Alisson dos Reis Perez  ") == "Alisson dos Reis Perez  "
  {
    KeptIs("Alisson dos Reis Perez  ");
  }

  lemma NameStrip()
    ensures Strip("Alisson dos Reis Perez  ", IsAsciiSpace) == "Alisson dos Reis Perez"
  {
    StripIs("Alisson dos Reis Perez  ", "", "Alisson dos Reis Perez", "  ");
  }

  lemma NameLower()
    ensures Lower("Alisson dos Reis Perez") == "alisson dos reis perez"
  {
    LowerIs("Alisson dos Reis Perez", "alisson dos reis perez");
  }

  const NameWords := [(" ", "dos"), (" ", "reis"), (" ", "perez")]

  lemma NameWordsSpaced()
    ensures WellSpaced(NameWords)
  {
  }

  lemma NameWordsJoined()
    ensures "alisson dos reis perez" == "alisson" + Join(NameWords) + ""
  {
  }

  lemma NameWordsDashed()
    ensures "alisson-dos-reis-perez" == "alisson" + Dashed(NameWords) + ""
  {
  }

  lemma NameCollapse()
    ensures Collapse("alisson dos reis perez") == "alisson-dos-reis-perez"
  {
    NameWordsSpaced();
    NameWordsJoined();
    NameWordsDashed();
    CollapseJoinIs("alisson dos reis perez", "alisson", NameWords, "", "alisson-dos-reis-perez");
  }
}
