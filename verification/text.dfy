/** The small Python string operations the scrapers rely on. */
module Optional {
  datatype Option<+T> = None | Some(value: T)
}

/** Facts about growing a sequence one element at a time, as the scraping loops do. */
module Sequences {
  /** A prefix one longer is the prefix with the next element appended. */
  lemma PrefixExtend<T>(s: seq<T>, i: nat)
    requires i < |s|
    ensures s[..i + 1] == s[..i] + [s[i]]
  {
  }
}

module Text {

  predicate StartsWith(s: string, prefix: string) {
    |prefix| <= |s| && s[..|prefix|] == prefix
  }

  /** A string starts with `a + b` when it starts with `a` and the rest starts with `b`. */
  lemma StartsWithSplit(s: string, a: string, b: string)
    ensures StartsWith(s, a + b) <==> StartsWith(s, a) && StartsWith(s[|a|..], b)
  {
    if StartsWith(s, a + b) {
      assert s[..|a|] == s[..|a + b|][..|a|];
      assert s[|a|..][..|b|] == s[..|a + b|][|a|..];
    }
    if StartsWith(s, a) && StartsWith(s[|a|..], b) {
      assert s[..|a + b|] == s[..|a|] + s[|a|..][..|b|];
    }
  }

  /** `pattern in s`, Python's substring test. */
  predicate Contains(s: string, pattern: string) {
    StartsWith(s, pattern) || (|s| > 0 && Contains(s[1..], pattern))
  }

  /** A string ends with itself after any prefix. */
  lemma {:induction false} ContainsSuffix(a: string, b: string)
    ensures Contains(a + b, b)
  {
    if a == [] {
      assert a + b == b;
    } else {
      assert (a + b)[1..] == a[1..] + b;
      ContainsSuffix(a[1..], b);
    }
  }

  /** A string lacking one of the pattern's characters cannot contain the pattern. */
  lemma {:induction false} MissingCharNotContained(s: string, pattern: string, c: char)
    requires c in pattern && c !in s
    ensures !Contains(s, pattern)
  {
    if |s| > 0 {
      assert c !in s[1..];
      MissingCharNotContained(s[1..], pattern, c);
    }
  }

  /** Python's `str.isspace` for one character. */
  predicate IsSpace(c: char) {
    c in {' ', '\t', '\n', '\r', '\U{B}', '\U{C}', '\U{1C}', '\U{1D}', '\U{1E}', '\U{1F}',
          '\U{85}', '\U{A0}', '\U{1680}', '\U{2000}', '\U{2001}', '\U{2002}', '\U{2003}',
          '\U{2004}', '\U{2005}', '\U{2006}', '\U{2007}', '\U{2008}', '\U{2009}', '\U{200A}',
          '\U{2028}', '\U{2029}', '\U{202F}', '\U{205F}', '\U{3000}'}
  }

  predicate AllSpace(s: string) {
    forall i | 0 <= i < |s| :: IsSpace(s[i])
  }

  /** True when `s` neither begins nor ends with whitespace. */
  predicate Trimmed(s: string) {
    s == [] || (!IsSpace(s[0]) && !IsSpace(s[|s| - 1]))
  }

  function LeadingSpaces(s: string): (k: nat)
    ensures k <= |s|
    ensures forall i | 0 <= i < k :: IsSpace(s[i])
    ensures k < |s| ==> !IsSpace(s[k])
  {
    if |s| > 0 && IsSpace(s[0]) then 1 + LeadingSpaces(s[1..]) else 0
  }

  function TrailingSpaces(s: string): (k: nat)
    ensures k <= |s|
    ensures forall i | |s| - k <= i < |s| :: IsSpace(s[i])
    ensures k < |s| ==> !IsSpace(s[|s| - 1 - k])
  {
    if |s| > 0 && IsSpace(s[|s| - 1]) then 1 + TrailingSpaces(s[..|s| - 1]) else 0
  }

  /** Python's `str.strip()` with no argument. */
  function Strip(s: string): (r: string)
    ensures |r| <= |s|
    ensures Trimmed(r)
    ensures r == [] <==> AllSpace(s)
    ensures exists i, j | 0 <= i <= j <= |s| :: r == s[i..j] && AllSpace(s[..i]) && AllSpace(s[j..])
  {
    var lead := LeadingSpaces(s);
    var rest := s[lead..];
    var j := lead + |rest| - TrailingSpaces(rest);
    var r := rest[..|rest| - TrailingSpaces(rest)];
    assert r != [] ==> r[0] == rest[0];
    assert r == s[lead..j];
    assert AllSpace(s[..lead]);
    assert AllSpace(s[j..]) by {
      forall k | 0 <= k < |s[j..]| ensures IsSpace(s[j..][k]) {
        assert s[j..][k] == rest[|rest| - TrailingSpaces(rest) + k];
      }
    }
    r
  }

  /** Stripping leaves a string that has no surrounding whitespace unchanged. */
  lemma StripTrimmed(s: string)
    requires Trimmed(s)
    ensures Strip(s) == s
  {
    if s != [] {
      assert LeadingSpaces(s) == 0;
      assert TrailingSpaces(s) == 0;
    }
  }

  lemma StripIdempotent(s: string)
    ensures Strip(Strip(s)) == Strip(s)
  {
    StripTrimmed(Strip(s));
  }

  /** `sep.join(xs)`. */
  function Join(xs: seq<string>, sep: string): string {
    if |xs| == 0 then ""
    else if |xs| == 1 then xs[0]
    else xs[0] + sep + Join(xs[1..], sep)
  }

  /**
   * With a non-empty separator, a join is empty only when it joined nothing
   * or a single empty string.
   */
  lemma {:induction false} JoinEmptyIff(xs: seq<string>, sep: string)
    requires sep != ""
    ensures Join(xs, sep) == "" <==> xs == [] || xs == [""]
  {
    if |xs| >= 2 {
      assert |Join(xs, sep)| >= |sep|;
    }
  }

  /** A join begins with its first piece. */
  lemma {:induction false} JoinStartsWithFirst(xs: seq<string>, sep: string)
    requires xs != []
    ensures StartsWith(Join(xs, sep), xs[0])
  {
    if |xs| >= 2 {
      assert (xs[0] + sep + Join(xs[1..], sep))[..|xs[0]|] == xs[0];
    }
  }

  /** A join of non-empty, trimmed pieces is itself trimmed. */
  lemma {:induction false} JoinTrimmed(xs: seq<string>, sep: string)
    requires forall i | 0 <= i < |xs| :: xs[i] != "" && Trimmed(xs[i])
    ensures Trimmed(Join(xs, sep))
    ensures xs != [] ==> Join(xs, sep) != []
  {
    if |xs| >= 2 {
      JoinTrimmed(xs[1..], sep);
      var tail := Join(xs[1..], sep);
      var j := xs[0] + sep + tail;
      assert j[0] == xs[0][0];
      assert j[|j| - 1] == tail[|tail| - 1];
    }
  }

  /** `s.split(c)[0]`: everything before the first `c`. */
  function TakeUntil(s: string, c: char): (r: string)
    ensures StartsWith(s, r)
    ensures c !in r
    ensures |r| < |s| ==> s[|r|] == c
  {
    if s == [] || s[0] == c then "" else [s[0]] + TakeUntil(s[1..], c)
  }

  /** Splitting at a character the string does not contain keeps the whole string. */
  lemma {:induction false} TakeUntilAbsent(s: string, c: char)
    requires c !in s
    ensures TakeUntil(s, c) == s
  {
    if s != [] {
      assert c !in s[1..];
      TakeUntilAbsent(s[1..], c);
    }
  }

  /** Splitting `a + b` where `a` has no `c` and `b` is empty or starts with `c` gives back `a`. */
  lemma {:induction false} TakeUntilConcat(a: string, b: string, c: char)
    requires c !in a
    requires b == [] || b[0] == c
    ensures TakeUntil(a + b, c) == a
  {
    if a == [] {
      assert a + b == b;
    } else {
      assert (a + b)[0] == a[0];
      assert (a + b)[1..] == a[1..] + b;
      TakeUntilConcat(a[1..], b, c);
    }
  }

  /** `s.replace(target, replacement)`: every non-overlapping occurrence, scanning left to right. */
  function Replace(s: string, target: string, replacement: string): string
    requires target != ""
    decreases |s|
  {
    if |s| == 0 then ""
    else if StartsWith(s, target) then replacement + Replace(s[|target|..], target, replacement)
    else [s[0]] + Replace(s[1..], target, replacement)
  }

  /** A string without the target is returned unchanged. */
  lemma {:induction false} ReplaceAbsent(s: string, target: string, replacement: string)
    requires target != "" && !Contains(s, target)
    ensures Replace(s, target, replacement) == s
  {
    if |s| > 0 {
      ReplaceAbsent(s[1..], target, replacement);
      assert [s[0]] + s[1..] == s;
    }
  }
}
