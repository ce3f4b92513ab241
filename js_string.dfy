/**
 * The three JavaScript string operations the application relies on:
 * `String.prototype.trim`, `String.prototype.indexOf` with a one-character
 * argument, and `String.prototype.split` with a one-character separator.
 * Strings are sequences of code points, where JavaScript counts UTF-16 code
 * units. Every character JavaScript counts as white space is in the Basic
 * Multilingual Plane, and so are `':'` and `'\n'`, so `trim` and `split` give
 * the same strings either way, and `substring(indexOf(':') + 1)` picks out the
 * same text. The number `IndexOf` returns counts code points, so it is smaller
 * than JavaScript's when a character outside the Basic Multilingual Plane
 * comes before the match.
 */
module JsString {

  /** JavaScript's WhiteSpace and LineTerminator code points, the set `trim` strips. */
  predicate IsWhitespace(c: char)
  {
    c == '\t' || c == '\n' || c == '\U{B}' || c == '\U{C}' || c == '\r' ||
    c == ' ' || c == '\U{A0}' || c == '\U{1680}' ||
    ('\U{2000}' <= c <= '\U{200A}') ||
    c == '\U{2028}' || c == '\U{2029}' || c == '\U{202F}' || c == '\U{205F}' ||
    c == '\U{3000}' || c == '\U{FEFF}'
  }

  predicate AllWhitespace(s: string)
  {
    forall k | 0 <= k < |s| :: IsWhitespace(s[k])
  }

  /** Neither the first nor the last character is white space. */
  predicate IsTrimmed(s: string)
  {
    s == [] || (!IsWhitespace(s[0]) && !IsWhitespace(s[|s| - 1]))
  }

  /** Length of the white-space run at the start of `s`. */
  function LeadingWhitespace(s: string): (n: nat)
    ensures n <= |s|
    ensures AllWhitespace(s[..n])
    ensures n < |s| ==> !IsWhitespace(s[n])
  {
    if s == [] || !IsWhitespace(s[0]) then 0 else 1 + LeadingWhitespace(s[1..])
  }

  /** Length of the white-space run at the end of `s`. */
  function TrailingWhitespace(s: string): (n: nat)
    ensures n <= |s|
    ensures AllWhitespace(s[|s| - n..])
    ensures n < |s| ==> !IsWhitespace(s[|s| - n - 1])
  {
    if s == [] || !IsWhitespace(s[|s| - 1]) then 0
    else 1 + TrailingWhitespace(s[..|s| - 1])
  }

  /**
   * `s.trim()`: `s` with its leading and trailing white space removed.
   * The result is the middle part of a split of `s` into white space,
   * a trimmed string and white space (TrimUnique shows there is only one).
   */
  function Trim(s: string): (r: string)
    ensures IsTrimmed(r)
    ensures |r| <= |s|
  {
    var t := s[LeadingWhitespace(s)..];
    t[..|t| - TrailingWhitespace(t)]
  }

  /** Trim keeps one slice of its input, with only white space on either side. */
  lemma TrimSlice(s: string) returns (i: nat, j: nat)
    ensures i <= j <= |s| && Trim(s) == s[i..j]
    ensures AllWhitespace(s[..i]) && AllWhitespace(s[j..])
  {
    i := LeadingWhitespace(s);
    var t := s[i..];
    var b := TrailingWhitespace(t);
    j := |s| - b;
    assert Trim(s) == t[..|t| - b];
    assert t[..|t| - b] == s[i..j];
    assert t[|t| - b..] == s[j..];
  }

  lemma SliceOfSuffix(s: string, start: nat, i: nat, j: nat)
    requires start <= |s| && i <= j <= |s| - start
    ensures s[start..][i..j] == s[start + i..start + j]
  {
  }

  lemma ThreeSlices(s: string, i: nat, j: nat)
    requires i <= j <= |s|
    ensures s == s[..i] + s[i..j] + s[j..]
  {
  }

  /** What Trim removes is white space on either side. */
  lemma TrimDecomposes(s: string)
    ensures exists p, q :: AllWhitespace(p) && AllWhitespace(q) && s == p + Trim(s) + q
  {
    var i, j := TrimSlice(s);
    ThreeSlices(s, i, j);
  }

  lemma AllWhitespaceConcat(p: string, q: string)
    requires AllWhitespace(p) && AllWhitespace(q)
    ensures AllWhitespace(p + q)
  {
  }

  /** Trim is determined by its contract: any split white space + trimmed + white space gives it. */
  lemma TrimUnique(s: string, p: string, r: string, q: string)
    requires AllWhitespace(p) && AllWhitespace(q) && IsTrimmed(r)
    requires s == p + r + q
    ensures Trim(s) == r
  {
    var a := LeadingWhitespace(s);
    if r == [] {
      assert s == p + q;
      AllWhitespaceConcat(p, q);
      assert a == |s|;
    } else {
      assert s[|p|] == r[0];
      assert a == |p|;
      var t := s[a..];
      assert t == r + q;
      var b := TrailingWhitespace(t);
      assert t[|t| - |q| - 1] == r[|r| - 1];
      assert b == |q|;
      assert t[..|t| - b] == r;
    }
  }

  lemma {:induction false} TrimIdempotent(s: string)
    ensures Trim(Trim(s)) == Trim(s)
  {
    TrimUnique(Trim(s), [], Trim(s), []);
  }

  /** `s.trim() === ''` exactly when every character of `s` is white space. */
  lemma {:induction false} TrimEmptyIffAllWhitespace(s: string)
    ensures Trim(s) == [] <==> AllWhitespace(s)
  {
    if AllWhitespace(s) {
      TrimUnique(s, s, [], []);
    } else {
      TrimDecomposes(s);
      var p, q :| AllWhitespace(p) && AllWhitespace(q) && s == p + Trim(s) + q;
      if Trim(s) == [] {
        AllWhitespaceConcat(p, q);
        assert false;
      }
    }
  }

  /** `s.indexOf(c)`: the first position of `c` in `s`, or -1 when there is none. */
  function IndexOf(s: string, c: char): (i: int)
    ensures -1 <= i < |s|
    ensures i == -1 <==> c !in s
    ensures 0 <= i ==> s[i] == c && c !in s[..i]
  {
    if s == [] then -1
    else if s[0] == c then 0
    else
      var j := IndexOf(s[1..], c);
      assert s[1..][..if j < 0 then 0 else j] == s[1..1 + if j < 0 then 0 else j];
      if j < 0 then -1 else j + 1
  }

  /** The contract of IndexOf pins its value down when `c` occurs. */
  lemma IndexOfAt(s: string, c: char, i: nat)
    requires i < |s| && s[i] == c && c !in s[..i]
    ensures IndexOf(s, c) == i
  {
    assert s[..i + 1][i] == c;
  }

  /**
   * `s.split(sep)` for a one-character separator: the pieces between
   * separators, in order, with an empty piece where two separators meet or
   * where `s` starts or ends with one; the empty string gives `[""]`.
   */
  function Split(s: string, sep: char): (parts: seq<string>)
    ensures |parts| >= 1
    ensures forall k | 0 <= k < |parts| :: sep !in parts[k]
    decreases |s|
  {
    var i := IndexOf(s, sep);
    if i < 0 then [s] else [s[..i]] + Split(s[i + 1..], sep)
  }

  /** `parts.join(sep)`, the inverse of Split. */
  function Join(parts: seq<string>, sep: char): string
    requires |parts| >= 1
  {
    if |parts| == 1 then parts[0] else parts[0] + [sep] + Join(parts[1..], sep)
  }

  /** Number of occurrences of `c` in `s`. */
  function Occurrences(s: string, c: char): nat
  {
    multiset(s)[c]
  }

  lemma SplitFirst(a: string, sep: char, b: string)
    requires sep !in a
    ensures Split(a + [sep] + b, sep) == [a] + Split(b, sep)
  {
    var s := a + [sep] + b;
    assert s[..|a|] == a;
    IndexOfAt(s, sep, |a|);
    assert s[|a| + 1..] == b;
  }

  lemma {:induction false} SplitJoin(s: string, sep: char)
    ensures Join(Split(s, sep), sep) == s
    decreases |s|
  {
    var i := IndexOf(s, sep);
    if i >= 0 {
      var a, b := s[..i], s[i + 1..];
      assert s == a + [sep] + b;
      SplitFirst(a, sep, b);
      SplitJoin(b, sep);
      JoinCons(a, Split(b, sep), sep);
    }
  }

  lemma JoinCons(first: string, rest: seq<string>, sep: char)
    requires |rest| >= 1
    ensures Join([first] + rest, sep) == first + [sep] + Join(rest, sep)
  {
    assert ([first] + rest)[1..] == rest;
  }

  lemma {:induction false} JoinSplit(parts: seq<string>, sep: char)
    requires |parts| >= 1
    requires forall k | 0 <= k < |parts| :: sep !in parts[k]
    ensures Split(Join(parts, sep), sep) == parts
  {
    if |parts| == 1 {
      assert IndexOf(parts[0], sep) == -1;
    } else {
      JoinSplit(parts[1..], sep);
      SplitFirst(parts[0], sep, Join(parts[1..], sep));
    }
  }

  /** Past the first occurrence at `i`, one occurrence fewer remains. */
  lemma OccurrencesPast(s: string, c: char, i: nat)
    requires i < |s| && s[i] == c && c !in s[..i]
    ensures Occurrences(s, c) == Occurrences(s[i + 1..], c) + 1
  {
    assert s == s[..i] + [c] + s[i + 1..];
    assert multiset(s) == multiset(s[..i]) + multiset{c} + multiset(s[i + 1..]);
    assert c !in multiset(s[..i]);
  }

  /** Splitting on `sep` gives one more piece than there are separators. */
  lemma {:induction false} SplitCount(s: string, sep: char)
    ensures |Split(s, sep)| == Occurrences(s, sep) + 1
    decreases |s|
  {
    var i := IndexOf(s, sep);
    if i < 0 {
      assert sep !in multiset(s);
    } else {
      SplitCount(s[i + 1..], sep);
      OccurrencesPast(s, sep, i);
    }
  }
}
