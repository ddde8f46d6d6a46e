/**
 * The string operations the pipeline relies on: `str.strip()`,
 * `str.replace('-', '_')`, the substring test `in`, and Python's
 * lexicographic string order (used by `tuple(sorted((a, b)))`).
 */
module Text {

  /** The characters for which Python's `str.isspace()` holds. */
  predicate IsSpace(c: char) {
    || ('\U{9}' <= c <= '\U{D}')
    || ('\U{1C}' <= c <= '\U{20}')
    || c == '\U{85}' || c == '\U{A0}' || c == '\U{1680}'
    || ('\U{2000}' <= c <= '\U{200A}')
    || c == '\U{2028}' || c == '\U{2029}' || c == '\U{202F}' || c == '\U{205F}' || c == '\U{3000}'
  }

  function StripLeft(s: string): (r: string)
    ensures |r| <= |s|
    ensures r != [] ==> !IsSpace(r[0])
    ensures s != [] && !IsSpace(s[0]) ==> r == s
  {
    if s != [] && IsSpace(s[0]) then StripLeft(s[1..]) else s
  }

  function StripRight(s: string): (r: string)
    ensures |r| <= |s|
    ensures r != [] ==> !IsSpace(r[|r| - 1])
    ensures s != [] && !IsSpace(s[|s| - 1]) ==> r == s
  {
    if s != [] && IsSpace(s[|s| - 1]) then StripRight(s[..|s| - 1]) else s
  }

  /** Stripping on the left removes a prefix of whitespace: what is left is a suffix. */
  lemma {:induction false} StripLeftSuffix(s: string)
    ensures StripLeft(s) == s[|s| - |StripLeft(s)|..]
    ensures forall i :: 0 <= i < |s| - |StripLeft(s)| ==> IsSpace(s[i])
  {
    if s != [] && IsSpace(s[0]) {
      StripLeftSuffix(s[1..]);
    }
  }

  /** Stripping on the right removes a suffix of whitespace: what is left is a prefix. */
  lemma {:induction false} StripRightPrefix(s: string)
    ensures StripRight(s) == s[..|StripRight(s)|]
    ensures forall i :: |StripRight(s)| <= i < |s| ==> IsSpace(s[i])
  {
    if s != [] && IsSpace(s[|s| - 1]) {
      StripRightPrefix(s[..|s| - 1]);
    }
  }

  /** `str.strip()` with no argument. */
  function Strip(s: string): string {
    StripRight(StripLeft(s))
  }

  /** Strip leaves neither a leading nor a trailing whitespace character. */
  lemma StripTrimmed(s: string)
    ensures var r := Strip(s);
      r != [] ==> !IsSpace(r[0]) && !IsSpace(r[|r| - 1])
  {
    var l := StripLeft(s);
    var r := StripRight(l);
    StripRightPrefix(l);
    if r != [] {
      assert r == l[..|r|];
      assert r[0] == l[0];
    }
  }

  /** A string without leading or trailing whitespace is its own strip. */
  lemma StripOfTrimmed(s: string)
    requires s != [] ==> !IsSpace(s[0]) && !IsSpace(s[|s| - 1])
    ensures Strip(s) == s
  {
  }

  /** `str.replace(old, new)` for single characters. */
  function ReplaceChar(s: string, from: char, to: char): (r: string)
    ensures |r| == |s|
    ensures forall i :: 0 <= i < |s| ==> r[i] == (if s[i] == from then to else s[i])
  {
    if s == [] then [] else [if s[0] == from then to else s[0]] + ReplaceChar(s[1..], from, to)
  }

  /** `name.strip().replace('-', '_')`, the cleaning applied to spec names. */
  function CleanName(name: string): string {
    ReplaceChar(Strip(name), '-', '_')
  }

  /**
   * A cleaned name holds no '-' and no leading or trailing whitespace, and
   * cleaning it again changes nothing.
   */
  lemma CleanNameIdempotent(name: string)
    ensures '-' !in CleanName(name)
    ensures CleanName(name) != [] ==> !IsSpace(CleanName(name)[0])
    ensures CleanName(CleanName(name)) == CleanName(name)
  {
    var s := Strip(name);
    var c := CleanName(name);
    StripTrimmed(name);
    assert c != [] ==> !IsSpace(c[0]) && !IsSpace(c[|c| - 1]) by {
      if c != [] {
        assert c[0] == (if s[0] == '-' then '_' else s[0]);
        assert c[|c| - 1] == (if s[|s| - 1] == '-' then '_' else s[|s| - 1]);
      }
    }
    StripOfTrimmed(c);
    assert ReplaceChar(c, '-', '_') == c;
  }

  /** `sub` occurs in `s` starting at position `i`. */
  predicate OccursAt(s: string, sub: string, i: int) {
    0 <= i && i + |sub| <= |s| && s[i..i + |sub|] == sub
  }

  /** Python's `sub in s` for strings. */
  function Contains(s: string, sub: string): (b: bool)
    ensures b <==> exists i :: OccursAt(s, sub, i)
  {
    if sub <= s then
      assert OccursAt(s, sub, 0);
      true
    else if s == [] then
      assert forall i :: !OccursAt(s, sub, i);
      false
    else
      var b := Contains(s[1..], sub);
      assert b ==> OccursAt(s, sub, 0) || exists i :: OccursAt(s, sub, i) by {
        if b {
          var i :| OccursAt(s[1..], sub, i);
          assert s[i + 1..i + 1 + |sub|] == s[1..][i..i + |sub|];
          assert OccursAt(s, sub, i + 1);
        }
      }
      assert (exists i :: OccursAt(s, sub, i)) ==> b by {
        if exists i :: OccursAt(s, sub, i) {
          var i :| OccursAt(s, sub, i);
          if i > 0 {
            assert s[1..][i - 1..i - 1 + |sub|] == s[i..i + |sub|];
            assert OccursAt(s[1..], sub, i - 1);
          }
        }
      }
      b
  }

  /** Python's `a < b` on strings: lexicographic by code point. */
  function LexLess(a: string, b: string): bool {
    if b == [] then false
    else if a == [] then true
    else if a[0] != b[0] then a[0] < b[0]
    else LexLess(a[1..], b[1..])
  }

  lemma {:induction false} LexLessIrreflexive(a: string)
    ensures !LexLess(a, a)
  {
    if a != [] {
      LexLessIrreflexive(a[1..]);
    }
  }

  /** Of two different strings exactly one is the smaller. */
  lemma {:induction false} LexLessTrichotomy(a: string, b: string)
    ensures a != b ==> (LexLess(a, b) <==> !LexLess(b, a))
    ensures a == b ==> !LexLess(a, b)
  {
    if a == b {
      LexLessIrreflexive(a);
    } else if a != [] && b != [] && a[0] == b[0] {
      assert a == [a[0]] + a[1..] && b == [b[0]] + b[1..];
      LexLessTrichotomy(a[1..], b[1..]);
    }
  }

  /** `tuple(sorted((a, b)))`: the key under which an undirected edge is stored. */
  function SortedPair(a: string, b: string): (string, string) {
    if LexLess(b, a) then (b, a) else (a, b)
  }

  /** The key does not depend on the direction the edge is walked in, holds both ends, and is ordered. */
  lemma SortedPairSymmetric(a: string, b: string)
    ensures SortedPair(a, b) == SortedPair(b, a)
    ensures {SortedPair(a, b).0, SortedPair(a, b).1} == {a, b}
    ensures !LexLess(SortedPair(a, b).1, SortedPair(a, b).0)
  {
    LexLessTrichotomy(a, b);
  }

  /** Two keys are equal exactly when they join the same two ids. */
  lemma SortedPairInjective(a: string, b: string, c: string, d: string)
    ensures SortedPair(a, b) == SortedPair(c, d) <==> {a, b} == {c, d}
  {
    SortedPairSymmetric(a, b);
    SortedPairSymmetric(c, d);
    if {a, b} == {c, d} {
      if a == c {
        assert b == d;
      } else {
        assert a == d && b == c;
      }
    }
  }
}
