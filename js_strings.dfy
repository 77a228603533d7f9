/** The few JavaScript string operations the pages rely on, over `string` (`seq<char>`). */
module JsStrings {

  /** JavaScript truthiness of a string: only the empty string is falsy. */
  predicate Truthy(s: string) {
    s != ""
  }

  /** `a < b` on JavaScript strings: lexicographic order, character by character. */
  predicate LexLess(a: string, b: string)
    decreases |a|
  {
    if |a| == 0 then |b| > 0
    else if |b| == 0 then false
    else if a[0] < b[0] then true
    else if a[0] == b[0] then LexLess(a[1..], b[1..])
    else false
  }

  lemma {:induction false} LexLessIrreflexive(a: string)
    ensures !LexLess(a, a)
  {
    if |a| > 0 {
      LexLessIrreflexive(a[1..]);
    }
  }

  lemma {:induction false} LexLessTransitive(a: string, b: string, c: string)
    requires LexLess(a, b) && LexLess(b, c)
    ensures LexLess(a, c)
  {
    if |a| > 0 && |b| > 0 && |c| > 0 && a[0] == b[0] && b[0] == c[0] {
      LexLessTransitive(a[1..], b[1..], c[1..]);
    }
  }

  /** Two different strings are ordered one way or the other. */
  lemma {:induction false} LexLessTotal(a: string, b: string)
    requires a != b
    ensures LexLess(a, b) || LexLess(b, a)
  {
    if |a| > 0 && |b| > 0 && a[0] == b[0] {
      assert a == [a[0]] + a[1..] && b == [b[0]] + b[1..];
      LexLessTotal(a[1..], b[1..]);
    }
  }

  /** `String.prototype.toUpperCase` on one character, for the ASCII letters. */
  function UpperChar(c: char): (u: char)
    ensures 'a' <= c <= 'z' ==> 'A' <= u <= 'Z' && u as int == c as int - 32
    ensures !('a' <= c <= 'z') ==> u == c
  {
    if 'a' <= c <= 'z' then (c as int - 32) as char else c
  }

  /** `String.prototype.toUpperCase`, character by character. */
  function Upper(s: string): (r: string)
    ensures |r| == |s|
    ensures forall i :: 0 <= i < |s| ==> r[i] == UpperChar(s[i])
  {
    seq(|s|, i requires 0 <= i < |s| => UpperChar(s[i]))
  }

  /** `s.startsWith(p)`. */
  predicate StartsWith(s: string, p: string) {
    |p| <= |s| && s[..|p|] == p
  }

  /** `s.split(sep)[0]`: the text before the first `sep`, or all of `s` when there is none. */
  function BeforeFirst(s: string, sep: char): (r: string)
    ensures |r| <= |s| && r == s[..|r|]
    ensures sep !in r
    ensures |r| < |s| ==> s[|r|] == sep
  {
    if |s| == 0 then ""
    else if s[0] == sep then ""
    else [s[0]] + BeforeFirst(s[1..], sep)
  }

  /** `s.split(sep).pop()`: the text after the last `sep`, or all of `s` when there is none. */
  function AfterLast(s: string, sep: char): string
  {
    if |s| == 0 then ""
    else if s[|s| - 1] == sep then ""
    else AfterLast(s[..|s| - 1], sep) + [s[|s| - 1]]
  }

  /** `AfterLast` is the longest suffix without `sep`: the whole string, or what follows its last `sep`. */
  lemma {:induction false} AfterLastIsSuffix(s: string, sep: char)
    ensures var r := AfterLast(s, sep);
      && |r| <= |s| && r == s[|s| - |r|..]
      && sep !in r
      && (|r| < |s| ==> s[|s| - |r| - 1] == sep)
  {
    if |s| > 0 && s[|s| - 1] != sep {
      var t := s[..|s| - 1];
      AfterLastIsSuffix(t, sep);
      assert s == t + [s[|s| - 1]];
    }
  }

  /** `s.substr(start, length)` for a non-negative start and length. */
  function Substr(s: string, start: nat, length: nat): (r: string)
    ensures start <= |s| ==> |r| == if start + length <= |s| then length else |s| - start
    ensures start > |s| ==> r == ""
    ensures forall i :: 0 <= i < |r| ==> start + i < |s| && r[i] == s[start + i]
  {
    if start >= |s| then ""
    else if start + length <= |s| then s[start..start + length]
    else s[start..]
  }
}
