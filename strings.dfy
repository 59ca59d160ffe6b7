/** String operations of the two runtimes that the core relies on: JavaScript's
    `trim`-emptiness, `String.prototype.replace` with a string pattern and `join`,
    and Python's `str.replace`, `str.lower` and `os.path.splitext`. */
module Strings {
  import opened Wrappers

  /** The characters JavaScript's `trim` removes: WhiteSpace and LineTerminator. */
  predicate IsJsWhitespace(c: char) {
    || c == ' ' || c == '\t' || c == '\n' || c == '\r'
    || c == '\U{000B}' || c == '\U{000C}' || c == '\U{00A0}' || c == '\U{FEFF}'
    || c == '\U{1680}' || ('\U{2000}' <= c <= '\U{200A}')
    || c == '\U{2028}' || c == '\U{2029}' || c == '\U{202F}' || c == '\U{205F}'
    || c == '\U{3000}'
  }

  /** `s.trim().length === 0`, equivalently `s.trim()` is falsy. */
  predicate IsBlank(s: string) {
    forall i :: 0 <= i < |s| ==> IsJsWhitespace(s[i])
  }

  predicate StartsWith(s: string, prefix: string) {
    |prefix| <= |s| && s[..|prefix|] == prefix
  }

  /** `pattern` occurs in `s` at index `i`. */
  predicate OccursAt(s: string, pattern: string, i: nat) {
    i + |pattern| <= |s| && s[i..i + |pattern|] == pattern
  }

  /** The index of the first occurrence of `pattern` in `s`, as `indexOf` finds it. */
  function IndexOf(s: string, pattern: string): (r: Option<nat>)
    ensures r.None? ==> forall i: nat :: !OccursAt(s, pattern, i)
    ensures r.Some? ==> OccursAt(s, pattern, r.value)
    ensures r.Some? ==> forall j: nat :: j < r.value ==> !OccursAt(s, pattern, j)
    decreases |s|
  {
    if StartsWith(s, pattern) then Some(0)
    else if |s| <= |pattern| then
      assert forall i: nat :: !OccursAt(s, pattern, i) by {
        forall i: nat ensures !OccursAt(s, pattern, i) {
          if i == 0 { assert !StartsWith(s, pattern); }
        }
      }
      None
    else
      var rest := IndexOf(s[1..], pattern);
      ShiftOccurrence(s, pattern);
      assert !OccursAt(s, pattern, 0);
      if rest.Some? then
        assert forall j: nat :: j < rest.value + 1 ==> !OccursAt(s, pattern, j) by {
          forall j: nat | j < rest.value + 1 ensures !OccursAt(s, pattern, j) {
            if j > 0 { assert !OccursAt(s[1..], pattern, j - 1); }
          }
        }
        Some(rest.value + 1)
      else
        assert forall j: nat :: !OccursAt(s, pattern, j) by {
          forall j: nat ensures !OccursAt(s, pattern, j) {
            if j > 0 { assert !OccursAt(s[1..], pattern, j - 1); }
          }
        }
        None
  }

  /** An occurrence at `i + 1` in `s` is one at `i` in `s[1..]`. */
  lemma ShiftOccurrence(s: string, pattern: string)
    requires |s| > 0
    ensures forall i: nat :: OccursAt(s, pattern, i + 1) <==> OccursAt(s[1..], pattern, i)
  {
    forall i: nat ensures OccursAt(s, pattern, i + 1) <==> OccursAt(s[1..], pattern, i) {
      if i + 1 + |pattern| <= |s| {
        var whole, tail := s[i + 1..i + 1 + |pattern|], s[1..][i..i + |pattern|];
        assert forall k :: 0 <= k < |whole| ==> whole[k] == tail[k];
        assert whole == tail;
      }
    }
  }

  /** JavaScript `s.replace(pattern, replacement)` with a string pattern: only the
      first occurrence is replaced. */
  function ReplaceFirst(s: string, pattern: string, replacement: string): string {
    match IndexOf(s, pattern)
    case None => s
    case Some(i) => s[..i] + replacement + s[i + |pattern|..]
  }

  /** Python `s.replace(pattern, replacement)` with a non-empty pattern: every
      non-overlapping occurrence, scanning left to right, is replaced. */
  function ReplaceAll(s: string, pattern: string, replacement: string): string
    requires pattern != []
    decreases |s|
  {
    if |s| < |pattern| then s
    else if s[..|pattern|] == pattern then replacement + ReplaceAll(s[|pattern|..], pattern, replacement)
    else [s[0]] + ReplaceAll(s[1..], pattern, replacement)
  }

  /** Removing a leading occurrence: JavaScript drops that one occurrence only. */
  lemma ReplaceFirstOfPrefixed(pattern: string, rest: string)
    ensures ReplaceFirst(pattern + rest, pattern, "") == rest
  {
    assert StartsWith(pattern + rest, pattern);
    assert (pattern + rest)[|pattern|..] == rest;
  }

  /** Python's replace keeps scanning after a leading occurrence. */
  lemma ReplaceAllOfPrefixed(pattern: string, rest: string, replacement: string)
    requires pattern != []
    ensures ReplaceAll(pattern + rest, pattern, replacement) == replacement + ReplaceAll(rest, pattern, replacement)
  {
    assert (pattern + rest)[..|pattern|] == pattern;
    assert (pattern + rest)[|pattern|..] == rest;
  }

  /** With no occurrence, both replacements leave the string unchanged. */
  lemma {:induction false} ReplaceWithoutOccurrence(s: string, pattern: string, replacement: string)
    requires pattern != []
    requires forall i: nat :: !OccursAt(s, pattern, i)
    ensures ReplaceFirst(s, pattern, replacement) == s
    ensures ReplaceAll(s, pattern, replacement) == s
    decreases |s|
  {
    if |s| >= |pattern| {
      assert !OccursAt(s, pattern, 0);
      assert s[..|pattern|] != pattern;
      ShiftOccurrence(s, pattern);
      assert forall i: nat :: !OccursAt(s[1..], pattern, i) by {
        forall i: nat ensures !OccursAt(s[1..], pattern, i) {
          assert !OccursAt(s, pattern, i + 1);
        }
      }
      ReplaceWithoutOccurrence(s[1..], pattern, replacement);
      assert [s[0]] + s[1..] == s;
    }
  }

  /** `parts.join(separator)` (JavaScript) and `separator.join(parts)` (Python). */
  function Join(parts: seq<string>, separator: string): (r: string)
    ensures parts == [] ==> r == ""
    ensures |parts| == 1 ==> r == parts[0]
  {
    if parts == [] then ""
    else if |parts| == 1 then parts[0]
    else parts[0] + separator + Join(parts[1..], separator)
  }

  /** Joining one more part adds the separator and that part at the end. */
  lemma {:induction false} JoinAppend(parts: seq<string>, p: string, separator: string)
    requires parts != []
    ensures Join(parts + [p], separator) == Join(parts, separator) + separator + p
  {
    if |parts| > 1 {
      assert (parts + [p])[1..] == parts[1..] + [p];
      JoinAppend(parts[1..], p, separator);
    }
  }

  /** Python `str.lower` on the ASCII letters. */
  function LowerChar(c: char): (r: char)
    ensures r == '.' <==> c == '.'
    ensures r == '/' <==> c == '/'
  {
    if 'A' <= c <= 'Z' then (c as int - 'A' as int + 'a' as int) as char else c
  }

  function Lower(s: string): (r: string)
    ensures |r| == |s|
    ensures forall i :: 0 <= i < |s| ==> r[i] == LowerChar(s[i])
  {
    seq(|s|, i requires 0 <= i < |s| => LowerChar(s[i]))
  }

  /** Python `s.rfind(c)`: the last index of `c`, or -1. */
  function LastIndex(s: string, c: char): (r: int)
    ensures -1 <= r < |s|
    ensures r >= 0 ==> s[r] == c
    ensures forall j :: r < j < |s| ==> s[j] != c
  {
    if s == [] then -1
    else if s[|s| - 1] == c then |s| - 1
    else LastIndex(s[..|s| - 1], c)
  }

  /** `LastIndex` only looks at where `c` stands. */
  lemma {:induction false} LastIndexSamePositions(s: string, t: string, c: char)
    requires |s| == |t|
    requires forall i :: 0 <= i < |s| ==> (s[i] == c <==> t[i] == c)
    ensures LastIndex(s, c) == LastIndex(t, c)
    decreases |s|
  {
    if s != [] && s[|s| - 1] != c {
      LastIndexSamePositions(s[..|s| - 1], t[..|t| - 1], c);
    }
  }

  /** The extension part of POSIX `os.path.splitext(path)`: from the last dot of
      the final path component, unless every character before that dot in the
      component is itself a dot (so `.txt` and `..txt` have no extension). */
  function SplitExt(path: string): (ext: string)
    ensures ext == [] || (ext[0] == '.' && |ext| <= |path| && ext == path[|path| - |ext|..])
    ensures forall i :: 0 <= i < |ext| ==> ext[i] != '/'
    ensures forall i :: 0 < i < |ext| ==> ext[i] != '.'
  {
    var sep := LastIndex(path, '/');
    var dot := LastIndex(path, '.');
    if dot > sep && exists k :: sep + 1 <= k < dot && path[k] != '.' then path[dot..] else ""
  }

  /** Some character strictly between `sep` and `dot` is not a dot. */
  predicate HasStem(path: string, sep: int, dot: int)
    requires -1 <= sep && dot <= |path|
  {
    exists k :: sep + 1 <= k < dot && path[k] != '.'
  }

  /** Case changes of ASCII letters do not move the dots and slashes `splitext` looks at,
      so the lowered extension of two such paths agrees. */
  lemma LowerSplitExtIgnoresCase(path: string, other: string)
    requires |path| == |other|
    requires forall i :: 0 <= i < |path| ==> LowerChar(path[i]) == LowerChar(other[i])
    ensures Lower(SplitExt(path)) == Lower(SplitExt(other))
  {
    LastIndexSamePositions(path, other, '/');
    LastIndexSamePositions(path, other, '.');
    var sep := LastIndex(path, '/');
    var dot := LastIndex(path, '.');
    if dot > sep {
      assert HasStem(path, sep, dot) <==> HasStem(other, sep, dot) by {
        if HasStem(path, sep, dot) {
          var k :| sep + 1 <= k < dot && path[k] != '.';
          assert other[k] != '.';
        }
        if HasStem(other, sep, dot) {
          var k :| sep + 1 <= k < dot && other[k] != '.';
          assert path[k] != '.';
        }
      }
      if HasStem(path, sep, dot) {
        var a, b := Lower(path[dot..]), Lower(other[dot..]);
        assert forall i :: 0 <= i < |a| ==> a[i] == b[i];
        assert a == b;
      }
    }
  }
}
