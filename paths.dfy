/**
 * POSIX path strings as the runner manipulates them with `os.path`:
 * `join`, `normpath`, `commonprefix`, and `str.split`.
 */
module Paths {

  /** `os.path.isabs` on POSIX: the path starts with a slash. */
  predicate IsAbs(p: string) {
    |p| > 0 && p[0] == '/'
  }

  /** `p.endswith('/')`. */
  predicate EndsWithSlash(p: string) {
    |p| > 0 && p[|p| - 1] == '/'
  }

  /** `os.path.join(a, b)` for two components. */
  function Join(a: string, b: string): (r: string)
    ensures IsAbs(b) ==> r == b
    ensures !IsAbs(b) ==> a <= r && |r| >= |a| + |b| && r[|r| - |b|..] == b
    ensures IsAbs(a) ==> IsAbs(r)
  {
    if IsAbs(b) then b
    else if a == [] || EndsWithSlash(a) then a + b
    else a + "/" + b
  }

  /** `s.split(sep)`: the pieces between separators, always at least one. */
  function Split(s: string, sep: char): (r: seq<string>)
    ensures |r| >= 1
    ensures forall i :: 0 <= i < |r| ==> sep !in r[i]
    decreases |s|
  {
    if |s| == 0 then [""]
    else if s[0] == sep then [""] + Split(s[1..], sep)
    else
      var rest := Split(s[1..], sep);
      [[s[0]] + rest[0]] + rest[1..]
  }

  /** `sep.join(parts)`. */
  function JoinWith(parts: seq<string>, sep: char): string
    decreases |parts|
  {
    if |parts| == 0 then ""
    else if |parts| == 1 then parts[0]
    else parts[0] + [sep] + JoinWith(parts[1..], sep)
  }

  /** Splitting and re-joining gives back the string. */
  lemma {:induction false} JoinSplit(s: string, sep: char)
    ensures JoinWith(Split(s, sep), sep) == s
    decreases |s|
  {
    if |s| > 0 {
      JoinSplit(s[1..], sep);
      var rest := Split(s[1..], sep);
      if s[0] == sep {
        assert Split(s, sep)[1..] == rest;
      } else if |rest| == 1 {
        assert s == [s[0]] + s[1..];
      } else {
        assert Split(s, sep)[1..] == rest[1..];
        assert JoinWith(rest, sep) == rest[0] + [sep] + JoinWith(rest[1..], sep);
        assert s == [s[0]] + s[1..];
      }
    }
  }

  /** A string without the separator splits into itself. */
  lemma {:induction false} SplitNoSep(x: string, sep: char)
    requires sep !in x
    ensures Split(x, sep) == [x]
    decreases |x|
  {
    if |x| > 0 {
      assert sep !in x[1..] by { assert forall i :: 0 <= i < |x| - 1 ==> x[1..][i] == x[i + 1]; }
      SplitNoSep(x[1..], sep);
      assert x == [x[0]] + x[1..];
    }
  }

  /** Splitting at the first separator. */
  lemma {:induction false} SplitAtSep(x: string, y: string, sep: char)
    requires sep !in x
    ensures Split(x + [sep] + y, sep) == [x] + Split(y, sep)
    decreases |x|
  {
    if |x| == 0 {
      assert x + [sep] + y == [sep] + y;
      assert (x + [sep] + y)[1..] == y;
    } else {
      assert sep !in x[1..] by { assert forall i :: 0 <= i < |x| - 1 ==> x[1..][i] == x[i + 1]; }
      SplitAtSep(x[1..], y, sep);
      assert (x + [sep] + y)[1..] == x[1..] + [sep] + y;
      assert x == [x[0]] + x[1..];
    }
  }

  /** Joining separator-free pieces and splitting again gives back the pieces. */
  lemma {:induction false} SplitJoin(parts: seq<string>, sep: char)
    requires |parts| >= 1
    requires forall i :: 0 <= i < |parts| ==> sep !in parts[i]
    ensures Split(JoinWith(parts, sep), sep) == parts
    decreases |parts|
  {
    if |parts| == 1 {
      SplitNoSep(parts[0], sep);
    } else {
      SplitJoin(parts[1..], sep);
      SplitAtSep(parts[0], JoinWith(parts[1..], sep), sep);
      assert parts == [parts[0]] + parts[1..];
    }
  }

  /** Two strings with the same pieces are the same string. */
  lemma SplitInjective(s: string, t: string, sep: char)
    requires Split(s, sep) == Split(t, sep)
    ensures s == t
  {
    JoinSplit(s, sep);
    JoinSplit(t, sep);
  }

  /** Number of leading slashes `posixpath.normpath` keeps: two exactly when there are exactly two. */
  function InitialSlashes(p: string): (n: nat)
    ensures n <= 2
    ensures n > 0 <==> IsAbs(p)
  {
    if !IsAbs(p) then 0
    else if |p| >= 2 && p[1] == '/' && !(|p| >= 3 && p[2] == '/') then 2
    else 1
  }

  /** One step of `normpath`'s component loop: drop empty and `.`, resolve `..`. */
  function NormStep(acc: seq<string>, comp: string, absolute: bool): seq<string>
  {
    if comp == "" || comp == "." then acc
    else if comp != ".." || (!absolute && acc == []) || (acc != [] && acc[|acc| - 1] == "..") then acc + [comp]
    else if acc != [] then acc[..|acc| - 1]
    else acc
  }

  function NormComponents(acc: seq<string>, comps: seq<string>, absolute: bool): seq<string>
    decreases |comps|
  {
    if comps == [] then acc else NormComponents(NormStep(acc, comps[0], absolute), comps[1..], absolute)
  }

  /** Components that `normpath` can emit: non-empty and slash-free. */
  ghost predicate CleanComponents(cs: seq<string>) {
    forall i :: 0 <= i < |cs| ==> cs[i] != "" && '/' !in cs[i]
  }

  lemma {:induction false} NormComponentsClean(acc: seq<string>, comps: seq<string>, absolute: bool)
    requires CleanComponents(acc)
    requires forall i :: 0 <= i < |comps| ==> '/' !in comps[i]
    ensures CleanComponents(NormComponents(acc, comps, absolute))
    decreases |comps|
  {
    if comps != [] {
      NormComponentsClean(NormStep(acc, comps[0], absolute), comps[1..], absolute);
    }
  }

  function Slashes(n: nat): (r: string)
    ensures |r| == n && forall i :: 0 <= i < n ==> r[i] == '/'
  {
    if n == 0 then "" else "/" + Slashes(n - 1)
  }

  /** `os.path.normpath` (POSIX). */
  function NormPath(p: string): string
  {
    if p == "" then "."
    else
      var n := InitialSlashes(p);
      var r := Slashes(n) + JoinWith(NormComponents([], Split(p, '/'), n > 0), '/');
      if r == "" then "." else r
  }

  /** Joining clean components never starts or ends with a slash. */
  lemma {:induction false} JoinCleanEnds(cs: seq<string>)
    requires CleanComponents(cs)
    ensures var j := JoinWith(cs, '/');
      (cs == [] <==> j == "") && (j != "" ==> j[0] != '/' && j[|j| - 1] != '/')
    decreases |cs|
  {
    if |cs| > 1 {
      JoinCleanEnds(cs[1..]);
      assert cs[0] != "" && '/' !in cs[0];
      assert cs[0][0] in cs[0];
    } else if |cs| == 1 {
      assert cs[0][0] in cs[0] && cs[0][|cs[0]| - 1] in cs[0];
    }
  }

  /**
   * `normpath` keeps a path absolute or relative, and strips every trailing
   * slash except from the root itself (`/` or `//`).
   */
  lemma NormPathShape(p: string)
    ensures IsAbs(NormPath(p)) <==> IsAbs(p)
    ensures EndsWithSlash(NormPath(p)) ==> NormPath(p) == "/" || NormPath(p) == "//"
  {
    if p != "" {
      var n := InitialSlashes(p);
      var cs := NormComponents([], Split(p, '/'), n > 0);
      NormComponentsClean([], Split(p, '/'), n > 0);
      JoinCleanEnds(cs);
      var j := JoinWith(cs, '/');
      var r := Slashes(n) + j;
      assert NormPath(p) == if r == "" then "." else r;
      if j != "" {
        assert r[|r| - 1] == j[|j| - 1];
        if n == 0 { assert r == j; }
      } else {
        assert r == Slashes(n);
        if n == 2 { assert r == "//"; } else if n == 1 { assert r == "/"; }
      }
    }
  }

  /** `os.path.commonprefix([a, b])`: the longest common character prefix. */
  function CommonPrefix(a: string, b: string): (r: string)
    ensures r <= a && r <= b
    ensures |r| == |a| || |r| == |b| || a[|r|] != b[|r|]
    decreases |a|
  {
    if a == [] || b == [] || a[0] != b[0] then ""
    else [a[0]] + CommonPrefix(a[1..], b[1..])
  }

  /** The common prefix of `a` and `b` is `b` exactly when `b` is a prefix of `a`. */
  lemma CommonPrefixIsSecond(a: string, b: string)
    ensures CommonPrefix(a, b) == b <==> b <= a
  {
  }
}
