/**
 * Choice of the Nextflow engine version for a fetched workflow, and the
 * version-tuple test that decides whether the work directory must be
 * mounted explicitly inside the engine's own task containers.
 */
module Versions {
  import opened Wrappers
  import Paths

  /** Python's `a < b` on strings: lexicographic by code point. */
  predicate StrLess(a: string, b: string)
    decreases |a|
  {
    if |a| == 0 then |b| > 0
    else if |b| == 0 then false
    else if a[0] != b[0] then a[0] < b[0]
    else StrLess(a[1..], b[1..])
  }

  /** Python's `b >= a` on strings. */
  predicate StrLe(a: string, b: string) {
    a == b || StrLess(a, b)
  }

  lemma {:induction false} StrLessIrreflexive(a: string)
    ensures !StrLess(a, a)
    decreases |a|
  {
    if |a| > 0 { StrLessIrreflexive(a[1..]); }
  }

  /** Exactly one of `a < b`, `a == b`, `b < a` holds. */
  lemma {:induction false} StrLessTrichotomy(a: string, b: string)
    ensures StrLess(a, b) || a == b || StrLess(b, a)
    ensures !(StrLess(a, b) && StrLess(b, a))
    decreases |a|
  {
    if |a| > 0 && |b| > 0 && a[0] == b[0] {
      StrLessTrichotomy(a[1..], b[1..]);
      if a[1..] == b[1..] {
        assert a == [a[0]] + a[1..] && b == [b[0]] + b[1..];
      }
    }
  }

  lemma {:induction false} StrLessTransitive(a: string, b: string, c: string)
    requires StrLess(a, b) && StrLess(b, c)
    ensures StrLess(a, c)
    decreases |a|
  {
    if |a| > 0 && a[0] == b[0] && b[0] == c[0] {
      StrLessTransitive(a[1..], b[1..], c[1..]);
    }
  }

  /**
   * What the `nextflowVersion` pattern captured on one line: group 1, the
   * modifier (`!` and/or comparison characters), and group 2, the version.
   */
  datatype VersionDecl = VersionDecl(modifier: string, version: string)

  /** A modifier starting with `!` forces the declared version. */
  predicate Forced(d: VersionDecl) {
    |d.modifier| > 0 && d.modifier[0] == '!'
  }

  /** The first line of `nextflow.config` on which the pattern matched. */
  function FirstDecl(lines: seq<Option<VersionDecl>>): (r: Option<VersionDecl>)
    ensures r.None? <==> forall i :: 0 <= i < |lines| ==> lines[i].None?
    ensures r.Some? ==> exists i :: 0 <= i < |lines| && lines[i] == r
                          && forall j :: 0 <= j < i ==> lines[j].None?
  {
    if lines == [] then None
    else if lines[0].Some? then lines[0]
    else
      var r := FirstDecl(lines[1..]);
      assert forall i :: 1 <= i < |lines| ==> lines[i] == lines[1..][i - 1];
      r
  }

  /** The version to use, given the configured default and the first declaration. */
  function ChosenVersion(default: string, decl: Option<VersionDecl>): string
  {
    match decl
    case None => default
    case Some(d) =>
      if Forced(d) then d.version
      else if StrLe(default, d.version) then d.version
      else default
  }

  /**
   * The chosen version is the default when nothing was declared; a forced
   * declaration wins; otherwise it is the string maximum of default and
   * declaration, so never below the default.
   */
  lemma ChosenVersionSpec(default: string, decl: Option<VersionDecl>)
    ensures decl.None? ==> ChosenVersion(default, decl) == default
    ensures decl.Some? && Forced(decl.value) ==> ChosenVersion(default, decl) == decl.value.version
    ensures decl.Some? && !Forced(decl.value) ==>
      StrLe(default, ChosenVersion(default, decl)) &&
      StrLe(decl.value.version, ChosenVersion(default, decl)) &&
      (ChosenVersion(default, decl) == default || ChosenVersion(default, decl) == decl.value.version)
  {
    if decl.Some? && !Forced(decl.value) {
      StrLessTrichotomy(default, decl.value.version);
    }
  }

  /**
   * `guessNextflowVersion`: scan the lines of the workflow's `nextflow.config`
   * (`None` when the file cannot be read) and stop at the first match.
   */
  method GuessNextflowVersion(default: string, config: Option<seq<Option<VersionDecl>>>)
    returns (version: string)
    ensures config.None? ==> version == default
    ensures config.Some? ==> version == ChosenVersion(default, FirstDecl(config.value))
  {
    version := default;
    if config.None? {
      return;
    }
    var lines := config.value;
    var i := 0;
    while i < |lines|
      invariant 0 <= i <= |lines|
      invariant version == default
      invariant forall j :: 0 <= j < i ==> lines[j].None?
    {
      if lines[i].Some? {
        var d := lines[i].value;
        if Forced(d) {
          version := d.version;
        } else if StrLe(version, d.version) {
          version := d.version;
        }
        assert lines[i..][1..] == lines[i + 1..];
        FirstDeclAfterNone(lines, i);
        return;
      }
      i := i + 1;
    }
    FirstDeclAfterNone(lines, i);
  }

  /** Skipping lines that did not match does not change the first match. */
  lemma {:induction false} FirstDeclAfterNone(lines: seq<Option<VersionDecl>>, i: nat)
    requires i <= |lines|
    requires forall j :: 0 <= j < i ==> lines[j].None?
    ensures FirstDecl(lines) == FirstDecl(lines[i..])
    decreases i
  {
    if i > 0 {
      FirstDeclAfterNone(lines[1..], i - 1);
      assert lines[1..][i - 1..] == lines[i..];
    }
  }

  /** Python's `a < b` on tuples of strings. */
  predicate TupleLess(a: seq<string>, b: seq<string>)
    decreases |a|
  {
    if |a| == 0 then |b| > 0
    else if |b| == 0 then false
    else if a[0] != b[0] then StrLess(a[0], b[0])
    else TupleLess(a[1..], b[1..])
  }

  lemma {:induction false} TupleLessTransitive(a: seq<string>, b: seq<string>, c: seq<string>)
    requires TupleLess(a, b) && TupleLess(b, c)
    ensures TupleLess(a, c)
    decreases |a|
  {
    if |a| > 0 && |b| > 0 && |c| > 0 {
      if a[0] == b[0] && b[0] == c[0] {
        TupleLessTransitive(a[1..], b[1..], c[1..]);
      } else if a[0] != b[0] && b[0] != c[0] {
        StrLessTransitive(a[0], b[0], c[0]);
        if a[0] == c[0] { StrLessTrichotomy(a[0], b[0]); }
      }
    }
  }

  const WorkdirMountBound: seq<string> := ["20", "07", "1"]

  /**
   * `tuple(version.split(".")) < ("20", "07", "1")`: engines older than
   * 20.07.1 need the work directory mounted in their task containers.
   */
  predicate NeedsWorkdirVolume(version: string) {
    TupleLess(Paths.Split(version, '.'), WorkdirMountBound)
  }

  /**
   * The test is downward closed: a version whose tuple sorts before one that
   * needs the mount needs it too.
   */
  lemma NeedsWorkdirVolumeDownward(v: string, w: string)
    requires NeedsWorkdirVolume(w)
    requires TupleLess(Paths.Split(v, '.'), Paths.Split(w, '.'))
    ensures NeedsWorkdirVolume(v)
  {
    TupleLessTransitive(Paths.Split(v, '.'), Paths.Split(w, '.'), WorkdirMountBound);
  }

  /** A dotted triple splits into its three components. */
  lemma SplitVersion(major: string, minor: string, patch: string)
    requires '.' !in major && '.' !in minor && '.' !in patch
    ensures Paths.Split(major + "." + minor + "." + patch, '.') == [major, minor, patch]
  {
    var parts := [major, minor, patch];
    assert forall i :: 0 <= i < |parts| ==> '.' !in parts[i];
    Paths.SplitJoin(parts, '.');
    var tail := Paths.JoinWith([minor, patch], '.');
    assert tail == minor + "." + patch by {
      assert [minor, patch][1..] == [patch];
      assert Paths.JoinWith([patch], '.') == patch;
    }
    assert Paths.JoinWith(parts, '.') == major + "." + tail by {
      assert parts[1..] == [minor, patch];
    }
    assert major + "." + tail == major + "." + minor + "." + patch;
  }

  /** The built-in default 19.04.1 needs the mount; 20.07.1 itself does not. */
  lemma NeedsWorkdirVolumeExamples()
    ensures NeedsWorkdirVolume("19.04.1")
    ensures !NeedsWorkdirVolume("20.07.1")
    ensures !NeedsWorkdirVolume("22.10.0")
  {
    DefaultNeedsMount();
    BoundNeedsNoMount();
    LaterNeedsNoMount();
  }

  lemma DefaultNeedsMount()
    ensures NeedsWorkdirVolume("19.04.1")
  {
    SplitVersion("19", "04", "1");
    assert "19" + "." + "04" + "." + "1" == "19.04.1";
  }

  lemma BoundNeedsNoMount()
    ensures !NeedsWorkdirVolume("20.07.1")
  {
    SplitVersion("20", "07", "1");
    assert "20" + "." + "07" + "." + "1" == "20.07.1";
    StrLessIrreflexive("20");
  }

  lemma LaterNeedsNoMount()
    ensures !NeedsWorkdirVolume("22.10.0")
  {
    SplitVersion("22", "10", "0");
    assert "22" + "." + "10" + "." + "0" == "22.10.0";
  }
}
