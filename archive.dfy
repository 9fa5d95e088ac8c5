/**
 * `packDir` and `unpackDir`: the archive member names that `tar` writes
 * under a renamed root, and the effective root that unpacking reports.
 */
module Archive {
  import opened Wrappers
  import opened Paths

  /** A tar member as `tarfile` reports it (directory names without trailing slash). */
  datatype Member = Member(name: string, isDir: bool)

  /** `unpackDir`'s return value, from the archive's members in stored order. */
  function UnpackRoot(destdir: string, members: seq<Member>): (root: Option<string>)
  {
    if members == [] then None
    else if members[0].isDir then Some(Join(destdir, members[0].name))
    else Some(destdir)
  }

  /**
   * The effective root is missing only for an empty archive, is the
   * destination itself for an archive that starts with a file, lies inside
   * the destination when the first member is a relative directory, and is
   * that directory itself when its name is absolute.
   */
  lemma UnpackRootSpec(destdir: string, members: seq<Member>)
    ensures UnpackRoot(destdir, members).None? <==> members == []
    ensures members != [] && !members[0].isDir ==> UnpackRoot(destdir, members) == Some(destdir)
    ensures members != [] && members[0].isDir && !IsAbs(members[0].name) ==>
      destdir <= UnpackRoot(destdir, members).value &&
      UnpackRoot(destdir, members).value[|UnpackRoot(destdir, members).value| - |members[0].name|..] == members[0].name
    ensures members != [] && members[0].isDir && IsAbs(members[0].name) ==>
      UnpackRoot(destdir, members) == Some(members[0].name)
  {
  }

  /** Does `pat` occur in `s` starting at position `i`? */
  predicate OccursAt(s: string, pat: string, i: nat) {
    i + |pat| <= |s| && s[i..i + |pat|] == pat
  }

  /** GNU sed's `s#pat#rep#` on one member name, with `pat` read literally. */
  function ReplaceFirst(s: string, pat: string, rep: string): (r: string)
    decreases |s|
  {
    if OccursAt(s, pat, 0) then rep + s[|pat|..]
    else if s == [] then s
    else [s[0]] + ReplaceFirst(s[1..], pat, rep)
  }

  /** `resultsDir.lstrip('/')`. */
  function StripLeadingSlashes(p: string): (r: string)
    ensures |r| <= |p| && r == p[|p| - |r|..] && (r == [] || r[0] != '/')
    ensures forall i :: 0 <= i < |p| - |r| ==> p[i] == '/'
    decreases |p|
  {
    if p != [] && p[0] == '/' then StripLeadingSlashes(p[1..]) else p
  }

  /**
   * The members `tar --transform s#D#base# -c -z -f dest resultsDir` writes:
   * the directory itself first, then each entry below it, every name with its
   * leading slashes removed and its first occurrence of `D` renamed to `base`,
   * where `D` is `resultsDir` without leading slashes.
   */
  function PackedMembers(resultsDir: string, base: string, entries: seq<Member>): (ms: seq<Member>)
    ensures |ms| == |entries| + 1
  {
    Renamed(StripLeadingSlashes(resultsDir), base, entries)
  }

  /** The members stored under `stored`, each with the first occurrence of `stored` renamed to `base`. */
  function Renamed(stored: string, base: string, entries: seq<Member>): (ms: seq<Member>)
    ensures |ms| == |entries| + 1
  {
    [Member(ReplaceFirst(stored, stored, base), true)]
      + seq(|entries|, i requires 0 <= i < |entries| =>
            Member(ReplaceFirst(stored + "/" + entries[i].name, stored, base), entries[i].isDir))
  }

  lemma ReplaceFirstAtStart(s: string, pat: string, rep: string)
    requires pat <= s
    ensures ReplaceFirst(s, pat, rep) == rep + s[|pat|..]
  {
    assert s[0..|pat|] == pat;
  }

  /**
   * Packing renames the root: every packed member lies under `base`, and
   * unpacking the result reports `destdir/base` as the effective root.
   */
  lemma {:induction false} PackThenUnpackRoot(resultsDir: string, base: string, entries: seq<Member>, destdir: string)
    ensures var ms := PackedMembers(resultsDir, base, entries);
      ms[0] == Member(base, true) &&
      (forall i :: 1 <= i < |ms| ==> ms[i].name == base + "/" + entries[i - 1].name) &&
      UnpackRoot(destdir, ms) == Some(Join(destdir, base))
  {
    RenamedUnderBase(StripLeadingSlashes(resultsDir), base, entries);
  }

  /** Renaming puts the root itself first, as `base`, and every entry below `base`. */
  lemma RenamedUnderBase(stored: string, base: string, entries: seq<Member>)
    ensures var ms := Renamed(stored, base, entries);
      ms[0] == Member(base, true) &&
      forall i :: 1 <= i < |ms| ==> ms[i].name == base + "/" + entries[i - 1].name
  {
    var ms := Renamed(stored, base, entries);
    ReplaceFirstAtStart(stored, stored, base);
    assert stored[|stored|..] == [];
    forall i | 1 <= i < |ms|
      ensures ms[i].name == base + "/" + entries[i - 1].name
    {
      var full := stored + "/" + entries[i - 1].name;
      ReplaceFirstAtStart(full, stored, base);
      assert full[|stored|..] == "/" + entries[i - 1].name;
    }
  }
}
