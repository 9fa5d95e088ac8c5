/**
 * How the runner plans a containerised Nextflow execution: which
 * configuration keys become workflow parameters, how input and output
 * locations are resolved, and which of them are bind-mounted into the
 * container and with which mode.
 *
 * The filesystem is observed only through the predicates of an `Fs` value,
 * which does not change while a plan is made.
 */
module Planner {
  import opened Wrappers
  import Paths

  /** A configuration scalar once list values have been joined into text. */
  datatype Value = Text(s: string) | Flag(b: bool) | Number(n: int)

  /** The configuration key under which the directory of the configuration file is passed. */
  const ConfigDirKey := "__config_dir__"

  /** Configuration keys that steer the runner itself and are never passed to the workflow. */
  const MaskedKeys: set<string> := {
    "execution", "project", "description",
    "nextflow_repo_uri", "nextflow_repo_tag", "nextflow_repo_reldir", "nextflow_repo_profile",
    ConfigDirKey
  }

  /** Bind-mount modes. */
  const ReadOnly := "ro,rprivate,z"
  const ReadWrite := "rw,rprivate,z"
  const OutputMode := "rprivate,z"

  /** What the runner can observe about a path: `os.path.exists`, `isfile`, `isdir`. */
  datatype Fs = Fs(present: string -> bool, isFile: string -> bool, isDir: string -> bool)

  // ---------------------------------------------------------------------
  // Configuration parameters
  // ---------------------------------------------------------------------

  /** The configuration pairs passed on as workflow parameters, in configuration order. */
  function Unmasked(config: seq<(string, Value)>): (r: seq<(string, Value)>)
    ensures |r| <= |config|
    decreases |config|
  {
    if config == [] then []
    else
      var last := config[|config| - 1];
      Unmasked(config[..|config| - 1]) + (if last.0 in MaskedKeys then [] else [last])
  }

  /** A pair is passed on exactly when it is in the configuration under an unmasked key. */
  lemma {:induction false} UnmaskedMembers(config: seq<(string, Value)>)
    ensures forall kv :: kv in Unmasked(config) <==> kv in config && kv.0 !in MaskedKeys
    decreases |config|
  {
    if config != [] {
      var init := config[..|config| - 1];
      UnmaskedMembers(init);
      assert config == init + [config[|config| - 1]];
    }
  }

  /** Filtering keeps configuration order: it distributes over concatenation. */
  lemma {:induction false} UnmaskedAppend(a: seq<(string, Value)>, b: seq<(string, Value)>)
    ensures Unmasked(a + b) == Unmasked(a) + Unmasked(b)
    decreases |b|
  {
    if b != [] {
      var init := b[..|b| - 1];
      UnmaskedAppend(a, init);
      assert (a + b)[..|a + b| - 1] == a + init;
      assert (a + b)[|a + b| - 1] == b[|b| - 1];
    } else {
      assert a + b == a;
    }
  }

  /** The loop over the configuration keys that collects the non-masked ones. */
  method ConfigParams(config: seq<(string, Value)>) returns (ps: seq<(string, Value)>)
    ensures ps == Unmasked(config)
  {
    ps := [];
    var i := 0;
    while i < |config|
      invariant 0 <= i <= |config|
      invariant ps == Unmasked(config[..i])
    {
      assert config[..i + 1][..i] == config[..i];
      if config[i].0 !in MaskedKeys {
        ps := ps + [config[i]];
      }
      i := i + 1;
    }
    assert config[..i] == config;
  }

  // ---------------------------------------------------------------------
  // Trailing slashes
  // ---------------------------------------------------------------------

  /**
   * The slash normalisation applied to every mounted path that exists: an
   * existing file loses one trailing slash, an existing directory gains one.
   */
  function SlashNormalised(p: string, fs: Fs): string
  {
    if fs.present(p) then
      if Paths.EndsWithSlash(p) && fs.isFile(p) then p[..|p| - 1]
      else if !Paths.EndsWithSlash(p) && fs.isDir(p) then p + "/"
      else p
    else p
  }

  /**
   * For a path that is not both a file and a directory, an existing directory
   * ends up with a trailing slash, an existing file without one (unless it
   * was written with two), and anything else is unchanged; the result never
   * differs from the path by more than one trailing slash.
   */
  lemma SlashNormalisedSpec(p: string, fs: Fs)
    requires !(fs.isFile(p) && fs.isDir(p))
    ensures var r := SlashNormalised(p, fs);
      (fs.present(p) && fs.isDir(p) ==> Paths.EndsWithSlash(r)) &&
      (fs.present(p) && fs.isFile(p) && !(|p| >= 2 && p[|p| - 2] == '/') ==> !Paths.EndsWithSlash(r)) &&
      (!fs.present(p) || (!fs.isFile(p) && !fs.isDir(p)) ==> r == p) &&
      (r == p || r == p + "/" || r + "/" == p)
  {
  }

  // ---------------------------------------------------------------------
  // Inputs
  // ---------------------------------------------------------------------

  /** An input location: absolute ones are kept, relative ones are resolved against the project. */
  function ResolveInput(project: string, p: string): (r: string)
    ensures Paths.IsAbs(p) ==> r == p
    ensures Paths.IsAbs(project) ==> Paths.IsAbs(r)
  {
    if Paths.IsAbs(p) then p
    else
      Paths.NormPathShape(Paths.Join(project, p));
      Paths.NormPath(Paths.Join(project, p))
  }

  /** The resolution applied to every input location. */
  function ResolverIn(project: string): string -> string {
    p => ResolveInput(project, p)
  }

  /** The inputs with their locations resolved, in input order. */
  function Resolved(project: string, inputs: seq<(string, string)>): (rs: seq<(string, string)>)
    ensures |rs| == |inputs|
  {
    MapValues(inputs, ResolverIn(project))
  }

  /** The keys of the resolved inputs that do not exist, in input order. */
  function Missing(rs: seq<(string, string)>, fs: Fs): (keys: seq<string>)
    ensures |keys| <= |rs|
    decreases |rs|
  {
    if rs == [] then []
    else
      var last := rs[|rs| - 1];
      Missing(rs[..|rs| - 1], fs) + (if fs.present(last.1) then [] else [last.0])
  }

  /** No input is reported missing exactly when every resolved input exists. */
  lemma {:induction false} MissingEmpty(rs: seq<(string, string)>, fs: Fs)
    ensures Missing(rs, fs) == [] <==> forall i :: 0 <= i < |rs| ==> fs.present(rs[i].1)
    decreases |rs|
  {
    if rs != [] {
      MissingEmpty(rs[..|rs| - 1], fs);
      assert forall i :: 0 <= i < |rs| - 1 ==> rs[..|rs| - 1][i] == rs[i];
    }
  }

  /** Every key reported missing belongs to an input whose resolved path does not exist. */
  lemma {:induction false} MissingKeys(rs: seq<(string, string)>, fs: Fs)
    ensures forall k :: k in Missing(rs, fs) ==> exists i :: 0 <= i < |rs| && rs[i].0 == k && !fs.present(rs[i].1)
    decreases |rs|
  {
    if rs != [] {
      var init := rs[..|rs| - 1];
      MissingKeys(init, fs);
      forall k | k in Missing(rs, fs)
        ensures exists i :: 0 <= i < |rs| && rs[i].0 == k && !fs.present(rs[i].1)
      {
        if k in Missing(init, fs) {
          var i :| 0 <= i < |init| && init[i].0 == k && !fs.present(init[i].1);
          assert rs[i] == init[i];
        } else {
          assert rs[|rs| - 1].0 == k && !fs.present(rs[|rs| - 1].1);
        }
      }
    }
  }

  /** The loop that resolves every input and records the keys of those that do not exist. */
  method ResolveInputs(project: string, inputs: seq<(string, string)>, fs: Fs)
    returns (rs: seq<(string, string)>, failed: seq<string>)
    ensures rs == Resolved(project, inputs)
    ensures failed == Missing(rs, fs)
  {
    rs, failed := [], [];
    var i := 0;
    while i < |inputs|
      invariant 0 <= i <= |inputs|
      invariant rs == Resolved(project, inputs[..i])
      invariant failed == Missing(rs, fs)
    {
      var abs := ResolveInput(project, inputs[i].1);
      MapValuesSnoc(inputs, i, ResolverIn(project));
      MissingSnoc(rs, (inputs[i].0, abs), fs);
      if !fs.present(abs) {
        failed := failed + [inputs[i].0];
      }
      rs := rs + [(inputs[i].0, abs)];
      i := i + 1;
    }
    assert inputs[..i] == inputs;
  }

  /** Resolving one more input reports its key after the earlier ones exactly when its path does not exist. */
  lemma MissingSnoc(rs: seq<(string, string)>, r: (string, string), fs: Fs)
    ensures Missing(rs + [r], fs) == Missing(rs, fs) + (if fs.present(r.1) then [] else [r.0])
  {
    assert (rs + [r])[..|rs|] == rs;
  }

  /** One read-only mount per input, at its slash-normalised path. */
  function InputMounts(rs: seq<(string, string)>, fs: Fs): (ms: seq<(string, string)>)
    ensures |ms| == |rs|
  {
    seq(|rs|, i requires 0 <= i < |rs| => (SlashNormalised(rs[i].1, fs), ReadOnly))
  }

  /** One parameter per input, carrying the same slash-normalised path. */
  function InputParams(rs: seq<(string, string)>, fs: Fs): (ps: seq<(string, Value)>)
    ensures |ps| == |rs|
  {
    seq(|rs|, i requires 0 <= i < |rs| => (rs[i].0, Text(SlashNormalised(rs[i].1, fs))))
  }

  /**
   * Each input gives one read-only mount and one parameter naming the same
   * path; for an input that is not both a file and a directory, that path ends
   * with a slash when it is an existing directory.
   */
  lemma InputsPairUp(rs: seq<(string, string)>, fs: Fs, i: int)
    requires 0 <= i < |rs|
    requires !(fs.isFile(rs[i].1) && fs.isDir(rs[i].1))
    ensures InputMounts(rs, fs)[i].1 == ReadOnly
    ensures InputParams(rs, fs)[i] == (rs[i].0, Text(InputMounts(rs, fs)[i].0))
    ensures fs.present(rs[i].1) && fs.isDir(rs[i].1) ==> Paths.EndsWithSlash(InputMounts(rs, fs)[i].0)
    ensures !fs.present(rs[i].1) ==> InputMounts(rs, fs)[i].0 == rs[i].1
  {
    SlashNormalisedSpec(rs[i].1, fs);
  }

  /** The loop that adds the input mounts and parameters. */
  method MountInputs(rs: seq<(string, string)>, fs: Fs)
    returns (mounts: seq<(string, string)>, params: seq<(string, Value)>)
    ensures mounts == InputMounts(rs, fs)
    ensures params == InputParams(rs, fs)
  {
    mounts, params := [], [];
    var i := 0;
    while i < |rs|
      invariant 0 <= i <= |rs|
      invariant mounts == InputMounts(rs, fs)[..i]
      invariant params == InputParams(rs, fs)[..i]
    {
      var loc := SlashNormalised(rs[i].1, fs);
      mounts := mounts + [(loc, ReadOnly)];
      params := params + [(rs[i].0, Text(loc))];
      i := i + 1;
    }
  }

  // ---------------------------------------------------------------------
  // Outputs
  // ---------------------------------------------------------------------

  /** `p` is `root` or lies below it, component-wise. */
  predicate UnderRoot(p: string, root: string) {
    p == root || (if Paths.EndsWithSlash(root) then root <= p else root + "/" <= p)
  }

  /** The subsumption test as written: a character-wise common prefix. */
  predicate SubsumedAsWritten(loc: string, exec: string) {
    Paths.CommonPrefix(Paths.NormPath(loc), exec) == exec
  }

  /** The subsumption test as intended: the normalised location lies in the execution directory. */
  predicate Subsumed(loc: string, exec: string) {
    UnderRoot(Paths.NormPath(loc), exec)
  }

  /** The intended test only drops outputs that the written test drops too. */
  lemma SubsumedRefinesAsWritten(loc: string, exec: string)
    ensures Subsumed(loc, exec) ==> SubsumedAsWritten(loc, exec)
  {
    Paths.CommonPrefixIsSecond(Paths.NormPath(loc), exec);
  }

  /**
   * For an execution directory without a trailing slash, the intended test is
   * the written one plus a component boundary right after the prefix.
   */
  lemma SubsumedIsBoundedPrefix(loc: string, exec: string)
    requires !Paths.EndsWithSlash(exec)
    ensures var n := Paths.NormPath(loc);
      Subsumed(loc, exec) <==> SubsumedAsWritten(loc, exec) && (|n| == |exec| || n[|exec|] == '/')
  {
    var n := Paths.NormPath(loc);
    Paths.CommonPrefixIsSecond(n, exec);
    if SubsumedAsWritten(loc, exec) && |n| > |exec| && n[|exec|] == '/' {
      assert n[..|exec| + 1] == exec + "/";
    }
    if exec + "/" <= n {
      assert n[|exec|] == (exec + "/")[|exec|];
    }
  }

  /** Splitting a path whose components are `a`, `b` and `c`. */
  lemma SplitThree(a: string, b: string, c: string)
    requires '/' !in a && '/' !in b && '/' !in c
    ensures Paths.Split("/" + (a + "/" + (b + "/" + c)), '/') == ["", a, b, c]
  {
    var bc := b + "/" + c;
    var abc := a + "/" + bc;
    Paths.SplitNoSep(c, '/');
    Paths.SplitAtSep(b, c, '/');
    Paths.SplitAtSep(a, bc, '/');
    Paths.SplitAtSep("", abc, '/');
    assert "" + "/" + abc == "/" + abc;
  }

  lemma NormPathOfThree(a: string, b: string, c: string)
    requires '/' !in a && '/' !in b && '/' !in c
    requires a != "" && a != "." && a != ".."
    requires b != "" && b != "." && b != ".."
    requires c != "" && c != "." && c != ".."
    ensures var p := "/" + (a + "/" + (b + "/" + c));
      Paths.NormPath(p) == p
  {
    var p := "/" + (a + "/" + (b + "/" + c));
    SplitThree(a, b, c);
    assert p[0] == '/' && p[1] == a[0];
    assert Paths.InitialSlashes(p) == 1;
    var cs := ["", a, b, c];
    assert cs[1..] == [a, b, c] && [a, b, c][1..] == [b, c] && [b, c][1..] == [c] && [c][1..] == [];
    assert Paths.NormStep([a, b], c, true) == [a, b, c];
    assert Paths.NormComponents([a, b], [c], true) == [a, b, c];
    assert Paths.NormStep([a], b, true) == [a, b];
    assert Paths.NormComponents([a], [b, c], true) == [a, b, c];
    assert Paths.NormStep([], a, true) == [a];
    assert Paths.NormComponents([], [a, b, c], true) == [a, b, c];
    assert Paths.NormComponents([], cs, true) == [a, b, c];
    assert Paths.JoinWith([c], '/') == c;
    assert Paths.JoinWith([b, c], '/') == b + "/" + c;
    assert Paths.JoinWith([a, b, c], '/') == a + "/" + (b + "/" + c);
    assert Paths.Slashes(1) == "/";
  }

  /**
   * An output in a sibling directory whose name extends the execution
   * directory's last component (`/a/bx/c` beside `/a/b`) passes the written
   * test but is not inside the execution directory.
   */
  lemma SiblingPassesAsWritten(a: string, b: string, x: string, c: string)
    requires '/' !in a && '/' !in b && '/' !in x && '/' !in c
    requires a != "" && a != "." && a != ".."
    requires b != "" && x != "" && b + x != "." && b + x != ".."
    requires c != "" && c != "." && c != ".."
    ensures var exec := "/" + (a + "/" + b);
      var loc := "/" + (a + "/" + ((b + x) + "/" + c));
      SubsumedAsWritten(loc, exec) && !Subsumed(loc, exec)
  {
    var exec := "/" + (a + "/" + b);
    var loc := "/" + (a + "/" + ((b + x) + "/" + c));
    NormPathOfThree(a, b + x, c);
    assert loc == exec + x + "/" + c;
    assert exec <= loc;
    assert loc[|exec|] == x[0] && x[0] in x;
    assert !Paths.EndsWithSlash(exec) by { assert exec[|exec| - 1] == b[|b| - 1] && b[|b| - 1] in b; }
    Paths.CommonPrefixIsSecond(loc, exec);
    SubsumedIsBoundedPrefix(loc, exec);
  }

  /**
   * An output at `/data/run2/out.json` is taken to be inside the execution
   * directory `/data/run` by the written test, although it is not.
   */
  lemma SubsumedAsWrittenCounterexample(loc: string, exec: string)
    requires loc == "/data/run2/out.json" && exec == "/data/run"
    ensures SubsumedAsWritten(loc, exec) && !Subsumed(loc, exec)
  {
    SiblingPassesAsWritten("data", "run", "2", "out.json");
    CounterexampleSpelling();
  }

  lemma CounterexampleSpelling()
    ensures "/" + ("data" + "/" + "run") == "/data/run"
    ensures "/" + ("data" + "/" + (("run" + "2") + "/" + "out.json")) == "/data/run2/out.json"
  {
  }

  /**
   * The test deciding that an output is covered by the execution directory's
   * mount and needs none of its own: the character-wise one the runner
   * applies, or the component-wise one it evidently intends.
   */
  datatype OutputTest = CharacterWise | ComponentWise

  predicate Skips(test: OutputTest, loc: string, exec: string) {
    match test
    case CharacterWise => SubsumedAsWritten(loc, exec)
    case ComponentWise => Subsumed(loc, exec)
  }

  /** The location written to an output's parameter, and mounted when the test does not skip it. */
  function OutputLocation(test: OutputTest, loc: string, exec: string, fs: Fs): string {
    if Skips(test, loc, exec) then loc else SlashNormalised(loc, fs)
  }

  /** The mounts added for the outputs: one per output the test does not skip, in output order. */
  function OutputMounts(test: OutputTest, outs: seq<(string, string)>, exec: string, fs: Fs): (ms: seq<(string, string)>)
    ensures |ms| <= |outs|
  {
    MountsUnless(SkipsIn(test, exec), outs, fs)
  }

  /** The test as a predicate on locations. */
  function SkipsIn(test: OutputTest, exec: string): string -> bool {
    loc => Skips(test, loc, exec)
  }

  /** One output mount per location `skip` does not hold of, in output order. */
  function MountsUnless(skip: string -> bool, outs: seq<(string, string)>, fs: Fs): (ms: seq<(string, string)>)
    ensures |ms| <= |outs|
    decreases |outs|
  {
    if outs == [] then []
    else
      var last := outs[|outs| - 1];
      MountsUnless(skip, outs[..|outs| - 1], fs) +
      (if skip(last.1) then [] else [(SlashNormalised(last.1, fs), OutputMode)])
  }

  /** One more output adds its mount exactly when `skip` does not hold of it. */
  lemma MountsUnlessSnoc(skip: string -> bool, outs: seq<(string, string)>, i: nat, fs: Fs)
    requires i < |outs|
    ensures MountsUnless(skip, outs[..i + 1], fs) ==
      MountsUnless(skip, outs[..i], fs) + (if skip(outs[i].1) then [] else [(SlashNormalised(outs[i].1, fs), OutputMode)])
  {
    assert outs[..i + 1][..i] == outs[..i];
  }

  /** Every mount is the slash-normalised location of an output `skip` does not hold of. */
  lemma {:induction false} MountsUnlessSound(skip: string -> bool, outs: seq<(string, string)>, fs: Fs)
    ensures forall m :: m in MountsUnless(skip, outs, fs) ==>
      m.1 == OutputMode && exists i :: 0 <= i < |outs| && !skip(outs[i].1) && m.0 == SlashNormalised(outs[i].1, fs)
    decreases |outs|
  {
    if outs != [] {
      var k := |outs| - 1;
      var init := outs[..k];
      MountsUnlessSound(skip, init, fs);
      forall m | m in MountsUnless(skip, outs, fs)
        ensures m.1 == OutputMode
        ensures exists i :: 0 <= i < |outs| && !skip(outs[i].1) && m.0 == SlashNormalised(outs[i].1, fs)
      {
        if m in MountsUnless(skip, init, fs) {
          var i :| 0 <= i < |init| && !skip(init[i].1) && m.0 == SlashNormalised(init[i].1, fs);
          assert outs[i] == init[i];
        } else {
          assert !skip(outs[k].1) && m.0 == SlashNormalised(outs[k].1, fs);
        }
      }
    }
  }

  /** Every output `skip` does not hold of gets its mount. */
  lemma {:induction false} MountsUnlessComplete(skip: string -> bool, outs: seq<(string, string)>, fs: Fs)
    ensures forall i :: 0 <= i < |outs| && !skip(outs[i].1) ==>
      (SlashNormalised(outs[i].1, fs), OutputMode) in MountsUnless(skip, outs, fs)
    decreases |outs|
  {
    if outs != [] {
      var init := outs[..|outs| - 1];
      MountsUnlessComplete(skip, init, fs);
      forall i | 0 <= i < |outs| && !skip(outs[i].1)
        ensures (SlashNormalised(outs[i].1, fs), OutputMode) in MountsUnless(skip, outs, fs)
      {
        if i < |init| {
          assert outs[i] == init[i];
        }
      }
    }
  }

  /** The parameter value given to an output location. */
  function LocationParam(test: OutputTest, exec: string, fs: Fs): string -> Value {
    loc => Text(OutputLocation(test, loc, exec, fs))
  }

  /** The parameters added for the outputs: one per output, in output order. */
  function OutputParams(test: OutputTest, outs: seq<(string, string)>, exec: string, fs: Fs): (ps: seq<(string, Value)>)
    ensures |ps| == |outs|
  {
    MapValues(outs, LocationParam(test, exec, fs))
  }

  /**
   * Every output mount has the output mode and is the slash-normalised
   * location of an output the test does not skip.
   */
  lemma OutputMountsSound(test: OutputTest, outs: seq<(string, string)>, exec: string, fs: Fs)
    ensures forall m :: m in OutputMounts(test, outs, exec, fs) ==>
      m.1 == OutputMode &&
      exists i :: 0 <= i < |outs| && !Skips(test, outs[i].1, exec) && m.0 == SlashNormalised(outs[i].1, fs)
  {
    MountsUnlessSound(SkipsIn(test, exec), outs, fs);
  }

  /** Every output the test does not skip gets its mount. */
  lemma OutputMountsComplete(test: OutputTest, outs: seq<(string, string)>, exec: string, fs: Fs)
    ensures forall i :: 0 <= i < |outs| && !Skips(test, outs[i].1, exec) ==>
      (SlashNormalised(outs[i].1, fs), OutputMode) in OutputMounts(test, outs, exec, fs)
  {
    MountsUnlessComplete(SkipsIn(test, exec), outs, fs);
  }

  /**
   * Every output mount has the output mode and is the parameter value of an
   * output the test does not skip.
   */
  lemma OutputMountsSpec(test: OutputTest, outs: seq<(string, string)>, exec: string, fs: Fs)
    ensures forall m :: m in OutputMounts(test, outs, exec, fs) ==>
      m.1 == OutputMode &&
      exists i :: 0 <= i < |outs| && !Skips(test, outs[i].1, exec) && OutputParams(test, outs, exec, fs)[i] == (outs[i].0, Text(m.0))
  {
    OutputMountsSound(test, outs, exec, fs);
    forall m | m in OutputMounts(test, outs, exec, fs)
      ensures exists i :: 0 <= i < |outs| && !Skips(test, outs[i].1, exec) && OutputParams(test, outs, exec, fs)[i] == (outs[i].0, Text(m.0))
    {
      var i :| 0 <= i < |outs| && !Skips(test, outs[i].1, exec) && m.0 == SlashNormalised(outs[i].1, fs);
      OutputParamAt(test, outs, exec, fs, i);
    }
  }

  /**
   * The parameter of an output the test skips keeps its location as given;
   * any other output's parameter is its slash-normalised location.
   */
  lemma OutputParamAt(test: OutputTest, outs: seq<(string, string)>, exec: string, fs: Fs, i: int)
    requires 0 <= i < |outs|
    ensures OutputParams(test, outs, exec, fs)[i].0 == outs[i].0
    ensures Skips(test, outs[i].1, exec) ==> OutputParams(test, outs, exec, fs)[i].1 == Text(outs[i].1)
    ensures !Skips(test, outs[i].1, exec) ==> OutputParams(test, outs, exec, fs)[i].1 == Text(SlashNormalised(outs[i].1, fs))
  {
  }

  /**
   * The loop over the output locations that adds their mounts and
   * parameters, skipping the mount of every output whose normalised path has
   * the execution directory as a character-wise prefix.
   */
  method MountOutputs(outs: seq<(string, string)>, exec: string, fs: Fs)
    returns (mounts: seq<(string, string)>, params: seq<(string, Value)>)
    ensures mounts == OutputMounts(CharacterWise, outs, exec, fs)
    ensures params == OutputParams(CharacterWise, outs, exec, fs)
  {
    mounts, params := [], [];
    var i := 0;
    while i < |outs|
      invariant 0 <= i <= |outs|
      invariant mounts == OutputMounts(CharacterWise, outs[..i], exec, fs)
      invariant params == OutputParams(CharacterWise, outs[..i], exec, fs)
    {
      OutputMountsSnoc(CharacterWise, outs, i, exec, fs);
      MapValuesSnoc(outs, i, LocationParam(CharacterWise, exec, fs));
      var loc := outs[i].1;
      if Paths.CommonPrefix(Paths.NormPath(loc), exec) != exec {
        loc := SlashNormalised(loc, fs);
        mounts := mounts + [(loc, OutputMode)];
      }
      params := params + [(outs[i].0, Text(loc))];
      i := i + 1;
    }
    assert outs[..i] == outs;
  }

  /**
   * One more output adds no mount when the test skips it, and otherwise
   * exactly one, with the output mode, after the earlier ones.
   */
  lemma OutputMountsSnoc(test: OutputTest, outs: seq<(string, string)>, i: nat, exec: string, fs: Fs)
    requires i < |outs|
    ensures OutputMounts(test, outs[..i + 1], exec, fs) ==
      OutputMounts(test, outs[..i], exec, fs) +
      (if Skips(test, outs[i].1, exec) then [] else [(SlashNormalised(outs[i].1, fs), OutputMode)])
  {
    MountsUnlessSnoc(SkipsIn(test, exec), outs, i, fs);
  }

  /** With the corrected test every output outside the execution directory gets its mount. */
  lemma OutsideOutputsMounted(outs: seq<(string, string)>, exec: string, fs: Fs)
    ensures forall i :: 0 <= i < |outs| && !UnderRoot(Paths.NormPath(outs[i].1), exec) ==>
      (SlashNormalised(outs[i].1, fs), OutputMode) in OutputMounts(ComponentWise, outs, exec, fs)
  {
    OutputMountsComplete(ComponentWise, outs, exec, fs);
  }

  /** The corrected test keeps every mount of the written one. */
  lemma CorrectedMountsCoverAsWritten(outs: seq<(string, string)>, exec: string, fs: Fs)
    ensures forall m :: m in OutputMounts(CharacterWise, outs, exec, fs) ==> m in OutputMounts(ComponentWise, outs, exec, fs)
  {
    OutputMountsSound(CharacterWise, outs, exec, fs);
    OutputMountsComplete(ComponentWise, outs, exec, fs);
    forall m | m in OutputMounts(CharacterWise, outs, exec, fs)
      ensures m in OutputMounts(ComponentWise, outs, exec, fs)
    {
      var i :| 0 <= i < |outs| && !SubsumedAsWritten(outs[i].1, exec) && m.0 == SlashNormalised(outs[i].1, fs);
      SubsumedRefinesAsWritten(outs[i].1, exec);
    }
  }

  /** A single output adds at most its own mount and exactly its own parameter. */
  lemma SingleOutput(test: OutputTest, key: string, loc: string, exec: string, fs: Fs)
    ensures OutputMounts(test, [(key, loc)], exec, fs) ==
      if Skips(test, loc, exec) then [] else [(SlashNormalised(loc, fs), OutputMode)]
    ensures OutputParams(test, [(key, loc)], exec, fs) == [(key, Text(OutputLocation(test, loc, exec, fs)))]
  {
    OutputMountsSnoc(test, [(key, loc)], 0, exec, fs);
    assert [(key, loc)][..1] == [(key, loc)];
  }

  /**
   * As written, an output at `/data/run2/out.json` beside the execution
   * directory `/data/run` gets no mount and keeps its location unchanged;
   * the corrected test mounts it.
   */
  lemma SiblingOutputUnmounted(key: string, loc: string, exec: string, fs: Fs)
    requires loc == "/data/run2/out.json" && exec == "/data/run"
    ensures OutputMounts(CharacterWise, [(key, loc)], exec, fs) == []
    ensures OutputParams(CharacterWise, [(key, loc)], exec, fs) == [(key, Text(loc))]
    ensures OutputMounts(ComponentWise, [(key, loc)], exec, fs) == [(SlashNormalised(loc, fs), OutputMode)]
  {
    SubsumedAsWrittenCounterexample(loc, exec);
    SingleOutput(CharacterWise, key, loc, exec, fs);
    SingleOutput(ComponentWise, key, loc, exec, fs);
  }

  // ---------------------------------------------------------------------
  // The plan
  // ---------------------------------------------------------------------

  /** Everything a plan depends on besides the filesystem. */
  datatype Request = Request(
    config: seq<(string, Value)>,
    inputs: seq<(string, string)>,
    populable: seq<(string, string)>,
    project: string,
    exec: string,
    resultsLoc: string,
    statsLoc: string,
    otherLoc: string,
    home: string,
    nxfHome: string,
    workdir: string,
    workflowDir: string,
    sameProject: bool)

  datatype Plan = Plan(mounts: seq<(string, string)>, params: seq<(string, Value)>)

  /**
   * Why a plan is refused: comparing the project and execution directories
   * needs both to exist, and so does every input.
   */
  datatype PlanError = MissingDirectory(path: string) | MissingInputs(keys: seq<string>)

  /** The fixed mounts: the project (unless it is the execution directory), home, engine home, work, execution and workflow directories. */
  function BaseMounts(req: Request): (ms: seq<(string, string)>)
    ensures |ms| == if req.sameProject then 5 else 6
  {
    var fixed := [
      (req.home + "/", ReadOnly),
      (req.nxfHome + "/", ReadWrite),
      (req.workdir + "/", ReadWrite),
      (req.exec + "/", ReadWrite),
      (req.workflowDir + "/", ReadOnly)
    ];
    if req.sameProject then fixed else [(req.project + "/", ReadOnly)] + fixed
  }

  /**
   * The fixed mounts are writable only for the engine home, the work
   * directory and the execution directory; the project is mounted, read-only,
   * exactly when it is not the execution directory.
   */
  lemma BaseMountsSpec(req: Request)
    ensures forall m :: m in BaseMounts(req) ==>
      (m.1 == ReadWrite <==> m.0 in {req.nxfHome + "/", req.workdir + "/", req.exec + "/"} && m.1 != ReadOnly) &&
      (m.1 == ReadOnly || m.1 == ReadWrite)
    ensures (req.exec + "/", ReadWrite) in BaseMounts(req) && (req.workflowDir + "/", ReadOnly) in BaseMounts(req)
    ensures (req.project + "/", ReadOnly) in BaseMounts(req) <== !req.sameProject
  {
  }

  /** The output locations in order: the three fixed directories (results twice) then the populable outputs. */
  function Outputs(req: Request): (outs: seq<(string, string)>)
    ensures |outs| == 4 + |req.populable|
  {
    [("statsdir", req.statsLoc + "/"), ("results_dir", req.resultsLoc + "/"),
     ("outdir", req.resultsLoc + "/"), ("otherdir", req.otherLoc + "/")] + req.populable
  }

  /** The plan made when every input exists. */
  function PlanFor(req: Request, fs: Fs): Plan {
    var rs := Resolved(req.project, req.inputs);
    Plan(BaseMounts(req) + InputMounts(rs, fs) + OutputMounts(CharacterWise, Outputs(req), req.exec, fs),
         Unmasked(req.config) + InputParams(rs, fs) + OutputParams(CharacterWise, Outputs(req), req.exec, fs))
  }

  /** Every pair with its value mapped by `f`; keys and order are kept. */
  function MapValues<V, W>(ps: seq<(string, V)>, f: V -> W): (qs: seq<(string, W)>)
    ensures |qs| == |ps|
  {
    seq(|ps|, i requires 0 <= i < |ps| => (ps[i].0, f(ps[i].1)))
  }

  lemma MapValuesSnoc<V, W>(ps: seq<(string, V)>, i: nat, f: V -> W)
    requires i < |ps|
    ensures MapValues(ps[..i + 1], f) == MapValues(ps[..i], f) + [(ps[i].0, f(ps[i].1))]
  {
  }

  lemma MapValuesKeys<V, W>(ps: seq<(string, V)>, f: V -> W)
    ensures Keys(MapValues(ps, f)) == Keys(ps)
  {
  }

  /** The keys of a list of pairs, in order. */
  function Keys<T>(ps: seq<(string, T)>): (ks: seq<string>)
    ensures |ks| == |ps|
  {
    seq(|ps|, i requires 0 <= i < |ps| => ps[i].0)
  }

  /**
   * The parameters are the unmasked configuration keys, then every input key,
   * then every output key, in that order, so every input and output gives
   * exactly one parameter.
   */
  lemma PlanParamKeys(req: Request, fs: Fs)
    ensures Keys(PlanFor(req, fs).params) ==
      Keys(Unmasked(req.config)) + Keys(req.inputs) +
      ["statsdir", "results_dir", "outdir", "otherdir"] + Keys(req.populable)
  {
    var rs := Resolved(req.project, req.inputs);
    var a, b, c := Unmasked(req.config), InputParams(rs, fs), OutputParams(CharacterWise, Outputs(req), req.exec, fs);
    KeysAppend(a, b);
    KeysAppend(a + b, c);
    InputParamKeys(req.project, req.inputs, fs);
    OutputParamKeys(CharacterWise, Outputs(req), req.exec, fs);
    OutputKeys(req);
  }

  lemma KeysAppend<T>(a: seq<(string, T)>, b: seq<(string, T)>)
    ensures Keys(a + b) == Keys(a) + Keys(b)
  {
  }

  lemma InputParamKeys(project: string, inputs: seq<(string, string)>, fs: Fs)
    ensures Keys(InputParams(Resolved(project, inputs), fs)) == Keys(inputs)
  {
    MapValuesKeys(inputs, ResolverIn(project));
    var rs := Resolved(project, inputs);
    assert Keys(InputParams(rs, fs)) == Keys(rs);
  }

  lemma OutputParamKeys(test: OutputTest, outs: seq<(string, string)>, exec: string, fs: Fs)
    ensures Keys(OutputParams(test, outs, exec, fs)) == Keys(outs)
  {
    MapValuesKeys(outs, LocationParam(test, exec, fs));
  }

  lemma OutputKeys(req: Request)
    ensures Keys(Outputs(req)) == ["statsdir", "results_dir", "outdir", "otherdir"] + Keys(req.populable)
  {
    KeysAppend([("statsdir", req.statsLoc + "/"), ("results_dir", req.resultsLoc + "/"),
                ("outdir", req.resultsLoc + "/"), ("otherdir", req.otherLoc + "/")], req.populable);
  }

  /**
   * Planning the mounts and parameters of a run. A project or execution
   * directory that does not exist makes the comparison of the two fail,
   * project first. Then, when an input does not exist the run is refused
   * and the missing keys are reported in input order; otherwise the plan is
   * `PlanFor`.
   */
  method PlanExecution(req: Request, fs: Fs) returns (r: Result<Plan, PlanError>)
    ensures !fs.present(req.project) ==> r == Err(MissingDirectory(req.project))
    ensures fs.present(req.project) && !fs.present(req.exec) ==> r == Err(MissingDirectory(req.exec))
    ensures var rs := Resolved(req.project, req.inputs);
      fs.present(req.project) && fs.present(req.exec) ==>
        (r.Err? <==> exists i :: 0 <= i < |rs| && !fs.present(rs[i].1)) &&
        (r.Err? <==> Missing(rs, fs) != []) &&
        (r.Err? ==> r.error == MissingInputs(Missing(rs, fs)) && r.error.keys != []) &&
        (r.Ok? ==> r.value == PlanFor(req, fs))
  {
    if !fs.present(req.project) {
      return Err(MissingDirectory(req.project));
    }
    if !fs.present(req.exec) {
      return Err(MissingDirectory(req.exec));
    }
    var mounts := BaseMounts(req);
    var params := ConfigParams(req.config);
    var rs, failed := ResolveInputs(req.project, req.inputs, fs);
    MissingEmpty(rs, fs);
    if failed != [] {
      return Err(MissingInputs(failed));
    }
    var inMounts, inParams := MountInputs(rs, fs);
    var outMounts, outParams := MountOutputs(Outputs(req), req.exec, fs);
    r := Ok(Plan(mounts + inMounts + outMounts, params + inParams + outParams));
  }
}
