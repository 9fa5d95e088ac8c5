/**
 * The runner object: its configuration, the outputs it has registered for
 * the workflow to populate, the output locations `run` derives, and the
 * decision sequence of `validate_and_assess` that ties planning, command
 * assembly and the retry loop together.
 */
module Runner {
  import opened Wrappers
  import Paths
  import Versions
  import Archive
  import Planner
  import ParamsDoc
  import Command
  import Retry

  type Value = Planner.Value

  // ---------------------------------------------------------------------
  // Ordered dictionaries
  // ---------------------------------------------------------------------

  /** `d.get(k)` on an insertion-ordered dictionary held as its items. */
  function Lookup<T>(d: seq<(string, T)>, k: string): (r: Option<T>)
    ensures r.None? <==> forall i :: 0 <= i < |d| ==> d[i].0 != k
    ensures r.Some? ==> exists i :: 0 <= i < |d| && d[i] == (k, r.value)
    decreases |d|
  {
    if d == [] then None
    else if d[0].0 == k then Some(d[0].1)
    else
      var r := Lookup(d[1..], k);
      assert r.Some? ==> exists i :: 0 <= i < |d| - 1 && d[1..][i] == (k, r.value);
      r
  }

  /** `d[k] = v`: an existing key keeps its position, a new one goes last. */
  function DictSet<T>(d: seq<(string, T)>, k: string, v: T): seq<(string, T)>
    decreases |d|
  {
    if d == [] then [(k, v)]
    else if d[0].0 == k then [(k, v)] + d[1..]
    else [d[0]] + DictSet(d[1..], k, v)
  }

  /** After `d[k] = v`, looking up `k` gives `v` and every other key is unchanged. */
  lemma {:induction false} DictSetLookup<T>(d: seq<(string, T)>, k: string, v: T, k': string)
    ensures Lookup(DictSet(d, k, v), k') == if k' == k then Some(v) else Lookup(d, k')
    decreases |d|
  {
    if d != [] && d[0].0 != k {
      DictSetLookup(d[1..], k, v, k');
      assert DictSet(d, k, v)[1..] == DictSet(d[1..], k, v);
    } else if d != [] {
      assert DictSet(d, k, v)[1..] == d[1..];
    }
  }

  /** `d[k] = v` keeps the keys in order, appending `k` when it is new. */
  lemma {:induction false} DictSetKeys<T>(d: seq<(string, T)>, k: string, v: T)
    ensures Planner.Keys(DictSet(d, k, v)) ==
      if k in Planner.Keys(d) then Planner.Keys(d) else Planner.Keys(d) + [k]
    decreases |d|
  {
    if d != [] {
      assert d == [d[0]] + d[1..];
      Planner.KeysAppend([d[0]], d[1..]);
      if d[0].0 != k {
        DictSetKeys(d[1..], k, v);
        Planner.KeysAppend([d[0]], DictSet(d[1..], k, v));
      } else {
        Planner.KeysAppend([(k, v)], d[1..]);
        assert Planner.Keys([(k, v)]) == [k] == Planner.Keys([d[0]]);
      }
    }
  }

  // ---------------------------------------------------------------------
  // Configuration
  // ---------------------------------------------------------------------

  /** A configuration value as given to the runner: a scalar or a list of words. */
  datatype ConfValue = Scalar(v: Value) | Words(ws: seq<string>)

  /** The constructor joins list values with single spaces; other values are kept. */
  function Serialised(config: seq<(string, ConfValue)>): (r: seq<(string, Value)>)
    ensures |r| == |config|
  {
    seq(|config|, i requires 0 <= i < |config| =>
      (config[i].0, match config[i].1 {
        case Scalar(v) => v
        case Words(ws) => Planner.Text(Paths.JoinWith(ws, ' '))
      }))
  }

  /**
   * Serialising keeps every key in place, and a non-empty list of words
   * without spaces can be recovered by splitting its text on spaces.
   */
  lemma SerialisedSpec(config: seq<(string, ConfValue)>, i: int)
    requires 0 <= i < |config|
    ensures Serialised(config)[i].0 == config[i].0
    ensures config[i].1.Scalar? ==> Serialised(config)[i].1 == config[i].1.v
    ensures config[i].1.Words? && |config[i].1.ws| >= 1 &&
            (forall j :: 0 <= j < |config[i].1.ws| ==> ' ' !in config[i].1.ws[j]) ==>
      Serialised(config)[i].1.Text? && Paths.Split(Serialised(config)[i].1.s, ' ') == config[i].1.ws
  {
    if config[i].1.Words? && |config[i].1.ws| >= 1 &&
       (forall j :: 0 <= j < |config[i].1.ws| ==> ' ' !in config[i].1.ws[j]) {
      Paths.SplitJoin(config[i].1.ws, ' ');
    }
  }

  /** Python truthiness of a configuration value. */
  predicate Truthy(v: Value) {
    match v
    case Text(s) => s != ""
    case Flag(b) => b
    case Number(n) => n != 0
  }

  /**
   * The profile setting: a profile is named only by a true value; a true
   * value that is not text ends up in the command line, where it cannot be
   * joined into the logged command.
   */
  datatype Profile = NoProfile | Named(name: string) | NotText

  const ProfileKey := "nextflow_repo_profile"

  /** `docker` when the key is absent, no profile for a false value, else its text. */
  function ProfileOf(config: seq<(string, Value)>): (p: Profile)
    ensures p.Named? ==> p.name != ""
    ensures p.NoProfile? <==> Lookup(config, ProfileKey).Some? && !Truthy(Lookup(config, ProfileKey).value)
    ensures p.NotText? <==> Lookup(config, ProfileKey).Some? && Truthy(Lookup(config, ProfileKey).value) &&
                            !Lookup(config, ProfileKey).value.Text?
    ensures Lookup(config, ProfileKey).None? ==> p == Named("docker")
    ensures (Lookup(config, ProfileKey).Some? && Lookup(config, ProfileKey).value.Text? &&
             Truthy(Lookup(config, ProfileKey).value)) ==> p == Named(Lookup(config, ProfileKey).value.s)
  {
    match Lookup<Value>(config, ProfileKey)
    case None => Named("docker")
    case Some(v) => if !Truthy(v) then NoProfile else if v.Text? then Named(v.s) else NotText
  }

  /** The profile as the command environment holds it: empty when none is passed. */
  function ProfileName(p: Profile): string {
    if p.Named? then p.name else ""
  }

  /** `os.path.abspath` against the current directory `cwd`. */
  function AbsPath(cwd: string, p: string): (r: string)
    ensures Paths.IsAbs(cwd) ==> Paths.IsAbs(r)
  {
    Paths.NormPathShape(Paths.Join(cwd, p));
    Paths.NormPath(Paths.Join(cwd, p))
  }

  /** The local settings read from the runner's `.ini` file, or their defaults. */
  datatype Settings = Settings(
    nxfImage: string,
    nxfVersion: string,
    maxRetries: int,
    maxCpus: string,
    dockerCmd: string)

  const DefaultSettings := Settings("nextflow/nextflow", "19.04.1", 5, "4", "docker")

  /** Output keys the runner fills in itself, which the workflow does not populate. */
  const MaskedOutKeys: set<string> := {"metrics", "tar_view", "tar_nf_stats", "tar_other", "workflow_archive"}

  /** Where a populable output goes: absolute paths are kept, relative ones resolved against the execution directory, a missing one gets a fresh name there. */
  function PopulatePath(given: Option<string>, exec: string, freshName: string): (p: string)
    ensures given.Some? && Paths.IsAbs(given.value) ==> p == given.value
    ensures Paths.IsAbs(exec) ==> Paths.IsAbs(p)
  {
    match given
    case Some(v) =>
      if Paths.IsAbs(v) then v
      else
        Paths.NormPathShape(Paths.Join(exec, v));
        Paths.NormPath(Paths.Join(exec, v))
    case None => Paths.Join(exec, freshName + ".out")
  }

  /** The populable outputs after registering `outs` on top of `pop`. */
  function Registered(pop: seq<(string, string)>, outs: seq<(string, Option<string>)>, exec: string,
                      freshName: string -> string): seq<(string, string)>
    decreases |outs|
  {
    if outs == [] then pop
    else
      var last := outs[|outs| - 1];
      var before := Registered(pop, outs[..|outs| - 1], exec, freshName);
      if last.0 in MaskedOutKeys then before
      else DictSet(before, last.0, PopulatePath(last.1, exec, freshName(last.0)))
  }

  /** The output files after `run` has resolved every populable one. */
  function ResolvedOutputs(outs: seq<(string, Option<string>)>, exec: string, freshName: string -> string)
    : (r: seq<(string, Option<string>)>)
    ensures |r| == |outs|
  {
    seq(|outs|, i requires 0 <= i < |outs| =>
      if outs[i].0 in MaskedOutKeys then outs[i]
      else (outs[i].0, Some(PopulatePath(outs[i].1, exec, freshName(outs[i].0)))))
  }

  /**
   * Registering never touches a masked key, and every other output key ends
   * up mapped to its resolved path.
   */
  lemma {:induction false} RegisteredSpec(pop: seq<(string, string)>, outs: seq<(string, Option<string>)>,
                                          exec: string, freshName: string -> string)
    requires forall i, j :: 0 <= i < j < |outs| ==> outs[i].0 != outs[j].0
    ensures forall k :: k in MaskedOutKeys ==> Lookup(Registered(pop, outs, exec, freshName), k) == Lookup(pop, k)
    ensures forall i :: 0 <= i < |outs| && outs[i].0 !in MaskedOutKeys ==>
      Lookup(Registered(pop, outs, exec, freshName), outs[i].0) == Some(PopulatePath(outs[i].1, exec, freshName(outs[i].0)))
    decreases |outs|
  {
    if outs != [] {
      var init := outs[..|outs| - 1];
      var last := outs[|outs| - 1];
      RegisteredSpec(pop, init, exec, freshName);
      var before := Registered(pop, init, exec, freshName);
      var after := Registered(pop, outs, exec, freshName);
      forall k | k in MaskedOutKeys
        ensures Lookup(after, k) == Lookup(pop, k)
      {
        if last.0 !in MaskedOutKeys {
          DictSetLookup(before, last.0, PopulatePath(last.1, exec, freshName(last.0)), k);
        }
      }
      forall i | 0 <= i < |outs| && outs[i].0 !in MaskedOutKeys
        ensures Lookup(Registered(pop, outs, exec, freshName), outs[i].0) == Some(PopulatePath(outs[i].1, exec, freshName(outs[i].0)))
      {
        if last.0 !in MaskedOutKeys {
          DictSetLookup(before, last.0, PopulatePath(last.1, exec, freshName(last.0)), outs[i].0);
        }
        if i < |init| {
          assert outs[i] == init[i];
          assert outs[i].0 != last.0;
        }
      }
    }
  }

  /**
   * A fixed output (metrics, archives): the given location or the default
   * name in the execution directory, made absolute against it.
   */
  function FixedOutputPath(given: Option<string>, exec: string, default: string): (p: string)
    ensures Paths.IsAbs(exec) ==> Paths.IsAbs(p)
    ensures given.Some? && Paths.IsAbs(given.value) ==> p == given.value
  {
    var loc := if given.Some? then given.value else Paths.Join(exec, default);
    if Paths.IsAbs(loc) then loc
    else
      Paths.NormPathShape(Paths.Join(exec, loc));
      Paths.NormPath(Paths.Join(exec, loc))
  }

  /** An absent output location defaults to `exec/<default>`. */
  lemma FixedOutputDefault(exec: string, default: string)
    requires Paths.IsAbs(exec) && !Paths.EndsWithSlash(exec) && !Paths.IsAbs(default)
    ensures FixedOutputPath(None, exec, default) == exec + "/" + default
  {
  }

  /** The output locations `run` derives before validating. */
  datatype RunLocations = RunLocations(
    metrics: string, tarView: string, tarNfStats: string, tarOther: string,
    workflowArchive: string, results: string, stats: string, other: string)

  /** `output_files.get(key)`, where a key mapped to `None` counts as absent. */
  function Given(outs: seq<(string, Option<string>)>, key: string): Option<string> {
    match Lookup<Option<string>>(outs, key)
    case Some(Some(p)) => Some(p)
    case _ => None
  }

  function Locations(outs: seq<(string, Option<string>)>, exec: string, participant: string, timestamp: string)
    : RunLocations
  {
    RunLocations(
      FixedOutputPath(Given(outs, "metrics"), exec, participant + ".json"),
      FixedOutputPath(Given(outs, "tar_view"), exec, participant + "_" + timestamp + ".tar.gz"),
      FixedOutputPath(Given(outs, "tar_nf_stats"), exec, "nfstats.tar.gz"),
      FixedOutputPath(Given(outs, "tar_other"), exec, "other_files.tar.gz"),
      FixedOutputPath(Given(outs, "workflow_archive"), exec, ".workflow.tar.gz"),
      Paths.Join(exec, "results"),
      Paths.Join(exec, "nf_stats"),
      Paths.Join(exec, "other_files"))
  }

  /** With an absolute execution directory every derived location is absolute. */
  lemma LocationsAbsolute(outs: seq<(string, Option<string>)>, exec: string, participant: string, timestamp: string)
    requires Paths.IsAbs(exec)
    ensures var l := Locations(outs, exec, participant, timestamp);
      Paths.IsAbs(l.metrics) && Paths.IsAbs(l.tarView) && Paths.IsAbs(l.tarNfStats) &&
      Paths.IsAbs(l.tarOther) && Paths.IsAbs(l.workflowArchive) &&
      Paths.IsAbs(l.results) && Paths.IsAbs(l.stats) && Paths.IsAbs(l.other)
  {
  }

  // ---------------------------------------------------------------------
  // What validate_and_assess observes, and what it reports
  // ---------------------------------------------------------------------

  /** The kind of the workflow snapshot once it has been materialised. */
  datatype Snapshot = TarFile(members: seq<Archive.Member>) | Directory(copyName: string) | OtherKind

  /** What the host machine, the filesystem and the external commands report during a run. */
  datatype Host = Host(
    cwd: string,
    archiveExists: bool,
    materialized: bool,
    snapshot: Snapshot,
    identified: bool,
    versionConfig: Option<seq<Option<Versions.VersionDecl>>>,
    engineAvailable: bool,
    unpackDir: string,
    workdir: string,
    home: string,
    tz: string,
    uid: string,
    gid: string,
    fs: Planner.Fs,
    sameProject: bool,
    exitOf: nat -> int,
    cleanupFailed: bool)

  datatype Failure =
    | MissingRepository
    | MaterializeFailed
    | UnexpectedSnapshotKind
    | EngineUnavailable
    | RunFailed(status: int)

  datatype Raised =
    | BadSetting(key: string)
    | EmptyWorkflowArchive
    | UnidentifiedWorkflow
    | MissingConfigKey(key: string)
    | MissingDirectory(path: string)
    | MissingInputs(keys: seq<string>)
    | ParamsConflict(key: string)
    | PipelineFailed

  /** `validate_and_assess` returns true, returns false, or raises. */
  datatype Outcome = Succeeded | Failed(failure: Failure) | Raise(raised: Raised)

  /** What was run: the plan, the parameters document, both command lines and the command of every attempt. */
  datatype Trace = Trace(
    request: Planner.Request,
    plan: Planner.Plan,
    env: Command.Env,
    paramsFile: string,
    doc: ParamsDoc.Doc<Value>,
    base: seq<string>,
    resume: seq<string>,
    calls: seq<seq<string>>,
    retval: int)

  /** A text setting, its default when absent, or an error when it is not text. */
  function TextSetting(config: seq<(string, Value)>, key: string, default: string): Result<string, Raised> {
    match Lookup<Value>(config, key)
    case None => Ok(default)
    case Some(v) => if v.Text? then Ok(v.s) else Err(BadSetting(key))
  }

  const UriKey := "nextflow_repo_uri"
  const TagKey := "nextflow_repo_tag"
  const RelDirKey := "nextflow_repo_reldir"

  /** A repository setting that is set to text, and its text. */
  function Coordinate(config: seq<(string, Value)>, key: string): (c: Option<string>)
    ensures c.Some? <==> Lookup(config, key).Some? && Lookup(config, key).value.Text?
  {
    match Lookup<Value>(config, key)
    case Some(v) => if v.Text? then Some(v.s) else None
    case None => None
  }

  /** The workflow directory obtained from the snapshot, before the relative directory is applied. */
  function SnapshotRoot(host: Host): (r: Result<string, Outcome>)
    ensures r.Err? ==> r.error == Raise(EmptyWorkflowArchive) || r.error == Failed(UnexpectedSnapshotKind)
  {
    match host.snapshot
    case TarFile(members) =>
      (match Archive.UnpackRoot(host.unpackDir, members)
       case Some(root) => Ok(root)
       case None => Err(Raise(EmptyWorkflowArchive)))
    case Directory(copyName) => Ok(Paths.Join(host.unpackDir, copyName))
    case OtherKind => Err(Failed(UnexpectedSnapshotKind))
  }

  /**
   * Project and execution directories: the project against the configuration
   * directory, the execution directory against the current one. The
   * configuration directory is `None` when `__config_dir__` is set to
   * something other than text, which cannot be joined with a relative project.
   */
  function ProjectAndExec(config: seq<(string, Value)>, configDir: Option<string>, cwd: string)
    : (r: Result<(string, string), Raised>)
    ensures r.Ok? && Paths.IsAbs(cwd) ==> Paths.IsAbs(r.value.1)
    ensures r.Ok? && configDir.Some? && Paths.IsAbs(configDir.value) ==> Paths.IsAbs(r.value.0)
    ensures r.Err? ==>
      r.error == BadSetting("project") || r.error == BadSetting(Planner.ConfigDirKey) ||
      r.error == BadSetting("execution")
    ensures r == Err(BadSetting(Planner.ConfigDirKey)) <==>
      configDir.None? && TextSetting(config, "project", ".").Ok? &&
      !Paths.IsAbs(TextSetting(config, "project", ".").value)
  {
    match TextSetting(config, "project", ".")
    case Err(e) => Err(e)
    case Ok(project) =>
      if !Paths.IsAbs(project) && configDir.None? then Err(BadSetting(Planner.ConfigDirKey))
      else
        match TextSetting(config, "execution", ".")
        case Err(e) => Err(e)
        case Ok(exec) =>
          var p := if Paths.IsAbs(project) then project else Planner.ResolveInput(configDir.value, project);
          Ok((p, AbsPath(cwd, exec)))
  }

  /**
   * The workflow directory: the snapshot's root, then the relative directory
   * inside it when one is set and not empty. A relative directory that is not
   * text has no length, which raises once the snapshot is in place.
   */
  function WorkflowDir(config: seq<(string, Value)>, host: Host): (r: Result<string, Outcome>)
    ensures r.Err? <==>
      host.snapshot.OtherKind? || (host.snapshot.TarFile? && host.snapshot.members == []) ||
      (Lookup(config, RelDirKey).Some? && !Lookup(config, RelDirKey).value.Text?)
    ensures r.Err? ==>
      r.error == Raise(EmptyWorkflowArchive) || r.error == Failed(UnexpectedSnapshotKind) ||
      r.error == Raise(BadSetting(RelDirKey))
    ensures SnapshotRoot(host).Ok? && Lookup(config, RelDirKey).Some? && !Lookup(config, RelDirKey).value.Text? ==>
      r == Err(Raise(BadSetting(RelDirKey)))
    ensures r.Ok? && Coordinate(config, RelDirKey).Some? && Coordinate(config, RelDirKey).value != "" ==>
      r.value == Paths.Join(SnapshotRoot(host).value, Coordinate(config, RelDirKey).value)
    ensures r.Ok? && (Coordinate(config, RelDirKey).None? || Coordinate(config, RelDirKey).value == "") ==>
      r.value == SnapshotRoot(host).value
  {
    match SnapshotRoot(host)
    case Err(o) => Err(o)
    case Ok(root) =>
      match Lookup<Value>(config, RelDirKey)
      case None => Ok(root)
      case Some(v) =>
        if !v.Text? then Err(Raise(BadSetting(RelDirKey)))
        else if v.s != "" then Ok(Paths.Join(root, v.s))
        else Ok(root)
  }

  /**
   * The checks before the engine version is known. The run goes on only
   * when both repository coordinates are set to text, a snapshot exists or
   * could be materialised, it yields a workflow directory and the checkout
   * is identified. A coordinate set to something other than text cannot be
   * hashed, so materialising fails; when a snapshot already exists, it
   * differs from the identified one and cannot be concatenated into the
   * warning about the difference, which raises.
   */
  function Locate(config: seq<(string, Value)>, configDir: Option<string>, host: Host): (r: Result<(string, string, string), Outcome>)
    ensures r.Ok? <==>
      ProjectAndExec(config, configDir, host.cwd).Ok? &&
      Coordinate(config, UriKey).Some? && Coordinate(config, TagKey).Some? &&
      (host.archiveExists || host.materialized) &&
      WorkflowDir(config, host).Ok? && host.identified
    ensures (ProjectAndExec(config, configDir, host.cwd).Ok? &&
             (Lookup(config, UriKey).None? || Lookup(config, TagKey).None?))
            ==> r == Err(Failed(MissingRepository))
    ensures (ProjectAndExec(config, configDir, host.cwd).Ok? &&
             Lookup(config, UriKey).Some? && Lookup(config, TagKey).Some? && !host.archiveExists &&
             (Coordinate(config, UriKey).None? || Coordinate(config, TagKey).None?))
            ==> r == Err(Failed(MaterializeFailed))
    ensures (ProjectAndExec(config, configDir, host.cwd).Ok? && host.archiveExists &&
             WorkflowDir(config, host).Ok? && host.identified &&
             Lookup(config, UriKey).Some? && Lookup(config, TagKey).Some?)
            ==> (Coordinate(config, UriKey).None? ==> r == Err(Raise(BadSetting(UriKey)))) &&
                (Coordinate(config, UriKey).Some? && Coordinate(config, TagKey).None? ==>
                   r == Err(Raise(BadSetting(TagKey))))
    ensures r.Ok? ==> r.value.2 == WorkflowDir(config, host).value
    ensures r.Err? ==>
      (r.error.Failed? && !r.error.failure.RunFailed? && !r.error.failure.EngineUnavailable?) ||
      (r.error.Raise? && (r.error.raised.BadSetting? || r.error.raised.EmptyWorkflowArchive? ||
                          r.error.raised.UnidentifiedWorkflow?))
  {
    match ProjectAndExec(config, configDir, host.cwd)
    case Err(e) => Err(Raise(e))
    case Ok(dirs) =>
      if Lookup(config, UriKey).None? || Lookup(config, TagKey).None? then
        Err(Failed(MissingRepository))
      else if !host.archiveExists &&
              (!host.materialized || Coordinate(config, UriKey).None? || Coordinate(config, TagKey).None?) then
        Err(Failed(MaterializeFailed))
      else
        match WorkflowDir(config, host)
        case Err(o) => Err(o)
        case Ok(wd) =>
          if !host.identified then Err(Raise(UnidentifiedWorkflow))
          else if Coordinate(config, UriKey).None? then Err(Raise(BadSetting(UriKey)))
          else if Coordinate(config, TagKey).None? then Err(Raise(BadSetting(TagKey)))
          else Ok((dirs.0, dirs.1, wd))
  }

  /**
   * The checks once the engine version is known: the engine image must be
   * available and `challenges_ids` and `participant_id` set; the command
   * environment then uses the version's image and assets directory and the
   * profile, if one is named.
   */
  function Configure(config: seq<(string, Value)>, host: Host, settings: Settings, version: string,
                     workflowDir: string): (r: Result<Command.Env, Outcome>)
    ensures r.Ok? <==>
      host.engineAvailable && Lookup(config, "challenges_ids").Some? && Lookup(config, "participant_id").Some?
    ensures !host.engineAvailable ==> r == Err(Failed(EngineUnavailable))
    ensures host.engineAvailable && Lookup(config, "challenges_ids").None? ==>
      r == Err(Raise(MissingConfigKey("challenges_ids")))
    ensures host.engineAvailable && Lookup(config, "challenges_ids").Some? && Lookup(config, "participant_id").None? ==>
      r == Err(Raise(MissingConfigKey("participant_id")))
    ensures r.Ok? ==>
      r.value.imageTag == settings.nxfImage + ":" + version &&
      r.value.nxfHome == Command.NxfHomeDir(host.home, version) &&
      r.value.workflowDir == workflowDir &&
      (r.value.profile != "" <==> ProfileOf(config).Named?) &&
      (ProfileOf(config).Named? ==> r.value.profile == ProfileOf(config).name)
  {
    if !host.engineAvailable then Err(Failed(EngineUnavailable))
    else if Lookup(config, "challenges_ids").None? then Err(Raise(MissingConfigKey("challenges_ids")))
    else if Lookup(config, "participant_id").None? then Err(Raise(MissingConfigKey("participant_id")))
    else
      Ok(Command.Env(settings.dockerCmd, host.tz, host.home, Command.NxfHomeDir(host.home, version), host.uid,
                     host.workdir, settings.nxfImage + ":" + version, workflowDir, ProfileName(ProfileOf(config))))
  }

  /** The engine version chosen for a host's workflow configuration. */
  function HostVersion(host: Host, settings: Settings): string {
    Versions.ChosenVersion(settings.nxfVersion,
      if host.versionConfig.Some? then Versions.FirstDecl(host.versionConfig.value) else None)
  }

  /**
   * What happens once the workflow directory is known: the failure of the
   * engine and settings checks, or the decision for the request built from
   * the located directories, the chosen engine and the working directory's
   * parameters file.
   */
  ghost predicate ProceedReport(config: seq<(string, Value)>, populable: seq<(string, string)>,
                                inputs: seq<(string, string)>, results: string, stats: string, other: string,
                                project: string, exec: string, workflowDir: string, host: Host,
                                settings: Settings, outcome: Outcome, trace: Option<Trace>)
  {
    match Configure(config, host, settings, HostVersion(host, settings), workflowDir)
    case Err(o) => outcome == o && trace.None?
    case Ok(env) =>
      RunDecision(Planner.Request(config, inputs, populable, project, exec, results, stats, other,
                                  host.home, env.nxfHome, host.workdir, workflowDir, host.sameProject),
                  env, !ProfileOf(config).NotText?, Paths.Join(host.workdir, "params-file.json"),
                  host, settings.maxRetries, outcome, trace)
  }

  /**
   * Once the workflow directory is known: choose the engine version, check
   * the engine and the remaining settings, then plan and run.
   */
  method Proceed(config: seq<(string, Value)>, populable: seq<(string, string)>, inputs: seq<(string, string)>,
                 results: string, stats: string, other: string,
                 project: string, exec: string, workflowDir: string, host: Host, settings: Settings)
    returns (outcome: Outcome, trace: Option<Trace>)
    ensures trace.Some? <==> outcome.Succeeded? || (outcome.Failed? && outcome.failure.RunFailed?)
    ensures trace.Some? ==>
      var t := trace.value;
      t.request == Planner.Request(config, inputs, populable, project, exec, results, stats, other,
                                   host.home, Command.NxfHomeDir(host.home, HostVersion(host, settings)),
                                   host.workdir, workflowDir, host.sameProject) &&
      t.env.imageTag == settings.nxfImage + ":" + HostVersion(host, settings) &&
      RanAsPlanned(t, host, settings.maxRetries) && outcome == Reported(t, host) &&
      (ProfileOf(config).NotText? ==> t.calls == [])
    ensures !host.engineAvailable ==> outcome == Failed(EngineUnavailable)
    ensures outcome.Raise? && outcome.raised.MissingInputs? ==> outcome.raised.keys != []
    ensures trace.Some? ==>
      Configure(config, host, settings, HostVersion(host, settings), workflowDir) == Ok(trace.value.env) &&
      trace.value.paramsFile == Paths.Join(host.workdir, "params-file.json")
    ensures ProceedReport(config, populable, inputs, results, stats, other, project, exec, workflowDir,
                          host, settings, outcome, trace)
  {
    var version := Versions.GuessNextflowVersion(settings.nxfVersion, host.versionConfig);
    assert version == HostVersion(host, settings);
    var configured := Configure(config, host, settings, version, workflowDir);
    if configured.Err? {
      return configured.error, None;
    }
    var env := configured.value;
    var request := Planner.Request(config, inputs, populable, project, exec,
                                   results, stats, other, host.home, env.nxfHome, host.workdir,
                                   workflowDir, host.sameProject);
    var paramsFile := Paths.Join(host.workdir, "params-file.json");
    outcome, trace := PlanAndRun(request, env, !ProfileOf(config).NotText?, paramsFile, host, settings.maxRetries);
  }

  /** The trace of a run that got as far as running the engine. */
  ghost predicate RanAsPlanned(t: Trace, host: Host, maxRetries: int) {
    (forall k :: 0 <= k < |t.calls| ==> t.calls[k] == if k == 0 then t.base else t.resume) &&
    |t.calls| == Retry.Attempts(maxRetries, host.exitOf) &&
    (t.retval == 0 <==> exists k :: 0 <= k < maxRetries && host.exitOf(k) == 0) &&
    t.plan == Planner.PlanFor(t.request, host.fs) &&
    ParamsDoc.PrefixFree(t.plan.params) &&
    (forall q :: ParamsDoc.KindAt(t.doc, q) == ParamsDoc.Expected(t.plan.params, q)) &&
    t.base == Command.BaseCommand(t.env, t.plan.mounts, t.paramsFile) &&
    t.resume == Command.ResumeCommand(t.env, t.plan.mounts, t.paramsFile)
  }

  /** The outcome a finished run reports. */
  function Reported(t: Trace, host: Host): (o: Outcome)
    ensures o.Succeeded? <==> t.retval == 0 && !host.cleanupFailed
  {
    var status := Retry.FinalStatus(t.retval, host.cleanupFailed);
    if status == 0 then Succeeded else Failed(RunFailed(status))
  }

  /** The first parameter whose key clashes with an earlier one as a dotted prefix. */
  ghost predicate FirstConflict(params: seq<(string, Value)>, key: string) {
    exists i :: 0 <= i < |params| && params[i].0 == key &&
      ParamsDoc.PrefixFree(params[..i]) && !ParamsDoc.PrefixFree(params[..i + 1])
  }

  /**
   * What happens to a request, in the order the code checks: a missing
   * project or execution directory, then missing inputs, then clashing
   * parameter keys, then a profile that cannot be logged when an attempt is
   * due; otherwise the engine runs as planned and its status is reported.
   */
  ghost predicate RunDecision(request: Planner.Request, env: Command.Env, textProfile: bool, paramsFile: string,
                              host: Host, maxRetries: int, outcome: Outcome, trace: Option<Trace>)
  {
    var missing := Planner.Missing(Planner.Resolved(request.project, request.inputs), host.fs);
    var params := Planner.PlanFor(request, host.fs).params;
    if !host.fs.present(request.project) then
      outcome == Raise(MissingDirectory(request.project)) && trace.None?
    else if !host.fs.present(request.exec) then
      outcome == Raise(MissingDirectory(request.exec)) && trace.None?
    else if missing != [] then
      outcome == Raise(MissingInputs(missing)) && trace.None?
    else if !ParamsDoc.PrefixFree(params) then
      outcome.Raise? && outcome.raised.ParamsConflict? && FirstConflict(params, outcome.raised.key) &&
      trace.None?
    else if !textProfile && maxRetries > 0 then
      outcome == Raise(BadSetting(ProfileKey)) && trace.None?
    else
      trace.Some? && trace.value.request == request && trace.value.env == env &&
      trace.value.paramsFile == paramsFile && RanAsPlanned(trace.value, host, maxRetries) &&
      outcome == Reported(trace.value, host) && (!textProfile ==> trace.value.calls == [])
  }

  /**
   * From the request on: plan the mounts and parameters, assemble both
   * commands, build the parameters document and run with retries. When the
   * profile is not text, logging the first attempt's command raises.
   */
  method PlanAndRun(request: Planner.Request, env: Command.Env, textProfile: bool, paramsFile: string,
                    host: Host, maxRetries: int)
    returns (outcome: Outcome, trace: Option<Trace>)
    ensures trace.Some? <==> outcome.Succeeded? || (outcome.Failed? && outcome.failure.RunFailed?)
    ensures trace.Some? ==>
      trace.value.request == request && trace.value.env == env && trace.value.paramsFile == paramsFile &&
      RanAsPlanned(trace.value, host, maxRetries) && outcome == Reported(trace.value, host) &&
      (!textProfile ==> trace.value.calls == [])
    ensures outcome.Raise? ==>
      outcome.raised.MissingDirectory? || (outcome.raised.MissingInputs? && outcome.raised.keys != []) ||
      outcome.raised.ParamsConflict? || outcome.raised == BadSetting(ProfileKey)
    ensures outcome == Raise(BadSetting(ProfileKey)) ==> !textProfile && maxRetries > 0
    ensures !textProfile && maxRetries > 0 ==> outcome.Raise?
    ensures !outcome.Raise? ==> trace.Some?
    ensures RunDecision(request, env, textProfile, paramsFile, host, maxRetries, outcome, trace)
  {
    var planned := Planner.PlanExecution(request, host.fs);
    if planned.Err? {
      match planned.error
      case MissingDirectory(path) => return Raise(MissingDirectory(path)), None;
      case MissingInputs(keys) => return Raise(MissingInputs(keys)), None;
    }
    var plan := planned.value;
    var base, resume := Command.AssembleCommands(env, plan.mounts, paramsFile);
    var doc := ParamsDoc.BuildDocument(plan.params);
    if doc.Err? {
      return Raise(ParamsConflict(doc.error)), None;
    }
    if !textProfile && maxRetries > 0 {
      return Raise(BadSetting(ProfileKey)), None;
    }
    var retval, calls := Retry.RunWithRetries(maxRetries, host.exitOf, base, resume);
    var t := Trace(request, plan, env, paramsFile, doc.value, base, resume, calls, retval);
    outcome := Reported(t, host);
    trace := Some(t);
  }

  /**
   * What `validate_and_assess` reports, given the result of the checks before
   * the engine version is known: their failure, or a run that used the
   * located directories and the chosen engine, went as planned and reported
   * its status.
   */
  ghost predicate ValidationReport(located: Result<(string, string, string), Outcome>,
                                   config: seq<(string, Value)>, populable: seq<(string, string)>,
                                   inputs: seq<(string, string)>, results: string, stats: string, other: string,
                                   host: Host, settings: Settings, outcome: Outcome, trace: Option<Trace>)
  {
    (trace.Some? <==> outcome.Succeeded? || (outcome.Failed? && outcome.failure.RunFailed?)) &&
    (outcome.Raise? && outcome.raised.MissingInputs? ==> outcome.raised.keys != []) &&
    (located.Err? ==> outcome == located.error && trace.None?) &&
    (located.Ok? ==>
      ProceedReport(config, populable, inputs, results, stats, other, located.value.0, located.value.1,
                    located.value.2, host, settings, outcome, trace)) &&
    (trace.Some? ==>
      located.Ok? &&
      var t, dirs := trace.value, located.value;
      t.request == Planner.Request(config, inputs, populable, dirs.0, dirs.1, results, stats, other,
                                   host.home, Command.NxfHomeDir(host.home, HostVersion(host, settings)),
                                   host.workdir, dirs.2, host.sameProject) &&
      t.env.imageTag == settings.nxfImage + ":" + HostVersion(host, settings) &&
      Configure(config, host, settings, HostVersion(host, settings), dirs.2) == Ok(t.env) &&
      t.paramsFile == Paths.Join(host.workdir, "params-file.json") &&
      RanAsPlanned(t, host, settings.maxRetries) && outcome == Reported(t, host))
  }

  /** The checks of `validate_and_assess` in order, then the planned run. */
  method Validate(config: seq<(string, Value)>, configDir: Option<string>, populable: seq<(string, string)>,
                  inputs: seq<(string, string)>, results: string, stats: string, other: string,
                  host: Host, settings: Settings)
    returns (outcome: Outcome, trace: Option<Trace>)
    ensures ValidationReport(Locate(config, configDir, host), config, populable,
                             inputs, results, stats, other, host, settings, outcome, trace)
  {
    var located := Locate(config, configDir, host);
    if located.Err? {
      return located.error, None;
    }
    outcome, trace := Proceed(config, populable, inputs, results, stats, other,
                              located.value.0, located.value.1, located.value.2, host, settings);
  }

  class Runner {
    var configuration: seq<(string, Value)>
    var configDir: Option<string>
    var populableOutputs: seq<(string, string)>
    const settings: Settings
    const timestamp: string

    /**
     * Joins list values of the configuration and takes the configuration
     * directory from it, as given: a value that is not text is kept as
     * `None`, since only a path can later be joined with a relative project.
     */
    constructor (config: seq<(string, ConfValue)>, cwd: string, settings: Settings, timestamp: string)
      ensures configuration == Serialised(config)
      ensures configDir == match Lookup<ConfValue>(config, Planner.ConfigDirKey) {
        case None => Some(cwd)
        case Some(Scalar(v)) => if v.Text? then Some(v.s) else None
        case Some(Words(_)) => None
      }
      ensures populableOutputs == []
      ensures this.settings == settings && this.timestamp == timestamp
    {
      configuration := Serialised(config);
      configDir := match Lookup<ConfValue>(config, Planner.ConfigDirKey) {
        case None => Some(cwd)
        case Some(Scalar(v)) => if v.Text? then Some(v.s) else None
        case Some(Words(_)) => None
      };
      populableOutputs := [];
      this.settings := settings;
      this.timestamp := timestamp;
    }

    /**
     * The loop of `run` over the output files: every output not masked is
     * resolved, registered as populable and written back.
     */
    method RegisterOutputs(outs: seq<(string, Option<string>)>, exec: string, freshName: string -> string)
      returns (resolved: seq<(string, Option<string>)>)
      modifies this
      ensures populableOutputs == Registered(old(populableOutputs), outs, exec, freshName)
      ensures resolved == ResolvedOutputs(outs, exec, freshName)
      ensures configuration == old(configuration) && configDir == old(configDir)
    {
      var pop0 := populableOutputs;
      var pop := pop0;
      resolved := outs;
      var i := 0;
      while i < |outs|
        invariant 0 <= i <= |outs|
        invariant pop == Registered(pop0, outs[..i], exec, freshName)
        invariant |resolved| == |outs|
        invariant forall j :: 0 <= j < i ==> resolved[j] == ResolvedOutputs(outs, exec, freshName)[j]
        invariant forall j :: i <= j < |outs| ==> resolved[j] == outs[j]
      {
        assert outs[..i + 1][..i] == outs[..i];
        var key := outs[i].0;
        if key !in MaskedOutKeys {
          var path := PopulatePath(outs[i].1, exec, freshName(key));
          pop := DictSet(pop, key, path);
          resolved := resolved[i := (key, Some(path))];
        }
        i := i + 1;
      }
      assert outs[..i] == outs;
      populableOutputs := pop;
    }

    /**
     * `validate_and_assess`: decide whether the workflow can run, plan it,
     * run it with retries and report the status.
     */
    method ValidateAndAssess(inputs: seq<(string, string)>, results: string, stats: string, other: string,
                             host: Host)
      returns (outcome: Outcome, trace: Option<Trace>)
      ensures ValidationReport(Locate(configuration, configDir, host), configuration, populableOutputs,
                               inputs, results, stats, other, host, settings, outcome, trace)
    {
      outcome, trace := Validate(configuration, configDir, populableOutputs, inputs, results, stats, other, host, settings);
    }

    /**
     * `run` up to the validation: register the populable outputs, derive the
     * fixed output locations and validate; a validation that does not
     * succeed makes `run` raise.
     */
    method Run(inputs: seq<(string, string)>, outs: seq<(string, Option<string>)>,
               freshName: string -> string, host: Host)
      returns (outcome: Outcome, validated: Option<Outcome>, trace: Option<Trace>,
               locations: Result<RunLocations, Raised>)
      modifies this
      ensures configuration == old(configuration) && configDir == old(configDir)
      ensures validated.Some? <==> locations.Ok?
      ensures locations.Ok? <==>
        ProjectAndExec(configuration, configDir, host.cwd).Ok? &&
        Lookup(configuration, "participant_id").Some? && Lookup(configuration, "participant_id").value.Text?
      ensures locations.Ok? ==>
        ValidationReport(Locate(configuration, configDir, host), configuration, populableOutputs, inputs,
                         locations.value.results, locations.value.stats, locations.value.other,
                         host, settings, validated.value, trace) &&
        outcome == if validated.value.Failed? then Raise(PipelineFailed) else validated.value
      ensures outcome.Succeeded? || outcome.Raise?
      ensures locations.Ok? ==>
        match ProjectAndExec(configuration, configDir, host.cwd) {
          case Ok(dirs) =>
            populableOutputs == Registered(old(populableOutputs), outs, dirs.1, freshName) &&
            (match Lookup(configuration, "participant_id") {
              case Some(v) =>
                v.Text? &&
                locations.value == Locations(ResolvedOutputs(outs, dirs.1, freshName), dirs.1, v.s, timestamp)
              case None => false
            })
          case Err(_) => false
        }
      ensures locations.Err? ==> outcome.Raise? && outcome.raised == locations.error && trace.None?
    {
      var dirs := ProjectAndExec(configuration, configDir, host.cwd);
      if dirs.Err? {
        return Raise(dirs.error), None, None, Err(dirs.error);
      }
      var exec := dirs.value.1;
      var resolved := RegisterOutputs(outs, exec, freshName);
      assert ProjectAndExec(configuration, configDir, host.cwd) == dirs;
      var participant := Lookup(configuration, "participant_id");
      if participant.None? || !participant.value.Text? {
        return Raise(MissingConfigKey("participant_id")), None, None, Err(MissingConfigKey("participant_id"));
      }
      var locs := Locations(resolved, exec, participant.value.s, timestamp);
      var v;
      v, trace := ValidateAndAssess(inputs, locs.results, locs.stats, locs.other, host);
      validated := Some(v);
      outcome := if v.Failed? then Raise(PipelineFailed) else v;
      locations := Ok(locs);
    }
  }
}
