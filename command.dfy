/**
 * The container command lines: the base `docker run … nextflow run …`
 * invocation and its `-resume` variant, which differ only in that flag.
 */
module Command {
  import Paths
  import Versions

  /** The values the fixed part of the command line is made of. */
  datatype Env = Env(
    dockerCmd: string,
    tz: string,
    home: string,
    nxfHome: string,
    uid: string,
    workdir: string,
    imageTag: string,
    workflowDir: string,
    profile: string)

  /** Arguments before the volume mounts. */
  function PreVol(env: Env): (args: seq<string>)
    ensures |args| == 17 && args[0] == env.dockerCmd
  {
    [env.dockerCmd, "run", "--rm",
     "-e", "USER",
     "-e", "NXF_DEBUG",
     "-e", "TZ=" + env.tz,
     "-e", "HOME=" + env.home,
     "-e", "NXF_HOME=" + env.nxfHome,
     "-e", "NXF_USRMAP=" + env.uid,
     "-v", "/var/run/docker.sock:/var/run/docker.sock:rw,rprivate,z"]
  }

  /** Arguments after the volume mounts; a profile is only passed when one is set. */
  function PostVol(env: Env): (args: seq<string>)
  {
    ["-w", env.workdir, "--", env.imageTag, "nextflow", "run", env.workflowDir] +
    (if env.profile != "" then ["-profile", env.profile] else [])
  }

  /** `-profile` is passed exactly when a profile is set, and then right after the workflow directory. */
  lemma PostVolProfile(env: Env)
    ensures var args := PostVol(env);
      (|args| == 9 <==> env.profile != "") && (|args| == 7 <==> env.profile == "") &&
      args[6] == env.workflowDir &&
      (env.profile != "" ==> args[7..] == ["-profile", env.profile])
  {
  }

  /** The bind-mount argument: the same path inside and outside the container. */
  function MountArg(m: (string, string)): string {
    m.0 + ":" + m.0 + ":" + m.1
  }

  /** One `-v path:path:mode` pair per mount, in mount order. */
  function VolumeArgs(mounts: seq<(string, string)>): (args: seq<string>)
    decreases |mounts|
  {
    if mounts == [] then []
    else VolumeArgs(mounts[..|mounts| - 1]) + ["-v", MountArg(mounts[|mounts| - 1])]
  }

  /** The volume arguments alternate `-v` and the mount of the same index. */
  lemma {:induction false} VolumeArgsShape(mounts: seq<(string, string)>)
    ensures |VolumeArgs(mounts)| == 2 * |mounts|
    ensures forall i :: 0 <= i < |mounts| ==>
      VolumeArgs(mounts)[2 * i] == "-v" && VolumeArgs(mounts)[2 * i + 1] == MountArg(mounts[i])
    decreases |mounts|
  {
    if mounts != [] {
      var init := mounts[..|mounts| - 1];
      VolumeArgsShape(init);
      forall i | 0 <= i < |mounts|
        ensures VolumeArgs(mounts)[2 * i] == "-v" && VolumeArgs(mounts)[2 * i + 1] == MountArg(mounts[i])
      {
        if i < |init| {
          assert mounts[i] == init[i];
        }
      }
    }
  }

  function ParamsFlags(paramsFile: string): seq<string> {
    ["-params-file", paramsFile]
  }

  /** The command of the first attempt. */
  function BaseCommand(env: Env, mounts: seq<(string, string)>, paramsFile: string): seq<string> {
    PreVol(env) + VolumeArgs(mounts) + PostVol(env) + ParamsFlags(paramsFile)
  }

  /** The command of every later attempt. */
  function ResumeCommand(env: Env, mounts: seq<(string, string)>, paramsFile: string): seq<string> {
    PreVol(env) + VolumeArgs(mounts) + PostVol(env) + ["-resume"] + ParamsFlags(paramsFile)
  }

  /**
   * The resume command is the base command with a single `-resume` inserted
   * immediately before `-params-file`, which is its next-to-last argument.
   */
  lemma ResumeInsertsFlag(env: Env, mounts: seq<(string, string)>, paramsFile: string)
    ensures var base := BaseCommand(env, mounts, paramsFile);
      var k := |base| - 2;
      base[k] == "-params-file" && base[k + 1] == paramsFile &&
      ResumeCommand(env, mounts, paramsFile) == base[..k] + ["-resume"] + base[k..]
  {
    var base := BaseCommand(env, mounts, paramsFile);
    var front := PreVol(env) + VolumeArgs(mounts) + PostVol(env);
    assert base == front + ParamsFlags(paramsFile);
    assert base[..|base| - 2] == front;
    assert base[|base| - 2..] == ParamsFlags(paramsFile);
  }

  /** Mount `i` is passed as the argument pair starting at `17 + 2i` of both commands. */
  lemma MountInCommands(env: Env, mounts: seq<(string, string)>, paramsFile: string, i: int)
    requires 0 <= i < |mounts|
    ensures |BaseCommand(env, mounts, paramsFile)| == 19 + 2 * |mounts| + |PostVol(env)|
    ensures |ResumeCommand(env, mounts, paramsFile)| == 20 + 2 * |mounts| + |PostVol(env)|
    ensures BaseCommand(env, mounts, paramsFile)[17 + 2 * i] == "-v"
    ensures BaseCommand(env, mounts, paramsFile)[18 + 2 * i] == MountArg(mounts[i])
    ensures ResumeCommand(env, mounts, paramsFile)[17 + 2 * i] == "-v"
    ensures ResumeCommand(env, mounts, paramsFile)[18 + 2 * i] == MountArg(mounts[i])
  {
    VolumeArgsShape(mounts);
    var v := VolumeArgs(mounts);
    assert BaseCommand(env, mounts, paramsFile) == PreVol(env) + (v + PostVol(env) + ParamsFlags(paramsFile));
    assert ResumeCommand(env, mounts, paramsFile) == PreVol(env) + (v + (PostVol(env) + ["-resume"] + ParamsFlags(paramsFile)));
  }

  /** The loop that appends the mount arguments to both commands, then their common tails. */
  method AssembleCommands(env: Env, mounts: seq<(string, string)>, paramsFile: string)
    returns (base: seq<string>, resume: seq<string>)
    ensures base == BaseCommand(env, mounts, paramsFile)
    ensures resume == ResumeCommand(env, mounts, paramsFile)
  {
    var args := PreVol(env);
    var i := 0;
    while i < |mounts|
      invariant 0 <= i <= |mounts|
      invariant args == PreVol(env) + VolumeArgs(mounts[..i])
    {
      assert mounts[..i + 1][..i] == mounts[..i];
      args := args + ["-v"] + [MountArg(mounts[i])];
      i := i + 1;
    }
    assert mounts[..i] == mounts;
    var postVol := PostVol(env);
    var postVolResume := postVol + ["-resume"];
    base := args + postVol;
    resume := args + postVolResume;
    base := base + ParamsFlags(paramsFile);
    resume := resume + ParamsFlags(paramsFile);
  }

  /** The per-engine-version assets directory `home/NXF_HOMES/<version>/.nextflow`. */
  function NxfHomeDir(home: string, version: string): string {
    Paths.Join(Paths.Join(Paths.Join(home, "NXF_HOMES"), version), ".nextflow")
  }

  /** Different engine versions get different assets directories. */
  lemma NxfHomeDirInjective(home: string, v1: string, v2: string)
    requires v1 != "" && !Paths.IsAbs(v1) && !Paths.EndsWithSlash(v1)
    requires v2 != "" && !Paths.IsAbs(v2) && !Paths.EndsWithSlash(v2)
    requires NxfHomeDir(home, v1) == NxfHomeDir(home, v2)
    ensures v1 == v2
  {
    var h := Paths.Join(home, "NXF_HOMES");
    assert h[|h| - 9..] == "NXF_HOMES";
    assert h[|h| - 1] == h[|h| - 9..][8];
    NxfHomeDirShape(h, v1);
    NxfHomeDirShape(h, v2);
    var tail := "/" + ".nextflow";
    var s1, s2 := h + "/" + v1 + tail, h + "/" + v2 + tail;
    assert |v1| == |v2|;
    assert s1[|h| + 1..|h| + 1 + |v1|] == v1;
    assert s2[|h| + 1..|h| + 1 + |v2|] == v2;
  }

  lemma NxfHomeDirShape(h: string, v: string)
    requires h != "" && h[|h| - 1] == 'S'
    requires v != "" && !Paths.IsAbs(v) && !Paths.EndsWithSlash(v)
    ensures Paths.Join(Paths.Join(h, v), ".nextflow") == h + "/" + v + ("/" + ".nextflow")
  {
    assert Paths.Join(h, v) == h + "/" + v;
  }

  /** The extra mount of the work directory that engines before 20.07.1 need in their task containers. */
  function WorkdirVolumeOption(workdir: string, version: string): string {
    if Versions.NeedsWorkdirVolume(version) then "-v " + workdir + ":" + workdir + ":rw,rprivate,z " else ""
  }

  /** Version 19.04.1 gets the work directory mount, 20.07.1 and later do not. */
  lemma WorkdirVolumeOptionExamples(workdir: string)
    ensures WorkdirVolumeOption(workdir, "19.04.1") == "-v " + workdir + ":" + workdir + ":rw,rprivate,z "
    ensures WorkdirVolumeOption(workdir, "20.07.1") == ""
    ensures WorkdirVolumeOption(workdir, "22.10.0") == ""
  {
    Versions.NeedsWorkdirVolumeExamples();
  }

  /** The `docker.runOptions` value written to the engine's setup file. */
  function RunOptions(uid: string, gid: string, home: string, tz: string, workdir: string,
                      version: string, unconfined: bool): string
  {
    " -u " + uid + ":" + gid + " -e HOME=" + home + " -e TZ=" + tz + " " +
    WorkdirVolumeOption(workdir, version) + " " +
    (if unconfined then "--security-opt seccomp=unconfined" else "")
  }

  /**
   * Reading a setup value back: one pair of surrounding double quotes is
   * removed from a value that contains a space.
   */
  function Unquoted(s: string): string {
    if ' ' in s && |s| >= 2 && s[0] == '"' && s[|s| - 1] == '"' then s[1..|s| - 1] else s
  }

  /**
   * One line of the setup file: the key, ` = `, then the value, which reads
   * back unchanged; a value containing a space is written between double quotes.
   */
  function SetupLine(key: string, val: string): (line: string)
    ensures key + " = " <= line && Unquoted(line[|key| + 3..]) == val
    ensures ' ' in val <==> ' ' in line[|key| + 3..]
    ensures ' ' in val ==> |line| >= |key| + 5 && line[|key| + 3] == '"' && line[|line| - 1] == '"'
  {
    var written := if ' ' in val then "\"" + val + "\"" else val;
    assert (key + " = " + written)[|key| + 3..] == written;
    assert ' ' in val ==> written[1..|written| - 1] == val;
    key + " = " + written
  }

  /** The run options always contain a space, so their setup line is quoted. */
  lemma RunOptionsLineQuoted(uid: string, gid: string, home: string, tz: string, workdir: string,
                             version: string, unconfined: bool)
    ensures var opts := RunOptions(uid, gid, home, tz, workdir, version, unconfined);
      SetupLine("docker.runOptions", opts) == "docker.runOptions" + " = \"" + opts + "\""
  {
    RunOptionsHaveSpace(uid, gid, home, tz, workdir, version, unconfined);
    SetupLineQuoted("docker.runOptions", RunOptions(uid, gid, home, tz, workdir, version, unconfined));
  }

  lemma RunOptionsHaveSpace(uid: string, gid: string, home: string, tz: string, workdir: string,
                            version: string, unconfined: bool)
    ensures ' ' in RunOptions(uid, gid, home, tz, workdir, version, unconfined)
  {
    assert RunOptions(uid, gid, home, tz, workdir, version, unconfined)[0] == ' ';
  }

  lemma SetupLineQuoted(key: string, val: string)
    requires ' ' in val
    ensures SetupLine(key, val) == key + " = \"" + val + "\""
  {
  }
}
