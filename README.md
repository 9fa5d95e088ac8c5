# A verified model of the VRE Nextflow workflow runner

The runner takes a benchmarking workflow, given by a git repository URI and tag. It fetches a
pinned checkout of it into a cache, or reuses a saved snapshot of it. It then picks the
Nextflow engine version the workflow asks for. It plans a `docker run … nextflow run …`
invocation with one bind mount per input and output and a nested `params-file.json`. Finally
it runs the engine, retrying with `-resume` until an attempt succeeds or the retries run out.

This project models the decision-making of `WF_RUNNER` in `tool/vre_nf.py`. External commands
and the filesystem are replaced by values the model receives. The model proves what the
runner promises about its plan, its command lines, its parameter document and its retry loop.

Modules:

- `Paths`: POSIX `os.path.join`, `normpath`, `str.split` and `os.path.commonprefix`.
- `Versions`: engine version selection and the version-tuple comparison.
- `Repository`: the cache directory of a checkout and the git command chain that fills it.
- `Archive`: the root `unpackDir` returns, and what `packDir` stores.
- `ParamsDoc`: nesting dotted parameter keys into the parameter document.
- `Planner`: parameters and bind mounts of a run.
- `Command`: the two docker command lines and the engine setup options.
- `Retry`: the retry-with-resume loop and the final status.
- `Runner`: the runner object, output resolution in `run`, and the sequence of checks in
  `validate_and_assess`.

Python dictionaries are held as sequences of key/value pairs, in insertion order. The
filesystem is seen through `exists`/`isfile`/`isdir` predicates that do not change while a
plan is made.

## Model

| member | source | states |
|---|---|---|
| Paths.Join | tool/vre_nf.py:203 | an absolute second part replaces the first; otherwise the result extends the first part and ends with the second; joining onto an absolute path stays absolute |
| Paths.JoinSplit | tool/vre_nf.py:693 | re-joining the pieces of `split` gives back the string |
| Paths.SplitJoin | tool/vre_nf.py:145-147 | joining separator-free words and splitting again gives back the words |
| Paths.SplitInjective | tool/vre_nf.py:693 | two strings that split into the same pieces are equal |
| Paths.NormPathShape | tool/vre_nf.py:399 | `normpath` keeps a path absolute exactly when it was, and leaves a trailing slash only on `/` or `//` |
| Paths.CommonPrefix | tool/vre_nf.py:651 | the result is a prefix of both strings and cannot be extended |
| Paths.CommonPrefixIsSecond | tool/vre_nf.py:651 | the common prefix equals the second string exactly when that string is a prefix of the first |
| Versions.StrLessTrichotomy | tool/vre_nf.py:266 | string order is total and asymmetric |
| Versions.StrLessTransitive | tool/vre_nf.py:266 | string order is transitive |
| Versions.FirstDecl | tool/vre_nf.py:259-268 | no declaration exactly when no line matched; otherwise the declaration of a matching line |
| Versions.FirstDeclAfterNone | tool/vre_nf.py:259-268 | lines that did not match do not change the first declaration |
| Versions.ChosenVersionSpec | tool/vre_nf.py:255-267 | the default without a declaration; the declared version when forced by `!`; otherwise the larger of default and declared, so never below the default |
| Versions.GuessNextflowVersion | tool/vre_nf.py:253-272 | the line loop returns the default when the file is unreadable, else the version chosen from the first matching line |
| Versions.TupleLessTransitive | tool/vre_nf.py:459-462 | tuple comparison of version strings is transitive |
| Versions.NeedsWorkdirVolumeDownward | tool/vre_nf.py:459-462 | a version below one that needs the work directory mount needs it too |
| Versions.SplitVersion | tool/vre_nf.py:459 | a dotted triple splits into its three components |
| Versions.NeedsWorkdirVolumeExamples | tool/vre_nf.py:462 | 19.04.1 needs the mount; 20.07.1 and 22.10.0 do not |
| Repository.HexDigestIsPlainName | tool/vre_nf.py:199-200 | a hex digest is a non-empty relative name without slashes at its end |
| Repository.CacheDirShape | tool/vre_nf.py:199-211 | the checkout directory is the repository directory, a slash and the tag digest |
| Repository.CacheDirDeterminesDigests | tool/vre_nf.py:199-211 | equal checkout directories have equal URI and tag digests |
| Repository.Materialize | tool/vre_nf.py:198-251 | success exactly when the repository directory exists or can be created and either the checkout exists or all three git commands exit with 0; success returns the checkout directory; an existing checkout runs no git command; git commands run in order and stop at the first non-zero exit, which is reported; a repository directory that cannot be created fails before any command |
| Repository.MaterializeIdempotent | tool/vre_nf.py:204-213 | once materialised, materialising the same coordinates again returns the same directory and runs nothing |
| Archive.UnpackRootSpec | tool/vre_nf.py:369-378 | none for an empty archive; the destination when the first member is a file; when it is a directory, a path inside the destination ending with its name, or the name itself when that is absolute |
| Archive.StripLeadingSlashes | tool/vre_nf.py:364 | the result is the path with exactly its leading slashes removed: a suffix that does not start with a slash, preceded only by slashes |
| Archive.PackedMembers | tool/vre_nf.py:364 | packing stores the directory entry and one member per entry |
| Archive.ReplaceFirstAtStart | tool/vre_nf.py:364 | rewriting a name that starts with the pattern replaces that start |
| Archive.PackThenUnpackRoot | tool/vre_nf.py:364-378 | unpacking a packed directory returns the destination joined with the rewritten root name |
| ParamsDoc.KindAtCons | tool/vre_nf.py:694-695 | one step into an object is a lookup of that key |
| ParamsDoc.KindAtBelowLeaf | tool/vre_nf.py:694-699 | nothing lies below a leaf |
| ParamsDoc.InsertSpec | tool/vre_nf.py:692-699 | inserting along a key path succeeds exactly when no prefix of it is a leaf and it is not an object; then only that path's list grows, by the value, and objects appear along it |
| ParamsDoc.KindAtBlockedShift | tool/vre_nf.py:694-695 | a clash one level down is a clash at the top |
| ParamsDoc.KeyPath | tool/vre_nf.py:693 | a key path has at least one component |
| ParamsDoc.ValuesAtNonEmpty | tool/vre_nf.py:699 | a path collects values exactly when some key splits to it |
| ParamsDoc.BlockedIffClash | tool/vre_nf.py:691-699 | the next key clashes with the document built so far exactly when it breaks prefix-freedom |
| ParamsDoc.BlockedClashes | tool/vre_nf.py:694-699 | a blocked key path is a strict prefix or a strict extension of an earlier key path |
| ParamsDoc.UnblockedStaysPrefixFree | tool/vre_nf.py:691-699 | a key path that is not blocked keeps the key paths free of strict prefixes |
| ParamsDoc.ShorterKeyBlocks | tool/vre_nf.py:694-699 | an earlier key that is a strict prefix of the new one blocks it |
| ParamsDoc.CollectedAppend | tool/vre_nf.py:699 | appending a pair changes the collected content only at its own path |
| ParamsDoc.BuildStep | tool/vre_nf.py:691-701 | one iteration keeps the document in agreement with the pairs seen so far |
| ParamsDoc.BuildSpec | tool/vre_nf.py:689-701 | the first pass succeeds exactly for prefix-free keys and then holds, at every path, the values collected there in order |
| ParamsDoc.SetAtSpec | tool/vre_nf.py:706 | overwriting one leaf changes that path only |
| ParamsDoc.NestParams | tool/vre_nf.py:689-701 | the first loop succeeds exactly for prefix-free keys, describes the pairs, and records each leaf once |
| ParamsDoc.NestStep | tool/vre_nf.py:691-701 | one loop iteration extends the document as the pairs grow |
| ParamsDoc.KeyPathsGrow | tool/vre_nf.py:691-701 | the key paths seen grow by the new key |
| ParamsDoc.UnwrapLeaves | tool/vre_nf.py:704-706 | the second pass unwraps exactly the one-element lists and changes nothing else |
| ParamsDoc.BuildDocument | tool/vre_nf.py:689-706 | the document exists exactly for prefix-free keys, and then holds at each path the single value or the list of values of that key |
| ParamsDoc.PrefixFreeShrinks | tool/vre_nf.py:691 | prefix-freedom holds for every prefix of the pairs |
| ParamsDoc.ValuesAtKey | tool/vre_nf.py:693 | collecting by key path is collecting by key |
| ParamsDoc.LeafAtKey | tool/vre_nf.py:689-706 | a key's leaf holds its single value when it occurred once, else the list of its values in order |
| ParamsDoc.NestingExample | tool/vre_nf.py:689-706 | `a.b=1, a.c=2, d=3` nests to `{"a": {"b": "1", "c": "2"}, "d": "3"}` |
| Planner.Unmasked | tool/vre_nf.py:604-606 | the passed-on parameters are no more than the configuration pairs |
| Planner.UnmaskedMembers | tool/vre_nf.py:79-88 | a pair is passed on exactly when it is configured under a key outside the masked keys |
| Planner.UnmaskedAppend | tool/vre_nf.py:604-606 | filtering keeps configuration order |
| Planner.ConfigParams | tool/vre_nf.py:600-606 | the loop collects exactly the unmasked configuration pairs in order |
| Planner.SlashNormalisedSpec | tool/vre_nf.py:640-644 | an existing directory ends with a slash, an existing file loses one, a missing path is unchanged, and at most one slash changes |
| Planner.ResolveInput | tool/vre_nf.py:613-616 | absolute inputs are kept; relative ones become absolute under an absolute project |
| Planner.MissingEmpty | tool/vre_nf.py:617-622 | no input is missing exactly when every resolved input exists |
| Planner.MissingKeys | tool/vre_nf.py:617-619 | every reported key names an input whose resolved path does not exist |
| Planner.ResolveInputs | tool/vre_nf.py:611-620 | the loop resolves every input in order and collects the missing keys in order |
| Planner.MissingSnoc | tool/vre_nf.py:617-620 | one more resolved input adds its key after the earlier missing keys exactly when its path does not exist |
| Planner.InputsPairUp | tool/vre_nf.py:639-646 | each input gives one read-only mount and one parameter with the same path, which ends with a slash for a directory and is unchanged for a missing path |
| Planner.MountInputs | tool/vre_nf.py:639-646 | the loop adds exactly the input mounts and parameters |
| Planner.SubsumedRefinesAsWritten | tool/vre_nf.py:651 | an output inside the execution directory also passes the character-wise test |
| Planner.SubsumedIsBoundedPrefix | tool/vre_nf.py:651 | the component-wise test is the character-wise test plus a component boundary |
| Planner.SplitThree | tool/vre_nf.py:651 | an absolute three-component path splits into its components |
| Planner.NormPathOfThree | tool/vre_nf.py:651 | a clean three-component path is already normalised |
| Planner.SiblingPassesAsWritten | tool/vre_nf.py:651 | a sibling directory that extends the execution directory's name passes the character-wise test but is not inside it |
| Planner.SubsumedAsWrittenCounterexample | tool/vre_nf.py:651 | `/data/run2/out.json` passes the character-wise test for `/data/run` but is not inside it |
| Planner.OutputMountsSound | tool/vre_nf.py:649-670 | for the character-wise test of the code (and for the corrected one), every output mount has mode `rprivate,z` and comes from an output the test does not skip |
| Planner.OutputMountsComplete | tool/vre_nf.py:649-670 | every output the test does not skip gets its `rprivate,z` mount |
| Planner.OutputMountsSpec | tool/vre_nf.py:649-672 | every output mount is the parameter value of an output the test does not skip |
| Planner.OutputMountsSnoc | tool/vre_nf.py:649-670 | one more output adds no mount when the test skips it, and otherwise exactly one `rprivate,z` mount after the earlier ones |
| Planner.OutputParamAt | tool/vre_nf.py:649-672 | each output gives one parameter under its key; a skipped output keeps its location as given, any other is slash-normalised |
| Planner.MountOutputs | tool/vre_nf.py:649-672 | the loop adds a mount exactly for the outputs whose normalised path does not have the execution directory as a character-wise prefix, and a parameter for every output |
| Planner.SingleOutput | tool/vre_nf.py:649-672 | a single output adds its own mount unless skipped, and exactly its own parameter |
| Planner.SiblingOutputUnmounted | tool/vre_nf.py:651 | as written, `/data/run2/out.json` beside the execution directory `/data/run` gets no mount and an unchanged parameter; the corrected test mounts it |
| Planner.OutsideOutputsMounted | tool/vre_nf.py:649-670 | with the corrected test, every output outside the execution directory gets its mount |
| Planner.CorrectedMountsCoverAsWritten | tool/vre_nf.py:651 | the corrected test keeps every mount the character-wise test makes |
| Planner.BaseMountsSpec | tool/vre_nf.py:587-595 | only the engine home, work and execution directories are writable; the project is mounted read-only unless it is the execution directory |
| Planner.Outputs | tool/vre_nf.py:627-635 | four fixed output directories, then the populable outputs |
| Planner.PlanParamKeys | tool/vre_nf.py:600-672 | parameter keys are the unmasked configuration keys, then every input key, then every output key |
| Planner.PlanExecution | tool/vre_nf.py:587-672 | a missing project directory, then a missing execution directory, fails the `samefile` comparison; then a missing input refuses the plan (exactly when the missing-key list is nonempty), listing the missing keys in input order; otherwise the plan is the base, input and output mounts (outputs by the character-wise test) and parameters |
| Command.PreVol | tool/vre_nf.py:517-528 | seventeen fixed arguments led by the docker command |
| Command.PostVolProfile | tool/vre_nf.py:531-578 | `-profile` follows the workflow directory exactly when a profile is set |
| Command.VolumeArgsShape | tool/vre_nf.py:678-680 | one `-v path:path:mode` pair per mount, in mount order |
| Command.ResumeInsertsFlag | tool/vre_nf.py:580-714 | the resume command is the base command with a single `-resume` just before `-params-file` |
| Command.MountInCommands | tool/vre_nf.py:675-685 | mount `i` is the argument pair at `17 + 2i` of both commands |
| Command.AssembleCommands | tool/vre_nf.py:675-714 | the loop builds exactly the base and the resume command |
| Command.NxfHomeDirInjective | tool/vre_nf.py:505-506 | different engine versions get different assets directories |
| Command.NxfHomeDirShape | tool/vre_nf.py:506 | the assets directory is the home directory, the version and `.nextflow`, joined by slashes |
| Command.WorkdirVolumeOptionExamples | tool/vre_nf.py:544-547 | 19.04.1 gets the work directory mount option, later versions do not |
| Command.SetupLine | tool/vre_nf.py:555-557 | the line is the key, ` = ` and a value that reads back unchanged after removing one pair of quotes from a value with a space; such a value is written between double quotes |
| Command.RunOptionsLineQuoted | tool/vre_nf.py:553-557 | the run options line is always quoted |
| Retry.Attempts | tool/vre_nf.py:719-722 | no attempt without retries, otherwise between one and the retry count |
| Retry.AttemptsFrom | tool/vre_nf.py:722-731 | counting from attempt `k`, at least one more and never beyond the retry count |
| Retry.AttemptsFromSpec | tool/vre_nf.py:722-731 | every attempt before the last failed, and the last succeeded or was the final allowed one |
| Retry.AttemptsSpec | tool/vre_nf.py:719-731 | the last attempt succeeded exactly when one of the allowed attempts exits with 0 |
| Retry.RunWithRetries | tool/vre_nf.py:719-731 | at most the retry count of calls, stopping at the first zero exit; the base command first, the resume command after; success exactly when some allowed attempt exits with 0; -1 when nothing ran |
| Retry.AttemptsPrefix | tool/vre_nf.py:722-731 | while nothing has succeeded, another attempt is made if retries remain |
| Retry.AttemptsFromPrefix | tool/vre_nf.py:722-731 | failed attempts do not change where the attempts stop |
| Retry.ThreeRetriesTwoFailures | tool/vre_nf.py:719-731 | with three retries and two failures the third attempt succeeds |
| Retry.TwoRetriesAllFailing | tool/vre_nf.py:719-731 | with two retries and only failures, two attempts and no success |
| Retry.FinalStatus | tool/vre_nf.py:734-752 | success exactly when the run succeeded and its clean-up did not raise; a failure keeps its exit |
| Runner.Lookup | tool/vre_nf.py:396-407 | `get` finds nothing exactly when the key is absent, else a value stored under it |
| Runner.DictSetLookup | tool/vre_nf.py:804 | after setting a key, it maps to the new value and every other key is unchanged |
| Runner.DictSetKeys | tool/vre_nf.py:804 | setting a key keeps the keys in order and appends a new key |
| Runner.SerialisedSpec | tool/vre_nf.py:145-147 | keys stay in place, scalars are unchanged, word lists are joined recoverably |
| Runner.AbsPath | tool/vre_nf.py:402 | `abspath` against an absolute working directory is absolute |
| Runner.PopulatePath | tool/vre_nf.py:792-797 | absolute outputs are kept; every resolved output is absolute under an absolute execution directory |
| Runner.ResolvedOutputs | tool/vre_nf.py:790-805 | one resolved entry per output file |
| Runner.RegisteredSpec | tool/vre_nf.py:790-805 | masked output keys are never registered; every other key maps to its resolved path |
| Runner.FixedOutputPath | tool/vre_nf.py:811-847 | a given absolute location is kept; all locations are absolute under an absolute execution directory |
| Runner.FixedOutputDefault | tool/vre_nf.py:811-845 | an absent location defaults to its name inside the execution directory |
| Runner.LocationsAbsolute | tool/vre_nf.py:807-852 | every location `run` derives is absolute |
| Runner.ProjectAndExec | tool/vre_nf.py:397-402 | project and execution directories are absolute; a non-text setting is reported; a relative project with a configuration directory that is not text is reported exactly then |
| Runner.WorkflowDir | tool/vre_nf.py:426-439 | no workflow directory exactly for an unexpected snapshot kind, an empty archive, or a relative directory that is not text (which raises); otherwise the snapshot root, joined with the relative directory when it is non-empty text |
| Runner.Locate | tool/vre_nf.py:397-449 | the run proceeds exactly when both coordinates are set to text, a snapshot exists or was materialised, it yields a workflow directory and the checkout is identified; absent coordinates fail; a non-text coordinate fails materialisation, or with an existing snapshot raises at the mismatch warning |
| Runner.ProfileOf | tool/vre_nf.py:407-578 | a profile is named only by a true value: `docker` when absent, the text itself when it is true text; a false value passes none; a true value that is not text is singled out |
| Runner.Configure | tool/vre_nf.py:465-537 | proceeds exactly when the engine is available and `challenges_ids` and `participant_id` are set, each missing key raising in that order; the image tag and assets directory follow the chosen version, and a profile is passed exactly when one is named |
| Runner.Proceed | tool/vre_nf.py:456-752 | a failed engine or settings check is the outcome; otherwise the request built from the located directories and the chosen engine's environment is decided as `PlanAndRun` decides it, with `params-file.json` in the working directory; a profile that is not text runs no attempt |
| Runner.Validate | tool/vre_nf.py:384-752 | a failed location check is the outcome and nothing runs; otherwise the outcome is decided as `Proceed` decides it for the located directories: each check that fails is reported, and when none does the engine runs as planned and its status is reported |
| Runner.Reported | tool/vre_nf.py:734-752 | success exactly when the last attempt exited 0 and the clean-up did not raise |
| Runner.PlanAndRun | tool/vre_nf.py:587-752 | in order: a missing project or execution directory raises; otherwise missing inputs raise with their keys; otherwise a clashing parameter key raises with the first clashing key; otherwise a non-text profile raises exactly when an attempt is due; otherwise the engine runs: the trace follows the plan, the parameters document built from it, both commands and the retry loop, and the outcome is its reported status |
| Runner.Runner.constructor | tool/vre_nf.py:137-149 | list values joined; configuration directory from `__config_dir__` as given (not a path when it is not text) or the working directory when absent; no populable outputs |
| Runner.Runner.RegisterOutputs | tool/vre_nf.py:790-805 | the loop registers and writes back exactly the resolved non-masked outputs, leaving the configuration alone |
| Runner.Runner.ValidateAndAssess | tool/vre_nf.py:384-752 | what `Validate` states, for the runner's configuration, configuration directory and populable outputs |
| Runner.Runner.Run | tool/vre_nf.py:783-866 | validation happens exactly when the project and execution directories resolve and `participant_id` is text; outputs are registered before it and the fixed locations derived from the participant; the validation is reported as `ValidateAndAssess` reports it; `run` succeeds only when it succeeded and raises otherwise |

## Left out

- External commands are not run. The docker image check and pull become `engineAvailable`. The git commands of `doMaterializeRepo` become exit codes. The remote and revision queries of `identifyRepo` become `identified`; its `git status` query only decides a warning. `tar` becomes the member list of the archive. Each engine attempt becomes `exitOf(k)`.
- SHA-1 is an uninterpreted `digest` function assumed to produce 40 hex characters.
- Filesystem effects are not modelled: `makedirs`, pre-created empty outputs, `rmtree`, `copytree`, `unlink`, `atexit`, `mkdtemp`, writing the setup file, appending `includeConfig` and writing `params-file.json` as JSON. Where their outcome matters, it is a parameter: `archiveExists`, `materialized`, `snapshot`, `unpackDir`, `workdir`, `sameProject` for the identity `samefile` compares, and `cleanupFailed`.
- A failing `makedirs` or `mkdtemp` would end the run. The model assumes they succeed.
- The filesystem predicates do not change during a plan, so outputs created during planning are not seen as existing by later checks.
- INI loading is replaced by a `Settings` value, with `DefaultSettings` holding the built-in defaults. `os.getuid`/`getgid`, the `/etc/timezone` read, timestamps and `uuid` names are parameters.
- Not modelled: the pycompss decorator and `compss_wait_on`, logging, `Metadata` construction, the image scan, and the packing of results after validation in `run`.
- The dead `if False` / `else` branches of the setup-option code are not modelled.
- The regular expression of `guessNextflowVersion` is not modelled. Each line arrives already parsed as an optional `(modifier, version)`.
- Runner.Runner.ValidateAndAssess: the identity `identifyRepo` observes is not compared with the requested coordinates. In the code a mismatch only changes log output.
- Retry.RunWithRetries: the `subprocess.call` of each attempt is the value `exitOf(k)`. Output streams and signals are not modelled.
- Integers are unbounded. Exit codes and retry counts are Python integers, so there is no width to model.

- Configuration values are text, booleans or integers. `null` and floating-point values are not modelled; a `null` or `0.0` profile would pass no `-profile`.
- Runner.PlanAndRun: with a profile that is not text and no attempt allowed, the recorded command lines carry no profile. They are never run.
- Archive.ReplaceFirst: the `--transform` pattern (tool/vre_nf.py:364) is matched as literal text. GNU tar reads it as a sed regular expression, so a results path containing `.`, `*`, `[` or `\` may be renamed differently by tar.

Behaviour of the code that the model keeps:

- When the remote or revision query of `identifyRepo` fails, its result is `None`, and concatenating it into a log line (tool/vre_nf.py:443) raises. The model raises `UnidentifiedWorkflow`. A failing `git status` leaves the taint flag `None`, which the code accepts.
- A profile set to a true value that is not text is placed in the command line; joining the command for the log of the first attempt raises (tool/vre_nf.py:723). The model raises `BadSetting` there.
- `samefile` (tool/vre_nf.py:594) raises when the project or execution directory does not exist, before any input is checked. The model raises `MissingDirectory`. In the code the execution directory always exists by then, because `os.makedirs(results_loc)` (tool/vre_nf.py:472) creates it along with the results directory inside it; the model's filesystem is a fixed snapshot, so its `MissingDirectory(exec)` case only arises from a snapshot where that directory is absent.
- A repository URI or revision set to a value that is not text cannot be hashed (tool/vre_nf.py:199-200), so materialising it fails and the run returns false; with an existing snapshot it always differs from the identified coordinates, and the warning that concatenates it (tool/vre_nf.py:446) raises. A relative directory that is not text raises in `len` (tool/vre_nf.py:438). The model raises `BadSetting` for the last two.
- A `__config_dir__` that is not text (a number, a boolean or a list, which is read before lists are joined at tool/vre_nf.py:142-146) cannot be joined with a relative project (tool/vre_nf.py:399, 785). The model raises `BadSetting("__config_dir__")` there.
- Output mounts use mode `rprivate,z`, with no `rw` flag, as written at tool/vre_nf.py:670.
- The plan skips the mount of an output by the character-wise test of tool/vre_nf.py:651, as written; the corrected component-wise test is modelled beside it (see Findings).
- The temporary directories are not removed on every exit path. The early returns leave them in place.

## Findings

| source | as written | input that shows it | evidently intended | confidence | as-written member | corrected member |
|---|---|---|---|---|---|---|
| tool/vre_nf.py:651 | an output is skipped when `os.path.commonprefix` of its normalised path and the execution directory is the execution directory; that is a character-wise prefix test | execution directory `/data/run`, output `/data/run2/out.json`: the test skips it, so it gets no mount although it lies outside every mounted directory | skip only outputs inside the execution directory, component by component | high for the input shown; not executed | Planner.SiblingOutputUnmounted | Planner.OutsideOutputsMounted |
