# zmk-keyboards `build.py`, modelled in Dafny

`build.py` builds ZMK keyboard firmware inside a long-lived Docker container.
For each `build.yaml` given on the command line it runs up to three phases:

- `init` recreates the container and the `zmk_work` workspace, then runs `west init`.
- `update` runs `west update`.
- `build` parses the manifest into `(board, shield, snippet, cmake-args)` targets.
  It runs one `west build` per target and copies each `zmk.uf2` to `zmk_work/<shield>.uf2`.
  It stops at the first target whose artifact is missing.

This project models that core:

- `wrappers.dfy`: `Option`, `Result` and `Outcome`, the shapes of "returns or raises".
- `text.dfy`: `" ".join`, the split of a command line into arguments, `readlines` and `startswith`.
- `manifest.dfy`: the loaded manifest as a datatype, and `_parse_build_list`.
- `command.dfy`: the `west build` command of `_build`.
- `gitignore.dfy`: `_add_gitignore`, as written and corrected (see Findings).
- `containers.dfy`: the container runtime as abstract state, and `zmkContainer`.
  The state is a name→status map, the local images, and a log of every runtime action.
- `builder.dfy`: `zmkBuilder` (construction, `init`, `update`, `build`) and `main`.

The build command is one string that Docker's client library cuts into
arguments. The model shows that a project directory with a space in its path
breaks it: the application directory reaches `west` as several arguments.

The firmware toolchain is an oracle `built: Target -> bool`. It says whether
`zephyr/zmk.uf2` exists after a target's build. The disk is reduced to two things:
whether `zmk_work/zmk` exists, and the map of collected `<shield>.uf2` files.

## Model

| member | source | states |
|---|---|---|
| `Manifest.ParseBuildList` | build.py:172-195 | Loop with early raise. Its result is `BuildList`: an error for an empty document, a missing `include`, or any entry lacking `board` or `shield`; otherwise one target per entry, in entry order. |
| `Manifest.BuildListMeaning` | build.py:175-188 | Parsing fails exactly on the three configuration errors. On success the list has one tuple per entry. Board and shield are copied. Absent `snippet`/`cmake-args` become `""`. |
| `Manifest.ParseManifestFor` | build.py:180-188 | Round trip: any target list written as a manifest parses back to itself. This includes duplicates and empty optional fields, in order. |
| `Command.BuildCommandText` | build.py:202-215 | For every input, `BuildCommand` is the fourteen tokens of the list, each one space apart. An off `-p` or snippet flag is an empty token and leaves two spaces in a row. |
| `Command.BuildCommandArguments` | build.py:197-215 | For every input, the arguments `west` gets once the text is cut at spaces. Off flags vanish. `-S` precedes the snippet's words. Every other token gives its own words. So a path, board or shield with a space arrives as several arguments, and an empty board as none. The extra CMake arguments follow word by word, unchecked. |
| `Command.BuildCommandSingleWords` | build.py:202-215 | With non-empty, space-free paths and board and a space-free shield, each of them is exactly one argument, right after its flag. |
| `Command.EmptyBoardShiftsArguments` | build.py:207 | An empty board gives no argument, so `-b` takes `-d` as its value. |
| `Command.SnippetFlagWords` | build.py:200 | An empty snippet gives no argument. A non-empty one gives `-S` and then its words. |
| `Text.Lines` | build.py:126-127 | `readlines` cuts the text after every line feed and nowhere else. The lines concatenated give the text back. No line is empty. A line feed occurs only as a line's last character. Every line but the last ends with one. |
| `Text.WordsAreWords` | build.py:95 | Every argument the command string is cut into is non-empty and holds no space. |
| `Text.WordsOfJoinSnoc` | build.py:202-215 | Splitting a space-joined list at spaces gives each token's words in turn. An empty token gives none. |
| `Gitignore.HasEntry` | build.py:125-130 | The early-return loop over the lines answers whether some line starts with `zmk_work`. |
| `Gitignore.AddGitignore` | build.py:123-133 | As written: the file is unchanged when listed. Otherwise the bare name is appended with no line break. A missing file is created holding just the name. |
| `Gitignore.GluedEntryCounterexample` | build.py:132-133 | As written, a file `build` with no final line break becomes `buildzmk_work`. That still does not list the directory, and the next run appends again. |
| `Gitignore.AppendedAgreesWhenTerminated` | build.py:132-133 | The as-written and corrected updates agree exactly when the file is empty, already ends with a line break, or already lists the name. |
| `Gitignore.AddGitignoreOnOwnLine` | build.py:132-133 | Corrected update: a line break is added first when the last line lacks one. |
| `Gitignore.OwnLineListsName` | build.py:123-133 | After the corrected update the file keeps its old content as a prefix and lists `zmk_work`. If the name was missing, it is now the whole last line. |
| `Gitignore.OwnLineIdempotent` | build.py:123-133 | A second corrected update leaves the file unchanged. |
| `Containers.Runtime.Pull` | build.py:55 | `docker pull` adds the image locally. |
| `Containers.Runtime.Run` | build.py:63-70 | Creating a container under a free name leaves it running, with the workspace mounted. |
| `Containers.Runtime.Start` | build.py:73 | Starting a container makes it running. |
| `Containers.Runtime.Stop` | build.py:90 | Stopping a container makes it exited. |
| `Containers.Runtime.Remove` | build.py:91 | Removing a container deletes its name from the runtime. |
| `Containers.Runtime.AwaitRunning` | build.py:74-78 | The polling loop ends with the container running. Nothing else changes. |
| `Containers.Runtime.Exec` | build.py:95-97 | A command runs in a running container. The state is unchanged and the command is logged. |
| `Containers.ContainerHandle.RemoveContainer` | build.py:82-91 | The name becomes absent. A running container is stopped first. A missing one is left alone. |
| `Containers.ContainerHandle.PullImage` | build.py:51-55 | Pulls only when the image is missing. Afterwards the image is present. |
| `Containers.ContainerHandle.StartContainer` | build.py:57-80 | Creates when absent, starts when exited, reuses anything else. Afterwards the container is running and no other container has changed. |
| `Containers.ContainerHandle.Exec` | build.py:93-97 | Runs the command in the project's container at the given directory. |
| `Containers.ContainerHandle.constructor` | build.py:40-49 | With `force_new`: remove, pull if needed, then ensure. Afterwards the container is running and the actions taken are exactly `ProvisionEvents`. |
| `Containers.ForceNewRecreates` | build.py:44-47 | With `force_new`, the first action is the stop of a running container, or the removal of an exited one. A stop is directly followed by the removal. An absent name is neither stopped nor removed. Exactly one new container is created, as the last action, and nothing is started. |
| `Containers.ReuseWithoutForce` | build.py:57-80 | Without `force_new`, an absent name gets one creation and an exited container gets one start. Nothing is stopped or removed. |
| `Containers.EnsureTwiceCreatesOnce` | build.py:57-80 | Ensuring twice without `force_new` creates at most once. The second call asks nothing of the runtime. |
| `Containers.EnsureTwice` | build.py:145-150 | Two phases in a row obtain the container with at most one creation. The container is running afterwards and the image is present. The runtime log gains exactly the two provisions' actions in order; the second one's are empty. |
| `Builder.LayoutInsideMount` | build.py:105-113 | As path strings, every directory the commands run in or name starts with `zmk_work/`, the mounted directory, and distinct shields give distinct build-directory strings. For a shield that is a plain name, with no `/` and not `.` or `..`, these are facts about the directories themselves. |
| `Builder.SpacedDirectorySplitsAppDir` | build.py:198-206 | When the project directory has a space in its path, `-s <appdir>` reaches `west` as two or more arguments. The first is the part of the path before the space. |
| `Builder.FirstMissing` | build.py:156-170 | The first target whose artifact is missing: every earlier target's artifact exists and this one's does not. |
| `Builder.CollectedNames` | build.py:165-167 | The collected files are the earlier ones plus exactly `<shield>.uf2` for the shields of the targets. |
| `Builder.CollectedLastWins` | build.py:162-167 | When shields repeat, `<shield>.uf2` holds the artifact of the last such target. Shields are compared as strings, which matches files for plain shield names. |
| `Builder.BuildEventsInOrder` | build.py:156-170 | Each target reached runs two commands in order: its build, then the permission fix on its build directory. No other target appears. |
| `Builder.Builder.constructor` | build.py:101-121 | Derives the layout and updates `.gitignore`. No container is obtained yet. |
| `Builder.Builder.Init` | build.py:135-142 | Recreates the container. Fixes permissions when the workspace exists. Runs `west init -l <config>`. The runtime actions are exactly `InitEvents`. Afterwards the workspace exists and the container is running. |
| `Builder.Builder.Update` | build.py:144-147 | Obtains the container without recreating it, then runs `west update`. The runtime actions are exactly `UpdateEvents`. Afterwards the workspace exists and the container is running. |
| `Builder.Builder.Setup` | build.py:227-230 | `init` runs only when asked. `update` runs when asked or after `init`. The workspace exists afterwards exactly when it did before or a phase ran. The runtime actions are `SetupEvents`, `init`'s first. A container is held afterwards when a phase ran. The collected artifacts and the `.gitignore` are left unchanged. |
| `Builder.Builder.BuildTarget` | build.py:197-221 | Runs exactly the target's `west build` command in the workspace. |
| `Builder.Builder.BuildOne` | build.py:162-164 | One loop pass: the target's build command, then `chmod` on its build directory. |
| `Builder.Builder.BuildLoop` | build.py:156-170 | The loop stops at `FirstMissing`. It runs the commands of every target up to and including that one, in order. It copies only the artifacts of the targets before it. |
| `Builder.Builder.BuildTargets` | build.py:156-170 | Builds targets in order up to and including the first with a missing artifact. Fails with that shield, else succeeds. Copies only the artifacts before it, later copies winning. `ArtifactMissing(shield)` is the model's record of where the build stopped: build.py:170 raises the fixed message `build failed, uf2 not found`, which names no shield. |
| `Builder.Builder.Build` | build.py:149-170 | The outcome, the runtime actions and the collected artifacts are `BuildOutcome`, `BuildPhaseEvents` and `BuildOutputs` of the workspace flag, the manifest and the toolchain. The container is left running. |
| `Builder.BuildPhaseCases` | build.py:149-170 | A missing workspace fails before any export. A bad manifest fails after `west zephyr-export` and before any build. Otherwise the targets run in order up to and including the first missing artifact, which names the failure. Only the artifacts before it are copied. |
| `Builder.Phases` | build.py:227-231 | `init` iff requested. `update` iff requested or `init` is. `build` always, last, in declared order. |
| `Builder.PlanInOrder` | build.py:224-231 | Manifests are handled in list order, and each one's phases in declared order. |
| `Builder.PlanCovers` | build.py:224-231 | The plan for `n` manifests runs exactly the selected phases of each of them. |
| `Command.BuildCommandIsWestBuild` | build.py:202-204 | Whatever the target, its command starts with `west build`. |
| `Builder.BuildPhaseHasNoMarker` | build.py:149-170 | The build phase never runs `west init` or `west update`. |
| `Builder.SetupRunsPhases` | build.py:227-230 | Before the build, the runtime runs `west init` exactly when `init` is among `Phases`, and `west update` exactly when `update` is. `west init` comes first. No build-phase command runs. |
| `Builder.ProjectRunsPhases` | build.py:226-231 | In one manifest's whole turn, the runtime log holds `west init` exactly when `init` is among `Phases`, and `west update` exactly when `update` is. `west init` precedes `west update`. Both precede `west zephyr-export` and every `west build`. This ties the selected phases to the commands actually run. |
| `Builder.WorkspaceMissingOnlyWithoutSetup` | build.py:227-231 | Without `init` or `update`, a project with no workspace fails its build for that reason, and only such a project does. |
| `Builder.RunProject` | build.py:226-231 | One manifest: the builder, then its selected phases in order. The result is the manifest's `ProjectOutcome`. The runtime actions are exactly `ProjectEvents`. The container is left running. The returned outputs are `BuildOutputs` from an empty map: the `<shield>.uf2` files this turn copies. |
| `Builder.RunTurn` | build.py:225-231 | One pass of `main`'s loop after the earlier ones. The trace gains this manifest's phases. The runtime gains this turn's actions. |
| `Builder.RunAll` | build.py:224-231 | `main` succeeds exactly when every manifest's build does. On failure, every earlier manifest passed, and `RunError(project, cause)` records the first failing manifest and its cause. That error is the model's record of where the run stopped: the exception the source raises (build.py:170) carries a fixed message and names neither. The trace is the plan up to and including that manifest. The runtime holds exactly those turns' actions, in order. |

## Left out

- `subprocessRunner` (build.py:14-36): process spawning and output streaming are I/O. All `print` logging is left out.
- The Docker SDK itself: each call becomes a transition on the abstract runtime. Exec output and exit codes are not modelled; the source ignores them.
- `docker pull` (build.py:55): its exit code is not checked, so the model's pull always succeeds.
- The polling loop (build.py:74-78) has no timeout. The model assumes the runtime reports `running` eventually. A paused container, for example, would hang the source.
- Docker-side failures are not modelled, such as removing a paused container or a name taken by another project.
- `yaml.safe_load` (build.py:174): YAML syntax is not modelled. Field values are strings and entries are mappings.
- Only two document shapes are modelled: an empty document, and a mapping whose `include` is absent or a list of mappings.
  - A string document without `include` in it fails with the missing-`include` error.
  - `include: ""` and `include: {}` iterate over nothing, so the build succeeds with no targets, as `include: []` does.
  - Other shapes are not modelled, such as `include: null`, other strings and non-mapping entries.
- `shutil.copytree`, `rmtree`, `copy` and `mkdir` (build.py:139-153, 167) are not modelled as file operations. The workspace is a flag for whether `zmk_work/zmk` exists, plus the map of collected artifacts.
- The overlay behaviour of the configuration and board copies is not modelled.
- Builder.LayoutInsideMount: paths are joined as strings with `/` and never normalised. pathlib's `/` discards its left side when the right side is absolute, and collapses `.`, `//` and a trailing `/`. So for a shield such as `/x`, `../x`, `./x` or `x/`, the model's directory and `<shield>.uf2` strings are not the paths the source uses. An absolute shield even builds outside `zmk_work`. This lemma, `Builder.Uf2NameInjective` and `Builder.CollectedLastWins` hold of the strings, and of the files only for plain shield names.
- The existence checks for `boards/` and `config/` (build.py:115-118) are not modelled.
- `handle_args` and argparse, the `debugpy` branch (build.py:234-264), and the commented-out list-valued `shield` (build.py:189-193) are not modelled.
- Command.BuildCommandArguments: splitting a command into arguments is modelled as a cut at spaces. Docker's client library uses `shlex.split`, which also cuts at tabs, newlines and carriage returns and honours quotes and backslashes. So the lemma describes the source only for tokens without those characters. A `cmake-args` written as a YAML block scalar, for example, can hold newlines.
- Text.Lines: text-mode `readlines` also treats `\r\n` and a lone `\r` as line breaks. The model cuts only after `\n`, so a `.gitignore` with `\r` line breaks reads as fewer lines.
- The toolchain oracle depends on the target only. An artifact left over from an earlier run is one the oracle reports as present.
- Each `Builder` keeps its own workspace state. Two manifests in one directory would share a workspace on disk.
- Builder.Builder.constructor: uses the corrected `.gitignore` update (`AddGitignoreOnOwnLine`), not the as-written one. See Findings.

## Findings

| source | as written | input that shows it | evidently intended | confidence | as-written member | corrected member |
|---|---|---|---|---|---|---|
| build.py:132-133 | `f.write(self.workdir_top.name)` appends the bare name with no line break before it | a `.gitignore` holding `build` with no final line break becomes `buildzmk_work`; `zmk_work` is still not ignored, and the next run appends it again | the name goes on a line of its own, so it is listed and a later run changes nothing | high, not executed | `Gitignore.GluedEntryCounterexample` | `Gitignore.OwnLineIdempotent` |
