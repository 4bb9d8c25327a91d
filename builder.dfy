/**
 * `zmkBuilder` and `main`: the init, update and build phases of one
 * project, and the run over all manifests given on the command line.
 *
 * The firmware toolchain is an oracle `built`: whether `zephyr/zmk.uf2`
 * exists in a target's build directory once its build command has run.
 * The workspace on disk is reduced to whether `zmk_work/zmk` exists and the
 * `<shield>.uf2` files copied to `zmk_work`, each recorded with the target
 * whose artifact it holds.
 */
module Builder {
  import opened Wrappers
  import opened Text
  import opened Manifest
  import opened Command
  import opened Gitignore
  import opened Containers

  /** The directories derived from the directory holding `build.yaml`. */
  datatype Layout = Layout(curdir: string) {
    function WorkdirTop(): string { curdir + "/" + WorkdirName }
    function Workdir(): string { WorkdirTop() + "/zmk" }
    function ConfDir(): string { Workdir() + "/config" }
    function BuildRoot(): string { Workdir() + "/build" }
    function AppDir(): string { Workdir() + "/zmk/app" }
    function BuildDir(shield: string): string { BuildRoot() + "/" + shield }

    /** The `west build` command for one target. */
    function TargetCommand(t: Target, prinstine: bool): string
    {
      BuildCommand(t.board, t.shield, BuildDir(t.shield), prinstine, t.snippet, t.cmakeArgs,
                   AppDir(), ConfDir())
    }
  }

  /**
   * Every directory the commands run in or name lies inside `zmk_work`,
   * which the container mounts at the same path, and distinct shields
   * build in distinct directories.
   */
  lemma LayoutInsideMount(layout: Layout, a: string, b: string)
    ensures StartsWith(layout.Workdir(), layout.WorkdirTop() + "/")
    ensures StartsWith(layout.ConfDir(), layout.WorkdirTop() + "/")
    ensures StartsWith(layout.AppDir(), layout.WorkdirTop() + "/")
    ensures StartsWith(layout.BuildDir(a), layout.WorkdirTop() + "/")
    ensures layout.BuildDir(a) == layout.BuildDir(b) <==> a == b
  {
    var top, work := layout.WorkdirTop(), layout.Workdir();
    var n := |top + "/"|;
    assert work[..n] == top + "/";
    assert (work + "/config")[..n] == work[..n];
    assert (work + "/zmk/app")[..n] == work[..n];
    assert (work + "/build" + "/" + a)[..n] == work[..n];
    var root := layout.BuildRoot() + "/";
    if layout.BuildDir(a) == layout.BuildDir(b) {
      assert |a| == |b|;
      assert a == layout.BuildDir(a)[|root|..] && b == layout.BuildDir(b)[|root|..];
    }
  }

  /**
   * A project directory with a space in it breaks the build command: the
   * application directory reaches `west` as two or more arguments, the
   * first being the part of the path before the space.
   */
  lemma SpacedDirectorySplitsAppDir(a: string, b: string)
    requires a != "" && ' ' !in a
    ensures var ws := Words(Layout(a + " " + b).AppDir());
      |ws| >= 2 && ws[0] == a
  {
    var rest := b + "/" + WorkdirName + "/zmk" + "/zmk/app";
    assert Layout(a + " " + b).AppDir() == a + " " + rest;
    WordsAroundSpace(a, rest);
    WordsOfPlain(a);
    WordsNonEmpty(rest, |b|);
  }

  /** The name of the collected artifact in `zmk_work`. */
  function Uf2Name(shield: string): string
  {
    shield + ".uf2"
  }

  const Chmod := "chmod 777 -R ."
  const WestUpdate := "west update"
  const WestExport := "west zephyr-export"

  function WestInit(confdir: string): string
  {
    "west init -l " + confdir
  }

  /** Why a build phase raises. */
  datatype BuildError =
    | WorkspaceMissing            // `mkdir` of the build directory without its parent
    | BadManifest(cause: ParseError)
    | ArtifactMissing(shield: string)  // "build failed, uf2 not found"

  /** Index of the first target whose artifact is missing, `|ts|` when there is none. */
  function FirstMissing(ts: seq<Target>, built: Target -> bool): (k: nat)
    ensures k <= |ts|
    ensures forall i :: 0 <= i < k ==> built(ts[i])
    ensures k < |ts| ==> !built(ts[k])
  {
    if ts == [] || !built(ts[0]) then 0 else 1 + FirstMissing(ts[1..], built)
  }

  /** The artifacts in `zmk_work`, starting from `before`, after copying those of `ts` in order. */
  function Collected(before: map<string, Target>, ts: seq<Target>): map<string, Target>
  {
    if ts == [] then before
    else Collected(before, ts[..|ts| - 1])[Uf2Name(ts[|ts| - 1].shield) := ts[|ts| - 1]]
  }

  /** The commands run in the container for one target: the build, then the permission fix. */
  function TargetEvents(layout: Layout, name: string, t: Target, prinstine: bool): seq<Event>
  {
    [Executed(name, layout.TargetCommand(t, prinstine), layout.Workdir()),
     Executed(name, Chmod, layout.BuildDir(t.shield))]
  }

  /** The commands run in the container while building `ts` in order. */
  function BuildEvents(layout: Layout, name: string, ts: seq<Target>, prinstine: bool): seq<Event>
  {
    if ts == [] then []
    else BuildEvents(layout, name, ts[..|ts| - 1], prinstine) + TargetEvents(layout, name, ts[|ts| - 1], prinstine)
  }

  /** Everything `init` asks of the runtime, from the state the runtime is in when it starts. */
  function InitEvents(cs: map<string, Status>, images: set<string>, layout: Layout, name: string,
                      workdirExists: bool): seq<Event>
  {
    ProvisionEvents(cs, images, name, layout.WorkdirTop(), true)
    + (if workdirExists then [Executed(name, Chmod, layout.Workdir())] else [])
    + [Executed(name, WestInit(layout.ConfDir()), layout.Workdir())]
  }

  /** Everything `update` asks of the runtime. */
  function UpdateEvents(cs: map<string, Status>, images: set<string>, layout: Layout, name: string): seq<Event>
  {
    ProvisionEvents(cs, images, name, layout.WorkdirTop(), false)
    + [Executed(name, WestUpdate, layout.Workdir())]
  }

  /** Everything the phases before `build` ask of the runtime: `init` when asked, then `update`. */
  function SetupEvents(cs: map<string, Status>, images: set<string>, layout: Layout, name: string,
                       workdirExists: bool, init: bool, update: bool): seq<Event>
  {
    (if init then InitEvents(cs, images, layout, name, workdirExists) else [])
    + (if init || update then UpdateEvents(if init then cs[name := Running] else cs,
                                           if init then images + {Image} else images, layout, name)
       else [])
  }

  /** How `build` ends: the first of its checks that fails, or success. */
  function BuildOutcome(workdirExists: bool, manifest: Document, built: Target -> bool): Outcome<BuildError>
  {
    if !workdirExists then Fail(WorkspaceMissing)
    else if BuildList(manifest).Err? then Fail(BadManifest(BuildList(manifest).error))
    else
      var ts := BuildList(manifest).value;
      var k := FirstMissing(ts, built);
      if k < |ts| then Fail(ArtifactMissing(ts[k].shield)) else Pass
  }

  /** Everything `build` asks of the runtime, up to where it returns or raises. */
  function BuildPhaseEvents(cs: map<string, Status>, images: set<string>, layout: Layout, name: string,
                            workdirExists: bool, manifest: Document, built: Target -> bool,
                            prinstine: bool): seq<Event>
  {
    var provision := ProvisionEvents(cs, images, name, layout.WorkdirTop(), false);
    var exported := [Executed(name, WestExport, layout.Workdir())];
    if !workdirExists then provision
    else if BuildList(manifest).Err? then provision + exported
    else
      var ts := BuildList(manifest).value;
      var k := FirstMissing(ts, built);
      provision + exported + BuildEvents(layout, name, ts[..if k < |ts| then k + 1 else k], prinstine)
  }

  /** The artifacts in `zmk_work` once `build` returns or raises. */
  function BuildOutputs(before: map<string, Target>, workdirExists: bool, manifest: Document,
                        built: Target -> bool): map<string, Target>
  {
    if !workdirExists || BuildList(manifest).Err? then before
    else
      var ts := BuildList(manifest).value;
      Collected(before, ts[..FirstMissing(ts, built)])
  }

  /**
   * `build` stops at the first check that fails: a missing workspace fails
   * before any export; a bad manifest fails after `west zephyr-export` and
   * before any build; otherwise the targets are built in order up to and
   * including the first whose artifact is missing, which names the failure,
   * and only the artifacts before it are copied.
   */
  lemma BuildPhaseCases(cs: map<string, Status>, images: set<string>, layout: Layout, name: string,
                        workdirExists: bool, manifest: Document, built: Target -> bool, prinstine: bool,
                        before: map<string, Target>)
    ensures var outcome := BuildOutcome(workdirExists, manifest, built);
      var events := BuildPhaseEvents(cs, images, layout, name, workdirExists, manifest, built, prinstine);
      var outputs := BuildOutputs(before, workdirExists, manifest, built);
      var provision := ProvisionEvents(cs, images, name, layout.WorkdirTop(), false);
      var exported := provision + [Executed(name, WestExport, layout.Workdir())];
      && (!workdirExists ==> outcome == Fail(WorkspaceMissing) && events == provision && outputs == before)
      && (workdirExists && BuildList(manifest).Err? ==>
            outcome == Fail(BadManifest(BuildList(manifest).error)) && events == exported && outputs == before)
      && (workdirExists && BuildList(manifest).Ok? ==>
            var ts := BuildList(manifest).value;
            var k := FirstMissing(ts, built);
            && (outcome == Pass <==> k == |ts|)
            && (k < |ts| ==> outcome == Fail(ArtifactMissing(ts[k].shield)))
            && events == exported + BuildEvents(layout, name, ts[..if k < |ts| then k + 1 else k], prinstine)
            && outputs == Collected(before, ts[..k]))
  {
  }

  lemma Uf2NameInjective(a: string, b: string)
    ensures Uf2Name(a) == Uf2Name(b) <==> a == b
  {
    if Uf2Name(a) == Uf2Name(b) {
      assert |a| == |b|;
      assert a == Uf2Name(a)[..|a|];
    }
  }

  lemma AppendTwo(a: seq<Event>, e1: Event, e2: Event)
    ensures a + [e1] + [e2] == a + [e1, e2]
  {
  }

  lemma AppendAssoc(a: seq<Event>, b: seq<Event>, c: seq<Event>)
    ensures a + b + c == a + (b + c)
  {
  }

  lemma BuildEventsStep(layout: Layout, name: string, ts: seq<Target>, i: nat, prinstine: bool)
    requires i < |ts|
    ensures BuildEvents(layout, name, ts[..i + 1], prinstine)
         == BuildEvents(layout, name, ts[..i], prinstine) + TargetEvents(layout, name, ts[i], prinstine)
  {
    assert ts[..i + 1][..i] == ts[..i];
  }

  lemma CollectedStep(before: map<string, Target>, ts: seq<Target>, i: nat)
    requires i < |ts|
    ensures Collected(before, ts[..i + 1]) == Collected(before, ts[..i])[Uf2Name(ts[i].shield) := ts[i]]
  {
    assert ts[..i + 1][..i] == ts[..i];
  }

  /** Exactly the shields of the targets get a `<shield>.uf2`; earlier files stay. */
  lemma {:induction false} CollectedNames(before: map<string, Target>, ts: seq<Target>)
    ensures Collected(before, ts).Keys == before.Keys + set i | 0 <= i < |ts| :: Uf2Name(ts[i].shield)
  {
    if ts != [] {
      var front := ts[..|ts| - 1];
      CollectedNames(before, front);
      assert (set i | 0 <= i < |ts| :: Uf2Name(ts[i].shield))
          == (set i | 0 <= i < |front| :: Uf2Name(front[i].shield)) + {Uf2Name(ts[|ts| - 1].shield)} by {
        forall i | 0 <= i < |front| ensures front[i] == ts[i] { }
      }
    }
  }

  /**
   * When several targets share a shield, `<shield>.uf2` holds the artifact
   * of the last of them.
   */
  lemma {:induction false} CollectedLastWins(before: map<string, Target>, ts: seq<Target>, i: nat)
    requires i < |ts|
    requires forall j :: i < j < |ts| ==> ts[j].shield != ts[i].shield
    ensures Uf2Name(ts[i].shield) in Collected(before, ts) && Collected(before, ts)[Uf2Name(ts[i].shield)] == ts[i]
  {
    if i < |ts| - 1 {
      var front := ts[..|ts| - 1];
      Uf2NameInjective(ts[|ts| - 1].shield, ts[i].shield);
      assert front[i] == ts[i];
      forall j | i < j < |front| ensures front[j].shield != front[i].shield {
        assert front[j] == ts[j];
      }
      CollectedLastWins(before, front, i);
    }
  }

  /**
   * The build loop runs two commands per target it reaches, in target
   * order: the build itself, then the permission fix on its build
   * directory. No command names a target it did not reach.
   */
  lemma {:induction false} BuildEventsInOrder(layout: Layout, name: string, ts: seq<Target>, prinstine: bool)
    ensures |BuildEvents(layout, name, ts, prinstine)| == 2 * |ts|
    ensures forall i :: 0 <= i < |ts| ==>
      && BuildEvents(layout, name, ts, prinstine)[2 * i]
           == Executed(name, layout.TargetCommand(ts[i], prinstine), layout.Workdir())
      && BuildEvents(layout, name, ts, prinstine)[2 * i + 1]
           == Executed(name, Chmod, layout.BuildDir(ts[i].shield))
  {
    if ts != [] {
      var front := ts[..|ts| - 1];
      BuildEventsInOrder(layout, name, front, prinstine);
      forall i | 0 <= i < |front| ensures ts[i] == front[i] { }
    }
  }

  /** A project as `main` receives it, with the state of its disk and toolchain. */
  datatype Project = Project(
    curdir: string,              // the resolved directory holding build.yaml
    dirName: string,             // its name, which names the container
    manifest: Document,          // build.yaml, loaded
    gitignore: Option<string>,   // .gitignore, None when it does not exist
    workdirExists: bool,         // whether zmk_work/zmk exists
    built: Target -> bool)       // whether the toolchain leaves an artifact for a target

  /** `zmkBuilder`. */
  class Builder {
    const runtime: Runtime
    const layout: Layout
    const containerName: string
    const manifest: Document
    /** The content of `.gitignore` after construction. */
    var gitignore: string
    var workdirExists: bool
    /** The `<shield>.uf2` files copied to `zmk_work`, and the target whose artifact each holds. */
    var outputs: map<string, Target>
    var container: ContainerHandle?

    ghost predicate Valid()
      reads this
    {
      container != null ==>
        container.runtime == runtime && container.name == containerName
        && container.mountdir == layout.WorkdirTop()
    }

    /** `zmkBuilder.__init__`, with the `.gitignore` update corrected to write a line of its own. */
    constructor (runtime: Runtime, project: Project)
      ensures Valid()
      ensures this.runtime == runtime && layout == Layout(project.curdir)
      ensures containerName == project.dirName && manifest == project.manifest
      ensures gitignore == AppendedOnOwnLine(project.gitignore)
      ensures workdirExists == project.workdirExists && outputs == map[] && container == null
    {
      this.runtime := runtime;
      layout := Layout(project.curdir);
      containerName := project.dirName;
      manifest := project.manifest;
      workdirExists := project.workdirExists;
      outputs := map[];
      container := null;
      new;
      gitignore := AddGitignoreOnOwnLine(project.gitignore);
    }

    /**
     * `init`: recreate the container, clear and recreate the workspace
     * (fixing permissions first when it exists), then `west init`.
     */
    method Init()
      requires Valid()
      modifies this, runtime
      ensures Valid() && container != null && workdirExists
      ensures runtime.containers == old(runtime.containers)[containerName := Running]
      ensures runtime.images == old(runtime.images) + {Image}
      ensures runtime.events == old(runtime.events)
        + InitEvents(old(runtime.containers), old(runtime.images), layout, containerName, old(workdirExists))
      ensures outputs == old(outputs) && gitignore == old(gitignore)
    {
      container := new ContainerHandle(runtime, containerName, layout.WorkdirTop(), true);
      if workdirExists {
        container.Exec(Chmod, layout.Workdir());
      }
      workdirExists := true;
      container.Exec(WestInit(layout.ConfDir()), layout.Workdir());
    }

    /** `update`: obtain the container, refresh the configuration copy, `west update`. */
    method Update()
      requires Valid()
      modifies this, runtime
      ensures Valid() && container != null && workdirExists
      ensures runtime.containers == old(runtime.containers)[containerName := Running]
      ensures runtime.images == old(runtime.images) + {Image}
      ensures runtime.events == old(runtime.events)
        + UpdateEvents(old(runtime.containers), old(runtime.images), layout, containerName)
      ensures outputs == old(outputs) && gitignore == old(gitignore)
    {
      container := new ContainerHandle(runtime, containerName, layout.WorkdirTop(), false);
      // Copying the configuration creates the workspace directory when it is missing.
      workdirExists := true;
      container.Exec(WestUpdate, layout.Workdir());
    }

    /** The phases `main` runs before `build`: `init` when asked, `update` when asked or after `init`. */
    method Setup(init: bool, update: bool)
      requires Valid()
      modifies this, runtime
      ensures Valid() && workdirExists == (old(workdirExists) || init || update)
      ensures if init || update then container != null else container == old(container)
      ensures outputs == old(outputs) && gitignore == old(gitignore)
      ensures runtime.containers
           == if init || update then old(runtime.containers)[containerName := Running] else old(runtime.containers)
      ensures runtime.images == if init || update then old(runtime.images) + {Image} else old(runtime.images)
      ensures runtime.events == old(runtime.events)
        + SetupEvents(old(runtime.containers), old(runtime.images), layout, containerName,
                      old(workdirExists), init, update)
    {
      ghost var start, cs, images := runtime.events, runtime.containers, runtime.images;
      ghost var initEvents: seq<Event> := [];
      if init {
        Init();
        initEvents := InitEvents(cs, images, layout, containerName, old(workdirExists));
      }
      assert runtime.events == start + initEvents;
      ghost var updateEvents: seq<Event> := [];
      if update || init {
        ghost var cs1, images1 := runtime.containers, runtime.images;
        Update();
        updateEvents := UpdateEvents(cs1, images1, layout, containerName);
        AppendAssoc(start, initEvents, updateEvents);
      }
      assert init ==> runtime.containers == cs[containerName := Running];
    }

    /** `_build`: run the `west build` command for one target. */
    method BuildTarget(t: Target, builddir: string, prinstine: bool)
      requires builddir == layout.BuildDir(t.shield)
      requires Valid() && container != null
      requires containerName in runtime.containers && runtime.containers[containerName] == Running
      modifies runtime
      ensures runtime.containers == old(runtime.containers) && runtime.images == old(runtime.images)
      ensures runtime.events == old(runtime.events)
        + [Executed(containerName, layout.TargetCommand(t, prinstine), layout.Workdir())]
    {
      var cmd := BuildCommand(t.board, t.shield, builddir, prinstine, t.snippet, t.cmakeArgs,
                              layout.AppDir(), layout.ConfDir());
      container.Exec(cmd, layout.Workdir());
    }

    /**
     * `build`: obtain the container, export the toolchain, parse the
     * manifest, then build the targets in order, copying each artifact to
     * `zmk_work/<shield>.uf2` and stopping at the first one that is missing.
     */
    method Build(prinstine: bool, built: Target -> bool) returns (outcome: Outcome<BuildError>)
      requires Valid()
      modifies this, runtime
      ensures Valid() && container != null
      ensures runtime.containers == old(runtime.containers)[containerName := Running]
      ensures runtime.images == old(runtime.images) + {Image}
      ensures workdirExists == old(workdirExists) && gitignore == old(gitignore)
      ensures outcome == BuildOutcome(workdirExists, manifest, built)
      ensures outputs == BuildOutputs(old(outputs), workdirExists, manifest, built)
      ensures runtime.events == old(runtime.events)
        + BuildPhaseEvents(old(runtime.containers), old(runtime.images), layout, containerName,
                           workdirExists, manifest, built, prinstine)
    {
      ghost var start := runtime.events;
      ghost var provision := ProvisionEvents(runtime.containers, runtime.images, containerName, layout.WorkdirTop(), false);
      ghost var phase := BuildPhaseEvents(runtime.containers, runtime.images, layout, containerName,
                                          workdirExists, manifest, built, prinstine);
      ghost var exported := [Executed(containerName, WestExport, layout.Workdir())];
      container := new ContainerHandle(runtime, containerName, layout.WorkdirTop(), false);
      if !workdirExists {
        assert phase == provision;
        return Fail(WorkspaceMissing);
      }
      container.Exec(WestExport, layout.Workdir());
      AppendAssoc(start, provision, exported);
      var parsed := ParseBuildList(manifest);
      if parsed.Err? {
        assert phase == provision + exported;
        return Fail(BadManifest(parsed.error));
      }
      var ts := parsed.value;
      ghost var k := FirstMissing(ts, built);
      ghost var done := BuildEvents(layout, containerName, ts[..if k < |ts| then k + 1 else k], prinstine);
      outcome := BuildTargets(ts, prinstine, built);
      assert phase == provision + exported + done;
      AppendAssoc(start, provision + exported, done);
    }

    /** One pass of the build loop up to the artifact check: build, then fix permissions. */
    method BuildOne(t: Target, prinstine: bool)
      requires Valid() && container != null
      requires containerName in runtime.containers && runtime.containers[containerName] == Running
      modifies runtime
      ensures runtime.containers == old(runtime.containers) && runtime.images == old(runtime.images)
      ensures runtime.events == old(runtime.events) + TargetEvents(layout, containerName, t, prinstine)
    {
      var builddir := layout.BuildDir(t.shield);
      BuildTarget(t, builddir, prinstine);
      container.Exec(Chmod, builddir);
      AppendTwo(old(runtime.events), Executed(containerName, layout.TargetCommand(t, prinstine), layout.Workdir()),
                Executed(containerName, Chmod, builddir));
    }

    /**
     * The loop of `build` over the parsed targets, up to the first missing
     * artifact: returns the index it stopped at and the artifacts copied.
     */
    method BuildLoop(ts: seq<Target>, prinstine: bool, built: Target -> bool)
        returns (reached: nat, copied: map<string, Target>)
      requires Valid() && container != null
      requires containerName in runtime.containers && runtime.containers[containerName] == Running
      modifies runtime
      ensures reached == FirstMissing(ts, built)
      ensures runtime.containers == old(runtime.containers) && runtime.images == old(runtime.images)
      ensures runtime.events == old(runtime.events)
        + BuildEvents(layout, containerName, ts[..if reached < |ts| then reached + 1 else reached], prinstine)
      ensures copied == Collected(outputs, ts[..reached])
    {
      reached := 0;
      copied := outputs;
      while reached < |ts|
        invariant reached <= |ts|
        invariant runtime.containers == old(runtime.containers) && runtime.images == old(runtime.images)
        invariant forall j :: 0 <= j < reached ==> built(ts[j])
        invariant runtime.events == old(runtime.events) + BuildEvents(layout, containerName, ts[..reached], prinstine)
        invariant copied == Collected(outputs, ts[..reached])
      {
        var t := ts[reached];
        BuildOne(t, prinstine);
        BuildEventsStep(layout, containerName, ts, reached, prinstine);
        AppendAssoc(old(runtime.events), BuildEvents(layout, containerName, ts[..reached], prinstine),
                    TargetEvents(layout, containerName, t, prinstine));
        if !built(t) {
          return;
        }
        CollectedStep(outputs, ts, reached);
        copied := copied[Uf2Name(t.shield) := t];
        reached := reached + 1;
      }
      assert ts[..reached] == ts;
    }

    /** `build`'s loop with its verdict: a missing artifact fails the build, naming its shield. */
    method BuildTargets(ts: seq<Target>, prinstine: bool, built: Target -> bool)
        returns (outcome: Outcome<BuildError>)
      requires Valid() && container != null
      requires containerName in runtime.containers && runtime.containers[containerName] == Running
      modifies this, runtime
      ensures Valid() && container == old(container)
      ensures runtime.containers == old(runtime.containers) && runtime.images == old(runtime.images)
      ensures workdirExists == old(workdirExists) && gitignore == old(gitignore)
      ensures var k := FirstMissing(ts, built);
        && (outcome == Pass <==> k == |ts|)
        && (k < |ts| ==> outcome == Fail(ArtifactMissing(ts[k].shield)))
        && runtime.events == old(runtime.events)
             + BuildEvents(layout, containerName, ts[..if k < |ts| then k + 1 else k], prinstine)
        && outputs == Collected(old(outputs), ts[..k])
    {
      var reached, copied := BuildLoop(ts, prinstine, built);
      outputs := copied;
      outcome := if reached < |ts| then Fail(ArtifactMissing(ts[reached].shield)) else Pass;
    }
  }

  /** The three phases, in the order they are declared to run. */
  datatype Phase = InitPhase | UpdatePhase | BuildPhase

  function Rank(p: Phase): nat
  {
    match p
    case InitPhase => 0
    case UpdatePhase => 1
    case BuildPhase => 2
  }

  /**
   * The phases `main` runs for one manifest: `init` only when asked,
   * `update` when asked or when `init` is, `build` always and last, each at
   * most once and in declared order.
   */
  function Phases(init: bool, update: bool): (ps: seq<Phase>)
    ensures |ps| > 0 && ps[|ps| - 1] == BuildPhase
    ensures InitPhase in ps <==> init
    ensures UpdatePhase in ps <==> init || update
    ensures forall i, j :: 0 <= i < j < |ps| ==> Rank(ps[i]) < Rank(ps[j])
  {
    (if init then [InitPhase] else []) + (if init || update then [UpdatePhase] else []) + [BuildPhase]
  }

  /** One phase run for the manifest at position `project`. */
  datatype Step = Step(project: nat, phase: Phase)

  function StepsFor(project: nat, ps: seq<Phase>): seq<Step>
  {
    seq(|ps|, i requires 0 <= i < |ps| => Step(project, ps[i]))
  }

  /** The phases `main` runs for the first `n` manifests. */
  function Plan(n: nat, init: bool, update: bool): seq<Step>
  {
    if n == 0 then [] else Plan(n - 1, init, update) + StepsFor(n - 1, Phases(init, update))
  }

  predicate Precedes(a: Step, b: Step)
  {
    a.project < b.project || (a.project == b.project && Rank(a.phase) < Rank(b.phase))
  }

  /**
   * Manifests are processed one after another in list order, and within
   * one manifest the phases run in declared order: any two steps of the
   * plan are strictly ordered.
   */
  lemma {:induction false} PlanInOrder(n: nat, init: bool, update: bool)
    ensures forall i, j :: 0 <= i < j < |Plan(n, init, update)| ==>
      Precedes(Plan(n, init, update)[i], Plan(n, init, update)[j])
  {
    if n > 0 {
      PlanInOrder(n - 1, init, update);
      PlanCovers(n - 1, init, update);
      var front, last := Plan(n - 1, init, update), StepsFor(n - 1, Phases(init, update));
      var plan := Plan(n, init, update);
      assert plan == front + last;
      forall i, j | 0 <= i < j < |plan| ensures Precedes(plan[i], plan[j]) {
        if j < |front| {
          assert plan[i] == front[i] && plan[j] == front[j];
        } else if i < |front| {
          assert plan[i] in front;
        } else {
          assert plan[i] == last[i - |front|] && plan[j] == last[j - |front|];
        }
      }
    }
  }

  /** The plan for `n` manifests runs exactly the selected phases of each of them. */
  lemma {:induction false} PlanCovers(n: nat, init: bool, update: bool)
    ensures forall s :: s in Plan(n, init, update) <==> s.project < n && s.phase in Phases(init, update)
  {
    if n > 0 {
      PlanCovers(n - 1, init, update);
      var ps := Phases(init, update);
      var last := StepsFor(n - 1, ps);
      forall s ensures s in last <==> s.project == n - 1 && s.phase in ps {
        if s.project == n - 1 && s.phase in ps {
          var i :| 0 <= i < |ps| && ps[i] == s.phase;
          assert last[i] == s;
        }
      }
    }
  }

  /**
   * How one manifest's turn in `main` ends: its build phase decides, and
   * that phase finds the workspace when the project had one or when `init`
   * or `update` ran before it.
   */
  function ProjectOutcome(p: Project, init: bool, update: bool): Outcome<BuildError>
  {
    BuildOutcome(p.workdirExists || init || update, p.manifest, p.built)
  }

  /**
   * Everything one manifest's turn asks of the runtime, phase after phase,
   * each phase starting from the state the previous one left.
   */
  function ProjectEvents(cs: map<string, Status>, images: set<string>, p: Project,
                         init: bool, update: bool, prinstine: bool): seq<Event>
  {
    var layout, name := Layout(p.curdir), p.dirName;
    var refreshed := init || update;
    SetupEvents(cs, images, layout, name, p.workdirExists, init, update)
    + BuildPhaseEvents(if refreshed then cs[name := Running] else cs,
                       if refreshed then images + {Image} else images,
                       layout, name, p.workdirExists || refreshed, p.manifest, p.built, prinstine)
  }

  /**
   * Without `init` or `update`, the build phase of a project that has no
   * workspace yet fails for that reason, and only then.
   */
  lemma WorkspaceMissingOnlyWithoutSetup(p: Project, init: bool, update: bool)
    ensures ProjectOutcome(p, init, update) == Fail(WorkspaceMissing) <==> !p.workdirExists && !init && !update
  {
  }

  /** The command that marks the `init` phase: `west init -l <config>`. */
  function InitCommand(layout: Layout, name: string): Event
  {
    Executed(name, WestInit(layout.ConfDir()), layout.Workdir())
  }

  /** The command that marks the `update` phase: `west update`. */
  function UpdateCommand(layout: Layout, name: string): Event
  {
    Executed(name, WestUpdate, layout.Workdir())
  }

  /** A command only the build phase runs: `west zephyr-export`, or a `west build`. */
  predicate BuildPhaseCommand(e: Event)
  {
    e.Executed? && (e.cmd == WestExport || StartsWith(e.cmd, "west build"))
  }

  /** Neither phase marker, and no build-phase command, is a container action or a permission fix. */
  lemma CommandsDiffer(layout: Layout, name: string, e: Event)
    requires !e.Executed? || e.cmd == Chmod
    ensures e != InitCommand(layout, name) && e != UpdateCommand(layout, name) && !BuildPhaseCommand(e)
  {
    if e.Executed? {
      assert e.cmd[0] == 'c';
      assert WestInit(layout.ConfDir())[0] == 'w';
    }
  }

  /** The two markers differ from each other and from every build-phase command. */
  lemma MarkersDiffer(layout: Layout, name: string, e: Event)
    requires e == InitCommand(layout, name) || e == UpdateCommand(layout, name)
    ensures !BuildPhaseCommand(e)
    ensures InitCommand(layout, name) != UpdateCommand(layout, name)
  {
    assert WestInit(layout.ConfDir())[5] == 'i';
    assert WestUpdate[5] == 'u' && WestExport[5] == 'z';
  }

  lemma ProvisionHasNoCommand(cs: map<string, Status>, images: set<string>, name: string, mount: string,
                              forceNew: bool)
    ensures forall e :: e in ProvisionEvents(cs, images, name, mount, forceNew) ==> !e.Executed?
  {
  }

  /** The build loop runs only `west build` commands and permission fixes. */
  lemma {:induction false} BuildEventsCommands(layout: Layout, name: string, ts: seq<Target>, prinstine: bool)
    ensures forall e :: e in BuildEvents(layout, name, ts, prinstine) ==>
      e.Executed? && (StartsWith(e.cmd, "west build") || e.cmd == Chmod)
  {
    if ts != [] {
      var t := ts[|ts| - 1];
      BuildEventsCommands(layout, name, ts[..|ts| - 1], prinstine);
      BuildCommandIsWestBuild(t.board, t.shield, layout.BuildDir(t.shield), prinstine, t.snippet, t.cmakeArgs,
                              layout.AppDir(), layout.ConfDir());
    }
  }

  /**
   * Everything the build phase asks of the runtime is a container action, a
   * permission fix, or a build-phase command.
   */
  lemma BuildPhaseKinds(cs: map<string, Status>, images: set<string>, layout: Layout, name: string,
                        workdirExists: bool, manifest: Document, built: Target -> bool, prinstine: bool)
    ensures var es := BuildPhaseEvents(cs, images, layout, name, workdirExists, manifest, built, prinstine);
      forall e :: e in es ==> !e.Executed? || e.cmd == Chmod || BuildPhaseCommand(e)
  {
    ProvisionHasNoCommand(cs, images, name, layout.WorkdirTop(), false);
    if workdirExists && BuildList(manifest).Ok? {
      var ts := BuildList(manifest).value;
      var k := FirstMissing(ts, built);
      BuildEventsCommands(layout, name, ts[..if k < |ts| then k + 1 else k], prinstine);
    }
  }

  /** The build phase never runs `west init` or `west update`. */
  lemma BuildPhaseHasNoMarker(cs: map<string, Status>, images: set<string>, layout: Layout, name: string,
                              workdirExists: bool, manifest: Document, built: Target -> bool, prinstine: bool)
    ensures var es := BuildPhaseEvents(cs, images, layout, name, workdirExists, manifest, built, prinstine);
      InitCommand(layout, name) !in es && UpdateCommand(layout, name) !in es
  {
    BuildPhaseKinds(cs, images, layout, name, workdirExists, manifest, built, prinstine);
    MarkersDiffer(layout, name, InitCommand(layout, name));
    MarkersDiffer(layout, name, UpdateCommand(layout, name));
    assert WestInit(layout.ConfDir())[0] == 'w' && WestUpdate[0] == 'w';
  }

  /** `x` occurs only before `y` in `es`. */
  predicate Before(es: seq<Event>, x: Event, y: Event)
  {
    forall i, j :: 0 <= i < |es| && 0 <= j < |es| && es[i] == x && es[j] == y ==> i < j
  }

  /** Every occurrence of `x` precedes every build-phase command in `es`. */
  predicate BeforeBuild(es: seq<Event>, x: Event)
  {
    forall i, j :: 0 <= i < |es| && 0 <= j < |es| && es[i] == x && BuildPhaseCommand(es[j]) ==> i < j
  }

  /** Events that occur only in the first part of `a + b` precede everything in the second. */
  lemma BeforeAcross(a: seq<Event>, b: seq<Event>, x: Event, y: Event)
    requires x !in b && y !in a
    ensures Before(a + b, x, y)
  {
  }

  /** Appending a part without `x` or `y` keeps their order. */
  lemma BeforeAppend(a: seq<Event>, b: seq<Event>, x: Event, y: Event)
    requires Before(a, x, y) && x !in b && y !in b
    ensures Before(a + b, x, y)
  {
  }

  /** An event absent from the second part precedes its build-phase commands when the first has none. */
  lemma BeforeBuildAcross(a: seq<Event>, b: seq<Event>, x: Event)
    requires x !in b && forall e :: e in a ==> !BuildPhaseCommand(e)
    ensures BeforeBuild(a + b, x)
  {
  }

  /** `init` logs `west init`, and neither it nor `update` logs the other's marker. */
  lemma PhaseMarkers(cs: map<string, Status>, images: set<string>, layout: Layout, name: string,
                     workdirExists: bool)
    ensures var ini, upd := InitCommand(layout, name), UpdateCommand(layout, name);
      var initEvents, updateEvents := InitEvents(cs, images, layout, name, workdirExists),
                                      UpdateEvents(cs, images, layout, name);
      && ini in initEvents && upd !in initEvents && upd in updateEvents && ini !in updateEvents
      && (forall e :: e in initEvents ==> !BuildPhaseCommand(e))
      && (forall e :: e in updateEvents ==> !BuildPhaseCommand(e))
  {
    var ini, upd := InitCommand(layout, name), UpdateCommand(layout, name);
    MarkersDiffer(layout, name, ini);
    MarkersDiffer(layout, name, upd);
    ProvisionHasNoCommand(cs, images, name, layout.WorkdirTop(), true);
    ProvisionHasNoCommand(cs, images, name, layout.WorkdirTop(), false);
    CommandsDiffer(layout, name, Executed(name, Chmod, layout.Workdir()));
  }

  /**
   * The phases before `build` run `west init` exactly when `init` is among
   * the selected phases and `west update` exactly when `update` is, `init`
   * first, and run no build-phase command.
   */
  lemma SetupRunsPhases(cs: map<string, Status>, images: set<string>, layout: Layout, name: string,
                        workdirExists: bool, init: bool, update: bool)
    ensures var es := SetupEvents(cs, images, layout, name, workdirExists, init, update);
      var ini, upd := InitCommand(layout, name), UpdateCommand(layout, name);
      && (ini in es <==> InitPhase in Phases(init, update))
      && (upd in es <==> UpdatePhase in Phases(init, update))
      && Before(es, ini, upd)
      && (forall e :: e in es ==> !BuildPhaseCommand(e))
  {
    var ini, upd := InitCommand(layout, name), UpdateCommand(layout, name);
    var cs', images' := if init then cs[name := Running] else cs, if init then images + {Image} else images;
    var initPart := if init then InitEvents(cs, images, layout, name, workdirExists) else [];
    var updatePart := if init || update then UpdateEvents(cs', images', layout, name) else [];
    assert SetupEvents(cs, images, layout, name, workdirExists, init, update) == initPart + updatePart;
    PhaseMarkers(cs, images, layout, name, workdirExists);
    PhaseMarkers(cs', images', layout, name, workdirExists);
    BeforeAcross(initPart, updatePart, ini, upd);
  }

  /**
   * One manifest's turn runs its selected phases and nothing else, in
   * declared order: `west init` exactly when `init` is selected, `west
   * update` exactly when `update` is, `init` before `update`, and both
   * before the build phase's export and every `west build`.
   */
  lemma ProjectRunsPhases(cs: map<string, Status>, images: set<string>, p: Project,
                          init: bool, update: bool, prinstine: bool)
    ensures var layout, name := Layout(p.curdir), p.dirName;
      var es := ProjectEvents(cs, images, p, init, update, prinstine);
      var ini, upd := InitCommand(layout, name), UpdateCommand(layout, name);
      && (ini in es <==> InitPhase in Phases(init, update))
      && (upd in es <==> UpdatePhase in Phases(init, update))
      && Before(es, ini, upd)
      && BeforeBuild(es, ini) && BeforeBuild(es, upd)
  {
    var layout, name := Layout(p.curdir), p.dirName;
    var ini, upd := InitCommand(layout, name), UpdateCommand(layout, name);
    var refreshed := init || update;
    var cs', images' := if refreshed then cs[name := Running] else cs, if refreshed then images + {Image} else images;
    var setup := SetupEvents(cs, images, layout, name, p.workdirExists, init, update);
    var build := BuildPhaseEvents(cs', images', layout, name, p.workdirExists || refreshed, p.manifest, p.built,
                                  prinstine);
    assert ProjectEvents(cs, images, p, init, update, prinstine) == setup + build;
    SetupRunsPhases(cs, images, layout, name, p.workdirExists, init, update);
    BuildPhaseHasNoMarker(cs', images', layout, name, p.workdirExists || refreshed, p.manifest, p.built, prinstine);
    BeforeAppend(setup, build, ini, upd);
    BeforeBuildAcross(setup, build, ini);
    BeforeBuildAcross(setup, build, upd);
  }

  /** The body of `main`'s loop: one manifest's builder and its selected phases, in order. */
  method RunProject(runtime: Runtime, project: Project, k: nat, init: bool, update: bool, prinstine: bool)
      returns (result: Outcome<BuildError>, steps: seq<Step>, outputs: map<string, Target>)
    modifies runtime
    ensures result == ProjectOutcome(project, init, update)
    ensures outputs == BuildOutputs(map[], project.workdirExists || init || update, project.manifest, project.built)
    ensures steps == StepsFor(k, Phases(init, update))
    ensures runtime.containers == old(runtime.containers)[project.dirName := Running]
    ensures runtime.images == old(runtime.images) + {Image}
    ensures runtime.events == old(runtime.events)
      + ProjectEvents(old(runtime.containers), old(runtime.images), project, init, update, prinstine)
  {
    ghost var start, cs, images := runtime.events, runtime.containers, runtime.images;
    ghost var layout, name := Layout(project.curdir), project.dirName;
    var builder := new Builder(runtime, project);
    builder.Setup(init, update);
    ghost var setup := SetupEvents(cs, images, layout, name, project.workdirExists, init, update);
    ghost var cs2, images2 := runtime.containers, runtime.images;
    ghost var ready := builder.workdirExists;
    assert ready == (project.workdirExists || init || update);
    assert builder.outputs == map[] && builder.manifest == project.manifest;
    result := builder.Build(prinstine, project.built);
    outputs := builder.outputs;
    AppendAssoc(start, setup, BuildPhaseEvents(cs2, images2, layout, name, ready,
                                               project.manifest, project.built, prinstine));
    steps := StepsFor(k, Phases(init, update));
  }

  /** The containers after the turns of `ps`, in order: each turn leaves its own running. */
  function ContainersAfter(cs: map<string, Status>, ps: seq<Project>): map<string, Status>
  {
    if ps == [] then cs else ContainersAfter(cs, ps[..|ps| - 1])[ps[|ps| - 1].dirName := Running]
  }

  /** The local images after `n` turns: the build image once any turn ran. */
  function ImagesAfter(images: set<string>, n: nat): set<string>
  {
    if n == 0 then images else images + {Image}
  }

  /** Everything the turn of the manifest at position `i` asks of the runtime, after the turns before it. */
  function TurnEvents(cs: map<string, Status>, images: set<string>, ps: seq<Project>, i: nat,
                      init: bool, update: bool, prinstine: bool): seq<Event>
    requires i < |ps|
  {
    ProjectEvents(ContainersAfter(cs, ps[..i]), ImagesAfter(images, i), ps[i], init, update, prinstine)
  }

  /** The logs of successive turns, one after another. */
  function Flatten(logs: seq<seq<Event>>): seq<Event>
  {
    if logs == [] then [] else Flatten(logs[..|logs| - 1]) + logs[|logs| - 1]
  }

  lemma FlattenSnoc(logs: seq<seq<Event>>, log: seq<Event>)
    ensures Flatten(logs + [log]) == Flatten(logs) + log
  {
    assert (logs + [log])[..|logs|] == logs;
  }

  /** Every turn of `ps` ends with a build that succeeds. */
  predicate AllPass(ps: seq<Project>, init: bool, update: bool)
  {
    ps == [] || (AllPass(ps[..|ps| - 1], init, update) && ProjectOutcome(ps[|ps| - 1], init, update).Pass?)
  }

  lemma AllPassStep(ps: seq<Project>, k: nat, init: bool, update: bool)
    requires k < |ps|
    ensures AllPass(ps[..k + 1], init, update)
        <==> AllPass(ps[..k], init, update) && ProjectOutcome(ps[k], init, update).Pass?
  {
    assert ps[..k + 1][..k] == ps[..k];
  }

  lemma {:induction false} AllPassMeans(ps: seq<Project>, init: bool, update: bool)
    ensures AllPass(ps, init, update) <==> forall j :: 0 <= j < |ps| ==> ProjectOutcome(ps[j], init, update).Pass?
  {
    if ps != [] {
      var front := ps[..|ps| - 1];
      AllPassMeans(front, init, update);
      assert forall j :: 0 <= j < |front| ==> front[j] == ps[j];
    }
  }

  lemma AllPassPrefix(ps: seq<Project>, k: nat, init: bool, update: bool)
    requires k <= |ps|
    ensures AllPass(ps[..k], init, update) <==> forall j :: 0 <= j < k ==> ProjectOutcome(ps[j], init, update).Pass?
  {
    AllPassMeans(ps[..k], init, update);
    assert forall j :: 0 <= j < k ==> ps[..k][j] == ps[j];
  }

  /** Which manifest stopped the run, and why. */
  datatype RunError = RunError(project: nat, cause: BuildError)

  /**
   * `main`: for each manifest in order, construct the builder and run the
   * selected phases; the first build that raises ends the whole run, so
   * the run succeeds exactly when every manifest's build does. `trace`
   * lists the phases run.
   */
  method RunAll(runtime: Runtime, projects: seq<Project>, init: bool, update: bool, prinstine: bool)
      returns (outcome: Outcome<RunError>, trace: seq<Step>, ghost logs: seq<seq<Event>>)
    modifies runtime
    ensures outcome.Pass? <==> forall k :: 0 <= k < |projects| ==> ProjectOutcome(projects[k], init, update).Pass?
    ensures outcome.Fail? ==>
      var p := outcome.error.project;
      && p < |projects|
      && (forall k :: 0 <= k < p ==> ProjectOutcome(projects[k], init, update).Pass?)
      && ProjectOutcome(projects[p], init, update) == Fail(outcome.error.cause)
    ensures outcome.Pass? ==> trace == Plan(|projects|, init, update)
    ensures outcome.Fail? ==> trace == Plan(outcome.error.project + 1, init, update)
    ensures var m := if outcome.Pass? then |projects| else outcome.error.project + 1;
      && runtime.containers == ContainersAfter(old(runtime.containers), projects[..m])
      && runtime.images == ImagesAfter(old(runtime.images), m)
      && |logs| == m
      && (forall i :: 0 <= i < m ==>
            logs[i] == TurnEvents(old(runtime.containers), old(runtime.images), projects, i, init, update, prinstine))
      && runtime.events == old(runtime.events) + Flatten(logs)
  {
    trace, logs := [], [];
    var k := 0;
    while k < |projects|
      invariant 0 <= k <= |projects|
      invariant AllPass(projects[..k], init, update)
      invariant trace == Plan(k, init, update)
      invariant runtime.containers == ContainersAfter(old(runtime.containers), projects[..k])
      invariant runtime.images == ImagesAfter(old(runtime.images), k)
      invariant |logs| == k
      invariant forall i :: 0 <= i < k ==>
        logs[i] == TurnEvents(old(runtime.containers), old(runtime.images), projects, i, init, update, prinstine)
      invariant runtime.events == old(runtime.events) + Flatten(logs)
    {
      var result;
      result, trace, logs := RunTurn(runtime, projects, k, init, update, prinstine, trace,
                                     old(runtime.containers), old(runtime.images), old(runtime.events), logs);
      if result.Fail? {
        AllPassPrefix(projects, k, init, update);
        return Fail(RunError(k, result.error)), trace, logs;
      }
      k := k + 1;
    }
    AllPassPrefix(projects, k, init, update);
    assert projects[..k] == projects;
    outcome := Pass;
  }

  /**
   * The turn of the manifest at position `k`, after the turns before it:
   * `trace` holds the phases run so far and `logs` what each earlier turn
   * asked of the runtime; both gain this turn's.
   */
  method RunTurn(runtime: Runtime, projects: seq<Project>, k: nat, init: bool, update: bool, prinstine: bool,
                 trace: seq<Step>, ghost cs: map<string, Status>, ghost images: set<string>, ghost start: seq<Event>,
                 ghost logs: seq<seq<Event>>)
      returns (result: Outcome<BuildError>, trace': seq<Step>, ghost logs': seq<seq<Event>>)
    requires k < |projects|
    requires trace == Plan(k, init, update)
    requires runtime.containers == ContainersAfter(cs, projects[..k])
    requires runtime.images == ImagesAfter(images, k)
    requires |logs| == k
    requires forall i :: 0 <= i < k ==> logs[i] == TurnEvents(cs, images, projects, i, init, update, prinstine)
    requires runtime.events == start + Flatten(logs)
    modifies runtime
    ensures result == ProjectOutcome(projects[k], init, update)
    ensures AllPass(projects[..k + 1], init, update) <==> AllPass(projects[..k], init, update) && result.Pass?
    ensures trace' == Plan(k + 1, init, update)
    ensures runtime.containers == ContainersAfter(cs, projects[..k + 1])
    ensures runtime.images == ImagesAfter(images, k + 1)
    ensures |logs'| == k + 1
    ensures forall i :: 0 <= i < k + 1 ==> logs'[i] == TurnEvents(cs, images, projects, i, init, update, prinstine)
    ensures runtime.events == start + Flatten(logs')
  {
    ghost var before := runtime.events;
    var steps, outputs;
    result, steps, outputs := RunProject(runtime, projects[k], k, init, update, prinstine);
    trace' := trace + steps;
    AllPassStep(projects, k, init, update);
    RunStep(cs, images, projects, k);
    ghost var log := TurnEvents(cs, images, projects, k, init, update, prinstine);
    assert runtime.events == before + log;
    FlattenSnoc(logs, log);
    AppendAssoc(start, Flatten(logs), log);
    logs' := logs + [log];
  }

  /** One more turn leaves its own container running and the build image present. */
  lemma RunStep(cs: map<string, Status>, images: set<string>, ps: seq<Project>, k: nat)
    requires k < |ps|
    ensures ContainersAfter(cs, ps[..k + 1]) == ContainersAfter(cs, ps[..k])[ps[k].dirName := Running]
    ensures ImagesAfter(images, k + 1) == ImagesAfter(images, k) + {Image}
  {
    assert ps[..k + 1][..k] == ps[..k];
  }
}
