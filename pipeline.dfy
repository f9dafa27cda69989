/** The build script's phases as functions of an abstract world: the paths that
    exist and the trace of the effects performed so far. Commands are not run:
    the environment says which paths a command creates and with which status
    it exits, and what the one file the script reads holds. */
module Pipeline {
  import opened Wrappers
  import opened Shell
  import opened Config
  import opened Cli
  import opened NativePlan
  import IndexHtml
  import NativeMain

  /** The effects the script has on the system, in the order it has them. */
  datatype Event =
    | RanCommand(command: string)      // `execSync`: waited for, status checked
    | Started(command: string)         // `exec`: started and not waited for
    | MadeDir(dir: Path)
    | CopiedFile(from: Path, to: Path)
    | RemovedTree(root: Path)
    | CopiedTree(from: Path, to: Path)
    | WroteFile(file: Path, text: string)

  datatype World = World(paths: set<Path>, trace: seq<Event>)

  /** What the script runs against: its configuration, the working directory,
      and how commands and the file system answer. */
  datatype Env = Env(
    config: BuildConfig,
    cwd: Path,
    status: string -> int,
    creates: string -> set<Path>,
    read: Path -> string)

  /** A phase's boolean result and the world after it. */
  datatype Step = Step(ok: bool, world: World)

  /** The script's exit code and the world it leaves. */
  datatype Outcome = Outcome(exitCode: int, world: World)

  /** `p` is `root` or lies below it. */
  predicate Under(root: Path, p: Path) {
    |root| <= |p| && p[..|root|] == root
  }

  /** `fs.rmSync(root, {recursive: true, force: true})` on the set of paths. */
  function RemoveTree(paths: set<Path>, root: Path): set<Path> {
    set p | p in paths && !Under(root, p)
  }

  /** `fs.cpSync(from, to, {recursive: true})` on the set of paths. */
  function CopyTree(paths: set<Path>, from: Path, to: Path): set<Path> {
    paths + set p | p in paths && Under(from, p) :: to + p[|from|..]
  }

  // ------------------------------------------------------------ trace facts

  /** `w2` is `w` with events appended: traces are never rewritten. */
  predicate Extends(w: World, w2: World) {
    |w.trace| <= |w2.trace| && w2.trace[..|w.trace|] == w.trace
  }

  /** The events `w2` added to `w`. */
  function Added(w: World, w2: World): seq<Event>
    requires |w.trace| <= |w2.trace|
  {
    w2.trace[|w.trace|..]
  }

  /** The commands run to completion, in order. */
  function Commands(events: seq<Event>): (cs: seq<string>)
    ensures |cs| <= |events|
  {
    if events == [] then []
    else (if events[0].RanCommand? then [events[0].command] else []) + Commands(events[1..])
  }

  lemma {:induction false} CommandsAppend(a: seq<Event>, b: seq<Event>)
    ensures Commands(a + b) == Commands(a) + Commands(b)
  {
    if a == [] {
      assert a + b == b;
    } else {
      assert (a + b)[0] == a[0];
      assert (a + b)[1..] == a[1..] + b;
      CommandsAppend(a[1..], b);
    }
  }

  lemma AddedSplit(w: World, w1: World, w2: World)
    requires Extends(w, w1) && Extends(w1, w2)
    ensures Extends(w, w2)
    ensures Added(w, w2) == Added(w, w1) + Added(w1, w2)
  {
    assert w2.trace[..|w.trace|] == w2.trace[..|w1.trace|][..|w.trace|];
    assert w2.trace == w2.trace[..|w1.trace|] + Added(w1, w2);
  }

  /** Running one step after another runs their commands one after the other. */
  lemma Chain(w: World, w1: World, w2: World, c1: seq<string>, c2: seq<string>)
    requires Extends(w, w1) && Commands(Added(w, w1)) == c1
    requires Extends(w1, w2) && Commands(Added(w1, w2)) == c2
    ensures Extends(w, w2) && Commands(Added(w, w2)) == c1 + c2
  {
    AddedSplit(w, w1, w2);
    CommandsAppend(Added(w, w1), Added(w1, w2));
  }

  /** Events every one of which has a property keep it when chained. */
  lemma ChainAll(w: World, w1: World, w2: World, P: Event -> bool)
    requires Extends(w, w1) && forall e :: e in Added(w, w1) ==> P(e)
    requires Extends(w1, w2) && forall e :: e in Added(w1, w2) ==> P(e)
    ensures Extends(w, w2) && forall e :: e in Added(w, w2) ==> P(e)
  {
    AddedSplit(w, w1, w2);
  }

  // ------------------------------------------------------------- primitives

  /** `execSync(command)`: the command's paths appear, and the call succeeds
      exactly when the command exits with status 0. */
  function ExecSync(env: Env, w: World, command: string): Step {
    Step(env.status(command) == 0, World(w.paths + env.creates(command), w.trace + [RanCommand(command)]))
  }

  /** `fs.mkdirSync(dir)`. */
  function MakeDir(w: World, dir: Path): World {
    World(w.paths + {dir}, w.trace + [MadeDir(dir)])
  }

  // ------------------------------------------------------------ native phase

  /** The located WebView2 loader DLL; `None` where the script returns "". */
  function WebviewFinder(env: Env, w: World): (r: Option<Path>)
    ensures r.Some? <==>
      IsWindows(env.config) && WebviewPackageDir(env.cwd, env.config) in w.paths
      && WebviewDllPath(env.cwd, env.config) in w.paths
    ensures r.Some? ==> r.value == WebviewDllPath(env.cwd, env.config)
  {
    if !IsWindows(env.config) then None
    else if WebviewPackageDir(env.cwd, env.config) !in w.paths then None
    else
      var dll := WebviewDllPath(env.cwd, env.config);
      if dll !in w.paths then None else Some(dll)
  }

  /** On Windows, the loader DLL is copied into the build directory unless a
      file of that name is already there. */
  function CopyDynLib(env: Env, w: World): World {
    if !IsWindows(env.config) then w
    else match WebviewFinder(env, w)
      case None => w
      case Some(dll) =>
        var dest := WebviewDllDest(env.cwd, env.config);
        if dest in w.paths then w
        else World(w.paths + {dest}, w.trace + [CopiedFile(dll, dest)])
  }

  /** The generate command for a context. */
  function GenerateCmd(env: Env, ctx: Context): string {
    var cfg := env.config;
    Render(GeneratePieces(cfg, PathText(SourcePath(env.cwd, cfg)), PathText(BuildPath(env.cwd, cfg)),
                          BuildTargetType(ctx.buildOption, cfg)))
  }

  /** The build command. */
  function BuildCmd(env: Env): string {
    Render(BuildPieces(env.config, PathText(BuildPath(env.cwd, env.config))))
  }

  /** The build directory, created when it is missing. */
  function PrepareBuildDir(env: Env, w: World): World {
    var bld := BuildPath(env.cwd, env.config);
    if bld in w.paths then w else MakeDir(w, bld)
  }

  /** Phase 1/2: the generate command, run only when reloading. */
  function GenerateProject(env: Env, ctx: Context, w: World): Step {
    if ctx.shouldReloadCMakeFile then ExecSync(env, w, GenerateCmd(env, ctx)) else Step(true, w)
  }

  /** Phase 2/2 and the post-task: the build command, then the DLL copy. */
  function BuildProject(env: Env, w: World): Step {
    var built := ExecSync(env, w, BuildCmd(env));
    if !built.ok then Step(false, built.world)
    else Step(true, CopyDynLib(env, built.world))
  }

  /** `buildCppProject`: check the source directory, create the build
      directory, generate (only when reloading), build, then copy the DLL. */
  function BuildCppProject(env: Env, ctx: Context, w: World): Step {
    if SourcePath(env.cwd, env.config) !in w.paths then Step(false, w)
    else
      var generated := GenerateProject(env, ctx, PrepareBuildDir(env, w));
      if !generated.ok then Step(false, generated.world)
      else BuildProject(env, generated.world)
  }

  // --------------------------------------------------------------- web phase

  /** `generateIndexHtml`: the template, with its marker replaced, is written
      to the page's path; false when the template does not exist. */
  function GenerateIndexHtml(env: Env, buildOption: string, w: World): Step {
    var node := env.config.node;
    var template := env.cwd + node.indexTemplate;
    if template !in w.paths then Step(false, w)
    else
      var page := env.cwd + node.indexHtml;
      var text := IndexHtml.Generate(env.read(template), node.webuiBridge, buildOption, node.webuiServer);
      Step(true, World(w.paths + {page}, w.trace + [WroteFile(page, text)]))
  }

  /** `runTargetExecutable`: false when the executable is missing, otherwise
      it is started in development mode and not waited for. */
  function RunTargetExecutable(env: Env, w: World): Step {
    var cfg := env.config;
    var target := ExecutablePath(env.cwd, cfg);
    if target !in w.paths then Step(false, w)
    else Step(true, World(w.paths, w.trace + [Started(LaunchCommand(PathText(target), cfg.node.nodeServer, cfg.node.webuiServer))]))
  }

  /** Where the bundle is copied: a sub-directory of the build directory. */
  function BundleDest(env: Env): Path {
    BuildPath(env.cwd, env.config) + [env.config.cpp.webuiSubDirName]
  }

  /** `copyNodeBuildFile`: false when the bundler output is missing; otherwise
      the destination is created, removed and replaced by a copy of the output. */
  function CopyNodeBuildFile(env: Env, w: World): Step {
    var output := env.cwd + env.config.node.output;
    var dest := BundleDest(env);
    if output !in w.paths then Step(false, w)
    else
      var w1 := if dest in w.paths then w else MakeDir(w, dest);
      var w2 := World(RemoveTree(w1.paths, dest), w1.trace + [RemovedTree(dest)]);
      Step(true, World(CopyTree(w2.paths, output, dest), w2.trace + [CopiedTree(output, dest)]))
  }

  /** The bundler command for a build option. */
  function NodeCommand(cfg: BuildConfig, buildOption: string): string {
    if buildOption == "dev" then cfg.node.devCommand else cfg.node.buildCommand
  }

  /** In development, the executable is started before the bundler. */
  function StartForDev(env: Env, buildOption: string, w: World): Step {
    if buildOption == "dev" then RunTargetExecutable(env, w) else Step(true, w)
  }

  /** The bundler command, then, in a build, the copy of its output. */
  function Bundle(env: Env, buildOption: string, w: World): Step {
    var bundled := ExecSync(env, w, NodeCommand(env.config, buildOption));
    if !bundled.ok then Step(false, bundled.world)
    else if buildOption == "build" then CopyNodeBuildFile(env, bundled.world)
    else Step(true, bundled.world)
  }

  /** `buildNodeProject`: the page, then (in development) the executable, then
      the bundler, then (in a build) the copy of its output. */
  function BuildNodeProject(env: Env, buildOption: string, w: World): Step {
    var page := GenerateIndexHtml(env, buildOption, w);
    if !page.ok then Step(false, page.world)
    else
      var launched := StartForDev(env, buildOption, page.world);
      if !launched.ok then Step(false, launched.world)
      else Bundle(env, buildOption, launched.world)
  }

  /** The whole script on a command line. */
  function Run(env: Env, argv: seq<string>, w: World): Outcome {
    match Decide(argv)
    case ShowHelp => Outcome(0, w)
    case UnknownUsage => Outcome(1, w)
    case Proceed(ctx) =>
      var native := if ctx.shouldBuildCpp then BuildCppProject(env, ctx, w) else Step(true, w);
      if !native.ok then Outcome(1, native.world)
      else
        var web := BuildNodeProject(env, ctx.buildOption, native.world);
        Outcome(if web.ok then 0 else 1, web.world)
  }

  // ------------------------------------------------------------- properties

  lemma ExecSyncAdds(env: Env, w: World, command: string)
    ensures Extends(w, ExecSync(env, w, command).world)
    ensures Added(w, ExecSync(env, w, command).world) == [RanCommand(command)]
  {
  }

  lemma MakeDirAdds(w: World, dir: Path)
    ensures Extends(w, MakeDir(w, dir))
    ensures Added(w, MakeDir(w, dir)) == [MadeDir(dir)]
  {
  }

  /** Copying the DLL does nothing off Windows, without the DLL, or when the
      build directory already holds a file of its name; otherwise it copies the
      DLL there and does nothing else. In no case does it run a command. */
  lemma CopyDynLibAdds(env: Env, w: World)
    ensures var r := CopyDynLib(env, w);
      var dll, dest := WebviewDllPath(env.cwd, env.config), WebviewDllDest(env.cwd, env.config);
      var copies := IsWindows(env.config) && WebviewFinder(env, w).Some? && dest !in w.paths;
      && Extends(w, r)
      && Added(w, r) == (if copies then [CopiedFile(dll, dest)] else [])
      && r.paths == (if copies then w.paths + {dest} else w.paths)
      && Commands(Added(w, r)) == []
  {
    var r := CopyDynLib(env, w);
    if r != w {
      var dll, dest := WebviewDllPath(env.cwd, env.config), WebviewDllDest(env.cwd, env.config);
      assert Added(w, r) == [CopiedFile(dll, dest)];
      assert Commands([CopiedFile(dll, dest)]) == [] + Commands([]);
    }
  }

  /** A second copy of the DLL changes nothing. */
  lemma CopyDynLibIdempotent(env: Env, w: World)
    ensures CopyDynLib(env, CopyDynLib(env, w)) == CopyDynLib(env, w)
  {
    var r := CopyDynLib(env, w);
    if r != w {
      assert WebviewFinder(env, r) == WebviewFinder(env, w);
    }
  }

  /** The commands the native phase runs, in order: none without the source
      directory; the generate command when reloading, stopping there when it
      fails; then the build command. */
  function CppCommands(env: Env, ctx: Context, w: World): seq<string> {
    var gen := GenerateCmd(env, ctx);
    if SourcePath(env.cwd, env.config) !in w.paths then []
    else
      (if ctx.shouldReloadCMakeFile then [gen] else [])
      + (if !ctx.shouldReloadCMakeFile || env.status(gen) == 0 then [BuildCmd(env)] else [])
  }

  /** Creating the build directory when it is missing runs no command. */
  lemma PrepareBuildDirAdds(env: Env, w: World)
    ensures var w1 := PrepareBuildDir(env, w);
      && Extends(w, w1) && Commands(Added(w, w1)) == []
      && forall e :: e in Added(w, w1) ==> e.MadeDir?
  {
    var bld := BuildPath(env.cwd, env.config);
    if bld !in w.paths {
      MakeDirAdds(w, bld);
      assert Commands([MadeDir(bld)]) == [] + Commands([]);
    }
  }

  /** Generating runs the generate command when reloading and nothing else. */
  lemma GenerateProjectAdds(env: Env, ctx: Context, w: World)
    ensures var g := GenerateProject(env, ctx, w);
      && Extends(w, g.world)
      && Commands(Added(w, g.world)) == (if ctx.shouldReloadCMakeFile then [GenerateCmd(env, ctx)] else [])
      && (g.ok <==> !ctx.shouldReloadCMakeFile || env.status(GenerateCmd(env, ctx)) == 0)
      && forall e :: e in Added(w, g.world) ==> e.RanCommand?
  {
    var gen := GenerateCmd(env, ctx);
    ExecSyncAdds(env, w, gen);
    assert Commands([RanCommand(gen)]) == [gen] + Commands([]);
  }

  /** Building runs the build command; on success, and only then, the DLL is copied. */
  lemma BuildProjectAdds(env: Env, w: World)
    ensures var t := BuildProject(env, w);
      && Extends(w, t.world)
      && Commands(Added(w, t.world)) == [BuildCmd(env)]
      && (t.ok <==> env.status(BuildCmd(env)) == 0)
      && forall e :: e in Added(w, t.world) ==> e.RanCommand? || (e.CopiedFile? && t.ok)
  {
    var built := ExecSync(env, w, BuildCmd(env));
    ExecSyncAdds(env, w, BuildCmd(env));
    assert Commands([RanCommand(BuildCmd(env))]) == [BuildCmd(env)] + Commands([]);
    if built.ok {
      CopyDynLibAdds(env, built.world);
      Chain(w, built.world, CopyDynLib(env, built.world), [BuildCmd(env)], []);
      ChainAll(w, built.world, CopyDynLib(env, built.world), (e: Event) => e.RanCommand? || e.CopiedFile?);
    }
  }

  /** The native phase runs exactly `CppCommands`. */
  lemma BuildCppProjectRuns(env: Env, ctx: Context, w: World)
    ensures var s := BuildCppProject(env, ctx, w);
      Extends(w, s.world) && Commands(Added(w, s.world)) == CppCommands(env, ctx, w)
  {
    if SourcePath(env.cwd, env.config) in w.paths {
      var w1 := PrepareBuildDir(env, w);
      var g := GenerateProject(env, ctx, w1);
      var genCommands := if ctx.shouldReloadCMakeFile then [GenerateCmd(env, ctx)] else [];
      PrepareBuildDirAdds(env, w);
      GenerateProjectAdds(env, ctx, w1);
      Chain(w, w1, g.world, [], genCommands);
      assert [] + genCommands == genCommands;
      if g.ok {
        BuildProjectAdds(env, g.world);
        Chain(w, g.world, BuildProject(env, g.world).world, genCommands, [BuildCmd(env)]);
      } else {
        assert genCommands + [] == genCommands;
      }
    }
  }

  /** The native phase only creates directories, runs commands and, as its
      last step and only when it succeeds, copies the DLL. */
  lemma BuildCppProjectEvents(env: Env, ctx: Context, w: World)
    ensures var s := BuildCppProject(env, ctx, w);
      && Extends(w, s.world)
      && forall e :: e in Added(w, s.world) ==> e.MadeDir? || e.RanCommand? || (e.CopiedFile? && s.ok)
  {
    if SourcePath(env.cwd, env.config) in w.paths {
      var w1 := PrepareBuildDir(env, w);
      var g := GenerateProject(env, ctx, w1);
      PrepareBuildDirAdds(env, w);
      GenerateProjectAdds(env, ctx, w1);
      ChainAll(w, w1, g.world, (e: Event) => e.MadeDir? || e.RanCommand?);
      if g.ok {
        var t := BuildProject(env, g.world);
        BuildProjectAdds(env, g.world);
        if t.ok {
          ChainAll(w, g.world, t.world, (e: Event) => e.MadeDir? || e.RanCommand? || e.CopiedFile?);
        } else {
          ChainAll(w, g.world, t.world, (e: Event) => e.MadeDir? || e.RanCommand?);
        }
      }
    }
  }

  /** The native phase succeeds exactly when the source directory exists and
      every command it runs exits with status 0. */
  lemma BuildCppProjectSucceeds(env: Env, ctx: Context, w: World)
    ensures BuildCppProject(env, ctx, w).ok <==>
      SourcePath(env.cwd, env.config) in w.paths && forall c :: c in CppCommands(env, ctx, w) ==> env.status(c) == 0
  {
    if SourcePath(env.cwd, env.config) in w.paths {
      var reload, gen, build := ctx.shouldReloadCMakeFile, GenerateCmd(env, ctx), BuildCmd(env);
      var g := GenerateProject(env, ctx, PrepareBuildDir(env, w));
      assert g.ok <==> !reload || env.status(gen) == 0 by {
        GenerateProjectAdds(env, ctx, PrepareBuildDir(env, w));
      }
      if g.ok {
        assert BuildCppProject(env, ctx, w).ok <==> env.status(build) == 0 by {
          BuildProjectAdds(env, g.world);
        }
        assert CppCommands(env, ctx, w) == (if reload then [gen] else []) + [build];
      } else {
        assert reload && env.status(gen) != 0;
        assert gen in CppCommands(env, ctx, w);
      }
    }
  }

  lemma RanCommandInCommands(events: seq<Event>, command: string)
    ensures RanCommand(command) in events <==> command in Commands(events)
  {
    if events != [] {
      RanCommandInCommands(events[1..], command);
      assert events == [events[0]] + events[1..];
    }
  }

  /** The generate command runs exactly when the source directory exists and
      the CMake files are to be reloaded; the build command runs exactly when
      the source directory exists and generating, if it ran, succeeded. */
  lemma GenerateOnlyOnReload(env: Env, ctx: Context, w: World)
    ensures var s := BuildCppProject(env, ctx, w);
      && (RanCommand(GenerateCmd(env, ctx)) in Added(w, s.world) <==>
            SourcePath(env.cwd, env.config) in w.paths && ctx.shouldReloadCMakeFile)
      && (RanCommand(BuildCmd(env)) in Added(w, s.world) <==>
            SourcePath(env.cwd, env.config) in w.paths
            && (!ctx.shouldReloadCMakeFile || env.status(GenerateCmd(env, ctx)) == 0))
  {
    var cfg := env.config;
    var s := BuildCppProject(env, ctx, w);
    BuildCppProjectRuns(env, ctx, w);
    RanCommandInCommands(Added(w, s.world), GenerateCmd(env, ctx));
    RanCommandInCommands(Added(w, s.world), BuildCmd(env));
    GenerateIsNotBuild(cfg, PathText(SourcePath(env.cwd, cfg)), PathText(BuildPath(env.cwd, cfg)),
                       BuildTargetType(ctx.buildOption, cfg));
  }

  /** Without the source directory the native phase fails and changes nothing. */
  lemma MissingSourceRunsNothing(env: Env, ctx: Context, w: World)
    requires SourcePath(env.cwd, env.config) !in w.paths
    ensures BuildCppProject(env, ctx, w) == Step(false, w)
  {
  }

  // ---------------------------------------------------------- web phase facts

  /** The commands the web phase runs: the bundler, unless the template is
      missing or, in development, the executable is. */
  function NodeCommands(env: Env, buildOption: string, w: World): seq<string> {
    var node := env.config.node;
    if env.cwd + node.indexTemplate !in w.paths then []
    else if buildOption == "dev" && ExecutablePath(env.cwd, env.config) !in w.paths + {env.cwd + node.indexHtml} then []
    else [NodeCommand(env.config, buildOption)]
  }

  /** The launch command for the configured executable and ports. */
  function DevLaunch(env: Env): string {
    LaunchCommand(PathText(ExecutablePath(env.cwd, env.config)), env.config.node.nodeServer, env.config.node.webuiServer)
  }

  /** Writing the page runs no command; without a template nothing changes. */
  lemma GenerateIndexHtmlAdds(env: Env, buildOption: string, w: World)
    ensures var s := GenerateIndexHtml(env, buildOption, w);
      && Extends(w, s.world) && Commands(Added(w, s.world)) == []
      && (s.ok <==> env.cwd + env.config.node.indexTemplate in w.paths)
      && (!s.ok ==> s.world == w)
      && (s.ok ==> s.world.paths == w.paths + {env.cwd + env.config.node.indexHtml})
      && forall e :: e in Added(w, s.world) ==> e.WroteFile?
  {
    var s := GenerateIndexHtml(env, buildOption, w);
    if s.ok {
      var e := s.world.trace[|w.trace|];
      assert Added(w, s.world) == [e];
      assert Commands([e]) == [] + Commands([]);
    }
  }

  /** Starting the executable runs no command to completion and starts only
      the launch command. */
  lemma RunTargetExecutableAdds(env: Env, w: World)
    ensures var s := RunTargetExecutable(env, w);
      && Extends(w, s.world) && Commands(Added(w, s.world)) == []
      && (s.ok <==> ExecutablePath(env.cwd, env.config) in w.paths)
      && (!s.ok ==> s.world == w)
      && s.world.paths == w.paths
      && forall e :: e in Added(w, s.world) ==> e == Started(DevLaunch(env))
  {
    var s := RunTargetExecutable(env, w);
    if s.ok {
      var e := s.world.trace[|w.trace|];
      assert Added(w, s.world) == [e];
      assert Commands([e]) == [] + Commands([]);
    }
  }

  /** Copying the bundle runs and starts no command. */
  lemma CopyNodeBuildFileAdds(env: Env, w: World)
    ensures var s := CopyNodeBuildFile(env, w);
      && Extends(w, s.world) && Commands(Added(w, s.world)) == []
      && forall e :: e in Added(w, s.world) ==> e.MadeDir? || e.RemovedTree? || e.CopiedTree?
  {
    var output := env.cwd + env.config.node.output;
    var dest := BundleDest(env);
    if output in w.paths {
      var w1 := if dest in w.paths then w else MakeDir(w, dest);
      var tail := [RemovedTree(dest), CopiedTree(output, dest)];
      var s := CopyNodeBuildFile(env, w);
      assert s.world.trace == w1.trace + tail;
      assert Commands(tail) == [] + ([] + Commands([]));
      if dest in w.paths {
        assert Added(w, s.world) == tail;
      } else {
        assert Added(w, s.world) == [MadeDir(dest)] + tail;
        CommandsAppend([MadeDir(dest)], tail);
        assert Commands([MadeDir(dest)]) == [] + Commands([]);
      }
    }
  }

  /** Without the bundler's output the copy fails and touches nothing. */
  lemma MissingOutputTouchesNothing(env: Env, w: World)
    requires env.cwd + env.config.node.output !in w.paths
    ensures CopyNodeBuildFile(env, w) == Step(false, w)
  {
  }

  lemma UnderAppend(root: Path, q: Path)
    ensures Under(root, root + q) && (root + q)[|root|..] == q
  {
    assert (root + q)[..|root|] == root;
  }

  /** A prefix of an extension of `b` is a prefix of `b` or extends it. */
  lemma PrefixOfExtension(a: Path, b: Path, q: Path)
    ensures Under(a, b + q) ==> Under(a, b) || Under(b, a)
  {
    if |a| <= |b| {
      assert |a| <= |b + q| ==> (b + q)[..|a|] == b[..|a|];
    } else if |a| <= |b + q| {
      assert (b + q)[..|a|][..|b|] == b;
    }
  }

  /** When the output and the destination are disjoint, the destination ends
      up holding exactly what the output holds, and no path outside the
      destination appears or disappears. */
  lemma CopyMirrorsOutput(env: Env, w: World)
    requires env.cwd + env.config.node.output in w.paths
    requires !Under(BundleDest(env), env.cwd + env.config.node.output)
    requires !Under(env.cwd + env.config.node.output, BundleDest(env))
    ensures var s := CopyNodeBuildFile(env, w);
      && s.ok
      && (forall q :: BundleDest(env) + q in s.world.paths <==> env.cwd + env.config.node.output + q in w.paths)
      && (forall p :: !Under(BundleDest(env), p) ==> (p in s.world.paths <==> p in w.paths))
  {
    var output := env.cwd + env.config.node.output;
    var dest := BundleDest(env);
    var w1 := if dest in w.paths then w else MakeDir(w, dest);
    var p2 := RemoveTree(w1.paths, dest);
    var s := CopyNodeBuildFile(env, w);
    assert s.world.paths == CopyTree(p2, output, dest);
    forall q ensures dest + q in s.world.paths <==> output + q in w.paths {
      UnderAppend(dest, q);
      UnderAppend(output, q);
      PrefixOfExtension(dest, output, q);
      if dest + q in s.world.paths {
        assert dest + q !in p2;
        var r :| r in p2 && Under(output, r) && dest + q == dest + r[|output|..];
        assert q == r[|output|..];
        assert r == output + q by { assert r == r[..|output|] + r[|output|..]; }
        assert r != dest;
      }
      if output + q in w.paths {
        assert output + q in p2;
      }
    }
    forall p | !Under(dest, p) ensures p in s.world.paths <==> p in w.paths {
      forall r | r in p2 && Under(output, r) ensures p != dest + r[|output|..] {
        UnderAppend(dest, r[|output|..]);
      }
    }
  }

  /** Only in development is the executable started, and only when it exists. */
  lemma StartForDevAdds(env: Env, buildOption: string, w: World)
    ensures var s := StartForDev(env, buildOption, w);
      && Extends(w, s.world) && Commands(Added(w, s.world)) == []
      && (s.ok <==> buildOption != "dev" || ExecutablePath(env.cwd, env.config) in w.paths)
      && forall e :: e in Added(w, s.world) ==> buildOption == "dev" && e == Started(DevLaunch(env))
  {
    RunTargetExecutableAdds(env, w);
  }

  /** The bundler runs; only in a build is its output copied afterwards. */
  lemma BundleAdds(env: Env, buildOption: string, w: World)
    ensures var s := Bundle(env, buildOption, w);
      && Extends(w, s.world) && Commands(Added(w, s.world)) == [NodeCommand(env.config, buildOption)]
      && forall e :: e in Added(w, s.world) ==>
           e.RanCommand? || (buildOption == "build" && (e.MadeDir? || e.RemovedTree? || e.CopiedTree?))
  {
    var command := NodeCommand(env.config, buildOption);
    var bundled := ExecSync(env, w, command);
    ExecSyncAdds(env, w, command);
    assert Commands([RanCommand(command)]) == [command] + Commands([]);
    if bundled.ok && buildOption == "build" {
      CopyNodeBuildFileAdds(env, bundled.world);
      Chain(w, bundled.world, CopyNodeBuildFile(env, bundled.world).world, [command], []);
      ChainAll(w, bundled.world, CopyNodeBuildFile(env, bundled.world).world,
               (e: Event) => e.RanCommand? || e.MadeDir? || e.RemovedTree? || e.CopiedTree?);
    }
  }

  /** The web phase runs exactly `NodeCommands`. */
  lemma BuildNodeProjectRuns(env: Env, buildOption: string, w: World)
    ensures var s := BuildNodeProject(env, buildOption, w);
      Extends(w, s.world) && Commands(Added(w, s.world)) == NodeCommands(env, buildOption, w)
  {
    var page := GenerateIndexHtml(env, buildOption, w);
    GenerateIndexHtmlAdds(env, buildOption, w);
    if page.ok {
      var launched := StartForDev(env, buildOption, page.world);
      StartForDevAdds(env, buildOption, page.world);
      Chain(w, page.world, launched.world, [], []);
      if launched.ok {
        BundleAdds(env, buildOption, launched.world);
        Chain(w, launched.world, Bundle(env, buildOption, launched.world).world, [], [NodeCommand(env.config, buildOption)]);
      }
    }
  }

  /** What the web phase may do: start the executable only in development
      and with the launch command, copy the bundle only in a build, and never
      copy the DLL. */
  predicate WebEvent(env: Env, buildOption: string, e: Event) {
    && (e.Started? ==> buildOption == "dev" && e == Started(DevLaunch(env)))
    && (e.CopiedTree? ==> buildOption == "build")
    && !e.CopiedFile?
  }

  /** Every one of `events` is a `WebEvent`. */
  predicate AllWeb(env: Env, buildOption: string, events: seq<Event>) {
    forall e :: e in events ==> WebEvent(env, buildOption, e)
  }

  lemma WebChain(env: Env, buildOption: string, w: World, w1: World, w2: World)
    requires Extends(w, w1) && AllWeb(env, buildOption, Added(w, w1))
    requires Extends(w1, w2) && AllWeb(env, buildOption, Added(w1, w2))
    ensures Extends(w, w2) && AllWeb(env, buildOption, Added(w, w2))
  {
    AddedSplit(w, w1, w2);
  }

  lemma GenerateIndexHtmlIsWeb(env: Env, buildOption: string, w: World)
    ensures var s := GenerateIndexHtml(env, buildOption, w);
      Extends(w, s.world) && AllWeb(env, buildOption, Added(w, s.world))
  {
    GenerateIndexHtmlAdds(env, buildOption, w);
  }

  lemma StartForDevIsWeb(env: Env, buildOption: string, w: World)
    ensures var s := StartForDev(env, buildOption, w);
      Extends(w, s.world) && AllWeb(env, buildOption, Added(w, s.world))
  {
    StartForDevAdds(env, buildOption, w);
  }

  lemma BundleIsWeb(env: Env, buildOption: string, w: World)
    ensures var s := Bundle(env, buildOption, w);
      Extends(w, s.world) && AllWeb(env, buildOption, Added(w, s.world))
  {
    BundleAdds(env, buildOption, w);
  }

  /** Every event of the web phase is a `WebEvent`. */
  lemma BuildNodeProjectEvents(env: Env, buildOption: string, w: World)
    ensures var s := BuildNodeProject(env, buildOption, w);
      Extends(w, s.world) && forall e :: e in Added(w, s.world) ==> WebEvent(env, buildOption, e)
  {
    var page := GenerateIndexHtml(env, buildOption, w);
    GenerateIndexHtmlIsWeb(env, buildOption, w);
    if page.ok {
      var launched := StartForDev(env, buildOption, page.world);
      StartForDevIsWeb(env, buildOption, page.world);
      WebChain(env, buildOption, w, page.world, launched.world);
      if launched.ok {
        BundleIsWeb(env, buildOption, launched.world);
        WebChain(env, buildOption, w, launched.world, Bundle(env, buildOption, launched.world).world);
      }
    }
  }

  // ---------------------------------------------------------- top-level facts

  /** Help and an unknown build option exit at once, touching nothing. */
  lemma RunStopsEarly(env: Env, argv: seq<string>, w: World)
    requires !Decide(argv).Proceed?
    ensures Run(env, argv, w) == Outcome(if BuildOption(argv) == "help" then 0 else 1, w)
  {
  }

  /** The commands of a run, in order: the native phase's, then, if it did not
      fail, the web phase's. Without the native phase only the bundler runs. */
  lemma RunCommands(env: Env, argv: seq<string>, w: World)
    requires Decide(argv).Proceed?
    ensures var ctx := Decide(argv).ctx;
      var r := Run(env, argv, w);
      var native := BuildCppProject(env, ctx, w);
      && Extends(w, r.world)
      && Commands(Added(w, r.world)) ==
           if !ctx.shouldBuildCpp then NodeCommands(env, ctx.buildOption, w)
           else if !native.ok then CppCommands(env, ctx, w)
           else CppCommands(env, ctx, w) + NodeCommands(env, ctx.buildOption, native.world)
  {
    var ctx := Decide(argv).ctx;
    if !ctx.shouldBuildCpp {
      BuildNodeProjectRuns(env, ctx.buildOption, w);
    } else {
      var native := BuildCppProject(env, ctx, w);
      BuildCppProjectRuns(env, ctx, w);
      if native.ok {
        var web := BuildNodeProject(env, ctx.buildOption, native.world);
        BuildNodeProjectRuns(env, ctx.buildOption, native.world);
        AddedSplit(w, native.world, web.world);
        CommandsAppend(Added(w, native.world), Added(native.world, web.world));
      }
    }
  }

  /** With "no-cpp" every command the run waits for is the bundler command. */
  lemma NoCppRunsOnlyBundler(env: Env, argv: seq<string>, w: World)
    requires Decide(argv).Proceed? && !Decide(argv).ctx.shouldBuildCpp
    ensures var r := Run(env, argv, w);
      && Extends(w, r.world)
      && forall e :: e in Added(w, r.world) && e.RanCommand? ==> e.command == NodeCommand(env.config, Decide(argv).ctx.buildOption)
  {
    var r := Run(env, argv, w);
    RunCommands(env, argv, w);
    forall e | e in Added(w, r.world) && e.RanCommand?
      ensures e.command == NodeCommand(env.config, Decide(argv).ctx.buildOption)
    {
      RanCommandInCommands(Added(w, r.world), e.command);
    }
  }

  /** A failed native phase exits with 1 before anything of the web phase:
      no page is written and nothing is started. */
  lemma NativeFailureStopsRun(env: Env, argv: seq<string>, w: World)
    requires Decide(argv).Proceed? && Decide(argv).ctx.shouldBuildCpp
    requires !BuildCppProject(env, Decide(argv).ctx, w).ok
    ensures var r := Run(env, argv, w);
      && r == Outcome(1, BuildCppProject(env, Decide(argv).ctx, w).world)
      && Extends(w, r.world)
      && forall e :: e in Added(w, r.world) ==> e.MadeDir? || e.RanCommand?
  {
    BuildCppProjectEvents(env, Decide(argv).ctx, w);
  }

  /** The only thing a run starts without waiting is the executable, in
      development, with the launch command for the configured ports. */
  lemma RunStartsOnlyDevLaunch(env: Env, argv: seq<string>, w: World)
    ensures var r := Run(env, argv, w);
      && Extends(w, r.world)
      && forall e :: e in Added(w, r.world) && e.Started? ==>
           Decide(argv).Proceed? && Decide(argv).ctx.buildOption == "dev" && e.command == DevLaunch(env)
  {
    if Decide(argv).Proceed? {
      var ctx := Decide(argv).ctx;
      var native := if ctx.shouldBuildCpp then BuildCppProject(env, ctx, w) else Step(true, w);
      BuildCppProjectEvents(env, ctx, w);
      if native.ok {
        var web := BuildNodeProject(env, ctx.buildOption, native.world);
        BuildNodeProjectEvents(env, ctx.buildOption, native.world);
        AddedSplit(w, native.world, web.world);
      }
    }
  }

  /** Whatever the run starts, the host reads as development mode on exactly
      the configured ports. */
  lemma DevLaunchRoundTrip(env: Env, argv: seq<string>, w: World)
    requires QuotedWord(PathText(ExecutablePath(env.cwd, env.config)))
    requires env.config.node.nodeServer <= NativeMain.IntMax && env.config.node.webuiServer <= NativeMain.IntMax
    ensures var r := Run(env, argv, w);
      && Extends(w, r.world)
      && forall e :: e in Added(w, r.world) && e.Started? ==>
           NativeMain.Dispatch(Words(e.command)) == NativeMain.Dev(env.config.node.nodeServer, env.config.node.webuiServer)
  {
    var launch := DevLaunch(env);
    NativeMain.LaunchRoundTrip(PathText(ExecutablePath(env.cwd, env.config)), env.config.node.nodeServer, env.config.node.webuiServer);
    assert NativeMain.Dispatch(Words(launch)) == NativeMain.Dev(env.config.node.nodeServer, env.config.node.webuiServer);
    RunStartsOnlyDevLaunch(env, argv, w);
  }

  /** The bundle is copied only when the build option is "build". */
  lemma CopyOnlyInBuild(env: Env, argv: seq<string>, w: World)
    ensures var r := Run(env, argv, w);
      && Extends(w, r.world)
      && forall e :: e in Added(w, r.world) && e.CopiedTree? ==> Decide(argv).Proceed? && Decide(argv).ctx.buildOption == "build"
  {
    if Decide(argv).Proceed? {
      var ctx := Decide(argv).ctx;
      var native := if ctx.shouldBuildCpp then BuildCppProject(env, ctx, w) else Step(true, w);
      BuildCppProjectEvents(env, ctx, w);
      if native.ok {
        var web := BuildNodeProject(env, ctx.buildOption, native.world);
        BuildNodeProjectEvents(env, ctx.buildOption, native.world);
        AddedSplit(w, native.world, web.world);
      }
    }
  }
}

