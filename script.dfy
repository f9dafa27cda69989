/** The build script run step by step: a workspace holds the paths that exist
    and the trace of effects, and each phase of the script is a method that
    updates them in place and early-returns `false` as the script does. Every
    method is proved to do what the matching function of `Pipeline` says. */
module Script {
  import opened Wrappers
  import opened Text
  import opened Config
  import opened Cli
  import opened NativePlan
  import opened Pipeline
  import IndexHtml

  class Workspace {
    /** The configuration, the working directory and how commands answer. */
    const env: Env
    /** The paths that exist. */
    var paths: set<Path>
    /** The effects performed so far. */
    var trace: seq<Event>

    function State(): World
      reads this
    {
      World(paths, trace)
    }

    constructor(env: Env, paths: set<Path>)
      ensures this.env == env && State() == World(paths, [])
    {
      this.env := env;
      this.paths := paths;
      this.trace := [];
    }

    /** `execSync(command)`; `false` where it throws on a non-zero status. */
    method ExecSync(command: string) returns (ok: bool)
      modifies this
      ensures Step(ok, State()) == Pipeline.ExecSync(env, old(State()), command)
    {
      paths := paths + env.creates(command);
      trace := trace + [RanCommand(command)];
      ok := env.status(command) == 0;
    }

    /** `fs.mkdirSync(dir)`. */
    method MakeDir(dir: Path)
      modifies this
      ensures State() == Pipeline.MakeDir(old(State()), dir)
    {
      paths := paths + {dir};
      trace := trace + [MadeDir(dir)];
    }

    /** `webviewFinder`: the loader DLL's path, `None` where the script returns "". */
    method WebviewFinder() returns (dll: Option<Path>)
      ensures dll == Pipeline.WebviewFinder(env, State())
    {
      if Lower(env.config.targetOs) != "windows" {
        return None;
      }
      var webviewPath := WebviewPackageDir(env.cwd, env.config);
      if webviewPath !in paths {
        return None;
      }
      var dynLibPath := webviewPath + ["runtimes", "win-" + Lower(env.config.targetArchitecture), "native", "WebView2Loader.dll"];
      if dynLibPath !in paths {
        return None;
      }
      return Some(dynLibPath);
    }

    /** `copyDynLib`. */
    method CopyDynLib()
      modifies this
      ensures State() == Pipeline.CopyDynLib(env, old(State()))
    {
      if Lower(env.config.targetOs) != "windows" {
        return;
      }
      var dll := WebviewFinder();
      if dll.None? {
        return;
      }
      var dest := BuildPath(env.cwd, env.config) + [dll.value[|dll.value| - 1]];
      if dest !in paths {
        paths := paths + {dest};
        trace := trace + [CopiedFile(dll.value, dest)];
      }
    }

    /** `buildCppProject`. */
    method BuildCppProject(ctx: Context) returns (ok: bool)
      modifies this
      ensures Step(ok, State()) == Pipeline.BuildCppProject(env, ctx, old(State()))
    {
      var cfg := env.config;
      var buildTargetType := BuildTargetType(ctx.buildOption, cfg);
      var cppProjectPath := SourcePath(env.cwd, cfg);
      var cppBuildPath := BuildPath(env.cwd, cfg);
      if cppProjectPath !in paths {
        return false;
      }
      if cppBuildPath !in paths {
        MakeDir(cppBuildPath);
      }
      var makeGenCommand := GenerateCommand(cfg, PathText(cppProjectPath), PathText(cppBuildPath), buildTargetType);
      if ctx.shouldReloadCMakeFile {
        var generated := ExecSync(makeGenCommand);
        if !generated {
          return false;
        }
      }
      var makeBuildCommand := BuildCommand(cfg, PathText(cppBuildPath));
      var built := ExecSync(makeBuildCommand);
      if !built {
        return false;
      }
      CopyDynLib();
      return true;
    }

    /** `generateIndexHtml`. */
    method GenerateIndexHtml(buildOption: string) returns (ok: bool)
      modifies this
      ensures Step(ok, State()) == Pipeline.GenerateIndexHtml(env, buildOption, old(State()))
    {
      var node := env.config.node;
      var templatePath := env.cwd + node.indexTemplate;
      if templatePath !in paths {
        return false;
      }
      var template := env.read(templatePath);
      var sub := IndexHtml.ScriptTag(buildOption, node.webuiServer);
      template := ReplaceFirst(template, node.webuiBridge, sub);
      var page := env.cwd + node.indexHtml;
      paths := paths + {page};
      trace := trace + [WroteFile(page, template)];
      return true;
    }

    /** `runTargetExecutable`: the executable is started and not waited for. */
    method RunTargetExecutable() returns (ok: bool)
      modifies this
      ensures Step(ok, State()) == Pipeline.RunTargetExecutable(env, old(State()))
    {
      var filename := ExecutableName(env.config);
      var target := BuildPath(env.cwd, env.config) + [filename];
      if target !in paths {
        return false;
      }
      trace := trace + [Started(LaunchCommand(PathText(target), env.config.node.nodeServer, env.config.node.webuiServer))];
      return true;
    }

    /** `copyNodeBuildFile`. */
    method CopyNodeBuildFile() returns (ok: bool)
      modifies this
      ensures Step(ok, State()) == Pipeline.CopyNodeBuildFile(env, old(State()))
    {
      var nodeBuildPath := env.cwd + env.config.node.output;
      if nodeBuildPath !in paths {
        return false;
      }
      var dest := BuildPath(env.cwd, env.config) + [env.config.cpp.webuiSubDirName];
      if dest !in paths {
        MakeDir(dest);
      }
      paths := RemoveTree(paths, dest);
      trace := trace + [RemovedTree(dest)];
      paths := CopyTree(paths, nodeBuildPath, dest);
      trace := trace + [CopiedTree(nodeBuildPath, dest)];
      return true;
    }

    /** `buildNodeProject`. */
    method BuildNodeProject(buildOption: string) returns (ok: bool)
      modifies this
      ensures Step(ok, State()) == Pipeline.BuildNodeProject(env, buildOption, old(State()))
    {
      var generated := GenerateIndexHtml(buildOption);
      if !generated {
        return false;
      }
      var command := if buildOption == "dev" then env.config.node.devCommand else env.config.node.buildCommand;
      if buildOption == "dev" {
        var started := RunTargetExecutable();
        if !started {
          return false;
        }
      }
      var bundled := ExecSync(command);
      if !bundled {
        return false;
      }
      if buildOption == "build" {
        var copied := CopyNodeBuildFile();
        if !copied {
          return false;
        }
      }
      return true;
    }

    /** The top level of the script: parse the command line, run the native
      phase unless "no-cpp" was given, then the web phase. */
    method Execute(argv: seq<string>) returns (exitCode: int)
      modifies this
      ensures Outcome(exitCode, State()) == Pipeline.Run(env, argv, old(State()))
    {
      var decision := ParseCommandLine(argv);
      match decision
      case ShowHelp =>
        return 0;
      case UnknownUsage =>
        return 1;
      case Proceed(ctx) =>
        if ctx.shouldBuildCpp {
          var built := BuildCppProject(ctx);
          if !built {
            return 1;
          }
        }
        var done := BuildNodeProject(ctx.buildOption);
        if !done {
          return 1;
        }
        return 0;
    }
  }
}
