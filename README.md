# webui-vue-template build CLI and native host, in Dafny

The repository is a template for desktop applications whose front end is a
Vue/Vite web bundle and whose host is a C++ executable built against the WebUI
library. `scripts/webui.cjs` is the build CLI run as `node webui.cjs <mode>
[params]`. In order, it:

- parses the command line;
- generates and builds the CMake project;
- copies the WebView2 loader DLL on Windows;
- writes `index.html` from a template with a `<script>` tag for the WebUI
  bridge;
- starts the executable in development;
- runs the bundler;
- in a build, copies the bundle beside the executable.

`src-cpp/main.cpp` is the host's `main`. It starts development mode on
`--run-dev <nodePort> <webuiPort>` and serves `./webui/index.html` otherwise.

The model has one module per concern:

- **`Cli`** covers the command line. `Decide` is the decision as a function of
  `process.argv`. `ParseParams` is the script's flag loop, proved to clear
  each flag exactly when `HasParam` finds its parameter. `ParseCommandLine`
  runs the top-level checks and that loop, and is proved equal to `Decide`.
- **`NativePlan`** covers the strings and paths built from the configuration:
  - the build type;
  - the generate and build commands;
  - the executable's name and launch line;
  - the WebView2 paths.

  Commands are lists of `Shell` pieces (bare or double-quoted words).
  `GenerateCommand`, `BuildCommand`, `AppendDefines` and `AppendBuildArgs` grow the
  strings with `+=` loops, as the script does. Each is proved to produce the
  rendering of those pieces. The lemmas then say which words a shell splits
  each command into.
- **`Shell`** renders pieces into a command line and splits a command line
  back into words. The splitting knows blanks and double quotes only.
  `Shell.Literal` states when a piece is one `sh` and `cmd.exe` keep
  literally: a bare word holds no white space, quote, expansion, escape,
  operator, glob or brace character, and a quoted word holds none of
  `"`, `$`, backquote, `\` and `%`. On such pieces the two splittings agree.
- **`Text`** holds the shared string helpers:
  - ASCII lower-casing;
  - decimal numerals;
  - `String.prototype.replace` with a string pattern, which replaces only the
    first occurrence.
- **`IndexHtml`** covers the script tag and the template substitution.
- **`Pipeline`** holds each phase of the script as a function on a `World`.
  A `World` is the set of existing paths plus an append-only trace of
  effects: commands run and waited for, commands started, directories made,
  files and trees copied, trees removed, files written. The environment
  answers four questions:
  - which paths each command creates (`creates`);
  - the status each command exits with (`status`);
  - what the template file holds (`read`);
  - the configuration.

  The lemmas state the ordering and short-circuit rules as facts about the
  trace.
- **`Script`** runs the same phases step by step. Class `Workspace` holds the
  paths and the trace, and keeps the configuration and working directory
  fixed. Each method updates the fields and returns early with `false` where
  the script does. Each method is proved to leave exactly the state the
  matching `Pipeline` function describes. Each phase is therefore written
  twice, on purpose. The functions can be used inside lemmas, which cannot
  call methods, and the ordering and short-circuit rules are proved about
  them. The methods keep the script's early returns and in-place updates,
  and the equality in their contracts carries those rules over to them.
- **`NativeMain`** covers `main`:
  - `std::stoi`;
  - the dispatch on `argv`;
  - the window calls made;
  - the returned `err`.

  It also proves the round trip: the line the script launches with is read
  by `main` as development mode on the configured ports.

Notes on the modelling:

- Paths are sequences of segments. `path.join(a, b)` is concatenation. A path
  is written into a command with `/` between segments.
- The configuration is a record that is read once and never changed.
  `cpp.buildSystem.options` and `cpp.buildArgs` are sequences in
  `Object.entries` order.
- Content comes from the disk in one place: the template read by
  `generateIndexHtml`, through `env.read`. Nothing the script does earlier
  writes that file.

## Model

| member | source | states |
|---|---|---|
| Cli.ModeSelection | scripts/webui.cjs:282-297 | "help" in any letter case asks for help. Only "dev" and "build" go on, and they carry the lower-cased option. A missing or empty `argv[2]` becomes "none" and is rejected, like every other option. |
| Cli.ParseParams | scripts/webui.cjs:299-315 | The flag loop returns `shouldBuildCpp` false exactly when some parameter lower-cases to "no-cpp", and `shouldReloadCMakeFile` false exactly when some parameter lower-cases to "no-reload". |
| Cli.ParseCommandLine | scripts/webui.cjs:282-317 | The script's checks and loop reach exactly the decision `Decide` describes: help, unknown usage, or a context. |
| Cli.FlagsDefaultTrue | scripts/webui.cjs:299-301 | Without parameters, both flags are true. |
| Cli.UnknownParamIgnored | scripts/webui.cjs:310-312 | Appending a parameter other than "no-cpp" and "no-reload" leaves the decision unchanged. |
| Cli.NoCppClearsOnlyBuildCpp | scripts/webui.cjs:304-306 | Appending "no-cpp" clears `shouldBuildCpp` and changes nothing else. |
| Cli.NoReloadClearsOnlyReload | scripts/webui.cjs:307-309 | Appending "no-reload" clears `shouldReloadCMakeFile` and changes nothing else. |
| Cli.ParamOrderIrrelevant | scripts/webui.cjs:301-315 | The decision depends on the parameters only as a set: order and repetition do not matter. |
| NativePlan.BuildTargetType | scripts/webui.cjs:44-52 | "dev" gives "Debug", "build" gives "Release", and anything else gives the configured default build type. |
| NativePlan.GenerateHeadText | scripts/webui.cjs:81-86 | The fixed part of the generate command reads character for character as the script's template literals: the quoted CMake path, `-S`, `-B`, `-G` and the three quoted `CMAKE_*` defines. |
| NativePlan.AppendDefines | scripts/webui.cjs:87-89 | The option loop appends one blank and one quoted `-Dkey=value` per option, in entry order. |
| NativePlan.GenerateCommand | scripts/webui.cjs:81-89 | The generate command string is the rendering of the head pieces followed by the define pieces. |
| NativePlan.GenerateArguments | scripts/webui.cjs:81-89 | When every configured word is one the shell keeps literally where it stands (`Shell.Literal`), CMake receives this argument vector: the executable, `-S src -B build -G generator`, the three `CMAKE_*` defines, and then exactly one `-Dkey=value` per option in entry order. |
| NativePlan.ArgText | scripts/webui.cjs:116-120 | One build argument adds ` key` when its value is empty and ` key value` otherwise. |
| NativePlan.AppendBuildArgs | scripts/webui.cjs:113-121 | The build-argument loop appends each argument's text in order. |
| NativePlan.BuildCommand | scripts/webui.cjs:111-121 | The build command string is the rendering of `"<cmake>" --build <dir> --target <name>` followed by the argument pieces. |
| NativePlan.BuildArguments | scripts/webui.cjs:111-121 | When every configured word is one the shell keeps literally, CMake receives the executable, `--build <dir> --target <name>`, and then, for each build argument in order, its key, followed by its value unless the value is empty. |
| NativePlan.GenerateIsNotBuild | scripts/webui.cjs:81-111 | The generate command and the build command are never the same line. |
| NativePlan.ExecutableName | scripts/webui.cjs:204-209 | The file name is the target name, followed by ".exe" exactly when the lower-cased target OS is "windows". |
| NativePlan.LaunchArguments | scripts/webui.cjs:220 | When the executable's path is one the shell keeps literally between quotes, the executable receives exactly its own path, `--run-dev`, the Node.js port and the WebUI port. |
| NativePlan.WebviewDllPlacement | scripts/webui.cjs:147-154 | The loader DLL lies inside the WebView2 package. Its copy lands in the build directory, beside the executable, under the name `WebView2Loader.dll`. |
| IndexHtml.ScriptSource | scripts/webui.cjs:171-175 | In "dev", the tag's `src` is `http://localhost:<webuiServer>/webui.js`. Otherwise it is `webui.js`. |
| IndexHtml.DevTagPort | scripts/webui.cjs:172 | The digits after `localhost:` in the development tag read back as the configured WebUI port, and a `/` follows them. |
| IndexHtml.ScriptTagIsLiteral | scripts/webui.cjs:176 | Neither tag contains `$`, so `String.prototype.replace` inserts the tag literally. |
| IndexHtml.GenerateReplacesFirst | scripts/webui.cjs:170-177 | The first occurrence of the marker becomes the tag. The text before it and the text after it are unchanged, and the length changes by the difference between the tag and the marker. |
| IndexHtml.GenerateKeepsLaterMarkers | scripts/webui.cjs:176 | A later occurrence of the marker that starts at or after the end of the first one is kept, shifted by the length difference. One that overlaps the first is not kept. |
| IndexHtml.GenerateWithoutMarker | scripts/webui.cjs:176 | A template in which the marker occurs nowhere is written unchanged. |
| Text.ReplaceFirstAt | scripts/webui.cjs:176 | At an occurrence with no earlier one, the replacement keeps everything before and after it. |
| Text.DigitsValueOfNatToString | scripts/webui.cjs:172 | A decimal numeral written for a port reads back as that port. |
| Shell.WordsOfRender | scripts/webui.cjs:97 | A command line built from safe pieces (bare words without blanks or quotes, quoted words without quotes) splits back into exactly the pieces' texts. |
| Pipeline.WebviewFinder | scripts/webui.cjs:141-160 | A DLL is found exactly on Windows when both the package directory and the DLL for the configured architecture exist, and then it is that DLL. Otherwise the result is the empty answer. |
| Pipeline.ExecSyncAdds | scripts/webui.cjs:97 | `execSync` adds one completed run of its command to the trace and nothing else. |
| Pipeline.CopyDynLibAdds | scripts/webui.cjs:22-40 | Off Windows, without the DLL, or with a file of its name already in the build directory, the copy does nothing. Otherwise it adds exactly one event, copying the package's DLL to `WebView2Loader.dll` in the build directory, and exactly that one path appears. No command runs. |
| Pipeline.CopyDynLibIdempotent | scripts/webui.cjs:34-39 | A second copy of the DLL changes nothing. |
| Pipeline.PrepareBuildDirAdds | scripts/webui.cjs:68-70 | Preparing the build directory runs no command and only makes directories. |
| Pipeline.GenerateProjectAdds | scripts/webui.cjs:95-103 | The generate command runs only when reloading. Generation succeeds exactly when it is skipped or the command exits with 0. |
| Pipeline.BuildProjectAdds | scripts/webui.cjs:124-135 | The build command runs. The DLL copy happens only when its status is 0, and the step succeeds exactly then. |
| Pipeline.BuildCppProjectRuns | scripts/webui.cjs:63-138 | The native phase runs exactly these commands, in order: none without the source directory; the generate command when reloading, stopping there if it fails; then the build command. |
| Pipeline.BuildCppProjectEvents | scripts/webui.cjs:63-138 | The native phase only makes directories and runs commands, and it copies a file (the DLL) only when it succeeds. |
| Pipeline.BuildCppProjectSucceeds | scripts/webui.cjs:63-138 | The native phase succeeds exactly when the source directory exists and every command it runs exits with status 0. |
| Pipeline.RanCommandInCommands | scripts/webui.cjs:97 | An event list contains a completed run of a command exactly when that command is among the list's commands. |
| Pipeline.GenerateOnlyOnReload | scripts/webui.cjs:95-125 | The generate command appears in the trace exactly when the source exists and reloading is on. The build command appears exactly when the source exists and generation, if it ran, succeeded. |
| Pipeline.MissingSourceRunsNothing | scripts/webui.cjs:63-66 | Without the source directory, the native phase fails and the world is unchanged. |
| Pipeline.GenerateIndexHtmlAdds | scripts/webui.cjs:162-180 | Writing the page runs no command. It succeeds exactly when the template exists, and then it adds only the page. Without the template, nothing changes. |
| Pipeline.RunTargetExecutableAdds | scripts/webui.cjs:201-231 | Launching succeeds exactly when the executable exists. It waits for nothing and starts only the launch command. Without the executable, nothing changes. |
| Pipeline.CopyNodeBuildFileAdds | scripts/webui.cjs:182-199 | Copying the bundle runs no command. It only creates, removes and copies directory trees. |
| Pipeline.MissingOutputTouchesNothing | scripts/webui.cjs:186-188 | Without the bundler output, the copy fails and touches nothing, the destination included. |
| Pipeline.CopyMirrorsOutput | scripts/webui.cjs:189-196 | When the output and the destination are disjoint, the destination ends up holding exactly what the output holds. No path outside the destination appears or disappears. |
| Pipeline.StartForDevAdds | scripts/webui.cjs:251-254 | Only in development is the executable started. |
| Pipeline.BundleAdds | scripts/webui.cjs:257-273 | The bundler command for the mode runs. Only in "build" is its output copied afterwards. |
| Pipeline.BuildNodeProjectRuns | scripts/webui.cjs:233-276 | The web phase runs the bundler command exactly when the template exists and, in development, the executable exists (the page just written counting as existing). It runs no other command. |
| Pipeline.BuildNodeProjectEvents | scripts/webui.cjs:233-276 | The web phase starts only the launch command, and only in development. It copies the bundle only in "build" and never copies the DLL. |
| Pipeline.RunStopsEarly | scripts/webui.cjs:284-297 | Help exits with 0 and an unknown mode exits with 1. Neither touches anything. |
| Pipeline.RunCommands | scripts/webui.cjs:322-336 | The commands of a run are the native phase's and then, if that phase did not fail, the web phase's. With "no-cpp", only the web phase's commands run. |
| Pipeline.NoCppRunsOnlyBundler | scripts/webui.cjs:322-327 | With "no-cpp", every command the run waits for is the bundler command, so no CMake command appears. |
| Pipeline.NativeFailureStopsRun | scripts/webui.cjs:322-327 | A failed native phase exits with 1 before the web phase. No page is written and nothing is started. |
| Pipeline.RunStartsOnlyDevLaunch | scripts/webui.cjs:220 | The only thing a run starts without waiting is the development launch of the configured executable. |
| Pipeline.DevLaunchRoundTrip | scripts/webui.cjs:220 | Whatever a run starts, `main` reads it as development mode on exactly the configured Node.js and WebUI ports. |
| Pipeline.CopyOnlyInBuild | scripts/webui.cjs:266-273 | The bundle is copied only when the mode is "build". |
| Script.Workspace.ExecSync | scripts/webui.cjs:97 | Runs the command: the paths it creates appear, its run is appended to the trace, and the result is true exactly on status 0. |
| Script.Workspace.MakeDir | scripts/webui.cjs:68-70 | Creates the directory and records it. |
| Script.Workspace.WebviewFinder | scripts/webui.cjs:141-160 | Returns the DLL exactly as `Pipeline.WebviewFinder` describes it, changing nothing. |
| Script.Workspace.CopyDynLib | scripts/webui.cjs:22-40 | Leaves the state that `Pipeline.CopyDynLib` describes. |
| Script.Workspace.BuildCppProject | scripts/webui.cjs:42-139 | Returns the result and leaves the state that `Pipeline.BuildCppProject` describes, using the loop-built command strings. |
| Script.Workspace.GenerateIndexHtml | scripts/webui.cjs:162-180 | Returns the result and leaves the state that `Pipeline.GenerateIndexHtml` describes. |
| Script.Workspace.RunTargetExecutable | scripts/webui.cjs:201-231 | Returns the result and leaves the state that `Pipeline.RunTargetExecutable` describes. |
| Script.Workspace.CopyNodeBuildFile | scripts/webui.cjs:182-199 | Returns the result and leaves the state that `Pipeline.CopyNodeBuildFile` describes. |
| Script.Workspace.BuildNodeProject | scripts/webui.cjs:233-276 | Returns the result and leaves the state that `Pipeline.BuildNodeProject` describes. |
| Script.Workspace.Execute | scripts/webui.cjs:282-336 | The exit code and the final state are those of `Pipeline.Run`. |
| NativeMain.Stoi | src-cpp/main.cpp:14-15 | A value `std::stoi` accepts fits a 32-bit `int`. |
| NativeMain.StoiOfNumeral | src-cpp/main.cpp:14-15 | A decimal numeral of at most `INT_MAX` reads back as its value. |
| NativeMain.StoiOfIntToString | src-cpp/main.cpp:24 | `std::stoi` reads back every `int` that `std::to_string` writes. |
| NativeMain.DispatchCases | src-cpp/main.cpp:12-35 | Development mode is taken exactly when `argc >= 4`, `argv[1]` is `--run-dev` and both ports parse. The ports come from `argv[2]` and `argv[3]`. Every other command line that is not `--run-dev` with at least three arguments serves `index.html` from `./webui`. |
| NativeMain.HostMain | src-cpp/main.cpp:8-41 | `main` aborts exactly when a port does not parse. Otherwise: it makes the window calls of the decision; `is_dev` is true exactly in development; it returns the `err` value the application writes, 0 if none is written. |
| NativeMain.LaunchRoundTrip | src-cpp/main.cpp:12-15 | Split into words, the script's launch line (`scripts/webui.cjs` line 220) is read by `main` as development mode with the configured Node.js and WebUI ports. |
| NativeMain.LaunchedWindowCalls | src-cpp/main.cpp:21-24 | Started by the script, the host sets the WebUI port to the configured WebUI port and opens `http://localhost:<nodeServer>/`. |

## Left out

- File system and process effects are abstract. `existsSync` is membership in the set of paths. `fs.rmSync` (`RemoveTree`) and `fs.cpSync` (`CopyTree`) are defined as set operations on paths, taken as their meaning rather than proved of them; `CopyMirrorsOutput` states what they add up to for the bundle copy. `execSync` is the environment's exit status and created paths for the command string. File contents exist only for the template, through `env.read`.
- The callback of `exec` in `runTargetExecutable` is left out. The launch is a `Started` event and is never waited for. A failure inside the callback does not reach the caller, so it is not modelled.
- `console.log` and `console.error` output in the script, and `std::cout` output in `main` (`src-cpp/main.cpp` lines 17-19, 22 and 25), is left out, including the `finally` blocks that print "successfully" on failure, which only log.
- Loading `webui.config.json` and `process.chdir` are left out. The configuration is an immutable record and the working directory is a parameter.
- `path.join` normalisation (`..`, `.`, duplicate separators) and platform path separators are not modelled. Joining is concatenation of segments.
- `Object.entries` order is taken as the order of the configuration's sequences.
- `String.prototype.toLowerCase` is modelled on ASCII letters only. Non-ASCII case mapping is not modelled.
- Shell word splitting knows only blanks and double quotes. Every other character `sh` or `cmd.exe` interprets (backslashes, `$` and `%` expansion, operators, globs, brace expansion) is not modelled. Instead, `GenerateArguments`, `BuildArguments`, `LaunchArguments`, `LaunchRoundTrip` and `DevLaunchRoundTrip` require every configured word to be a `Shell.Literal` piece, and say nothing about words that hold such characters.
- `GenerateArguments` and `BuildArguments` require the source and build directories, the generator name and the target name to be bare words. The script writes the `-S`, `-B`, `-G`, `--build` and `--target` operands unquoted (`scripts/webui.cjs` lines 81 and 111), so a working directory holding a blank, or a generator name such as "Unix Makefiles" or "Visual Studio 17 2022", is split by the shell. The model writes the commands as the script does and does not state what CMake receives in that case.
- `argValue == ""` in the build-argument loop is loose equality. Configuration values are modelled as strings, whose loose and strict comparison with `""` agree; non-string JSON values are not modelled.
- Ports are `nat` in the configuration record. The script interpolates whatever value the JSON holds; negative, fractional and non-numeric ports are not modelled. Neither are ports of 2^53 and above, which JavaScript writes with rounded digits or, from 10^21 on, in exponent form: for those `IndexHtml.ScriptTag` and `NativePlan.LaunchCommand` write the exact decimal numeral where the script writes something else.
- Exceptions the file-system calls could throw are not modelled. Examples are `mkdirSync` without an existing parent and `cpSync` into a destination inside its source. `CopyMirrorsOutput` therefore assumes the output and the destination are disjoint.
- `std::strcmp` on arguments that hold a NUL character is not modelled. Arguments are Dafny strings.
- The WebUI library calls (`set_port`, `show_wv`, `set_root_folder`, `webui::wait`) are recorded as `WindowCall` values. Their own effects and failures are foreign code.
- src-cpp/lib.cpp, src-cpp/lib.hpp and src/webui-ext.ts are not part of this model. The value `webui_main` writes through `err` is a parameter of `HostMain`.
- `HostMain`: the returned `int` is not truncated to the process's 8-bit exit status, because that happens outside `main`.
