/** The strings and paths the build script computes for the native (CMake)
    project: the build type, the generate and build commands, the executable's
    name and launch command, and where the WebView2 loader DLL is found and
    copied to. Everything here is a function of the configuration. */
module NativePlan {
  import opened Text
  import opened Shell
  import opened Config

  /** The build type for a build option. */
  function BuildTargetType(buildOption: string, cfg: BuildConfig): (t: string)
    ensures buildOption == "dev" ==> t == "Debug"
    ensures buildOption == "build" ==> t == "Release"
    ensures buildOption != "dev" && buildOption != "build" ==> t == cfg.cpp.defaultBuildTargetType
  {
    if buildOption == "dev" then "Debug"
    else if buildOption == "build" then "Release"
    else cfg.cpp.defaultBuildTargetType
  }

  /** How a path is written into a command line. */
  function PathText(p: Path): string {
    Join(p, "/")
  }

  function SourcePath(cwd: Path, cfg: BuildConfig): Path {
    cwd + cfg.cpp.sourceDir
  }

  function BuildPath(cwd: Path, cfg: BuildConfig): Path {
    cwd + cfg.cpp.buildDir
  }

  // ---------------------------------------------------------------- generate

  /** The fixed part of the generate command: the CMake executable (quoted),
      `-S`, `-B`, `-G` and the three `CMAKE_*` defines. */
  function GenerateHead(cfg: BuildConfig, src: string, bld: string, buildType: string): seq<Piece> {
    [Quoted(cfg.cpp.buildSystemPath), Bare("-S"), Bare(src), Bare("-B"), Bare(bld),
     Bare("-G"), Bare(cfg.cpp.generatorName),
     Quoted("-DCMAKE_MAKE_PROGRAM=" + cfg.cpp.generatorPath),
     Quoted("-DCMAKE_BUILD_TYPE=" + buildType),
     Quoted("-DCMAKE_CXX_COMPILER=" + cfg.cpp.compilerPath)]
  }

  /** The define written for one build-system option. */
  function DefineText(option: (string, string)): string {
    "-D" + option.0 + "=" + option.1
  }

  /** One quoted define per option, in entry order. */
  function Defines(options: seq<(string, string)>): seq<Piece> {
    seq(|options|, i requires 0 <= i < |options| => Quoted(DefineText(options[i])))
  }

  lemma DefinesSnoc(options: seq<(string, string)>, i: nat)
    requires i < |options|
    ensures Defines(options[..i + 1]) == Defines(options[..i]) + [Quoted(DefineText(options[i]))]
  {
    var a, b := Defines(options[..i + 1]), Defines(options[..i]) + [Quoted(DefineText(options[i]))];
    assert |a| == |b|;
    forall k | 0 <= k < |a| ensures a[k] == b[k] {
      assert options[..i + 1][k] == options[k];
    }
  }

  /** The generate command as pieces. */
  function GeneratePieces(cfg: BuildConfig, src: string, bld: string, buildType: string): seq<Piece> {
    GenerateHead(cfg, src, bld, buildType) + Defines(cfg.cpp.buildSystemOptions)
  }

  /** Regrouping of a quoted `prefix + value` piece appended after a blank. */
  lemma QuotedTail(r: string, prefix: string, value: string)
    ensures r + " " + Show(Quoted(prefix + value)) == r + " " + "\"" + prefix + value + "\""
  {
    var q := "\"";
    assert Show(Quoted(prefix + value)) == q + (prefix + value) + q;
  }

  /** The fixed part of the generate command, written out as the script writes it. */
  lemma GenerateHeadText(cfg: BuildConfig, src: string, bld: string, buildType: string)
    ensures Render(GenerateHead(cfg, src, bld, buildType))
      == "\"" + cfg.cpp.buildSystemPath + "\"" + " " + "-S" + " " + src + " " + "-B" + " " + bld + " " + "-G" + " " + cfg.cpp.generatorName
      + " " + "\"" + "-DCMAKE_MAKE_PROGRAM=" + cfg.cpp.generatorPath + "\""
      + " " + "\"" + "-DCMAKE_BUILD_TYPE=" + buildType + "\""
      + " " + "\"" + "-DCMAKE_CXX_COMPILER=" + cfg.cpp.compilerPath + "\""
  {
    var q := "\"";
    var p0, p1, p2, p3, p4 := Quoted(cfg.cpp.buildSystemPath), Bare("-S"), Bare(src), Bare("-B"), Bare(bld);
    var p5, p6 := Bare("-G"), Bare(cfg.cpp.generatorName);
    var p7, p8, p9 := Quoted("-DCMAKE_MAKE_PROGRAM=" + cfg.cpp.generatorPath),
      Quoted("-DCMAKE_BUILD_TYPE=" + buildType), Quoted("-DCMAKE_CXX_COMPILER=" + cfg.cpp.compilerPath);
    var t1 := [p0];
    assert t1[1..] == [];
    var r1 := q + cfg.cpp.buildSystemPath + q;
    assert Render(t1) == r1;
    var t2, r2 := [p0, p1], r1 + " " + "-S";
    assert t1 + [p1] == t2;
    RenderSnoc(t1, p1);
    var t3, r3 := [p0, p1, p2], r2 + " " + src;
    assert t2 + [p2] == t3;
    RenderSnoc(t2, p2);
    var t4, r4 := [p0, p1, p2, p3], r3 + " " + "-B";
    assert t3 + [p3] == t4;
    RenderSnoc(t3, p3);
    var t5, r5 := [p0, p1, p2, p3, p4], r4 + " " + bld;
    assert t4 + [p4] == t5;
    RenderSnoc(t4, p4);
    var t6, r6 := [p0, p1, p2, p3, p4, p5], r5 + " " + "-G";
    assert t5 + [p5] == t6;
    RenderSnoc(t5, p5);
    var t7, r7 := [p0, p1, p2, p3, p4, p5, p6], r6 + " " + cfg.cpp.generatorName;
    assert t6 + [p6] == t7;
    RenderSnoc(t6, p6);
    assert Render(t7) == r7;
    var t8, r8 := [p0, p1, p2, p3, p4, p5, p6, p7], r7 + " " + q + "-DCMAKE_MAKE_PROGRAM=" + cfg.cpp.generatorPath + q;
    assert t7 + [p7] == t8;
    RenderSnoc(t7, p7);
    QuotedTail(r7, "-DCMAKE_MAKE_PROGRAM=", cfg.cpp.generatorPath);
    assert Render(t8) == r8;
    var t9, r9 := [p0, p1, p2, p3, p4, p5, p6, p7, p8], r8 + " " + q + "-DCMAKE_BUILD_TYPE=" + buildType + q;
    assert t8 + [p8] == t9;
    RenderSnoc(t8, p8);
    QuotedTail(r8, "-DCMAKE_BUILD_TYPE=", buildType);
    assert Render(t9) == r9;
    var t10, r10 := [p0, p1, p2, p3, p4, p5, p6, p7, p8, p9], r9 + " " + q + "-DCMAKE_CXX_COMPILER=" + cfg.cpp.compilerPath + q;
    assert t9 + [p9] == t10;
    RenderSnoc(t9, p9);
    QuotedTail(r9, "-DCMAKE_CXX_COMPILER=", cfg.cpp.compilerPath);
    assert Render(t10) == r10;
    assert t10 == GenerateHead(cfg, src, bld, buildType);
  }

  /** The loop over the build-system options: one blank and one quoted
      `-Dkey=value` appended per option, in entry order. */
  method AppendDefines(base: string, options: seq<(string, string)>) returns (cmd: string)
    ensures cmd == base + Spaced(Defines(options))
  {
    var q := "\"";
    cmd := base;
    for i := 0 to |options|
      invariant cmd == base + Spaced(Defines(options[..i]))
    {
      var (key, value) := options[i];
      ghost var done, added := Spaced(Defines(options[..i])), " " + Show(Quoted(DefineText(options[i])));
      var define := " " + (q + ("-D" + key + "=" + value) + q);
      assert define == added;
      cmd := cmd + define;
      assert Spaced(Defines(options[..i + 1])) == done + added by {
        DefinesSnoc(options, i);
        SpacedSnoc(Defines(options[..i]), Quoted(DefineText(options[i])));
      }
      Assoc(base, done, added);
    }
    assert options[..|options|] == options;
  }

  /** The generate command string: the base command, the three `CMAKE_*`
      defines, then the options, as the script builds it. */
  method GenerateCommand(cfg: BuildConfig, src: string, bld: string, buildType: string) returns (cmd: string)
    ensures cmd == Render(GeneratePieces(cfg, src, bld, buildType))
  {
    var q := "\"";
    var baseCommand := q + cfg.cpp.buildSystemPath + q + " " + "-S" + " " + src + " " + "-B" + " " + bld + " " + "-G" + " " + cfg.cpp.generatorName;
    var withDefaults := baseCommand
      + " " + q + "-DCMAKE_MAKE_PROGRAM=" + cfg.cpp.generatorPath + q
      + " " + q + "-DCMAKE_BUILD_TYPE=" + buildType + q
      + " " + q + "-DCMAKE_CXX_COMPILER=" + cfg.cpp.compilerPath + q;
    assert withDefaults == Render(GenerateHead(cfg, src, bld, buildType)) by {
      GenerateHeadText(cfg, src, bld, buildType);
    }
    cmd := AppendDefines(withDefaults, cfg.cpp.buildSystemOptions);
    RenderAppend(GenerateHead(cfg, src, bld, buildType), Defines(cfg.cpp.buildSystemOptions));
  }

  /** A word a shell keeps whole without quotes. */
  predicate BareWord(s: string) {
    Literal(Bare(s))
  }

  /** A word a shell keeps literally between double quotes. */
  predicate QuotedWord(s: string) {
    Literal(Quoted(s))
  }

  /** What the generate command needs for its words to come out as intended:
      each word is one the shell keeps literally where it stands. */
  predicate GenerateWellFormed(cfg: BuildConfig, src: string, bld: string, buildType: string) {
    && QuotedWord(cfg.cpp.buildSystemPath)
    && BareWord(src) && BareWord(bld) && BareWord(cfg.cpp.generatorName)
    && QuotedWord(cfg.cpp.generatorPath) && QuotedWord(buildType) && QuotedWord(cfg.cpp.compilerPath)
    && forall i :: 0 <= i < |cfg.cpp.buildSystemOptions| ==> QuotedWord(DefineText(cfg.cpp.buildSystemOptions[i]))
  }

  /** The texts of the defines: `-Dkey=value` per option, in entry order. */
  lemma DefineTexts(options: seq<(string, string)>)
    ensures Texts(Defines(options)) == seq(|options|, i requires 0 <= i < |options| => "-D" + options[i].0 + "=" + options[i].1)
  {
  }

  /** CMake is started with the `-S/-B/-G` prefix, the three `CMAKE_*` defines
      and then exactly one `-Dkey=value` per option, in entry order. */
  lemma GenerateArguments(cfg: BuildConfig, src: string, bld: string, buildType: string)
    requires GenerateWellFormed(cfg, src, bld, buildType)
    ensures Words(Render(GeneratePieces(cfg, src, bld, buildType)))
         == [cfg.cpp.buildSystemPath, "-S", src, "-B", bld, "-G", cfg.cpp.generatorName,
             "-DCMAKE_MAKE_PROGRAM=" + cfg.cpp.generatorPath,
             "-DCMAKE_BUILD_TYPE=" + buildType,
             "-DCMAKE_CXX_COMPILER=" + cfg.cpp.compilerPath]
          + seq(|cfg.cpp.buildSystemOptions|, i requires 0 <= i < |cfg.cpp.buildSystemOptions| =>
                "-D" + cfg.cpp.buildSystemOptions[i].0 + "=" + cfg.cpp.buildSystemOptions[i].1)
  {
    var head := GenerateHead(cfg, src, bld, buildType);
    var defs := Defines(cfg.cpp.buildSystemOptions);
    GenerateWordsSafe(cfg, src, bld, buildType);
    GenerateHeadSafe(cfg, src, bld, buildType);
    assert AllSafe(defs) by {
      forall i | 0 <= i < |defs| ensures Safe(defs[i]) {
        LiteralIsSafe(Quoted(DefineText(cfg.cpp.buildSystemOptions[i])));
      }
    }
    AllSafeAppend(head, defs);
    WordsOfRender(head + defs);
    TextsAppend(head, defs);
    DefineTexts(cfg.cpp.buildSystemOptions);
    GenerateHeadTexts(cfg, src, bld, buildType);
  }

  /** Words the shell keeps literally (`Literal`) are also words the
      blank-and-quote splitting keeps whole (`Safe`). */
  lemma GenerateWordsSafe(cfg: BuildConfig, src: string, bld: string, buildType: string)
    requires GenerateWellFormed(cfg, src, bld, buildType)
    ensures GenerateSplits(cfg, src, bld, buildType)
  {
    LiteralIsSafe(Quoted(cfg.cpp.buildSystemPath));
    LiteralIsSafe(Bare(src));
    LiteralIsSafe(Bare(bld));
    LiteralIsSafe(Bare(cfg.cpp.generatorName));
    LiteralIsSafe(Quoted(cfg.cpp.generatorPath));
    LiteralIsSafe(Quoted(buildType));
    LiteralIsSafe(Quoted(cfg.cpp.compilerPath));
  }

  /** The words of the generate command as far as `Words` cares. */
  predicate GenerateSplits(cfg: BuildConfig, src: string, bld: string, buildType: string) {
    && Safe(Quoted(cfg.cpp.buildSystemPath))
    && Safe(Bare(src)) && Safe(Bare(bld)) && Safe(Bare(cfg.cpp.generatorName))
    && '"' !in cfg.cpp.generatorPath && '"' !in buildType && '"' !in cfg.cpp.compilerPath
  }

  lemma GenerateHeadSafe(cfg: BuildConfig, src: string, bld: string, buildType: string)
    requires GenerateSplits(cfg, src, bld, buildType)
    ensures AllSafe(GenerateHead(cfg, src, bld, buildType))
  {
    var head := GenerateHead(cfg, src, bld, buildType);
    assert Safe(head[7]) by {
      assert '"' !in "-DCMAKE_MAKE_PROGRAM=";
    }
    assert Safe(head[8]) by {
      assert '"' !in "-DCMAKE_BUILD_TYPE=";
    }
    assert Safe(head[9]) by {
      assert '"' !in "-DCMAKE_CXX_COMPILER=";
    }
    assert Safe(head[1]) && Safe(head[3]) && Safe(head[5]);
  }

  lemma GenerateHeadTexts(cfg: BuildConfig, src: string, bld: string, buildType: string)
    ensures Texts(GenerateHead(cfg, src, bld, buildType))
         == [cfg.cpp.buildSystemPath, "-S", src, "-B", bld, "-G", cfg.cpp.generatorName,
             "-DCMAKE_MAKE_PROGRAM=" + cfg.cpp.generatorPath,
             "-DCMAKE_BUILD_TYPE=" + buildType,
             "-DCMAKE_CXX_COMPILER=" + cfg.cpp.compilerPath]
  {
  }

  // ------------------------------------------------------------------- build

  /** The fixed part of the build command. */
  function BuildHead(cfg: BuildConfig, bld: string): seq<Piece> {
    [Quoted(cfg.cpp.buildSystemPath), Bare("--build"), Bare(bld), Bare("--target"), Bare(cfg.cpp.targetName)]
  }

  /** One build argument: its key alone when the value is empty, else key and value. */
  function ArgPieces(arg: BuildArg): seq<Piece> {
    if arg.value == "" then [Bare(arg.key)] else [Bare(arg.key), Bare(arg.value)]
  }

  function AllArgPieces(args: seq<BuildArg>): seq<Piece>
    decreases |args|
  {
    if args == [] then [] else AllArgPieces(args[..|args| - 1]) + ArgPieces(args[|args| - 1])
  }

  /** The build command as pieces. */
  function BuildPieces(cfg: BuildConfig, bld: string): seq<Piece> {
    BuildHead(cfg, bld) + AllArgPieces(cfg.cpp.buildArgs)
  }

  /** The fixed part of the build command, written out as the script writes it. */
  lemma BuildHeadText(cfg: BuildConfig, bld: string)
    ensures Render(BuildHead(cfg, bld))
         == "\"" + cfg.cpp.buildSystemPath + "\"" + " " + "--build" + " " + bld + " " + "--target" + " " + cfg.cpp.targetName
  {
    var q := "\"";
    var p0, p1, p2, p3, p4 := Quoted(cfg.cpp.buildSystemPath), Bare("--build"), Bare(bld), Bare("--target"), Bare(cfg.cpp.targetName);
    var t1 := [p0];
    assert t1[1..] == [];
    var r1 := q + cfg.cpp.buildSystemPath + q;
    assert Render(t1) == r1;
    var t2, r2 := [p0, p1], r1 + " " + "--build";
    assert t1 + [p1] == t2;
    RenderSnoc(t1, p1);
    var t3, r3 := [p0, p1, p2], r2 + " " + bld;
    assert t2 + [p2] == t3;
    RenderSnoc(t2, p2);
    var t4, r4 := [p0, p1, p2, p3], r3 + " " + "--target";
    assert t3 + [p3] == t4;
    RenderSnoc(t3, p3);
    var t5, r5 := [p0, p1, p2, p3, p4], r4 + " " + cfg.cpp.targetName;
    assert t4 + [p4] == t5;
    RenderSnoc(t4, p4);
    assert Render(t5) == r5;
    assert t5 == BuildHead(cfg, bld);
  }

  /** The text one build argument adds to the command. */
  lemma ArgText(arg: BuildArg)
    ensures Spaced(ArgPieces(arg)) == if arg.value == "" then " " + arg.key else " " + arg.key + " " + arg.value
  {
    var ps := ArgPieces(arg);
    if arg.value == "" {
      assert ps[1..] == [];
    } else {
      assert ps[1..] == [Bare(arg.value)] && ps[1..][1..] == [];
      assert Spaced(ps[1..]) == " " + arg.value + "";
      assert " " + arg.value + "" == " " + arg.value;
    }
  }

  lemma AllArgPiecesSnoc(args: seq<BuildArg>, i: nat)
    requires i < |args|
    ensures AllArgPieces(args[..i + 1]) == AllArgPieces(args[..i]) + ArgPieces(args[i])
  {
    assert args[..i + 1][..i] == args[..i];
  }

  /** The loop over the build arguments: a blank and the key, then a blank and
      the value unless it is empty, per argument in order. */
  method AppendBuildArgs(base: string, args: seq<BuildArg>) returns (cmd: string)
    ensures cmd == base + Spaced(AllArgPieces(args))
  {
    cmd := base;
    for i := 0 to |args|
      invariant cmd == base + Spaced(AllArgPieces(args[..i]))
    {
      var argName := args[i].key;
      var argValue := args[i].value;
      ghost var done, added := Spaced(AllArgPieces(args[..i])), Spaced(ArgPieces(args[i]));
      var arg;
      if argValue == "" {
        arg := " " + argName;
      } else {
        arg := " " + argName + " " + argValue;
      }
      assert arg == added by {
        ArgText(args[i]);
      }
      cmd := cmd + arg;
      assert Spaced(AllArgPieces(args[..i + 1])) == done + added by {
        AllArgPiecesSnoc(args, i);
        SpacedAppend(AllArgPieces(args[..i]), ArgPieces(args[i]));
      }
      Assoc(base, done, added);
    }
    assert args[..|args|] == args;
  }

  /** The build command string: the base command, then the build arguments,
      as the script builds it. */
  method BuildCommand(cfg: BuildConfig, bld: string) returns (cmd: string)
    ensures cmd == Render(BuildPieces(cfg, bld))
  {
    var q := "\"";
    var baseCommand := q + cfg.cpp.buildSystemPath + q + " " + "--build" + " " + bld + " " + "--target" + " " + cfg.cpp.targetName;
    assert baseCommand == Render(BuildHead(cfg, bld)) by {
      BuildHeadText(cfg, bld);
    }
    cmd := AppendBuildArgs(baseCommand, cfg.cpp.buildArgs);
    RenderAppend(BuildHead(cfg, bld), AllArgPieces(cfg.cpp.buildArgs));
  }

  /** The words of the build arguments, in order: `key`, or `key value`. */
  function ArgWords(args: seq<BuildArg>): seq<string> {
    if args == [] then []
    else (if args[0].value == "" then [args[0].key] else [args[0].key, args[0].value]) + ArgWords(args[1..])
  }

  predicate ArgWellFormed(arg: BuildArg) {
    BareWord(arg.key) && (arg.value == "" || BareWord(arg.value))
  }

  /** A build argument as far as `Words` cares. */
  predicate ArgSplits(arg: BuildArg) {
    Safe(Bare(arg.key)) && (arg.value == "" || Safe(Bare(arg.value)))
  }

  lemma ArgWordsSafe(arg: BuildArg)
    requires ArgWellFormed(arg)
    ensures ArgSplits(arg)
  {
    LiteralIsSafe(Bare(arg.key));
    if arg.value != "" {
      LiteralIsSafe(Bare(arg.value));
    }
  }

  lemma ArgPiecesOfSplits(arg: BuildArg)
    requires ArgSplits(arg)
    ensures AllSafe(ArgPieces(arg))
  {
  }

  lemma {:induction false} ArgPiecesSafe(args: seq<BuildArg>)
    requires forall i :: 0 <= i < |args| ==> ArgSplits(args[i])
    ensures AllSafe(AllArgPieces(args))
    ensures Texts(AllArgPieces(args)) == ArgWords(args)
    decreases |args|
  {
    if args != [] {
      var init, last := args[..|args| - 1], args[|args| - 1];
      var ps, qs := AllArgPieces(init), ArgPieces(last);
      assert AllArgPieces(args) == ps + qs;
      assert forall i :: 0 <= i < |init| ==> ArgSplits(init[i]) by {
        forall i | 0 <= i < |init| ensures ArgSplits(init[i]) {
          assert init[i] == args[i];
        }
      }
      ArgPiecesSafe(init);
      assert AllSafe(qs) by {
        ArgPiecesOfSplits(last);
      }
      AllSafeAppend(ps, qs);
      assert ArgWords(args) == ArgWords(init) + Texts(qs) by {
        assert args == init + [last];
        ArgWordsSnoc(init, last);
      }
      TextsAppend(ps, qs);
    }
  }

  lemma {:induction false} ArgWordsSnoc(args: seq<BuildArg>, last: BuildArg)
    ensures ArgWords(args + [last]) == ArgWords(args) + Texts(ArgPieces(last))
    decreases |args|
  {
    if args == [] {
      assert [last][1..] == [];
    } else {
      assert (args + [last])[0] == args[0];
      assert (args + [last])[1..] == args[1..] + [last];
      ArgWordsSnoc(args[1..], last);
    }
  }

  predicate BuildWellFormed(cfg: BuildConfig, bld: string) {
    && QuotedWord(cfg.cpp.buildSystemPath)
    && BareWord(bld) && BareWord(cfg.cpp.targetName)
    && forall i :: 0 <= i < |cfg.cpp.buildArgs| ==> ArgWellFormed(cfg.cpp.buildArgs[i])
  }

  /** CMake is started with `--build <dir> --target <name>`, then for each
      build argument in order its key, followed by its value unless that is empty. */
  lemma BuildArguments(cfg: BuildConfig, bld: string)
    requires BuildWellFormed(cfg, bld)
    ensures Words(Render(BuildPieces(cfg, bld)))
         == [cfg.cpp.buildSystemPath, "--build", bld, "--target", cfg.cpp.targetName] + ArgWords(cfg.cpp.buildArgs)
  {
    var head, tail := BuildHead(cfg, bld), AllArgPieces(cfg.cpp.buildArgs);
    BuildPiecesSafe(cfg, bld);
    WordsOfRender(head + tail);
    TextsAppend(head, tail);
  }

  lemma BuildPiecesSafe(cfg: BuildConfig, bld: string)
    requires BuildWellFormed(cfg, bld)
    ensures AllSafe(BuildHead(cfg, bld) + AllArgPieces(cfg.cpp.buildArgs))
    ensures Texts(AllArgPieces(cfg.cpp.buildArgs)) == ArgWords(cfg.cpp.buildArgs)
  {
    var head := BuildHead(cfg, bld);
    var args := cfg.cpp.buildArgs;
    var tail := AllArgPieces(args);
    assert forall i :: 0 <= i < |args| ==> ArgSplits(args[i]) by {
      forall i | 0 <= i < |args| ensures ArgSplits(args[i]) {
        ArgWordsSafe(args[i]);
      }
    }
    assert AllSafe(head) by {
      LiteralIsSafe(Quoted(cfg.cpp.buildSystemPath));
      LiteralIsSafe(Bare(bld));
      LiteralIsSafe(Bare(cfg.cpp.targetName));
      BuildHeadSafe(cfg, bld);
    }
    ArgPiecesSafe(args);
    AllSafeAppend(head, tail);
  }

  lemma BuildHeadSafe(cfg: BuildConfig, bld: string)
    requires Safe(Quoted(cfg.cpp.buildSystemPath)) && Safe(Bare(bld)) && Safe(Bare(cfg.cpp.targetName))
    ensures AllSafe(BuildHead(cfg, bld))
  {
    var head := BuildHead(cfg, bld);
    assert Safe(Bare("--build")) && Safe(Bare("--target"));
    forall i | 0 <= i < |head| ensures Safe(head[i]) {
      assert i == 0 || i == 1 || i == 2 || i == 3 || i == 4;
    }
  }

  /** The generate and the build command are never the same command line. */
  lemma GenerateIsNotBuild(cfg: BuildConfig, src: string, bld: string, buildType: string)
    ensures Render(GeneratePieces(cfg, src, bld, buildType)) != Render(BuildPieces(cfg, bld))
  {
    var g := GeneratePieces(cfg, src, bld, buildType);
    var b := BuildPieces(cfg, bld);
    var k := |Show(Quoted(cfg.cpp.buildSystemPath))| + 2;
    assert g == [g[0], g[1]] + g[2..];
    assert b == [b[0], b[1]] + b[2..];
    RenderAppend([g[0], g[1]], g[2..]);
    RenderAppend([b[0], b[1]], b[2..]);
    assert Render(g)[k] == 'S';
    assert Render(b)[k] == '-';
  }

  // -------------------------------------------------------------- executable

  predicate IsWindows(cfg: BuildConfig) {
    Lower(cfg.targetOs) == "windows"
  }

  /** The executable's file name: the target name, with ".exe" on Windows only. */
  function ExecutableName(cfg: BuildConfig): (name: string)
    ensures |name| >= |cfg.cpp.targetName| && name[..|cfg.cpp.targetName|] == cfg.cpp.targetName
    ensures name[|cfg.cpp.targetName|..] == if IsWindows(cfg) then ".exe" else ""
  {
    if IsWindows(cfg) then cfg.cpp.targetName + ".exe" else cfg.cpp.targetName
  }

  function ExecutablePath(cwd: Path, cfg: BuildConfig): Path {
    BuildPath(cwd, cfg) + [ExecutableName(cfg)]
  }

  /** The command that starts the executable in development mode. */
  function LaunchCommand(target: string, nodeServer: nat, webuiServer: nat): string {
    "\"" + target + "\" --run-dev " + NatToString(nodeServer) + " " + NatToString(webuiServer)
  }

  lemma NumeralIsBareWord(n: nat)
    ensures BareWord(NatToString(n))
  {
    var s := NatToString(n);
    forall c | c in s ensures !BareSpecial(c) {
      var i :| 0 <= i < |s| && s[i] == c;
      assert IsDigit(c);
    }
  }

  /** The launch command as pieces. */
  function LaunchPieces(target: string, nodeServer: nat, webuiServer: nat): seq<Piece> {
    [Quoted(target), Bare("--run-dev"), Bare(NatToString(nodeServer)), Bare(NatToString(webuiServer))]
  }

  lemma LaunchPiecesText(target: string, nodeServer: nat, webuiServer: nat)
    ensures Render(LaunchPieces(target, nodeServer, webuiServer)) == LaunchCommand(target, nodeServer, webuiServer)
  {
    var n, w := NatToString(nodeServer), NatToString(webuiServer);
    var t3 := [Bare(w)];
    assert t3[1..] == [];
    assert Render(t3) == w + "" == w;
    var t2 := [Bare(n)] + t3;
    RenderCons(Bare(n), t3);
    var t1 := [Bare("--run-dev")] + t2;
    RenderCons(Bare("--run-dev"), t2);
    var t0 := [Quoted(target)] + t1;
    RenderCons(Quoted(target), t1);
    LaunchRegroup(target, n, w);
    assert t0 == LaunchPieces(target, nodeServer, webuiServer);
  }

  lemma LaunchPiecesSafe(target: string, nodeServer: nat, webuiServer: nat)
    requires QuotedWord(target)
    ensures AllSafe(LaunchPieces(target, nodeServer, webuiServer))
  {
    var n, w := NatToString(nodeServer), NatToString(webuiServer);
    NumeralIsBareWord(nodeServer);
    NumeralIsBareWord(webuiServer);
    LiteralIsSafe(Bare(n));
    LiteralIsSafe(Bare(w));
    LiteralIsSafe(Quoted(target));
    assert Safe(Bare("--run-dev"));
  }

  /** The executable receives exactly `--run-dev <nodeServer> <webuiServer>`
      after its own path. */
  lemma LaunchArguments(target: string, nodeServer: nat, webuiServer: nat)
    requires QuotedWord(target)
    ensures Words(LaunchCommand(target, nodeServer, webuiServer))
         == [target, "--run-dev", NatToString(nodeServer), NatToString(webuiServer)]
  {
    var ps := LaunchPieces(target, nodeServer, webuiServer);
    LaunchPiecesText(target, nodeServer, webuiServer);
    LaunchPiecesSafe(target, nodeServer, webuiServer);
    WordsOfRender(ps);
  }

  lemma LaunchRegroup(target: string, n: string, w: string)
    ensures "\"" + target + "\"" + " " + ("--run-dev" + " " + (n + " " + w)) == "\"" + target + "\" --run-dev " + n + " " + w
  {
  }

  // ---------------------------------------------------------------- webview

  /** Where the WebView2 package is unpacked by the CMake build. */
  function WebviewPackageDir(cwd: Path, cfg: BuildConfig): Path {
    BuildPath(cwd, cfg) + ["_deps", "microsoft_web_webview2-src"]
  }

  /** The loader DLL for the configured architecture inside the package. */
  function WebviewDllPath(cwd: Path, cfg: BuildConfig): Path {
    WebviewPackageDir(cwd, cfg) + ["runtimes", "win-" + Lower(cfg.targetArchitecture), "native", "WebView2Loader.dll"]
  }

  /** Where the DLL is copied: the build directory, under the DLL's own name. */
  function WebviewDllDest(cwd: Path, cfg: BuildConfig): Path {
    var dll := WebviewDllPath(cwd, cfg);
    BuildPath(cwd, cfg) + [dll[|dll| - 1]]
  }

  /** The DLL lies inside the package and its copy lands beside the executable. */
  lemma WebviewDllPlacement(cwd: Path, cfg: BuildConfig)
    ensures var dll := WebviewDllPath(cwd, cfg); var pkg := WebviewPackageDir(cwd, cfg);
      |pkg| < |dll| && dll[..|pkg|] == pkg
    ensures var dest := WebviewDllDest(cwd, cfg); var exe := ExecutablePath(cwd, cfg);
      |dest| == |exe| && dest[..|dest| - 1] == exe[..|exe| - 1] && dest[|dest| - 1] == "WebView2Loader.dll"
  {
  }
}
