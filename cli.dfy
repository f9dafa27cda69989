/** The command line of the build script: `node webui.cjs <buildOption> [<params>]`.
    `argv` is the whole `process.argv`, so the build option is `argv[2]` and
    the parameters start at `argv[3]`. */
module Cli {
  import opened Text

  /** What the rest of the script reads from the command line. */
  datatype Context = Context(buildOption: string, shouldBuildCpp: bool, shouldReloadCMakeFile: bool)

  /** The three ways the command line can end up: help (exit 0), an unknown
      build option (exit 1), or running the pipeline. */
  datatype Decision = ShowHelp | UnknownUsage | Proceed(ctx: Context)

  /** `argv[2]` lower-cased; "none" when it is missing or empty (falsy). */
  function BuildOption(argv: seq<string>): string {
    if |argv| > 2 && argv[2] != "" then Lower(argv[2]) else "none"
  }

  /** Some parameter after the build option lower-cases to `name`. */
  predicate HasParam(argv: seq<string>, name: string) {
    exists i :: 3 <= i < |argv| && Lower(argv[i]) == name
  }

  /** The decision the script takes on `argv`. */
  function Decide(argv: seq<string>): Decision {
    var option := BuildOption(argv);
    if option == "help" then ShowHelp
    else if option == "none" || (option != "dev" && option != "build") then UnknownUsage
    else Proceed(Context(option, !HasParam(argv, "no-cpp"), !HasParam(argv, "no-reload")))
  }

  /** The parameter loop: both flags start true, "no-cpp" clears the first,
      "no-reload" the second, anything else is reported and ignored. */
  method ParseParams(argv: seq<string>) returns (shouldBuildCpp: bool, shouldReloadCMakeFile: bool)
    ensures shouldBuildCpp == !HasParam(argv, "no-cpp")
    ensures shouldReloadCMakeFile == !HasParam(argv, "no-reload")
  {
    shouldBuildCpp := true;
    shouldReloadCMakeFile := true;
    if |argv| > 3 {
      for i := 3 to |argv|
        invariant shouldBuildCpp == !(exists j :: 3 <= j < i && Lower(argv[j]) == "no-cpp")
        invariant shouldReloadCMakeFile == !(exists j :: 3 <= j < i && Lower(argv[j]) == "no-reload")
      {
        var param := Lower(argv[i]);
        if param == "no-cpp" {
          shouldBuildCpp := false;
        } else if param == "no-reload" {
          shouldReloadCMakeFile := false;
        }
      }
    }
  }

  /** The top of the script up to the construction of the context. */
  method ParseCommandLine(argv: seq<string>) returns (d: Decision)
    ensures d == Decide(argv)
  {
    var option := if |argv| > 2 && argv[2] != "" then Lower(argv[2]) else "none";
    if option == "help" {
      return ShowHelp;
    }
    if option == "none" || (option != "dev" && option != "build") {
      return UnknownUsage;
    }
    var shouldBuildCpp, shouldReloadCMakeFile := ParseParams(argv);
    d := Proceed(Context(option, shouldBuildCpp, shouldReloadCMakeFile));
  }

  /** "help" in any case exits with help; only "dev" and "build" go on; every
      other option, the missing one and a literal "none" among them, is unknown. */
  lemma ModeSelection(argv: seq<string>)
    ensures Decide(argv) == ShowHelp <==> BuildOption(argv) == "help"
    ensures Decide(argv).Proceed? <==> BuildOption(argv) == "dev" || BuildOption(argv) == "build"
    ensures Decide(argv).Proceed? ==> Decide(argv).ctx.buildOption == BuildOption(argv)
    ensures |argv| <= 2 ==> Decide(argv) == UnknownUsage
  {
  }

  /** Without parameters both flags keep their default, true. */
  lemma FlagsDefaultTrue(argv: seq<string>)
    requires |argv| <= 3
    requires Decide(argv).Proceed?
    ensures Decide(argv).ctx.shouldBuildCpp && Decide(argv).ctx.shouldReloadCMakeFile
  {
  }

  /** A parameter that is neither "no-cpp" nor "no-reload" changes nothing. */
  lemma {:induction false} UnknownParamIgnored(argv: seq<string>, x: string)
    requires |argv| >= 3
    requires Lower(x) != "no-cpp" && Lower(x) != "no-reload"
    ensures Decide(argv + [x]) == Decide(argv)
  {
    var argv' := argv + [x];
    assert BuildOption(argv') == BuildOption(argv);
    forall name | name == "no-cpp" || name == "no-reload"
      ensures HasParam(argv', name) == HasParam(argv, name)
    {
      if HasParam(argv', name) {
        var i :| 3 <= i < |argv'| && Lower(argv'[i]) == name;
        assert i < |argv| && argv[i] == argv'[i];
      }
      if HasParam(argv, name) {
        var i :| 3 <= i < |argv| && Lower(argv[i]) == name;
        assert argv'[i] == argv[i];
      }
    }
  }

  /** "no-cpp" clears only `shouldBuildCpp`, whatever came before it. */
  lemma {:induction false} NoCppClearsOnlyBuildCpp(argv: seq<string>)
    requires |argv| >= 3
    ensures Decide(argv + ["no-cpp"]) ==
      match Decide(argv)
      case Proceed(ctx) => Proceed(ctx.(shouldBuildCpp := false))
      case other => other
  {
    var argv' := argv + ["no-cpp"];
    assert BuildOption(argv') == BuildOption(argv);
    assert Lower(argv'[|argv|]) == "no-cpp";
    assert HasParam(argv', "no-cpp");
    assert Lower("no-cpp") != "no-reload";
    if HasParam(argv', "no-reload") {
      var i :| 3 <= i < |argv'| && Lower(argv'[i]) == "no-reload";
      assert i < |argv| && argv[i] == argv'[i];
    }
    if HasParam(argv, "no-reload") {
      var i :| 3 <= i < |argv| && Lower(argv[i]) == "no-reload";
      assert argv'[i] == argv[i];
    }
  }

  /** "no-reload" clears only `shouldReloadCMakeFile`, whatever came before it. */
  lemma {:induction false} NoReloadClearsOnlyReload(argv: seq<string>)
    requires |argv| >= 3
    ensures Decide(argv + ["no-reload"]) ==
      match Decide(argv)
      case Proceed(ctx) => Proceed(ctx.(shouldReloadCMakeFile := false))
      case other => other
  {
    var argv' := argv + ["no-reload"];
    assert BuildOption(argv') == BuildOption(argv);
    assert Lower(argv'[|argv|]) == "no-reload";
    assert HasParam(argv', "no-reload");
    assert Lower("no-reload") != "no-cpp";
    if HasParam(argv', "no-cpp") {
      var i :| 3 <= i < |argv'| && Lower(argv'[i]) == "no-cpp";
      assert i < |argv| && argv[i] == argv'[i];
    }
    if HasParam(argv, "no-cpp") {
      var i :| 3 <= i < |argv| && Lower(argv[i]) == "no-cpp";
      assert argv'[i] == argv[i];
    }
  }

  lemma {:induction false} HasParamBySet(a: seq<string>, b: seq<string>, name: string)
    requires |a| >= 3 && |b| >= 3
    requires forall x :: x in a[3..] ==> x in b[3..]
    ensures HasParam(a, name) ==> HasParam(b, name)
  {
    if HasParam(a, name) {
      var i :| 3 <= i < |a| && Lower(a[i]) == name;
      assert a[3..][i - 3] == a[i];
      assert a[i] in b[3..];
      var k :| 0 <= k < |b[3..]| && b[3..][k] == a[i];
      assert b[k + 3] == a[i];
    }
  }

  /** The decision depends on the parameters only as a set: neither their
      order nor their repetition matters. */
  lemma ParamOrderIrrelevant(a: seq<string>, b: seq<string>)
    requires |a| >= 3 && |b| >= 3 && a[2] == b[2]
    requires forall x :: x in a[3..] <==> x in b[3..]
    ensures Decide(a) == Decide(b)
  {
    HasParamBySet(a, b, "no-cpp");
    HasParamBySet(b, a, "no-cpp");
    HasParamBySet(a, b, "no-reload");
    HasParamBySet(b, a, "no-reload");
  }
}
