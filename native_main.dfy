/** The native host's entry point: how `main` reads its command line, which
    window calls it makes, and what it returns. */
module NativeMain {
  import opened Wrappers
  import opened Text
  import opened Shell
  import NativePlan

  /** The range of a 32-bit C++ `int`. */
  const IntMin: int := -0x8000_0000
  const IntMax: int := 0x7FFF_FFFF

  /** The blanks `std::isspace` skips in the "C" locale. */
  predicate IsSpace(c: char) {
    c == ' ' || c == '\t' || c == '\n' || c == '\U{0B}' || c == '\U{0C}' || c == '\r'
  }

  /** `s` without its leading white space. */
  function SkipSpace(s: string): (r: string)
    ensures |r| <= |s| && r == s[|s| - |r|..]
    ensures r == [] || !IsSpace(r[0])
  {
    if s != [] && IsSpace(s[0]) then SkipSpace(s[1..]) else s
  }

  /** The longest prefix of `s` made of decimal digits. */
  function DigitRun(s: string): (r: string)
    ensures |r| <= |s| && r == s[..|r|] && AllDigits(r)
    ensures |r| < |s| ==> !IsDigit(s[|r|])
  {
    if s != [] && IsDigit(s[0]) then [s[0]] + DigitRun(s[1..]) else []
  }

  /** `std::stoi` in base 10: leading white space, an optional sign and the
      longest run of digits after it; `None` where it throws, that is when
      there is no digit or the value does not fit an `int`. Characters after
      the digits are ignored. */
  function Stoi(s: string): (r: Option<int>)
    ensures r.Some? ==> IntMin <= r.value <= IntMax
  {
    var t := SkipSpace(s);
    var signed := t != [] && (t[0] == '-' || t[0] == '+');
    var digits := DigitRun(if signed then t[1..] else t);
    if digits == [] then None
    else
      var v: int := if signed && t[0] == '-' then -(DigitsValue(digits) as int) else DigitsValue(digits);
      if IntMin <= v <= IntMax then Some(v) else None
  }

  lemma DigitRunOfDigits(s: string)
    requires AllDigits(s)
    ensures DigitRun(s) == s
  {
  }

  /** A numeral the script writes reads back as its value. */
  lemma StoiOfNumeral(n: nat)
    requires n <= IntMax
    ensures Stoi(NatToString(n)) == Some(n)
  {
    var s := NatToString(n);
    assert SkipSpace(s) == s by { assert !IsSpace(s[0]); }
    assert !(s[0] == '-' || s[0] == '+');
    DigitRunOfDigits(s);
    DigitsValueOfNatToString(n);
  }

  /** `std::stoi` reads back every `int` that `std::to_string` writes. */
  lemma StoiOfIntToString(i: int)
    requires IntMin <= i <= IntMax
    ensures Stoi(IntToString(i)) == Some(i)
  {
    if i >= 0 {
      StoiOfNumeral(i);
    } else {
      var s := IntToString(i);
      var digits := NatToString(-i);
      assert s == "-" + digits && s[1..] == digits;
      assert SkipSpace(s) == s by { assert !IsSpace(s[0]); }
      DigitRunOfDigits(digits);
      DigitsValueOfNatToString(-i);
    }
  }

  /** What `main` decides from its command line. */
  datatype Launch =
    | Dev(nodePort: int, webuiPort: int)
    | Production(rootFolder: string, page: string)
    | Terminated  // a port argument `std::stoi` rejects: the exception is not caught

  /** The dispatch of `main`: development mode with at least three arguments
      of which the first is `--run-dev`, the production page otherwise. */
  function Dispatch(argv: seq<string>): Launch {
    if |argv| >= 4 && argv[1] == "--run-dev" then
      match (Stoi(argv[2]), Stoi(argv[3]))
      case (Some(nodePort), Some(webuiPort)) => Dev(nodePort, webuiPort)
      case _ => Terminated
    else Production("./webui", "index.html")
  }

  /** Development mode is taken exactly on `--run-dev` with two readable ports,
      which come from the second and the third argument; every other command
      line serves `index.html` from `./webui`. */
  lemma DispatchCases(argv: seq<string>)
    ensures Dispatch(argv).Dev? <==>
      |argv| >= 4 && argv[1] == "--run-dev" && Stoi(argv[2]).Some? && Stoi(argv[3]).Some?
    ensures Dispatch(argv).Dev? ==>
      Dispatch(argv).nodePort == Stoi(argv[2]).value && Dispatch(argv).webuiPort == Stoi(argv[3]).value
    ensures !(|argv| >= 4 && argv[1] == "--run-dev") <==> Dispatch(argv) == Production("./webui", "index.html")
  {
  }

  /** The calls `main` makes on its window. */
  datatype WindowCall = SetPort(port: int) | ShowWebView(url: string) | SetRootFolder(folder: string)

  /** The window calls for a decision. */
  function WindowCalls(launch: Launch): seq<WindowCall> {
    match launch
    case Dev(nodePort, webuiPort) => [SetPort(webuiPort), ShowWebView("http://localhost:" + IntToString(nodePort) + "/")]
    case Production(rootFolder, page) => [SetRootFolder(rootFolder), ShowWebView(page)]
    case Terminated => []
  }

  /** One run of `main`: aborted by an uncaught exception, or finished with the
      window calls made, the `is_dev` flag handed to the application and the
      returned status. */
  datatype HostRun = Aborted | Finished(calls: seq<WindowCall>, isDev: bool, exitCode: int)

  /** `main`. `written` is the value the application stores through its `err`
      pointer, if it stores one. */
  method HostMain(argv: seq<string>, written: Option<int>) returns (run: HostRun)
    ensures run.Aborted? <==> Dispatch(argv).Terminated?
    ensures run.Finished? ==> run.calls == WindowCalls(Dispatch(argv))
    ensures run.Finished? ==> (run.isDev <==> Dispatch(argv).Dev?)
    ensures run.Finished? ==> run.exitCode == written.GetOr(0)
  {
    var isDev := false;
    var calls: seq<WindowCall> := [];
    if |argv| >= 4 {
      if argv[1] == "--run-dev" {
        var nodePort := Stoi(argv[2]);
        if nodePort.None? {
          return Aborted;
        }
        var webuiPort := Stoi(argv[3]);
        if webuiPort.None? {
          return Aborted;
        }
        calls := calls + [SetPort(webuiPort.value)];
        calls := calls + [ShowWebView("http://localhost:" + IntToString(nodePort.value) + "/")];
        isDev := true;
      } else {
        calls := calls + [SetRootFolder("./webui")];
        calls := calls + [ShowWebView("index.html")];
      }
    } else {
      calls := calls + [SetRootFolder("./webui")];
      calls := calls + [ShowWebView("index.html")];
    }
    var err := 0;
    if written.Some? {
      err := written.value;
    }
    return Finished(calls, isDev, err);
  }

  /** The command line the build script starts the executable with is read by
      `main` as development mode on exactly the configured ports. */
  lemma LaunchRoundTrip(target: string, nodeServer: nat, webuiServer: nat)
    requires NativePlan.QuotedWord(target)
    requires nodeServer <= IntMax && webuiServer <= IntMax
    ensures Dispatch(Words(NativePlan.LaunchCommand(target, nodeServer, webuiServer))) == Dev(nodeServer, webuiServer)
  {
    NativePlan.LaunchArguments(target, nodeServer, webuiServer);
    StoiOfNumeral(nodeServer);
    StoiOfNumeral(webuiServer);
  }

  /** Started by the build script, the host binds the WebUI server to the
      configured WebUI port and opens the configured Node.js server's page. */
  lemma LaunchedWindowCalls(target: string, nodeServer: nat, webuiServer: nat)
    requires NativePlan.QuotedWord(target)
    requires nodeServer <= IntMax && webuiServer <= IntMax
    ensures WindowCalls(Dispatch(Words(NativePlan.LaunchCommand(target, nodeServer, webuiServer))))
         == [SetPort(webuiServer), ShowWebView("http://localhost:" + NatToString(nodeServer) + "/")]
  {
    LaunchRoundTrip(target, nodeServer, webuiServer);
  }
}
