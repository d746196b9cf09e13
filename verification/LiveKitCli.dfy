/**
Argument rewriting between OpenRTC's command line and LiveKit's (src/openrtc/cli/livekit_cli.py):
positional shortcuts are injected as flags, and OpenRTC-only flags are stripped before the handoff.
*/
module LiveKitCli {
  import opened Text

  const VALUE_FLAGS: set<string> := {
    "--agents-dir", "--default-stt", "--default-llm", "--default-tts", "--default-greeting",
    "--dashboard-refresh", "--isolation", "--max-concurrent-sessions", "--metrics-json-file",
    "--metrics-jsonl", "--metrics-jsonl-interval", "--port", "--watch-path" }

  const BOOL_FLAGS: set<string> := { "--dashboard", "--no-watch" }

  /** The part of a token before its first `=`; the whole token without one. */
  function NamePart(arg: string): string
    decreases |arg|
  {
    if arg == "" || arg[0] == '=' then "" else [arg[0]] + NamePart(arg[1..])
  }

  /** An OpenRTC-only option written in one token, and one that takes the next token as its value. */
  predicate SelfContained(arg: string) {
    if '=' in arg then NamePart(arg) in VALUE_FLAGS || NamePart(arg) in BOOL_FLAGS else arg in BOOL_FLAGS
  }

  predicate TakesValue(arg: string) {
    '=' !in arg && arg in VALUE_FLAGS
  }

  predicate OwnOption(arg: string) {
    SelfContained(arg) || TakesValue(arg)
  }

  lemma {:induction false} FlagsHaveNoEquals()
    ensures forall flag :: flag in VALUE_FLAGS + BOOL_FLAGS ==> '=' !in flag
  {
  }

  /** The name of an option ends at its first `=`. */
  lemma {:induction false} NameBeforeEquals(arg: string)
    requires '=' in arg
    ensures StartsWith(arg, NamePart(arg) + "=")
    decreases |arg|
  {
    if arg[0] != '=' {
      NameBeforeEquals(arg[1..]);
      assert arg == [arg[0]] + arg[1..];
    }
  }

  lemma {:induction false} NameIsFlag(arg: string, flag: string)
    requires '=' !in flag && StartsWith(arg, flag + "=")
    ensures NamePart(arg) == flag && '=' in arg
    decreases |flag|
  {
    assert arg[|flag|] == (flag + "=")[|flag|];
    if flag != "" {
      assert arg[0] == flag[0];
      assert (flag + "=")[1..] == flag[1..] + "=";
      assert arg[1..][..|flag|] == flag[1..] + "=";
      NameIsFlag(arg[1..], flag[1..]);
    }
  }

  lemma {:induction false} NameAmong(arg: string, flags: set<string>)
    requires forall flag :: flag in flags ==> '=' !in flag
    ensures '=' in arg && NamePart(arg) in flags <==> exists flag :: flag in flags && StartsWith(arg, flag + "=")
  {
    hide NamePart, StartsWith;
    if '=' in arg {
      NameBeforeEquals(arg);
    }
    forall flag | flag in flags && StartsWith(arg, flag + "=") ensures NamePart(arg) == flag && '=' in arg {
      NameIsFlag(arg, flag);
    }
  }

  /** Which tokens are OpenRTC's own: an option by its name alone, or by its name, an `=` and anything after it. */
  lemma {:induction false} OwnOptionExactly(arg: string)
    ensures OwnOption(arg) <==> exists flag :: flag in VALUE_FLAGS + BOOL_FLAGS
                                               && (arg == flag || StartsWith(arg, flag + "="))
    ensures TakesValue(arg) <==> arg in VALUE_FLAGS
  {
    hide NamePart, StartsWith;
    FlagsHaveNoEquals();
    NameAmong(arg, VALUE_FLAGS + BOOL_FLAGS);
  }

  // ---------------------------------------------------------------------------------------------
  // Stripping
  // ---------------------------------------------------------------------------------------------

  /**
  A command line cut into what the worker reads: its own options, with the value they take, tokens for
  LiveKit, and everything from a `--` on.
  */
  datatype Unit = Flag(arg: string) | Option(arg: string, value: string) | Dangling(arg: string)
                | Kept(arg: string) | Rest(args: seq<string>)

  function Units(args: seq<string>): seq<Unit>
    decreases |args|
  {
    if args == [] then []
    else if args[0] == "--" then [Rest(args)]
    else if SelfContained(args[0]) then [Flag(args[0])] + Units(args[1..])
    else if TakesValue(args[0]) then
      if |args| == 1 then [Dangling(args[0])] else [Option(args[0], args[1])] + Units(args[2..])
    else [Kept(args[0])] + Units(args[1..])
  }

  function Written(u: Unit): seq<string> {
    match u
    case Flag(arg) => [arg]
    case Option(arg, value) => [arg, value]
    case Dangling(arg) => [arg]
    case Kept(arg) => [arg]
    case Rest(args) => args
  }

  function Render(units: seq<Unit>): seq<string>
    decreases |units|
  {
    if units == [] then [] else Written(units[0]) + Render(units[1..])
  }

  predicate ForLiveKit(u: Unit) {
    u.Kept? || u.Rest?
  }

  function OnlyForLiveKit(units: seq<Unit>): seq<Unit>
    decreases |units|
  {
    if units == [] then []
    else (if ForLiveKit(units[0]) then [units[0]] else []) + OnlyForLiveKit(units[1..])
  }

  /** What is left for LiveKit. */
  function Strip(args: seq<string>): seq<string> {
    Render(OnlyForLiveKit(Units(args)))
  }

  method StripOwnFlags(argvTail: seq<string>) returns (out: seq<string>)
    ensures out == Strip(argvTail)
  {
    hide Strip;
    StripStep([]);
    out := [];
    var i := 0;
    while i < |argvTail|
      invariant 0 <= i <= |argvTail|
      invariant Strip(argvTail) == out + Strip(argvTail[i..])
    {
      var arg := argvTail[i];
      ghost var left := argvTail[i..];
      StripStep(left);
      assert left[1..] == argvTail[i + 1..];
      if arg == "--" {
        out := out + argvTail[i..];
        return;
      }
      if '=' in arg {
        if NamePart(arg) in VALUE_FLAGS || NamePart(arg) in BOOL_FLAGS {
          i := i + 1;
          continue;
        }
        out := out + [arg];
        i := i + 1;
        continue;
      }
      if arg in BOOL_FLAGS {
        i := i + 1;
        continue;
      }
      if arg in VALUE_FLAGS {
        i := i + 1;
        if i < |argvTail| {
          assert left[2..] == argvTail[i + 1..];
          i := i + 1;
        }
        continue;
      }
      out := out + [arg];
      i := i + 1;
    }
    assert argvTail[i..] == [];
  }

  /** Stripping read off the first tokens. */
  lemma StripStep(args: seq<string>)
    ensures Strip([]) == []
    ensures args != [] ==>
              Strip(args) == if args[0] == "--" then args
                             else if SelfContained(args[0]) then Strip(args[1..])
                             else if TakesValue(args[0]) then if |args| == 1 then [] else Strip(args[2..])
                             else [args[0]] + Strip(args[1..])
  {
    hide SelfContained, TakesValue;
    if args != [] {
      var units := Units(args);
      assert units[1..] == if args[0] == "--" || (|args| == 1 && !SelfContained(args[0]) && TakesValue(args[0])) then []
                           else if SelfContained(args[0]) || !TakesValue(args[0]) then Units(args[1..])
                           else Units(args[2..]);
      var kept := OnlyForLiveKit(units[1..]);
      assert OnlyForLiveKit(units) == (if ForLiveKit(units[0]) then [units[0]] else []) + kept;
      assert [] + kept == kept;
      assert ([units[0]] + kept)[1..] == kept;
    }
  }

  /** The cut loses nothing: written out again it is the command line. */
  lemma {:induction false} UnitsRender(args: seq<string>)
    ensures Render(Units(args)) == args
    decreases |args|
  {
    hide SelfContained, TakesValue;
    if args != [] && args[0] != "--" {
      if !SelfContained(args[0]) && TakesValue(args[0]) {
        if |args| > 1 {
          UnitsRender(args[2..]);
          assert args == [args[0], args[1]] + args[2..];
          assert Units(args)[1..] == Units(args[2..]);
        }
      } else {
        UnitsRender(args[1..]);
        assert args == [args[0]] + args[1..];
        assert Units(args)[1..] == Units(args[1..]);
      }
    }
  }

  /** No OpenRTC-only option before the first `--`. */
  ghost predicate OwnOptionFree(args: seq<string>)
    decreases |args|
  {
    args != [] && args[0] != "--" ==> !OwnOption(args[0]) && OwnOptionFree(args[1..])
  }

  /** Nothing OpenRTC-only survives, and what carries nothing OpenRTC-only is left alone. */
  lemma {:induction false} StripRemovesOwnOptions(args: seq<string>)
    ensures OwnOptionFree(Strip(args))
    ensures OwnOptionFree(args) ==> Strip(args) == args
    decreases |args|
  {
    hide SelfContained, TakesValue, Strip;
    StripStep(args);
    if args != [] && args[0] != "--" {
      StripRemovesOwnOptions(args[1..]);
      assert args == [args[0]] + args[1..];
      if SelfContained(args[0]) {
      } else if TakesValue(args[0]) {
        if |args| > 1 {
          StripRemovesOwnOptions(args[2..]);
        }
      } else {
        assert Strip(args)[1..] == Strip(args[1..]);
      }
    }
  }

  lemma StripIdempotent(args: seq<string>)
    ensures Strip(Strip(args)) == Strip(args)
  {
    hide Strip;
    StripRemovesOwnOptions(args);
    StripRemovesOwnOptions(Strip(args));
  }

  /** How a command line ends: at a unit's end, inside an option that still wants its value, or after `--`. */
  datatype Ending = Complete | WantsValue | Terminated

  function EndingOf(args: seq<string>): Ending
    decreases |args|
  {
    if args == [] then Complete
    else if args[0] == "--" then Terminated
    else if !SelfContained(args[0]) && TakesValue(args[0]) then
      if |args| == 1 then WantsValue else EndingOf(args[2..])
    else EndingOf(args[1..])
  }

  /**
  Stripping two command lines in a row: piece by piece when the first ends at a unit's end; otherwise
  its last option swallows a token, or its `--` passes everything on.
  */
  lemma {:induction false} StripConcat(a: seq<string>, b: seq<string>)
    ensures Strip(a + b) == Strip(a) + match EndingOf(a)
              case Complete => Strip(b)
              case WantsValue => if b == [] then [] else Strip(b[1..])
              case Terminated => b
    decreases |a|
  {
    hide SelfContained, TakesValue, Strip;
    StripStep(a);
    StripStep(a + b);
    StripStep([]);
    if a == [] {
      assert a + b == b;
    } else if a[0] != "--" {
      assert (a + b)[1..] == a[1..] + b;
      if !SelfContained(a[0]) && TakesValue(a[0]) {
        if |a| == 1 {
          assert b != [] ==> (a + b)[2..] == b[1..];
        } else {
          assert (a + b)[2..] == a[2..] + b;
          StripConcat(a[2..], b);
        }
      } else {
        StripConcat(a[1..], b);
        if !SelfContained(a[0]) {
          assert [a[0]] + (Strip(a[1..]) + Strip(b)) == ([a[0]] + Strip(a[1..])) + Strip(b);
        }
      }
    }
  }

  // ---------------------------------------------------------------------------------------------
  // Injecting
  // ---------------------------------------------------------------------------------------------

  predicate Mentions(args: seq<string>, flag: string) {
    exists i :: 0 <= i < |args| && (args[i] == flag || StartsWith(args[i], flag + "="))
  }

  /** A leading positional to rewrite, with the flag not already there. */
  predicate HasPositional(argv: seq<string>) {
    |argv| >= 2 && !StartsWith(argv[1], "-") && !Mentions(argv[1..], "--agents-dir")
  }

  predicate HasMetricsPositional(argv: seq<string>) {
    HasPositional(argv) && |argv| >= 3 && !StartsWith(argv[2], "-") && !Mentions(argv[1..], "--metrics-jsonl")
  }

  function InjectAgentsDir(argv: seq<string>): seq<string> {
    if HasPositional(argv) then [argv[0], "--agents-dir"] + argv[1..] else argv
  }

  function InjectWorker(argv: seq<string>): seq<string> {
    if !HasPositional(argv) then argv
    else if HasMetricsPositional(argv) then [argv[0], "--agents-dir", argv[1], "--metrics-jsonl"] + argv[2..]
    else [argv[0], "--agents-dir"] + argv[1..]
  }

  method InjectWorkerStartDevConsole(argv: seq<string>) returns (out: seq<string>)
    ensures out == InjectWorker(argv)
  {
    hide Mentions, StartsWith;
    var rest := if argv == [] then [] else argv[1..];
    if rest == [] || StartsWith(rest[0], "-") {
      return argv;
    }
    if Mentions(rest, "--agents-dir") {
      return argv;
    }
    var hasMetricsFlag := Mentions(rest, "--metrics-jsonl");
    out := [argv[0], "--agents-dir", rest[0]];
    var pos := 1;
    if !hasMetricsFlag && pos < |rest| && !StartsWith(rest[pos], "-") {
      out := out + ["--metrics-jsonl", rest[pos]];
      pos := pos + 1;
    }
    out := out + rest[pos..];
  }

  function Inject(argv: seq<string>): seq<string> {
    if argv == [] then argv
    else if argv[0] in {"start", "dev", "console"} then InjectWorker(argv)
    else if argv[0] in {"list", "connect", "download-files"} then InjectAgentsDir(argv)
    else argv
  }

  lemma InjectIdempotent(argv: seq<string>)
    ensures Inject(Inject(argv)) == Inject(argv)
  {
  }

  /** The tokens after the positionals a worker command starts with. */
  function AfterPositionals(argv: seq<string>): seq<string>
    requires argv != []
  {
    if HasMetricsPositional(argv) then argv[3..] else if HasPositional(argv) then argv[2..] else argv[1..]
  }

  lemma FlagsTakeValues()
    ensures !SelfContained("--agents-dir") && TakesValue("--agents-dir")
    ensures !SelfContained("--metrics-jsonl") && TakesValue("--metrics-jsonl")
  {
  }

  lemma {:induction false} InjectOne(argv: seq<string>)
    requires HasPositional(argv)
    ensures Units(["--agents-dir"] + argv[1..]) == [Option("--agents-dir", argv[1])] + Units(argv[2..])
  {
    hide Mentions, StartsWith, Units, SelfContained, TakesValue;
    FlagsTakeValues();
    OneOption("--agents-dir", argv[1], argv[2..]);
    assert ["--agents-dir"] + argv[1..] == ["--agents-dir", argv[1]] + argv[2..];
  }

  lemma {:induction false} InjectTwo(argv: seq<string>)
    requires |argv| >= 3
    ensures Units(["--agents-dir", argv[1], "--metrics-jsonl"] + argv[2..])
            == [Option("--agents-dir", argv[1]), Option("--metrics-jsonl", argv[2])] + Units(argv[3..])
  {
    hide Units, SelfContained, TakesValue;
    FlagsTakeValues();
    var others := ["--metrics-jsonl", argv[2]] + argv[3..];
    OneOption("--metrics-jsonl", argv[2], argv[3..]);
    OneOption("--agents-dir", argv[1], others);
    assert ["--agents-dir", argv[1], "--metrics-jsonl"] + argv[2..] == ["--agents-dir", argv[1]] + others;
  }

  /**
  What injecting puts in front: the first positional as the value of `--agents-dir`, for a worker command a second one
  as that of `--metrics-jsonl`, and behind them the rest as it was. An option that is given anywhere on the line is not
  injected, and nothing else is ever added.
  */
  lemma {:induction false} InjectExactly(argv: seq<string>)
    ensures var out := Inject(argv);
            var given := (flag: string) => exists i :: 1 <= i < |argv| && (argv[i] == flag || StartsWith(argv[i], flag + "="));
            var path := (i: nat) => i < |argv| && (argv[i] == "" || argv[i][0] != '-');
            var worker := argv != [] && argv[0] in {"start", "dev", "console"};
            if !(worker || (argv != [] && argv[0] in {"list", "connect", "download-files"})) || !path(1)
               || given("--agents-dir") then out == argv
            else if worker && path(2) && !given("--metrics-jsonl") then
              && out[0] == argv[0]
              && Units(out[1..]) == [Option("--agents-dir", argv[1]), Option("--metrics-jsonl", argv[2])] + Units(argv[3..])
            else
              out[0] == argv[0] && Units(out[1..]) == [Option("--agents-dir", argv[1])] + Units(argv[2..])
  {
    hide Mentions, StartsWith, Units;
    MentionsExactly(argv, "--agents-dir");
    MentionsExactly(argv, "--metrics-jsonl");
    forall i | 0 <= i < |argv| ensures StartsWith(argv[i], "-") <==> argv[i] != "" && argv[i][0] == '-' {
      StartsWithDash(argv[i]);
    }
    if HasPositional(argv) {
      InjectOne(argv);
      assert ([argv[0], "--agents-dir"] + argv[1..])[1..] == ["--agents-dir"] + argv[1..];
      if HasMetricsPositional(argv) {
        InjectTwo(argv);
        assert ([argv[0], "--agents-dir", argv[1], "--metrics-jsonl"] + argv[2..])[1..]
               == ["--agents-dir", argv[1], "--metrics-jsonl"] + argv[2..];
      }
    }
  }

  lemma {:induction false} StartsWithDash(arg: string)
    ensures StartsWith(arg, "-") <==> arg != "" && arg[0] == '-'
  {
  }

  lemma {:induction false} MentionsExactly(argv: seq<string>, flag: string)
    ensures argv != [] && Mentions(argv[1..], flag)
            <==> exists i :: 1 <= i < |argv| && (argv[i] == flag || StartsWith(argv[i], flag + "="))
  {
    hide StartsWith;
    if argv != [] {
      assert forall i :: 1 <= i < |argv| ==> argv[i] == argv[1..][i - 1];
      assert forall i :: 0 <= i < |argv| - 1 ==> argv[1..][i] == argv[i + 1];
    }
  }

  lemma {:induction false} OneOption(flag: string, value: string, rest: seq<string>)
    requires flag != "--" && !SelfContained(flag) && TakesValue(flag)
    ensures Units([flag, value] + rest) == [Option(flag, value)] + Units(rest)
  {
    hide SelfContained, TakesValue;
    assert ([flag, value] + rest)[2..] == rest;
  }

  /** The whole handoff: injecting, then stripping, leaves LiveKit the strip of what follows the positionals. */
  lemma HandoffDropsPositionals(argv: seq<string>)
    requires argv != [] && argv[0] in {"start", "dev", "console"}
    ensures Inject(argv)[0] == argv[0]
    ensures Strip(Inject(argv)[1..]) == Strip(AfterPositionals(argv))
  {
    hide Mentions, Strip, StartsWith, SelfContained, TakesValue;
    FlagsTakeValues();
    var tail := Inject(argv)[1..];
    if HasPositional(argv) {
      assert tail[0] == "--agents-dir" && tail[1] == argv[1];
      StripStep(tail);
      if HasMetricsPositional(argv) {
        assert tail[2..] == ["--metrics-jsonl"] + argv[2..];
        assert tail[2..][2..] == argv[3..];
        StripStep(tail[2..]);
      } else {
        assert tail[2..] == argv[2..];
      }
    }
  }
}
