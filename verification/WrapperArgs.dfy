/**
 The argument wrapper of the lint runner (tools/argument-comment-lint/wrapper_common.py): parsing
 a command line that may stop in the middle of an option, and rebuilding it with the defaults
 filled in.
 */
module WrapperArgs {
  import opened Options

  const SEPARATOR := "--"

  datatype Flags = Flags(manifestPath: bool, packageSelection: bool, noDeps: bool, librarySelection: bool, fix: bool)

  datatype ParsedWrapperArgs = ParsedWrapperArgs(
    lintArgs: seq<string>,
    cargoArgs: seq<string>,
    flags: Flags,
    cargoTargetSelection: bool)

  const NO_FLAGS := Flags(false, false, false, false, false)
  const MANIFEST := NO_FLAGS.(manifestPath := true)
  const PACKAGE := NO_FLAGS.(packageSelection := true)
  const LIBRARY := NO_FLAGS.(librarySelection := true)

  function Or(a: Flags, b: Flags): Flags
  {
    Flags(a.manifestPath || b.manifestPath, a.packageSelection || b.packageSelection, a.noDeps || b.noDeps,
          a.librarySelection || b.librarySelection, a.fix || b.fix)
  }

  predicate IsCargoTarget(arg: string)
  {
    || arg == "--all-targets" || arg == "--lib" || arg == "--bins" || arg == "--tests"
    || arg == "--examples" || arg == "--benches" || arg == "--doc"
    || arg == "--bin" || arg == "--test" || arg == "--example" || arg == "--bench"
    || "--bin=" <= arg || "--test=" <= arg || "--example=" <= arg || "--bench=" <= arg
  }

  /** The flag that the argument after this option will set, if the option wants one. */
  function WantsValue(arg: string): Option<Flags>
  {
    if arg == "--manifest-path" then Some(MANIFEST)
    else if arg == "-p" || arg == "--package" then Some(PACKAGE)
    else if arg == "--lib" || arg == "--lib-path" then Some(LIBRARY)
    else None
  }

  /** The flag an argument sets by itself. */
  function OwnFlag(arg: string): Flags
  {
    Flags(manifestPath := "--manifest-path=" <= arg,
          packageSelection := "--package=" <= arg || arg == "--workspace",
          noDeps := arg == "--no-deps",
          librarySelection := "--lib=" <= arg || "--lib-path=" <= arg,
          fix := arg == "--fix")
  }

  /** The third character tells the options apart, whatever the order they are tried in. */
  lemma {:induction false} ThirdCharacter(arg: string)
    ensures WantsValue(arg).Some? && arg != "-p" ==>
              |arg| > 2 && arg[2] == (match WantsValue(arg).value
                                      case Flags(true, _, _, _, _) => 'm'
                                      case Flags(_, true, _, _, _) => 'p'
                                      case _ => 'l')
    ensures OwnFlag(arg).manifestPath ==> |arg| > 2 && arg[2] == 'm'
    ensures OwnFlag(arg).packageSelection ==> |arg| > 2 && (arg[2] == 'p' || arg[2] == 'w')
    ensures OwnFlag(arg).noDeps ==> |arg| > 2 && arg[2] == 'n'
    ensures OwnFlag(arg).librarySelection ==> |arg| > 2 && arg[2] == 'l'
    ensures OwnFlag(arg).fix ==> |arg| > 2 && arg[2] == 'f'
  {
    if "--manifest-path=" <= arg { assert arg[2] == "--manifest-path="[2]; }
    if "--package=" <= arg { assert arg[2] == "--package="[2]; }
    if "--lib=" <= arg { assert arg[2] == "--lib="[2]; }
    if "--lib-path=" <= arg { assert arg[2] == "--lib-path="[2]; }
  }

  /** An option that waits for its value sets nothing by itself. */
  lemma {:induction false} WaitsOrSets(arg: string)
    requires WantsValue(arg).Some?
    ensures OwnFlag(arg) == NO_FLAGS
  {
    if arg == "--manifest-path" {
      assert "--manifest-path="[15] == '=' && |arg| == 15;
    } else if arg == "--package" {
      assert "--package="[9] == '=' && |arg| == 9;
    } else if arg == "--lib" {
      assert "--lib="[5] == '=' && "--lib-path="[5] == '-' && |arg| == 5;
    } else if arg == "--lib-path" {
      assert "--lib="[5] == '=' && "--lib-path"[5] == '-' && |arg| == 10;
    }
    ThirdCharacter(arg);
  }

  /** The chain of tests for an argument that is not the value of an option. */
  method ReadOption(arg: string, flags: Flags) returns (flags': Flags, expectValue: Option<Flags>)
    ensures expectValue == WantsValue(arg)
    ensures flags' == Or(flags, OwnFlag(arg))
  {
    flags', expectValue := flags, None;
    if WantsValue(arg).Some? { WaitsOrSets(arg); }
    ThirdCharacter(arg);
    if arg == "--manifest-path" {
      expectValue := Some(MANIFEST);
    } else if "--manifest-path=" <= arg {
      flags' := flags.(manifestPath := true);
    } else if arg == "-p" || arg == "--package" {
      expectValue := Some(PACKAGE);
    } else if "--package=" <= arg {
      flags' := flags.(packageSelection := true);
    } else if arg == "--fix" {
      flags' := flags.(fix := true);
    } else if arg == "--workspace" {
      flags' := flags.(packageSelection := true);
    } else if arg == "--no-deps" {
      flags' := flags.(noDeps := true);
    } else if arg == "--lib" || arg == "--lib-path" {
      expectValue := Some(LIBRARY);
    } else if "--lib=" <= arg || "--lib-path=" <= arg {
      flags' := flags.(librarySelection := true);
    }
  }

  // ---- the grammar: what a command line means ----

  /** The arguments in front of the first separator. */
  function LintPart(argv: seq<string>): seq<string>
  {
    if argv == [] || argv[0] == SEPARATOR then [] else [argv[0]] + LintPart(argv[1..])
  }

  /** The arguments behind the first separator. */
  function CargoPart(argv: seq<string>): seq<string>
  {
    if argv == [] then [] else if argv[0] == SEPARATOR then argv[1..] else CargoPart(argv[1..])
  }

  /** Lint arguments read option by option; an option at the very end has no value and sets nothing. */
  function ReadOptions(lint: seq<string>): Flags
    decreases |lint|
  {
    if lint == [] then NO_FLAGS
    else if WantsValue(lint[0]).None? then Or(OwnFlag(lint[0]), ReadOptions(lint[1..]))
    else if |lint| == 1 then NO_FLAGS
    else Or(WantsValue(lint[0]).value, ReadOptions(lint[2..]))
  }

  predicate SelectsTarget(cargo: seq<string>)
  {
    cargo != [] && (SelectsTarget(cargo[..|cargo| - 1]) || IsCargoTarget(cargo[|cargo| - 1]))
  }

  function Parse(argv: seq<string>): ParsedWrapperArgs
  {
    ParsedWrapperArgs(LintPart(argv), CargoPart(argv), ReadOptions(LintPart(argv)), SelectsTarget(CargoPart(argv)))
  }

  /** What the loop still has to read, given the option it is waiting on. */
  function ReadPending(pending: Option<Flags>, lint: seq<string>): Flags
  {
    if pending.None? then ReadOptions(lint)
    else if lint == [] then NO_FLAGS
    else Or(pending.value, ReadOptions(lint[1..]))
  }

  lemma {:induction false} ReadStep(pending: Option<Flags>, arg: string, rest: seq<string>)
    ensures ReadPending(pending, [arg] + rest)
         == if pending.Some? then Or(pending.value, ReadOptions(rest))
            else if WantsValue(arg).Some? then ReadPending(WantsValue(arg), rest)
            else Or(OwnFlag(arg), ReadOptions(rest))
  {
    assert ([arg] + rest)[1..] == rest;
    if rest != [] { assert ([arg] + rest)[2..] == rest[1..]; }
  }

  // ---- the loop ----

  /** In front of the separator: what has been read, and what the rest still adds. */
  predicate Reading(argv: seq<string>, i: nat, lint: seq<string>, flags: Flags, pending: Option<Flags>)
  {
    && i <= |argv|
    && LintPart(argv) == lint + LintPart(argv[i..])
    && CargoPart(argv) == CargoPart(argv[i..])
    && ReadOptions(LintPart(argv)) == Or(flags, ReadPending(pending, LintPart(argv[i..])))
  }

  /** Behind the separator: the rest is for cargo. */
  predicate Passing(argv: seq<string>, i: nat, lint: seq<string>, flags: Flags, cargo: seq<string>)
  {
    i <= |argv| && LintPart(argv) == lint && ReadOptions(lint) == flags && CargoPart(argv) == cargo + argv[i..]
  }

  lemma {:induction false} PartsStep(argv: seq<string>, i: nat)
    requires i < |argv|
    ensures argv[i] == SEPARATOR ==> LintPart(argv[i..]) == [] && CargoPart(argv[i..]) == argv[i + 1..]
    ensures argv[i] != SEPARATOR ==>
              && LintPart(argv[i..]) == [argv[i]] + LintPart(argv[i + 1..])
              && CargoPart(argv[i..]) == CargoPart(argv[i + 1..])
  {
    assert argv[i..][1..] == argv[i + 1..];
  }

  lemma {:induction false} SeparatorStep(argv: seq<string>, i: nat, lint: seq<string>, flags: Flags,
                                         pending: Option<Flags>)
    requires Reading(argv, i, lint, flags, pending) && i < |argv| && argv[i] == SEPARATOR
    ensures Passing(argv, i + 1, lint, flags, [])
  {
    PartsStep(argv, i);
  }

  lemma {:induction false} LintStep(argv: seq<string>, i: nat, lint: seq<string>, flags: Flags, pending: Option<Flags>)
    requires Reading(argv, i, lint, flags, pending) && i < |argv| && argv[i] != SEPARATOR
    ensures
      var arg := argv[i];
      if pending.Some? then Reading(argv, i + 1, lint + [arg], Or(flags, pending.value), None)
      else Reading(argv, i + 1, lint + [arg], Or(flags, OwnFlag(arg)), WantsValue(arg))
  {
    var arg, rest := argv[i], LintPart(argv[i + 1..]);
    PartsStep(argv, i);
    ReadStep(pending, arg, rest);
    if WantsValue(arg).Some? { WaitsOrSets(arg); }
    assert lint + ([arg] + rest) == lint + [arg] + rest;
  }

  lemma {:induction false} CargoStep(argv: seq<string>, i: nat, lint: seq<string>, flags: Flags, cargo: seq<string>)
    requires Passing(argv, i, lint, flags, cargo) && i < |argv|
    ensures Passing(argv, i + 1, lint, flags, cargo + [argv[i]])
    ensures SelectsTarget(cargo + [argv[i]]) <==> SelectsTarget(cargo) || IsCargoTarget(argv[i])
  {
    assert cargo + argv[i..] == cargo + [argv[i]] + argv[i + 1..];
    assert (cargo + [argv[i]])[..|cargo|] == cargo;
  }

  lemma {:induction false} ReadingEnds(argv: seq<string>, lint: seq<string>, flags: Flags, pending: Option<Flags>)
    requires Reading(argv, |argv|, lint, flags, pending)
    ensures LintPart(argv) == lint && CargoPart(argv) == [] && ReadOptions(lint) == flags
  {
    assert argv[|argv|..] == [];
  }

  /** `parse_wrapper_args` */
  method ParseWrapperArgs(argv: seq<string>) returns (parsed: ParsedWrapperArgs)
    ensures parsed == Parse(argv)
  {
    var lintArgs, cargoArgs: seq<string> := [], [];
    var flags, cargoTargetSelection := NO_FLAGS, false;
    var afterSeparator := false;
    var expectValue: Option<Flags> := None;

    assert argv[0..] == argv;
    for i := 0 to |argv|
      invariant !afterSeparator ==> Reading(argv, i, lintArgs, flags, expectValue) && cargoArgs == []
      invariant afterSeparator ==> Passing(argv, i, lintArgs, flags, cargoArgs)
      invariant cargoTargetSelection == SelectsTarget(cargoArgs)
    {
      var arg := argv[i];
      if afterSeparator {
        CargoStep(argv, i, lintArgs, flags, cargoArgs);
        cargoArgs := cargoArgs + [arg];
        if IsCargoTarget(arg) {
          cargoTargetSelection := true;
        }
        continue;
      }
      if arg == SEPARATOR {
        SeparatorStep(argv, i, lintArgs, flags, expectValue);
        afterSeparator := true;
        continue;
      }
      LintStep(argv, i, lintArgs, flags, expectValue);
      lintArgs := lintArgs + [arg];
      if expectValue.Some? {
        flags := Or(flags, expectValue.value);
        expectValue := None;
        continue;
      }
      flags, expectValue := ReadOption(arg, flags);
    }
    if !afterSeparator { ReadingEnds(argv, lintArgs, flags, expectValue); }
    assert argv[|argv|..] == [];
    parsed := ParsedWrapperArgs(lintArgs, cargoArgs, flags, cargoTargetSelection);
  }

  // ---- rebuilding ----

  /** The options put in front of the user's lint arguments. */
  function Defaults(flags: Flags, manifest: string): seq<string>
  {
    (if flags.manifestPath then [] else ["--manifest-path", manifest])
    + (if flags.packageSelection || flags.manifestPath then [] else ["--workspace"])
    + (if flags.noDeps then [] else ["--no-deps"])
  }

  function FinalCargo(parsed: ParsedWrapperArgs): seq<string>
  {
    parsed.cargoArgs + if parsed.flags.fix || parsed.cargoTargetSelection then [] else ["--all-targets"]
  }

  function Behind(cargo: seq<string>): seq<string>
  {
    if cargo == [] then [] else [SEPARATOR] + cargo
  }

  function Build(parsed: ParsedWrapperArgs, manifest: string): seq<string>
  {
    Defaults(parsed.flags, manifest) + parsed.lintArgs + Behind(FinalCargo(parsed))
  }

  /** `build_final_args` */
  method BuildFinalArgs(parsed: ParsedWrapperArgs, manifest: string) returns (finalArgs: seq<string>)
    ensures finalArgs == Build(parsed, manifest)
  {
    finalArgs := [];
    var cargoArgs := parsed.cargoArgs;
    if !parsed.flags.manifestPath {
      finalArgs := finalArgs + ["--manifest-path", manifest];
    }
    if !parsed.flags.packageSelection && !parsed.flags.manifestPath {
      finalArgs := finalArgs + ["--workspace"];
    }
    if !parsed.flags.noDeps {
      finalArgs := finalArgs + ["--no-deps"];
    }
    assert finalArgs == Defaults(parsed.flags, manifest);
    if !parsed.flags.fix && !parsed.cargoTargetSelection {
      cargoArgs := cargoArgs + ["--all-targets"];
    }
    assert cargoArgs == FinalCargo(parsed);
    finalArgs := finalArgs + parsed.lintArgs;
    if cargoArgs != [] {
      finalArgs := finalArgs + ([SEPARATOR] + cargoArgs);
    }
  }

  /** One pass of the wrapper over a command line. */
  function Rewrite(argv: seq<string>, manifest: string): seq<string>
  {
    Build(Parse(argv), manifest)
  }

  // ---- what is added, argument by argument ----

  predicate TakesValue(arg: string)
  {
    arg == "--manifest-path" || arg == "-p" || arg == "--package" || arg == "--lib" || arg == "--lib-path"
  }

  /** The argument is the value of the option in front of it. */
  predicate IsValue(lint: seq<string>, i: nat)
    requires i <= |lint|
  {
    i > 0 && TakesValue(lint[i - 1]) && !IsValue(lint, i - 1)
  }

  /** What the argument at a position says. */
  function SaidAt(lint: seq<string>, i: nat): Flags
    requires i < |lint|
  {
    var arg := lint[i];
    if IsValue(lint, i) then
      var option := lint[i - 1];
      Flags(option == "--manifest-path", option == "-p" || option == "--package", false,
            option == "--lib" || option == "--lib-path", false)
    else
      Flags("--manifest-path=" <= arg, "--package=" <= arg || arg == "--workspace", arg == "--no-deps",
            "--lib=" <= arg || "--lib-path=" <= arg, arg == "--fix")
  }

  function SaidBefore(lint: seq<string>, n: nat): Flags
    requires n <= |lint|
  {
    if n == 0 then NO_FLAGS else Or(SaidBefore(lint, n - 1), SaidAt(lint, n - 1))
  }

  /** The option still waiting for its value at a position. */
  function WaitingAt(lint: seq<string>, n: nat): Option<Flags>
    requires n <= |lint|
  {
    if IsValue(lint, n) then WantsValue(lint[n - 1]) else None
  }

  lemma {:induction false} WantsValueIff(arg: string)
    ensures WantsValue(arg).Some? <==> TakesValue(arg)
    ensures TakesValue(arg) ==>
              WantsValue(arg) == Some(Flags(arg == "--manifest-path", arg == "-p" || arg == "--package", false,
                                            arg == "--lib" || arg == "--lib-path", false))
  {
  }

  lemma {:induction false} OwnFlagIs(lint: seq<string>, i: nat)
    requires i < |lint| && !IsValue(lint, i)
    ensures SaidAt(lint, i) == OwnFlag(lint[i])
  {
  }

  lemma {:induction false} SaidSoFar(lint: seq<string>, n: nat)
    requires n <= |lint|
    ensures ReadOptions(lint) == Or(SaidBefore(lint, n), ReadPending(WaitingAt(lint, n), lint[n..]))
  {
    if n == 0 {
      assert lint[0..] == lint;
    } else {
      var i := n - 1;
      SaidSoFar(lint, i);
      assert lint[i..] == [lint[i]] + lint[n..];
      ReadStep(WaitingAt(lint, i), lint[i], lint[n..]);
      WantsValueIff(lint[i]);
      if IsValue(lint, i) {
        WantsValueIff(lint[i - 1]);
      } else {
        OwnFlagIs(lint, i);
        if TakesValue(lint[i]) { WaitsOrSets(lint[i]); }
      }
    }
  }

  /** The flags are what the arguments say, one by one; an option at the very end says nothing. */
  lemma {:induction false} FlagsAreSaid(lint: seq<string>)
    ensures ReadOptions(lint) == SaidBefore(lint, |lint|)
  {
    SaidSoFar(lint, |lint|);
    assert lint[|lint|..] == [];
  }

  predicate NamesTarget(arg: string)
  {
    || arg == "--all-targets" || arg == "--lib" || arg == "--bins" || arg == "--tests" || arg == "--examples"
    || arg == "--benches" || arg == "--doc" || arg == "--bin" || arg == "--test" || arg == "--example"
    || arg == "--bench" || "--bin=" <= arg || "--test=" <= arg || "--example=" <= arg || "--bench=" <= arg
  }

  lemma {:induction false} SelectsIffNamed(cargo: seq<string>)
    ensures SelectsTarget(cargo) <==> exists i | 0 <= i < |cargo| :: NamesTarget(cargo[i])
  {
    if cargo != [] {
      var n := |cargo| - 1;
      SelectsIffNamed(cargo[..n]);
      if SelectsTarget(cargo[..n]) {
        var i :| 0 <= i < n && NamesTarget(cargo[..n][i]);
        assert NamesTarget(cargo[i]);
      }
      if exists i | 0 <= i < |cargo| :: NamesTarget(cargo[i]) {
        var i :| 0 <= i < |cargo| && NamesTarget(cargo[i]);
        if i < n { assert NamesTarget(cargo[..n][i]); }
      }
    }
  }

  /** The whole rewriting, from the command line itself: each default exactly when nothing says otherwise. */
  lemma {:induction false} RewritingSpelledOut(argv: seq<string>, manifest: string)
    ensures
      var lint, cargo := LintPart(argv), CargoPart(argv);
      var said := SaidBefore(lint, |lint|);
      var targets: seq<string> :=
        if said.fix || (exists i | 0 <= i < |cargo| :: NamesTarget(cargo[i])) then [] else ["--all-targets"];
      Rewrite(argv, manifest)
      == (if said.manifestPath then [] else ["--manifest-path", manifest])
         + (if said.manifestPath || said.packageSelection then [] else ["--workspace"])
         + (if said.noDeps then [] else ["--no-deps"])
         + lint
         + (if cargo + targets == [] then [] else ["--"] + (cargo + targets))
  {
    FlagsAreSaid(LintPart(argv));
    SelectsIffNamed(CargoPart(argv));
  }

  // ---- the user's arguments survive ----

  lemma {:induction false} PartsMakeWhole(argv: seq<string>)
    ensures SEPARATOR !in LintPart(argv)
    ensures SEPARATOR in argv ==> argv == LintPart(argv) + [SEPARATOR] + CargoPart(argv)
    ensures SEPARATOR !in argv ==> argv == LintPart(argv) && CargoPart(argv) == []
  {
    if argv != [] && argv[0] != SEPARATOR {
      assert argv == [argv[0]] + argv[1..];
      PartsMakeWhole(argv[1..]);
    }
  }

  lemma {:induction false} PartsOfBuilt(lint: seq<string>, cargo: seq<string>)
    requires SEPARATOR !in lint
    ensures LintPart(lint + Behind(cargo)) == lint && CargoPart(lint + Behind(cargo)) == cargo
    decreases |lint|
  {
    if lint != [] {
      assert (lint + Behind(cargo))[1..] == lint[1..] + Behind(cargo);
      PartsOfBuilt(lint[1..], cargo);
    }
  }

  predicate Separable(argv: seq<string>, manifest: string)
  {
    manifest != SEPARATOR || Parse(argv).flags.manifestPath
  }

  /** What the user wrote on either side of the separator is found again, complete and in order. */
  lemma {:induction false} ArgumentsSurvive(argv: seq<string>, manifest: string)
    requires Separable(argv, manifest)
    ensures
      var before, after := Parse(argv), Parse(Rewrite(argv, manifest));
      && after.lintArgs == Defaults(before.flags, manifest) + before.lintArgs
      && after.cargoArgs == FinalCargo(before)
  {
    var p := Parse(argv);
    PartsMakeWhole(argv);
    PartsOfBuilt(Defaults(p.flags, manifest) + p.lintArgs, FinalCargo(p));
  }

  // ---- idempotence ----

  lemma {:induction false} DefaultFlags()
    ensures WantsValue("--no-deps") == None && OwnFlag("--no-deps") == NO_FLAGS.(noDeps := true)
    ensures WantsValue("--workspace") == None && OwnFlag("--workspace") == PACKAGE
    ensures WantsValue("--manifest-path") == Some(MANIFEST)
  {
    assert "--no-deps"[2] == 'n' && "--workspace"[2] == 'w';
    assert "--manifest-path="[2] == 'm' && "--package="[2] == 'p' && "--fix"[2] == 'f';
    assert "--lib="[2] == 'l' && "--lib-path="[2] == 'l' && "--manifest-path"[2] == 'm';
    assert "-p"[1] == 'p' && "--package"[2] == 'p' && "--lib"[2] == 'l' && "--lib-path"[2] == 'l';
  }

  lemma {:induction false} ReadNoDeps(flags: Flags, lint: seq<string>)
    ensures ReadOptions((if flags.noDeps then [] else ["--no-deps"]) + lint)
         == Or(NO_FLAGS.(noDeps := !flags.noDeps), ReadOptions(lint))
  {
    DefaultFlags();
    ReadStep(None, "--no-deps", lint);
    assert [] + lint == lint;
  }

  lemma {:induction false} ReadWorkspace(flags: Flags, lint: seq<string>)
    ensures ReadOptions((if flags.packageSelection || flags.manifestPath then [] else ["--workspace"]) + lint)
         == Or(NO_FLAGS.(packageSelection := !flags.packageSelection && !flags.manifestPath), ReadOptions(lint))
  {
    DefaultFlags();
    ReadStep(None, "--workspace", lint);
    assert [] + lint == lint;
  }

  lemma {:induction false} ReadManifest(flags: Flags, manifest: string, lint: seq<string>)
    ensures ReadOptions((if flags.manifestPath then [] else ["--manifest-path", manifest]) + lint)
         == Or(NO_FLAGS.(manifestPath := !flags.manifestPath), ReadOptions(lint))
  {
    DefaultFlags();
    ReadStep(None, "--manifest-path", [manifest] + lint);
    ReadStep(Some(MANIFEST), manifest, lint);
    assert ["--manifest-path", manifest] + lint == ["--manifest-path"] + ([manifest] + lint);
    assert [] + lint == lint;
  }

  /** Reading the defaults, then what follows them. */
  lemma {:induction false} ReadDefaults(flags: Flags, manifest: string, lint: seq<string>)
    ensures ReadOptions(Defaults(flags, manifest) + lint)
         == Or(Flags(!flags.manifestPath, !flags.packageSelection && !flags.manifestPath, !flags.noDeps, false, false),
               ReadOptions(lint))
  {
    var noDeps: seq<string> := if flags.noDeps then [] else ["--no-deps"];
    var workspace: seq<string> := if flags.packageSelection || flags.manifestPath then [] else ["--workspace"];
    var path: seq<string> := if flags.manifestPath then [] else ["--manifest-path", manifest];
    ReadNoDeps(flags, lint);
    ReadWorkspace(flags, noDeps + lint);
    ReadManifest(flags, manifest, workspace + (noDeps + lint));
    Reassociate(path, workspace, noDeps, lint);
  }

  lemma {:induction false} Reassociate(a: seq<string>, b: seq<string>, c: seq<string>, d: seq<string>)
    ensures a + b + c + d == a + (b + (c + d))
  {
  }

  lemma {:induction false} RewriteFixed(argv: seq<string>, manifest: string)
    requires Separable(argv, manifest)
    ensures Rewrite(Rewrite(argv, manifest), manifest) == Rewrite(argv, manifest)
  {
    var p, q := Parse(argv), Parse(Rewrite(argv, manifest));
    ArgumentsSurvive(argv, manifest);
    ReadDefaults(p.flags, manifest, p.lintArgs);
    assert q.flags.manifestPath && q.flags.noDeps && q.flags.fix == p.flags.fix;
    if !p.flags.fix && !p.cargoTargetSelection {
      assert q.cargoArgs[|q.cargoArgs| - 1] == "--all-targets" && IsCargoTarget("--all-targets");
    } else {
      assert q.cargoArgs == p.cargoArgs;
    }
    assert FinalCargo(q) == q.cargoArgs;
    assert Defaults(q.flags, manifest) == [];
  }

  lemma {:induction false} RewriteGrows(argv: seq<string>)
    requires !Separable(argv, SEPARATOR)
    ensures |Rewrite(Rewrite(argv, SEPARATOR), SEPARATOR)| > |Rewrite(argv, SEPARATOR)|
  {
    var built := Rewrite(argv, SEPARATOR);
    assert built == ["--manifest-path", SEPARATOR] + built[2..];
    assert built[1..][0] == SEPARATOR && built[1..][1..] == built[2..];
    assert LintPart(built[1..]) == [];
    assert LintPart(built) == ["--manifest-path"];
    assert CargoPart(built) == built[2..];
    assert Parse(built).flags == NO_FLAGS;
  }

  /**
   Rewriting a rewritten command line changes nothing, whatever the command line and even if it
   ends in the middle of an option, exactly when the manifest path is not itself the separator or
   is not needed.
   */
  lemma RewriteIsIdempotentIff(argv: seq<string>, manifest: string)
    ensures Rewrite(Rewrite(argv, manifest), manifest) == Rewrite(argv, manifest)
       <==> manifest != SEPARATOR || Parse(argv).flags.manifestPath
  {
    if Separable(argv, manifest) { RewriteFixed(argv, manifest); } else { RewriteGrows(argv); }
  }
}
