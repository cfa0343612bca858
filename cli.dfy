/**
 * The command-line scan `quick_parse_args`: help, verbosity flags made of
 * dashes and `v`s, and the collection of everything else.
 */
module Cli {
  import opened Wrappers
  import opened Text

  /** The outcome of the scan: usage requested, unknown arguments, or the parsed options. */
  datatype ParsedArgs =
    | Help
    | Unrecognized(args: set<string>)
    | Parsed(verbosity: int)

  /** The highest verbosity level: `len(verbosity_options) - 1` with three log levels. */
  const MAX_VERBOSITY: int := 2

  predicate IsHelp(arg: string) {
    arg == "-h" || arg == "--help"
  }

  /** `set(arg) == {"-", "v"}`: the argument uses both characters and no other. */
  predicate IsVerbosityFlag(arg: string) {
    CharSet(arg) == {'-', 'v'}
  }

  /** The level a verbosity flag selects: its number of `v`s, capped. */
  function FlagLevel(arg: string): int {
    Min(CountChar(arg, 'v'), MAX_VERBOSITY)
  }

  /** The level set by the last verbosity flag among `args`, or the default 0. */
  function LastLevel(args: seq<string>): (level: int)
    ensures 0 <= level <= MAX_VERBOSITY
  {
    if args == [] then 0
    else if IsVerbosityFlag(args[|args| - 1]) then FlagLevel(args[|args| - 1])
    else LastLevel(args[..|args| - 1])
  }

  /** The arguments that are neither help nor a verbosity flag. */
  function UnknownArgs(args: seq<string>): set<string> {
    set i | 0 <= i < |args| && !IsHelp(args[i]) && !IsVerbosityFlag(args[i]) :: args[i]
  }

  /** A flag always holds a `v`, so it selects level 1 or 2. */
  lemma FlagLevelPositive(arg: string)
    requires IsVerbosityFlag(arg)
    ensures 1 <= FlagLevel(arg) <= MAX_VERBOSITY
  {
    assert 'v' in CharSet(arg);
  }

  /** The last flag wins: appending a flag sets the level to that flag's. */
  lemma LastFlagWins(args: seq<string>, flag: string)
    requires IsVerbosityFlag(flag)
    ensures LastLevel(args + [flag]) == FlagLevel(flag)
  {
  }

  /** Arguments after the last flag that are not flags leave its level unchanged. */
  lemma {:induction false} LastLevelSkipsOthers(args: seq<string>, rest: seq<string>)
    requires forall i :: 0 <= i < |rest| ==> !IsVerbosityFlag(rest[i])
    ensures LastLevel(args + rest) == LastLevel(args)
    decreases |rest|
  {
    if rest != [] {
      var shorter := rest[..|rest| - 1];
      assert (args + rest)[..|args + rest| - 1] == args + shorter;
      assert (args + rest)[|args + rest| - 1] == rest[|rest| - 1];
      LastLevelSkipsOthers(args, shorter);
    } else {
      assert args + rest == args;
    }
  }

  /**
   * `quick_parse_args` over `argv[1:]`: help stops the scan at once; a flag
   * sets the level; anything else is collected and, after the scan, makes
   * it fail.
   */
  method QuickParseArgs(args: seq<string>) returns (r: ParsedArgs)
    ensures r.Help? <==> exists i :: 0 <= i < |args| && IsHelp(args[i])
    ensures r.Unrecognized? ==> r.args == UnknownArgs(args) && r.args != {}
    ensures !r.Help? ==> (r.Unrecognized? <==> UnknownArgs(args) != {})
    ensures r.Parsed? ==> r.verbosity == LastLevel(args) && 0 <= r.verbosity <= MAX_VERBOSITY
    ensures r.Parsed? ==> (r.verbosity == 0 <==> args == [])
  {
    var verbosity := 0;
    var unrecognized: set<string> := {};
    for i := 0 to |args|
      invariant forall j :: 0 <= j < i ==> !IsHelp(args[j])
      invariant verbosity == LastLevel(args[..i])
      invariant unrecognized == UnknownArgs(args[..i])
    {
      var arg := args[i];
      assert args[..i + 1] == args[..i] + [arg];
      if IsHelp(arg) {
        return Help;
      } else if IsVerbosityFlag(arg) {
        verbosity := Min(CountChar(arg, 'v'), MAX_VERBOSITY);
      } else {
        unrecognized := unrecognized + {arg};
      }
      assert UnknownArgs(args[..i + 1]) == UnknownArgs(args[..i]) + (if IsHelp(arg) || IsVerbosityFlag(arg) then {} else {arg});
    }
    assert args[..|args|] == args;
    if unrecognized != {} {
      return Unrecognized(unrecognized);
    }
    if args != [] {
      assert args[|args| - 1] !in UnknownArgs(args);
      FlagLevelPositive(args[|args| - 1]);
    }
    r := Parsed(verbosity);
  }
}
