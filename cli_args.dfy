/**
 * The command-line argument validator of lib/validate-cli-args.js: a fixed
 * sequence of checks over the parsed flags and the positional arguments, where
 * the first failing check decides the error. A thrown error becomes
 * `Some(error)`; a call that returns normally is `None`.
 */
module CliArgs {
  import opened Wrappers
  import opened Values
  import Renderer

  /** `isValidIndentString`: only spaces (none at all included), or exactly one tab. */
  function IsValidIndentString(s: string): (b: bool)
    // a valid indent is a run of one kind of indent character, and the only tab run it takes is a single tab
    ensures b ==> OnlySpaces(s) || OnlyTabs(s)
    ensures b && |s| > 0 && s[0] == '\t' ==> s == "\t"
  {
    OnlySpaces(s) || s == "\t"
  }

  /** `getCliFlag`: the flag as typed on a command line. */
  function CliFlag(flag: string): (r: string)
    // one dash for a one-character flag, two otherwise, then the flag itself
    ensures var dashes := if |flag| == 1 then 1 else 2;
      && |r| == dashes + |flag|
      && (forall i | 0 <= i < dashes :: r[i] == '-')
      && r[dashes..] == flag
  {
    if |flag| == 1 then "-" + flag else "--" + flag
  }

  /** Different non-empty flags are shown differently. */
  lemma CliFlagInjective(a: string, b: string)
    requires a != "" && b != "" && CliFlag(a) == CliFlag(b)
    ensures a == b
  {
    if |a| == 1 && |b| == 1 {
      assert a == CliFlag(a)[1..];
    } else if |a| != 1 && |b| != 1 {
      assert a == CliFlag(a)[2..];
    }
  }

  /** One entry of the parsed flags record (`cli.flags`), in key order. */
  datatype Flag = Flag(key: string, value: Value)

  /**
   * The configuration passed in: `cliAliases` maps a short flag to its long
   * name, and the long names are the supported flags.
   */
  datatype ValidationInfo = ValidationInfo(cliAliases: map<string, string>, boolFlags: seq<string>, indentFlags: seq<string>)

  /** The input metadata: whether input arrived on stdin, and the input file name if any. */
  datatype Memo = Memo(stdin: bool, infile: Option<string>)

  datatype CliError =
    | InvalidFlag(flag: string)
    | IndentNotIntegerOrString(flag: string)
    | IndentStringInvalid(flag: string)
    | RequiresParameter(flag: string)
    | NoParameter(flag: string)
    | StdinWithInfile
    | TooManyArguments
    | NoInput
    | InPlaceNeedsInfile
    | InPlaceNoOutfile

  /** The errors raised for one flag, each naming the flag as typed. */
  predicate IsFlagError(e: CliError)
  {
    e.InvalidFlag? || e.IndentNotIntegerOrString? || e.IndentStringInvalid? || e.RequiresParameter? || e.NoParameter?
  }

  /** `!validationInfo.cliAliases[flag]`: the flag has no alias, or an empty one. */
  predicate HasNoAlias(info: ValidationInfo, key: string)
  {
    key !in info.cliAliases || info.cliAliases[key] == ""
  }

  /** Long flags are examined, and short flags only when they have no long version. */
  predicate Examined(info: ValidationInfo, key: string)
  {
    |key| > 1 || HasNoAlias(info, key)
  }

  /** `parsedFlags`: the examined flags, in key order. */
  function ParsedFlags(flags: seq<Flag>, info: ValidationInfo): (r: seq<Flag>)
    ensures |r| <= |flags|
  {
    if flags == [] then []
    else (if Examined(info, flags[0].key) then [flags[0]] else []) + ParsedFlags(flags[1..], info)
  }

  /** The examined flags are exactly the long flags and the short flags without an alias. */
  lemma {:induction false} ParsedFlagsMembers(flags: seq<Flag>, info: ValidationInfo)
    ensures forall f :: f in ParsedFlags(flags, info) <==> f in flags && Examined(info, f.key)
  {
    if flags != [] {
      ParsedFlagsMembers(flags[1..], info);
      assert flags == [flags[0]] + flags[1..];
    }
  }

  /** The `filter` keeps the key order: filtering two stretches of flags is filtering each in turn. */
  lemma {:induction false} ParsedFlagsConcat(a: seq<Flag>, b: seq<Flag>, info: ValidationInfo)
    ensures ParsedFlags(a + b, info) == ParsedFlags(a, info) + ParsedFlags(b, info)
  {
    if a == [] {
      assert a + b == b;
    } else {
      assert (a + b)[0] == a[0];
      assert (a + b)[1..] == a[1..] + b;
      ParsedFlagsConcat(a[1..], b, info);
    }
  }

  /** The checks on one flag, in the order the source makes them. */
  function CheckFlag(flag: Flag, info: ValidationInfo): (r: Option<CliError>)
    ensures flag.key !in info.cliAliases.Values ==> r == Some(InvalidFlag(CliFlag(flag.key)))
    ensures r.Some? ==> IsFlagError(r.value) && r.value.flag == CliFlag(flag.key)
  {
    var value := flag.value;
    var isIndentFlag := flag.key in info.indentFlags;
    var expectBool := flag.key in info.boolFlags;
    var cliFlag := CliFlag(flag.key);
    if flag.key !in info.cliAliases.Values then Some(InvalidFlag(cliFlag))
    else if isIndentFlag && !IsNonNegativeInteger(value) && !value.Str? then Some(IndentNotIntegerOrString(cliFlag))
    else if isIndentFlag && value.Str? && !IsValidIndentString(value.str) then Some(IndentStringInvalid(cliFlag))
    else if value.Bool? && !expectBool then Some(RequiresParameter(cliFlag))
    else if !value.Bool? && expectBool then Some(NoParameter(cliFlag))
    else None
  }

  /** The indent checks pass: an indent flag holds a non-negative integer or a valid indent string. */
  predicate IndentChecksPass(flag: Flag, info: ValidationInfo)
  {
    flag.key in info.indentFlags ==>
      IsNonNegativeInteger(flag.value) || (flag.value.Str? && IsValidIndentString(flag.value.str))
  }

  /**
   * For a supported flag, each failing check raises its own error, and an
   * earlier check wins: the indent value's type, then the indent string, then
   * a boolean where a parameter is required, then a parameter on a boolean flag.
   */
  lemma CheckFlagOrder(flag: Flag, info: ValidationInfo)
    requires flag.key in info.cliAliases.Values
    ensures var v, cli := flag.value, CliFlag(flag.key);
      && (flag.key in info.indentFlags && !IsNonNegativeInteger(v) && !v.Str? ==>
           CheckFlag(flag, info) == Some(IndentNotIntegerOrString(cli)))
      && (flag.key in info.indentFlags && v.Str? && !IsValidIndentString(v.str) ==>
           CheckFlag(flag, info) == Some(IndentStringInvalid(cli)))
      && (IndentChecksPass(flag, info) && v.Bool? && flag.key !in info.boolFlags ==>
           CheckFlag(flag, info) == Some(RequiresParameter(cli)))
      && (IndentChecksPass(flag, info) && !v.Bool? && flag.key in info.boolFlags ==>
           CheckFlag(flag, info) == Some(NoParameter(cli)))
  {
  }

  /** A supported boolean flag given a string does not accept a parameter. */
  lemma StringOnBooleanFlag(info: ValidationInfo)
    requires "inPlace" in info.cliAliases.Values && "inPlace" in info.boolFlags && "inPlace" !in info.indentFlags
    ensures CheckFlag(Flag("inPlace", Str("x")), info) == Some(NoParameter("--inPlace"))
  {
    assert CliFlag("inPlace") == "--" + "inPlace" == "--inPlace";
    CheckFlagOrder(Flag("inPlace", Str("x")), info);
  }

  /** What a flag must satisfy, stated without the order of the checks. */
  predicate FlagAcceptable(flag: Flag, info: ValidationInfo)
  {
    && flag.key in info.cliAliases.Values
    && IndentChecksPass(flag, info)
    && (flag.value.Bool? <==> flag.key in info.boolFlags)
  }

  /** A flag passes its checks exactly when it is acceptable. */
  lemma CheckFlagAccepts(flag: Flag, info: ValidationInfo)
    ensures CheckFlag(flag, info).None? <==> FlagAcceptable(flag, info)
  {
  }

  /** The `forEach` over the flags: the first flag that fails decides the error. */
  function CheckFlags(flags: seq<Flag>, info: ValidationInfo): (r: Option<CliError>)
    ensures r.Some? ==> IsFlagError(r.value)
  {
    if flags == [] then None
    else if CheckFlag(flags[0], info).Some? then CheckFlag(flags[0], info)
    else CheckFlags(flags[1..], info)
  }

  /** The flags pass exactly when each flag passes. */
  lemma {:induction false} CheckFlagsPass(flags: seq<Flag>, info: ValidationInfo)
    ensures CheckFlags(flags, info).None? <==> forall i | 0 <= i < |flags| :: CheckFlag(flags[i], info).None?
  {
    if flags != [] {
      var rest := flags[1..];
      CheckFlagsPass(rest, info);
      assert forall i | 0 < i < |flags| :: flags[i] == rest[i - 1];
    }
  }

  /** The error reported for the flags is that of the first flag that fails. */
  lemma {:induction false} CheckFlagsFirstFailure(flags: seq<Flag>, info: ValidationInfo) returns (i: nat)
    requires CheckFlags(flags, info).Some?
    ensures i < |flags|
    ensures forall j | 0 <= j < i :: CheckFlag(flags[j], info).None?
    ensures CheckFlags(flags, info) == CheckFlag(flags[i], info)
  {
    if CheckFlag(flags[0], info).None? {
      var rest := flags[1..];
      var k := CheckFlagsFirstFailure(rest, info);
      i := k + 1;
      assert flags[i] == rest[k];
      forall j | 0 <= j < i ensures CheckFlag(flags[j], info).None? {
        if j > 0 {
          assert flags[j] == rest[j - 1];
        }
      }
    } else {
      i := 0;
    }
  }

  /** `cli.flags.inPlace`, looked up by key: truthy when set to a truthy value. */
  function InPlace(flags: seq<Flag>): (b: bool)
    ensures b ==> exists i | 0 <= i < |flags| :: flags[i].key == "inPlace" && Truthy(flags[i].value)
    ensures (forall i | 0 <= i < |flags| :: flags[i].key != "inPlace") ==> !b
  {
    if flags == [] then false
    else if flags[0].key == "inPlace" then Truthy(flags[0].value)
    else InPlace(flags[1..])
  }

  /** The `inPlace` entry that decides is the first one: `--in-place` is set exactly when its value is truthy. */
  lemma {:induction false} InPlaceFirstEntry(flags: seq<Flag>, i: nat)
    requires i < |flags| && flags[i].key == "inPlace"
    requires forall j | 0 <= j < i :: flags[j].key != "inPlace"
    ensures InPlace(flags) == Truthy(flags[i].value)
  {
    if i > 0 {
      forall j | 0 <= j < i - 1 ensures flags[1..][j].key != "inPlace" {
        assert flags[1..][j] == flags[j + 1];
      }
      InPlaceFirstEntry(flags[1..], i - 1);
    }
  }

  /** `!memo.infile`: no input file, or an empty name. */
  predicate HasInfile(memo: Memo)
  {
    memo.infile.Some? && memo.infile.value != ""
  }

  /**
   * The exported validator: the flag checks, then the positional-argument checks,
   * then the input check, then the `--in-place` checks.
   */
  function Validate(flags: seq<Flag>, inputCount: nat, info: ValidationInfo, memo: Memo): (r: Option<CliError>)
    // a flag error is reported exactly when some examined flag fails its checks,
    // and it is the error of the first examined flag that fails
    ensures (r.Some? && IsFlagError(r.value)) <==> CheckFlags(ParsedFlags(flags, info), info).Some?
    ensures CheckFlags(ParsedFlags(flags, info), info).Some? ==> r == CheckFlags(ParsedFlags(flags, info), info)
  {
    var flagError := CheckFlags(ParsedFlags(flags, info), info);
    if flagError.Some? then flagError
    else if memo.stdin && inputCount > 1 then Some(StdinWithInfile)
    else if inputCount > 2 then Some(TooManyArguments)
    else if !memo.stdin && !HasInfile(memo) then Some(NoInput)
    else if InPlace(flags) && inputCount == 0 then Some(InPlaceNeedsInfile)
    else if InPlace(flags) && inputCount > 1 then Some(InPlaceNoOutfile)
    else None
  }

  /** The flag checks pass exactly when every examined flag is acceptable. */
  lemma FlagsAccepted(flags: seq<Flag>, info: ValidationInfo)
    ensures CheckFlags(ParsedFlags(flags, info), info).None? <==>
      forall f | f in flags && Examined(info, f.key) :: FlagAcceptable(f, info)
  {
    var parsed := ParsedFlags(flags, info);
    ParsedFlagsMembers(flags, info);
    CheckFlagsPass(parsed, info);
    forall i | 0 <= i < |parsed| {
      CheckFlagAccepts(parsed[i], info);
    }
    if forall f | f in flags && Examined(info, f.key) :: FlagAcceptable(f, info) {
      assert forall i | 0 <= i < |parsed| :: parsed[i] in parsed;
    } else {
      var f :| f in flags && Examined(info, f.key) && !FlagAcceptable(f, info);
      assert f in parsed;
      var i :| 0 <= i < |parsed| && parsed[i] == f;
    }
  }

  /**
   * The arguments pass exactly when every examined flag is acceptable, stdin input
   * comes with at most one positional argument, there are at most two, some input
   * exists, and `--in-place` comes with exactly one.
   */
  lemma ValidateAccepts(flags: seq<Flag>, inputCount: nat, info: ValidationInfo, memo: Memo)
    ensures Validate(flags, inputCount, info, memo).None? <==>
      && (forall f | f in flags && Examined(info, f.key) :: FlagAcceptable(f, info))
      && !(memo.stdin && inputCount > 1)
      && inputCount <= 2
      && (memo.stdin || HasInfile(memo))
      && (InPlace(flags) ==> inputCount == 1)
  {
    FlagsAccepted(flags, info);
  }

  /** Once the flags pass, the positional checks decide, in the source's order. */
  lemma PositionalChecks(flags: seq<Flag>, inputCount: nat, info: ValidationInfo, memo: Memo)
    requires CheckFlags(ParsedFlags(flags, info), info).None?
    ensures memo.stdin && inputCount > 1 ==> Validate(flags, inputCount, info, memo) == Some(StdinWithInfile)
    ensures !memo.stdin && inputCount > 2 ==> Validate(flags, inputCount, info, memo) == Some(TooManyArguments)
    ensures inputCount <= 2 && !memo.stdin && !HasInfile(memo) ==> Validate(flags, inputCount, info, memo) == Some(NoInput)
    ensures inputCount <= 2 && !(memo.stdin && inputCount > 1) && (memo.stdin || HasInfile(memo)) && InPlace(flags) ==>
      Validate(flags, inputCount, info, memo)
        == (if inputCount == 0 then Some(InPlaceNeedsInfile) else if inputCount > 1 then Some(InPlaceNoOutfile) else None)
  {
  }

  /** An indent value the validator accepts for an indent flag is one the renderer accepts as an option. */
  lemma ValidIndentIsRenderable(flag: Flag, info: ValidationInfo)
    requires flag.key in info.indentFlags && CheckFlag(flag, info).None?
    ensures Renderer.IndentUnit(flag.value).Success?
  {
    if flag.value.Str? && flag.value.str == "\t" {
      assert OnlyTabs(flag.value.str);
    }
  }

  /** The converse fails: the renderer takes a run of tabs that the validator refuses. */
  lemma TwoTabsOnlyRenderable()
    ensures Renderer.IndentUnit(Str("\t\t")).Success?
    ensures !IsValidIndentString("\t\t")
  {
    assert OnlyTabs("\t\t");
    assert "\t\t"[0] != ' ';
  }
}
