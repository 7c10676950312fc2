/**
 * Argument parsing of the `wasm_opt` example (examples/wasm_opt.rs): the
 * command line `wasm_opt OPT_LEVEL INPUT OUTPUT` becomes an input path, an
 * output path and a code-generation configuration. The argument vector is a
 * parameter rather than the process environment.
 */
module WasmOpt {
  import opened Prelude

  /** `binaryen::CodegenConfig`. */
  datatype CodegenConfig = CodegenConfig(optimizationLevel: nat, shrinkLevel: nat, debugInfo: bool)

  /** The `Args` record. */
  datatype Args = Args(inputPath: string, outputPath: string, codegenConfig: CodegenConfig)

  /** The flags the parser accepts. */
  const LevelFlags: set<string> := {"-O0", "-O1", "-O2", "-O3", "-O4", "-Os", "-Oz"}

  /** The `match` on the level flag; `None` is the catch-all arm that returns `Err`. */
  function ConfigForFlag(flag: string): (r: Option<CodegenConfig>)
    ensures r.Some? <==> flag in LevelFlags
    ensures r.Some? ==> r.value.debugInfo
  {
    match flag
    case "-O0" => Some(CodegenConfig(0, 0, true))
    case "-O1" => Some(CodegenConfig(1, 0, true))
    case "-O2" => Some(CodegenConfig(2, 0, true))
    case "-O3" => Some(CodegenConfig(3, 0, true))
    case "-O4" => Some(CodegenConfig(4, 0, true))
    case "-Os" => Some(CodegenConfig(2, 1, true))
    case "-Oz" => Some(CodegenConfig(2, 2, true))
    case _ => None
  }

  /** `parse_args`: needs a level flag and two paths after the program name. */
  function ParseArgs(args: seq<string>): (r: Result<Args, ()>)
    ensures |args| < 4 ==> r.Err?
    ensures r.Ok? <==> |args| >= 4 && args[1] in LevelFlags
    ensures r.Ok? ==> r.value.inputPath == args[2] && r.value.outputPath == args[3]
    ensures r.Ok? ==> r.value.codegenConfig == ConfigForFlag(args[1]).value && r.value.codegenConfig.debugInfo
  {
    if |args| < 4 then Err(())
    else match ConfigForFlag(args[1])
      case None => Err(())
      case Some(config) => Ok(Args(args[2], args[3], config))
  }

  /** The decimal digit character for `n`. */
  function Digit(n: nat): (c: char)
    requires n <= 9
  {
    "0123456789"[n]
  }

  /**
   * The flag that selects a configuration, read from its meaning: `-ON` for
   * level N without shrinking, `-Os` and `-Oz` for the two shrink levels at
   * level 2; `None` for a configuration no flag selects.
   */
  function FlagForConfig(c: CodegenConfig): Option<string> {
    if !c.debugInfo then None
    else if c.shrinkLevel == 0 && c.optimizationLevel <= 4 then Some("-O" + [Digit(c.optimizationLevel)])
    else if c.optimizationLevel == 2 && c.shrinkLevel == 1 then Some("-Os")
    else if c.optimizationLevel == 2 && c.shrinkLevel == 2 then Some("-Oz")
    else None
  }

  /** Every accepted flag is the flag of the configuration it selects. */
  lemma FlagRoundTrip(flag: string)
    requires flag in LevelFlags
    ensures FlagForConfig(ConfigForFlag(flag).value) == Some(flag)
  {
    assert "-O" + [Digit(0)] == "-O0";
    assert "-O" + [Digit(1)] == "-O1";
    assert "-O" + [Digit(2)] == "-O2";
    assert "-O" + [Digit(3)] == "-O3";
    assert "-O" + [Digit(4)] == "-O4";
  }

  /** Every configuration some flag selects is selected by exactly that flag. */
  lemma ConfigRoundTrip(c: CodegenConfig)
    requires FlagForConfig(c).Some?
    ensures ConfigForFlag(FlagForConfig(c).value) == Some(c)
  {
    if c.shrinkLevel == 0 && c.optimizationLevel <= 4 {
      LevelFlag(c.optimizationLevel);
    }
  }

  /** `-ON` for N in 0..4 selects level N without shrinking. */
  lemma LevelFlag(n: nat)
    requires n <= 4
    ensures ConfigForFlag("-O" + [Digit(n)]) == Some(CodegenConfig(n, 0, true))
  {
    assert "-O" + [Digit(n)] == ["-O0", "-O1", "-O2", "-O3", "-O4"][n];
  }

  /** The program name and anything after the output path do not matter. */
  lemma ParseIgnoresProgramNameAndExtras(args: seq<string>, other: seq<string>)
    requires |args| >= 4 && |other| >= 4 && args[1..4] == other[1..4]
    ensures ParseArgs(args) == ParseArgs(other)
  {
  }
}
