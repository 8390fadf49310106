/** Where transcripts go (`Output.swift`): standard output, or a directory path made
    absolute against the current directory. */
module OutputDestination {
  import opened Common
  import opened Cli

  datatype Output = StdOutput | Path(path: string)

  /** `Path(argument).absolute()` for the current directory `cwd`: a path that starts
      with a slash is kept, any other is taken relative to `cwd`. */
  function Absolute(cwd: string, argument: string): (r: string)
    ensures StartsWith("/", argument) ==> r == argument
    ensures !StartsWith("/", argument) ==> StartsWith(cwd + "/", r) && r[|cwd| + 1..] == argument
  {
    if StartsWith("/", argument) then argument
    else
      var r := cwd + "/" + argument;
      assert r[..|cwd + "/"|] == cwd + "/";
      assert r[|cwd| + 1..] == argument;
      r
  }

  /** Making a path absolute twice changes nothing more. */
  lemma AbsoluteIdempotent(cwd: string, argument: string)
    requires StartsWith("/", cwd)
    ensures StartsWith("/", Absolute(cwd, argument))
    ensures Absolute(cwd, Absolute(cwd, argument)) == Absolute(cwd, argument)
  {
    if !StartsWith("/", argument) {
      var r := Absolute(cwd, argument);
      assert r[..1] == (cwd + "/")[..|cwd + "/"|][..1] == cwd[..1];
    }
  }

  /** `init?(argument:)` as written: for `-` the initializer first stores
      `.stdOutput`, but does not return there, and the assignment after the `if`
      overwrites it, so every argument becomes a path. */
  function FromArgumentAsWritten(cwd: string, argument: string): (r: Option<Output>)
    ensures r.Some? && !IsStdOutput(r.value)
    ensures PathOf(r.value) == Some(Absolute(cwd, argument))
  {
    Some(Path(Absolute(cwd, argument)))
  }

  /** The argument `-`, meant to select standard output, selects the file `-` of the
      current directory. */
  lemma DashBecomesAPath(cwd: string)
    ensures FromArgumentAsWritten(cwd, "-") == Some(Path(cwd + "/-"))
  {
    assert "-"[..1][0] == '-' != '/' == "/"[0];
    assert Absolute(cwd, "-") == cwd + "/" + "-" == cwd + "/-";
  }

  /** `init?(argument:)` as evidently intended: `-` is standard output, and any other
      argument an absolute path. */
  function FromArgument(cwd: string, argument: string): (r: Option<Output>)
    ensures r.Some?
    ensures IsStdOutput(r.value) <==> argument == "-"
    ensures argument != "-" ==> PathOf(r.value) == Some(Absolute(cwd, argument))
  {
    if argument == "-" then Some(StdOutput)
    else Some(Path(Absolute(cwd, argument)))
  }

  /** The intended parse sends output where `run()` does: to standard output exactly
      when `shouldOutputToStdout` holds. */
  lemma FromArgumentAgreesWithRun(cwd: string, command: Ocrit)
    ensures IsStdOutput(FromArgument(cwd, command.output).value) <==> ShouldOutputToStdout(command)
    ensures !ShouldOutputToStdout(command) ==> PathOf(FromArgument(cwd, command.output).value).Some?
  {
  }

  /** `isStdOutput`. */
  predicate IsStdOutput(output: Output)
    ensures IsStdOutput(output) <==> output == StdOutput
  {
    output.StdOutput?
  }

  /** `path`. */
  function PathOf(output: Output): (r: Option<string>)
    ensures r.None? <==> IsStdOutput(output)
    ensures r.Some? ==> output == Path(r.value)
  {
    match output
    case StdOutput => None
    case Path(path) => Some(path)
  }
}
