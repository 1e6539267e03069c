/** The outcomes of running PowerShell, as the tweak routines see them. Process
    spawning itself is not modelled: its results are values handed in. */
module Commands {
  import opened TextUtil
  import opened Localization

  /** What RunPowerShellCapture returns: exit code, standard output and error. */
  datatype CommandResult = CommandResult(exitCode: int, stdout: string, stderr: string)

  /** How RunPowerShellElevated's attempt ended. */
  datatype ElevationOutcome =
    | NotStarted              // Process.Start returned no process
    | Exited(exitCode: int)   // the elevated PowerShell ran and exited with this code
    | UacCancelled            // Process.Start threw a Win32Exception (a declined UAC prompt among others)
    | Failed(message: string) // any other exception, with its message

  /** RunPowerShellElevated's result: true only for an elevated run that exited with 0. */
  predicate ElevationSucceeded(o: ElevationOutcome) {
    o.Exited? && o.exitCode == 0
  }

  /** The lines RunPowerShellElevated logs: the localized denial for a
      Win32Exception, the exception message for any other exception, nothing
      otherwise. */
  function ElevationLines(m: Messages, o: ElevationOutcome): (lines: seq<string>)
    ensures |lines| <= 1
    ensures ElevationSucceeded(o) ==> lines == []
  {
    match o
    case UacCancelled => [m.uacDenied]
    case Failed(message) => ["⚠ " + message]
    case _ => []
  }

  /** A Win32Exception (reported as the UAC denial whatever its cause) and any
      other exception both fail, and the log tells them apart unless the other
      exception's own message is the denial text itself. */
  lemma DenialDistinctFromFailure(m: Messages, message: string)
    requires "⚠ " + message != m.uacDenied
    ensures !ElevationSucceeded(UacCancelled) && !ElevationSucceeded(Failed(message))
    ensures ElevationLines(m, UacCancelled) != ElevationLines(m, Failed(message))
  {
    assert ElevationLines(m, UacCancelled)[0] != ElevationLines(m, Failed(message))[0];
  }

  /** The branch an apply routine takes on IsAdministrator(): a captured run
      without prompt, or an elevated run through UAC. */
  datatype ExecutionPath =
    | AsAdministrator(run: CommandResult)
    | Elevated(outcome: ElevationOutcome)

  /** The `executed` flag: exit code 0 when already administrator, the elevated
      run's result otherwise. */
  predicate Executed(path: ExecutionPath) {
    match path
    case AsAdministrator(run) => run.exitCode == 0
    case Elevated(outcome) => ElevationSucceeded(outcome)
  }

  /** The warning logged for a captured run's standard error: none when it is
      blank, otherwise the trimmed text after a warning sign. */
  function WarningLines(stderr: string): (lines: seq<string>)
    ensures lines == [] <==> IsBlank(stderr)
  {
    if IsBlank(stderr) then [] else ["⚠ " + Trim(stderr)]
  }

  /** What RunPowerShell logs: the trimmed output unless blank, then the
      warning for standard error. */
  function OutputLines(r: CommandResult): (lines: seq<string>)
    ensures |lines| <= 2
    ensures lines == [] <==> IsBlank(r.stdout) && IsBlank(r.stderr)
  {
    (if IsBlank(r.stdout) then [] else [Trim(r.stdout)]) + WarningLines(r.stderr)
  }

  /** The lines logged while executing a tweak's script, whichever branch. */
  function ExecutionLines(m: Messages, path: ExecutionPath): seq<string> {
    match path
    case AsAdministrator(run) => WarningLines(run.stderr)
    case Elevated(outcome) => ElevationLines(m, outcome)
  }
}
