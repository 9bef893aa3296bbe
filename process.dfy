/** The process runner: one external command, run to completion or until the
    timeout fires, and its outcome shaped into a uniform three-field record. */
module Process {
  import opened Text

  datatype Option<T> = None | Some(value: T)

  /** An argument vector and an optional working directory (None: the
      caller's own working directory). */
  datatype Command = Command(argv: seq<string>, cwd: Option<string>)

  /** What the operating system reports for one child process: it exited with
      a code and two captured text streams, or it outlived the 60-second budget. */
  datatype RawOutcome = Completed(returncode: int, stdout: string, stderr: string) | TimedOut

  /** The external world's answer to each command.  Spawning, waiting and
      killing are outside the model; only the answer matters. */
  type Oracle = Command -> RawOutcome

  /** The record every stage returns: `returncode`, `stdout`, `stderr`. */
  datatype ExecResult = ExecResult(returncode: int, stdout: string, stderr: string)

  const TimeoutCode: int := -2
  const TimeoutMessage: string := "Error: Execution timed out"
  const TimeoutResult: ExecResult := ExecResult(TimeoutCode, "", TimeoutMessage)

  /** `run_command`: a completed process keeps its exit code and has both
      streams stripped; a timed-out one becomes the fixed timeout record. */
  function RunCommand(run: Oracle, cmd: Command): (r: ExecResult)
    ensures Trimmed(r.stdout) && Trimmed(r.stderr)
    ensures run(cmd).TimedOut? ==> r == TimeoutResult
    ensures run(cmd).Completed? ==>
              && r.returncode == run(cmd).returncode
              && r.stdout == Strip(run(cmd).stdout)
              && r.stderr == Strip(run(cmd).stderr)
  {
    match run(cmd)
    case Completed(code, out, err) => ExecResult(code, Strip(out), Strip(err))
    case TimedOut => TimeoutResult
  }

  /** The timeout code is not reserved: Python reports a child killed by
      signal 2 as exit code -2, and one that printed the timeout text on its
      error stream is then indistinguishable from a timeout. */
  lemma TimeoutRecordNotExclusive(run: Oracle, cmd: Command)
    requires run(cmd) == Completed(-2, " \n", TimeoutMessage + "\n")
    ensures RunCommand(run, cmd) == TimeoutResult
  {
    assert " \n" == " \n"[..2] && "\n" == (TimeoutMessage + "\n")[|TimeoutMessage|..];
    StripUnique(" \n", 2, 2);
    StripUnique(TimeoutMessage + "\n", 0, |TimeoutMessage|);
  }
}
