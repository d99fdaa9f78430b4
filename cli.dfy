/**
 * `agent/tools/cli.py`: the structured result every tool receives from a
 * command, and `run_command` reduced to what it does with the process's answer.
 */
module Cli {
  import opened Common
  import opened Text

  const DEFAULT_TIMEOUT_SECONDS: nat := 60

  /** `CommandResult`: the streams as held after `__post_init__`, and the exit code. */
  datatype CommandResult = CommandResult(stdout: string, stderr: string, returncode: int) {
    /** `CommandResult.success`. */
    predicate Success() {
      returncode == 0
    }

    /** Both streams carry no surrounding whitespace. */
    predicate Valid() {
      Stripped(stdout) && Stripped(stderr)
    }
  }

  /** Constructing a `CommandResult`: `__post_init__` strips both streams. */
  function MakeResult(stdout: string, stderr: string, returncode: int): (r: CommandResult)
    ensures r.Valid()
    ensures r.returncode == returncode
    ensures r.Success() <==> returncode == 0
  {
    StripShape(stdout);
    StripShape(stderr);
    CommandResult(Strip(stdout), Strip(stderr), returncode)
  }

  /** The stored streams are the inputs less surrounding whitespace, and nothing else. */
  lemma MakeResultTrims(stdout: string, stderr: string, returncode: int)
    ensures var r := MakeResult(stdout, stderr, returncode);
            Trimmed(stdout, r.stdout) && Trimmed(stderr, r.stderr)
  {
    StripTrims(stdout);
    StripTrims(stderr);
  }

  /** Re-constructing a result from its own fields changes nothing: stripping twice is stripping once. */
  lemma MakeResultIdempotent(stdout: string, stderr: string, returncode: int)
    ensures var r := MakeResult(stdout, stderr, returncode);
            MakeResult(r.stdout, r.stderr, r.returncode) == r
  {
    StripIdempotent(stdout);
    StripIdempotent(stderr);
  }

  /** Only the exit code decides success: exit code 2 with output on stdout is still a failure. */
  lemma SuccessIgnoresOutput(stdout: string, stderr: string, returncode: int)
    ensures MakeResult(stdout, stderr, returncode).Success() == MakeResult("", "", returncode).Success()
    ensures !MakeResult("output", "", 2).Success()
  {
  }

  /** What the process does within the time limit: exits (perhaps without a code), or does not finish. */
  datatype ProcessReply = Exited(stdout: string, stderr: string, returncode: Option<int>) | Hung

  /** How each command the tools may issue is answered, argument vector by argument vector. */
  type Processes = seq<string> -> ProcessReply

  /** The host's readable files by path; a path that is absent makes `read_text` raise `OSError`. */
  type Files = map<string, string>

  /** A call that returns its value or raises `TimeoutError` with a message. */
  datatype Attempt<+T> = Done(value: T) | TimeoutError(message: string)

  /** `proc.returncode or 0`. */
  function ExitCode(returncode: Option<int>): (code: int)
    ensures returncode.None? ==> code == 0
    ensures returncode.Some? ==> code == returncode.value
  {
    returncode.GetOr(0)
  }

  /** The message `run_command` raises on timeout; the command is written with single spaces. */
  function TimeoutMessage(args: seq<string>, timeoutSeconds: nat): string {
    "Command timed out after " + NatToString(timeoutSeconds) + "s: " + Join(args, " ")
  }

  /**
   * `run_command(*args, timeout_seconds=...)` once the process has answered:
   * a process that did not finish in time is killed and `TimeoutError`
   * is raised; otherwise its output becomes a stripped `CommandResult`.
   */
  function RunCommand(args: seq<string>, timeoutSeconds: nat, reply: ProcessReply): (r: Attempt<CommandResult>)
    ensures r.TimeoutError? <==> reply.Hung?
    ensures r.TimeoutError? ==> r.message == TimeoutMessage(args, timeoutSeconds)
    ensures r.Done? ==> r.value.Valid() && r.value.returncode == ExitCode(reply.returncode)
    ensures r.Done? ==> r.value.stdout == Strip(reply.stdout) && r.value.stderr == Strip(reply.stderr)
    ensures r.Done? && reply.returncode.None? ==> r.value.Success()
  {
    match reply
    case Hung => TimeoutError(TimeoutMessage(args, timeoutSeconds))
    case Exited(out, err, rc) => Done(MakeResult(out, err, ExitCode(rc)))
  }

  /** `await run_command(*args, timeout_seconds=...)` answered by `procs`. */
  function Run(procs: Processes, args: seq<string>, timeoutSeconds: nat): Attempt<CommandResult> {
    RunCommand(args, timeoutSeconds, procs(args))
  }
}
