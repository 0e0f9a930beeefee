/** What a script run leaves behind: the lines it printed to standard output and how
    the process ended. `print` appends one line; `exit(n)` and falling off the end of
    the script end the run with a code; an exception nobody catches ends it with a
    traceback on standard error, which the Python interpreter reports as exit code 1. */
module Process {

  /** The exceptions the modelled scripts can let escape. */
  datatype PyException =
    | FileNotFoundError | IsADirectoryError | PermissionError | UnicodeDecodeError
    | ValueError | KeyError | TypeError | AttributeError

  datatype Status = Exited(code: int) | Raised(exception: PyException)

  datatype Outcome = Outcome(lines: seq<string>, status: Status)

  /** The process exit code the invoking workflow observes. */
  function ExitCode(o: Outcome): (code: int)
    ensures o.status.Raised? ==> code == 1
    ensures o.status.Exited? ==> code == o.status.code
  {
    match o.status
    case Exited(c) => c
    case Raised(_) => 1
  }

  /** The text on standard output: every printed line followed by a newline, as
      `print` writes it. */
  function Stdout(lines: seq<string>): (out: string)
    ensures lines == [] ==> out == ""
    ensures |lines| == 1 ==> out == lines[0] + "\n"
  {
    if lines == [] then "" else lines[0] + "\n" + Stdout(lines[1..])
  }
}
