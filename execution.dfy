/**
  The parts of telepresence's `Runner` that the startup and proxy code lean
  on: running an external command and getting its output, reporting a fatal
  failure, and writing a line to the log.  What a command does is not
  modelled: it comes from an oracle, the `world`, that gives the outcome of
  the n-th command run for a given argument vector.
*/
module Execution {
  import opened Messages

  /**
    What running a command gives: its output; a non-zero exit, which
    Python raises as `CalledProcessError`, with the text of that exception
    and the captured output; or a failure to start the command at all,
    which Python raises as `OSError`.
  */
  datatype Run =
    | Completed(output: string)
    | NonZeroExit(description: string, output: string)
    | OsError(description: string)

  /**
    How a step can end early: `Fatal` is `raise runner.fail(message)`, the
    user-facing abort, with the message's kind; `Crash` is a Python exception nothing catches, named
    by its class.
  */
  datatype Failure = Fatal(message: Message) | Crash(exception: Exception)

  /** The Python exception classes the core lets escape; `Other` is any further class, by name. */
  datatype Exception =
    | AssertionError
    | AttributeError
    | CalledProcessError
    | IndexError
    | OSError
    | ValueError
    | Other(name: string)

  datatype Option<+T> = None | Some(value: T) {
    function GetOr(default: T): T
    {
      if Some? then value else default
    }
  }

  datatype Result<+T> = Ok(value: T) | Err(failure: Failure) {
    predicate IsFailure() {
      Err?
    }

    function PropagateFailure<U>(): Result<U>
      requires Err?
    {
      Err(failure)
    }

    function Extract(): T
      requires Ok?
    {
      value
    }
  }

  /** The outcome of the command with the given position in the run and argument vector. */
  type World = (nat, seq<string>) -> Run

  /** The exception that escapes when a command that is not allowed to fail fails. */
  function Escaped(run: Run): (r: Failure)
    requires !run.Completed?
    ensures r.Crash?
    ensures r.exception == CalledProcessError <==> run.NonZeroExit?
  {
    if run.NonZeroExit? then Crash(CalledProcessError) else Crash(OSError)
  }

  /**
    The `check_call` outcome of a run: it passes only when the command
    completes, and otherwise lets the exception escape.
  */
  function Checked(run: Run): (r: Result<()>)
    ensures r.Ok? <==> run.Completed?
    ensures r.Err? ==> r.failure == Escaped(run)
  {
    if run.Completed? then Ok(()) else Err(Escaped(run))
  }

  class Runner {
    /** The outcome of every command this runner could run. */
    const world: World
    /** Every command run so far, in order. */
    var log: seq<seq<string>>
    /** Every line written to the log file so far, in order. */
    var written: seq<string>

    constructor (world: World)
      ensures this.world == world && log == [] && written == []
    {
      this.world := world;
      log := [];
      written := [];
    }

    /** `runner.get_output(argv)` (and `runner.check_call(argv)`): runs one command. */
    method GetOutput(argv: seq<string>) returns (run: Run)
      modifies this
      ensures run == world(|old(log)|, argv)
      ensures log == old(log) + [argv] && written == old(written)
    {
      run := world(|log|, argv);
      log := log + [argv];
    }

    /** `runner.write(line)`: records one line in the log file. */
    method Write(line: string)
      modifies this
      ensures written == old(written) + [line] && log == old(log)
    {
      written := written + [line];
    }
  }
}
