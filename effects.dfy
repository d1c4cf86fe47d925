/**
 * The outside world of the quickstart CLI, seen as values: the process
 * environment, the files the CLI itself writes, the command log and the
 * processes handed to the operating system. Whether a process succeeds and
 * whether a file operation fails is decided by an `Oracle`.
 */
module Effects {
  import opened Text

  datatype Option<+T> = None | Some(value: T)

  /** A command to run: a program with its arguments, or one `/bin/bash -c` string. */
  datatype Invocation =
    | Program(program: string, args: seq<string>)
    | Shell(command: string)

  /** How a spawned process ended (Unix `ExitStatus`). */
  datatype ExitStatus = Exited(code: int) | Signaled(signal: int)

  /** What the operating system does with an invocation. */
  datatype Spawn = Spawned(status: ExitStatus) | SpawnFailed

  /** The file operations `run_lint_checks` performs directly. */
  datatype FsOp = WriteFile(path: string) | SetExecutable(path: string) | RemoveFile(path: string)

  /** The failures the CLI reports (the messages of its `anyhow` errors). */
  datatype Error =
    | CommandFailed(program: string, code: Option<int>)
    | ShellFailed(code: Option<int>)
    | SpawnError(program: string)
    | MissingEnv(key: string)
    | FileError(op: FsOp)
    | NoVersion(path: string)

  datatype Result<+T> = Ok(value: T) | Err(error: Error)
  {
    predicate IsFailure()
    {
      Err?
    }

    function PropagateFailure<U>(): Result<U>
      requires Err?
    {
      Err(error)
    }

    function Extract(): T
      requires Ok?
    {
      value
    }
  }

  /** Drops the success value, keeps the error (`result.map(|_| ())`). */
  function Discard<T>(r: Result<T>): (u: Result<()>)
    ensures u.Ok? <==> r.Ok?
    ensures r.Err? ==> u.error == r.error
  {
    if r.Ok? then Ok(()) else Err(r.error)
  }

  /** Decides every process outcome and every file-operation failure. */
  datatype Oracle = Oracle(exec: Invocation -> Spawn, fsFault: FsOp -> bool)

  /** The state the CLI can observe or change. */
  datatype World = World(
    env: map<string, string>,
    files: map<string, string>,
    log: seq<string>,
    issued: seq<Invocation>)

  /** The new world after an operation, and what the operation returned. */
  datatype Effect<+T> = Effect(world: World, result: Result<T>)

  /** `status.success()`: exited with code 0. */
  predicate Success(s: ExitStatus)
  {
    s == Exited(0)
  }

  /** `status.code()`: `None` when a signal ended the process. */
  function Code(s: ExitStatus): Option<int>
  {
    match s
    case Exited(c) => Some(c)
    case Signaled(_) => None
  }

  /** The oracle lets this invocation run to a successful exit. */
  predicate Succeeds(o: Oracle, inv: Invocation)
  {
    o.exec(inv) == Spawned(Exited(0))
  }

  predicate AllSucceed(o: Oracle, invs: seq<Invocation>)
  {
    forall i :: 0 <= i < |invs| ==> Succeeds(o, invs[i])
  }

  /** The program the operating system is asked to start. */
  function ProgramOf(inv: Invocation): string
  {
    match inv
    case Program(p, _) => p
    case Shell(_) => "/bin/bash"
  }

  /** The command as `log_command!` prints it. */
  function Render(inv: Invocation): string
  {
    match inv
    case Program(p, args) => p + " " + Join(args, " ")
    case Shell(c) => c
  }

  const DRY_RUN_PREFIX := "→ Running(dry-run): "
  const LIVE_PREFIX := "→ Running: "

  /** The line `log_command!` writes before a command is run or skipped. */
  function LogLine(inv: Invocation, dryRun: bool): string
  {
    (if dryRun then DRY_RUN_PREFIX else LIVE_PREFIX) + Render(inv)
  }

  /** A dry-run log line can never be mistaken for a live one, and both carry the command. */
  lemma LogLineMarksMode(inv: Invocation, other: Invocation)
    ensures LogLine(inv, true) != LogLine(other, false)
    ensures LogLine(inv, true)[|DRY_RUN_PREFIX|..] == LogLine(inv, false)[|LIVE_PREFIX|..] == Render(inv)
  {
    assert LogLine(inv, true)[9] == '(' && LogLine(other, false)[9] == ':';
  }

  /** The error `run` / `run_shell` report for a status that is not a success. */
  function Failure(inv: Invocation, s: ExitStatus): Error
  {
    match inv
    case Program(p, _) => CommandFailed(p, Code(s))
    case Shell(_) => ShellFailed(Code(s))
  }

  /**
   * The executor behind `run` and `run_shell`: logs the command; under dry-run
   * returns a synthetic status 0 without spawning; live, hands the command to
   * the operating system and turns any unsuccessful status into an error.
   */
  function Exec(w: World, inv: Invocation, dryRun: bool, o: Oracle): (e: Effect<ExitStatus>)
    ensures e.world.env == w.env && e.world.files == w.files
    ensures e.world.log == w.log + [LogLine(inv, dryRun)]
    ensures dryRun ==> e.world.issued == w.issued && e.result == Ok(Exited(0))
    ensures !dryRun ==> e.world.issued == w.issued + [inv]
    ensures !dryRun ==> (e.result.Ok? <==> Succeeds(o, inv))
    ensures e.result.Ok? ==> Success(e.result.value)
    ensures !dryRun && o.exec(inv).Spawned? && !Success(o.exec(inv).status) ==>
              e.result == Err(Failure(inv, o.exec(inv).status))
    ensures !dryRun && o.exec(inv).SpawnFailed? ==> e.result == Err(SpawnError(ProgramOf(inv)))
  {
    var logged := w.(log := w.log + [LogLine(inv, dryRun)]);
    if dryRun then Effect(logged, Ok(Exited(0)))
    else
      var spawned := logged.(issued := logged.issued + [inv]);
      match o.exec(inv)
      case SpawnFailed => Effect(spawned, Err(SpawnError(ProgramOf(inv))))
      case Spawned(status) =>
        if Success(status) then Effect(spawned, Ok(status))
        else Effect(spawned, Err(Failure(inv, status)))
  }
}
