/**
 * The quickstart command line: resolve the compose environment, then run
 * one subcommand. `Host` holds the state the program changes as it runs (the
 * process environment, the files it writes, the command log and the
 * processes it starts); each of its methods is proved to leave the state and
 * return the result the functions of the other modules describe.
 */
module Quickstart {
  import opened Effects
  import opened Environment
  import opened Lint
  import opened Startup
  import opened Teardown
  import opened Readiness

  datatype Commands = Start(options: StartOptions) | Shutdown | Wait(timeout: nat)

  /** The parsed command line (the log-level override is left out). */
  datatype Cli = Cli(dryRun: bool, dev: bool, command: Commands)

  /**
   * The command lines the model accepts: no conflicting start flags (which the
   * argument parser rejects), and a `wait` timeout whose milliseconds fit in a
   * `u64` (a bound of the model's own; the parser accepts any `u64`).
   */
  predicate ValidCli(cli: Cli)
  {
    match cli.command
    case Start(opts) => ValidStartOptions(opts)
    case Shutdown => true
    case Wait(t) => ValidTimeout(t)
  }

  /** `main` after argument parsing: the environment is resolved, then the subcommand runs in it. */
  function QuickstartRun(w: World, cli: Cli, o: Oracle): (e: Effect<()>)
    requires ValidCli(cli)
    ensures e.world.env == ResolveEnv(w.env, cli.dev)
    ensures e.world.files - {SCRIPT_FILE} == w.files - {SCRIPT_FILE}
    ensures w.log <= e.world.log && w.issued <= e.world.issued
  {
    var resolved := w.(env := ResolveEnv(w.env, cli.dev));
    match cli.command
    case Start(opts) =>
      PerformAllWellBehaved(resolved, StartPlan(opts, resolved.env), cli.dryRun, o);
      StartRun(resolved, opts, cli.dryRun, o)
    case Shutdown => ShutdownRun(resolved, cli.dryRun, o)
    case Wait(t) => WaitRun(resolved, t, cli.dryRun, o)
  }

  /**
   * Once the environment is resolved `start` never stops for a missing image
   * variable: the build and the bring-up commands are always planned.
   */
  lemma StartFindsImages(env: Env, dev: bool, opts: StartOptions)
    ensures BringUpCommands(opts, ResolveEnv(env, dev)).Ok?
    ensures GetEnvNoDefault(ResolveEnv(env, dev), "RUST_DEV_IMAGE").Ok?
  {
    ResolveEnvProvidesKeys(env, dev);
    assert COMPOSE_KEYS[0] == "RUST_DEV_IMAGE" && COMPOSE_KEYS[1] == "FE_BASE_IMAGE" && COMPOSE_KEYS[3] == "FE_SERVER_IMAGE";
  }

  /** Under `--dry-run` the only process any subcommand starts is the lint script's `cat`. */
  lemma DryRunStartsOnlyCat(w: World, cli: Cli, o: Oracle)
    requires ValidCli(cli) && cli.dryRun
    ensures var e := QuickstartRun(w, cli, o);
      forall i :: |w.issued| <= i < |e.world.issued| ==> e.world.issued[i] == CAT_SCRIPT
  {
    if cli.command.Start? {
      var resolved := w.(env := ResolveEnv(w.env, cli.dev));
      PerformAllWellBehaved(resolved, StartPlan(cli.command.options, resolved.env), true, o);
    }
  }

  /**
   * `quickstart --dry-run start --lint none`: succeeds, starts no process,
   * writes no file, and logs as skipped the build of the server image named
   * by the resolved environment, then bring-up, health wait, schema load,
   * admin user and server start.
   */
  lemma DryRunStartScenario(w: World, dev: bool, forceRebuild: bool, o: Oracle)
    ensures var opts := StartOptions(LintMode.None, false, false, forceRebuild, false);
      var e := QuickstartRun(w, Cli(true, dev, Start(opts)), o);
      var r := ResolveEnv(w.env, dev);
      && "FE_BASE_IMAGE" in r && "FE_SERVER_IMAGE" in r
      && e.result.Ok?
      && e.world.issued == w.issued && e.world.files == w.files
      && e.world.log == w.log
           + [LogLine(Shell(BuildCommand("", r["FE_BASE_IMAGE"], Cr8sVersion(r), r["FE_SERVER_IMAGE"])), true)]
           + CommandLog(BRING_UP, true)
  {
    var opts := StartOptions(LintMode.None, false, false, forceRebuild, false);
    var resolved := w.(env := ResolveEnv(w.env, dev));
    StartFindsImages(w.env, dev, opts);
    StartDryRunNoLint(resolved, opts, o);
  }

  /**
   * `quickstart --dry-run start --lint none` with any other start flags:
   * succeeds, starts no process, writes no file, and logs as skipped the
   * teardown (for a fresh start) and then the bring-up commands planned over
   * the resolved environment.
   */
  lemma DryRunStartLogsPlan(w: World, dev: bool, opts: StartOptions, o: Oracle)
    requires ValidStartOptions(opts) && opts.lint == LintMode.None
    ensures var r := ResolveEnv(w.env, dev);
      var e := QuickstartRun(w, Cli(true, dev, Start(opts)), o);
      && BringUpCommands(opts, r).Ok?
      && e.result.Ok?
      && e.world.issued == w.issued && e.world.files == w.files
      && e.world.log == w.log + CommandLog(DownStep(opts), true) + CommandLog(BringUpCommands(opts, r).value, true)
  {
    var resolved := w.(env := ResolveEnv(w.env, dev));
    StartFindsImages(w.env, dev, opts);
    StartDryRunLogsPlan(resolved, opts, o);
  }

  /** The program's mutable surroundings. */
  class Host {
    var env: Env
    var files: map<string, string>
    var log: seq<string>
    var issued: seq<Invocation>
    const oracle: Oracle

    function State(): World
      reads this
    {
      World(env, files, log, issued)
    }

    constructor(w: World, o: Oracle)
      ensures State() == w && oracle == o
    {
      env, files, log, issued := w.env, w.files, w.log, w.issued;
      oracle := o;
    }

    /** `log_command!`: one line naming the command and whether it is skipped. */
    method LogCommand(inv: Invocation, dryRun: bool)
      modifies this
      ensures State() == old(State()).(log := old(log) + [LogLine(inv, dryRun)])
    {
      log := log + [LogLine(inv, dryRun)];
    }

    /** `run`: a program with arguments. */
    method Run(program: string, args: seq<string>, dryRun: bool) returns (r: Result<ExitStatus>)
      modifies this
      ensures Effect(State(), r) == Exec(old(State()), Program(program, args), dryRun, oracle)
    {
      LogCommand(Program(program, args), dryRun);
      if dryRun {
        return Ok(Exited(0));
      }
      issued := issued + [Program(program, args)];
      match oracle.exec(Program(program, args))
      case SpawnFailed =>
        return Err(SpawnError(program));
      case Spawned(status) =>
        if !Success(status) {
          return Err(CommandFailed(program, Code(status)));
        }
        return Ok(status);
    }

    /** `run_shell`: one command string given to `/bin/bash -c`. */
    method RunShell(command: string, dryRun: bool) returns (r: Result<ExitStatus>)
      modifies this
      ensures Effect(State(), r) == Exec(old(State()), Shell(command), dryRun, oracle)
    {
      LogCommand(Shell(command), dryRun);
      if dryRun {
        return Ok(Exited(0));
      }
      issued := issued + [Shell(command)];
      match oracle.exec(Shell(command))
      case SpawnFailed =>
        return Err(SpawnError("/bin/bash"));
      case Spawned(status) =>
        if !Success(status) {
          return Err(ShellFailed(Code(status)));
        }
        return Ok(status);
    }

    /** `setup_env_for_compose`: sets each unset compose key to its default, in table order. */
    method SetupEnvForCompose(isDev: bool)
      modifies this
      ensures State() == old(State()).(env := ResolveEnv(old(env), isDev))
    {
      var rustDevImage := GetEnvWithDefault(env, "RUST_DEV_IMAGE", RUST_DEV_IMAGE_DEFAULT);
      var defaults := DefaultTable(rustDevImage, Cr8sVersion(env), isDev);
      ghost var env0 := env;
      for i := 0 to |defaults|
        invariant env == Install(env0, defaults[..i])
        invariant files == old(files) && log == old(log) && issued == old(issued)
      {
        assert defaults[..i + 1][..i] == defaults[..i];
        var (key, default) := defaults[i];
        if key !in env {
          env := env[key := default];
        }
      }
      assert defaults[..|defaults|] == defaults;
    }

    /** `run_lint_checks`. */
    method RunLintChecks(mode: LintMode, dryRun: bool) returns (r: Result<()>)
      modifies this
      ensures Effect(State(), r) == LintRun(old(State()), mode, dryRun, oracle)
    {
      var body := SCRIPT_HEADER;
      body := body + [FMT_CHECK];
      match mode {
        case None =>
          return Ok(());
        case Basic =>
          body := body + [CLIPPY_STRICT];
        case Full =>
          body := body + [CLIPPY_ALL_FEATURES];
          body := body + [AUDIT];
          body := body + [OUTDATED];
      }
      assert body == ScriptBody(mode).value;
      if oracle.fsFault(WriteFile(SCRIPT_FILE)) {
        return Err(FileError(WriteFile(SCRIPT_FILE)));
      }
      files := files[SCRIPT_FILE := Script(body)];
      if oracle.fsFault(SetExecutable(SCRIPT_FILE)) {
        return Err(FileError(SetExecutable(SCRIPT_FILE)));
      }
      var rustDevImage :- GetEnvNoDefault(env, "RUST_DEV_IMAGE");
      var result := RunShell(ContainerCommand(env, rustDevImage), dryRun);
      var shown :- RunShell(CAT_SCRIPT.command, false);
      if !oracle.fsFault(RemoveFile(SCRIPT_FILE)) {
        files := files - {SCRIPT_FILE};
      }
      return Discard(result);
    }

    /**
     * One step of a plan whose earlier steps all succeeded: a command is
     * `run` or `run_shell` with its status dropped, a lint step is
     * `run_lint_checks`. Failure makes this step's outcome the plan's outcome.
     */
    method RunStep(a: Action, dryRun: bool, ghost w0: World, ghost plan: seq<Action>, ghost k: nat)
      returns (r: Result<()>)
      requires k < |plan| && plan[k] == a && !a.Abort?
      requires PerformAll(w0, plan[..k], dryRun, oracle) == Effect(State(), Ok(()))
      modifies this
      ensures r.Ok? ==> PerformAll(w0, plan[..k + 1], dryRun, oracle) == Effect(State(), Ok(()))
      ensures r.Err? ==> PerformAll(w0, plan, dryRun, oracle) == Effect(State(), r)
      ensures env == old(env)
    {
      ghost var before := State();
      match a {
        case Command(Program(program, args)) =>
          var status := Run(program, args, dryRun);
          r := Discard(status);
        case Command(Shell(command)) =>
          var status := RunShell(command, dryRun);
          r := Discard(status);
        case LintChecks(mode) =>
          r := RunLintChecks(mode, dryRun);
      }
      assert Effect(State(), r) == Perform(before, a, dryRun, oracle);
      StepOutcome(w0, plan, k, dryRun, oracle);
    }

    /**
     * `start`: the fail-fast startup sequence. Each step is one call, `?`
     * included; the ghost index `k` counts the steps done so far.
     */
    method Start(opts: StartOptions, dryRun: bool) returns (r: Result<()>)
      modifies this
      ensures Effect(State(), r) == StartRun(old(State()), opts, dryRun, oracle)
    {
      ghost var w0 := State();
      ghost var plan := StartPlan(opts, env);
      ghost var k: nat := 0;
      assert plan[..0] == [];
      if opts.freshStart {
        var down :- RunStep(Command(COMPOSE_DOWN_VOLUMES), dryRun, w0, plan, k);
        k := k + 1;
      }
      var linted :- RunStep(LintChecks(opts.lint), dryRun, w0, plan, k);
      k := k + 1;
      r := BuildAndBringUp(opts, dryRun, w0, plan, k);
    }

    /** The part of `start` after the lint step: the image build, the optional pull and the bring-up commands. */
    method BuildAndBringUp(opts: StartOptions, dryRun: bool, ghost w0: World, ghost plan: seq<Action>, ghost k: nat)
      returns (r: Result<()>)
      requires plan == StartPlan(opts, w0.env) && k == |DownStep(opts)| + 1 && env == w0.env
      requires PerformAll(w0, plan[..k], dryRun, oracle) == Effect(State(), Ok(()))
      modifies this
      ensures Effect(State(), r) == PerformAll(w0, plan, dryRun, oracle)
    {
      var noCache := if opts.noCache || opts.freshStart then "--no-cache" else "";
      var cr8sVersion := Cr8sVersion(env);
      if "FE_BASE_IMAGE" !in env || "FE_SERVER_IMAGE" !in env {
        AbortStep(w0, plan, k, dryRun, oracle);
      }
      var feBaseImage :- GetEnvNoDefault(env, "FE_BASE_IMAGE");
      var feServerImage :- GetEnvNoDefault(env, "FE_SERVER_IMAGE");
      StartPlanSteps(opts, w0.env);
      assert noCache == NoCacheFlag(opts) && cr8sVersion == Cr8sVersion(w0.env);
      assert feBaseImage == w0.env["FE_BASE_IMAGE"] && feServerImage == w0.env["FE_SERVER_IMAGE"];
      r := BuildAndPull(BuildCommand(noCache, feBaseImage, cr8sVersion, feServerImage), opts.freshStart || opts.forcePull, dryRun, w0, plan, k);
    }

    /** The image build, then the pull when fresh or forced, then the bring-up commands. */
    method BuildAndPull(build: string, pull: bool, dryRun: bool, ghost w0: World, ghost plan: seq<Action>, ghost i: nat)
      returns (r: Result<()>)
      requires i + (if pull then 2 else 1) <= |plan|
      requires plan[i] == Command(Shell(build)) && (pull ==> plan[i + 1] == Command(PULL_IMAGES))
      requires plan[i + (if pull then 2 else 1)..] == Steps(BRING_UP)
      requires PerformAll(w0, plan[..i], dryRun, oracle) == Effect(State(), Ok(()))
      modifies this
      ensures Effect(State(), r) == PerformAll(w0, plan, dryRun, oracle)
    {
      var built :- RunStep(Command(Shell(build)), dryRun, w0, plan, i);
      if pull {
        var pulled :- RunStep(Command(PULL_IMAGES), dryRun, w0, plan, i + 1);
        r := BringUp(dryRun, w0, plan, i + 2);
      } else {
        r := BringUp(dryRun, w0, plan, i + 1);
      }
    }

    /** The last five commands of `start`: bring-up, health wait, schema load, admin user, server. */
    method BringUp(dryRun: bool, ghost w0: World, ghost plan: seq<Action>, ghost i: nat) returns (r: Result<()>)
      requires i <= |plan| && plan[i..] == Steps(BRING_UP)
      requires PerformAll(w0, plan[..i], dryRun, oracle) == Effect(State(), Ok(()))
      modifies this
      ensures Effect(State(), r) == PerformAll(w0, plan, dryRun, oracle)
    {
      ghost var tail := Steps(BRING_UP);
      assert |plan| == i + 5;
      assert plan[i] == tail[0] && plan[i + 1] == tail[1] && plan[i + 2] == tail[2];
      assert plan[i + 3] == tail[3] && plan[i + 4] == tail[4];
      var up :- RunStep(Command(COMPOSE_UP), dryRun, w0, plan, i);
      var healthy :- RunStep(Command(COMPOSE_WAIT), dryRun, w0, plan, i + 1);
      var loaded :- RunStep(Command(LOAD_SCHEMA), dryRun, w0, plan, i + 2);
      var created :- RunStep(Command(CREATE_ADMIN), dryRun, w0, plan, i + 3);
      var served :- RunStep(Command(START_SERVER), dryRun, w0, plan, i + 4);
      assert plan[..i + 5] == plan;
      return Ok(());
    }

    /** `wait_for_frontend`. */
    method WaitForFrontend(timeoutSecs: nat, dryRun: bool) returns (r: Result<()>)
      requires ValidTimeout(timeoutSecs)
      modifies this
      ensures Effect(State(), r) == WaitRun(old(State()), timeoutSecs, dryRun, oracle)
    {
      var timeoutMs := timeoutSecs * 1000;
      var status :- RunShell(WaitCommand(timeoutMs).command, dryRun);
      return Ok(());
    }

    /** The `Shutdown` arm of `main`: a failed cleanup is only a warning. */
    method Shutdown(dryRun: bool) returns (r: Result<()>)
      modifies this
      ensures Effect(State(), r) == ShutdownRun(old(State()), dryRun, oracle)
    {
      var down :- RunShell(COMPOSE_DOWN.command, dryRun);
      var cleanup := RunShell(CleanupCommand(env).command, dryRun);
      return Ok(());
    }

    /** `main` after argument parsing. */
    method Execute(cli: Cli) returns (r: Result<()>)
      requires ValidCli(cli)
      modifies this
      ensures Effect(State(), r) == QuickstartRun(old(State()), cli, oracle)
    {
      SetupEnvForCompose(cli.dev);
      match cli.command
      case Start(opts) =>
        r := Start(opts, cli.dryRun);
      case Shutdown =>
        r := Shutdown(cli.dryRun);
      case Wait(timeout) =>
        r := WaitForFrontend(timeout, cli.dryRun);
    }
  }
}
