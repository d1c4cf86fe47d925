/**
 * `start`: a linear, fail-fast sequence of commands whose optional steps
 * are chosen by the start flags. The sequence is a plan of actions; the
 * first action that fails ends the run with its error.
 */
module Startup {
  import opened Effects
  import opened Environment
  import opened Lint

  datatype StartOptions = StartOptions(
    lint: LintMode,
    noCache: bool,
    forcePull: bool,
    forceRebuild: bool,
    freshStart: bool)

  /** The argument parser refuses `--fresh` together with `--force-rebuild`, `--force-pull` or `--no-cache`. */
  predicate ValidStartOptions(opts: StartOptions)
  {
    opts.freshStart ==> !opts.forceRebuild && !opts.forcePull && !opts.noCache
  }

  /** One step of a sequence: a command, the lint orchestrator, or a failure found before any command. */
  datatype Action = Command(inv: Invocation) | LintChecks(mode: LintMode) | Abort(error: Error)

  const COMPOSE_DOWN_VOLUMES := Program("docker", ["compose", "down", "-v"])
  const PULL_IMAGES := Shell("docker compose pull postgres redis server")
  const COMPOSE_UP := Shell("docker compose up -d")
  const COMPOSE_WAIT := Shell("docker compose up --wait")
  const LOAD_SCHEMA := Shell("docker compose run -q --rm cli load-schema")
  const CREATE_ADMIN := Shell(
    "docker compose run -q --rm cli create-user --username admin@example.com"
    + " --password password123 --roles admin,editor,viewer")
  const START_SERVER := Shell("docker compose up -d server")

  /** The commands that follow the image build. */
  const BRING_UP: seq<Invocation> := [COMPOSE_UP, COMPOSE_WAIT, LOAD_SCHEMA, CREATE_ADMIN, START_SERVER]

  /** The build bypasses the layer cache when `--no-cache` or `--fresh` is given. */
  function NoCacheFlag(opts: StartOptions): (flag: string)
    ensures flag == "--no-cache" || flag == ""
    ensures flag == "--no-cache" <==> opts.noCache || opts.freshStart
  {
    if opts.noCache || opts.freshStart then "--no-cache" else ""
  }

  /** The front-end server image build. */
  function BuildCommand(noCache: string, baseImage: string, version: string, serverImage: string): string
  {
    "docker build " + noCache
    + " --build-arg FE_BASE_IMAGE=" + baseImage
    + " --build-arg CR8S_VERSION=" + version
    + " -f Dockerfile.fe-server -t " + serverImage + " ."
  }

  /** Each invocation as a command step. */
  function Steps(invs: seq<Invocation>): (plan: seq<Action>)
    ensures |plan| == |invs|
    ensures forall i :: 0 <= i < |invs| ==> plan[i] == Command(invs[i])
  {
    if invs == [] then [] else [Command(invs[0])] + Steps(invs[1..])
  }

  /**
   * The commands after the lint step. The build needs `FE_BASE_IMAGE` and
   * `FE_SERVER_IMAGE`, read in that order; a missing one is the error.
   */
  function BringUpCommands(opts: StartOptions, env: Env): (r: Result<seq<Invocation>>)
    ensures "FE_BASE_IMAGE" !in env ==> r == Err(MissingEnv("FE_BASE_IMAGE"))
    ensures "FE_BASE_IMAGE" in env && "FE_SERVER_IMAGE" !in env ==> r == Err(MissingEnv("FE_SERVER_IMAGE"))
    ensures r.Ok? <==> "FE_BASE_IMAGE" in env && "FE_SERVER_IMAGE" in env
    ensures r.Ok? ==>
      && |r.value| == 6 + (if opts.freshStart || opts.forcePull then 1 else 0)
      && r.value[0] == Shell(BuildCommand(NoCacheFlag(opts), env["FE_BASE_IMAGE"], Cr8sVersion(env), env["FE_SERVER_IMAGE"]))
      && (opts.freshStart || opts.forcePull ==> r.value[1] == PULL_IMAGES)
      && r.value[|r.value| - 5..] == BRING_UP
  {
    var baseImage :- GetEnvNoDefault(env, "FE_BASE_IMAGE");
    var serverImage :- GetEnvNoDefault(env, "FE_SERVER_IMAGE");
    var build := Shell(BuildCommand(NoCacheFlag(opts), baseImage, Cr8sVersion(env), serverImage));
    Ok([build] + (if opts.freshStart || opts.forcePull then [PULL_IMAGES] else []) + BRING_UP)
  }

  /**
   * The whole startup sequence: teardown only when fresh, then lint, then
   * the build and the bring-up commands, or the error that stops them.
   */
  function StartPlan(opts: StartOptions, env: Env): (plan: seq<Action>)
    ensures |plan| >= 2
    ensures plan[0] == Command(COMPOSE_DOWN_VOLUMES) <==> opts.freshStart
    ensures plan[if opts.freshStart then 1 else 0] == LintChecks(opts.lint)
    ensures BringUpCommands(opts, env).Err? ==>
              |plan| == (if opts.freshStart then 3 else 2) && plan[|plan| - 1] == Abort(BringUpCommands(opts, env).error)
    ensures BringUpCommands(opts, env).Ok? ==>
              plan[if opts.freshStart then 2 else 1..] == Steps(BringUpCommands(opts, env).value)
  {
    Steps(DownStep(opts))
    + [LintChecks(opts.lint)]
    + match BringUpCommands(opts, env)
      case Ok(invs) => Steps(invs)
      case Err(e) => [Abort(e)]
  }

  /** `--force-rebuild` is accepted but never read: it does not change the plan. */
  lemma ForceRebuildIgnored(opts: StartOptions, env: Env, forceRebuild: bool)
    ensures StartPlan(opts.(forceRebuild := forceRebuild), env) == StartPlan(opts, env)
  {
  }

  /**
   * What a step or a sequence may do: the environment is untouched, no
   * file other than the lint script changes, the log and the list of
   * started processes only grow, success means every process started along
   * the way succeeded, and under dry-run the only process started is the
   * lint script's `cat`.
   */
  predicate WellBehaved(w: World, e: Effect<()>, dryRun: bool, o: Oracle)
  {
    && e.world.env == w.env
    && e.world.files - {SCRIPT_FILE} == w.files - {SCRIPT_FILE}
    && w.log <= e.world.log
    && w.issued <= e.world.issued
    && (e.result.Ok? ==> AllSucceed(o, e.world.issued[|w.issued|..]))
    && (dryRun ==> forall i :: |w.issued| <= i < |e.world.issued| ==> e.world.issued[i] == CAT_SCRIPT)
  }

  lemma WellBehavedChain(w: World, mid: Effect<()>, e: Effect<()>, dryRun: bool, o: Oracle)
    requires WellBehaved(w, mid, dryRun, o) && mid.result.Ok? && WellBehaved(mid.world, e, dryRun, o)
    ensures WellBehaved(w, e, dryRun, o)
  {
    var a, b, c := w.issued, mid.world.issued, e.world.issued;
    assert c[|a|..] == b[|a|..] + c[|b|..];
    if e.result.Ok? {
      forall i | 0 <= i < |c[|a|..]| ensures Succeeds(o, c[|a|..][i]) {
        if i < |b| - |a| {
          assert c[|a|..][i] == b[|a|..][i];
        } else {
          assert c[|a|..][i] == c[|b|..][i - (|b| - |a|)];
        }
      }
    }
  }

  /** One step. A command's exit status is dropped; a lint step is `run_lint_checks`. */
  function Perform(w: World, a: Action, dryRun: bool, o: Oracle): Effect<()>
  {
    match a
    case Command(inv) =>
      var x := Exec(w, inv, dryRun, o);
      Effect(x.world, Discard(x.result))
    case LintChecks(mode) => LintRun(w, mode, dryRun, o)
    case Abort(err) => Effect(w, Err(err))
  }

  /** Runs the steps in order and stops at the first one that fails (Rust's `?`). */
  function PerformAll(w: World, plan: seq<Action>, dryRun: bool, o: Oracle): Effect<()>
    decreases |plan|
  {
    if plan == [] then Effect(w, Ok(()))
    else
      var first := Perform(w, plan[0], dryRun, o);
      if first.result.Err? then first
      else PerformAll(first.world, plan[1..], dryRun, o)
  }

  /**
   * A single step leaves the environment alone, only extends the log and the
   * process list, succeeds only when every process it started succeeded, and
   * under dry-run starts nothing but the lint script's `cat`.
   */
  lemma PerformWellBehaved(w: World, a: Action, dryRun: bool, o: Oracle)
    ensures WellBehaved(w, Perform(w, a, dryRun, o), dryRun, o)
  {
    if a.Command? {
      var x := Exec(w, a.inv, dryRun, o);
      assert x.world.issued[|w.issued|..] == if dryRun then [] else [a.inv];
    }
  }

  /** The same holds for a whole fail-fast sequence, step by step. */
  lemma {:induction false} PerformAllWellBehaved(w: World, plan: seq<Action>, dryRun: bool, o: Oracle)
    ensures WellBehaved(w, PerformAll(w, plan, dryRun, o), dryRun, o)
    decreases |plan|
  {
    if plan == [] {
      assert w.issued[|w.issued|..] == [];
    } else {
      var first := Perform(w, plan[0], dryRun, o);
      PerformWellBehaved(w, plan[0], dryRun, o);
      if first.result.Ok? {
        PerformAllWellBehaved(first.world, plan[1..], dryRun, o);
        WellBehavedChain(w, first, PerformAll(first.world, plan[1..], dryRun, o), dryRun, o);
      }
    }
  }

  /**
   * Fail-fast composition: running `p` then `q` is running `p` and, only if
   * it succeeded, `q` from where `p` left the world.
   */
  lemma {:induction false} PerformAllAppend(w: World, p: seq<Action>, q: seq<Action>, dryRun: bool, o: Oracle)
    ensures PerformAll(w, p + q, dryRun, o) ==
      var first := PerformAll(w, p, dryRun, o);
      if first.result.Err? then first else PerformAll(first.world, q, dryRun, o)
    decreases |p|
  {
    if p == [] {
      assert p + q == q;
    } else {
      assert (p + q)[0] == p[0];
      assert (p + q)[1..] == p[1..] + q;
      var e := Perform(w, p[0], dryRun, o);
      if e.result.Ok? {
        PerformAllAppend(e.world, p[1..], q, dryRun, o);
      }
    }
  }

  /**
   * The first failing step decides the run: its error is the result, and the
   * world is the one it left, so no later step is performed.
   */
  lemma FirstFailureStops(w: World, pre: seq<Action>, a: Action, post: seq<Action>, dryRun: bool, o: Oracle)
    requires PerformAll(w, pre, dryRun, o).result.Ok?
    requires Perform(PerformAll(w, pre, dryRun, o).world, a, dryRun, o).result.Err?
    ensures PerformAll(w, pre + [a] + post, dryRun, o) == Perform(PerformAll(w, pre, dryRun, o).world, a, dryRun, o)
  {
    var mid := PerformAll(w, pre, dryRun, o).world;
    PerformAllAppend(w, pre + [a], post, dryRun, o);
    PerformAllAppend(w, pre, [a], dryRun, o);
    assert [a][1..] == [];
  }

  /**
   * Stepping through a plan: after a successful prefix `done`, performing the
   * next step either extends the successful prefix or, when it fails, is
   * already the outcome of the whole plan.
   */
  lemma Advance(w: World, done: seq<Action>, todo: seq<Action>, dryRun: bool, o: Oracle)
    requires |todo| > 0 && PerformAll(w, done, dryRun, o).result.Ok?
    ensures Perform(PerformAll(w, done, dryRun, o).world, todo[0], dryRun, o).result.Ok? ==>
              PerformAll(w, done + [todo[0]], dryRun, o) == Perform(PerformAll(w, done, dryRun, o).world, todo[0], dryRun, o)
    ensures Perform(PerformAll(w, done, dryRun, o).world, todo[0], dryRun, o).result.Err? ==>
              PerformAll(w, done + todo, dryRun, o) == Perform(PerformAll(w, done, dryRun, o).world, todo[0], dryRun, o)
  {
    var a, later := todo[0], todo[1..];
    AdvanceOne(w, done, a, dryRun, o);
    if PerformAll(w, done + [a], dryRun, o).result.Err? {
      assert todo == [a] + later;
      StopAtFailureSplit(w, done, a, later, dryRun, o);
    }
  }

  /** Step `k` of a plan whose first `k` steps succeeded either extends the successful prefix or decides the plan. */
  lemma StepOutcome(w: World, plan: seq<Action>, k: nat, dryRun: bool, o: Oracle)
    requires k < |plan| && PerformAll(w, plan[..k], dryRun, o).result.Ok?
    ensures var e := Perform(PerformAll(w, plan[..k], dryRun, o).world, plan[k], dryRun, o);
      && (e.result.Ok? ==> PerformAll(w, plan[..k + 1], dryRun, o) == e)
      && (e.result.Err? ==> PerformAll(w, plan, dryRun, o) == e)
  {
    Advance(w, plan[..k], plan[k..], dryRun, o);
    assert plan[..k] + [plan[k]] == plan[..k + 1];
    assert plan[..k] + plan[k..] == plan;
  }

  lemma AdvanceOne(w: World, done: seq<Action>, a: Action, dryRun: bool, o: Oracle)
    requires PerformAll(w, done, dryRun, o).result.Ok?
    ensures PerformAll(w, done + [a], dryRun, o) == Perform(PerformAll(w, done, dryRun, o).world, a, dryRun, o)
  {
    PerformAllAppend(w, done, [a], dryRun, o);
    PerformAllSingle(PerformAll(w, done, dryRun, o).world, a, dryRun, o);
  }

  lemma StopAtFailureSplit(w: World, done: seq<Action>, a: Action, later: seq<Action>, dryRun: bool, o: Oracle)
    requires PerformAll(w, done + [a], dryRun, o).result.Err?
    ensures PerformAll(w, done + ([a] + later), dryRun, o) == PerformAll(w, done + [a], dryRun, o)
  {
    StopAtFailure(w, done + [a], later, dryRun, o);
    assert done + ([a] + later) == (done + [a]) + later;
  }

  /** Once a prefix has failed, nothing after it is performed. */
  lemma StopAtFailure(w: World, p: seq<Action>, q: seq<Action>, dryRun: bool, o: Oracle)
    requires PerformAll(w, p, dryRun, o).result.Err?
    ensures PerformAll(w, p + q, dryRun, o) == PerformAll(w, p, dryRun, o)
  {
    PerformAllAppend(w, p, q, dryRun, o);
  }

  lemma PerformAllSingle(w: World, a: Action, dryRun: bool, o: Oracle)
    ensures PerformAll(w, [a], dryRun, o) == Perform(w, a, dryRun, o)
  {
    assert [a][0] == a && [a][1..] == [];
  }

  /**
   * The plan of `start` position by position, when both images are set:
   * after the optional teardown comes the lint step, then the build, the
   * optional pull, and the five bring-up commands last.
   */
  lemma StartPlanSteps(opts: StartOptions, env: Env)
    requires "FE_BASE_IMAGE" in env && "FE_SERVER_IMAGE" in env
    ensures var plan := StartPlan(opts, env);
      var i := |DownStep(opts)| + 1;
      var pull := opts.freshStart || opts.forcePull;
      && i + (if pull then 2 else 1) <= |plan|
      && (opts.freshStart ==> plan[0] == Command(COMPOSE_DOWN_VOLUMES))
      && plan[i - 1] == LintChecks(opts.lint)
      && plan[i] == Command(Shell(BuildCommand(NoCacheFlag(opts), env["FE_BASE_IMAGE"], Cr8sVersion(env), env["FE_SERVER_IMAGE"])))
      && (pull ==> plan[i + 1] == Command(PULL_IMAGES))
      && plan[i + (if pull then 2 else 1)..] == Steps(BRING_UP)
  {
    var plan := StartPlan(opts, env);
    var d := |DownStep(opts)|;
    var invs := BringUpCommands(opts, env).value;
    assert plan[d + 1..] == Steps(invs);
    forall j | 0 <= j < 5 ensures plan[d + 2 + |invs| - 6..][j] == Steps(BRING_UP)[j] {
      assert invs[|invs| - 5 + j] == BRING_UP[j];
      assert plan[d + 1..][|invs| - 5 + j] == Steps(invs)[|invs| - 5 + j];
    }
  }

  /** After a successful prefix, a step that aborts is the outcome of the whole plan. */
  lemma AbortStep(w: World, plan: seq<Action>, k: nat, dryRun: bool, o: Oracle)
    requires k < |plan| && plan[k].Abort? && PerformAll(w, plan[..k], dryRun, o).result.Ok?
    ensures PerformAll(w, plan, dryRun, o) == Effect(PerformAll(w, plan[..k], dryRun, o).world, Err(plan[k].error))
  {
    Advance(w, plan[..k], plan[k..], dryRun, o);
    assert plan[..k] + plan[k..] == plan;
  }

  /** A run that succeeded is made of steps that all succeeded, each from where the previous one left off. */
  lemma {:induction false} PerformAllOk(w: World, plan: seq<Action>, dryRun: bool, o: Oracle)
    ensures PerformAll(w, plan, dryRun, o).result.Ok? <==>
      forall k :: 0 <= k < |plan| ==> Perform(PerformAll(w, plan[..k], dryRun, o).world, plan[k], dryRun, o).result.Ok?
    decreases |plan|
  {
    if plan != [] {
      var first := Perform(w, plan[0], dryRun, o);
      assert plan[..0] == [];
      if first.result.Ok? {
        PerformAllOk(first.world, plan[1..], dryRun, o);
        forall k | 1 <= k < |plan|
          ensures PerformAll(w, plan[..k], dryRun, o) == PerformAll(first.world, plan[1..][..k - 1], dryRun, o)
          ensures plan[k] == plan[1..][k - 1]
        {
          PrefixAfterFirst(w, plan, k, dryRun, o);
        }
      }
    }
  }

  /** A prefix of a plan whose first step succeeded runs on from where that step left the world. */
  lemma PrefixAfterFirst(w: World, plan: seq<Action>, k: nat, dryRun: bool, o: Oracle)
    requires 1 <= k <= |plan| && Perform(w, plan[0], dryRun, o).result.Ok?
    ensures PerformAll(w, plan[..k], dryRun, o) == PerformAll(Perform(w, plan[0], dryRun, o).world, plan[1..][..k - 1], dryRun, o)
  {
    var p := plan[..k];
    assert p[0] == plan[0] && p[1..] == plan[1..][..k - 1];
    PerformAllCons(w, p, dryRun, o);
  }

  /**
   * A run of plain commands that are skipped (dry-run) or all succeed (live)
   * succeeds, logs every command in order and, live, starts exactly those
   * commands in order.
   */
  lemma {:induction false} CommandsRun(w: World, invs: seq<Invocation>, dryRun: bool, o: Oracle)
    requires dryRun || AllSucceed(o, invs)
    ensures PerformAll(w, Steps(invs), dryRun, o) ==
      Effect(w.(log := w.log + CommandLog(invs, dryRun), issued := w.issued + (if dryRun then [] else invs)), Ok(()))
    decreases |invs|
  {
    if invs == [] {
      assert w.log + CommandLog(invs, dryRun) == w.log;
      assert w.issued + (if dryRun then [] else invs) == w.issued;
    } else {
      var plan := Steps(invs);
      assert plan[0] == Command(invs[0]) && plan[1..] == Steps(invs[1..]);
      PerformAllCons(w, plan, dryRun, o);
      assert dryRun || Succeeds(o, invs[0]);
      PerformCommand(w, invs[0], dryRun, o);
      var next := w.(log := w.log + [LogLine(invs[0], dryRun)], issued := w.issued + (if dryRun then [] else [invs[0]]));
      assert dryRun || AllSucceed(o, invs[1..]) by {
        if !dryRun {
          forall i | 0 <= i < |invs[1..]| ensures Succeeds(o, invs[1..][i]) {
            assert invs[1..][i] == invs[i + 1];
          }
        }
      }
      CommandsRun(next, invs[1..], dryRun, o);
      assert CommandLog(invs, dryRun) == [LogLine(invs[0], dryRun)] + CommandLog(invs[1..], dryRun);
      Assoc(w.log, [LogLine(invs[0], dryRun)], CommandLog(invs[1..], dryRun));
      if !dryRun {
        assert invs == [invs[0]] + invs[1..];
        Assoc(w.issued, [invs[0]], invs[1..]);
      }
    }
  }

  lemma Assoc<T>(a: seq<T>, b: seq<T>, c: seq<T>)
    ensures a + b + c == a + (b + c)
  {
  }

  /** The first step of a plan, then the rest only if it succeeded. */
  lemma PerformAllCons(w: World, plan: seq<Action>, dryRun: bool, o: Oracle)
    requires |plan| > 0
    ensures PerformAll(w, plan, dryRun, o) ==
      var first := Perform(w, plan[0], dryRun, o);
      if first.result.Err? then first else PerformAll(first.world, plan[1..], dryRun, o)
  {
  }

  /** A command step that is skipped, or that succeeds live, only logs and (live) records the process. */
  lemma PerformCommand(w: World, inv: Invocation, dryRun: bool, o: Oracle)
    requires dryRun || Succeeds(o, inv)
    ensures Perform(w, Command(inv), dryRun, o) ==
      Effect(w.(log := w.log + [LogLine(inv, dryRun)], issued := w.issued + (if dryRun then [] else [inv])), Ok(()))
  {
    if dryRun {
      assert w.issued + [] == w.issued;
    }
  }

  /** The log lines of a list of commands. */
  function CommandLog(invs: seq<Invocation>, dryRun: bool): seq<string>
  {
    if invs == [] then [] else [LogLine(invs[0], dryRun)] + CommandLog(invs[1..], dryRun)
  }

  /** `start` over the world it begins in. */
  function StartRun(w: World, opts: StartOptions, dryRun: bool, o: Oracle): Effect<()>
  {
    PerformAll(w, StartPlan(opts, w.env), dryRun, o)
  }

  /** The processes a successful live lint step starts. */
  function LintProcesses(mode: LintMode, env: Env): seq<Invocation>
    requires "RUST_DEV_IMAGE" in env
  {
    if mode == LintMode.None then [] else [Shell(ContainerCommand(env, env["RUST_DEV_IMAGE"])), CAT_SCRIPT]
  }

  lemma LintStepSucceeds(w: World, mode: LintMode, o: Oracle)
    requires "RUST_DEV_IMAGE" in w.env
    requires !o.fsFault(WriteFile(SCRIPT_FILE)) && !o.fsFault(SetExecutable(SCRIPT_FILE))
    requires AllSucceed(o, LintProcesses(mode, w.env))
    ensures var e := Perform(w, LintChecks(mode), false, o);
      e.result.Ok? && e.world.issued == w.issued + LintProcesses(mode, w.env)
  {
    if mode != LintMode.None {
      assert Succeeds(o, LintProcesses(mode, w.env)[0]) && Succeeds(o, LintProcesses(mode, w.env)[1]);
      CleanupAfterContainerRun(w, mode, false, o);
    }
  }

  /** The teardown step: present only for a fresh start. */
  function DownStep(opts: StartOptions): seq<Invocation>
  {
    if opts.freshStart then [COMPOSE_DOWN_VOLUMES] else []
  }

  /** With both images set, `start` is the teardown, then the lint step, then the bring-up commands, each only if the previous stage succeeded. */
  lemma StartStages(w: World, opts: StartOptions, dryRun: bool, o: Oracle)
    requires BringUpCommands(opts, w.env).Ok?
    ensures var down := PerformAll(w, Steps(DownStep(opts)), dryRun, o);
      var lint := Perform(down.world, LintChecks(opts.lint), dryRun, o);
      StartRun(w, opts, dryRun, o) ==
        if down.result.Err? then down
        else if lint.result.Err? then lint
        else PerformAll(lint.world, Steps(BringUpCommands(opts, w.env).value), dryRun, o)
  {
    var invs := BringUpCommands(opts, w.env).value;
    var head := Steps(DownStep(opts)) + [LintChecks(opts.lint)];
    assert StartPlan(opts, w.env) == head + Steps(invs);
    PerformAllAppend(w, head, Steps(invs), dryRun, o);
    PerformAllAppend(w, Steps(DownStep(opts)), [LintChecks(opts.lint)], dryRun, o);
    assert [LintChecks(opts.lint)][1..] == [];
  }

  /** The live stages of `start` chained together, every process succeeding. */
  lemma StartStagesSucceed(w: World, opts: StartOptions, o: Oracle)
    requires "RUST_DEV_IMAGE" in w.env && BringUpCommands(opts, w.env).Ok?
    requires !o.fsFault(WriteFile(SCRIPT_FILE)) && !o.fsFault(SetExecutable(SCRIPT_FILE))
    requires AllSucceed(o, DownStep(opts)) && AllSucceed(o, LintProcesses(opts.lint, w.env))
    requires AllSucceed(o, BringUpCommands(opts, w.env).value)
    ensures var e := StartRun(w, opts, false, o);
      && e.result.Ok?
      && e.world.issued == w.issued + (DownStep(opts) + LintProcesses(opts.lint, w.env) + BringUpCommands(opts, w.env).value)
  {
    var invs := BringUpCommands(opts, w.env).value;
    StartStages(w, opts, false, o);
    CommandsRun(w, DownStep(opts), false, o);
    var down := PerformAll(w, Steps(DownStep(opts)), false, o);
    LintStepSucceeds(down.world, opts.lint, o);
    var lint := Perform(down.world, LintChecks(opts.lint), false, o);
    CommandsRun(lint.world, invs, false, o);
    var rest := PerformAll(lint.world, Steps(invs), false, o);
    Concat4(w.issued, DownStep(opts), LintProcesses(opts.lint, w.env), invs);
  }

  lemma Concat4<T>(a: seq<T>, b: seq<T>, c: seq<T>, d: seq<T>)
    ensures a + b + c + d == a + (b + c + d)
  {
  }

  /**
   * The processes a fully successful live `start` starts, in order: the
   * teardown (only when fresh), the lint processes, the build, the pull (only
   * when fresh or forced), then bring-up, health wait, schema load, admin user
   * and server.
   */
  function StartTrace(opts: StartOptions, env: Env): seq<Invocation>
    requires "RUST_DEV_IMAGE" in env && "FE_BASE_IMAGE" in env && "FE_SERVER_IMAGE" in env
  {
    DownStep(opts)
    + LintProcesses(opts.lint, env)
    + [Shell(BuildCommand(NoCacheFlag(opts), env["FE_BASE_IMAGE"], Cr8sVersion(env), env["FE_SERVER_IMAGE"]))]
    + (if opts.freshStart || opts.forcePull then [PULL_IMAGES] else [])
    + BRING_UP
  }

  /**
   * When the lint script can be written and every process of the trace
   * succeeds, a live `start` succeeds having started exactly the trace.
   */
  lemma StartOrder(w: World, opts: StartOptions, o: Oracle)
    requires "RUST_DEV_IMAGE" in w.env && "FE_BASE_IMAGE" in w.env && "FE_SERVER_IMAGE" in w.env
    requires !o.fsFault(WriteFile(SCRIPT_FILE)) && !o.fsFault(SetExecutable(SCRIPT_FILE))
    requires AllSucceed(o, StartTrace(opts, w.env))
    ensures StartRun(w, opts, false, o).result.Ok?
    ensures StartRun(w, opts, false, o).world.issued == w.issued + StartTrace(opts, w.env)
  {
    StartTraceStages(opts, w.env);
    AllSucceedParts(o, DownStep(opts), LintProcesses(opts.lint, w.env), BringUpCommands(opts, w.env).value);
    StartStagesSucceed(w, opts, o);
  }

  lemma StartTraceStages(opts: StartOptions, env: Env)
    requires "RUST_DEV_IMAGE" in env && "FE_BASE_IMAGE" in env && "FE_SERVER_IMAGE" in env
    ensures BringUpCommands(opts, env).Ok?
    ensures StartTrace(opts, env) == DownStep(opts) + LintProcesses(opts.lint, env) + BringUpCommands(opts, env).value
  {
  }

  lemma AllSucceedParts(o: Oracle, a: seq<Invocation>, b: seq<Invocation>, c: seq<Invocation>)
    requires AllSucceed(o, a + b + c)
    ensures AllSucceed(o, a) && AllSucceed(o, b) && AllSucceed(o, c)
  {
    var t := a + b + c;
    forall i | 0 <= i < |a| ensures Succeeds(o, a[i]) {
      assert a[i] == t[i];
    }
    forall i | 0 <= i < |b| ensures Succeeds(o, b[i]) {
      assert b[i] == t[|a| + i];
    }
    forall i | 0 <= i < |c| ensures Succeeds(o, c[i]) {
      assert c[i] == t[|a| + |b| + i];
    }
  }

  /**
   * `start --lint none --dry-run` with any other flags: succeeds, starts no
   * process, writes no file, and logs as skipped the teardown (for a fresh
   * start) and then every command of the bring-up list, in plan order.
   */
  lemma StartDryRunLogsPlan(w: World, opts: StartOptions, o: Oracle)
    requires opts.lint == LintMode.None
    requires "FE_BASE_IMAGE" in w.env && "FE_SERVER_IMAGE" in w.env
    ensures BringUpCommands(opts, w.env).Ok?
    ensures var e := StartRun(w, opts, true, o);
      && e.result.Ok?
      && e.world.issued == w.issued && e.world.files == w.files
      && e.world.log == w.log + CommandLog(DownStep(opts), true) + CommandLog(BringUpCommands(opts, w.env).value, true)
  {
    var invs := BringUpCommands(opts, w.env).value;
    StartStages(w, opts, true, o);
    CommandsRun(w, DownStep(opts), true, o);
    var down := PerformAll(w, Steps(DownStep(opts)), true, o);
    assert Perform(down.world, LintChecks(LintMode.None), true, o) == Effect(down.world, Ok(()));
    CommandsRun(down.world, invs, true, o);
    assert w.issued + [] == w.issued;
  }

  /**
   * `start --lint none --dry-run` with no other flag: succeeds, starts no
   * process, writes no file, and logs as skipped the build, bring-up, health
   * wait, schema load, admin user and server start, in that order.
   */
  lemma StartDryRunNoLint(w: World, opts: StartOptions, o: Oracle)
    requires opts.lint == LintMode.None && !opts.freshStart && !opts.noCache && !opts.forcePull
    requires "FE_BASE_IMAGE" in w.env && "FE_SERVER_IMAGE" in w.env
    ensures var e := StartRun(w, opts, true, o);
      && e.result.Ok?
      && e.world.issued == w.issued && e.world.files == w.files
      && e.world.log == w.log
           + [LogLine(Shell(BuildCommand("", w.env["FE_BASE_IMAGE"], Cr8sVersion(w.env), w.env["FE_SERVER_IMAGE"])), true)]
           + CommandLog(BRING_UP, true)
  {
    var invs := BringUpCommands(opts, w.env).value;
    StartStages(w, opts, true, o);
    assert Steps(DownStep(opts)) == [];
    assert PerformAll(w, [], true, o) == Effect(w, Ok(()));
    assert Perform(w, LintChecks(LintMode.None), true, o) == Effect(w, Ok(()));
    CommandsRun(w, invs, true, o);
    assert invs[1..] == BRING_UP;
    assert CommandLog(invs, true) == [LogLine(invs[0], true)] + CommandLog(BRING_UP, true);
    Assoc(w.log, [LogLine(invs[0], true)], CommandLog(BRING_UP, true));
    assert w.issued + [] == w.issued;
  }

  /** A missing image variable stops `start` after the lint step: no build and no compose command follows. */
  lemma StartMissingImage(w: World, opts: StartOptions, dryRun: bool, o: Oracle)
    requires "FE_BASE_IMAGE" !in w.env || "FE_SERVER_IMAGE" !in w.env
    ensures var e := StartRun(w, opts, dryRun, o);
      var before := PerformAll(w, StartPlan(opts, w.env)[..|StartPlan(opts, w.env)| - 1], dryRun, o);
      && e.result.Err?
      && e.world == before.world
      && (before.result.Ok? ==> e.result.error == BringUpCommands(opts, w.env).error)
  {
    var plan := StartPlan(opts, w.env);
    var pre := plan[..|plan| - 1];
    assert plan == pre + [plan[|plan| - 1]] + [];
    PerformAllAppend(w, pre, [plan[|plan| - 1]], dryRun, o);
    assert [plan[|plan| - 1]][1..] == [];
  }
}
