/**
 * `run_lint_checks`: writes a mode-dependent check script to
 * `run-checks.sh`, runs it in the developer toolchain container, shows the
 * script with `cat` and removes it.
 */
module Lint {
  import opened Effects
  import opened Text
  import opened Environment

  datatype LintMode = None | Basic | Full

  const SCRIPT_FILE := "run-checks.sh"

  const SCRIPT_HEADER: seq<string> :=
    ["#!/bin/bash", "set -euo pipefail", "echo '🧹 Running lint checks...'"]
  const FMT_CHECK := "cargo fmt --all -- --check"
  const CLIPPY_STRICT := "cargo clippy --all-targets -- -D warnings"
  const CLIPPY_ALL_FEATURES := "cargo clippy --all-targets --all-features -- -D warnings"
  const AUDIT := "(cargo audit || true)"
  const OUTDATED := "(cargo outdated || true)"

  /** A check whose failure the script swallows: a subshell ending in `|| true`. */
  predicate Advisory(line: string)
  {
    |line| >= 10 && line[0] == '(' && line[|line| - 9..] == " || true)"
  }

  /**
   * The script lines for a mode; `None` writes no script. Every script opens
   * with the header and the format check; only the checks after the
   * all-features clippy run in `Full` are advisory.
   */
  function ScriptBody(mode: LintMode): (body: Option<seq<string>>)
    ensures body.None? <==> mode == LintMode.None
    ensures body.Some? ==> |body.value| > 4 && body.value[..3] == SCRIPT_HEADER && body.value[3] == FMT_CHECK
    ensures mode == Basic ==> body.value[4..] == [CLIPPY_STRICT]
    ensures mode == Full ==> body.value[4..] == [CLIPPY_ALL_FEATURES, AUDIT, OUTDATED]
  {
    match mode
    case None => Option.None
    case Basic => Some(SCRIPT_HEADER + [FMT_CHECK, CLIPPY_STRICT])
    case Full => Some(SCRIPT_HEADER + [FMT_CHECK, CLIPPY_ALL_FEATURES, AUDIT, OUTDATED])
  }

  /** In `Full` only the audit and outdated checks may fail without failing the script. */
  lemma AdvisoryChecks(mode: LintMode)
    requires mode != LintMode.None
    ensures forall i :: 0 <= i < |ScriptBody(mode).value| ==>
              (Advisory(ScriptBody(mode).value[i]) <==> mode == Full && i > 4)
  {
    RequiredChecks();
    AdvisoryTail();
    var body := ScriptBody(mode).value;
    assert body[..3] == SCRIPT_HEADER;
    assert body[0] == SCRIPT_HEADER[0] && body[1] == SCRIPT_HEADER[1] && body[2] == SCRIPT_HEADER[2];
  }

  lemma RequiredChecks()
    ensures !Advisory(SCRIPT_HEADER[0]) && !Advisory(SCRIPT_HEADER[1]) && !Advisory(SCRIPT_HEADER[2])
    ensures !Advisory(FMT_CHECK) && !Advisory(CLIPPY_STRICT) && !Advisory(CLIPPY_ALL_FEATURES)
  {
  }

  lemma AdvisoryTail()
    ensures Advisory(AUDIT) && Advisory(OUTDATED)
  {
    assert AUDIT[|AUDIT| - 9..] == " || true)";
    assert OUTDATED[|OUTDATED| - 9..] == " || true)";
  }

  /** `body.join("\n") + "\n"`: the text written to the script file. */
  function Script(body: seq<string>): string
  {
    Join(body, "\n") + "\n"
  }

  /**
   * The script file holds every line of the body, each followed by a newline,
   * and a shell reading it line by line gets back exactly the body.
   */
  lemma ScriptReadsBack(body: seq<string>)
    requires |body| > 0 && SingleLines(body)
    ensures Script(body) == Terminated(body)
    ensures SplitLines(Script(body)) == body
  {
    JoinNewlineTerminated(body);
    SplitTerminated(body);
  }

  /** The script the tool writes for a lint mode reads back, line by line, as that mode's body. */
  lemma WrittenScriptReadsBack(mode: LintMode)
    requires mode != LintMode.None
    ensures SplitLines(Script(ScriptBody(mode).value)) == ScriptBody(mode).value
  {
    var body := ScriptBody(mode).value;
    HeaderIsSingleLines();
    ChecksAreSingleLines();
    AdvisoriesAreSingleLines();
    forall i | 0 <= i < |body| ensures '\n' !in body[i] {
      if i < 3 {
        assert body[i] == body[..3][i];
      } else if i > 3 {
        assert body[i] == body[4..][i - 4];
      }
    }
    ScriptReadsBack(body);
  }

  lemma HeaderIsSingleLines()
    ensures forall i :: 0 <= i < |SCRIPT_HEADER| ==> '\n' !in SCRIPT_HEADER[i]
  {
  }

  lemma ChecksAreSingleLines()
    ensures '\n' !in FMT_CHECK && '\n' !in CLIPPY_STRICT && '\n' !in CLIPPY_ALL_FEATURES
  {
  }

  lemma AdvisoriesAreSingleLines()
    ensures '\n' !in AUDIT && '\n' !in OUTDATED
  {
  }

  const CONTINUATION := " \\\n               "

  /** The `docker run` command that runs the script in the toolchain container with the scratch caches mounted. */
  function ContainerCommand(env: Env, image: string): string
  {
    "docker run --rm -u root -v \"$PWD:$PWD\"" + CONTINUATION
    + "-v " + TargetDirArg(env) + ":/app/target" + CONTINUATION
    + "-v " + CargoDirArg(env) + ":/usr/local/cargo/registry" + CONTINUATION
    + "-w $PWD " + image + CONTINUATION
    + "./" + SCRIPT_FILE
  }

  const CAT_SCRIPT := Shell("cat " + SCRIPT_FILE)

  /**
   * The part of `run_lint_checks` after the script is in place: the container
   * run, the `cat` (always live), and the removal, which is skipped when the
   * `cat` fails and whose own failure is ignored. The result is the container
   * run's result unless the `cat` failed.
   */
  function ContainerRun(w: World, container: Invocation, dryRun: bool, o: Oracle): (e: Effect<()>)
    ensures e.world.env == w.env
    ensures e.world.log == w.log + [LogLine(container, dryRun), LogLine(CAT_SCRIPT, false)]
    ensures e.world.issued == w.issued + (if dryRun then [] else [container]) + [CAT_SCRIPT]
    ensures !Succeeds(o, CAT_SCRIPT) ==> e.result.Err? && e.world.files == w.files
    ensures o.exec(CAT_SCRIPT).Spawned? && !Success(o.exec(CAT_SCRIPT).status) ==>
              e.result == Err(ShellFailed(Code(o.exec(CAT_SCRIPT).status)))
    ensures o.exec(CAT_SCRIPT).SpawnFailed? ==> e.result == Err(SpawnError("/bin/bash"))
    ensures Succeeds(o, CAT_SCRIPT) ==>
              && e.world.files == (if o.fsFault(RemoveFile(SCRIPT_FILE)) then w.files else w.files - {SCRIPT_FILE})
              && e.result == Discard(Exec(w, container, dryRun, o).result)
              && (e.result.Ok? <==> dryRun || Succeeds(o, container))
    ensures e.world.files - {SCRIPT_FILE} == w.files - {SCRIPT_FILE}
    ensures e.result.Ok? ==> AllSucceed(o, e.world.issued[|w.issued|..])
  {
    var run := Exec(w, container, dryRun, o);
    var cat := Exec(run.world, CAT_SCRIPT, false, o);
    if cat.result.Err? then Effect(cat.world, Err(cat.result.error))
    else
      var files := if o.fsFault(RemoveFile(SCRIPT_FILE)) then cat.world.files else cat.world.files - {SCRIPT_FILE};
      assert files - {SCRIPT_FILE} == w.files - {SCRIPT_FILE};
      assert cat.world.issued[|w.issued|..] == (if dryRun then [] else [container]) + [CAT_SCRIPT];
      Effect(cat.world.(files := files), Discard(run.result))
  }

  /**
   * `run_lint_checks`. `None` touches nothing. Otherwise the script is written
   * and made executable (either may fail), the toolchain image is read from the
   * environment, and the container run follows. Only the script file can
   * change, and success means every process that was started succeeded.
   */
  function LintRun(w: World, mode: LintMode, dryRun: bool, o: Oracle): (e: Effect<()>)
    ensures mode == LintMode.None ==> e == Effect(w, Ok(()))
    ensures e.world.env == w.env
    ensures e.world.files - {SCRIPT_FILE} == w.files - {SCRIPT_FILE}
    ensures w.log <= e.world.log && w.issued <= e.world.issued
    ensures e.result.Ok? ==> AllSucceed(o, e.world.issued[|w.issued|..])
    ensures dryRun ==> e.world.issued in {w.issued, w.issued + [CAT_SCRIPT]}
  {
    match ScriptBody(mode)
    case None => Effect(w, Ok(()))
    case Some(body) =>
      if o.fsFault(WriteFile(SCRIPT_FILE)) then Effect(w, Err(FileError(WriteFile(SCRIPT_FILE))))
      else
        var written := w.(files := w.files[SCRIPT_FILE := Script(body)]);
        assert written.files - {SCRIPT_FILE} == w.files - {SCRIPT_FILE};
        if o.fsFault(SetExecutable(SCRIPT_FILE)) then Effect(written, Err(FileError(SetExecutable(SCRIPT_FILE))))
        else
          match GetEnvNoDefault(w.env, "RUST_DEV_IMAGE")
          case Err(err) => Effect(written, Err(err))
          case Ok(image) =>
            ContainerRun(written, Shell(ContainerCommand(w.env, image)), dryRun, o)
  }

  /**
   * With a script to run, the lint step succeeds exactly when the script was
   * written and made executable, the toolchain image is set, the `cat`
   * succeeded and, live, the container run succeeded.
   */
  lemma LintRunOk(w: World, mode: LintMode, dryRun: bool, o: Oracle)
    requires mode != LintMode.None
    ensures LintRun(w, mode, dryRun, o).result.Ok? <==>
      && !o.fsFault(WriteFile(SCRIPT_FILE)) && !o.fsFault(SetExecutable(SCRIPT_FILE))
      && "RUST_DEV_IMAGE" in w.env && Succeeds(o, CAT_SCRIPT)
      && (dryRun || Succeeds(o, Shell(ContainerCommand(w.env, w.env["RUST_DEV_IMAGE"]))))
  {
  }

  /**
   * When the `cat` fails its own error (the shell's exit code, or the spawn
   * failure) is returned before the removal, so the script stays behind
   * holding the body that was written.
   */
  lemma CatFailureLeavesScript(w: World, mode: LintMode, dryRun: bool, o: Oracle)
    requires mode != LintMode.None && !o.fsFault(WriteFile(SCRIPT_FILE)) && !o.fsFault(SetExecutable(SCRIPT_FILE))
    requires "RUST_DEV_IMAGE" in w.env && !Succeeds(o, CAT_SCRIPT)
    ensures var e := LintRun(w, mode, dryRun, o);
      && e.result.Err?
      && (o.exec(CAT_SCRIPT).Spawned? ==> e.result.error == ShellFailed(Code(o.exec(CAT_SCRIPT).status)))
      && (o.exec(CAT_SCRIPT).SpawnFailed? ==> e.result.error == SpawnError("/bin/bash"))
      && SCRIPT_FILE in e.world.files && e.world.files[SCRIPT_FILE] == Script(ScriptBody(mode).value)
  {
  }

  /**
   * When the `cat` succeeds the script is removed (unless the removal itself
   * fails, which is ignored) and the result is the container run's, even if
   * that run failed.
   */
  lemma CleanupAfterContainerRun(w: World, mode: LintMode, dryRun: bool, o: Oracle)
    requires mode != LintMode.None && !o.fsFault(WriteFile(SCRIPT_FILE)) && !o.fsFault(SetExecutable(SCRIPT_FILE))
    requires "RUST_DEV_IMAGE" in w.env && Succeeds(o, CAT_SCRIPT)
    ensures var e := LintRun(w, mode, dryRun, o);
      var container := Shell(ContainerCommand(w.env, w.env["RUST_DEV_IMAGE"]));
      && (SCRIPT_FILE in e.world.files <==> o.fsFault(RemoveFile(SCRIPT_FILE)))
      && e.world.issued == w.issued + (if dryRun then [] else [container]) + [CAT_SCRIPT]
      && e.result == Discard(Exec(w.(files := w.files[SCRIPT_FILE := Script(ScriptBody(mode).value)]), container, dryRun, o).result)
      && (e.result.Ok? <==> dryRun || Succeeds(o, container))
  {
  }
}
