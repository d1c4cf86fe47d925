# cr8s-fe quickstart CLI — a verified model

`quickstart` is the command-line tool that brings the cr8s development
stack up and down. It runs an ordered sequence of external commands
(`docker compose`, `docker build`, `npx wait-on`). Global flags select
dry-run and developer mode. Before any subcommand runs, it fills the
compose environment with defaults. It has three subcommands:

- `start` first optionally tears the stack down. It then runs lint checks
  in a throw-away script inside the toolchain container. Next it builds the
  front-end server image and optionally pulls images. Finally it brings up
  the services, waits for them to be healthy, loads the schema, creates the
  admin user and starts the server. The first failure stops the sequence.
- `shutdown` removes the containers and volumes. It then tries to delete
  the scratch build and package caches; if that fails, the subcommand still
  succeeds.
- `wait` makes one `wait-on` call with a timeout in milliseconds.

The model has two layers.

**Specification functions.** These are pure functions over a `World`
value. A `World` holds:

- the process environment;
- the files the tool writes (path to contents);
- the command log (the lines `log_command!` emits at info level);
- the list of processes handed to the operating system.

An `Oracle` stands for everything outside the program. It decides how each
process ends and whether each file operation fails. Each operation returns
an `Effect`: the new world together with the operation's result. Fail-fast
sequencing follows Rust's `?`. In the model, `start` is a plan of actions
(`StartPlan`). `PerformAll` interprets that plan and stops at the first
failure.

**The `Host` class.** `Quickstart.Host` holds the same state as mutable
fields. Its methods follow the source statement by statement:

- `setup_env_for_compose` is a loop over the default table.
- `run_lint_checks` pushes script lines.
- `start` is straight-line code, with `:-` where the source has `?`.

Each method is proved to leave exactly the state, and return exactly the
result, that the specification function describes. The properties are
proved about those specification functions.

Modules, one per file:

| file | module | source |
|---|---|---|
| `text.dfy` | `Text` | joining, splitting lines, decimal printing |
| `effects.dfy` | `Effects` | invocations, results, the world, `run`/`run_shell`, `log_command!` |
| `environment.dfy` | `Environment` | `get_env_*`, `get_cr8s_version`, `setup_env_for_compose`, scratch paths |
| `version.dfy` | `CargoVersion` | `extract_version_from_cargo_toml` |
| `lint.dfy` | `Lint` | `run_lint_checks` |
| `startup.dfy` | `Startup` | `start` |
| `teardown.dfy` | `Teardown` | the `Shutdown` arm of `main` |
| `readiness.dfy` | `Readiness` | `wait_for_frontend` |
| `quickstart.dfy` | `Quickstart` | `main` after argument parsing, and the `Host` class |

Three behaviours of the code are easy to miss; the model keeps them:

- Under `--dry-run`, `run_lint_checks` still writes `run-checks.sh`, makes
  it executable and runs `cat run-checks.sh` as a real process, because
  the `cat` is run with `dry_run = false`. If that `cat` succeeds, it then
  tries to remove the file; a failed removal is ignored, and a failed `cat`
  leaves the file in place. So in dry-run, lint is neither free of side
  effects nor free of processes.
  `Quickstart.DryRunStartsOnlyCat` shows that this `cat` is the only
  process a dry run can start. `Quickstart.QuickstartRun` and
  `Startup.PerformWellBehaved` show that `run-checks.sh` is the only file
  any subcommand can change, in dry-run or live.
- The scratch directories appear in commands as `"<root>/dev-target"/dev-target`.
  The path already ends in `dev-target`, and the format string appends it
  again; the same holds for `dev-cargo`. The lint mounts and the shutdown
  removal use the same form, so they agree with each other. The model keeps
  the strings exactly as the code builds them.
- `Full` lint uses `cargo clippy --all-targets --all-features`, while
  `Basic` uses `cargo clippy --all-targets`. Only the audit and outdated
  checks are best-effort.

## Model

| member | source | states |
|---|---|---|
| Effects.Exec | cli/src/main.rs:328-377 | The command is logged first. Under dry-run nothing is started and the result is exit status 0. Live, exactly this command is started, and the result is `Ok` iff the oracle reports a successful exit. A spawned non-success status becomes the program's (or the shell's) failure carrying the exit code; a failed spawn becomes a spawn error. The environment and files are untouched. |
| Effects.LogLineMarksMode | cli/src/main.rs:307-326 | A dry-run log line never equals a live one. Both carry the same rendered command after their prefix. |
| Effects.Discard | cli/src/main.rs:476 | Dropping the exit status keeps success and keeps the error. |
| Quickstart.Host.LogCommand | cli/src/main.rs:307-326 | Appends exactly one log line for the command in the given mode. Nothing else changes. |
| Quickstart.Host.Run | cli/src/main.rs:328-356 | Leaves the state and returns the result that `Exec` gives for a program with arguments. |
| Quickstart.Host.RunShell | cli/src/main.rs:358-377 | Leaves the state and returns the result that `Exec` gives for a `/bin/bash -c` string. |
| Environment.GetEnvNoDefault | cli/src/main.rs:387-393 | Succeeds iff the key is set, and then returns its value. Otherwise the error names the key. |
| Environment.GettersAgree | cli/src/main.rs:379-393 | `get_env_with_default` returns the default exactly where `get_env_no_default` reports the key missing. Elsewhere both return the same value. |
| Environment.DefaultTable | cli/src/main.rs:267-287 | Both tables list the same five keys in the same order. |
| Environment.InstallKeepsAndAdds | cli/src/main.rs:289-299 | Applying the table keeps every value already set. It adds exactly the table's keys. |
| Environment.InstallFirstEntry | cli/src/main.rs:289-299 | An unset key receives the value of the first table entry naming it. |
| Environment.ResolveEnvMeaning | cli/src/main.rs:257-301 | The resolved keys are the original keys plus the five compose keys. Preset values are kept. Each absent compose key gets its mode's default (developer or release). |
| Environment.Cr8sVersion | cli/src/main.rs:395-399 | The targeted back-end version is `CR8S_VERSION` when set, and `0.5.1` otherwise. |
| Environment.ScratchDir | cli/src/main.rs:484-488 | The scratch root is `CR8S_SCRATCH_DIR` when set, and `/var/tmp` otherwise. |
| Environment.JoinPathShape | cli/src/main.rs:141-142 | Joining a cache name to the root keeps the root in front and the name at the end, with one separator between them unless the root is empty or ends in one. |
| Environment.DebugPath | cli/src/main.rs:146 | The debug form of a path is the path between two double quotes. |
| Environment.SegmentDoubled | cli/src/main.rs:459-469 | A cache argument built from any root ends in `<name>"/<name>`: the joined path already ends in the name and the format string appends it again. |
| Environment.ScratchArgsDoubled | cli/src/main.rs:141-146 | For every environment, the build-cache argument ends in `dev-target"/dev-target` and the package-cache argument in `dev-cargo"/dev-cargo`. |
| Environment.DefaultTargetDirArg | cli/src/main.rs:484-488 | In any environment without `CR8S_SCRATCH_DIR`, the build-cache argument is `"/var/tmp/dev-target"/dev-target`. |
| Environment.ResolveKeepsScratchDir | cli/src/main.rs:484-488 | Resolving the compose environment never sets `CR8S_SCRATCH_DIR`, so the scratch root and both cache arguments the later commands use are those of the caller's environment. |
| Environment.ResolveEnvLeavesVersion | cli/src/main.rs:264-270 | `CR8S_VERSION` is read but never written. |
| Environment.ResolveEnvProvidesKeys | cli/src/main.rs:453-454 | After resolution, `get_env_no_default` succeeds on every compose key. |
| Environment.ResolvedBaseImage | cli/src/main.rs:272-274 | An unset `FE_BASE_IMAGE` resolves to the same image as `RUST_DEV_IMAGE`. |
| Environment.ResolveEnvIdempotent | cli/src/main.rs:289-299 | Resolving a second time changes nothing. |
| Quickstart.Host.SetupEnvForCompose | cli/src/main.rs:257-301 | The loop leaves the environment equal to `ResolveEnv` of the starting one. Files, log and processes are unchanged. It has no failure path. |
| CargoVersion.Split | cli/src/main.rs:413 | At least one piece is returned. No piece holds the separator. Joining the pieces with the separator gives the input back. |
| CargoVersion.QuotedFieldMeaning | cli/src/main.rs:413 | There is no field iff the text holds no quote. Otherwise the field is the quote-free text between the first quote and the next quote or the end. |
| CargoVersion.QuotedFieldOf | cli/src/main.rs:413 | Conversely, quote-free text written after the first quote is the field read back. |
| CargoVersion.LineVersionQualifies | cli/src/main.rs:412-413 | A line yields a version iff it starts with `version` and holds a quote after that. |
| CargoVersion.VersionOfMeaning | cli/src/main.rs:409-419 | There is no version iff no line qualifies. Otherwise the version is the field of the first qualifying line. |
| CargoVersion.VersionOfSkipsUnqualified | cli/src/main.rs:409-417 | Non-qualifying lines placed in front do not change the result. |
| CargoVersion.ExtractVersionFromCargoToml | cli/src/main.rs:401-420 | The loop returns at the first line that yields a version, returning that version. Otherwise it returns the error naming the path. |
| Lint.ScriptBody | cli/src/main.rs:427-446 | `None` gives no script. Otherwise the script is the three header lines and then the format check. `Basic` adds exactly the strict clippy line. `Full` adds the all-features clippy line, audit and outdated, in that order. |
| Lint.AdvisoryChecks | cli/src/main.rs:440-445 | Only the audit and outdated lines of `Full` are allowed to fail (`\|\| true`). |
| Lint.ScriptReadsBack | cli/src/main.rs:449 | A newline-joined body with a trailing newline holds each line followed by its newline. Reading the file back line by line gives the body. |
| Lint.WrittenScriptReadsBack | cli/src/main.rs:427-449 | For `Basic` and `Full`, the script actually written reads back line by line as that mode's body. |
| Lint.ContainerRun | cli/src/main.rs:462-476 | The container run (live only) and the `cat` (always live) are both started, whatever the container run's outcome. If `cat` fails, the result is the `cat`'s own error (the shell's exit code, or the spawn failure) and the files are unchanged. If `cat` succeeds, the script is removed unless removal fails, which is ignored, and the result is exactly the container run's result. |
| Lint.LintRun | cli/src/main.rs:422-477 | `None` returns `Ok` with nothing written or started. No file other than `run-checks.sh` changes. The log and the process list only grow. `Ok` means every process started succeeded. Under dry-run, only `cat` is started. |
| Lint.LintRunOk | cli/src/main.rs:450-476 | Success iff: the write succeeded, chmod succeeded, `RUST_DEV_IMAGE` is set, `cat` succeeded, and either dry-run or the container run succeeded. |
| Lint.CatFailureLeavesScript | cli/src/main.rs:474-475 | When `cat` fails, its own error (the shell's exit code, or the spawn failure) is returned and `run-checks.sh` remains, holding the script. |
| Lint.CleanupAfterContainerRun | cli/src/main.rs:474-476 | When `cat` succeeds, the script is gone unless removal failed. The started processes are the container run (live only) and then `cat`. The result is exactly the container run's result, with its exit status dropped. |
| Quickstart.Host.RunLintChecks | cli/src/main.rs:422-477 | The pushes, write, chmod, env read, runs and removal leave the state and return the result `LintRun` gives. |
| Startup.NoCacheFlag | cli/src/main.rs:178-182 | The build gets `--no-cache` iff `--no-cache` or `--fresh` was given. Otherwise it gets an empty string. |
| Startup.BringUpCommands | cli/src/main.rs:183-230 | A missing `FE_BASE_IMAGE`, then a missing `FE_SERVER_IMAGE`, is the error. Otherwise the list is: the build with both images and the version; then the pull iff fresh or forced; then the five bring-up commands last. |
| Startup.StartPlan | cli/src/main.rs:165-235 | Teardown comes first iff fresh, and the lint step follows. Then comes either the bring-up list, or the abort for the missing image variable. |
| Startup.StartPlanSteps | cli/src/main.rs:165-235 | Position by position: teardown, lint, build, optional pull, then up, health wait, schema load, admin user and server start. |
| Startup.ForceRebuildIgnored | cli/src/main.rs:97-99 | `--force-rebuild` never changes the plan. |
| Startup.PerformWellBehaved | cli/src/main.rs:170-230 | One step leaves the environment alone. The log and process list only grow. `Ok` means every process it started succeeded. In dry-run, it starts only `cat`. No file other than `run-checks.sh` changes. |
| Startup.PerformAllWellBehaved | cli/src/main.rs:165-235 | The same guarantees hold for a whole fail-fast sequence, including that no file other than `run-checks.sh` changes. |
| Startup.PerformAllAppend | cli/src/main.rs:165-235 | Running `p ++ q` is running `p` and then, only if `p` succeeded, running `q` from where `p` stopped. |
| Startup.FirstFailureStops | cli/src/main.rs:170-230 | The first failing step's outcome is the whole run's outcome. No later step runs. |
| Startup.StepOutcome | cli/src/main.rs:165-235 | After a successful prefix, the next step either extends the successful prefix or, when it fails, is the outcome of the whole plan. |
| Startup.PerformAllOk | cli/src/main.rs:165-235 | A run succeeds iff every step succeeds, each starting from where the previous step left the world. |
| Startup.CommandsRun | cli/src/main.rs:211-234 | A list of commands that are skipped (dry-run) or all succeed (live) succeeds. Each command is logged in order and, live, started in order. |
| Startup.AbortStep | cli/src/main.rs:184-185 | A missing image variable ends the run with its error, once the earlier steps have succeeded. |
| Startup.StartOrder | cli/src/main.rs:165-235 | Assume the script can be written and every process of the trace succeeds. Then a live `start` succeeds, having started exactly: teardown (iff fresh), container lint and `cat` (iff a lint mode), build, pull (iff fresh or forced), then up, wait, schema, user, server. |
| Startup.StartDryRunLogsPlan | cli/src/main.rs:165-235 | `start --lint none` in dry-run, with any other flags and both images set, succeeds. It starts nothing and writes nothing. It logs, as skipped, the teardown (iff fresh) and then every bring-up command, in order. |
| Startup.StartDryRunNoLint | cli/src/main.rs:165-235 | `start --lint none` in dry-run succeeds. It starts nothing and writes nothing. It logs, as skipped, the build followed by the five bring-up commands, in order. |
| Startup.StartMissingImage | cli/src/main.rs:183-185 | A missing image variable fails `start` right after the lint step. No build or compose command follows. |
| Quickstart.Host.Start | cli/src/main.rs:165-176 | The teardown and lint steps, then the rest, leave the state and return the result `StartRun` gives. |
| Quickstart.Host.BuildAndBringUp | cli/src/main.rs:177-185 | The cache flag, version and image reads, and the rest of the sequence, continue the plan exactly as `PerformAll` does. A missing image variable ends it with that variable's error. |
| Quickstart.Host.BuildAndPull | cli/src/main.rs:192-209 | The build, then the pull iff fresh or forced, then the bring-up commands continue the plan exactly as `PerformAll` does. |
| Quickstart.Host.BringUp | cli/src/main.rs:211-234 | The last five commands finish the plan exactly as `PerformAll` does. |
| Teardown.ShutdownRun | cli/src/main.rs:135-160 | Succeeds iff dry-run or `docker compose down -v` succeeds. On failure nothing more is started. On success, the cache removal was logged and (live) started after the teardown. Environment and files are untouched. |
| Teardown.CleanupFailureIgnored | cli/src/main.rs:144-158 | The cache removal's outcome never changes the shutdown's result or trace. |
| Quickstart.Host.Shutdown | cli/src/main.rs:135-160 | Leaves the state and returns the result `ShutdownRun` gives. |
| Readiness.WaitRun | cli/src/main.rs:237-255 | Exactly one command is logged and, live, started. Its result decides the outcome: a failed wait returns the shell's error with its exit code, or the spawn failure. |
| Readiness.WaitCommandCarriesTimeout | cli/src/main.rs:242-251 | The digits after `--timeout` read back as `timeout_secs * 1000`. The fixed polling options follow them. |
| Quickstart.Host.WaitForFrontend | cli/src/main.rs:237-255 | Leaves the state and returns the result `WaitRun` gives. |
| Quickstart.QuickstartRun | cli/src/main.rs:130-162 | The environment ends up resolved. The log and process list only grow. No file other than `run-checks.sh` changes. |
| Quickstart.StartFindsImages | cli/src/main.rs:184-185 | After resolution, `start` never aborts for a missing image variable. The lint step's image read succeeds. |
| Quickstart.DryRunStartsOnlyCat | cli/src/main.rs:474 | Under `--dry-run`, the only process any subcommand can start is the lint script's `cat`. |
| Quickstart.DryRunStartLogsPlan | cli/src/main.rs:130-235 | `quickstart --dry-run start --lint none` with any valid start flags succeeds, starts nothing and writes nothing. It logs, as skipped, the teardown (iff fresh) and then the bring-up commands planned over the resolved environment. |
| Quickstart.DryRunStartScenario | cli/src/main.rs:130-235 | Consider `quickstart --dry-run start --lint none`. It succeeds, starts nothing and writes nothing. It logs, as skipped, the build of the resolved images and then the five bring-up commands. |
| Quickstart.Host.Execute | cli/src/main.rs:130-162 | Resolving the environment and running the subcommand leave the state and return the result `QuickstartRun` gives. |

## Left out

- Reading `Cargo.toml` is not modelled (opening the file and read errors, cli/src/main.rs:406-411). The version parser takes the file's lines as input.
- The `VERSION` banner (cli/src/main.rs:128 and 479-482) is log output only.
- Argument parsing and logging setup are left out (cli/src/main.rs:106-126). Only the flag conflicts are kept: `ValidStartOptions` is required by `QuickstartRun`. The parser accepts any `u64` timeout for `wait`; the model additionally requires `timeout_secs * 1000` to fit in a `u64` (see `Readiness.WaitRun` below).
- Tracing output other than the `log_command!` lines (`info!`, `warn!`, `error!`) is not part of the log.
- Quickstart.Host.LogCommand: the modelled log is what info-level logging shows. The `log_command!` lines go through `info!` (cli/src/main.rs:312-323), so `--log-level warn` or `error` hides them; the model always records them.
- Effects.Exec: a failed spawn is modelled as `SpawnError` tagged with the program the tool tried to start. The source returns the operating system's `io::Error` from `status()?` (cli/src/main.rs:340, 366), whose message need not name the program.
- The environment is `map<string, string>`. A variable holding non-Unicode bytes, which `env::var` reports as unset, cannot be expressed.
- `{:?}` of a path is modelled as the path in double quotes. Rust's escaping of quotes, backslashes and control characters inside the path is left out.
- Process spawning, `/bin/bash -c` semantics, docker, compose and `wait-on` behaviour are decided by the oracle. So are polling and timing. The oracle gives the same outcome every time the same command is started.
- File permission bits (`0o755`): only whether `set_permissions` fails is modelled.
- Lint.LintRun: a failed `fs::write` (cli/src/main.rs:450) is modelled as leaving the files unchanged. The source creates and truncates the file before writing, so a failure part-way can leave an empty or partial `run-checks.sh`, or a previous one overwritten.
- `CR8S_SCRATCH_DIR` is lazily read once in the source. The model reads it from the environment when it is used. The tool never writes that variable, so both readings agree.
- Readiness.WaitRun: requires `timeout_secs * 1000` to fit in a `u64`. The overflow of the source's `u64` multiplication (a panic in debug builds, wrap-around in release builds) is not modelled.
- `setup_env_for_compose` can only return `Ok`, so its method has no result.
