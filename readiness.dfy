/**
 * The `wait` subcommand: block until the front end answers on port 8080,
 * through one `npx wait-on` call whose timeout is given in milliseconds.
 */
module Readiness {
  import opened Effects
  import opened Text

  /** The largest `u64`; `timeout_secs * 1000` must stay within it. */
  const U64_MAX: nat := 0xFFFF_FFFF_FFFF_FFFF

  const WAIT_PREFIX := "npx wait-on http://localhost:8080 --timeout "
  const WAIT_SUFFIX := "  --interval 2000 --delay 1000 --window 1000 --verbose"

  /** The `wait-on` command line for a timeout in milliseconds. */
  function WaitCommand(timeoutMs: nat): Invocation
  {
    Shell(WAIT_PREFIX + Decimal(timeoutMs) + WAIT_SUFFIX)
  }

  /** A timeout the source can convert to milliseconds without overflowing. */
  predicate ValidTimeout(timeoutSecs: nat)
  {
    timeoutSecs * 1000 <= U64_MAX
  }

  /**
   * `wait_for_frontend`: one shell command, whose exit status decides the
   * result; a failed wait returns the shell's error with its exit code.
   */
  function WaitRun(w: World, timeoutSecs: nat, dryRun: bool, o: Oracle): (e: Effect<()>)
    requires ValidTimeout(timeoutSecs)
    ensures e.world.env == w.env && e.world.files == w.files
    ensures e.world.log == w.log + [LogLine(WaitCommand(timeoutSecs * 1000), dryRun)]
    ensures e.world.issued == w.issued + (if dryRun then [] else [WaitCommand(timeoutSecs * 1000)])
    ensures e.result.Ok? <==> dryRun || Succeeds(o, WaitCommand(timeoutSecs * 1000))
    ensures !dryRun && o.exec(WaitCommand(timeoutSecs * 1000)).Spawned? && !Success(o.exec(WaitCommand(timeoutSecs * 1000)).status) ==>
              e.result == Err(ShellFailed(Code(o.exec(WaitCommand(timeoutSecs * 1000)).status)))
    ensures !dryRun && o.exec(WaitCommand(timeoutSecs * 1000)).SpawnFailed? ==> e.result == Err(SpawnError("/bin/bash"))
  {
    var x := Exec(w, WaitCommand(timeoutSecs * 1000), dryRun, o);
    Effect(x.world, Discard(x.result))
  }

  /**
   * The command carries the timeout in milliseconds: the digits after the
   * `--timeout` flag read back as `timeout_secs * 1000`, and the fixed polling
   * options follow them.
   */
  lemma WaitCommandCarriesTimeout(timeoutSecs: nat)
    requires ValidTimeout(timeoutSecs)
    ensures var cmd := WaitCommand(timeoutSecs * 1000).command;
      var digits := Decimal(timeoutSecs * 1000);
      && cmd[..|WAIT_PREFIX|] == WAIT_PREFIX
      && cmd[|WAIT_PREFIX|..|WAIT_PREFIX| + |digits|] == digits
      && ParseDecimal(cmd[|WAIT_PREFIX|..|WAIT_PREFIX| + |digits|]) == timeoutSecs * 1000
      && cmd[|WAIT_PREFIX| + |digits|..] == WAIT_SUFFIX
  {
    var digits := Decimal(timeoutSecs * 1000);
    var cmd := WAIT_PREFIX + digits + WAIT_SUFFIX;
    assert cmd[|WAIT_PREFIX|..|WAIT_PREFIX| + |digits|] == digits;
    DecimalRoundTrip(timeoutSecs * 1000);
  }
}
