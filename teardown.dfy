/**
 * The `shutdown` subcommand: stop every container and remove the volumes,
 * then delete the scratch build and package caches. Only the teardown can
 * fail the subcommand; a failed cleanup is reported as a warning.
 */
module Teardown {
  import opened Effects
  import opened Environment

  const COMPOSE_DOWN := Shell("docker compose down -v")

  /** The cache removal, naming the same two directories the lint container mounts. */
  function CleanupCommand(env: Env): Invocation
  {
    Shell("sudo rm -rf " + TargetDirArg(env) + " " + CargoDirArg(env))
  }

  /** The `Shutdown` arm of `main`. */
  function ShutdownRun(w: World, dryRun: bool, o: Oracle): (e: Effect<()>)
    ensures e.world.env == w.env && e.world.files == w.files
    ensures e.result.Ok? <==> dryRun || Succeeds(o, COMPOSE_DOWN)
    ensures e.result.Err? ==> e == Effect(Exec(w, COMPOSE_DOWN, dryRun, o).world, Discard(Exec(w, COMPOSE_DOWN, dryRun, o).result))
    ensures e.result.Ok? ==>
              && e.world.log == w.log + [LogLine(COMPOSE_DOWN, dryRun), LogLine(CleanupCommand(w.env), dryRun)]
              && e.world.issued == w.issued + (if dryRun then [] else [COMPOSE_DOWN, CleanupCommand(w.env)])
  {
    var down := Exec(w, COMPOSE_DOWN, dryRun, o);
    if down.result.Err? then Effect(down.world, Err(down.result.error))
    else
      var cleanup := Exec(down.world, CleanupCommand(w.env), dryRun, o);
      Effect(cleanup.world, Ok(()))
  }

  /**
   * The outcome of the cache removal never reaches the caller: two oracles
   * that agree on the teardown give the same result and start the same
   * processes.
   */
  lemma CleanupFailureIgnored(w: World, dryRun: bool, o1: Oracle, o2: Oracle)
    requires o1.exec(COMPOSE_DOWN) == o2.exec(COMPOSE_DOWN)
    ensures ShutdownRun(w, dryRun, o1) == ShutdownRun(w, dryRun, o2)
  {
  }
}
