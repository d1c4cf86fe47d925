/**
 * Environment resolution for docker compose: a value already present in the
 * process environment wins; otherwise a default, taken from one of two
 * tables chosen by developer mode, is written into the environment.
 */
module Environment {
  import opened Effects

  type Env = map<string, string>

  const RUST_DEV_IMAGE_DEFAULT := "ghcr.io/johnbasrai/cr8s/rust-dev:1.83.0-rev5"
  const CR8S_VERSION_DEFAULT := "0.5.1"

  /** The five keys `setup_env_for_compose` resolves, in table order. */
  const COMPOSE_KEYS: seq<string> :=
    ["RUST_DEV_IMAGE", "FE_BASE_IMAGE", "BE_CLI_IMAGE", "FE_SERVER_IMAGE", "BE_SERVER_IMAGE"]

  /** `get_env_with_default`: the environment's value, or the default when the key is unset. */
  function GetEnvWithDefault(env: Env, key: string, def: string): string
  {
    if key in env then env[key] else def
  }

  /** `get_env_no_default`: the environment's value, or an error naming the key. */
  function GetEnvNoDefault(env: Env, key: string): (r: Result<string>)
    ensures r.Ok? <==> key in env
    ensures r.Ok? ==> r.value == env[key]
    ensures r.Err? ==> r.error == MissingEnv(key)
  {
    if key in env then Ok(env[key]) else Err(MissingEnv(key))
  }

  /** The two getters agree: the default is used exactly where the variable is reported missing. */
  lemma GettersAgree(env: Env, key: string, def: string)
    ensures GetEnvNoDefault(env, key).Ok? ==> GetEnvWithDefault(env, key, def) == GetEnvNoDefault(env, key).value
    ensures GetEnvNoDefault(env, key).Err? ==> GetEnvWithDefault(env, key, def) == def
  {
  }

  /** `get_cr8s_version`: the targeted backend version, `0.5.1` unless `CR8S_VERSION` overrides it. */
  function Cr8sVersion(env: Env): (v: string)
    ensures "CR8S_VERSION" in env ==> v == env["CR8S_VERSION"]
    ensures "CR8S_VERSION" !in env ==> v == "0.5.1"
  {
    GetEnvWithDefault(env, "CR8S_VERSION", CR8S_VERSION_DEFAULT)
  }

  /** The default table: released images outside developer mode, local images inside it. */
  function DefaultTable(rustDevImage: string, version: string, isDev: bool): (t: seq<(string, string)>)
    ensures |t| == |COMPOSE_KEYS|
    ensures forall i :: 0 <= i < |t| ==> t[i].0 == COMPOSE_KEYS[i]
  {
    if !isDev then
      [ ("RUST_DEV_IMAGE", rustDevImage),
        ("FE_BASE_IMAGE", rustDevImage),
        ("BE_CLI_IMAGE", "ghcr.io/johnbasrai/cr8s/cr8s-cli:" + version),
        ("FE_SERVER_IMAGE", "cr8s-fe-server"),
        ("BE_SERVER_IMAGE", "ghcr.io/johnbasrai/cr8s/cr8s-server:" + version) ]
    else
      [ ("RUST_DEV_IMAGE", rustDevImage),
        ("FE_BASE_IMAGE", rustDevImage),
        ("BE_CLI_IMAGE", "cr8s-cli-dev"),
        ("FE_SERVER_IMAGE", "cr8s-fe-server"),
        ("BE_SERVER_IMAGE", "cr8s-server-dev") ]
  }

  /** The table `setup_env_for_compose` builds from the environment it starts with. */
  function Defaults(env: Env, isDev: bool): seq<(string, string)>
  {
    DefaultTable(GetEnvWithDefault(env, "RUST_DEV_IMAGE", RUST_DEV_IMAGE_DEFAULT), Cr8sVersion(env), isDev)
  }

  /** The environment after the table's entries were applied in order, each only where its key is unset. */
  function Install(env: Env, table: seq<(string, string)>): Env
  {
    if table == [] then env
    else
      var before := Install(env, table[..|table| - 1]);
      var entry := table[|table| - 1];
      if entry.0 in before then before else before[entry.0 := entry.1]
  }

  /** The environment `setup_env_for_compose` leaves behind. */
  function ResolveEnv(env: Env, isDev: bool): Env
  {
    Install(env, Defaults(env, isDev))
  }

  /** The default a compose key falls back to, stated key by key. */
  function ComposeDefault(env: Env, isDev: bool, key: string): string
  {
    var rustDev := GetEnvWithDefault(env, "RUST_DEV_IMAGE", RUST_DEV_IMAGE_DEFAULT);
    if key == "RUST_DEV_IMAGE" || key == "FE_BASE_IMAGE" then rustDev
    else if key == "FE_SERVER_IMAGE" then "cr8s-fe-server"
    else if key == "BE_CLI_IMAGE" then
      (if isDev then "cr8s-cli-dev" else "ghcr.io/johnbasrai/cr8s/cr8s-cli:" + Cr8sVersion(env))
    else if isDev then "cr8s-server-dev"
    else "ghcr.io/johnbasrai/cr8s/cr8s-server:" + Cr8sVersion(env)
  }

  /** Applying a table keeps every value already present and adds exactly the table's keys. */
  lemma {:induction false} InstallKeepsAndAdds(env: Env, table: seq<(string, string)>)
    ensures forall k :: k in env ==> k in Install(env, table) && Install(env, table)[k] == env[k]
    ensures forall k :: k in Install(env, table) <==> k in env || exists i :: 0 <= i < |table| && table[i].0 == k
  {
    if table != [] {
      var init := table[..|table| - 1];
      InstallKeepsAndAdds(env, init);
      forall k
        ensures k in Install(env, table) <==> k in env || exists i :: 0 <= i < |table| && table[i].0 == k
      {
        if exists i :: 0 <= i < |init| && init[i].0 == k {
          var i :| 0 <= i < |init| && init[i].0 == k;
          assert table[i].0 == k;
        }
        if exists i :: 0 <= i < |table| && table[i].0 == k {
          var i :| 0 <= i < |table| && table[i].0 == k;
          if i < |init| {
            assert init[i].0 == k;
          }
        }
      }
    }
  }

  /** An unset key gets the value of the first table entry that names it. */
  lemma {:induction false} InstallFirstEntry(env: Env, table: seq<(string, string)>, i: nat)
    requires i < |table| && table[i].0 !in env
    requires forall j :: 0 <= j < i ==> table[j].0 != table[i].0
    ensures table[i].0 in Install(env, table) && Install(env, table)[table[i].0] == table[i].1
  {
    var init := table[..|table| - 1];
    var k := table[i].0;
    if i == |table| - 1 {
      InstallKeepsAndAdds(env, init);
      if k in Install(env, init) {
        assert false;
      }
    } else {
      InstallFirstEntry(env, init, i);
    }
  }

  /**
   * What `setup_env_for_compose` guarantees: every value already set is kept,
   * each unset compose key receives its mode's default, and nothing else is written.
   */
  lemma ResolveEnvMeaning(env: Env, isDev: bool)
    ensures var r := ResolveEnv(env, isDev);
      && (forall k :: k in r <==> k in env || k in COMPOSE_KEYS)
      && (forall k :: k in env ==> k in r && r[k] == env[k])
      && (forall k :: k in COMPOSE_KEYS && k !in env ==> k in r && r[k] == ComposeDefault(env, isDev, k))
  {
    var table := Defaults(env, isDev);
    var r := ResolveEnv(env, isDev);
    InstallKeepsAndAdds(env, table);
    forall k | k in COMPOSE_KEYS && k !in env
      ensures r[k] == ComposeDefault(env, isDev, k)
    {
      var i :| 0 <= i < |COMPOSE_KEYS| && COMPOSE_KEYS[i] == k;
      InstallFirstEntry(env, table, i);
    }
    forall k ensures k in r <==> k in env || k in COMPOSE_KEYS {
      if k in COMPOSE_KEYS {
        var i :| 0 <= i < |COMPOSE_KEYS| && COMPOSE_KEYS[i] == k;
        assert table[i].0 == k;
      }
    }
  }

  /** `CR8S_VERSION` is read but never exported. */
  lemma ResolveEnvLeavesVersion(env: Env, isDev: bool)
    ensures "CR8S_VERSION" in ResolveEnv(env, isDev) <==> "CR8S_VERSION" in env
    ensures "CR8S_VERSION" in env ==> ResolveEnv(env, isDev)["CR8S_VERSION"] == env["CR8S_VERSION"]
  {
    ResolveEnvMeaning(env, isDev);
  }

  /** After resolution every compose key is set, so a later `get_env_no_default` on it succeeds. */
  lemma ResolveEnvProvidesKeys(env: Env, isDev: bool)
    ensures forall k :: k in COMPOSE_KEYS ==> GetEnvNoDefault(ResolveEnv(env, isDev), k).Ok?
  {
    ResolveEnvMeaning(env, isDev);
  }

  /** When the front-end base image is unset it follows the resolved developer toolchain image. */
  lemma ResolvedBaseImage(env: Env, isDev: bool)
    requires "FE_BASE_IMAGE" !in env
    ensures var r := ResolveEnv(env, isDev);
      "FE_BASE_IMAGE" in r && "RUST_DEV_IMAGE" in r && r["FE_BASE_IMAGE"] == r["RUST_DEV_IMAGE"]
  {
    var r := ResolveEnv(env, isDev);
    ResolveEnvMeaning(env, isDev);
    assert COMPOSE_KEYS[0] == "RUST_DEV_IMAGE" && COMPOSE_KEYS[1] == "FE_BASE_IMAGE";
    var rustDev := GetEnvWithDefault(env, "RUST_DEV_IMAGE", RUST_DEV_IMAGE_DEFAULT);
    assert r["FE_BASE_IMAGE"] == ComposeDefault(env, isDev, "FE_BASE_IMAGE") == rustDev;
    if "RUST_DEV_IMAGE" !in env {
      assert r["RUST_DEV_IMAGE"] == ComposeDefault(env, isDev, "RUST_DEV_IMAGE");
    }
  }

  /** Resolving a resolved environment changes nothing. */
  lemma ResolveEnvIdempotent(env: Env, isDev: bool)
    ensures ResolveEnv(ResolveEnv(env, isDev), isDev) == ResolveEnv(env, isDev)
  {
    var r := ResolveEnv(env, isDev);
    ResolveEnvMeaning(env, isDev);
    ResolveEnvMeaning(r, isDev);
    var r2 := ResolveEnv(r, isDev);
    assert r2.Keys == r.Keys;
    assert forall k :: k in r ==> r2[k] == r[k];
  }

  /** The cache directories under the scratch root. */
  const TARGET_SEGMENT := "dev-target"
  const CARGO_SEGMENT := "dev-cargo"

  /** `CR8S_SCRATCH_DIR`: the scratch root, `/var/tmp` when the variable is unset. */
  function ScratchDir(env: Env): (dir: string)
    ensures "CR8S_SCRATCH_DIR" in env ==> dir == env["CR8S_SCRATCH_DIR"]
    ensures "CR8S_SCRATCH_DIR" !in env ==> dir == "/var/tmp"
  {
    GetEnvWithDefault(env, "CR8S_SCRATCH_DIR", "/var/tmp")
  }

  /** `PathBuf::join` with a relative name: a separator is added unless the root is empty or ends in one. */
  function JoinPath(root: string, name: string): string
  {
    if root == [] then name
    else if root[|root| - 1] == '/' then root + name
    else root + "/" + name
  }

  /** Debug formatting of a path: the path in double quotes. */
  function DebugPath(path: string): (quoted: string)
    ensures |quoted| == |path| + 2
    ensures quoted[0] == '"' && quoted[|quoted| - 1] == '"' && quoted[1..|quoted| - 1] == path
  {
    "\"" + path + "\""
  }

  /** The build-cache directory argument as the commands spell it: the debug form of `root/dev-target`, then `/dev-target`. */
  function TargetDirArg(env: Env): string
  {
    DebugPath(JoinPath(ScratchDir(env), TARGET_SEGMENT)) + "/" + TARGET_SEGMENT
  }

  /** The package-cache directory argument: the debug form of `root/dev-cargo`, then `/dev-cargo`. */
  function CargoDirArg(env: Env): string
  {
    DebugPath(JoinPath(ScratchDir(env), CARGO_SEGMENT)) + "/" + CARGO_SEGMENT
  }

  /**
   * Joining keeps the root in front and the name at the end, with exactly one
   * separator between them unless the root is empty or already ends in one.
   */
  lemma JoinPathShape(root: string, name: string)
    ensures var p := JoinPath(root, name);
      && |p| == |root| + |name| + (if root == [] || root[|root| - 1] == '/' then 0 else 1)
      && p[..|root|] == root
      && p[|p| - |name|..] == name
      && (root != [] ==> p[|p| - |name| - 1] == '/')
  {
  }

  /**
   * The cache arguments repeat the last path segment: the quoted path already
   * ends in `dev-target` (or `dev-cargo`), and the segment follows the closing
   * quote once more.
   */
  lemma ScratchArgsDoubled(env: Env)
    ensures var t := TargetDirArg(env);
      |t| >= 22 && t[|t| - 22..] == TARGET_SEGMENT + "\"/" + TARGET_SEGMENT
    ensures var c := CargoDirArg(env);
      |c| >= 20 && c[|c| - 20..] == CARGO_SEGMENT + "\"/" + CARGO_SEGMENT
  {
    SegmentDoubled(ScratchDir(env), TARGET_SEGMENT);
    SegmentDoubled(ScratchDir(env), CARGO_SEGMENT);
  }

  lemma SegmentDoubled(root: string, seg: string)
    ensures var a := DebugPath(JoinPath(root, seg)) + "/" + seg;
      |a| >= 2 * |seg| + 2 && a[|a| - (2 * |seg| + 2)..] == seg + "\"/" + seg
  {
    var p := JoinPath(root, seg);
    JoinPathShape(root, seg);
    var q := DebugPath(p);
    assert q == "\"" + p + "\"";
    assert q[|q| - |seg| - 1..] == p[|p| - |seg|..] + "\"";
  }

  /** With no scratch variable set, the build cache is `"/var/tmp/dev-target"/dev-target`. */
  lemma DefaultTargetDirArg(env: Env)
    requires "CR8S_SCRATCH_DIR" !in env
    ensures TargetDirArg(env) == DebugPath("/var/tmp/" + TARGET_SEGMENT) + "/" + TARGET_SEGMENT
  {
    var root := ScratchDir(env);
    assert root == "/var/tmp";
    assert root[|root| - 1] == 'p';
    assert JoinPath(root, TARGET_SEGMENT) == root + "/" + TARGET_SEGMENT;
  }

  /**
   * Resolving the compose environment never sets the scratch variable, so the
   * cache arguments the commands use afterwards are those of the caller's
   * environment.
   */
  lemma ResolveKeepsScratchDir(env: Env, isDev: bool)
    ensures "CR8S_SCRATCH_DIR" in ResolveEnv(env, isDev) <==> "CR8S_SCRATCH_DIR" in env
    ensures ScratchDir(ResolveEnv(env, isDev)) == ScratchDir(env)
    ensures TargetDirArg(ResolveEnv(env, isDev)) == TargetDirArg(env)
    ensures CargoDirArg(ResolveEnv(env, isDev)) == CargoDirArg(env)
  {
    ResolveEnvMeaning(env, isDev);
    assert "CR8S_SCRATCH_DIR" !in COMPOSE_KEYS;
  }
}
