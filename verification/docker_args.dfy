/** The argv fragments `src/utils/docker.ts` contributes to every `docker run`:
    the fixed prefix, the workspace bind mount, the filtered `-e` list and the
    two cache mounts (the directory creation that goes with them is left out).
 */
module DockerArgs {
  import opened Wrappers
  import opened Strings
  import opened Env
  import opened Seqs

  const BaseArgs: seq<string> := ["docker", "run", "--rm", "-i"]

  const CliCacheEnv := "TS_BENCH_CLI_CACHE"
  const CliCacheContainerPath := "/root/.local"
  const NpmCacheEnv := "TS_BENCH_NPM_CACHE"
  const NpmCacheContainerPath := "/root/.npm"
  const DefaultWorkingDir := "/workspace"

  /** `createWorkspaceArgs`: bind the host directory at the working directory
      (default `/workspace`) and make it the container's cwd. */
  function WorkspaceArgs(workspacePath: string, workingDir: Option<string>): (r: seq<string>)
    ensures |r| == 4 && r[0] == "-v" && r[2] == "-w"
    ensures r[3] == workingDir.GetOr(DefaultWorkingDir)
    ensures StartsWith(r[1], workspacePath) && EndsWith(r[1], ":" + r[3])
    ensures |r[1]| == |workspacePath| + 1 + |r[3]|
  {
    var wd := workingDir.GetOr(DefaultWorkingDir);
    PrefixOfAppend(workspacePath, ":" + wd);
    assert workspacePath + ":" + wd == workspacePath + (":" + wd);
    ["-v", workspacePath + ":" + wd, "-w", wd]
  }

  /** Package-manager prefixes that are forwarded even when empty, to unset them. */
  predicate AllowEmpty(key: string) {
    key == "NPM_CONFIG_PREFIX" || key == "npm_config_prefix" || key == "NPM_PREFIX"
  }

  /** An entry is passed into the container iff it has a value or is allow-listed. */
  predicate Forwarded(entry: (string, string)) {
    entry.1 != "" || AllowEmpty(entry.0)
  }

  function Assignment(entry: (string, string)): string {
    entry.0 + "=" + entry.1
  }

  /** `-e K=V` for each entry, in order. */
  function EnvPairs(entries: Env): (r: seq<string>)
    ensures |r| == 2 * |entries|
    decreases |entries|
  {
    if |entries| == 0 then [] else ["-e", Assignment(entries[0])] + EnvPairs(entries[1..])
  }

  lemma {:induction false} EnvPairsAt(entries: Env, i: nat)
    requires i < |entries|
    ensures EnvPairs(entries)[2 * i] == "-e" && EnvPairs(entries)[2 * i + 1] == Assignment(entries[i])
    decreases i
  {
    if i > 0 {
      EnvPairsAt(entries[1..], i - 1);
      var rest := EnvPairs(entries[1..]);
      assert EnvPairs(entries) == ["-e", Assignment(entries[0])] + rest;
      assert EnvPairs(entries)[2 * i] == rest[2 * (i - 1)];
      assert EnvPairs(entries)[2 * i + 1] == rest[2 * (i - 1) + 1];
    }
  }

  lemma EnvPairsAll(entries: Env)
    ensures forall i :: 0 <= i < |entries| ==>
      EnvPairs(entries)[2 * i] == "-e" && EnvPairs(entries)[2 * i + 1] == Assignment(entries[i])
  {
    forall i | 0 <= i < |entries|
      ensures EnvPairs(entries)[2 * i] == "-e" && EnvPairs(entries)[2 * i + 1] == Assignment(entries[i])
    {
      EnvPairsAt(entries, i);
    }
  }

  /** `createEnvironmentArgs`: one `-e K=V` pair per forwarded entry, in input order. */
  function EnvironmentArgs(env: Env): (r: seq<string>)
    ensures |r| == 2 * |Filter(Forwarded, env)|
    ensures forall i :: 0 <= i < |Filter(Forwarded, env)| ==>
      r[2 * i] == "-e" && r[2 * i + 1] == Assignment(Filter(Forwarded, env)[i])
  {
    EnvPairsAll(Filter(Forwarded, env));
    EnvPairs(Filter(Forwarded, env))
  }

  /** An entry of the input reaches the container iff it is forwarded: its
      `-e K=V` pair is then somewhere in the output, and every pair of the
      output comes from a forwarded entry. */
  lemma EnvironmentArgsExact(env: Env, entry: (string, string))
    ensures (entry in env && Forwarded(entry)) ==>
      exists i :: 0 <= i < |EnvironmentArgs(env)| - 1 && EnvironmentArgs(env)[i] == "-e"
        && EnvironmentArgs(env)[i + 1] == Assignment(entry)
    ensures forall i :: 0 <= i < |Filter(Forwarded, env)| ==>
      Filter(Forwarded, env)[i] in env && Forwarded(Filter(Forwarded, env)[i])
  {
    var kept := Filter(Forwarded, env);
    if entry in env && Forwarded(entry) {
      assert entry in kept;
      var j :| 0 <= j < |kept| && kept[j] == entry;
      var args := EnvironmentArgs(env);
      assert args[2 * j] == "-e" && args[2 * j + 1] == Assignment(entry);
    }
  }

  /** Where a cache lives on the host: the explicit variable when its trimmed
      value is non-empty, else `<home>/.cache/ts-bench/<leaf>`. */
  function CacheHostPath(explicit: Option<string>, home: string, leaf: string): (r: string)
    ensures Truthy(explicit) && Trim(explicit.value) != "" ==> r == explicit.value
    ensures !(Truthy(explicit) && Trim(explicit.value) != "") ==>
      r == PathJoin(PathJoin(PathJoin(home, ".cache"), "ts-bench"), leaf)
  {
    if Truthy(explicit) && |Trim(explicit.value)| > 0 then explicit.value
    else PathJoin(PathJoin(PathJoin(home, ".cache"), "ts-bench"), leaf)
  }

  function CacheMount(hostPath: string, containerPath: string): (r: seq<string>)
    ensures |r| == 2 && r[0] == "-v"
    ensures StartsWith(r[1], hostPath) && EndsWith(r[1], ":" + containerPath)
    ensures |r[1]| == |hostPath| + 1 + |containerPath|
  {
    PrefixOfAppend(hostPath, ":" + containerPath);
    assert hostPath + ":" + containerPath == hostPath + (":" + containerPath);
    ["-v", hostPath + ":" + containerPath]
  }

  /** `createCliCacheArgs`: the agent CLI cache mounted at `/root/.local`. */
  function CliCacheArgs(hostEnv: Env, home: string): (r: seq<string>)
    ensures |r| == 2 && r[0] == "-v" && EndsWith(r[1], ":" + CliCacheContainerPath)
    ensures StartsWith(r[1], CacheHostPath(Lookup(hostEnv, CliCacheEnv), home, "cli"))
    ensures |r[1]| == |CacheHostPath(Lookup(hostEnv, CliCacheEnv), home, "cli")| + 1 + |CliCacheContainerPath|
  {
    CacheMount(CacheHostPath(Lookup(hostEnv, CliCacheEnv), home, "cli"), CliCacheContainerPath)
  }

  /** `createNpmCacheArgs`: the npm cache mounted at `/root/.npm`. */
  function NpmCacheArgs(hostEnv: Env, home: string): (r: seq<string>)
    ensures |r| == 2 && r[0] == "-v" && EndsWith(r[1], ":" + NpmCacheContainerPath)
    ensures StartsWith(r[1], CacheHostPath(Lookup(hostEnv, NpmCacheEnv), home, "npm"))
    ensures |r[1]| == |CacheHostPath(Lookup(hostEnv, NpmCacheEnv), home, "npm")| + 1 + |NpmCacheContainerPath|
  {
    CacheMount(CacheHostPath(Lookup(hostEnv, NpmCacheEnv), home, "npm"), NpmCacheContainerPath)
  }
}
