/** `DockerExecutionStrategy.prepare` of `src/execution/docker-strategy.ts`:
    the `docker run` argv for one command, in the per-exercise layout (`v1`)
    or the single-repository layout (`v2`). */
module DockerStrategy {
  import opened Wrappers
  import opened Strings
  import opened Env
  import opened Seqs
  import opened Types
  import opened DockerArgs
  import opened Scripts

  /** The issue id exported to the setup: the context's, else the basename of
      the exercise path (`??` keeps an empty id). */
  function IssueIdFor(ctx: PrepareContext): string {
    match ctx.issueId
    case Some(id) => id
    case None => LastSegment(StripTrailingSlashes(ctx.exercisePath), '/')
  }

  /** `path.basename` ignores trailing separators. */
  function StripTrailingSlashes(p: string): (r: string)
    ensures |r| <= |p| && r == p[..|r|]
    ensures |r| == 0 || r[|r| - 1] != '/'
    ensures forall k :: |r| <= k < |p| ==> p[k] == '/'
  {
    if |p| > 0 && p[|p| - 1] == '/' then StripTrailingSlashes(p[..|p| - 1]) else p
  }

  /** The `v2` script: baseline setup, the size-guarded apply when an apply
      path is set, the wrapped command, and the exit-preserving diff when a
      generate path is set. */
  function V2Steps(ctx: PrepareContext): seq<Step> {
    [BaselineSetup(IssueIdFor(ctx))] + ApplySteps(ctx) + [ExecArgs] + DiffSteps(ctx)
  }

  /** The container environment for `v2`: the command's own with
      `NPM_CONFIG_CACHE` forced to the mounted npm cache. */
  function V2Env(core: Command): (r: Env)
    ensures Lookup(r, "NPM_CONFIG_CACHE") == Some(NpmCacheContainerPath)
    ensures forall k :: k != "NPM_CONFIG_CACHE" ==> Lookup(r, k) == Lookup(core.env.GetOr([]), k)
  {
    Set(core.env.GetOr([]), "NPM_CONFIG_CACHE", NpmCacheContainerPath)
  }

  /** The mounts before the container name in `v2`: the host tree read-only,
      the Claude session directory, the npm cache, the patches directory and
      the issue data read-only. */
  function V2Mounts(host: Host): seq<string> {
    ["-v", host.cwd + ":/ts-bench-host:ro"]
    + ["-v", PathJoin(GetOr(host.env, "HOME", "/root"), ".claude") + ":/root/.claude"]
    + NpmCacheArgs(host.env, host.home)
    + ["-v", PathJoin(host.cwd, ".patches") + ":/patches"]
    + ["-v", PathJoin(host.cwd, host.issuesPath) + ":/app/tests/issues:ro"]
  }

  /** Everything between the fixed prefix and the script in `v2`, ending with
      the container name and `bash -c`. */
  function V2Lead(host: Host): seq<string> {
    ["--entrypoint", "/usr/bin/env"] + CliCacheArgs(host.env, host.home)
  }

  /** The `v2` options after the `-e` list. */
  function V2Trail(host: Host, containerName: string): (r: seq<string>)
    ensures |r| >= 3 && r[|r| - 3..] == [containerName, "bash", "-c"]
  {
    ["--platform", "linux/amd64"] + V2Mounts(host) + ["-w", "/app/expensify"] + [containerName, "bash", "-c"]
  }

  /** The read-only mount of one test file over its copy in the workspace. */
  function TestMount(workspacePath: string, file: string): seq<string> {
    ["-v", PathJoin(workspacePath, file) + ":/workspace/" + file + ":ro"]
  }

  /** The test-file mounts, in the order of the list. */
  function TestMounts(workspacePath: string, testFiles: seq<string>): (r: seq<string>)
    ensures |r| == 2 * |testFiles|
  {
    if |testFiles| == 0 then [] else TestMount(workspacePath, testFiles[0]) + TestMounts(workspacePath, testFiles[1..])
  }

  /** One `-v <ws>/<f>:/workspace/<f>:ro` pair per test file, at the file's position. */
  lemma {:induction false} TestMountsExact(workspacePath: string, testFiles: seq<string>)
    ensures forall i :: 0 <= i < |testFiles| ==>
      TestMounts(workspacePath, testFiles)[2 * i] == "-v"
      && TestMounts(workspacePath, testFiles)[2 * i + 1]
         == PathJoin(workspacePath, testFiles[i]) + ":/workspace/" + testFiles[i] + ":ro"
    decreases |testFiles|
  {
    if |testFiles| > 0 {
      var rest := TestMounts(workspacePath, testFiles[1..]);
      TestMountsExact(workspacePath, testFiles[1..]);
      var r := TestMounts(workspacePath, testFiles);
      assert r == TestMount(workspacePath, testFiles[0]) + rest;
      forall i | 1 <= i < |testFiles|
        ensures r[2 * i] == "-v"
        ensures r[2 * i + 1] == PathJoin(workspacePath, testFiles[i]) + ":/workspace/" + testFiles[i] + ":ro"
      {
        assert r[2 * i] == rest[2 * (i - 1)] && r[2 * i + 1] == rest[2 * (i - 1) + 1];
        assert testFiles[1..][i - 1] == testFiles[i];
      }
    }
  }

  function V1Mounts(ctx: PrepareContext, workspacePath: string): seq<string> {
    if ctx.testFiles.Some? && |ctx.testFiles.value| > 0 then TestMounts(workspacePath, ctx.testFiles.value) else []
  }

  /** Everything between the fixed prefix and the test mounts in `v1`. */
  function V1Options(core: Command, ctx: PrepareContext, host: Host): seq<string> {
    CliCacheArgs(host.env, host.home) + EnvironmentArgs(core.env.GetOr([]))
    + WorkspaceArgs(PathJoin(host.cwd, ctx.exercisePath), None)
  }

  /** The `v2` argv: `bash -c <script> -- <args>` in the container; the script
      is built from the context alone, so the args never enter it. */
  function V2Command(core: Command, host: Host, containerName: string, script: string): (r: seq<string>)
    ensures |r| >= |BaseArgs| + |core.args| + 5 && r[..|BaseArgs|] == BaseArgs
    ensures var n := |r| - |core.args|;
      r[n..] == core.args && r[n - 1] == "--" && r[n - 2] == script
      && r[n - 3] == "-c" && r[n - 4] == "bash" && r[n - 5] == containerName
  {
    V2Join(V2Lead(host), EnvironmentArgs(V2Env(core)), V2Trail(host, containerName), containerName, script, core.args)
  }

  /** `docker run` options, the container, `bash -c <script> --` and the command. */
  function V2Join(lead: seq<string>, env: seq<string>, trail: seq<string>, containerName: string, script: string,
                  args: seq<string>): (r: seq<string>)
    requires |trail| >= 3 && trail[|trail| - 3..] == [containerName, "bash", "-c"]
    ensures |r| >= |BaseArgs| + |args| + 5 && r[..|BaseArgs|] == BaseArgs
    ensures var n := |r| - |args|;
      r[n..] == args && r[n - 1] == "--" && r[n - 2] == script
      && r[n - 3] == "-c" && r[n - 4] == "bash" && r[n - 5] == containerName
  {
    LastOfAppend(lead + env, trail, 3);
    V2Argv(BaseArgs, lead + env + trail, containerName, script, args);
    BaseArgs + ((lead + env + trail) + [script, "--"]) + args
  }

  function PrepareV1(core: Command, ctx: PrepareContext, host: Host, containerName: string): seq<string>
  {
    V1Assemble(BaseArgs, V1Options(core, ctx, host), V1Mounts(ctx, PathJoin(host.cwd, ctx.exercisePath)),
               containerName, core.args)
  }

  /** The shape of the `v2` argv, whatever its parts. */
  lemma V2Argv(base: seq<string>, opts: seq<string>, containerName: string, script: string, args: seq<string>)
    requires |opts| >= 3 && opts[|opts| - 3..] == [containerName, "bash", "-c"]
    ensures var r := base + (opts + [script, "--"]) + args;
      var n := |r| - |args|;
      |r| >= |base| + |args| + 5 && r[..|base|] == base
      && r[n..] == args && r[n - 1] == "--" && r[n - 2] == script
      && r[n - 3] == "-c" && r[n - 4] == "bash" && r[n - 5] == containerName
  {
    var tail := opts + [script, "--"];
    assert tail[|tail| - 5..] == [containerName, "bash", "-c", script, "--"];
    Parts3(base, tail, args);
  }

  /** The `v1` argv from its parts, and its shape whatever the parts. */
  function V1Assemble(base: seq<string>, options: seq<string>, mounts: seq<string>, containerName: string,
                      args: seq<string>): (r: seq<string>)
    ensures |r| == |base| + |options| + |mounts| + 1 + |args|
    ensures var n := |r| - |args|;
      r[..|base|] == base && r[|base|..|base| + |options|] == options
      && r[n..] == args && r[n - 1] == containerName && r[n - 1 - |mounts|..n - 1] == mounts
  {
    var tail := mounts + [containerName];
    var head := base + options;
    var r := head + tail + args;
    assert r[..|base|] == base;
    Parts3(head, tail, args);
    assert tail[..|mounts|] == mounts;
    r
  }

  function Prepare(core: Command, ctx: PrepareContext, host: Host, containerName: string): (r: PreparedCommand)
    ensures r.options == NoOptions
    ensures IsV2(ctx.datasetType) ==> r.command == V2Command(core, host, containerName, Render(V2Steps(ctx)))
    ensures !IsV2(ctx.datasetType) ==> r.command == PrepareV1(core, ctx, host, containerName)
  {
    if IsV2(ctx.datasetType) then PreparedCommand(V2Command(core, host, containerName, Render(V2Steps(ctx))), NoOptions)
    else PreparedCommand(PrepareV1(core, ctx, host, containerName), NoOptions)
  }

  /** `v1`: one read-only mount per listed test file, and none when the list
      is absent or empty; the workspace is bound at `/workspace`. */
  lemma V1TestMountsExact(core: Command, ctx: PrepareContext, host: Host, containerName: string)
    requires !IsV2(ctx.datasetType)
    ensures var files := ctx.testFiles.GetOr([]);
      var mounts := V1Mounts(ctx, PathJoin(host.cwd, ctx.exercisePath));
      |mounts| == 2 * |files|
      && forall i :: 0 <= i < |files| ==>
        mounts[2 * i] == "-v"
        && mounts[2 * i + 1] == PathJoin(PathJoin(host.cwd, ctx.exercisePath), files[i]) + ":/workspace/" + files[i] + ":ro"
  {
    TestMountsExact(PathJoin(host.cwd, ctx.exercisePath), ctx.testFiles.GetOr([]));
  }

  /** `v1`: every forwarded entry of the command's environment is passed as
      an `-e KEY=VALUE` pair of the argv. */
  lemma V1CommandCarriesPair(core: Command, ctx: PrepareContext, host: Host, containerName: string,
                             entry: (string, string)) returns (k: nat)
    requires entry in core.env.GetOr([]) && Forwarded(entry)
    ensures var c := PrepareV1(core, ctx, host, containerName);
      k + 1 < |c| && c[k] == "-e" && c[k + 1] == Assignment(entry)
  {
    var j := V1OptionsCarryPair(core, ctx, host, entry);
    k := V1OptionAt(core, ctx, host, containerName, j);
  }

  /** The `-e KEY=VALUE` pair of a forwarded entry, inside the `v1` options segment. */
  lemma V1OptionsCarryPair(core: Command, ctx: PrepareContext, host: Host, entry: (string, string)) returns (j: nat)
    requires entry in core.env.GetOr([]) && Forwarded(entry)
    ensures var o := V1Options(core, ctx, host);
      j + 1 < |o| && o[j] == "-e" && o[j + 1] == Assignment(entry)
  {
    var i := PairOf(core.env.GetOr([]), entry);
    var cli := CliCacheArgs(host.env, host.home);
    var env := EnvironmentArgs(core.env.GetOr([]));
    var ws := WorkspaceArgs(PathJoin(host.cwd, ctx.exercisePath), None);
    PairAt3(cli, env, ws, i, "-e", Assignment(entry));
    j := |cli| + i;
  }

  /** `v1`: the argv opens with the fixed prefix and the CLI cache mount, and
      binds the exercise directory at `/workspace` as the working directory. */
  lemma V1OptionsShape(core: Command, ctx: PrepareContext, host: Host, containerName: string) returns (k: nat)
    ensures var c := PrepareV1(core, ctx, host, containerName);
      && |c| >= |BaseArgs| + 2 && c[..|BaseArgs|] == BaseArgs
      && c[|BaseArgs|] == "-v" && c[|BaseArgs| + 1] == CliCacheArgs(host.env, host.home)[1]
      && k + 3 < |c| && c[k] == "-v" && c[k + 1] == PathJoin(host.cwd, ctx.exercisePath) + ":" + DefaultWorkingDir
      && c[k + 2] == "-w" && c[k + 3] == DefaultWorkingDir
  {
    var cli := CliCacheArgs(host.env, host.home);
    var env := EnvironmentArgs(core.env.GetOr([]));
    var ws := WorkspaceArgs(PathJoin(host.cwd, ctx.exercisePath), None);
    var o := V1Options(core, ctx, host);
    assert o == cli + env + ws;
    Parts3(cli, env, ws);
    var a := V1OptionAt(core, ctx, host, containerName, 0);
    var j := |cli| + |env|;
    assert o[j] == ws[0] && o[j + 1] == ws[1] && o[j + 2] == ws[2] && o[j + 3] == ws[3];
    k := V1OptionAt(core, ctx, host, containerName, j);
    var k2 := V1OptionAt(core, ctx, host, containerName, j + 2);
  }

  /** An element of the `v1` options segment sits in the argv right after the prefix. */
  lemma V1OptionAt(core: Command, ctx: PrepareContext, host: Host, containerName: string, j: nat) returns (k: nat)
    requires j + 1 < |V1Options(core, ctx, host)|
    ensures var c := PrepareV1(core, ctx, host, containerName);
      var o := V1Options(core, ctx, host);
      k == |BaseArgs| + j && k + 1 < |c| && c[k] == o[j] && c[k + 1] == o[j + 1]
  {
    AssembledOptionAt(BaseArgs, V1Options(core, ctx, host), V1Mounts(ctx, PathJoin(host.cwd, ctx.exercisePath)),
                      containerName, core.args, j);
    k := |BaseArgs| + j;
  }

  /** An element of the options segment, found back in the assembled argv. */
  lemma AssembledOptionAt(base: seq<string>, options: seq<string>, mounts: seq<string>, containerName: string,
                          args: seq<string>, j: nat)
    requires j + 1 < |options|
    ensures var r := V1Assemble(base, options, mounts, containerName, args);
      |base| + j + 1 < |r| && r[|base| + j] == options[j] && r[|base| + j + 1] == options[j + 1]
  {
    var r := V1Assemble(base, options, mounts, containerName, args);
    assert r[|base|..|base| + |options|][j] == options[j];
    assert r[|base|..|base| + |options|][j + 1] == options[j + 1];
  }

  /** `v2`: the script's shape. It opens with the baseline setup for the issue
      id; a guarded apply is present iff an apply path is set; the
      exit-preserving diff is present iff a generate path is set and then
      directly follows the command; no other kind of step occurs. */
  lemma V2ScriptShape(ctx: PrepareContext)
    ensures var steps := V2Steps(ctx);
      && steps[0] == BaselineSetup(IssueIdFor(ctx))
      && (forall p :: GuardedApply(p) in steps <==> Truthy(ctx.applyPatchPath) && p == ctx.applyPatchPath.value)
      && (forall p :: CaptureDiff(p) in steps <==> Truthy(ctx.generatePatchPath) && p == ctx.generatePatchPath.value)
      && (Truthy(ctx.generatePatchPath) ==> steps[|steps| - 2..] == [ExecArgs, CaptureDiff(ctx.generatePatchPath.value)])
      && (!Truthy(ctx.generatePatchPath) ==> steps[|steps| - 1] == ExecArgs)
      && (forall s :: s in steps ==> !s.Inline? && !s.Apply? && !s.HardReset?)
  {
  }

  /** `v2`: the wrapped command runs exactly once, from the positional
      arguments; the argv itself is never written into the script. */
  lemma V2ExecOnce(ctx: PrepareContext)
    ensures Filter((s: Step) => s.ExecArgs?, V2Steps(ctx)) == [ExecArgs]
  {
    var isExec := (s: Step) => s.ExecArgs?;
    var setup := [BaselineSetup(IssueIdFor(ctx))];
    var a := ApplySteps(ctx);
    var g := DiffSteps(ctx);
    FilterAppend(isExec, setup + a + [ExecArgs], g);
    FilterAppend(isExec, setup + a, [ExecArgs]);
    FilterAppend(isExec, setup, a);
    assert Filter(isExec, setup) == [] && Filter(isExec, a) == [] && Filter(isExec, g) == [];
    assert Filter(isExec, [ExecArgs]) == [ExecArgs];
  }

  /** The optional steps of the `v2` script. */
  function ApplySteps(ctx: PrepareContext): seq<Step> {
    if Truthy(ctx.applyPatchPath) then [GuardedApply(ctx.applyPatchPath.value)] else []
  }

  function DiffSteps(ctx: PrepareContext): seq<Step> {
    if Truthy(ctx.generatePatchPath) then [CaptureDiff(ctx.generatePatchPath.value)] else []
  }

  /** The `v2` script text is the setup, the optional guarded apply, the
      wrapped command and the optional diff suffix, in this order. */
  lemma V2ScriptParts(ctx: PrepareContext)
    ensures Render(V2Steps(ctx))
      == RenderStep(BaselineSetup(IssueIdFor(ctx))) + Render(ApplySteps(ctx)) + ExecText
         + (if Truthy(ctx.generatePatchPath) then DiffSuffix(ctx.generatePatchPath.value) else "")
  {
    var setup := [BaselineSetup(IssueIdFor(ctx))];
    var a := ApplySteps(ctx);
    var g := DiffSteps(ctx);
    assert V2Steps(ctx) == setup + a + [ExecArgs] + g;
    RenderAppend(setup + a + [ExecArgs], g);
    RenderAppend(setup + a, [ExecArgs]);
    RenderAppend(setup, a);
    RenderSingle(BaselineSetup(IssueIdFor(ctx)));
    RenderSingle(ExecArgs);
    if Truthy(ctx.generatePatchPath) {
      RenderSingle(CaptureDiff(ctx.generatePatchPath.value));
    }
  }

  /** `v2` script text: it starts with the issue export. */
  lemma V2ScriptOpens(ctx: PrepareContext)
    ensures StartsWith(Render(V2Steps(ctx)), "export ISSUE_ID=" + IssueIdFor(ctx) + " && ")
  {
    V2ScriptParts(ctx);
    var rest := Render(ApplySteps(ctx)) + ExecText
      + (if Truthy(ctx.generatePatchPath) then DiffSuffix(ctx.generatePatchPath.value) else "");
    SetupOpensWithExport(IssueIdFor(ctx));
    StartsWithAppend(RenderStep(BaselineSetup(IssueIdFor(ctx))), rest, "export ISSUE_ID=" + IssueIdFor(ctx) + " && ");
  }

  /** `v2` script text: it ends with the diff suffix right after
      `(exec "$@")` when a generate path is set, else with `(exec "$@")`. */
  lemma V2ScriptCloses(ctx: PrepareContext)
    ensures Truthy(ctx.generatePatchPath) ==>
      EndsWith(Render(V2Steps(ctx)), ExecText + DiffSuffix(ctx.generatePatchPath.value))
    ensures !Truthy(ctx.generatePatchPath) ==> EndsWith(Render(V2Steps(ctx)), ExecText)
  {
    V2ScriptParts(ctx);
    var front := RenderStep(BaselineSetup(IssueIdFor(ctx))) + Render(ApplySteps(ctx));
    if Truthy(ctx.generatePatchPath) {
      EndsWithLastTwo(front, ExecText, DiffSuffix(ctx.generatePatchPath.value));
    } else {
      EndsWithLastTwo(front, ExecText, "");
    }
  }

  /** `v2` forwards the command's environment with `NPM_CONFIG_CACHE=/root/.npm`. */
  lemma V2ForwardsNpmCache(core: Command, ctx: PrepareContext, host: Host, containerName: string)
    returns (k: nat)
    requires IsV2(ctx.datasetType)
    ensures var c := Prepare(core, ctx, host, containerName).command;
      k + 1 < |c| && c[k] == "-e" && c[k + 1] == Assignment(("NPM_CONFIG_CACHE", NpmCacheContainerPath))
  {
    var env := V2Env(core);
    var entry := ("NPM_CONFIG_CACHE", NpmCacheContainerPath);
    LookupIn(env, "NPM_CONFIG_CACHE");
    var i := PairOf(env, entry);
    k := V2CommandCarriesPair(core, host, containerName, Render(V2Steps(ctx)), i, Assignment(entry));
  }

  /** Where the `-e K=V` pair of a forwarded entry sits in the environment list. */
  lemma PairOf(env: Env, entry: (string, string)) returns (i: nat)
    requires entry in env && Forwarded(entry)
    ensures i + 1 < |EnvironmentArgs(env)|
    ensures EnvironmentArgs(env)[i] == "-e" && EnvironmentArgs(env)[i + 1] == Assignment(entry)
  {
    EnvironmentArgsExact(env, entry);
    var e := EnvironmentArgs(env);
    i :| 0 <= i < |e| - 1 && e[i] == "-e" && e[i + 1] == Assignment(entry);
  }

  /** An `-e K=V` pair of the environment list is an `-e K=V` pair of the `v2` argv. */
  lemma V2CommandCarriesPair(core: Command, host: Host, containerName: string, script: string, i: nat, assignment: string)
    returns (k: nat)
    requires i + 1 < |EnvironmentArgs(V2Env(core))|
    requires EnvironmentArgs(V2Env(core))[i] == "-e" && EnvironmentArgs(V2Env(core))[i + 1] == assignment
    ensures var c := V2Command(core, host, containerName, script);
      k + 1 < |c| && c[k] == "-e" && c[k + 1] == assignment
  {
    PairInside(BaseArgs, V2Lead(host), EnvironmentArgs(V2Env(core)), V2Trail(host, containerName),
               [script, "--"], core.args, i);
    k := |BaseArgs| + |V2Lead(host)| + i;
  }

  /** `v2`: the five mounts, in source order: the host checkout read-only,
      the `.claude` directory of `HOME` (or `/root`), the npm cache, the
      patches directory and the issues directory read-only. */
  lemma V2MountsExact(host: Host)
    ensures var m := V2Mounts(host);
      && |m| == 10 && m[0] == "-v" && m[2] == "-v" && m[6] == "-v" && m[8] == "-v"
      && m[1] == host.cwd + ":/ts-bench-host:ro"
      && m[3] == PathJoin(GetOr(host.env, "HOME", "/root"), ".claude") + ":/root/.claude"
      && m[4..6] == NpmCacheArgs(host.env, host.home)
      && m[7] == PathJoin(host.cwd, ".patches") + ":/patches"
      && m[9] == PathJoin(host.cwd, host.issuesPath) + ":/app/tests/issues:ro"
  {
    Mounts5(host.cwd + ":/ts-bench-host:ro", PathJoin(GetOr(host.env, "HOME", "/root"), ".claude") + ":/root/.claude",
            NpmCacheArgs(host.env, host.home), PathJoin(host.cwd, ".patches") + ":/patches",
            PathJoin(host.cwd, host.issuesPath) + ":/app/tests/issues:ro");
  }

  /** Four `-v` pairs around a two-element mount, by position. */
  lemma Mounts5(a: string, b: string, npm: seq<string>, c: string, d: string)
    requires |npm| == 2
    ensures var m := ["-v", a] + ["-v", b] + npm + ["-v", c] + ["-v", d];
      && |m| == 10 && m[0] == "-v" && m[1] == a && m[2] == "-v" && m[3] == b && m[4..6] == npm
      && m[6] == "-v" && m[7] == c && m[8] == "-v" && m[9] == d
  {
  }

  /** `v2`: the mounts sit in the argv between the platform option and the
      working directory option. */
  lemma V2CommandHasMounts(core: Command, host: Host, containerName: string, script: string) returns (k: nat)
    ensures var c := V2Command(core, host, containerName, script);
      var m := V2Mounts(host);
      && 2 <= k && k + |m| + 2 <= |c|
      && c[k - 2..k] == ["--platform", "linux/amd64"] && c[k..k + |m|] == m
      && c[k + |m|..k + |m| + 2] == ["-w", "/app/expensify"]
  {
    k := |BaseArgs| + |V2Lead(host) + EnvironmentArgs(V2Env(core))| + 2;
    TrailInside(BaseArgs, V2Lead(host) + EnvironmentArgs(V2Env(core)), ["--platform", "linux/amd64"], V2Mounts(host),
                ["-w", "/app/expensify"], [containerName, "bash", "-c"], [script, "--"], core.args);
  }

  /** `v2` ignores the test-file list. */
  lemma V2IgnoresTestFiles(core: Command, ctx: PrepareContext, host: Host, containerName: string, files: Option<seq<string>>)
    requires IsV2(ctx.datasetType)
    ensures Prepare(core, ctx, host, containerName) == Prepare(core, ctx.(testFiles := files), host, containerName)
  {
  }
}
