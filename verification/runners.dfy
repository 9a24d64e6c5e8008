/** The agent and test phases (`src/runners/agent.ts`, `test.ts` and
    `test-only.ts`): how each builds its context, picks a strategy, runs the
    prepared command once and classifies the outcome. Clocks, progress output
    and console logging are left out. */
module Runners {
  import opened Wrappers
  import opened Strings
  import opened Types
  import DockerStrategy
  import DockerArgs
  import LocalStrategy
  import opened AgentLogger
  import opened Scripts

  /** `AgentResult` without its duration. */
  datatype PhaseResult = PhaseResult(exercise: string, success: bool, error: Option<string>, output: Option<string>)

  /** The strategy a phase uses: Docker iff `useDocker`. With Docker the argv
      is a `docker run` that ends with the command's own arguments and carries
      no spawn options; without it the command runs on the host, as given in
      the exercise directory for `v1` and under `bash -c` in the repository
      for `v2`, with the command's environment. */
  function PrepareWith(useDocker: bool, core: Command, ctx: PrepareContext, host: Host, containerName: string): (r: PreparedCommand)
    ensures useDocker ==> r == DockerStrategy.Prepare(core, ctx, host, containerName)
    ensures !useDocker ==> r == LocalStrategy.Prepare(core, ctx, host)
    ensures useDocker ==>
      && r.options == NoOptions
      && |r.command| >= |DockerArgs.BaseArgs| + |core.args|
      && r.command[..|DockerArgs.BaseArgs|] == DockerArgs.BaseArgs
      && r.command[|r.command| - |core.args|..] == core.args
    ensures !useDocker ==> r.options.env == core.env && r.options.timeout.None?
    ensures !useDocker && !IsV2(ctx.datasetType) ==>
      r.command == core.args && r.options.cwd == Some(host.cwd + "/" + ctx.exercisePath)
    ensures !useDocker && IsV2(ctx.datasetType) ==>
      r.command == ["bash", "-c", Render(LocalStrategy.LocalV2Steps(core.args, ctx))]
      && r.options.cwd == Some(LocalStrategy.ExpandRepoPath(host.repoPath, host.home, host.cwd))
  {
    if useDocker then DockerStrategy.Prepare(core, ctx, host, containerName) else LocalStrategy.Prepare(core, ctx, host)
  }

  /** The executed options: the prepared ones with the configured timeout. */
  function WithTimeout(options: ExecOptions, timeout: Number): (r: ExecOptions)
    ensures r.cwd == options.cwd && r.env == options.env && r.timeout == Some(timeout)
  {
    options.(timeout := Some(timeout))
  }

  /** A phase that threw: failed, with the message and no output. */
  function Thrown(exercise: string, message: string): (r: PhaseResult)
    ensures !r.success && r.error == Some(message) && r.output.None? && r.exercise == exercise
  {
    PhaseResult(exercise, false, Some(message), None)
  }

  /** Where the agent's diff is written: inside the container for Docker
      `v2`, under `<cwd>/.patches` for local `v2`, nowhere otherwise. */
  function GeneratePatchPath(dataset: Option<DatasetType>, useDocker: bool, exercise: string, cwd: string): (r: Option<string>)
    ensures IsV2(dataset) && useDocker ==> r == Some("/patches/" + exercise + ".patch")
    ensures IsV2(dataset) && !useDocker ==> r == Some(PathJoin(PathJoin(cwd, ".patches"), exercise + ".patch"))
    ensures !IsV2(dataset) ==> r.None?
  {
    if !IsV2(dataset) then None
    else if useDocker then Some("/patches/" + exercise + ".patch")
    else Some(PathJoin(PathJoin(cwd, ".patches"), exercise + ".patch"))
  }

  /** The agent's context: test files, dataset, commit and diff path; never an
      apply path or an issue id. */
  function AgentContext(config: BenchmarkConfig, exercise: string, exercisePath: string, useDocker: bool,
                        files: TaskFiles, metadata: Metadata, cwd: string): (r: PrepareContext)
    ensures r.exercisePath == exercisePath && r.testFiles == Some(files.testFiles)
    ensures r.datasetType == config.dataset && r.commitId == metadata.commitId
    ensures r.generatePatchPath == GeneratePatchPath(config.dataset, useDocker, exercise, cwd)
    ensures r.applyPatchPath.None? && r.issueId.None?
  {
    PrepareContext(exercisePath, Some(files.testFiles), config.dataset, metadata.commitId,
      GeneratePatchPath(config.dataset, useDocker, exercise, cwd), None, None)
  }

  /** What the agent phase did: the one executed command with its options,
      the log collection that followed it, and the result. */
  datatype AgentTrace = AgentTrace(executed: Option<(seq<string>, ExecOptions)>, collected: Option<Collected>, result: PhaseResult)

  /** `AgentRunner.run`. `build` is the outcome of creating the builder,
      reading the instructions and task files and building the command;
      `metadata` is the reader's answer. An error anywhere is caught. */
  function AgentRun(config: BenchmarkConfig, exercise: string, exercisePath: string, useDocker: bool,
                    host: Host, containerName: string, build: Result<Command>, files: TaskFiles,
                    metadata: Result<Metadata>, execute: Executor, fs: LogFs): (r: AgentTrace)
    ensures r.result.exercise == exercise
    ensures r.executed.Some? <==> build.Ok? && metadata.Ok?
    ensures r.executed.Some? ==>
      var prepared := PrepareWith(useDocker, build.value,
        AgentContext(config, exercise, exercisePath, useDocker, files, metadata.value, host.cwd), host, containerName);
      r.executed.value == (prepared.command, WithTimeout(prepared.options, config.timeout))
    ensures r.collected.Some? <==> r.executed.Some? && execute(r.executed.value.0, r.executed.value.1).Exited?
    ensures r.result.success <==>
      r.collected.Some? && r.collected.value.thrown.None?
      && execute(r.executed.value.0, r.executed.value.1).result.exitCode == 0
    ensures r.executed.Some? ==>
      match execute(r.executed.value.0, r.executed.value.1)
      case Threw(m) => r.result == Thrown(exercise, m)
      case Exited(res) =>
        && r.collected == Some(Collect(CollectorFor(config.agent), config, exercise, exercisePath, res, host, fs))
        && (r.collected.value.thrown.None? ==> r.result == ClassifyAgent(exercise, res))
        && (r.collected.value.thrown.Some? ==> r.result == Thrown(exercise, r.collected.value.thrown.value))
    ensures build.Err? ==> r.result == Thrown(exercise, build.message)
    ensures build.Ok? && metadata.Err? ==> r.result == Thrown(exercise, metadata.message)
  {
    match build
    case Err(m) => AgentTrace(None, None, Thrown(exercise, m))
    case Ok(core) =>
      match metadata
      case Err(m) => AgentTrace(None, None, Thrown(exercise, m))
      case Ok(meta) =>
        var ctx := AgentContext(config, exercise, exercisePath, useDocker, files, meta, host.cwd);
        var prepared := PrepareWith(useDocker, core, ctx, host, containerName);
        var options := WithTimeout(prepared.options, config.timeout);
        match execute(prepared.command, options)
        case Threw(m) => AgentTrace(Some((prepared.command, options)), None, Thrown(exercise, m))
        case Exited(res) =>
          var c := Collect(CollectorFor(config.agent), config, exercise, exercisePath, res, host, fs);
          if c.thrown.Some? then AgentTrace(Some((prepared.command, options)), Some(c), Thrown(exercise, c.thrown.value))
          else AgentTrace(Some((prepared.command, options)), Some(c), ClassifyAgent(exercise, res))
  }

  /** Exit code 0 is success with the output; anything else is failure with
      stderr as the error and stdout as the output. */
  function ClassifyAgent(exercise: string, res: CommandResult): (r: PhaseResult)
    ensures r.exercise == exercise && r.output == Some(res.stdout)
    ensures r.success <==> res.exitCode == 0
    ensures r.error == if res.exitCode == 0 then None else Some(res.stderr)
  {
    if res.exitCode == 0 then PhaseResult(exercise, true, None, Some(res.stdout))
    else PhaseResult(exercise, false, Some(res.stderr), Some(res.stdout))
  }

  /** The failure text of both test runners. */
  function TestFailureText(res: CommandResult): (r: string)
    ensures StartsWith(r, "STDOUT: " + res.stdout + "\nSTDERR: ")
    ensures EndsWith(r, "\nSTDERR: " + res.stderr)
    ensures |r| == |res.stdout| + |res.stderr| + 17
  {
    var head := "STDOUT: " + res.stdout + "\nSTDERR: ";
    PrefixOfAppend(head, res.stderr);
    EndsWithLastTwo("STDOUT: " + res.stdout, "\nSTDERR: ", res.stderr);
    head + res.stderr
  }

  /** Exit code 0 is success with the output; anything else is failure with
      both streams in the error and stdout as the output. */
  function ClassifyTest(exercise: string, res: CommandResult): (r: PhaseResult)
    ensures r.exercise == exercise && r.output == Some(res.stdout)
    ensures r.success <==> res.exitCode == 0
    ensures r.error == if res.exitCode == 0 then None else Some(TestFailureText(res))
  {
    if res.exitCode == 0 then PhaseResult(exercise, true, None, Some(res.stdout))
    else PhaseResult(exercise, false, Some(TestFailureText(res)), Some(res.stdout))
  }

  /** `TestContext`: what the exercise runner hands the test phase. */
  datatype TestContext = TestContext(commitId: Option<string>, applyPatchPath: Option<string>, datasetType: Option<DatasetType>)

  /** The verification command: the configured test command under `bash -c`,
      with an empty environment. */
  function TestCommand(testCommand: string): (r: Command)
    ensures r.args == ["bash", "-c", testCommand] && r.env == Some([])
  {
    Command(["bash", "-c", testCommand], Some([]))
  }

  /** The test phase's context: the issue id is the exercise exactly for
      `v2`; commit and apply path pass through; no test files, no diff path. */
  function TestPrepareContext(exercise: string, exercisePath: string, context: TestContext): (r: PrepareContext)
    ensures r.exercisePath == exercisePath && r.datasetType == context.datasetType
    ensures r.issueId == if IsV2(context.datasetType) then Some(exercise) else None
    ensures r.commitId == context.commitId && r.applyPatchPath == context.applyPatchPath
    ensures r.testFiles.None? && r.generatePatchPath.None?
  {
    PrepareContext(exercisePath, None, context.datasetType, context.commitId, None, context.applyPatchPath,
      if IsV2(context.datasetType) then Some(exercise) else None)
  }

  datatype TestTrace = TestTrace(executed: (seq<string>, ExecOptions), result: PhaseResult)

  /** `TestRunner.run`: one execution, then classification; a thrown error is caught. */
  function TestRun(config: BenchmarkConfig, exercise: string, exercisePath: string, useDocker: bool,
                   context: TestContext, host: Host, containerName: string, execute: Executor): (r: TestTrace)
    ensures var prepared := PrepareWith(useDocker, TestCommand(config.testCommand),
        TestPrepareContext(exercise, exercisePath, context), host, containerName);
      r.executed == (prepared.command, WithTimeout(prepared.options, config.timeout))
    ensures match execute(r.executed.0, r.executed.1)
      case Threw(m) => r.result == Thrown(exercise, m)
      case Exited(res) => r.result == ClassifyTest(exercise, res)
  {
    var prepared := PrepareWith(useDocker, TestCommand(config.testCommand),
      TestPrepareContext(exercise, exercisePath, context), host, containerName);
    var options := WithTimeout(prepared.options, config.timeout);
    match execute(prepared.command, options)
    case Threw(m) => TestTrace((prepared.command, options), Thrown(exercise, m))
    case Exited(res) => TestTrace((prepared.command, options), ClassifyTest(exercise, res))
  }

  /** `TestOnlyResult` without its duration. */
  datatype TestOnlyResult = TestOnlyResult(exercise: string, testSuccess: bool, testError: Option<string>, output: Option<string>)

  /** The exercise directory of the per-exercise layout. */
  function PracticePath(basePath: string, exercise: string): string {
    PathJoin(PathJoin(PathJoin(basePath, "exercises"), "practice"), exercise)
  }

  /** `TestOnlyRunner.run`: always the local strategy; the exercise path is
      empty for `v2`; the dataset defaults to `v1`; the commit is passed, a
      patch path never. */
  function TestOnlyRun(config: BenchmarkConfig, exercise: string, basePath: string, datasetType: Option<DatasetType>,
                       commitId: Option<string>, host: Host, execute: Executor): (r: (seq<string>, ExecOptions, TestOnlyResult))
    ensures var d := datasetType.GetOr(V1);
      var ctx := PrepareContext(if d == V2 then "" else PracticePath(basePath, exercise), None, Some(d), commitId, None, None, None);
      var prepared := LocalStrategy.Prepare(TestCommand(config.testCommand), ctx, host);
      r.0 == prepared.command && r.1 == WithTimeout(prepared.options, config.timeout)
    ensures r.2.exercise == exercise
    ensures match execute(r.0, r.1)
      case Threw(m) => !r.2.testSuccess && r.2.testError == Some(m) && r.2.output.None?
      case Exited(res) =>
        (r.2.testSuccess <==> res.exitCode == 0) && r.2.output == Some(res.stdout)
        && r.2.testError == (if res.exitCode == 0 then None else Some(TestFailureText(res)))
  {
    var d := datasetType.GetOr(V1);
    var exercisePath := if d == V2 then "" else PracticePath(basePath, exercise);
    var ctx := PrepareContext(exercisePath, None, Some(d), commitId, None, None, None);
    var prepared := LocalStrategy.Prepare(TestCommand(config.testCommand), ctx, host);
    var options := WithTimeout(prepared.options, config.timeout);
    match execute(prepared.command, options)
    case Threw(m) => (prepared.command, options, TestOnlyResult(exercise, false, Some(m), None))
    case Exited(res) =>
      var t := ClassifyTest(exercise, res);
      (prepared.command, options, TestOnlyResult(exercise, t.success, t.error, t.output))
  }

  /** The agent never passes an issue id, so in Docker `v2` the setup exports
      the basename of the exercise path. */
  lemma AgentDockerV2IssueId(config: BenchmarkConfig, exercise: string, exercisePath: string,
                             files: TaskFiles, metadata: Metadata, cwd: string)
    requires IsV2(config.dataset)
    ensures var ctx := AgentContext(config, exercise, exercisePath, true, files, metadata, cwd);
      StartsWith(Render(DockerStrategy.V2Steps(ctx)),
        "export ISSUE_ID=" + LastSegment(DockerStrategy.StripTrailingSlashes(exercisePath), '/') + " && ")
  {
    DockerStrategy.V2ScriptOpens(AgentContext(config, exercise, exercisePath, true, files, metadata, cwd));
  }

  /** The test phase passes the exercise as the issue id for `v2`, so the
      Docker setup exports the exercise name. */
  lemma TestDockerV2IssueId(exercise: string, exercisePath: string, context: TestContext)
    requires IsV2(context.datasetType)
    ensures StartsWith(Render(DockerStrategy.V2Steps(TestPrepareContext(exercise, exercisePath, context))),
      "export ISSUE_ID=" + exercise + " && ")
  {
    DockerStrategy.V2ScriptOpens(TestPrepareContext(exercise, exercisePath, context));
  }
}
