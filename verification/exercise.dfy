/** `ExerciseRunner.run` of `src/runners/exercise.ts`: the phase sequence of
    one task as a trace of abstract events plus the aggregated result, or the
    error that escapes `run`. */
module Exercise {
  import opened Wrappers
  import opened Strings
  import opened Seqs
  import opened Types
  import opened AgentLogger
  import opened Runners

  /** `TestResult` without its durations. */
  datatype TestResult = TestResult(
    exercise: string,
    agentSuccess: bool,
    testSuccess: bool,
    overallSuccess: bool,
    agentError: Option<string>,
    testError: Option<string>)

  /** One observable step of a run. */
  datatype Event =
    | Checkout(commit: string)            // git reset --hard <commit> in the workspace
    | SubmoduleUpdate                     // git submodule update --init --recursive
    | ApplyBugPatch(patch: string)        // git apply of the bug-reintroducing patch
    | Reset(path: string)                 // the resetter restores a clean exercise
    | Agent(agent: AgentTrace)            // the agent phase
    | Restore(path: string, files: seq<string>) // the resetter restores the test files
    | LogDiff(path: string)               // the resetter logs the agent's diff
    | Test(test: TestTrace)               // the test phase

  /** A run: what happened, and the result or the escaping error. */
  datatype Run = Run(trace: seq<Event>, outcome: Result<TestResult>)

  /** The answers of the exercise resetter (not part of this model): the error
      each call throws, if any. */
  datatype Resetter = Resetter(resetError: Option<string>, restoreError: Option<string>, logDiffError: Option<string>)

  /** Everything a run reads besides its configuration. `build` is the agent
      command the builder produces (or its error), `files` the task files,
      `testFiles` the reader's test-file list, `bugPatchSize` the size of the
      bug-reintroducing patch when it exists. */
  datatype World = World(
    host: Host,
    basePath: string,
    containerName: string,
    metadata: Result<Metadata>,
    build: Result<Command>,
    files: TaskFiles,
    testFiles: seq<string>,
    bugPatchSize: Option<nat>,
    resetter: Resetter,
    execute: Executor,
    logFs: LogFs)

  /** The workspace: the repository for `v2`, the practice directory otherwise. */
  function Workspace(config: BenchmarkConfig, exercise: string, w: World): (r: string)
    ensures IsV2(config.dataset) ==> r == w.host.repoPath
    ensures !IsV2(config.dataset) ==> r == PracticePath(w.basePath, exercise)
  {
    if IsV2(config.dataset) then w.host.repoPath else PracticePath(w.basePath, exercise)
  }

  /** The checkout guard reads an absent `useDocker` as local. */
  predicate ChecksOut(config: BenchmarkConfig) {
    IsV2(config.dataset) && config.useDocker != Some(true)
  }

  /** The phases read an absent `useDocker` as Docker. */
  function PhaseUsesDocker(config: BenchmarkConfig): bool {
    config.useDocker.GetOr(true)
  }

  /** Where the bug-reintroducing patch of an issue lives. */
  function BugPatchPath(cwd: string, exercise: string): string {
    PathJoin(PathJoin(PathJoin(cwd, "repos/frontier-evals/project/swelancer/issues"), exercise), "bug_reintroduce.patch")
  }

  /** Options of the checkout commands: only the working directory. */
  function InWorkspace(path: string): ExecOptions {
    ExecOptions(Some(path), None, None)
  }

  /** The argv an event runs through the executor, for the checkout events. */
  function CheckoutArgv(e: Event): seq<string> {
    match e
    case Checkout(c) => ["git", "reset", "--hard", c]
    case SubmoduleUpdate => ["git", "submodule", "update", "--init", "--recursive"]
    case ApplyBugPatch(p) => ["git", "apply", p]
    case _ => []
  }

  /** The local `v2` checkout: hard reset and submodule update when a commit
      is set (an error from either escapes), then the bug patch when it
      exists and is non-empty (an error from it is swallowed). */
  function CheckoutPhase(meta: Metadata, exercise: string, workspace: string, w: World): (r: (seq<Event>, Option<string>))
    ensures Truthy(meta.commitId) <==> |r.0| > 0 && r.0[0].Checkout?
    ensures Truthy(meta.commitId) ==> r.0[0] == Checkout(meta.commitId.value)
    ensures forall e :: e in r.0 ==> e.Checkout? || e.SubmoduleUpdate? || e.ApplyBugPatch?
    ensures ApplyBugPatch(BugPatchPath(w.host.cwd, exercise)) in r.0 <==>
      r.1.None? && w.bugPatchSize.Some? && w.bugPatchSize.value > 0
    ensures r.1.Some? ==> exists e :: e in r.0 && w.execute(CheckoutArgv(e), InWorkspace(workspace)) == Threw(r.1.value)
  {
    var commit :=
      if Truthy(meta.commitId) then
        var c := Checkout(meta.commitId.value);
        match w.execute(CheckoutArgv(c), InWorkspace(workspace))
        case Threw(m) => ([c], Some(m))
        case Exited(_) =>
          match w.execute(CheckoutArgv(SubmoduleUpdate), InWorkspace(workspace))
          case Threw(m) => ([c, SubmoduleUpdate], Some(m))
          case Exited(_) => ([c, SubmoduleUpdate], None)
      else ([], None);
    if commit.1.Some? then commit
    else if w.bugPatchSize.Some? && w.bugPatchSize.value > 0 then
      (commit.0 + [ApplyBugPatch(BugPatchPath(w.host.cwd, exercise))], None)
    else commit
  }

  /** The events before the agent: the checkout when the guard holds, the reset for non-`v2`. */
  function BeforeAgent(config: BenchmarkConfig, meta: Metadata, exercise: string, w: World): (r: (seq<Event>, Option<string>))
    ensures forall e :: e in r.0 ==> e.Checkout? || e.SubmoduleUpdate? || e.ApplyBugPatch? || e.Reset?
    ensures IsV2(config.dataset) ==> forall e :: e in r.0 ==> !e.Reset?
    ensures r.1.Some? ==>
      || r.1 == w.resetter.resetError
      || exists e :: e in r.0 && w.execute(CheckoutArgv(e), InWorkspace(Workspace(config, exercise, w))) == Threw(r.1.value)
  {
    var workspace := Workspace(config, exercise, w);
    var checkout := if ChecksOut(config) then CheckoutPhase(meta, exercise, workspace, w) else ([], None);
    if checkout.1.Some? || IsV2(config.dataset) then checkout
    else (checkout.0 + [Reset(workspace)], w.resetter.resetError)
  }

  /** The events between agent and test: for non-`v2` the test-file restore,
      then the diff log when verbose. */
  function AfterAgent(config: BenchmarkConfig, exercise: string, w: World): (r: (seq<Event>, Option<string>))
    ensures IsV2(config.dataset) ==> r == ([], None)
    ensures forall e :: e in r.0 ==> e.Restore? || e.LogDiff?
    ensures r.1.Some? ==> r.1 == w.resetter.restoreError || r.1 == w.resetter.logDiffError
  {
    var workspace := Workspace(config, exercise, w);
    if IsV2(config.dataset) then ([], None)
    else if w.resetter.restoreError.Some? then ([Restore(workspace, w.testFiles)], w.resetter.restoreError)
    else if config.verbose then ([Restore(workspace, w.testFiles), LogDiff(workspace)], w.resetter.logDiffError)
    else ([Restore(workspace, w.testFiles)], None)
  }

  /** The test phase's context by mode. */
  function TestContextFor(config: BenchmarkConfig, exercise: string, meta: Metadata): (r: TestContext)
    ensures r.datasetType == config.dataset
    ensures IsV2(config.dataset) && PhaseUsesDocker(config) ==>
      r.applyPatchPath == Some("/patches/" + exercise + ".patch") && r.commitId == meta.commitId
    ensures IsV2(config.dataset) && !PhaseUsesDocker(config) ==> r.applyPatchPath.None? && r.commitId.None?
    ensures !IsV2(config.dataset) ==> r.applyPatchPath.None? && r.commitId == meta.commitId
  {
    if IsV2(config.dataset) && PhaseUsesDocker(config) then
      TestContext(meta.commitId, Some("/patches/" + exercise + ".patch"), config.dataset)
    else if IsV2(config.dataset) then TestContext(None, None, config.dataset)
    else TestContext(meta.commitId, None, config.dataset)
  }

  /** The aggregate: overall success is agent and test success; both flags
      and errors are copied. */
  function Aggregate(exercise: string, agent: PhaseResult, test: PhaseResult): (r: TestResult)
    ensures r.exercise == exercise
    ensures r.agentSuccess == agent.success && r.testSuccess == test.success
    ensures r.overallSuccess <==> agent.success && test.success
    ensures r.agentError == agent.error && r.testError == test.error
  {
    TestResult(exercise, agent.success, test.success, agent.success && test.success, agent.error, test.error)
  }

  /** `ExerciseRunner.run`. */
  function RunExercise(config: BenchmarkConfig, exercise: string, w: World): (r: Run)
    ensures r.outcome.Ok? ==> r.outcome.value.exercise == exercise
    ensures IsV2(config.dataset) ==> forall e :: e in r.trace ==> !e.Reset? && !e.Restore? && !e.LogDiff?
    ensures r.outcome.Err? ==>
      || (w.metadata.Err? && r.outcome.message == w.metadata.message)
      || Some(r.outcome.message) == w.resetter.resetError
      || Some(r.outcome.message) == w.resetter.restoreError
      || Some(r.outcome.message) == w.resetter.logDiffError
      || exists e :: e in r.trace && w.execute(CheckoutArgv(e), InWorkspace(Workspace(config, exercise, w))) == Threw(r.outcome.message)
  {
    match w.metadata
    case Err(m) => Run([], Err(m))
    case Ok(meta) => RunFrom(config, exercise, w, meta, AgentPhase(config, exercise, w, meta), TestPhase(config, exercise, w, meta))
  }

  /** The agent phase of a run whose metadata was read. */
  function AgentPhase(config: BenchmarkConfig, exercise: string, w: World, meta: Metadata): AgentTrace {
    AgentRun(config, exercise, Workspace(config, exercise, w), PhaseUsesDocker(config), w.host, w.containerName,
      w.build, w.files, Ok(meta), w.execute, w.logFs)
  }

  /** The test phase of a run whose metadata was read. */
  function TestPhase(config: BenchmarkConfig, exercise: string, w: World, meta: Metadata): TestTrace {
    TestRun(config, exercise, Workspace(config, exercise, w), PhaseUsesDocker(config),
      TestContextFor(config, exercise, meta), w.host, w.containerName, w.execute)
  }

  /** The run once the metadata is read, given what the agent and the test
      phases do: it starts with the events before the agent, and an error
      comes from the resetter or from a checkout command among them. */
  function RunFrom(config: BenchmarkConfig, exercise: string, w: World, meta: Metadata, agent: AgentTrace, test: TestTrace): (r: Run)
    ensures BeforeAgent(config, meta, exercise, w).0 <= r.trace
    ensures r.outcome.Ok? ==> r.outcome.value.exercise == exercise
    ensures IsV2(config.dataset) ==> forall e :: e in r.trace ==> !e.Reset? && !e.Restore? && !e.LogDiff?
    ensures r.outcome.Err? ==>
      || Some(r.outcome.message) == w.resetter.resetError
      || Some(r.outcome.message) == w.resetter.restoreError
      || Some(r.outcome.message) == w.resetter.logDiffError
      || exists e :: e in r.trace && w.execute(CheckoutArgv(e), InWorkspace(Workspace(config, exercise, w))) == Threw(r.outcome.message)
  {
    var before := BeforeAgent(config, meta, exercise, w);
    if before.1.Some? then Run(before.0, Err(before.1.value))
    else Assemble(exercise, before.0, agent, AfterAgent(config, exercise, w), test)
  }

  /** The events from the agent on: the agent, the after-agent events, and
      the test unless an after-agent step threw. */
  function Assemble(exercise: string, before: seq<Event>, agent: AgentTrace, after: (seq<Event>, Option<string>), test: TestTrace): (r: Run)
    ensures before <= r.trace && forall e :: e in before ==> e in r.trace
    ensures forall e :: e in r.trace ==> e in before || e == Agent(agent) || e in after.0 || e == Test(test)
    ensures r.outcome.Err? <==> after.1.Some?
    ensures r.outcome.Err? ==> r.outcome.message == after.1.value
    ensures r.outcome.Ok? ==> r.outcome.value.exercise == exercise
    ensures after.1.Some? ==> r == Run(before + [Agent(agent)] + after.0, Err(after.1.value))
    ensures after.1.None? ==>
      r == Run(before + [Agent(agent)] + after.0 + [Test(test)], Ok(Aggregate(exercise, agent.result, test.result)))
  {
    if after.1.Some? then Run(before + [Agent(agent)] + after.0, Err(after.1.value))
    else Run(before + [Agent(agent)] + after.0 + [Test(test)], Ok(Aggregate(exercise, agent.result, test.result)))
  }

  predicate IsAgent(e: Event) { e.Agent? }
  predicate IsTest(e: Event) { e.Test? }

  /** A completed run has exactly one agent phase and exactly one test phase,
      the test phase last, whatever the agent's result; the result aggregates
      the two phases' results. */
  lemma RunPhases(config: BenchmarkConfig, exercise: string, w: World)
    ensures var r := RunExercise(config, exercise, w);
      r.outcome.Ok? ==>
        |Filter(IsAgent, r.trace)| == 1 && |Filter(IsTest, r.trace)| == 1
        && r.trace[|r.trace| - 1].Test?
        && r.outcome.value == Aggregate(exercise, Filter(IsAgent, r.trace)[0].agent.result,
                                        r.trace[|r.trace| - 1].test.result)
  {
    if w.metadata.Ok? {
      var meta := w.metadata.value;
      var agent := AgentPhase(config, exercise, w, meta);
      var test := TestPhase(config, exercise, w, meta);
      assert RunExercise(config, exercise, w) == RunFrom(config, exercise, w, meta, agent, test);
      RunFromPhases(config, exercise, w, meta, agent, test);
    }
  }

  /** `RunPhases` for given phases: the agent and the test event are the phases' own. */
  lemma RunFromPhases(config: BenchmarkConfig, exercise: string, w: World, meta: Metadata, agent: AgentTrace, test: TestTrace)
    ensures var r := RunFrom(config, exercise, w, meta, agent, test);
      r.outcome.Ok? ==>
        Filter(IsAgent, r.trace) == [Agent(agent)] && Filter(IsTest, r.trace) == [Test(test)]
        && r.trace[|r.trace| - 1] == Test(test)
        && r.outcome.value == Aggregate(exercise, agent.result, test.result)
  {
    var before := BeforeAgent(config, meta, exercise, w);
    if before.1.None? {
      AssembledPhases(exercise, before.0, agent, AfterAgent(config, exercise, w), test);
    }
  }

  /** A completed assembly has one agent and one test event, the test last. */
  lemma AssembledPhases(exercise: string, before: seq<Event>, agent: AgentTrace, after: (seq<Event>, Option<string>), test: TestTrace)
    requires forall e :: e in before ==> !e.Agent? && !e.Test?
    requires forall e :: e in after.0 ==> !e.Agent? && !e.Test?
    ensures var r := Assemble(exercise, before, agent, after, test);
      r.outcome.Ok? ==>
        Filter(IsAgent, r.trace) == [Agent(agent)] && Filter(IsTest, r.trace) == [Test(test)]
        && r.trace[|r.trace| - 1] == Test(test)
        && r.outcome.value == Aggregate(exercise, agent.result, test.result)
  {
    if after.1.None? {
      PhaseCounts(before, Agent(agent), after.0, Test(test));
    }
  }

  /** Events around one agent and one test event, with no phase among them. */
  lemma PhaseCounts(before: seq<Event>, agent: Event, after: seq<Event>, test: Event)
    requires agent.Agent? && test.Test?
    requires forall e :: e in before ==> !e.Agent? && !e.Test?
    requires forall e :: e in after ==> !e.Agent? && !e.Test?
    ensures var trace := before + [agent] + after + [test];
      Filter(IsAgent, trace) == [agent] && Filter(IsTest, trace) == [test]
  {
    NoPhases(before);
    NoPhases(after);
    FilterAppend(IsAgent, before + [agent] + after, [test]);
    FilterAppend(IsAgent, before + [agent], after);
    FilterAppend(IsAgent, before, [agent]);
    FilterAppend(IsTest, before + [agent] + after, [test]);
    FilterAppend(IsTest, before + [agent], after);
    FilterAppend(IsTest, before, [agent]);
    assert Filter(IsAgent, [agent]) == [agent];
    assert Filter(IsTest, [test]) == [test];
    assert Filter(IsAgent, [test]) == [];
    assert Filter(IsTest, [agent]) == [];
  }

  lemma NoPhases(events: seq<Event>)
    requires forall e :: e in events ==> !e.Agent? && !e.Test?
    ensures Filter(IsAgent, events) == [] && Filter(IsTest, events) == []
  {
    if |Filter(IsAgent, events)| > 0 {
      assert Filter(IsAgent, events)[0] in Filter(IsAgent, events);
    }
    if |Filter(IsTest, events)| > 0 {
      assert Filter(IsTest, events)[0] in Filter(IsTest, events);
    }
  }

  /** Non-`v2`: reset before the agent, test-file restore right after it, the
      diff log only when verbose, and no checkout. */
  lemma RunV1Sequence(config: BenchmarkConfig, exercise: string, w: World)
    requires !IsV2(config.dataset)
    ensures var r := RunExercise(config, exercise, w);
      var ws := PracticePath(w.basePath, exercise);
      r.outcome.Ok? ==>
        && |r.trace| == (if config.verbose then 5 else 4)
        && r.trace[0] == Reset(ws) && r.trace[1].Agent? && r.trace[2] == Restore(ws, w.testFiles)
        && (config.verbose ==> r.trace[3] == LogDiff(ws))
        && r.trace[|r.trace| - 1].Test?
  {
    if w.metadata.Ok? {
      var meta := w.metadata.value;
      var agent := AgentPhase(config, exercise, w, meta);
      var test := TestPhase(config, exercise, w, meta);
      var r := RunFrom(config, exercise, w, meta, agent, test);
      assert RunExercise(config, exercise, w) == r;
      RunFromV1(config, exercise, w, meta, agent, test);
      if r.outcome.Ok? {
        V1Positions(r.trace, PracticePath(w.basePath, exercise), agent, w.testFiles, config.verbose, test);
      }
    }
  }

  /** Positions in the non-`v2` trace. */
  lemma V1Positions(trace: seq<Event>, ws: string, agent: AgentTrace, files: seq<string>, verbose: bool, test: TestTrace)
    requires trace == [Reset(ws), Agent(agent), Restore(ws, files)] + (if verbose then [LogDiff(ws)] else []) + [Test(test)]
    ensures |trace| == (if verbose then 5 else 4)
    ensures trace[0] == Reset(ws) && trace[1].Agent? && trace[2] == Restore(ws, files)
    ensures verbose ==> trace[3] == LogDiff(ws)
    ensures trace[|trace| - 1].Test?
  {
  }

  /** `RunV1Sequence` for given phases. */
  lemma RunFromV1(config: BenchmarkConfig, exercise: string, w: World, meta: Metadata, agent: AgentTrace, test: TestTrace)
    requires !IsV2(config.dataset)
    ensures var r := RunFrom(config, exercise, w, meta, agent, test);
      var ws := PracticePath(w.basePath, exercise);
      r.outcome.Ok? ==>
        r.trace == [Reset(ws), Agent(agent), Restore(ws, w.testFiles)] + (if config.verbose then [LogDiff(ws)] else []) + [Test(test)]
  {
  }

  /** The phases never throw: with metadata read, a quiet resetter and an
      executor that never throws in the workspace, the run completes. */
  lemma RunCompletes(config: BenchmarkConfig, exercise: string, w: World)
    requires w.metadata.Ok?
    requires w.resetter == Resetter(None, None, None)
    requires forall argv :: w.execute(argv, InWorkspace(Workspace(config, exercise, w))).Exited?
    ensures RunExercise(config, exercise, w).outcome.Ok?
  {
    var meta := w.metadata.value;
    var agent := AgentPhase(config, exercise, w, meta);
    var test := TestPhase(config, exercise, w, meta);
    assert RunExercise(config, exercise, w) == RunFrom(config, exercise, w, meta, agent, test);
  }

  /** A metadata error escapes before anything runs. */
  lemma RunMetadataFirst(config: BenchmarkConfig, exercise: string, w: World)
    requires w.metadata.Err?
    ensures RunExercise(config, exercise, w) == Run([], Err(w.metadata.message))
  {
  }

  /** The agent phase receives the workspace, the mode the phases use and the
      metadata the run fetched. */
  lemma RunAgentInputs(config: BenchmarkConfig, exercise: string, w: World, i: nat)
    requires i < |RunExercise(config, exercise, w).trace|
    requires RunExercise(config, exercise, w).trace[i].Agent?
    ensures w.metadata.Ok?
    ensures RunExercise(config, exercise, w).trace[i].agent
      == AgentRun(config, exercise, Workspace(config, exercise, w), PhaseUsesDocker(config), w.host,
           w.containerName, w.build, w.files, w.metadata, w.execute, w.logFs)
  {
    var meta := w.metadata.value;
    var agent := AgentPhase(config, exercise, w, meta);
    var test := TestPhase(config, exercise, w, meta);
    assert RunExercise(config, exercise, w) == RunFrom(config, exercise, w, meta, agent, test);
    RunFromAgentAt(config, exercise, w, meta, agent, test, i);
  }

  /** The only agent event of a run is the given agent phase. */
  lemma RunFromAgentAt(config: BenchmarkConfig, exercise: string, w: World, meta: Metadata, agent: AgentTrace, test: TestTrace,
                       i: nat)
    requires i < |RunFrom(config, exercise, w, meta, agent, test).trace|
    requires RunFrom(config, exercise, w, meta, agent, test).trace[i].Agent?
    ensures RunFrom(config, exercise, w, meta, agent, test).trace[i].agent == agent
  {
    var before := BeforeAgent(config, meta, exercise, w).0;
    var after := AfterAgent(config, exercise, w).0;
    assert forall e :: e in before ==> !e.Agent?;
    assert forall e :: e in after ==> !e.Agent?;
    assert i == |before|;
  }

  /** With `useDocker` absent on `v2`, the run both checks out locally (when
      a commit is set) and runs the agent in Docker. */
  lemma AbsentUseDockerQuirk(config: BenchmarkConfig, exercise: string, w: World)
    requires IsV2(config.dataset) && config.useDocker.None?
    requires w.metadata.Ok? && Truthy(w.metadata.value.commitId)
    ensures var r := RunExercise(config, exercise, w);
      |r.trace| > 0 && r.trace[0] == Checkout(w.metadata.value.commitId.value)
    ensures PhaseUsesDocker(config) && ChecksOut(config)
  {
    var meta := w.metadata.value;
    var agent := AgentPhase(config, exercise, w, meta);
    var test := TestPhase(config, exercise, w, meta);
    assert RunExercise(config, exercise, w) == RunFrom(config, exercise, w, meta, agent, test);
    RunFromChecksOut(config, exercise, w, meta, agent, test);
  }

  /** When the checkout guard holds and a commit is set, the run opens with the checkout. */
  lemma RunFromChecksOut(config: BenchmarkConfig, exercise: string, w: World, meta: Metadata, agent: AgentTrace, test: TestTrace)
    requires ChecksOut(config) && Truthy(meta.commitId)
    ensures var r := RunFrom(config, exercise, w, meta, agent, test);
      |r.trace| > 0 && r.trace[0] == Checkout(meta.commitId.value)
  {
    var c := CheckoutPhase(meta, exercise, Workspace(config, exercise, w), w);
    assert BeforeAgent(config, meta, exercise, w) == c;
  }
}
