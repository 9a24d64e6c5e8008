/** `BenchmarkRunner` of `src/benchmark/runner.ts`: task selection, the test
    command for each mode, the configuration handed to every exercise, the
    sequential loop over the selected tasks and the name of the JSON report. */
module Benchmark {
  import opened Wrappers
  import opened Strings
  import opened Seqs
  import opened Types
  import opened Cli
  import opened FileName
  import opened Exercise

  function Min(a: int, b: int): int {
    if a <= b then a else b
  }

  predicate Unknown(tasks: seq<string>, x: string) {
    x !in tasks
  }

  predicate HasTaskId(args: CliArgs) {
    Truthy(args.specificExercise)
  }

  predicate HasList(args: CliArgs) {
    args.exerciseList.Some? && |args.exerciseList.value| > 0
  }

  predicate HasCount(args: CliArgs) {
    args.exerciseCount.Some? && args.exerciseCount.value != 0
  }

  /** `selectExercises`: a truthy task id first, then a non-empty list, then a
      non-zero count, else the first task. An unknown id or list entry ends the
      process with exit code 1, an `Err` here. */
  function SelectExercises(args: CliArgs, tasks: seq<string>): (r: Result<seq<string>>)
    ensures r.Ok? ==> forall x :: x in r.value ==> x in tasks
    ensures HasTaskId(args) ==>
      (r.Ok? <==> args.specificExercise.value in tasks)
      && (r.Ok? ==> r.value == [args.specificExercise.value])
    ensures !HasTaskId(args) && HasList(args) ==>
      (r.Ok? <==> forall x :: x in args.exerciseList.value ==> x in tasks)
      && (r.Ok? ==> r.value == args.exerciseList.value)
    ensures !HasTaskId(args) && !HasList(args) && HasCount(args) ==>
      r.Ok? && |r.value| == Min(args.exerciseCount.value, |tasks|) && r.value == tasks[..|r.value|]
    ensures !HasTaskId(args) && !HasList(args) && !HasCount(args) ==>
      r.Ok? && |r.value| == Min(1, |tasks|) && r.value == tasks[..|r.value|]
  {
    if HasTaskId(args) then
      var x := args.specificExercise.value;
      if x !in tasks then Err("Specified problem '" + x + "' not found") else Ok([x])
    else if HasList(args) then
      var list := args.exerciseList.value;
      var invalid := Filter(x => Unknown(tasks, x), list);
      if |invalid| > 0 then
        assert invalid[0] in list;
        Err("Invalid problem(s): " + Join(invalid, ", "))
      else Ok(list)
    else if HasCount(args) then
      Ok(tasks[..Min(args.exerciseCount.value, |tasks|)])
    else Ok(tasks[..Min(1, |tasks|)])
  }

  const YarnTestCommand := "corepack yarn && corepack yarn test"
  const NativeV2TestCommand := "npm rebuild canvas && npm test -- -o"

  /** The v2 Docker test command: start the task's setup script in the
      background, wait up to 120 seconds for its marker file, then run the
      Ansible test playbook. */
  const AnsibleTestCommand :=
    "export CI=true && /app/tests/run.sh & "
    + "for i in {1..120}; do [ -f /setup_done.txt ] && break; sleep 1; done; "
    + "if [ ! -f /setup_done.txt ]; then echo \"setup did not complete\"; exit 1; fi; "
    + "ansible-playbook -i \"localhost,\" --connection=local /app/tests/run_tests.yml"

  /** The three test commands are pairwise different. */
  lemma TestCommandsDistinct()
    ensures YarnTestCommand != NativeV2TestCommand
    ensures YarnTestCommand != AnsibleTestCommand && NativeV2TestCommand != AnsibleTestCommand
  {
    assert YarnTestCommand[0] != NativeV2TestCommand[0];
    assert YarnTestCommand[0] != AnsibleTestCommand[0];
    assert NativeV2TestCommand[0] != AnsibleTestCommand[0];
  }

  /** The verification command each mode runs. */
  function TestCommandFor(dataset: Option<DatasetType>, useDocker: bool): (r: string)
    ensures r == YarnTestCommand <==> !IsV2(dataset)
    ensures r == AnsibleTestCommand <==> IsV2(dataset) && useDocker
    ensures r == NativeV2TestCommand <==> IsV2(dataset) && !useDocker
  {
    TestCommandsDistinct();
    if IsV2(dataset) then (if useDocker then AnsibleTestCommand else NativeV2TestCommand)
    else YarnTestCommand
  }

  /** The configuration every exercise of a run receives. `useDocker` is
      always present: an absent flag means Docker. */
  function ConfigFor(args: CliArgs): (r: BenchmarkConfig)
    ensures r.useDocker == Some(args.useDocker.GetOr(true))
    ensures IsV2(r.dataset) <==> args.dataset == "v2"
    ensures r.testCommand == TestCommandFor(r.dataset, r.useDocker.value)
    ensures r.agent == args.agent && r.model == args.model && r.timeout == args.timeout
  {
    var useDocker := args.useDocker.GetOr(true);
    var dataset := DatasetOf(args.dataset);
    BenchmarkConfig(
      agent := args.agent,
      model := args.model,
      provider := Some(args.provider),
      dataset := dataset,
      useDocker := Some(useDocker),
      verbose := args.verbose,
      timeout := args.timeout,
      testCommand := TestCommandFor(dataset, useDocker),
      outputDir := args.outputDir)
  }

  /** Because the runner always fills in `useDocker`, the checkout guard and
      the phases agree on the mode for every configuration it builds. */
  lemma ConfigReadsAgree(args: CliArgs)
    ensures ChecksOut(ConfigFor(args)) <==> IsV2(ConfigFor(args).dataset) && !PhaseUsesDocker(ConfigFor(args))
  {
  }

  /** The sequential loop: each task in order, one result each; the first
      task whose run throws ends the loop, and the benchmark, with its error. */
  function RunAll(exercises: seq<string>, run: string -> Result<TestResult>): (r: Result<seq<TestResult>>)
    ensures r.Ok? <==> forall i :: 0 <= i < |exercises| ==> run(exercises[i]).Ok?
    ensures r.Ok? ==> |r.value| == |exercises|
    ensures r.Ok? ==> forall i :: 0 <= i < |exercises| ==> r.value[i] == run(exercises[i]).value
    decreases |exercises|
  {
    if |exercises| == 0 then Ok([])
    else
      match run(exercises[0])
      case Err(m) => Err(m)
      case Ok(result) =>
        match RunAll(exercises[1..], run)
        case Err(m) =>
          assert forall i :: 1 <= i < |exercises| ==> exercises[1..][i - 1] == exercises[i];
          Err(m)
        case Ok(rest) => Ok([result] + rest)
  }

  /** An aborted loop reports the error of the first task that threw; every
      task before it completed. */
  lemma {:induction false} RunAllFirstError(exercises: seq<string>, run: string -> Result<TestResult>)
    returns (k: nat)
    requires RunAll(exercises, run).Err?
    ensures k < |exercises| && run(exercises[k]) == Err(RunAll(exercises, run).message)
    ensures forall i :: 0 <= i < k ==> run(exercises[i]).Ok?
    decreases |exercises|
  {
    if run(exercises[0]).Err? {
      k := 0;
    } else {
      var j := RunAllFirstError(exercises[1..], run);
      k := j + 1;
    }
  }

  /** The outcome of one exercise under the world it meets. */
  function Outcomes(config: BenchmarkConfig, worldFor: string -> World): string -> Result<TestResult> {
    ex => RunExercise(config, ex, worldFor(ex)).outcome
  }

  /** What `run` does: list the tasks, or select, configure and run them. */
  datatype Benchmark =
    | Listed(tasks: seq<string>)
    | Ran(config: BenchmarkConfig, selected: seq<string>, results: seq<TestResult>)

  function RunBenchmark(args: CliArgs, tasks: seq<string>, worldFor: string -> World): (r: Result<Benchmark>)
    ensures args.listExercises ==> r == Ok(Listed(tasks))
    ensures !args.listExercises && SelectExercises(args, tasks).Err? ==> r == Err(SelectExercises(args, tasks).message)
    ensures r.Ok? && r.value.Ran? ==>
      && r.value.config == ConfigFor(args)
      && Ok(r.value.selected) == SelectExercises(args, tasks)
      && Ok(r.value.results) == RunAll(r.value.selected, Outcomes(ConfigFor(args), worldFor))
  {
    if args.listExercises then Ok(Listed(tasks))
    else
      var selected :- SelectExercises(args, tasks);
      var config := ConfigFor(args);
      var results :- RunAll(selected, Outcomes(config, worldFor));
      Ok(Ran(config, selected, results))
  }

  /** A completed benchmark has one result per selected task, in order, each
      naming its task. */
  lemma RanResultsInOrder(args: CliArgs, tasks: seq<string>, worldFor: string -> World)
    requires RunBenchmark(args, tasks, worldFor).Ok? && RunBenchmark(args, tasks, worldFor).value.Ran?
    ensures var b := RunBenchmark(args, tasks, worldFor).value;
      |b.results| == |b.selected| && forall i :: 0 <= i < |b.selected| ==> b.results[i].exercise == b.selected[i]
  {
    var b := RunBenchmark(args, tasks, worldFor).value;
    var run := Outcomes(ConfigFor(args), worldFor);
    forall i | 0 <= i < |b.selected|
      ensures b.results[i].exercise == b.selected[i]
    {
      var ex := b.selected[i];
      assert run(ex) == RunExercise(ConfigFor(args), ex, worldFor(ex)).outcome;
    }
  }

  /** `toISOString().slice(0, 19)` with `:` and `.` replaced by `-`. */
  function RawTimestamp(iso: string): (r: string)
    ensures |r| == Min(19, |iso|)
    ensures forall k :: 0 <= k < |r| ==> r[k] != ':' && r[k] != '.'
    ensures forall k :: 0 <= k < |r| ==> r[k] == (if iso[k] == ':' || iso[k] == '.' then '-' else iso[k])
  {
    var head := iso[..Min(19, |iso|)];
    Map((ch: char) => if ch == ':' || ch == '.' then '-' else ch, head)
  }

  /** `benchmark-<agent>-<model>-<timestamp>.<ext>`, every segment sanitised. */
  function ReportFileName(agent: string, model: string, timestamp: string, ext: string): (r: string)
    ensures StartsWith(r, "benchmark-") && EndsWith(r, "." + ext)
    ensures var a, m, t := SanitizeFilenameSegment(agent, "agent"), SanitizeFilenameSegment(model, "model"),
        SanitizeFilenameSegment(timestamp, "timestamp");
      && |r| == 13 + |a| + |m| + |t| + |ext|
      && r[10..10 + |a|] == a && r[10 + |a|] == '-'
      && r[11 + |a|..11 + |a| + |m|] == m && r[11 + |a| + |m|] == '-'
      && r[12 + |a| + |m|..12 + |a| + |m| + |t|] == t
    ensures '/' !in ext ==> '/' !in r
  {
    var a, m, t := SanitizeFilenameSegment(agent, "agent"), SanitizeFilenameSegment(model, "model"),
      SanitizeFilenameSegment(timestamp, "timestamp");
    NoSlashIn("agent");
    NoSlashIn("model");
    NoSlashIn("timestamp");
    ReportName(a, m, t, ext)
  }

  /** A sanitised segment with a slash-free fallback has no slash. */
  lemma NoSlashIn(fallback: string)
    requires fallback == "agent" || fallback == "model" || fallback == "timestamp"
    ensures forall v :: '/' !in SanitizeFilenameSegment(v, fallback)
  {
    assert '/' !in fallback;
  }

  /** The report name around already-sanitised segments. */
  function ReportName(a: string, m: string, t: string, ext: string): (r: string)
    ensures StartsWith(r, "benchmark-") && EndsWith(r, "." + ext)
    ensures |r| == 13 + |a| + |m| + |t| + |ext|
    ensures r[10..10 + |a|] == a && r[10 + |a|] == '-'
    ensures r[11 + |a|..11 + |a| + |m|] == m && r[11 + |a| + |m|] == '-'
    ensures r[12 + |a| + |m|..12 + |a| + |m| + |t|] == t
    ensures '/' !in a && '/' !in m && '/' !in t && '/' !in ext ==> '/' !in r
  {
    var body := a + "-" + m + "-" + t;
    var full := "benchmark-" + a + "-" + m + "-" + t + "." + ext;
    assert full[10..10 + |a|] == a;
    assert full[11 + |a|..11 + |a| + |m|] == m;
    assert full[12 + |a| + |m|..12 + |a| + |m| + |t|] == t;
    assert "benchmark-" + a + "-" + m + "-" + t + "." + ext == "benchmark-" + (body + "." + ext);
    PrefixOfAppend("benchmark-", body + "." + ext);
    assert "benchmark-" + a + "-" + m + "-" + t + "." + ext == ("benchmark-" + body) + ("." + ext);
    PrefixOfAppend("benchmark-" + body, "." + ext);
    "benchmark-" + a + "-" + m + "-" + t + "." + ext
  }

  /** `generateOutputPath`: the report file in the output directory, `./results` by default. */
  function OutputPath(outputDir: Option<string>, agent: string, model: string, iso: string, ext: string): string {
    OrElse(outputDir, "./results") + "/" + ReportFileName(agent, model, RawTimestamp(iso), ext)
  }

  /** Whatever the agent and model names, the report lands directly in the
      output directory: its file name is one path segment. */
  lemma OutputPathInDir(outputDir: Option<string>, agent: string, model: string, iso: string, ext: string)
    requires '/' !in ext
    ensures var p := OutputPath(outputDir, agent, model, iso, ext);
      StartsWith(p, OrElse(outputDir, "./results") + "/")
      && LastSegment(p, '/') == ReportFileName(agent, model, RawTimestamp(iso), ext)
  {
    var name := ReportFileName(agent, model, RawTimestamp(iso), ext);
    var dir := OrElse(outputDir, "./results");
    LastSegmentAfter(dir, name, '/');
    PrefixOfAppend(dir + "/", name);
  }
}
