/** The records of `src/execution/types.ts` and `src/datasets/types.ts`, the
    host facts every strategy and runner reads, and what the process spawner
    answers.
 */
module Types {
  import opened Wrappers
  import opened Env

  /** `'v1'` (per-exercise directories) or `'v2'` (one repository driven by
      commits and patches). Every branch of the core tests `=== 'v2'`, so any
      other dataset string behaves like `V1`. */
  datatype DatasetType = V1 | V2

  predicate IsV2(d: Option<DatasetType>) {
    d == Some(V2)
  }

  /** What to run, independent of where: argv plus an optional environment. */
  datatype Command = Command(args: seq<string>, env: Option<Env>)

  /** Where and how a `Command` is run. `issueId` is read by the Docker
      strategy and set by the test runner although the interface omits it. */
  datatype PrepareContext = PrepareContext(
    exercisePath: string,
    testFiles: Option<seq<string>>,
    datasetType: Option<DatasetType>,
    commitId: Option<string>,
    generatePatchPath: Option<string>,
    applyPatchPath: Option<string>,
    issueId: Option<string>)

  /** An integral JavaScript number, or the `NaN` that `parseInt` gives for
      text without leading digits. */
  datatype Number = Num(n: int) | NaN

  datatype ExecOptions = ExecOptions(cwd: Option<string>, env: Option<Env>, timeout: Option<Number>)

  const NoOptions := ExecOptions(None, None, None)

  datatype PreparedCommand = PreparedCommand(command: seq<string>, options: ExecOptions)

  /** The spawner's answer: the process exited, or `execute` threw. */
  datatype Outcome = Exited(result: CommandResult) | Threw(message: string)

  /** The process spawner, as a function of the prepared argv and options. */
  type Executor = (seq<string>, ExecOptions) -> Outcome

  /** Host state the source reads from globals: `process.cwd()`, `homedir()`,
      `process.env`, and the repository-layout constants `SWELANCER_REPO_PATH`
      and `SWELANCER_ISSUES_PATH` (not part of this model's constants file). */
  datatype Host = Host(cwd: string, home: string, env: Env, repoPath: string, issuesPath: string)

  datatype TaskFiles = TaskFiles(sourceFiles: seq<string>, testFiles: seq<string>)

  datatype Metadata = Metadata(commitId: Option<string>, title: Option<string>)

  /** One entry of `readdir(dir, { withFileTypes: true })`. */
  datatype DirEntry = DirEntry(name: string, isDirectory: bool)

  /** The run configuration (`BenchmarkConfig`, whose declaration is not part
      of this model): the fields the core reads. `useDocker` stays optional
      because its absence is read two different ways. */
  datatype BenchmarkConfig = BenchmarkConfig(
    agent: string,
    model: string,
    provider: Option<string>,
    dataset: Option<DatasetType>,
    useDocker: Option<bool>,
    verbose: bool,
    timeout: Number,
    testCommand: string,
    outputDir: Option<string>)

  /** What `execute` reports when the process ran. */
  datatype CommandResult = CommandResult(exitCode: int, stdout: string, stderr: string)
}
