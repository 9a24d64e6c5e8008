# ts-bench core, modelled in Dafny

ts-bench runs AI coding agents (Claude Code, Codex, Copilot, Kimi, Vibe and
others) against benchmark tasks and checks their work. Two datasets supply the
tasks:

- `v1` is the Exercism TypeScript practice set.
- `v2` is the SWE-Lancer `ic_swe` issues.

For each task the exercise runner prepares a workspace, runs the agent and
then runs the task's tests. Both runs go through an execution strategy:

- the Docker strategy builds a `docker run` argv;
- the local strategy builds an argv and a working directory.

At the end, the results can be pushed as solutions to a branch of the
Exercism submodule.

This project models that core as pure functions over immutable data:

- Commands, contexts, environments and prepared commands are datatypes.
- The environment, a `Record<string, string>` in TypeScript, is an ordered
  association list.
- The shell scripts that `v2` wraps around the agent are typed lists of steps
  (`Scripts.Step`), rendered to the exact text the source builds.
- Anything the program reads from outside is a parameter:
  - the host (`Types.Host`): working directory, home directory, process
    environment, repository paths;
  - the command executor (`Types.Executor`), whose result is either an exit
    or a thrown error;
  - the file system, as presence predicates and listings;
  - the CSV and Markdown contents of the datasets.
- A thrown `Error` is an `Err(message)` of `Wrappers.Result`.
- `undefined` is `None` of `Wrappers.Option`.
- JavaScript truthiness of optional strings is `Wrappers.Truthy`.
- A run of the exercise runner is a trace of events plus its result. The
  ordering, presence and absence properties of the phases are stated on that
  trace.

Modules follow the repository's files:

| module | source files |
|---|---|
| `FileName` | `src/utils/file-name.ts` |
| `Paths` | `src/config/paths.ts` |
| `DockerArgs` | `src/utils/docker.ts` |
| `DockerStrategy`, `LocalStrategy`, `Scripts`, `Types` | `src/execution/*` |
| `Cli` | `src/utils/cli.ts` |
| `Logger` | `src/utils/logger.ts` |
| `AgentLogger` | `src/utils/agent-logger.ts` |
| `Agents` | `src/agents/*` |
| `Runners` | `src/runners/agent.ts`, `test.ts`, `test-only.ts` |
| `Exercise` | `src/runners/exercise.ts` |
| `Benchmark` | `src/benchmark/runner.ts` |
| `Exercism`, `SweLancer`, `Reader` | `src/datasets/*`, `src/exercises/reader.ts` |
| `Solutions` | `src/utils/solution-collector.ts` |
| `Submodule` | `src/utils/submodule-manager.ts` |
| `ResultPusher` | `src/utils/result-pusher.ts` |

`Env`, `Strings`, `Seqs`, `Sorting` and `Wrappers` are shared helpers.

## Model

| member | source | states |
|---|---|---|
| FileName.ReplaceInvalid | src/utils/file-name.ts:1-6 | every character of `<>:"/\|?*` and every control character becomes `-`; every other character and the length are kept |
| FileName.StripTrailingDots | src/utils/file-name.ts:9 | the result is the input without its maximal trailing run of dots; characters and single dashes are kept |
| FileName.StripEdgeDashes | src/utils/file-name.ts:10 | the result is the slice of the input between its leading dash run and its trailing dash run: everything removed is a dash, and it has no dash at either end |
| FileName.SanitizeFilenameSegment | src/utils/file-name.ts:3-13 | the passes' result when it is non-empty, else the fallback; a `/` survives only through the fallback |
| FileName.SanitizeClean | src/utils/file-name.ts:3-13 | for every input, the passes leave no invalid character, no whitespace, no double dash and no dash at either end |
| FileName.RewritesClean | src/utils/file-name.ts:5-8 | after trim, invalid-character replacement and run collapsing, no invalid character, whitespace or double dash remains |
| FileName.StripsClean | src/utils/file-name.ts:9-10 | stripping trailing dots and edge dashes keeps a clean string clean and leaves no edge dash |
| FileName.SanitizeKeepsClean | src/utils/file-name.ts:3-13 | a segment already in the output shape, not ending in a dot, is returned unchanged, with the default fallback too |
| FileName.ReplaceRunsSingleDashes | src/utils/file-name.ts:8 | collapsing dash runs leaves a string with only single dashes unchanged |
| FileName.SanitizeNotIdempotent | src/utils/file-name.ts:9-10 | `a.-` sanitises to `a.` and `a.` to `a`: the dots pass runs before the dash pass, so sanitising twice can change the result |
| Paths.AgentScriptPath | src/config/paths.ts:4-13 | Docker `v2` uses the host-mounted script; Docker otherwise uses `/app/scripts`; local runs use `<cwd>/scripts/run-agent.sh` |
| Paths.AgentScriptPathDefaults | src/config/paths.ts:4 | an absent dataset behaves as `v1`; the local path does not depend on the dataset |
| Env.Set | src/execution/docker-strategy.ts:41-44 | the spread-and-override of one key: that key then maps to the new value, every other key is unchanged, and an existing key keeps its position |
| Env.LookupIn | src/execution/docker-strategy.ts:41-44 | a value found under a key comes from an entry of the environment |
| DockerArgs.WorkspaceArgs | src/utils/docker.ts:16-22 | `-v <path>:<wd> -w <wd>`: the bind string is the workspace path, a colon and the working directory, which defaults to `/workspace` |
| DockerArgs.EnvironmentArgs | src/utils/docker.ts:24-31 | one `-e K=V` pair per forwarded entry, in input order, and nothing else |
| DockerArgs.EnvironmentArgsExact | src/utils/docker.ts:24-31 | every forwarded entry of the environment (a non-empty value, or one of the three npm prefix keys) has its `-e K=V` pair in the argv, and every pair of the argv comes from a forwarded entry of the environment |
| DockerArgs.EnvPairsAt | src/utils/docker.ts:30 | the i-th entry's `-e` and `K=V` sit at positions 2i and 2i+1 |
| DockerArgs.CacheHostPath | src/utils/docker.ts:38-45 | the explicit variable when it is truthy with non-blank trim, else `<home>/.cache/ts-bench/<leaf>` |
| DockerArgs.CliCacheArgs | src/utils/docker.ts:33-45 | `-v <host>:/root/.local`, where the bind string is exactly the resolved CLI cache directory, a colon and the container path |
| DockerArgs.NpmCacheArgs | src/utils/docker.ts:47-59 | `-v <host>:/root/.npm`, where the bind string is exactly the resolved npm cache directory, a colon and the container path |
| DockerStrategy.Prepare | src/execution/docker-strategy.ts:9-97 | `v2` gives the `bash -c <script> --` argv; anything else gives the `v1` argv; options are always empty |
| DockerStrategy.V2Command | src/execution/docker-strategy.ts:46-63 | the `v2` argv starts with `docker run --rm -i` and ends with the container, `bash -c`, the script, `--` and the command's own arguments, in that order |
| DockerStrategy.V2Join | src/execution/docker-strategy.ts:46-63 | the same shape for any options that end in the container and `bash -c` |
| DockerStrategy.V2Env | src/execution/docker-strategy.ts:41-44 | the container environment forces `NPM_CONFIG_CACHE=/root/.npm` and otherwise agrees with the command's environment |
| DockerStrategy.V2Trail | src/execution/docker-strategy.ts:51-59 | the options after the `-e` list end with the container name and `bash -c` |
| DockerStrategy.V2ForwardsNpmCache | src/execution/docker-strategy.ts:41-50 | some `-e` of a `v2` argv is followed by `NPM_CONFIG_CACHE=/root/.npm` |
| DockerStrategy.V2CommandCarriesPair | src/execution/docker-strategy.ts:46-63 | every `-e K=V` pair of the environment list appears, adjacent, in the `v2` argv |
| DockerStrategy.V2MountsExact | src/execution/docker-strategy.ts:12-21 | the five `v2` mounts in order: the host checkout read-only at `/ts-bench-host`, `<HOME or /root>/.claude`, the npm cache, `<cwd>/.patches` and the issues directory read-only |
| DockerStrategy.V2CommandHasMounts | src/execution/docker-strategy.ts:46-58 | the mounts sit in the `v2` argv right after `--platform linux/amd64` and right before `-w /app/expensify` |
| DockerStrategy.V2ScriptShape | src/execution/docker-strategy.ts:24-39 | the script opens with the baseline setup for the issue id; the guarded apply is present iff an apply path is set; the diff capture is present iff a generate path is set, and then directly follows the command |
| DockerStrategy.V2ExecOnce | src/execution/docker-strategy.ts:60 | the wrapped command runs exactly once, from the positional arguments |
| DockerStrategy.V2ScriptParts | src/execution/docker-strategy.ts:29-39 | the script text is setup, optional guarded apply, `(exec "$@")` and optional diff suffix, in this order |
| DockerStrategy.V2ScriptOpens | src/execution/docker-strategy.ts:24-29 | the script text starts with `export ISSUE_ID=<id> && `, the id being the context's or the exercise path's basename |
| DockerStrategy.V2ScriptCloses | src/execution/docker-strategy.ts:34-39 | the script text ends with `(exec "$@")`, followed by the diff suffix exactly when a generate path is set |
| DockerStrategy.V2IgnoresTestFiles | src/execution/docker-strategy.ts:10-69 | for `v2`, the test-file list never changes the prepared command |
| DockerStrategy.StripTrailingSlashes | src/execution/docker-strategy.ts:24 | the path without exactly its maximal trailing run of `/`: a prefix that does not end in `/`, and every removed character is `/` |
| DockerStrategy.TestMountsExact | src/execution/docker-strategy.ts:74-81 | one read-only `-v <ws>/<f>:/workspace/<f>:ro` pair per test file, at the file's position |
| DockerStrategy.V1TestMountsExact | src/execution/docker-strategy.ts:71-81 | for `v1`, one read-only mount per listed test file, and none when the list is absent or empty |
| DockerStrategy.V1Assemble | src/execution/docker-strategy.ts:83-91 | the `v1` argv is the fixed prefix, then the options (cache mount, `-e` pairs, workspace bind) unchanged, then the test mounts, the container name and the command's arguments |
| DockerStrategy.V1CommandCarriesPair | src/execution/docker-strategy.ts:83-91 | every forwarded entry of the command's environment appears in the `v1` argv as `-e KEY=VALUE` |
| DockerStrategy.V1OptionsShape | src/execution/docker-strategy.ts:83-91 | the `v1` argv opens with the fixed prefix and the CLI cache mount, and holds `-v <cwd>/<exercise>:/workspace -w /workspace` |
| DockerStrategy.V1OptionAt | src/execution/docker-strategy.ts:83-91 | each option sits in the `v1` argv right after the fixed prefix, at its own offset |
| LocalStrategy.Prepare | src/execution/local-strategy.ts:7-50 | non-`v2` runs the argv as given in `<cwd>/<exercisePath>`; `v2` runs `bash -c <script>` in the expanded repository; the environment is copied and no timeout is set |
| LocalStrategy.ExpandRepoPath | src/execution/local-strategy.ts:12-15 | a leading `~` is replaced by the home directory; any other path is joined to the working directory |
| LocalStrategy.QuoteArg | src/execution/local-strategy.ts:34 | an argument with a space is wrapped in double quotes without escaping; other arguments are kept |
| LocalStrategy.UnquoteQuote | src/execution/local-strategy.ts:34 | quoting alone loses no argument: unquoting gives it back |
| LocalStrategy.CommandLineSplits | src/execution/local-strategy.ts:34 | arguments without spaces are recovered by splitting the command line on spaces |
| LocalStrategy.CommandLineAmbiguous | src/execution/local-strategy.ts:34 | the quoting is not injective: `["a b"]` and `["\"a", "b\""]` give the same command line |
| LocalStrategy.LocalV2ScriptShape | src/execution/local-strategy.ts:23-29 | the hard reset is present iff a commit is set, and is then first; the unguarded apply is present iff an apply path is set; the diff is present iff a generate path is set, and is then last |
| LocalStrategy.LocalV2CommandOnce | src/execution/local-strategy.ts:34-38 | the command line is written into the script exactly once |
| LocalStrategy.LocalV2ScriptOpens | src/execution/local-strategy.ts:23 | with a commit, the script starts with `git reset --hard <commit> && ` |
| LocalStrategy.LocalV2ScriptCloses | src/execution/local-strategy.ts:26-38 | the script ends with the command line, followed by the diff suffix exactly when a generate path is set |
| LocalStrategy.LocalIgnoresTestFilesAndIssue | src/execution/local-strategy.ts:7-50 | the test-file list and the issue id never change the prepared command |
| Scripts.RenderAppend | src/execution/docker-strategy.ts:60 | the script of concatenated steps is the concatenation of their scripts |
| Scripts.SetupOpensWithExport | src/execution/docker-strategy.ts:29 | the setup step opens with `export ISSUE_ID=<id> && ` |
| Cli.FlagValue | src/utils/cli.ts:66-69 | a flag's value is the element right after its first occurrence; it is absent iff the flag is missing or occurs only as the last element |
| Cli.FlagValueAt | src/utils/cli.ts:66-69 | only the first occurrence of a flag counts |
| Cli.NoFlag | src/utils/cli.ts:66-163 | an argv without `--` words sets no flag |
| Cli.LeadingDigits | src/utils/cli.ts:128 | the longest prefix of decimal digits |
| Cli.ParseIntRoundTrip | src/utils/cli.ts:128 | `parseInt` of a printed natural number gives that number |
| Cli.ParseIntDigits | src/utils/cli.ts:183 | a non-empty run of digits parses to its decimal value |
| Cli.ParseIntNaN | src/utils/cli.ts:128 | text that starts with neither whitespace, a sign nor a digit parses to `NaN` |
| Cli.Top25ListNames | src/utils/cli.ts:174-177 | splitting and trimming the default exercise list gives the 25 names of the constant |
| Cli.SplitTrimJoin | src/utils/cli.ts:176 | names free of commas and edge whitespace, joined with commas, come back from split-and-trim |
| Cli.SpecItem | src/utils/cli.ts:188-189 | an item is trimmed and cut to its last `/` segment, or kept whole when that segment is empty |
| Cli.CommaList | src/utils/cli.ts:187-190 | the selected list holds only non-empty items |
| Cli.CommaListOfJoin | src/utils/cli.ts:187-190 | comma-joined clean names come back as the same list |
| Cli.CommaListRoundTrip | src/utils/cli.ts:179-196 | a spec of two or more clean names, joined by commas, classifies as exactly that list |
| Cli.Classify | src/utils/cli.ts:173-196 | no spec: the default list on `v1` only; digits on `v1`: a count; a comma: a list; a `/`: the last segment, or no task when that segment is empty; else the spec itself |
| Cli.DatasetOf | src/utils/cli.ts:76-79 | the rest of the program sees `v2` iff the flag value is exactly `v2` |
| Cli.DefaultTimeout | src/utils/cli.ts:126 | 600 seconds for `v2`, 300 otherwise |
| Cli.SpecOf | src/utils/cli.ts:155-168 | on `v2`, a non-empty `--issue-id` replaces `--exercise` |
| Cli.ParseArgs | src/utils/cli.ts:65-227 | the dataset, timeout, Docker flag and task selection follow their flags and defaults |
| Cli.ParseArgsDefaults | src/utils/cli.ts:65-227 | with no flags: Claude on `sonnet`, dataset `v1`, a 300-second timeout, the default 25-exercise list |
| Logger.KeyOf | src/utils/logger.ts:27 | the text before the first `=`, or the whole argument |
| Logger.SanitizeArg | src/utils/logger.ts:20-31 | a credential-looking argument becomes `<key>=***`; every other argument is kept |
| Logger.SanitizeCommand | src/utils/logger.ts:19-35 | the sanitised arguments joined by spaces, cut to 1024 characters plus `...` when longer |
| Logger.MaskAssignment | src/utils/logger.ts:22-28 | `KEY=value` with an upper-case `_API_KEY`, `_TOKEN` or `_SECRET` key loses its value |
| Logger.BearerWithoutEquals | src/utils/logger.ts:26-28 | an argument with `Bearer ` and no `=` is printed whole, followed by `=***` |
| Logger.PlainArgKept | src/utils/logger.ts:20-30 | an argument matching no pattern is printed as given |
| Logger.AgentCommandLine | src/utils/logger.ts:37-40 | the agent command header followed by exactly the sanitised command |
| Logger.AgentCommandLineMasks | src/utils/logger.ts:37-40 | a credential assignment is printed on the agent command line as `KEY=***` |
| Logger.TestCommandLine | src/utils/logger.ts:42-44 | the test command header followed by exactly the arguments joined by spaces |
| Logger.TestCommandLineSplits | src/utils/logger.ts:42-44 | arguments without spaces are read back by splitting the line after the header |
| Logger.TestCommandLineShowsValues | src/utils/logger.ts:42-44 | the test command line prints an assignment's value unmasked |
| Logger.Preview | src/utils/logger.ts:50 | the first 300 characters of stdout, then `...` when stdout is longer |
| Logger.AgentSuccessLines | src/utils/logger.ts:46-53 | the preview line is printed iff verbose with a non-empty stdout |
| Logger.Excerpt | src/utils/logger.ts:58-59 | the first 500 characters of the stream, or all of it when shorter, always followed by `...` |
| Logger.FailureLines | src/utils/logger.ts:55-77 | the status line `<icon> <exercise> - <phase> Failed (<duration>)`, then, when verbose, `  <phase> STDOUT: <excerpt>` for non-empty stdout and `  <phase> STDERR: <excerpt>` for non-empty stderr, and nothing else |
| Logger.StatusLine | src/utils/logger.ts:90 | the status icon, a space, the exercise name, then ` - <message> (<duration>)`, and nothing more |
| Logger.ExerciseResultLine | src/utils/logger.ts:87-91 | a check mark iff the exercise succeeded, else a cross; then the exercise name and ` - Overall Success (<d>)` or ` - Overall Failed (<d>)`, and nothing more |
| AgentLogger.LogDir | src/utils/agent-logger.ts:10-13 | `<outputDir or results>/<agent>/logs` |
| AgentLogger.ProjectDirName | src/utils/agent-logger.ts:26-30 | the path with every `/` and `\` turned into `-` in place and every `:` dropped, other characters kept in order; so no separator or colon is left |
| AgentLogger.ProjectDirNamePositions | src/utils/agent-logger.ts:26-30 | without colons, separators become `-` in place and every other character is kept |
| AgentLogger.ReplaceTilde | src/utils/agent-logger.ts:54 | a leading `~` becomes the home directory |
| AgentLogger.Resolve | src/utils/agent-logger.ts:46 | an absolute path is kept |
| AgentLogger.ClaudeProjectDir | src/utils/agent-logger.ts:37-58 | `-app` for Docker `v2`; the mangled repository path for other `v2` runs; the mangled exercise path otherwise |
| AgentLogger.GenericLogContent | src/utils/agent-logger.ts:94 | `STDOUT:` with stdout, then `STDERR:` with stderr, with nothing between them but the fixed headers |
| AgentLogger.CollectorFor | src/utils/agent-logger.ts:108-118 | the Claude collector iff the agent is `claude`; the Aider collector iff it is `aider` |
| AgentLogger.Collect | src/utils/agent-logger.ts:32-100 | Claude collection never throws and writes iff a newest `.jsonl` is read and writing succeeds, and what it writes is that log redacted; other collectors write the redacted `STDOUT`/`STDERR` text iff writing succeeds and otherwise report the write error; the file is always `<log dir>/<exercise>.log` |
| Agents.Create | src/agents/factory.ts:15-48 | a builder for a known agent name with the run's model, provider, container and script path; `Unknown agent: <name>` otherwise |
| Agents.CreateKnown | src/agents/factory.ts:24-44 | every dispatched agent name yields its own builder |
| Agents.KimiNotDispatched | src/agents/factory.ts:45-47 | `kimi` is not dispatched by the factory and fails as unknown |
| Agents.ClaudeEnv | src/agents/builders/claude.ts:10-61 | the proxy providers require their key and set key, token and URL; OpenRouter sets an empty key; the default passes `ANTHROPIC_API_KEY` or else `DASHSCOPE_API_KEY`, or nothing |
| Agents.ProxyEnv | src/agents/builders/claude.ts:17-19 | the three Anthropic variables hold the given key, token and URL |
| Agents.ClaudeArgs | src/agents/builders/claude.ts:63-74 | the script under `bash`, `claude`, the model after `--model` and the instructions after `-p` |
| Agents.CodexEnv | src/agents/builders/codex.ts:10-30 | OpenRouter requires its key; OpenAI requires `CODEX_API_KEY` or `OPENAI_API_KEY`, prefers `CODEX_API_KEY` when it is set, and passes the value as `CODEX_API_KEY`; other providers fail |
| Agents.CodexArgs | src/agents/builders/codex.ts:32-47 | `codex exec` with high reasoning effort, the provider (`\|\|` default `openai`), `--yolo`, the model and the instructions |
| Agents.CodexEmptyProvider | src/agents/builders/codex.ts:11-41 | an empty provider is rejected by the environment (`??`) but named `openai` in the arguments (`\|\|`) |
| Agents.KimiEnv | src/agents/builders/kimi.ts:10-19 | only `moonshot` is accepted, and it requires `KIMI_API_KEY` |
| Agents.KimiConfigFor | src/agents/builders/kimi.ts:22-40 | the inline configuration names the model, the base URL (default `https://api.moonshot.ai/v1`) and a 262144-token context |
| Agents.KimiArgs | src/agents/builders/kimi.ts:42-55 | `kimi --print --output-format text --config <json>`, then the model and the instructions |
| Agents.CopilotEnv | src/agents/builders/copilot.ts:9-19 | `COPILOT_ALLOW_ALL=1` always; `COPILOT_MODEL` iff the model is non-empty |
| Agents.CopilotArgs | src/agents/builders/copilot.ts:21-33 | the script under `bash`, `copilot`, and the instructions last |
| Agents.VibeEnv | src/agents/builders/vibe.ts:10-15 | `MISTRAL_API_KEY` is required and is the only variable |
| Agents.VibeArgs | src/agents/builders/vibe.ts:17-26 | `vibe --prompt <instructions> --auto-approve` |
| Agents.RequireEnv | src/agents/builders/claude.ts:16 | succeeds iff the variable is set and non-empty, with its value; otherwise fails with the given message |
| Agents.RequireAnyEnv | src/agents/builders/codex.ts:19-22 | succeeds iff one of the variables is set and non-empty, with the value of the first such variable in the list |
| Agents.BuildCommand | src/agents/base.ts:7-12 | the builder's core arguments with its environment, neither merged nor filtered; an environment error propagates |
| Agents.ShownBuildersRunScript | src/agents/base.ts:7-12 | every command of these builders runs the agent script through `bash` and carries the instructions |
| Agents.CoreArgsRunScript | src/agents/builders/claude.ts:63-74 | the same for the core arguments of each builder |
| Agents.VibeIgnoresModel | src/agents/builders/vibe.ts:17-26 | the Vibe command does not depend on the configured model |
| Runners.PrepareWith | src/runners/agent.ts:57-67 | with Docker the argv opens with the fixed `docker run` prefix, ends with the command's arguments and has no options; without Docker it keeps the command's environment, runs `v1` in the exercise directory unchanged and `v2` as a `bash -c` script in the repository |
| Runners.WithTimeout | src/runners/agent.ts:77 | the prepared options with the configured timeout added |
| Runners.GeneratePatchPath | src/runners/agent.ts:45-55 | `v2` writes the diff to `/patches/<task>.patch` in Docker, or `<cwd>/.patches/<task>.patch` locally; other datasets write none |
| Runners.AgentContext | src/runners/agent.ts:61-67 | the agent's context carries the test files, dataset, commit and diff path, and never an issue id or apply path |
| Runners.AgentRun | src/runners/agent.ts:23-112 | the command runs iff the builder and metadata succeed; logs are collected iff it exited; the result is the exit's classification (stdout as output, stderr as error) when collection did not throw, else a failure with the thrown message; every error becomes a failed result with its message |
| Runners.ClassifyAgent | src/runners/agent.ts:89-98 | exit 0 is success with stdout; otherwise failure with stderr as the error |
| Runners.Thrown | src/runners/agent.ts:99-111 | a thrown phase is a failure with the message and no output |
| Runners.TestCommand | src/runners/test.ts:28-31 | the test command under `bash -c` with an empty environment |
| Runners.TestPrepareContext | src/runners/test.ts:33-39 | the issue id is the exercise exactly for `v2`; the commit and apply path come from the context |
| Runners.TestFailureText | src/runners/test.ts:57 | `STDOUT: <out>` then `STDERR: <err>`, with nothing between them but the fixed headers |
| Runners.ClassifyTest | src/runners/test.ts:49-61 | exit 0 is success; otherwise failure with both streams in the error |
| Runners.TestRun | src/runners/test.ts:20-68 | one prepared execution with the configured timeout, classified; a thrown error becomes a failed result |
| Runners.TestOnlyRun | src/runners/test-only.ts:14-72 | always the local strategy; an empty exercise path for `v2`; the commit but no patch is passed; results classified as in the test runner |
| Runners.AgentDockerV2IssueId | src/runners/agent.ts:61-67 | the agent passes no issue id, so the Docker `v2` setup exports the basename of the exercise path |
| Runners.TestDockerV2IssueId | src/runners/test.ts:33-39 | the test phase's Docker `v2` setup exports the exercise name |
| Exercise.Workspace | src/runners/exercise.ts:27-29 | the repository for `v2`, the practice directory otherwise |
| Exercise.CheckoutPhase | src/runners/exercise.ts:37-59 | hard reset and submodule update iff a commit is set, an error from either escaping; the bug patch is applied iff it exists, is non-empty and nothing threw, and its own error is swallowed |
| Exercise.BeforeAgent | src/runners/exercise.ts:36-64 | the checkout when the guard holds, then the reset for non-`v2`; an error comes from one of them |
| Exercise.AfterAgent | src/runners/exercise.ts:71-81 | nothing for `v2`; otherwise the test-file restore, then the diff log when verbose |
| Exercise.TestContextFor | src/runners/exercise.ts:86-110 | Docker `v2` applies `/patches/<task>.patch` at the commit; local `v2` passes neither; other datasets pass the commit only |
| Exercise.Aggregate | src/runners/exercise.ts:116-130 | overall success iff agent and test succeeded; flags and errors are copied |
| Exercise.RunExercise | src/runners/exercise.ts:25-131 | an escaping error comes from the metadata, the resetter or a checkout command; `v2` never resets, restores or logs a diff |
| Exercise.RunFrom | src/runners/exercise.ts:36-131 | the run begins with the events before the agent; errors come only from the resetter or a checkout command |
| Exercise.Assemble | src/runners/exercise.ts:69-130 | the agent, the after-agent events, then the test unless an after-agent step threw; the result aggregates both phases |
| Exercise.RunPhases | src/runners/exercise.ts:69-113 | a completed run has exactly one agent and one test phase, with the test last, even when the agent failed |
| Exercise.RunFromPhases | src/runners/exercise.ts:69-113 | the same, for given phases |
| Exercise.AssembledPhases | src/runners/exercise.ts:69-113 | an assembly without phases around it holds one agent and one test event, with the test last |
| Exercise.PhaseCounts | src/runners/exercise.ts:69-113 | counting lemma behind `RunPhases` |
| Exercise.RunV1Sequence | src/runners/exercise.ts:61-113 | for non-`v2` with a quiet resetter: reset, agent, restore, diff log when verbose, then test |
| Exercise.RunFromV1 | src/runners/exercise.ts:61-113 | the same trace, for given phases |
| Exercise.V1Positions | src/runners/exercise.ts:61-113 | positions of the events in that trace |
| Exercise.RunCompletes | src/runners/exercise.ts:25-131 | with readable metadata, a quiet resetter and an executor that never throws in the workspace, the run returns a result |
| Exercise.RunMetadataFirst | src/runners/exercise.ts:32 | a metadata error escapes before anything runs |
| Exercise.RunAgentInputs | src/runners/exercise.ts:66-69 | the agent phase receives the workspace, the Docker default of `useDocker ?? true` and the run's metadata |
| Exercise.RunFromAgentAt | src/runners/exercise.ts:69 | the only agent event of a run is the given agent phase |
| Exercise.AbsentUseDockerQuirk | src/runners/exercise.ts:37-66 | with `useDocker` absent on `v2`, the run both checks out locally and runs its phases in Docker |
| Exercise.RunFromChecksOut | src/runners/exercise.ts:37-41 | when the guard holds and a commit is set, the run opens with the checkout |
| Benchmark.SelectExercises | src/benchmark/runner.ts:133-160 | a task id first, then a non-empty list, then a count (capped at the number of tasks), else the first task; an unknown id or list entry is an error; every selected task exists |
| Benchmark.TestCommandFor | src/benchmark/runner.ts:56-66 | yarn tests for non-`v2`, the Ansible script for Docker `v2`, `npm test` for local `v2` |
| Benchmark.TestCommandsDistinct | src/benchmark/runner.ts:56-66 | the three test commands differ |
| Benchmark.ConfigFor | src/benchmark/runner.ts:29-80 | `useDocker` is filled in (default true); the test command matches the mode; agent, model and timeout are copied |
| Benchmark.ConfigReadsAgree | src/benchmark/runner.ts:29 | since the runner fills in `useDocker`, the exercise runner's two readings of it agree |
| Benchmark.RunAll | src/benchmark/runner.ts:82-86 | tasks run in order with one result each; the first error aborts the loop |
| Benchmark.RunAllFirstError | src/benchmark/runner.ts:82-86 | an aborted loop reports the first task that threw, and every earlier task completed |
| Benchmark.RunBenchmark | src/benchmark/runner.ts:18-89 | `--list` only lists; otherwise select, configure and run, propagating a selection error |
| Benchmark.RanResultsInOrder | src/benchmark/runner.ts:82-86 | one result per selected task, in order, each naming its task |
| Benchmark.RawTimestamp | src/benchmark/runner.ts:119 | the first 19 characters of the ISO timestamp, each `:` and `.` replaced by `-` in place and every other character kept |
| Benchmark.ReportFileName | src/benchmark/runner.ts:117-121 | `benchmark-<agent>-<model>-<timestamp>.<ext>` with each of the three parts sanitised (or its fallback) at its place; no `/` when the extension has none |
| Benchmark.OutputPathInDir | src/benchmark/runner.ts:115-123 | whatever the agent and model names, the report lands directly in the output directory |
| Exercism.TaskNames | src/datasets/exercism.ts:12-15 | the sorted names of exactly the visible sub-directories |
| Exercism.GetTasks | src/datasets/exercism.ts:8-20 | a listing error gives no tasks |
| Exercism.GetTaskFiles | src/datasets/exercism.ts:22-61 | test files match one of eight patterns; source files have a source extension and are not tests; a listing error gives none (order: `Exercism.TaskFilesAppend`) |
| Exercism.TaskFilesAppend | src/datasets/exercism.ts:22-61 | the lists of a concatenated listing are the parts' lists concatenated, so listing order and repetitions are kept |
| Exercism.TaskFilesSingle | src/datasets/exercism.ts:22-61 | one listed file is a test file, a source file, or neither |
| Exercism.TaskFilesDisjoint | src/datasets/exercism.ts:47-54 | no file is both a source file and a test file |
| Exercism.TaskFilesCover | src/datasets/exercism.ts:47-54 | every file with a source extension lands in one of the two lists |
| Exercism.GetTestFiles | src/datasets/exercism.ts:63-66 | exactly the listed files matching a test pattern; none when the directory cannot be read |
| Exercism.GetTaskMetadata | src/datasets/exercism.ts:68-70 | the task id as title and never a commit |
| Exercism.InstructionText | src/datasets/exercism.ts:72-89 | base, exercise instructions and environment joined by blank lines, then the custom instruction when truthy |
| Exercism.GetInstructions | src/datasets/exercism.ts:72-89 | succeeds iff both files are read; errors are rethrown with the task id, the environment file first |
| Sorting.Sort | src/datasets/exercism.ts:15 | a sorted permutation of the input |
| Sorting.SortSameElements | src/exercises/reader.ts:51 | sorting keeps exactly the same elements |
| SweLancer.LoadTasks | src/datasets/swelancer.ts:26-43 | the cache when set, even when empty; otherwise the `ic_swe` records, cached; a read error gives none and caches nothing (order: `SweLancer.LoadTasksAppend`) |
| SweLancer.LoadTasksAppend | src/datasets/swelancer.ts:26-43 | a fresh load of concatenated records is the loads of the parts concatenated, so file order and repetitions are kept |
| SweLancer.LoadTasksSingle | src/datasets/swelancer.ts:26-43 | a fresh load of one record keeps it iff it is an `ic_swe` record |
| SweLancer.LoadCached | src/datasets/swelancer.ts:27 | after a successful load, later calls see the same tasks whatever the file then says |
| SweLancer.GetTasks | src/datasets/swelancer.ts:45-48 | the question ids of the loaded tasks, in file order |
| SweLancer.TasksAreIc | src/datasets/swelancer.ts:37 | a listed id belongs to an `ic_swe` record |
| SweLancer.GetTaskFiles | src/datasets/swelancer.ts:50-58 | always empty |
| SweLancer.GetTestFiles | src/datasets/swelancer.ts:60-62 | always empty |
| SweLancer.Find | src/datasets/swelancer.ts:66 | the first task with that question id, or none iff no task has it |
| SweLancer.GetTaskMetadata | src/datasets/swelancer.ts:64-82 | the trimmed commit file when readable; the title iff the task is found |
| SweLancer.TaskInstructions | src/datasets/swelancer.ts:89-97 | title, description and goal after the base, then the custom instruction when truthy |
| SweLancer.GetInstructions | src/datasets/swelancer.ts:84-100 | an unknown id fails with `Task <id> not found`; a known one gives its instructions |
| Reader.ResolveBasePath | src/exercises/reader.ts:18-41 | `<cwd>/<base>` when it holds `CLAUDE.md`; else the `repos/` fallback for `exercism-typescript` when that holds it; else `<cwd>/<base>`; the answer is cached |
| Reader.ResolveCached | src/exercises/reader.ts:19-21 | once resolved, later calls return the same path whatever the file system says |
| Reader.GetExercises | src/exercises/reader.ts:43-52 | the sorted visible sub-directories; a listing error propagates |
| Reader.GetTestFiles | src/exercises/reader.ts:54-79 | the files matching one of the eight test patterns; none on error (order: `Reader.ReaderFilesAppend`) |
| Reader.GetSourceFiles | src/exercises/reader.ts:81-111 | source-extension files that match none of the four basic test patterns; none on error (order: `Reader.ReaderFilesAppend`) |
| Reader.ReaderFilesAppend | src/exercises/reader.ts:54-111 | each list of a concatenated listing is the parts' lists concatenated, so listing order and repetitions are kept |
| Reader.ReaderFilesSingle | src/exercises/reader.ts:54-111 | where one listed file goes in each list |
| Reader.GetFileList | src/exercises/reader.ts:113-120 | both lists come from the same listing: a file is a test file iff it matches a test pattern and a source file iff it has a source extension and matches no basic test pattern; both empty on error |
| Reader.ReaderOverlap | src/exercises/reader.ts:96-105 | a source file matching only the extra test patterns is both a source and a test file here, but only a test file in the Exercism dataset |
| Reader.SameTestFiles | src/exercises/reader.ts:54-79 | the test list agrees with the Exercism dataset's |
| Reader.GetInstructions | src/exercises/reader.ts:122-140 | the Exercism text; an error is rethrown as `Failed to read exercise instructions for <name>: ...` |
| Solutions.SolutionCandidates | src/utils/solution-collector.ts:64-80 | the ten fixed candidate paths, in order |
| Solutions.FirstPresent | src/utils/solution-collector.ts:82-86 | the first present path, or none iff none is present |
| Solutions.Search | src/utils/solution-collector.ts:101-123 | a path found by the walk lies under the directory and ends with a target name (first in walk order: `Solutions.SearchIsFirstOfWalk`) |
| Solutions.SearchIsFirstOfWalk | src/utils/solution-collector.ts:101-123 | the search finds nothing iff the depth-first walk has no target file, and otherwise finds the walk's first one |
| Solutions.FindSolution | src/utils/solution-collector.ts:62-99 | the first present fixed candidate when there is one; otherwise the first target file of the depth-first walk of a readable exercise directory, and nothing when that directory is absent or unreadable |
| Solutions.FindGenerated | src/utils/solution-collector.ts:125-150 | the first present generated-file candidate, or none iff none is present |
| Solutions.ErrorOf | src/utils/solution-collector.ts:43 | the agent error when truthy, else the test error |
| Solutions.SuccessEntry | src/utils/solution-collector.ts:19-28 | one successful entry iff a solution file is found |
| Solutions.CollectSuccessful | src/utils/solution-collector.ts:15-31 | at most one entry per passing result |
| Solutions.CollectFoundLength | src/utils/solution-collector.ts:15-31 | the successful collection has at most one entry per result, and every entry is successful |
| Solutions.Entry | src/utils/solution-collector.ts:36-56 | a found solution carries the result's flag, with an error only for failures; a failed result without one falls back to a generated file |
| Solutions.CollectAll | src/utils/solution-collector.ts:33-60 | at most one entry per result; a successful entry has no error |
| Solutions.CollectAllFacts | src/utils/solution-collector.ts:33-60 | the full collection has at most one entry per result, and no successful entry carries an error |
| Solutions.CollectAllAppend | src/utils/solution-collector.ts:36 | collection distributes over concatenation of results |
| Solutions.SuccessfulAreFilteredAll | src/utils/solution-collector.ts:15-60 | the successful collection is exactly the successful part of the full collection |
| Solutions.DirEntries | src/utils/solution-collector.ts:161-175 | succeeds iff no entry is unstattable; then the directories with a solution, each once, in listing order, marked successful |
| Solutions.DirEntriesComplete | src/utils/solution-collector.ts:161-175 | a listed directory with a solution appears in the result at its place: after the earlier entries' solutions and before the later ones' |
| Solutions.CollectFromDir | src/utils/solution-collector.ts:152-178 | nothing when the directory is absent; an error when it cannot be listed or an entry cannot be statted; otherwise every listed directory with a solution, in listing order, found under the collector's own output directory |
| Submodule.BranchName | src/utils/submodule-manager.ts:65-68 | `results/<agent>-<model>/<runId>` |
| Submodule.BranchNameParts | src/utils/submodule-manager.ts:65-68 | with slash-free parts, the branch splits into `results`, `<agent>-<model>` and the run id |
| Submodule.CompareUrl | src/utils/submodule-manager.ts:162-166 | `https://github.com/<repo>/compare/main...<branch>` |
| Submodule.RepoNameOf | src/utils/submodule-manager.ts:164 | for `.../<owner>/<name>.git`, the repository name is `<owner>/<name>` |
| Submodule.LastTwoParts | src/utils/submodule-manager.ts:164 | the last two `/` parts of such a URL are the owner and `<name>.git` |
| Submodule.CompareUrlOfRepo | src/utils/submodule-manager.ts:162-166 | the compare URL of such a remote names the owner and repository |
| Submodule.AuthUrl | src/utils/submodule-manager.ts:157 | a URL without `https://` is unchanged |
| Submodule.AuthUrlInsertsToken | src/utils/submodule-manager.ts:157 | `https://<rest>` becomes `https://<token>@<rest>` |
| Submodule.SolutionType | src/utils/submodule-manager.ts:148 | `all solutions (successful and failed)` iff all solutions are included |
| Submodule.CommitMessage | src/utils/submodule-manager.ts:149 | `feat(results): Add <type> from <agent>/<model> (Run <id>)`: the head, then `<agent>/<model>` at its place, then the run tail, and nothing else |
| Submodule.ExecAll | src/utils/submodule-manager.ts:70-83 | commands run in order until the first one fails, whose error is returned |
| Submodule.CopyActions | src/utils/submodule-manager.ts:94-130 | a success replaces `solution.ts`; a failure goes to `failed-attempts/attempt.ts`, with `error.txt` iff it has an error |
| Submodule.CopySolutions | src/utils/submodule-manager.ts:85-135 | succeeds iff every exercise directory exists, with the make-directory and copy actions of each solution in order, absent files skipped; otherwise fails with `Exercise directory not found: <dir>` for the first missing one |
| Submodule.PushFrom | src/utils/submodule-manager.ts:32-63 | the push first changes into the submodule; it succeeds iff the branch commands, the copies, and the commit and push commands all succeed, and then carries the branch and compare URL; otherwise it fails with the first failing branch command's error, else the copy error, else the first failing commit or push command's error |
| Submodule.PushBranch | src/utils/submodule-manager.ts:34-46 | succeeds iff the branch commands, the copies and the commit and push commands succeed, with the push command last; a failing branch command's error comes before any other |
| Submodule.PushCopied | src/utils/submodule-manager.ts:40-54 | succeeds iff the copies and the commit and push commands succeed; fails with the copy error, else with the first failing command's error |
| Submodule.PushAsWritten | src/utils/submodule-manager.ts:32-135 | as written, the copies' relative paths are looked up from inside the submodule |
| Submodule.Push | src/utils/submodule-manager.ts:32-63 | the corrected push looks paths up from the starting directory |
| Submodule.AsWrittenMissesExerciseDir | src/utils/submodule-manager.ts:74-92 | with a relative submodule path, the push as written fails though the exercise directory exists; the corrected push succeeds |
| ResultPusher.SubmoduleConfigFor | src/utils/result-pusher.ts:31-39 | the fixed submodule with the run's agent, model, run id and token, including all solutions |
| ResultPusher.PusherCompareUrl | src/utils/result-pusher.ts:33 | the pusher's compare URL names `laiso/exercism-typescript` |
| ResultPusher.PushResults | src/utils/result-pusher.ts:45-124 | the pusher with the corrected copy step (exercise directories looked up from the starting directory); it pushes only when that copy succeeds |
| ResultPusher.PushResultsFrom | src/utils/result-pusher.ts:45-124 | a disabled push succeeds with nothing pushed and says so; a tokenless push fails asking for the token; an empty collection succeeds with nothing pushed and says so; otherwise a successful submodule push reports every collected solution with its branch and compare URL, split into successes and failures, and a failed one reports nothing pushed with the submodule's error |
| ResultPusher.PushResultsAsWritten | src/utils/result-pusher.ts:45-124 | the pusher as written: the copy step looks up exercise directories from inside the submodule |
| ResultPusher.PusherMissesExerciseDir | src/utils/result-pusher.ts:32-124 | with the pusher's own submodule path and one solution whose exercise directory exists, the as-written pusher fails with `Exercise directory not found` and pushes nothing, while the corrected one pushes it |
| ResultPusher.Details | src/utils/result-pusher.ts:145-147 | the failure count appears iff there are failures |
| ResultPusher.SummaryLines | src/utils/result-pusher.ts:149-160 | the twelve lines of the summary with the compare URL, counts, details and branch |
| ResultPusher.SummaryMarkdown | src/utils/result-pusher.ts:140-161 | empty iff the push failed or has no compare URL; otherwise the lines joined |
| ResultPusher.SummaryMarkdownLines | src/utils/result-pusher.ts:140-161 | with single-line values, the markdown splits back into its lines, and the failure count appears iff there are failures |

## Left out

- Durations, `Date.now()`, timestamps and everything printed to the console:
  these are timing and I/O. The lines are modelled as text only where
  contracts speak about them (`Logger`).
- Directory creation (`mkdirSync`, `mkdir`):
  - only as a `MakeDir` action in the submodule copy;
  - otherwise it is an effect with no result.
- `path.join` normalisation: `PathJoin` is plain `/` concatenation, with no
  `..` or duplicate-slash handling.
- `path.resolve` keeps an absolute path and otherwise prefixes the working
  directory; there is no normalisation.
- The bash semantics of the scripts: a script is its text, and running it is
  the executor parameter's answer.
- The CSV parser, `JSON.stringify` (the `json` parameter of
  `Agents.KimiArgs`), the logger's `redact` (a parameter of
  `AgentLogger.Collect`), the exercise resetter, the progress monitor,
  version detection, the reporter and the leaderboard. These are separate
  components outside the core; the model records only what they return.
- The builders of Goose, Aider, Gemini, OpenCode, Qwen and Cursor: their
  sources are not part of this model. `Agents.BuildCommand` takes them as one
  function parameter. The `requireEnv` helper's source is not part of this
  model either; `Agents.RequireEnv` follows its use in the builders.
- Agents.AgentRun: the builder, instructions and task files arrive as one
  `build` result, so which of them threw is not distinguished.
- The agent runner reads the task metadata a second time; the model assumes
  both reads agree.
- The one-line messages of `logAgentError`, `logTestSuccess`, `logTestError`,
  `logExerciseStart` and `info`: console output with no decision in it. The
  model keeps the lines that carry a choice: the command lines (masked for
  the agent, unmasked for the tests), the success preview, the failure
  excerpts and the overall result.
- `Sorting.Sort` orders by code point rather than by UTF-16 code unit, as
  JavaScript's default sort does. The two agree below U+10000.
- `Promise.all` concurrency in `getFileList`.
- The `NaN` of `parseInt` is kept (`Types.Number`). Arithmetic on it is not
  modelled.
- `cleanupOldBranches` of the submodule manager and the result pusher: it
  depends on dates and on `git for-each-ref` output.
- ResultPusher.PushResults: uses the corrected `Submodule.Push`, which
  looks up exercise directories from the directory the push started in. The
  pusher as the source writes it is `ResultPusher.PushResultsAsWritten`;
  `ResultPusher.PusherMissesExerciseDir` shows where the two differ (see
  Findings).
- ResultPusher.PushResultsFrom: the catch branch of `pushResults` cannot be
  reached in the model, because collection does not throw there.
- Submodule.CopySolutions: when a later exercise directory is missing, the
  copies already made for earlier solutions are not in the failed trace.
  The error and the result are as in the source.
- Submodule.PushFrom: the fact that the push command is the last action is
  stated on `Submodule.PushBranch` and `Submodule.PushCopied`, not on
  `PushFrom` itself.
- DockerStrategy.PrepareV1: it has no contract of its own. Its shape is
  stated by `DockerStrategy.V1Assemble`, `DockerStrategy.V1OptionsShape`,
  `DockerStrategy.V1CommandCarriesPair` and
  `DockerStrategy.V1TestMountsExact`.
- Logger.Preview, Logger.Excerpt and Logger.SanitizeCommand: the cuts at
  300, 500 and 1024 characters and the length tests count code points. The
  source's `slice` and `length` count UTF-16 code units, so the two differ on
  text with characters above U+FFFF.
- Cli.ParseInt: the value is an unbounded integer. JavaScript's `parseInt`
  returns a double, which loses precision above 2^53.
- Submodule.Push: `process.chdir` into the submodule (submodule-manager.ts
  line 74) always succeeds in the model. A failing `chdir`, which the source
  catches into the push's error, is not modelled.
- Benchmark.RunBenchmark: the title shown when a single exercise is selected
  (runner.ts lines 48-53) is console output and is left out, and so is the
  metadata read behind it. A rejected read there would abort the run in the
  source; the model does not perform that read.
- Submodule.AuthUrl: the token is inserted literally. JavaScript's
  `String.replace` would expand `$` patterns such as `$&` in the token; the
  model does not.
- Exercise.RunExercise: the test phase's value is computed whether or not it
  runs. Only its presence in the trace records that it ran.

## Findings

| source | as written | input that shows it | evidently intended | confidence | as-written member | corrected member |
|---|---|---|---|---|---|---|
| src/utils/submodule-manager.ts:74-91 | `createBranch` changes the process's working directory into the submodule. `copySolutions` then checks `join(submodulePath, 'exercises', 'practice', exercise)`, which is relative to the new directory and so names `<submodule>/<submodule>/exercises/...` | the pusher's own submodule path `./exercism-typescript`, with any solution whose exercise directory exists in the submodule | the exercise directory is looked up where it is, relative to the directory the push started in | high; not executed | Submodule.PushAsWritten, Submodule.AsWrittenMissesExerciseDir, ResultPusher.PushResultsAsWritten, ResultPusher.PusherMissesExerciseDir | Submodule.Push, ResultPusher.PushResults |
