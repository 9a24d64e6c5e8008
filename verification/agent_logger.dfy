/** Log collection after the agent ran (`src/utils/agent-logger.ts`): where
    logs go, which Claude project directory is read, and the generic log text.
    Directory creation, listing, reading and writing are parameters. */
module AgentLogger {
  import opened Wrappers
  import opened Strings
  import opened Types
  import opened Seqs

  /** `getLogDir`: `<outputDir or "results">/<agent>/logs`. */
  function LogDir(config: BenchmarkConfig): (r: string)
    ensures Truthy(config.outputDir) ==> r == PathJoin(PathJoin(config.outputDir.value, config.agent), "logs")
    ensures !Truthy(config.outputDir) ==> r == PathJoin(PathJoin("results", config.agent), "logs")
  {
    PathJoin(PathJoin(OrElse(config.outputDir, "results"), config.agent), "logs")
  }

  /** The first pass of `toProjectDirName`: `/[\\/]/g` replaced by `-`, position by position. */
  function DashSeparators(p: string): (r: string)
    ensures |r| == |p|
    ensures forall i :: 0 <= i < |p| ==> r[i] == if p[i] == '/' || p[i] == '\\' then '-' else p[i]
  {
    seq(|p|, i requires 0 <= i < |p| => if p[i] == '/' || p[i] == '\\' then '-' else p[i])
  }

  predicate NotColon(ch: char) {
    ch != ':'
  }

  /** `toProjectDirName`: every `/` and `\` becomes `-`, every `:` is dropped.
      Written in one pass; its contract relates it to the source's two passes,
      the separator replacement followed by the colon filter. */
  function ProjectDirName(p: string): (r: string)
    ensures r == Filter(NotColon, DashSeparators(p))
    ensures '/' !in r && '\\' !in r && ':' !in r
    ensures |r| <= |p|
    decreases |p|
  {
    if |p| == 0 then ""
    else
      var rest := ProjectDirName(p[1..]);
      assert DashSeparators(p)[1..] == DashSeparators(p[1..]);
      if p[0] == '/' || p[0] == '\\' then "-" + rest
      else if p[0] == ':' then rest
      else [p[0]] + rest
  }

  /** Without drive colons the mangling keeps every position: separators become
      `-` and every other character stays. */
  lemma {:induction false} ProjectDirNamePositions(p: string)
    requires ':' !in p
    ensures |ProjectDirName(p)| == |p|
    ensures forall i :: 0 <= i < |p| ==>
      ProjectDirName(p)[i] == (if p[i] == '/' || p[i] == '\\' then '-' else p[i])
    decreases |p|
  {
    if |p| > 0 {
      ProjectDirNamePositions(p[1..]);
      var rest := ProjectDirName(p[1..]);
      forall i | 1 <= i < |p|
        ensures ProjectDirName(p)[i] == (if p[i] == '/' || p[i] == '\\' then '-' else p[i])
      {
        assert ProjectDirName(p)[i] == rest[i - 1];
        assert p[1..][i - 1] == p[i];
      }
    }
  }

  /** `path.resolve(cwd, p)` without normalisation. */
  function Resolve(cwd: string, p: string): (r: string)
    ensures StartsWith(p, "/") ==> r == p
  {
    if |p| > 0 && p[0] == '/' then p else PathJoin(cwd, p)
  }

  /** `p.replace(/^~/, home)`. */
  function ReplaceTilde(p: string, home: string): (r: string)
    ensures StartsWith(p, "~") ==> r == home + p[1..]
    ensures !StartsWith(p, "~") ==> r == p
  {
    if |p| > 0 && p[0] == '~' then home + p[1..] else p
  }

  /** The Claude session directory read for an exercise: `-app` for Docker
      `v2` (a truthy `useDocker`), the mangled repository path for other `v2`
      runs, and the mangled exercise path otherwise. */
  function ClaudeProjectDir(config: BenchmarkConfig, exercisePath: string, host: Host): (r: string)
    ensures var projects := PathJoin(PathJoin(host.home, ".claude"), "projects");
      && (IsV2(config.dataset) && config.useDocker == Some(true) ==> r == PathJoin(projects, "-app"))
      && (IsV2(config.dataset) && config.useDocker != Some(true) ==>
           r == PathJoin(projects, ProjectDirName(Resolve(host.cwd, ReplaceTilde(host.repoPath, host.home)))))
      && (!IsV2(config.dataset) ==> r == PathJoin(projects, ProjectDirName(Resolve(host.cwd, exercisePath))))
  {
    var projects := PathJoin(PathJoin(host.home, ".claude"), "projects");
    if IsV2(config.dataset) && config.useDocker == Some(true) then PathJoin(projects, "-app")
    else
      var target :=
        if IsV2(config.dataset) then Resolve(host.cwd, ReplaceTilde(host.repoPath, host.home))
        else Resolve(host.cwd, exercisePath);
      PathJoin(projects, ProjectDirName(target))
  }

  /** The text the generic collector saves, before redaction. */
  function GenericLogContent(result: CommandResult): (r: string)
    ensures StartsWith(r, "STDOUT:\n" + result.stdout + "\n\nSTDERR:\n")
    ensures EndsWith(r, "\n\nSTDERR:\n" + result.stderr)
    ensures |r| == |result.stdout| + |result.stderr| + 18
  {
    var head := "STDOUT:\n" + result.stdout + "\n\nSTDERR:\n";
    PrefixOfAppend(head, result.stderr);
    PrefixOfAppend("STDOUT:\n" + result.stdout, "\n\nSTDERR:\n" + result.stderr);
    assert head + result.stderr == "STDOUT:\n" + result.stdout + ("\n\nSTDERR:\n" + result.stderr);
    head + result.stderr
  }

  datatype CollectorKind = ClaudeCollector | AiderCollector | GenericCollector

  /** `AgentLoggerFactory.create`. */
  function CollectorFor(agent: string): (r: CollectorKind)
    ensures r == ClaudeCollector <==> agent == "claude"
    ensures r == AiderCollector <==> agent == "aider"
  {
    if agent == "claude" then ClaudeCollector
    else if agent == "aider" then AiderCollector
    else GenericCollector
  }

  /** The file-system answers collection depends on: the content of the newest
      `.jsonl` of a directory (`None` when there is none, `Err` when listing or
      reading fails), the redaction function, and the error writing the log
      file raises, if any. */
  datatype LogFs = LogFs(
    newestJsonl: string -> Result<Option<string>>,
    redact: string -> string,
    writeError: Option<string>)

  /** What collection did: the log file written with its content, and the error
      that escapes `collect`, if any. */
  datatype Collected = Collected(written: Option<(string, string)>, thrown: Option<string>)

  function Collect(kind: CollectorKind, config: BenchmarkConfig, exercise: string, exercisePath: string,
                   result: CommandResult, host: Host, fs: LogFs): (r: Collected)
    ensures kind == ClaudeCollector ==> r.thrown.None?
    ensures kind == ClaudeCollector ==>
      (r.written.Some? <==>
         (fs.writeError.None?
          && fs.newestJsonl(ClaudeProjectDir(config, exercisePath, host)).Ok?
          && fs.newestJsonl(ClaudeProjectDir(config, exercisePath, host)).value.Some?))
    ensures kind == ClaudeCollector && r.written.Some? ==>
      r.written.value.1 == fs.redact(fs.newestJsonl(ClaudeProjectDir(config, exercisePath, host)).value.value)
    ensures kind != ClaudeCollector ==> r.thrown == fs.writeError && (r.written.Some? <==> fs.writeError.None?)
    ensures kind != ClaudeCollector && fs.writeError.None? ==>
      r.written == Some((PathJoin(LogDir(config), exercise + ".log"), fs.redact(GenericLogContent(result))))
    ensures r.written.Some? ==> r.written.value.0 == PathJoin(LogDir(config), exercise + ".log")
  {
    var logFile := PathJoin(LogDir(config), exercise + ".log");
    match kind
    case ClaudeCollector =>
      (match fs.newestJsonl(ClaudeProjectDir(config, exercisePath, host))
       case Ok(Some(content)) =>
         if fs.writeError.None? then Collected(Some((logFile, fs.redact(content))), None)
         else Collected(None, None)
       case _ => Collected(None, None))
    case _ =>
      if fs.writeError.None? then Collected(Some((logFile, fs.redact(GenericLogContent(result)))), None)
      else Collected(None, fs.writeError)
  }
}
