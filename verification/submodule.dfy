/** `SubmoduleManager.pushResults` of `src/utils/submodule-manager.ts`: the
    branch name, the copy plan for the collected solutions, the git commands in
    order, the authenticated push URL and the compare URL. The shell and the
    file system are parameters; what the run does is returned as a trace of
    actions. */
module Submodule {
  import opened Wrappers
  import opened Strings
  import opened Solutions
  import opened Seqs

  datatype SubmoduleConfig = SubmoduleConfig(
    submodulePath: string,
    remoteUrl: string,
    githubToken: string,
    runId: string,
    agent: string,
    model: string,
    includeAllSolutions: Option<bool>)

  /** On failure the branch name and the compare URL are empty. */
  datatype PushResult = PushResult(success: bool, branchName: string, compareUrl: string, error: Option<string>)

  /** One effect of a push run, in the order it happens. */
  datatype Action =
    | Chdir(path: string)
    | Exec(command: string)
    | MakeDir(path: string)                 // mkdir -p
    | CopyFile(source: string, target: string)
    | WriteFile(path: string, text: string)

  /** The process's working directory when the push starts, `existsSync` over
      absolute paths, and the shell: the error a command fails with, if any. */
  datatype World = World(cwd: string, present: string -> bool, exec: string -> Option<string>)

  datatype Run = Run(result: PushResult, trace: seq<Action>)

  /** A path as the process sees it from `cwd`, without normalisation. */
  function Resolve(cwd: string, path: string): (r: string)
    ensures StartsWith(path, "/") ==> r == path
    ensures !StartsWith(path, "/") ==> r == cwd + "/" + path
  {
    if StartsWith(path, "/") then path else cwd + "/" + path
  }

  /** `generateBranchName`: `results/<agent>-<model>/<runId>`. */
  function BranchName(sc: SubmoduleConfig): (r: string)
    ensures StartsWith(r, "results/") && EndsWith(r, "/" + sc.runId)
  {
    var middle := sc.agent + "-" + sc.model;
    Surround("results/", middle, "/" + sc.runId);
    "results/" + middle + ("/" + sc.runId)
  }

  /** With no `/` in the agent, model or run id, the branch name has exactly
      three `/`-separated parts: `results`, `<agent>-<model>` and the run id. */
  lemma BranchNameParts(sc: SubmoduleConfig)
    requires '/' !in sc.agent && '/' !in sc.model && '/' !in sc.runId
    ensures Split(BranchName(sc), '/') == ["results", sc.agent + "-" + sc.model, sc.runId]
  {
    var middle := sc.agent + "-" + sc.model;
    var parts := ["results", middle, sc.runId];
    assert '/' !in middle;
    assert Join(parts, "/") == BranchName(sc) by {
      assert parts[1..][1..] == [sc.runId];
      assert Join(parts[1..], "/") == middle + "/" + sc.runId;
    }
    JoinSplit(parts, '/');
  }

  /** `generateCompareUrl`: the last two `/`-parts of the remote URL, joined,
      with the first `.git` removed, on github.com. */
  function CompareUrl(remoteUrl: string, branchName: string): (r: string)
    ensures StartsWith(r, "https://github.com/") && EndsWith(r, "/compare/main..." + branchName)
  {
    var repo := RepoName(remoteUrl);
    Surround("https://github.com/", repo, "/compare/main..." + branchName);
    "https://github.com/" + repo + ("/compare/main..." + branchName)
  }

  /** `remoteUrl.split('/').slice(-2).join('/').replace('.git', '')`. */
  function RepoName(remoteUrl: string): string {
    var parts := Split(remoteUrl, '/');
    var lastTwo := if |parts| >= 2 then parts[|parts| - 2..] else parts;
    ReplaceFirst(Join(lastTwo, "/"), ".git", "")
  }

  /** The last two `/`-parts of `<prefix>/<owner>/<name>.git`. */
  lemma LastTwoParts(prefix: string, owner: string, name: string)
    requires '/' !in owner && '/' !in name
    ensures var parts := Split(prefix + "/" + owner + "/" + name + ".git", '/');
      |parts| >= 2 && parts[|parts| - 2..] == [owner, name + ".git"]
  {
    assert '/' !in name + ".git";
    assert prefix + "/" + owner + "/" + name + ".git" == prefix + ['/'] + owner + ['/'] + (name + ".git");
    SplitLastTwo(prefix, owner, name + ".git", '/');
  }

  /** For a remote `<prefix>/<owner>/<name>.git` whose owner and name hold no
      `/` or `.`, the repository is `<owner>/<name>`. */
  lemma RepoNameOf(prefix: string, owner: string, name: string)
    requires '/' !in owner && '/' !in name && '.' !in owner && '.' !in name
    ensures RepoName(prefix + "/" + owner + "/" + name + ".git") == owner + "/" + name
  {
    LastTwoParts(prefix, owner, name);
    JoinTwo(owner, name + ".git", "/");
    assert owner + "/" + (name + ".git") == (owner + "/" + name) + ".git";
    assert '.' !in owner + "/" + name;
    ReplaceDotGitAtEnd(owner + "/" + name);
  }

  /** For such a remote the compare URL is
      `https://github.com/<owner>/<name>/compare/main...<branch>`. */
  lemma CompareUrlOfRepo(prefix: string, owner: string, name: string, branchName: string)
    requires '/' !in owner && '/' !in name && '.' !in owner && '.' !in name
    ensures CompareUrl(prefix + "/" + owner + "/" + name + ".git", branchName)
      == "https://github.com/" + owner + "/" + name + "/compare/main..." + branchName
  {
    RepoNameOf(prefix, owner, name);
  }

  /** `remoteUrl.replace('https://', 'https://<token>@')`. */
  function AuthUrl(remoteUrl: string, token: string): (r: string)
    ensures !Contains(remoteUrl, "https://") ==> r == remoteUrl
  {
    ReplaceFirst(remoteUrl, "https://", "https://" + token + "@")
  }

  /** The token goes right after the leading scheme. */
  lemma AuthUrlInsertsToken(rest: string, token: string)
    ensures AuthUrl("https://" + rest, token) == "https://" + token + "@" + rest
  {
    var url := "https://" + rest;
    PrefixOfAppend("https://", rest);
    assert IndexOf(url, "https://") == Some(0);
    assert url[8..] == rest;
  }

  function SolutionType(includeAllSolutions: Option<bool>): (r: string)
    ensures r == "all solutions (successful and failed)" <==> includeAllSolutions == Some(true)
    ensures r == "successful solutions" <==> includeAllSolutions != Some(true)
  {
    if includeAllSolutions == Some(true) then "all solutions (successful and failed)" else "successful solutions"
  }

  /** The commit message names what is pushed, the agent and model, and the run. */
  function CommitMessage(sc: SubmoduleConfig): (r: string)
    ensures StartsWith(r, "feat(results): Add " + SolutionType(sc.includeAllSolutions) + " from ")
    ensures EndsWith(r, " (Run " + sc.runId + ")")
    ensures |r| == |"feat(results): Add " + SolutionType(sc.includeAllSolutions) + " from "|
      + |sc.agent| + 1 + |sc.model| + |" (Run " + sc.runId + ")"|
    ensures var h := |"feat(results): Add " + SolutionType(sc.includeAllSolutions) + " from "|;
      r[h..h + |sc.agent| + 1 + |sc.model|] == sc.agent + "/" + sc.model
  {
    var head := "feat(results): Add " + SolutionType(sc.includeAllSolutions) + " from ";
    var r := head + (sc.agent + "/" + sc.model) + (" (Run " + sc.runId + ")");
    PrefixOfAppend(head, sc.agent + "/" + sc.model);
    StartsWithAppend(head + (sc.agent + "/" + sc.model), " (Run " + sc.runId + ")", head);
    PrefixOfAppend(head + (sc.agent + "/" + sc.model), " (Run " + sc.runId + ")");
    r
  }

  function CreateBranchCommands(branchName: string): seq<string> {
    ["git fetch origin main", "git checkout main", "git pull origin main", "git checkout -b " + branchName]
  }

  function CommitCommands(sc: SubmoduleConfig): seq<string> {
    ["git config user.email \"github-actions[bot]@users.noreply.github.com\"",
     "git config user.name \"github-actions[bot]\"",
     "git add .",
     "git commit -m \"" + CommitMessage(sc) + "\""]
  }

  function PushCommand(sc: SubmoduleConfig, branchName: string): string {
    "git push " + AuthUrl(sc.remoteUrl, sc.githubToken) + " " + branchName
  }

  /** Every one of the commands succeeds. */
  predicate AllSucceed(commands: seq<string>, exec: string -> Option<string>) {
    forall k :: 0 <= k < |commands| ==> exec(commands[k]).None?
  }

  /** Runs commands until the first that fails: the commands run, and the failure. */
  function ExecAll(commands: seq<string>, exec: string -> Option<string>): (r: (seq<string>, Option<string>))
    ensures |r.0| <= |commands| && r.0 == commands[..|r.0|]
    ensures forall k :: 0 <= k < |r.0| - 1 ==> exec(r.0[k]).None?
    ensures r.1.None? <==> r.0 == commands && AllSucceed(commands, exec)
    ensures r.1.Some? ==> |r.0| >= 1 && exec(r.0[|r.0| - 1]) == r.1
    decreases |commands|
  {
    if |commands| == 0 then ([], None)
    else if exec(commands[0]).Some? then ([commands[0]], exec(commands[0]))
    else
      var rest := ExecAll(commands[1..], exec);
      assert forall k :: 1 <= k < |commands| ==> commands[k] == commands[1..][k - 1];
      ([commands[0]] + rest.0, rest.1)
  }

  function Execs(commands: seq<string>): (r: seq<Action>)
    ensures |r| == |commands| && forall k :: 0 <= k < |r| ==> r[k] == Exec(commands[k])
  {
    seq(|commands|, k requires 0 <= k < |commands| => Exec(commands[k]))
  }

  /** `join(submodulePath, 'exercises', 'practice', exercise)`. */
  function TargetDir(submodulePath: string, exercise: string): string {
    PathJoin(PathJoin(PathJoin(submodulePath, "exercises"), "practice"), exercise)
  }

  /** What copying one present solution does: a success replaces `solution.ts`;
      a failure goes to `failed-attempts/attempt.ts`, with its error in
      `failed-attempts/error.txt` when it has one. */
  function CopyActions(targetDir: string, s: SolutionInfo): (r: seq<Action>)
    ensures s.success ==> r == [CopyFile(s.solutionPath, PathJoin(targetDir, "solution.ts"))]
    ensures !s.success ==> |r| >= 2 && r[1] == CopyFile(s.solutionPath, PathJoin(PathJoin(targetDir, "failed-attempts"), "attempt.ts"))
    ensures (exists k :: 0 <= k < |r| && r[k].WriteFile?) <==> !s.success && Truthy(s.error)
    ensures !s.success && Truthy(s.error) ==>
      r[|r| - 1] == WriteFile(PathJoin(PathJoin(targetDir, "failed-attempts"), "error.txt"), s.error.value)
  {
    if s.success then [CopyFile(s.solutionPath, PathJoin(targetDir, "solution.ts"))]
    else
      var failedDir := PathJoin(targetDir, "failed-attempts");
      var copy := [MakeDir(failedDir), CopyFile(s.solutionPath, PathJoin(failedDir, "attempt.ts"))];
      if Truthy(s.error) then
        var r := copy + [WriteFile(PathJoin(failedDir, "error.txt"), s.error.value)];
        assert r[2].WriteFile?;
        r
      else copy
  }

  /** The copies for one solution: its actions when its file is present, none otherwise. */
  function CopiesFor(submodulePath: string, cwd: string, present: string -> bool, s: SolutionInfo): seq<Action> {
    if present(Resolve(cwd, s.solutionPath)) then CopyActions(TargetDir(submodulePath, s.exercise), s) else []
  }

  /** The `k`-th solution is the first whose exercise directory is missing. */
  predicate FirstMissingDir(submodulePath: string, solutions: seq<SolutionInfo>, cwd: string, present: string -> bool, k: nat) {
    && k < |solutions|
    && !present(Resolve(cwd, TargetDir(submodulePath, solutions[k].exercise)))
    && forall j :: 0 <= j < k ==> present(Resolve(cwd, TargetDir(submodulePath, solutions[j].exercise)))
  }

  /** `copySolutions`, with relative paths looked up from `cwd`: every
      exercise's directory must exist in the submodule, and the first missing
      one is reported; otherwise each solution, in order, contributes its
      copies, and a solution whose file is absent is skipped. */
  function CopySolutions(submodulePath: string, solutions: seq<SolutionInfo>, cwd: string,
                         present: string -> bool): (r: Result<seq<Action>>)
    ensures r.Ok? <==>
      forall k :: 0 <= k < |solutions| ==> present(Resolve(cwd, TargetDir(submodulePath, solutions[k].exercise)))
    ensures r.Ok? ==> r.value == FlatMap((s: SolutionInfo) => CopiesFor(submodulePath, cwd, present, s), solutions)
    ensures r.Err? ==> exists k: nat :: (FirstMissingDir(submodulePath, solutions, cwd, present, k)
      && r.message == "Exercise directory not found: " + TargetDir(submodulePath, solutions[k].exercise))
    ensures r.Err? ==> StartsWith(r.message, "Exercise directory not found: ")
    decreases |solutions|
  {
    if |solutions| == 0 then Ok([])
    else
      var s := solutions[0];
      var targetDir := TargetDir(submodulePath, s.exercise);
      var rest := CopySolutions(submodulePath, solutions[1..], cwd, present);
      assert forall k :: 1 <= k < |solutions| ==> solutions[k] == solutions[1..][k - 1];
      if !present(Resolve(cwd, targetDir)) then
        PrefixOfAppend("Exercise directory not found: ", targetDir);
        assert FirstMissingDir(submodulePath, solutions, cwd, present, 0);
        Err("Exercise directory not found: " + targetDir)
      else
        FirstMissingStep(submodulePath, solutions, cwd, present, rest);
        var rest :- rest;
        Ok(CopiesFor(submodulePath, cwd, present, s) + rest)
  }

  /** A first missing directory of the tail, behind a present head, is the first of the whole list. */
  lemma FirstMissingStep(submodulePath: string, solutions: seq<SolutionInfo>, cwd: string, present: string -> bool,
                         rest: Result<seq<Action>>)
    requires |solutions| > 0 && present(Resolve(cwd, TargetDir(submodulePath, solutions[0].exercise)))
    requires rest.Err? ==> exists k: nat :: (FirstMissingDir(submodulePath, solutions[1..], cwd, present, k)
      && rest.message == "Exercise directory not found: " + TargetDir(submodulePath, solutions[1..][k].exercise))
    ensures rest.Err? ==> exists k: nat :: (FirstMissingDir(submodulePath, solutions, cwd, present, k)
      && rest.message == "Exercise directory not found: " + TargetDir(submodulePath, solutions[k].exercise))
  {
    if rest.Err? {
      var k: nat :| FirstMissingDir(submodulePath, solutions[1..], cwd, present, k)
        && rest.message == "Exercise directory not found: " + TargetDir(submodulePath, solutions[1..][k].exercise);
      assert forall j :: 1 <= j < k + 1 ==> solutions[j] == solutions[1..][j - 1];
      assert solutions[k + 1] == solutions[1..][k];
      assert FirstMissingDir(submodulePath, solutions, cwd, present, k + 1);
    }
  }

  function Failed(message: string, trace: seq<Action>): Run {
    Run(PushResult(false, "", "", Some(message)), trace)
  }

  /** The push with the solutions' paths looked up from `copyCwd`. */
  function PushFrom(sc: SubmoduleConfig, solutions: seq<SolutionInfo>, w: World, copyCwd: string): (r: Run)
    ensures |r.trace| >= 1 && r.trace[0] == Chdir(sc.submodulePath)
    ensures r.result.success ==> r.result == PushResult(true, BranchName(sc), CompareUrl(sc.remoteUrl, BranchName(sc)), None)
    ensures !r.result.success ==> r.result.branchName == "" && r.result.compareUrl == "" && r.result.error.Some?
    ensures r.result.success ==>
      CopySolutions(sc.submodulePath, solutions, copyCwd, w.present).Ok?
      && AllSucceed(CreateBranchCommands(BranchName(sc)), w.exec)
    ensures r.result.success <==>
      && AllSucceed(CreateBranchCommands(BranchName(sc)), w.exec)
      && CopySolutions(sc.submodulePath, solutions, copyCwd, w.present).Ok?
      && AllSucceed(CommitCommands(sc) + [PushCommand(sc, BranchName(sc))], w.exec)
    ensures var branch, finish := CreateBranchCommands(BranchName(sc)), CommitCommands(sc) + [PushCommand(sc, BranchName(sc))];
      var copied := CopySolutions(sc.submodulePath, solutions, copyCwd, w.present);
      && (!AllSucceed(branch, w.exec) ==> r.result.error == ExecAll(branch, w.exec).1)
      && (AllSucceed(branch, w.exec) && copied.Err? ==> r.result.error == Some(copied.message))
      && (AllSucceed(branch, w.exec) && copied.Ok? && !AllSucceed(finish, w.exec) ==>
            r.result.error == ExecAll(finish, w.exec).1)
  {
    PushBranch(sc, BranchName(sc), CreateBranchCommands(BranchName(sc)), PushCommand(sc, BranchName(sc)),
      CopySolutions(sc.submodulePath, solutions, copyCwd, w.present), w.exec)
  }

  /** The push from the branch creation on: the branch commands run in the
      submodule until one fails, then the rest of the push. */
  function PushBranch(sc: SubmoduleConfig, branchName: string, branchCommands: seq<string>, pushCommand: string,
                      copied: Result<seq<Action>>, exec: string -> Option<string>): (r: Run)
    ensures |r.trace| >= 1 && r.trace[0] == Chdir(sc.submodulePath)
    ensures r.result.success ==>
      && copied.Ok?
      && r.result == PushResult(true, branchName, CompareUrl(sc.remoteUrl, branchName), None)
      && r.trace[|r.trace| - 1] == Exec(pushCommand)
      && AllSucceed(branchCommands, exec)
    ensures !r.result.success ==> r.result.branchName == "" && r.result.compareUrl == "" && r.result.error.Some?
    ensures r.result.success <==>
      AllSucceed(branchCommands, exec) && copied.Ok? && AllSucceed(CommitCommands(sc) + [pushCommand], exec)
    ensures !AllSucceed(branchCommands, exec) ==> r.result.error == ExecAll(branchCommands, exec).1
    ensures AllSucceed(branchCommands, exec) && copied.Err? ==> r.result.error == Some(copied.message)
    ensures AllSucceed(branchCommands, exec) && copied.Ok? && !AllSucceed(CommitCommands(sc) + [pushCommand], exec) ==>
      r.result.error == ExecAll(CommitCommands(sc) + [pushCommand], exec).1
  {
    var (created, createError) := ExecAll(branchCommands, exec);
    var trace := [Chdir(sc.submodulePath)] + Execs(created);
    if createError.Some? then Failed(createError.value, trace)
    else PushCopied(sc, branchName, pushCommand, trace, copied, exec)
  }

  /** The push once the branch exists: the copies, then commit and push,
      stopping at the first failure. */
  function PushCopied(sc: SubmoduleConfig, branchName: string, pushCommand: string, trace: seq<Action>, copied: Result<seq<Action>>,
                      exec: string -> Option<string>): (r: Run)
    ensures trace <= r.trace
    ensures r.result.success ==>
      && copied.Ok?
      && r.result == PushResult(true, branchName, CompareUrl(sc.remoteUrl, branchName), None)
      && |r.trace| >= 1 && r.trace[|r.trace| - 1] == Exec(pushCommand)
    ensures !r.result.success ==> r.result.branchName == "" && r.result.compareUrl == "" && r.result.error.Some?
    ensures r.result.success <==> copied.Ok? && AllSucceed(CommitCommands(sc) + [pushCommand], exec)
    ensures copied.Err? ==> r.result.error == Some(copied.message)
    ensures copied.Ok? && !AllSucceed(CommitCommands(sc) + [pushCommand], exec) ==>
      r.result.error == ExecAll(CommitCommands(sc) + [pushCommand], exec).1
  {
    match copied
    case Err(message) => Failed(message, trace)
    case Ok(copies) =>
      var finish := CommitCommands(sc) + [pushCommand];
      var (finished, finishError) := ExecAll(finish, exec);
      if finishError.Some? then Failed(finishError.value, trace + copies + Execs(finished))
      else
        assert finished == finish;
        Run(PushResult(true, branchName, CompareUrl(sc.remoteUrl, branchName), None), trace + copies + Execs(finished))
  }

  /** `pushResults` as written: `createBranch` changes the process's working
      directory into the submodule, and the relative paths `copySolutions`
      checks are then looked up from there. */
  function PushAsWritten(sc: SubmoduleConfig, solutions: seq<SolutionInfo>, w: World): (r: Run)
    ensures r.result.success ==>
      CopySolutions(sc.submodulePath, solutions, Resolve(w.cwd, sc.submodulePath), w.present).Ok?
  {
    PushFrom(sc, solutions, w, Resolve(w.cwd, sc.submodulePath))
  }

  /** `pushResults` with the solutions' paths looked up from the directory the
      push started in, as they were written: the submodule's exercise
      directories are found where they are. */
  function Push(sc: SubmoduleConfig, solutions: seq<SolutionInfo>, w: World): (r: Run)
    ensures r.result.success ==> CopySolutions(sc.submodulePath, solutions, w.cwd, w.present).Ok?
    ensures r.result.success ==> r.result.branchName == BranchName(sc)
  {
    PushFrom(sc, solutions, w, w.cwd)
  }

  /** A world with one exercise directory of the submodule, where every
      command succeeds. */
  function OneExerciseWorld(cwd: string, submodulePath: string, exercise: string): World {
    World(cwd, p => p == cwd + "/" + TargetDir(submodulePath, exercise), _ => None)
  }

  /** With a relative submodule path, the push as written looks for the
      exercise directory under the submodule path twice and fails, though the
      directory exists; the corrected push succeeds in the same world. */
  lemma AsWrittenMissesExerciseDir(sc: SubmoduleConfig, cwd: string, s: SolutionInfo)
    requires !StartsWith(sc.submodulePath, "/") && sc.submodulePath != ""
    ensures var w := OneExerciseWorld(cwd, sc.submodulePath, s.exercise);
      PushAsWritten(sc, [s], w).result
        == PushResult(false, "", "", Some("Exercise directory not found: " + TargetDir(sc.submodulePath, s.exercise)))
    ensures Push(sc, [s], OneExerciseWorld(cwd, sc.submodulePath, s.exercise)).result.success
  {
    var w := OneExerciseWorld(cwd, sc.submodulePath, s.exercise);
    var dir := TargetDir(sc.submodulePath, s.exercise);
    assert StartsWith(dir, sc.submodulePath) by {
      assert StartsWith(PathJoin(sc.submodulePath, "exercises"), sc.submodulePath) by {
        PathJoinEnds(sc.submodulePath, "exercises");
      }
      PathJoinEnds(PathJoin(sc.submodulePath, "exercises"), "practice");
      StartsWithTrans(PathJoin(PathJoin(sc.submodulePath, "exercises"), "practice"),
                      PathJoin(sc.submodulePath, "exercises"), sc.submodulePath);
      PathJoinEnds(PathJoin(PathJoin(sc.submodulePath, "exercises"), "practice"), s.exercise);
      StartsWithTrans(dir, PathJoin(PathJoin(sc.submodulePath, "exercises"), "practice"), sc.submodulePath);
    }
    assert !StartsWith(dir, "/") by {
      assert dir[0] == sc.submodulePath[0];
      assert !StartsWith(sc.submodulePath, "/");
    }
    var inner := Resolve(cwd, sc.submodulePath);
    assert |Resolve(inner, dir)| != |cwd + "/" + dir|;
    assert !w.present(Resolve(inner, dir));
    assert w.present(Resolve(cwd, dir));
    var bad := CopySolutions(sc.submodulePath, [s], inner, w.present);
    assert bad == Err("Exercise directory not found: " + dir);
    var good := CopySolutions(sc.submodulePath, [s], cwd, w.present);
    assert good.Ok?;
    var (created, createError) := ExecAll(CreateBranchCommands(BranchName(sc)), w.exec);
    assert createError.None?;
    var (finished, finishError) := ExecAll(CommitCommands(sc) + [PushCommand(sc, BranchName(sc))], w.exec);
    assert finishError.None?;
  }
}
