/** `ResultPusher` of `src/utils/result-pusher.ts`: whether and what a run's
    solutions are pushed to the results submodule, the counts the summary
    reports, and the summary's markdown. */
module ResultPusher {
  import opened Wrappers
  import opened Strings
  import opened Seqs
  import opened Types
  import opened Exercise
  import opened Solutions
  import opened Submodule

  datatype PushConfig = PushConfig(pushResults: bool, githubToken: Option<string>, runId: string, outputDir: string)

  datatype PushSummary = PushSummary(
    success: bool,
    pushedCount: nat,
    totalCount: nat,
    successfulCount: nat,
    failedCount: nat,
    branchName: Option<string>,
    compareUrl: Option<string>,
    error: Option<string>)

  const SubmodulePath := "./exercism-typescript"
  const RemoteOwner := "laiso"
  const RemoteName := "exercism-typescript"
  const RemoteUrl := "https://github.com" + "/" + RemoteOwner + "/" + RemoteName + ".git"

  /** The submodule the pusher writes to; every solution, passed or failed, is included. */
  function SubmoduleConfigFor(config: BenchmarkConfig, pc: PushConfig): (r: SubmoduleConfig)
    ensures r.includeAllSolutions == Some(true)
    ensures r.githubToken == OrElse(pc.githubToken, "") && r.runId == pc.runId
    ensures r.agent == config.agent && r.model == config.model
  {
    SubmoduleConfig(SubmodulePath, RemoteUrl, OrElse(pc.githubToken, ""), pc.runId, config.agent, config.model, Some(true))
  }

  /** The pusher's compare URLs point at `laiso/exercism-typescript`. */
  lemma PusherCompareUrl(branchName: string)
    ensures CompareUrl(RemoteUrl, branchName)
      == "https://github.com/" + RemoteOwner + "/" + RemoteName + "/compare/main..." + branchName
  {
    assert '/' !in RemoteOwner && '.' !in RemoteOwner;
    assert '/' !in RemoteName && '.' !in RemoteName;
    CompareUrlOfRepo("https://github.com", RemoteOwner, RemoteName, branchName);
  }

  predicate NotSucceeded(s: SolutionInfo) {
    !s.success
  }

  function Unpushed(results: seq<TestResult>, success: bool, error: Option<string>): PushSummary {
    PushSummary(success, 0, |results|, 0, 0, None, None, error)
  }

  /** `pushResults`, with the submodule push looking the solutions' exercise
      directories up from `copyCwd`: nothing is pushed when pushing is off,
      when there is no token, or when no solution was collected; otherwise
      every collected solution is pushed through the submodule, and its counts
      are reported only when that push succeeds. */
  function PushResultsFrom(config: BenchmarkConfig, pc: PushConfig, results: seq<TestResult>, fs: FileSystem,
                           w: Submodule.World, copyCwd: string): (r: PushSummary)
    ensures r.totalCount == |results|
    ensures !pc.pushResults ==> r.success && r.pushedCount == 0
    ensures pc.pushResults && !Truthy(pc.githubToken) ==> !r.success
    ensures pc.pushResults && Truthy(pc.githubToken) && |CollectAll(Collector(pc.outputDir, fs), results)| == 0 ==>
      r.success && r.pushedCount == 0
    ensures r.pushedCount == 0 ==> r.successfulCount == 0 && r.failedCount == 0
    ensures r.pushedCount > 0 ==>
      (r.success && r.pushedCount == |CollectAll(Collector(pc.outputDir, fs), results)|
       && r.pushedCount == r.successfulCount + r.failedCount)
    ensures r.pushedCount > 0 ==>
      r.successfulCount == |Filter(Succeeded, CollectAll(Collector(pc.outputDir, fs), results))|
    ensures r.pushedCount > 0 ==>
      CopySolutions(SubmodulePath, CollectAll(Collector(pc.outputDir, fs), results), copyCwd, w.present).Ok?
    ensures !r.success ==> r.pushedCount == 0 && r.compareUrl.None?
    ensures r.compareUrl.Some? ==> r.pushedCount > 0 && r.branchName == Some(BranchName(SubmoduleConfigFor(config, pc)))
    ensures !pc.pushResults ==> r.error == Some("Push results is disabled")
    ensures pc.pushResults && !Truthy(pc.githubToken) ==> r.error == Some("GitHub token is required for pushing results")
    ensures pc.pushResults && Truthy(pc.githubToken) && |CollectAll(Collector(pc.outputDir, fs), results)| == 0 ==>
      r.error == Some("No solutions found to push")
    ensures var solutions := CollectAll(Collector(pc.outputDir, fs), results);
      var push := PushFrom(SubmoduleConfigFor(config, pc), solutions, w, copyCwd).result;
      pc.pushResults && Truthy(pc.githubToken) && |solutions| > 0 ==>
        && (push.success ==>
              r.success && r.pushedCount == |solutions| && r.error.None?
              && r.branchName == Some(push.branchName) && r.compareUrl == Some(push.compareUrl))
        && (!push.success ==> !r.success && r.pushedCount == 0 && r.error == push.error)
  {
    if !pc.pushResults then Unpushed(results, true, Some("Push results is disabled"))
    else if !Truthy(pc.githubToken) then Unpushed(results, false, Some("GitHub token is required for pushing results"))
    else
      var solutions := CollectAll(Collector(pc.outputDir, fs), results);
      if |solutions| == 0 then Unpushed(results, true, Some("No solutions found to push"))
      else
        var successfulCount := |Filter(Succeeded, solutions)|;
        var failedCount := |Filter(NotSucceeded, solutions)|;
        FilterPartition(Succeeded, NotSucceeded, solutions);
        var push := PushFrom(SubmoduleConfigFor(config, pc), solutions, w, copyCwd).result;
        if push.success then
          PushSummary(true, |solutions|, |results|, successfulCount, failedCount,
                      Some(push.branchName), Some(push.compareUrl), None)
        else Unpushed(results, false, push.error)
  }

  /** `pushResults` as written: the submodule push has already changed the
      working directory into the submodule when it looks the exercise
      directories up. */
  function PushResultsAsWritten(config: BenchmarkConfig, pc: PushConfig, results: seq<TestResult>, fs: FileSystem,
                                w: Submodule.World): (r: PushSummary)
    ensures r == PushResultsFrom(config, pc, results, fs, w, Resolve(w.cwd, SubmodulePath))
    ensures r.pushedCount > 0 ==>
      CopySolutions(SubmodulePath, CollectAll(Collector(pc.outputDir, fs), results),
                    Resolve(w.cwd, SubmodulePath), w.present).Ok?
  {
    PushResultsFrom(config, pc, results, fs, w, Resolve(w.cwd, SubmodulePath))
  }

  /** `pushResults` over the corrected submodule push, which looks the
      exercise directories up from the directory the push started in. */
  function PushResults(config: BenchmarkConfig, pc: PushConfig, results: seq<TestResult>, fs: FileSystem,
                       w: Submodule.World): (r: PushSummary)
    ensures r == PushResultsFrom(config, pc, results, fs, w, w.cwd)
    ensures r.pushedCount > 0 ==>
      CopySolutions(SubmodulePath, CollectAll(Collector(pc.outputDir, fs), results), w.cwd, w.present).Ok?
  {
    PushResultsFrom(config, pc, results, fs, w, w.cwd)
  }

  /** With the pusher's own submodule path, one collected solution and a
      world where only that exercise's directory of the submodule exists and
      every command succeeds, the pusher as written reports the directory
      missing and pushes nothing, while the corrected pusher pushes the
      solution. */
  lemma PusherMissesExerciseDir(config: BenchmarkConfig, pc: PushConfig, results: seq<TestResult>, fs: FileSystem,
                                cwd: string, s: SolutionInfo)
    requires pc.pushResults && Truthy(pc.githubToken)
    requires CollectAll(Collector(pc.outputDir, fs), results) == [s]
    ensures var w := OneExerciseWorld(cwd, SubmodulePath, s.exercise);
      PushResultsAsWritten(config, pc, results, fs, w)
        == PushSummary(false, 0, |results|, 0, 0, None, None,
                       Some("Exercise directory not found: " + TargetDir(SubmodulePath, s.exercise)))
    ensures var w := OneExerciseWorld(cwd, SubmodulePath, s.exercise);
      var r := PushResults(config, pc, results, fs, w);
      r.success && r.pushedCount == 1
  {
    var sc := SubmoduleConfigFor(config, pc);
    assert SubmodulePath[0] == '.';
    AsWrittenMissesExerciseDir(sc, cwd, s);
  }

  // ---- The summary markdown ----

  /** The solutions line: the failure count appears only when there are failures. */
  function Details(summary: PushSummary): (r: string)
    ensures '、' in r <==> summary.failedCount > 0
    ensures StartsWith(r, "- 成功: " + NatToString(summary.successfulCount) + "件")
  {
    var head := "- 成功: " + NatToString(summary.successfulCount) + "件";
    assert '、' !in NatToString(summary.successfulCount);
    assert '、' !in head;
    PrefixOfAppend(head, "、失敗: " + NatToString(summary.failedCount) + "件");
    if summary.failedCount > 0 then
      assert head + "、失敗: " + NatToString(summary.failedCount) + "件"
        == head + ("、失敗: " + NatToString(summary.failedCount) + "件");
      head + "、失敗: " + NatToString(summary.failedCount) + "件"
    else head
  }

  /** A template placeholder: an absent value prints as `undefined`. */
  function Placeholder(value: Option<string>): string {
    match value
    case Some(v) => v
    case None => "undefined"
  }

  const Heading := "### 成果物の比較"
  const Intro := "生成されたコードの差分は、以下のリンクから確認できます。"
  const Note := "**注意**: 失敗した回答は " + "`failed-attempts/` ディレクトリに保存されています。"

  lemma HeadingSingle()
    ensures '\n' !in Heading
  {
  }

  lemma IntroSingle()
    ensures '\n' !in Intro
  {
  }

  lemma NoteSingle()
    ensures '\n' !in Note
  {
  }

  /** The markdown's lines. */
  function SummaryLines(summary: PushSummary): (r: seq<string>)
    ensures |r| == 12 && r[7] == Details(summary)
    ensures r[5] == "- **[Compare Changes](" + Placeholder(summary.compareUrl) + ")**"
    ensures r[6] == "- プッシュされた解答数: " + NatToString(summary.pushedCount) + "/" + NatToString(summary.totalCount)
    ensures r[8] == "- ブランチ名: `" + Placeholder(summary.branchName) + "`"
  {
    ["",
     Heading,
     "",
     Intro,
     "",
     "- **[Compare Changes](" + Placeholder(summary.compareUrl) + ")**",
     "- プッシュされた解答数: " + NatToString(summary.pushedCount) + "/" + NatToString(summary.totalCount),
     Details(summary),
     "- ブランチ名: `" + Placeholder(summary.branchName) + "`",
     "",
     Note,
     ""]
  }

  /** `generateSummaryMarkdown`: empty unless the push succeeded with a compare URL. */
  function SummaryMarkdown(summary: PushSummary): (r: string)
    ensures r == "" <==> !summary.success || !Truthy(summary.compareUrl)
    ensures summary.success && Truthy(summary.compareUrl) ==> r == Join(SummaryLines(summary), "\n")
  {
    if !summary.success || !Truthy(summary.compareUrl) then ""
    else
      var lines := SummaryLines(summary);
      assert lines[1..][0] == Heading;
      Join(lines, "\n")
  }

  /** The template's own lines are single lines. */
  lemma FixedLinesSingle(summary: PushSummary)
    ensures forall k :: k in {0, 1, 2, 3, 4, 9, 10, 11} ==> '\n' !in SummaryLines(summary)[k]
  {
    HeadingSingle();
    IntroSingle();
    NoteSingle();
  }

  /** The lines holding values are single lines when the URL and the branch name are. */
  lemma ValueLinesSingle(summary: PushSummary)
    requires '\n' !in Placeholder(summary.compareUrl) && '\n' !in Placeholder(summary.branchName)
    ensures forall k :: 5 <= k <= 8 ==> '\n' !in SummaryLines(summary)[k]
  {
    assert '\n' !in SummaryLines(summary)[5];
    assert '\n' !in SummaryLines(summary)[6];
    assert '\n' !in SummaryLines(summary)[7];
    assert '\n' !in SummaryLines(summary)[8];
  }

  /** When the URL and the branch name are single lines, the markdown's lines
      are found back by splitting it, and its solutions line names the failures
      exactly when there are some. */
  lemma SummaryMarkdownLines(summary: PushSummary)
    requires summary.success && Truthy(summary.compareUrl)
    requires '\n' !in Placeholder(summary.compareUrl) && '\n' !in Placeholder(summary.branchName)
    ensures Split(SummaryMarkdown(summary), '\n') == SummaryLines(summary)
    ensures '、' in Split(SummaryMarkdown(summary), '\n')[7] <==> summary.failedCount > 0
  {
    FixedLinesSingle(summary);
    ValueLinesSingle(summary);
    JoinSplit(SummaryLines(summary), '\n');
  }
}
