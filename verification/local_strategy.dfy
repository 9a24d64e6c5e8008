/** `LocalExecutionStrategy.prepare` of `src/execution/local-strategy.ts`: the
    command runs on the host, in the exercise directory (`v1`) or in the
    single repository behind a `bash -c` wrapper (`v2`). */
module LocalStrategy {
  import opened Wrappers
  import opened Strings
  import opened Types
  import opened Scripts
  import opened Seqs

  /** The repository directory: a leading `~` is replaced by the home
      directory, any other path is joined to the working directory. */
  function ExpandRepoPath(repoPath: string, home: string, cwd: string): (r: string)
    ensures StartsWith(repoPath, "~") ==> r == home + repoPath[1..]
    ensures !StartsWith(repoPath, "~") ==> r == PathJoin(cwd, repoPath)
  {
    if |repoPath| > 0 && repoPath[0] == '~' then home + repoPath[1..] else PathJoin(cwd, repoPath)
  }

  /** Naive quoting: an argument with a space is wrapped in double quotes,
      without escaping anything inside. */
  function QuoteArg(a: string): (r: string)
    ensures ' ' in a ==> r == "\"" + a + "\""
    ensures ' ' !in a ==> r == a
  {
    if ' ' in a then "\"" + a + "\"" else a
  }

  /** Strips the quotes `QuoteArg` adds. */
  function Unquote(w: string): string {
    if |w| >= 2 && w[0] == '"' && w[|w| - 1] == '"' && ' ' in w[1..|w| - 1] then w[1..|w| - 1] else w
  }

  /** Quoting is undone by `Unquote`, so no argument is lost by quoting alone. */
  lemma UnquoteQuote(a: string)
    ensures Unquote(QuoteArg(a)) == a
  {
    if ' ' in a {
      var w := "\"" + a + "\"";
      assert w[1..|w| - 1] == a;
    }
  }

  function QuoteAll(args: seq<string>): (r: seq<string>)
    ensures |r| == |args|
    ensures forall i :: 0 <= i < |args| ==> r[i] == QuoteArg(args[i])
  {
    seq(|args|, i requires 0 <= i < |args| => QuoteArg(args[i]))
  }

  /** The wrapped command written into the script: the quoted arguments joined by single spaces. */
  function CommandLine(args: seq<string>): string {
    Join(QuoteAll(args), " ")
  }

  /** For arguments without spaces the command line splits back into the arguments. */
  lemma CommandLineSplits(args: seq<string>)
    requires |args| >= 1
    requires forall i :: 0 <= i < |args| ==> ' ' !in args[i]
    ensures Split(CommandLine(args), ' ') == args
  {
    assert QuoteAll(args) == args;
    JoinSplit(args, ' ');
  }

  /** The quoting is not injective: an argument with a space and two arguments
      that carry the quote characters themselves give the same command line. */
  lemma CommandLineAmbiguous()
    ensures CommandLine(["a b"]) == CommandLine(["\"a", "b\""])
  {
    assert "a b"[1] == ' ';
    assert QuoteArg("a b") == "\"a b\"";
    assert QuoteAll(["a b"])[0] == "\"a b\"";
    assert ' ' !in "\"a" && ' ' !in "b\"";
    assert QuoteAll(["\"a", "b\""])[0] == "\"a" && QuoteAll(["\"a", "b\""])[1] == "b\"";
    assert QuoteAll(["a b"]) == ["\"a b\""];
    assert QuoteAll(["\"a", "b\""]) == ["\"a", "b\""];
    assert Join(["\"a", "b\""], " ") == "\"a" + " " + Join(["b\""], " ");
  }

  /** The `v2` script: the hard reset when a commit is set, the plain apply
      when an apply path is set, the command line, and the exit-preserving
      diff when a generate path is set. */
  function LocalV2Steps(args: seq<string>, ctx: PrepareContext): seq<Step> {
    ResetSteps(ctx) + LocalApplySteps(ctx) + [Inline(CommandLine(args))] + LocalDiffSteps(ctx)
  }

  function ResetSteps(ctx: PrepareContext): seq<Step> {
    if Truthy(ctx.commitId) then [HardReset(ctx.commitId.value)] else []
  }

  function LocalApplySteps(ctx: PrepareContext): seq<Step> {
    if Truthy(ctx.applyPatchPath) then [Apply(ctx.applyPatchPath.value)] else []
  }

  function LocalDiffSteps(ctx: PrepareContext): seq<Step> {
    if Truthy(ctx.generatePatchPath) then [CaptureDiff(ctx.generatePatchPath.value)] else []
  }

  function Prepare(core: Command, ctx: PrepareContext, host: Host): (r: PreparedCommand)
    ensures !IsV2(ctx.datasetType) ==>
      r.command == core.args && r.options.cwd == Some(host.cwd + "/" + ctx.exercisePath)
    ensures IsV2(ctx.datasetType) ==>
      |r.command| == 3 && r.command[0] == "bash" && r.command[1] == "-c"
      && r.command[2] == Render(LocalV2Steps(core.args, ctx))
      && r.options.cwd == Some(ExpandRepoPath(host.repoPath, host.home, host.cwd))
    ensures r.options.env == core.env && r.options.timeout.None?
  {
    if IsV2(ctx.datasetType) then
      PreparedCommand(["bash", "-c", Render(LocalV2Steps(core.args, ctx))],
        ExecOptions(Some(ExpandRepoPath(host.repoPath, host.home, host.cwd)), core.env, None))
    else
      PreparedCommand(core.args, ExecOptions(Some(host.cwd + "/" + ctx.exercisePath), core.env, None))
  }

  /** `v2` script shape: it opens with the hard reset iff a commit is set; the
      unguarded apply is present iff an apply path is set; the diff step is
      present iff a generate path is set and is then last. */
  lemma LocalV2ScriptShape(args: seq<string>, ctx: PrepareContext)
    ensures var steps := LocalV2Steps(args, ctx);
      && (steps[0].HardReset? <==> Truthy(ctx.commitId))
      && (Truthy(ctx.commitId) ==> steps[0] == HardReset(ctx.commitId.value))
      && (forall c :: HardReset(c) in steps <==> Truthy(ctx.commitId) && c == ctx.commitId.value)
      && (forall p :: Apply(p) in steps <==> Truthy(ctx.applyPatchPath) && p == ctx.applyPatchPath.value)
      && (forall p :: CaptureDiff(p) in steps <==> Truthy(ctx.generatePatchPath) && p == ctx.generatePatchPath.value)
      && (Truthy(ctx.generatePatchPath) ==> steps[|steps| - 1] == CaptureDiff(ctx.generatePatchPath.value))
      && (forall s :: s in steps ==> !s.GuardedApply? && !s.BaselineSetup? && !s.ExecArgs?)
  {
  }

  /** `v2`: the command line is written into the script exactly once. */
  lemma LocalV2CommandOnce(args: seq<string>, ctx: PrepareContext)
    ensures Filter((s: Step) => s.Inline?, LocalV2Steps(args, ctx)) == [Inline(CommandLine(args))]
  {
    var isInline := (s: Step) => s.Inline?;
    var r := ResetSteps(ctx);
    var a := LocalApplySteps(ctx);
    var g := LocalDiffSteps(ctx);
    var line := [Inline(CommandLine(args))];
    FilterAppend(isInline, r + a + line, g);
    FilterAppend(isInline, r + a, line);
    FilterAppend(isInline, r, a);
    assert Filter(isInline, r) == [] && Filter(isInline, a) == [] && Filter(isInline, g) == [];
    assert Filter(isInline, line) == line;
  }

  /** `v2` script text: with a commit set it starts with `git reset --hard <commit> && `. */
  lemma LocalV2ScriptOpens(args: seq<string>, ctx: PrepareContext)
    requires Truthy(ctx.commitId)
    ensures StartsWith(Render(LocalV2Steps(args, ctx)), "git reset --hard " + ctx.commitId.value + " && ")
  {
    var steps := LocalV2Steps(args, ctx);
    var first := [HardReset(ctx.commitId.value)];
    assert steps == first + steps[1..];
    RenderAppend(first, steps[1..]);
    RenderSingle(HardReset(ctx.commitId.value));
    PrefixOfAppend(RenderStep(HardReset(ctx.commitId.value)), Render(steps[1..]));
  }

  /** `v2` script text: it ends with the command line, followed by the diff
      suffix exactly when a generate path is set. */
  lemma LocalV2ScriptCloses(args: seq<string>, ctx: PrepareContext)
    ensures Truthy(ctx.generatePatchPath) ==>
      EndsWith(Render(LocalV2Steps(args, ctx)), CommandLine(args) + DiffSuffix(ctx.generatePatchPath.value))
    ensures !Truthy(ctx.generatePatchPath) ==> EndsWith(Render(LocalV2Steps(args, ctx)), CommandLine(args))
  {
    var front := ResetSteps(ctx) + LocalApplySteps(ctx);
    var line := [Inline(CommandLine(args))];
    var g := LocalDiffSteps(ctx);
    RenderAppend(front + line, g);
    RenderAppend(front, line);
    RenderSingle(Inline(CommandLine(args)));
    if Truthy(ctx.generatePatchPath) {
      RenderSingle(CaptureDiff(ctx.generatePatchPath.value));
      EndsWithLastTwo(Render(front), CommandLine(args), DiffSuffix(ctx.generatePatchPath.value));
    } else {
      EndsWithLastTwo(Render(front), CommandLine(args), "");
    }
  }

  /** The test-file list and the issue id never change the prepared command. */
  lemma LocalIgnoresTestFilesAndIssue(core: Command, ctx: PrepareContext, host: Host,
                                      files: Option<seq<string>>, issueId: Option<string>)
    ensures Prepare(core, ctx, host) == Prepare(core, ctx.(testFiles := files, issueId := issueId), host)
  {
  }
}
