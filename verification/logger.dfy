/** The strings `ConsoleLogger` of `src/utils/logger.ts` builds: the agent
    command with secrets masked and the length capped, the output previews
    and the per-phase and per-exercise status lines. Durations arrive already
    formatted, since `formatDuration` is not part of this model. */
module Logger {
  import opened Wrappers
  import opened Strings
  import opened Seqs
  import opened Types

  predicate IsKeyChar(ch: char) {
    ('A' <= ch <= 'Z') || ch == '_'
  }

  /** `[A-Z_]+<suffix>` matched against a whole key. */
  predicate KeyWithSuffix(key: string, suffix: string) {
    |key| > |suffix| && EndsWith(key, suffix) && forall k :: 0 <= k < |key| ==> IsKeyChar(key[k])
  }

  /** A key that names a credential: upper-case letters and underscores,
      ending in `_API_KEY`, `_TOKEN` or `_SECRET` after at least one character. */
  predicate SecretKeyName(key: string) {
    KeyWithSuffix(key, "_API_KEY") || KeyWithSuffix(key, "_TOKEN") || KeyWithSuffix(key, "_SECRET")
  }

  /** `arg.split('=')[0]`: the text before the first `=`, or all of it. */
  function KeyOf(arg: string): (r: string)
    ensures '=' !in r && StartsWith(arg, r)
    ensures |r| < |arg| ==> arg[|r|] == '='
  {
    SplitPartsFree(arg, '=');
    SplitJoin(arg, '=');
    var parts := Split(arg, '=');
    if |parts| == 1 then arg
    else
      assert Join(parts, "=") == parts[0] + "=" + Join(parts[1..], "=");
      PrefixOfAppend(parts[0], "=" + Join(parts[1..], "="));
      parts[0]
  }

  /** The argument patterns that are masked: `^[A-Z_]+_API_KEY=` (and `_TOKEN=`,
      `_SECRET=`), or any occurrence of `sk-` or `Bearer `. Since a key of
      `[A-Z_]` holds no `=`, the anchored patterns are decided by the text
      before the first `=`. */
  predicate IsSecretArg(arg: string) {
    (|KeyOf(arg)| < |arg| && SecretKeyName(KeyOf(arg)))
    || Contains(arg, "sk-") || Contains(arg, "Bearer ")
  }

  /** A masked argument keeps only its key. */
  function Masked(arg: string): (r: string)
    ensures r == KeyOf(arg) + "=***"
  {
    KeyOf(arg) + "=***"
  }

  function SanitizeArg(arg: string): (r: string)
    ensures IsSecretArg(arg) ==> r == KeyOf(arg) + "=***"
    ensures !IsSecretArg(arg) ==> r == arg
  {
    if IsSecretArg(arg) then Masked(arg) else arg
  }

  const MaxCommandLength := 1024

  /** `sanitizeCommand`: every argument sanitised, joined by single spaces,
      cut to 1024 characters plus `...` when longer. */
  function SanitizeCommand(args: seq<string>): (r: string)
    ensures |r| <= MaxCommandLength + 3
    ensures var joined := Join(Map(SanitizeArg, args), " ");
      && (|joined| <= MaxCommandLength ==> r == joined)
      && (|joined| > MaxCommandLength ==> r == joined[..MaxCommandLength] + "...")
  {
    var joined := Join(Map(SanitizeArg, args), " ");
    if |joined| > MaxCommandLength then joined[..MaxCommandLength] + "..." else joined
  }

  /** `KEY=value` with a credential key is masked to `KEY=***`: the value is gone. */
  lemma MaskAssignment(key: string, value: string)
    requires SecretKeyName(key)
    ensures IsSecretArg(key + "=" + value)
    ensures SanitizeArg(key + "=" + value) == key + "=***"
  {
    assert '=' !in key by {
      assert forall k :: 0 <= k < |key| ==> IsKeyChar(key[k]);
    }
    SplitAtFirst(key, value, '=');
    assert key + "=" + value == key + ['='] + value;
  }

  /** An argument with no `=` that contains `Bearer ` is reproduced whole
      before `=***`: the token is not hidden. */
  lemma BearerWithoutEquals(arg: string)
    requires '=' !in arg && Contains(arg, "Bearer ")
    ensures SanitizeArg(arg) == arg + "=***"
  {
    SplitFree(arg, '=');
  }

  /** An argument matching no pattern is printed as given. */
  lemma PlainArgKept(arg: string)
    requires !Contains(arg, "sk-") && !Contains(arg, "Bearer ") && '=' !in arg
    ensures SanitizeArg(arg) == arg
  {
    SplitFree(arg, '=');
  }

  const Robot := "\U{1F916}"
  const TestTube := "\U{1F9EA}"

  const AgentCommandHeader := Robot + " Agent command: "
  const TestCommandHeader := TestTube + " Test command: "

  /** `logAgentCommand`: the header, then the sanitised command. */
  function AgentCommandLine(args: seq<string>): (r: string)
    ensures |r| == |AgentCommandHeader| + |SanitizeCommand(args)|
    ensures StartsWith(r, AgentCommandHeader) && EndsWith(r, SanitizeCommand(args))
  {
    PrefixOfAppend(AgentCommandHeader, SanitizeCommand(args));
    AgentCommandHeader + SanitizeCommand(args)
  }

  /** A credential assignment reaches the agent command line masked. */
  lemma AgentCommandLineMasks(key: string, value: string)
    requires SecretKeyName(key) && |key| + 4 <= MaxCommandLength
    ensures AgentCommandLine([key + "=" + value]) == AgentCommandHeader + key + "=***"
  {
    MaskAssignment(key, value);
    assert Map(SanitizeArg, [key + "=" + value]) == [key + "=***"];
    assert Join([key + "=***"], " ") == key + "=***";
  }

  /** `logTestCommand`: the header, then the arguments joined by spaces,
      without masking. */
  function TestCommandLine(args: seq<string>): (r: string)
    ensures |r| == |TestCommandHeader| + |Join(args, " ")|
    ensures StartsWith(r, TestCommandHeader) && EndsWith(r, Join(args, " "))
  {
    PrefixOfAppend(TestCommandHeader, Join(args, " "));
    TestCommandHeader + Join(args, " ")
  }

  /** Arguments without spaces are read back from the test command line by
      splitting what follows the header on spaces. */
  lemma TestCommandLineSplits(args: seq<string>)
    requires |args| >= 1 && forall k :: 0 <= k < |args| ==> ' ' !in args[k]
    ensures var r := TestCommandLine(args);
      Split(r[|TestCommandHeader|..], ' ') == args
  {
    var r := TestCommandLine(args);
    assert r[|TestCommandHeader|..] == Join(args, [' ']);
    JoinSplit(args, ' ');
  }

  /** Unlike the agent command, the test command shows an assignment's value. */
  lemma TestCommandLineShowsValues(key: string, value: string)
    ensures TestCommandLine([key + "=" + value]) == TestCommandHeader + key + "=" + value
  {
    assert Join([key + "=" + value], " ") == key + "=" + value;
  }

  /** The agent-success preview: the first 300 characters of stdout, then
      `...` iff there were more. */
  function Preview(stdout: string): (r: string)
    ensures |stdout| <= 300 ==> r == stdout
    ensures |stdout| > 300 ==> |r| == 303 && StartsWith(stdout, r[..300]) && EndsWith(r, "...")
  {
    if |stdout| > 300 then
      PrefixOfAppend(stdout[..300], "...");
      stdout[..300] + "..."
    else stdout
  }

  /** `logAgentSuccess`: the status line, and the preview when verbose and
      stdout is non-empty. */
  function AgentSuccessLines(exercise: string, duration: string, verbose: bool, result: Option<CommandResult>): (r: seq<string>)
    ensures |r| == 2 <==> verbose && result.Some? && result.value.stdout != ""
    ensures |r| == 1 || |r| == 2
    ensures |r| == 2 ==> r[1] == "  Agent Output Preview: " + Preview(result.value.stdout)
  {
    var status := Robot + " " + exercise + " - Agent Success (" + duration + ")";
    if verbose && result.Some? && result.value.stdout != "" then
      [status, "  Agent Output Preview: " + Preview(result.value.stdout)]
    else [status]
  }

  /** A failure excerpt: at most 500 characters, and always `...`. */
  function Excerpt(s: string): (r: string)
    ensures |r| == (if |s| < 500 then |s| else 500) + 3 && EndsWith(r, "...")
    ensures StartsWith(s, r[..|r| - 3])
  {
    var head := s[..if |s| < 500 then |s| else 500];
    PrefixOfAppend(head, "...");
    head + "..."
  }

  /** `logAgentFailure` and `logTestFailure`: the status line, then when
      verbose one excerpt per non-empty stream. */
  function FailureLines(icon: string, phase: string, exercise: string, duration: string, verbose: bool,
                        result: CommandResult): (r: seq<string>)
    ensures |r| == 1 + (if verbose && result.stdout != "" then 1 else 0) + (if verbose && result.stderr != "" then 1 else 0)
    ensures r[0] == icon + " " + exercise + " - " + phase + " Failed (" + duration + ")"
    ensures verbose && result.stdout != "" ==> r[1] == "  " + phase + " STDOUT: " + Excerpt(result.stdout)
    ensures verbose && result.stderr != "" ==> r[|r| - 1] == "  " + phase + " STDERR: " + Excerpt(result.stderr)
  {
    var status := icon + " " + exercise + " - " + phase + " Failed (" + duration + ")";
    var out := if verbose && result.stdout != "" then ["  " + phase + " STDOUT: " + Excerpt(result.stdout)] else [];
    var err := if verbose && result.stderr != "" then ["  " + phase + " STDERR: " + Excerpt(result.stderr)] else [];
    [status] + out + err
  }

  /** The end of a status line: ` - <message> (<duration>)`. */
  function LineTail(message: string, duration: string): string {
    " - " + message + " (" + duration + ")"
  }

  /** `<status> <exercise> - <message> (<duration>)`. */
  function StatusLine(status: char, exercise: string, message: string, duration: string): (r: string)
    ensures |r| == 2 + |exercise| + |LineTail(message, duration)|
    ensures r[0] == status && r[1] == ' ' && r[2..2 + |exercise|] == exercise
    ensures EndsWith(r, LineTail(message, duration))
  {
    PrefixOfAppend([status] + " " + exercise, LineTail(message, duration));
    ([status] + " " + exercise) + LineTail(message, duration)
  }

  const CheckMark: char := '\U{2705}'
  const CrossMark: char := '\U{274C}'

  /** `logExerciseResult`: a check mark and `Overall Success`, or a cross and
      `Overall Failed`. */
  function ExerciseResultLine(exercise: string, success: bool, duration: string): (r: string)
    ensures |r| > 0 && (r[0] == CheckMark <==> success) && (r[0] == CrossMark <==> !success)
    ensures |r| == 2 + |exercise| + |LineTail(if success then "Overall Success" else "Overall Failed", duration)|
    ensures |r| > 2 + |exercise| && r[1] == ' ' && r[2..2 + |exercise|] == exercise
    ensures success ==> EndsWith(r, LineTail("Overall Success", duration))
    ensures !success ==> EndsWith(r, LineTail("Overall Failed", duration))
  {
    if success then StatusLine(CheckMark, exercise, "Overall Success", duration)
    else StatusLine(CrossMark, exercise, "Overall Failed", duration)
  }
}
