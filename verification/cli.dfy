/** `parseCommandLineArgs` of `src/utils/cli.ts`, with `process.argv` as a
    parameter: valued flags read the element after their first occurrence,
    boolean flags test presence, and the `--exercise` spec is classified as a
    count, a comma list, a path or a task id. */
module Cli {
  import opened Wrappers
  import opened Strings
  import opened Seqs
  import opened Types

  /** The value of a valued flag: the element right after its first occurrence,
      absent when the flag is missing or is the last element. */
  function FlagValue(argv: seq<string>, flag: string): (r: Option<string>)
    ensures r.Some? ==>
      exists i :: 0 <= i < |argv| - 1 && argv[i] == flag && flag !in argv[..i] && r.value == argv[i + 1]
    ensures r.None? <==> flag !in argv || (argv[|argv| - 1] == flag && flag !in argv[..|argv| - 1])
  {
    match IndexOfElem(argv, flag)
    case None => None
    case Some(i) =>
      if i + 1 < |argv| then Some(argv[i + 1])
      else
        assert argv[..|argv| - 1] == argv[..i];
        None
  }

  /** Only the first occurrence of a flag counts: whatever follows is ignored. */
  lemma FlagValueAt(before: seq<string>, flag: string, value: string, after: seq<string>)
    requires flag !in before
    ensures FlagValue(before + [flag, value] + after, flag) == Some(value)
  {
    var argv := before + [flag, value] + after;
    assert argv[|before|] == flag && argv[..|before|] == before;
    assert IndexOfElem(argv, flag) == Some(|before|);
  }

  /** A boolean flag is set iff it appears anywhere. */
  predicate HasFlag(argv: seq<string>, flag: string) {
    flag in argv
  }

  /** The longest prefix of decimal digits. */
  function LeadingDigits(s: string): (r: string)
    ensures StartsWith(s, r) && AllDigits(r)
    ensures |r| < |s| ==> !('0' <= s[|r|] <= '9')
  {
    if |s| > 0 && '0' <= s[0] <= '9' then [s[0]] + LeadingDigits(s[1..]) else ""
  }

  /** `parseInt(s, 10)`: leading whitespace, an optional sign, then the longest
      run of digits; `NaN` when there are none. */
  function ParseInt(s: string): Number {
    ParseTrimmed(TrimStart(s))
  }

  /** `parseInt` once the leading whitespace is gone. */
  function ParseTrimmed(t: string): Number {
    var body := if |t| > 0 && (t[0] == '-' || t[0] == '+') then t[1..] else t;
    var digits := LeadingDigits(body);
    if |digits| == 0 then NaN
    else if |t| > 0 && t[0] == '-' then Num(0 - DigitsValue(digits) as int)
    else Num(DigitsValue(digits))
  }

  /** Without a sign, `parseInt` reads the leading digits. */
  lemma ParseTrimmedUnsigned(t: string)
    requires |t| > 0 && t[0] != '-' && t[0] != '+' && |LeadingDigits(t)| > 0
    ensures ParseTrimmed(t) == Num(DigitsValue(LeadingDigits(t)))
  {
  }

  lemma {:induction false} LeadingDigitsAll(s: string)
    requires AllDigits(s)
    ensures LeadingDigits(s) == s
    decreases |s|
  {
    if |s| > 0 {
      LeadingDigitsAll(s[1..]);
      assert [s[0]] + s[1..] == s;
    }
  }

  /** Reading back a printed count gives the count. */
  lemma ParseIntRoundTrip(n: nat)
    ensures ParseInt(NatToString(n)) == Num(n)
  {
    NatToStringRoundTrip(n);
    ParseIntDigits(NatToString(n));
  }

  /** A non-empty run of digits parses to its value. */
  lemma ParseIntDigits(s: string)
    requires |s| > 0 && AllDigits(s)
    ensures ParseInt(s) == Num(DigitsValue(s))
  {
    assert !IsSpace(s[0]) && s[0] != '-' && s[0] != '+' by {
      assert '0' <= s[0] <= '9';
    }
    TrimStartKeeps(s);
    LeadingDigitsAll(s);
    ParseTrimmedUnsigned(s);
  }

  /** Text that starts with neither whitespace, a sign nor a digit is `NaN`. */
  lemma ParseIntNaN(s: string)
    requires |s| == 0 || !(IsSpace(s[0]) || s[0] == '-' || s[0] == '+' || '0' <= s[0] <= '9')
    ensures ParseInt(s) == NaN
  {
    TrimStartKeeps(s);
    assert ParseTrimmed(s) == NaN;
  }

  /** The default exercise list `TOP_25_EXERCISES`, one comma-separated string. */
  const Top25Names: seq<string> := [
    "acronym", "anagram", "bank-account", "binary-search", "binary-search-tree",
    "bowling", "complex-numbers", "connect", "crypto-square", "diamond",
    "dnd-character", "flatten-array", "food-chain", "house", "pascals-triangle",
    "rational-numbers", "react", "rectangles", "relative-distance", "robot-name",
    "spiral-matrix", "transpose", "two-bucket", "variable-length-quantity", "wordy"]

  const Top25: string := Join(Top25Names, ",")

  /** The default list as the parser builds it: split on `,` and trimmed. */
  function Top25List(): seq<string> {
    Map(Trim, Split(Top25, ','))
  }

  /** Names free of commas and of edge whitespace, joined with commas, split
      and trimmed, come back unchanged. */
  lemma SplitTrimJoin(names: seq<string>)
    requires |names| >= 1
    requires forall k :: 0 <= k < |names| ==>
      ',' !in names[k] && (|names[k]| == 0 || (!IsSpace(names[k][0]) && !IsSpace(names[k][|names[k]| - 1])))
    ensures Map(Trim, Split(Join(names, ","), ',')) == names
  {
    JoinSplit(names, ',');
    forall k | 0 <= k < |names|
      ensures Trim(names[k]) == names[k]
    {
      TrimKeeps(names[k]);
    }
  }

  /** A task name: lower-case letters and dashes. */
  predicate Slug(name: string) {
    forall i :: 0 <= i < |name| ==> 'a' <= name[i] <= 'z' || name[i] == '-'
  }

  lemma SlugClean(name: string)
    requires Slug(name)
    ensures ',' !in name && (|name| == 0 || (!IsSpace(name[0]) && !IsSpace(name[|name| - 1])))
  {
    if |name| > 0 {
      assert 'a' <= name[0] <= 'z' || name[0] == '-';
      assert 'a' <= name[|name| - 1] <= 'z' || name[|name| - 1] == '-';
    }
  }

  lemma Top25SlugsA()
    ensures Slug("acronym") && Slug("anagram") && Slug("bank-account") && Slug("binary-search")
    ensures Slug("binary-search-tree")
  {
  }

  lemma Top25SlugsB()
    ensures Slug("bowling") && Slug("complex-numbers") && Slug("connect") && Slug("crypto-square")
    ensures Slug("diamond")
  {
  }

  lemma Top25SlugsC()
    ensures Slug("dnd-character") && Slug("flatten-array") && Slug("food-chain") && Slug("house")
    ensures Slug("pascals-triangle")
  {
  }

  lemma Top25SlugsD()
    ensures Slug("rational-numbers") && Slug("react") && Slug("rectangles") && Slug("relative-distance")
    ensures Slug("robot-name")
  {
  }

  lemma Top25SlugsE()
    ensures Slug("spiral-matrix") && Slug("transpose") && Slug("two-bucket")
    ensures Slug("variable-length-quantity") && Slug("wordy")
  {
  }

  lemma Top25Slugs()
    ensures forall k :: 0 <= k < |Top25Names| ==> Slug(Top25Names[k])
  {
    Top25SlugsA();
    Top25SlugsB();
    Top25SlugsC();
    Top25SlugsD();
    Top25SlugsE();
  }

  /** Splitting and trimming the default string gives back the 25 names. */
  lemma Top25ListNames()
    ensures Top25List() == Top25Names
    ensures |Top25List()| == 25
  {
    Top25Slugs();
    forall k | 0 <= k < |Top25Names|
      ensures ',' !in Top25Names[k]
        && (|Top25Names[k]| == 0 || (!IsSpace(Top25Names[k][0]) && !IsSpace(Top25Names[k][|Top25Names[k]| - 1])))
    {
      SlugClean(Top25Names[k]);
    }
    SplitTrimJoin(Top25Names);
  }

  predicate NonEmpty(s: string) {
    |s| > 0
  }

  /** One item of a comma spec: trimmed, then cut to its last `/` segment
      unless that segment is empty. */
  function SpecItem(item: string): (r: string)
    ensures '/' !in Trim(item) ==> r == Trim(item)
    ensures '/' in Trim(item) && LastSegment(Trim(item), '/') != "" ==> r == LastSegment(Trim(item), '/')
    ensures '/' in Trim(item) && LastSegment(Trim(item), '/') == "" ==> r == Trim(item)
  {
    var t := Trim(item);
    if '/' in t then (if LastSegment(t, '/') != "" then LastSegment(t, '/') else t) else t
  }

  /** The list a comma spec selects: its non-empty items. */
  function CommaList(spec: string): (r: seq<string>)
    ensures forall k :: 0 <= k < |r| ==> |r[k]| > 0
  {
    Filter(NonEmpty, Map(SpecItem, Split(spec, ',')))
  }

  /** Which tasks a spec asks for: at most one of a task id, a count and a list
      (the `specificExercise` / `exerciseCount` / `exerciseList` triple). */
  datatype Selection = Selection(specific: Option<string>, count: Option<nat>, list: Option<seq<string>>)

  /** The classification of the `--exercise` spec (after the `--issue-id`
      override). An all-digit spec is a count except on `v2`, where it is a
      task id; a spec with a comma is a list; a spec with a `/` is cut to its
      last segment; no spec on a dataset other than `v2` selects the default list. */
  function Classify(spec: Option<string>, v2: bool): (r: Selection)
    ensures !Truthy(spec) ==> r.specific == spec && r.count.None?
    ensures !Truthy(spec) ==> (r.list.Some? <==> !v2) && (!v2 ==> r.list == Some(Top25List()))
    ensures Truthy(spec) && AllDigits(spec.value) && !v2 ==>
      r == Selection(None, Some(DigitsValue(spec.value)), None)
    ensures Truthy(spec) && !(AllDigits(spec.value) && !v2) && ',' in spec.value ==>
      r == Selection(None, None, Some(CommaList(spec.value)))
    ensures Truthy(spec) && !(AllDigits(spec.value) && !v2) && ',' !in spec.value && '/' in spec.value ==>
      r.count.None? && r.list.None?
      && (r.specific.Some? <==> LastSegment(spec.value, '/') != "")
      && (r.specific.Some? ==> r.specific.value == LastSegment(spec.value, '/'))
    ensures Truthy(spec) && !(AllDigits(spec.value) && !v2) && ',' !in spec.value && '/' !in spec.value ==>
      r == Selection(spec, None, None)
  {
    if !Truthy(spec) then Selection(spec, None, if v2 then None else Some(Top25List()))
    else
      var x := spec.value;
      if AllDigits(x) && !v2 then Selection(None, Some(DigitsValue(x)), None)
      else if ',' in x then Selection(None, None, Some(CommaList(x)))
      else if '/' in x then
        Selection(if LastSegment(x, '/') != "" then Some(LastSegment(x, '/')) else None, None, None)
      else Selection(spec, None, None)
  }

  /** Names joined by commas come back as the same list, provided each is
      non-empty and free of commas, slashes and edge whitespace. */
  lemma CommaListRoundTrip(names: seq<string>, v2: bool)
    requires |names| >= 2
    requires forall k :: 0 <= k < |names| ==>
      |names[k]| > 0 && ',' !in names[k] && '/' !in names[k]
      && !IsSpace(names[k][0]) && !IsSpace(names[k][|names[k]| - 1])
    ensures Classify(Some(Join(names, ",")), v2) == Selection(None, None, Some(names))
  {
    JoinHasSeparator(names);
    CommaListOfJoin(names);
  }

  /** The list half of the round trip: splitting, trimming and dropping empty
      items undoes the join. */
  lemma CommaListOfJoin(names: seq<string>)
    requires |names| >= 1
    requires forall k :: 0 <= k < |names| ==>
      |names[k]| > 0 && ',' !in names[k] && '/' !in names[k]
      && !IsSpace(names[k][0]) && !IsSpace(names[k][|names[k]| - 1])
    ensures CommaList(Join(names, ",")) == names
  {
    JoinSplit(names, ',');
    forall k | 0 <= k < |names|
      ensures SpecItem(names[k]) == names[k]
    {
      TrimKeeps(names[k]);
    }
    assert Map(SpecItem, Split(Join(names, ","), ',')) == names;
    FilterAll(NonEmpty, names);
  }

  /** The first comma of a join sits right after the first name. */
  lemma JoinHasSeparator(names: seq<string>)
    requires |names| >= 2
    ensures |names[0]| < |Join(names, ",")| && Join(names, ",")[|names[0]|] == ','
    ensures ',' in Join(names, ",") && !AllDigits(Join(names, ","))
  {
    assert Join(names, ",")[|names[0]|] == ',';
  }

  /** `CLIArgs`: every option the parser fills in. Strings that the source
      casts to a union type (`agent`, `dataset`, `provider`, `outputFormat`)
      are kept as given. */
  datatype CliArgs = CliArgs(
    model: string,
    agent: string,
    dataset: string,
    provider: string,
    verbose: bool,
    specificExercise: Option<string>,
    exerciseCount: Option<nat>,
    exerciseList: Option<seq<string>>,
    listExercises: bool,
    outputFormat: string,
    outputDir: Option<string>,
    exportWeb: bool,
    allAgents: bool,
    exercismPath: Option<string>,
    batch: Option<Number>,
    totalBatches: Number,
    useDocker: Option<bool>,
    saveResult: bool,
    resultName: Option<string>,
    resultDir: Option<string>,
    version: Option<string>,
    showProgress: bool,
    testOnly: bool,
    printInstructions: bool,
    customInstruction: Option<string>,
    timeout: Number)

  /** The dataset the rest of the program sees: only `"v2"` is `V2`. */
  function DatasetOf(dataset: string): (r: Option<DatasetType>)
    ensures IsV2(r) <==> dataset == "v2"
  {
    Some(if dataset == "v2" then V2 else V1)
  }

  /** The default per-exercise timeout in seconds. */
  function DefaultTimeout(dataset: string): (r: int)
    ensures r == 600 || r == 300
    ensures r == 600 <==> dataset == "v2"
  {
    if dataset == "v2" then 600 else 300
  }

  /** The spec to classify: a non-empty `--issue-id` replaces `--exercise` on `v2`. */
  function SpecOf(argv: seq<string>, dataset: string): (r: Option<string>)
    ensures dataset == "v2" && Truthy(FlagValue(argv, "--issue-id")) ==> r == FlagValue(argv, "--issue-id")
    ensures !(dataset == "v2" && Truthy(FlagValue(argv, "--issue-id"))) ==> r == FlagValue(argv, "--exercise")
  {
    var issueId := FlagValue(argv, "--issue-id");
    if dataset == "v2" && Truthy(issueId) then issueId else FlagValue(argv, "--exercise")
  }

  function ParseArgs(argv: seq<string>): (r: CliArgs)
    ensures r.dataset == FlagValue(argv, "--dataset").GetOr("v1")
    ensures FlagValue(argv, "--timeout").None? ==> r.timeout == Num(DefaultTimeout(r.dataset))
    ensures FlagValue(argv, "--timeout").Some? ==> r.timeout == ParseInt(FlagValue(argv, "--timeout").value)
    ensures r.useDocker == Some(HasFlag(argv, "--docker"))
    ensures Selection(r.specificExercise, r.exerciseCount, r.exerciseList)
      == Classify(SpecOf(argv, r.dataset), r.dataset == "v2")
  {
    var dataset := FlagValue(argv, "--dataset").GetOr("v1");
    var timeout := FlagValue(argv, "--timeout");
    var batch := FlagValue(argv, "--batch");
    var totalBatches := FlagValue(argv, "--total-batches");
    var selection := Classify(SpecOf(argv, dataset), dataset == "v2");
    CliArgs(
      model := FlagValue(argv, "--model").GetOr("sonnet"),
      agent := FlagValue(argv, "--agent").GetOr("claude"),
      dataset := dataset,
      provider := FlagValue(argv, "--provider").GetOr("openai"),
      verbose := HasFlag(argv, "--verbose"),
      specificExercise := selection.specific,
      exerciseCount := selection.count,
      exerciseList := selection.list,
      listExercises := HasFlag(argv, "--list"),
      outputFormat := FlagValue(argv, "--output-format").GetOr("console"),
      outputDir := FlagValue(argv, "--output-dir"),
      exportWeb := HasFlag(argv, "--export-web"),
      allAgents := HasFlag(argv, "--all-agents"),
      exercismPath := FlagValue(argv, "--exercism-path"),
      batch := if batch.Some? then Some(ParseInt(batch.value)) else None,
      totalBatches := if totalBatches.Some? then ParseInt(totalBatches.value) else Num(5),
      useDocker := Some(HasFlag(argv, "--docker")),
      saveResult := HasFlag(argv, "--save-result"),
      resultName := FlagValue(argv, "--result-name"),
      resultDir := FlagValue(argv, "--result-dir"),
      version := FlagValue(argv, "--version"),
      showProgress := HasFlag(argv, "--show-progress"),
      testOnly := HasFlag(argv, "--test-only"),
      printInstructions := HasFlag(argv, "--print-instructions"),
      customInstruction := FlagValue(argv, "--custom-instruction"),
      timeout := if timeout.Some? then ParseInt(timeout.value) else Num(DefaultTimeout(dataset)))
  }

  /** With no flags at all: Claude on `sonnet`, dataset `v1`, local execution,
      a 300-second timeout and the default list of 25 exercises. */
  lemma ParseArgsDefaults(argv: seq<string>)
    requires forall k :: 0 <= k < |argv| ==> !StartsWith(argv[k], "--")
    ensures var r := ParseArgs(argv);
      && r.model == "sonnet" && r.agent == "claude" && r.dataset == "v1" && r.provider == "openai"
      && r.useDocker == Some(false) && r.timeout == Num(300) && r.totalBatches == Num(5)
      && r.specificExercise.None? && r.exerciseCount.None? && r.exerciseList == Some(Top25Names)
  {
    NoFlag(argv, "--model");
    NoFlag(argv, "--agent");
    NoFlag(argv, "--dataset");
    NoFlag(argv, "--provider");
    NoFlag(argv, "--docker");
    NoFlag(argv, "--timeout");
    NoFlag(argv, "--total-batches");
    NoFlag(argv, "--issue-id");
    NoFlag(argv, "--exercise");
    Top25ListNames();
  }

  lemma NoFlag(argv: seq<string>, flag: string)
    requires StartsWith(flag, "--")
    requires forall k :: 0 <= k < |argv| ==> !StartsWith(argv[k], "--")
    ensures flag !in argv && FlagValue(argv, flag).None?
  {
  }
}
