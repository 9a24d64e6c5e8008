/** `SolutionCollector` of `src/utils/solution-collector.ts`: which file is
    taken as an exercise's solution, and which results become `SolutionInfo`
    entries. The file system is a parameter: a presence predicate over paths
    and the directory listings a recursive search walks. */
module Solutions {
  import opened Wrappers
  import opened Strings
  import opened Seqs
  import opened Exercise

  /** One entry of a directory listing, after `statSync`. */
  datatype Node =
    | File(name: string)
    | Dir(name: string, readable: bool, children: seq<Node>)  // unreadable when `readdirSync` throws
    | Other(name: string)                            // neither a file nor a directory
    | Unstattable(name: string, message: string)     // `statSync` throws

  /** `existsSync` over paths, and `readdirSync` of a directory. */
  datatype FileSystem = FileSystem(present: string -> bool, listing: string -> Result<seq<Node>>)

  /** A collector: its constructor's `outputDir` and the file system it reads. */
  datatype Collector = Collector(outputDir: string, fs: FileSystem)

  datatype SolutionInfo = SolutionInfo(exercise: string, solutionPath: string, success: bool, error: Option<string>)

  const SolutionNames: seq<string> := ["solution.ts", "solution.js", "index.ts", "index.js"]

  function Join3(a: string, b: string, c: string): string {
    PathJoin(PathJoin(a, b), c)
  }

  function Join4(a: string, b: string, c: string, d: string): string {
    PathJoin(Join3(a, b, c), d)
  }

  /** The fixed places a solution may be, in the order they are tried. */
  function SolutionCandidates(outputDir: string, exercise: string): (r: seq<string>)
    ensures |r| == 10
    ensures forall k :: 0 <= k < 4 ==> r[k] == Join3(outputDir, exercise, SolutionNames[k])
    ensures forall k :: 0 <= k < 4 ==> r[4 + k] == Join4(outputDir, "solutions", exercise, SolutionNames[k])
    ensures r[8] == Join4(outputDir, "temp", exercise, "solution.ts")
    ensures r[9] == Join4(outputDir, "temp", exercise, "solution.js")
  {
    [Join3(outputDir, exercise, "solution.ts"), Join3(outputDir, exercise, "solution.js"),
     Join3(outputDir, exercise, "index.ts"), Join3(outputDir, exercise, "index.js"),
     Join4(outputDir, "solutions", exercise, "solution.ts"), Join4(outputDir, "solutions", exercise, "solution.js"),
     Join4(outputDir, "solutions", exercise, "index.ts"), Join4(outputDir, "solutions", exercise, "index.js"),
     Join4(outputDir, "temp", exercise, "solution.ts"), Join4(outputDir, "temp", exercise, "solution.js")]
  }

  /** The fixed places a failed attempt's output may be, in the order they are tried. */
  function GeneratedCandidates(outputDir: string, exercise: string): (r: seq<string>)
    ensures |r| == 10
    ensures r[0] == Join3(outputDir, exercise, "generated.ts") && r[9] == Join4(outputDir, "temp", exercise, "attempt.js")
  {
    [Join3(outputDir, exercise, "generated.ts"), Join3(outputDir, exercise, "generated.js"),
     Join3(outputDir, exercise, "attempt.ts"), Join3(outputDir, exercise, "attempt.js"),
     Join3(outputDir, exercise, "output.ts"), Join3(outputDir, exercise, "output.js"),
     Join4(outputDir, "temp", exercise, "generated.ts"), Join4(outputDir, "temp", exercise, "generated.js"),
     Join4(outputDir, "temp", exercise, "attempt.ts"), Join4(outputDir, "temp", exercise, "attempt.js")]
  }

  /** The first present path of `paths`. */
  function FirstPresent(paths: seq<string>, present: string -> bool): (r: Option<string>)
    ensures r.None? <==> forall k :: 0 <= k < |paths| ==> !present(paths[k])
    ensures r.Some? ==>
      exists i :: 0 <= i < |paths| && paths[i] == r.value && present(paths[i]) && forall j :: 0 <= j < i ==> !present(paths[j])
    decreases |paths|
  {
    if |paths| == 0 then None
    else if present(paths[0]) then Some(paths[0])
    else
      var r := FirstPresent(paths[1..], present);
      assert forall k :: 1 <= k < |paths| ==> paths[k] == paths[1..][k - 1];
      if r.Some? then
        var i :| 0 <= i < |paths[1..]| && paths[1..][i] == r.value && present(paths[1..][i])
          && forall j :: 0 <= j < i ==> !present(paths[1..][j]);
        assert paths[i + 1] == r.value;
        r
      else r
  }

  /** `searchRecursively`: a depth-first walk in listing order for a file whose
      name is one of `targets`. A directory that cannot be listed is skipped;
      an entry that cannot be stat'ed ends the walk of its directory. */
  function Search(dir: string, items: seq<Node>, targets: seq<string>): (r: Option<string>)
    ensures r.Some? ==> StartsWith(r.value, dir)
    ensures r.Some? ==> exists k :: 0 <= k < |targets| && EndsWith(r.value, targets[k])
    decreases items
  {
    if |items| == 0 then None
    else
      match items[0]
      case Unstattable(_, _) => None
      case Other(_) => Search(dir, items[1..], targets)
      case File(name) =>
        if name in targets then
          PathJoinEnds(dir, name);
          Some(PathJoin(dir, name))
        else Search(dir, items[1..], targets)
      case Dir(name, readable, children) =>
        var found := if readable then Search(PathJoin(dir, name), children, targets) else None;
        if found.Some? then
          PathJoinEnds(dir, name);
          StartsWithTrans(found.value, PathJoin(dir, name), dir);
          found
        else Search(dir, items[1..], targets)
  }

  /** Every file the walk reaches whose name is one of `targets`, in
      depth-first listing order. An entry that cannot be stat'ed ends the walk
      of its directory, an unreadable directory contributes nothing. */
  function Walk(dir: string, items: seq<Node>, targets: seq<string>): seq<string>
    decreases items
  {
    if |items| == 0 then []
    else
      match items[0]
      case Unstattable(_, _) => []
      case Other(_) => Walk(dir, items[1..], targets)
      case File(name) => (if name in targets then [PathJoin(dir, name)] else []) + Walk(dir, items[1..], targets)
      case Dir(name, readable, children) =>
        (if readable then Walk(PathJoin(dir, name), children, targets) else []) + Walk(dir, items[1..], targets)
  }

  /** The search finds a file iff the walk reaches one, and then it is the
      first the walk reaches. */
  lemma {:induction false} SearchIsFirstOfWalk(dir: string, items: seq<Node>, targets: seq<string>)
    ensures Search(dir, items, targets).None? <==> |Walk(dir, items, targets)| == 0
    ensures |Walk(dir, items, targets)| > 0 ==> Search(dir, items, targets) == Some(Walk(dir, items, targets)[0])
    decreases items
  {
    if |items| > 0 {
      match items[0]
      case Unstattable(_, _) =>
      case Other(_) =>
        SearchIsFirstOfWalk(dir, items[1..], targets);
      case File(name) =>
        SearchIsFirstOfWalk(dir, items[1..], targets);
      case Dir(name, readable, children) =>
        SearchIsFirstOfWalk(dir, items[1..], targets);
        if readable {
          SearchIsFirstOfWalk(PathJoin(dir, name), children, targets);
        }
    }
  }

  lemma PathJoinEnds(a: string, b: string)
    ensures StartsWith(PathJoin(a, b), a) && EndsWith(PathJoin(a, b), b)
  {
    if b != "" && a != "" {
      PrefixOfAppend(a + "/", b);
      assert StartsWith(a + "/", a);
      StartsWithAppend(a + "/", b, a);
    }
  }

  lemma StartsWithTrans(s: string, t: string, u: string)
    requires StartsWith(s, t) && StartsWith(t, u)
    ensures StartsWith(s, u)
  {
    assert s[..|u|] == s[..|t|][..|u|];
  }

  /** `findSolutionFile`: the first present fixed candidate; failing that, a
      file named like a solution somewhere under the exercise's directory. */
  function FindSolution(c: Collector, exercise: string): (r: Option<string>)
    ensures (exists k :: 0 <= k < 10 && c.fs.present(SolutionCandidates(c.outputDir, exercise)[k])) ==>
      r == FirstPresent(SolutionCandidates(c.outputDir, exercise), c.fs.present)
    ensures r.Some? ==>
      (r.value in SolutionCandidates(c.outputDir, exercise)
       || (c.fs.present(PathJoin(c.outputDir, exercise)) && StartsWith(r.value, PathJoin(c.outputDir, exercise))))
    ensures var dir := PathJoin(c.outputDir, exercise);
      FirstPresent(SolutionCandidates(c.outputDir, exercise), c.fs.present).None? ==>
        && (c.fs.present(dir) && c.fs.listing(dir).Ok? ==> r == Search(dir, c.fs.listing(dir).value, SolutionNames))
        && (!c.fs.present(dir) || c.fs.listing(dir).Err? ==> r.None?)
  {
    var candidates := SolutionCandidates(c.outputDir, exercise);
    match FirstPresent(candidates, c.fs.present)
    case Some(path) => Some(path)
    case None =>
      var dir := PathJoin(c.outputDir, exercise);
      if c.fs.present(dir) then
        match c.fs.listing(dir)
        case Ok(items) => Search(dir, items, SolutionNames)
        case Err(_) => None
      else None
  }

  /** `findGeneratedFile`: the first present fixed candidate only. */
  function FindGenerated(c: Collector, exercise: string): (r: Option<string>)
    ensures r.None? <==> forall k :: 0 <= k < 10 ==> !c.fs.present(GeneratedCandidates(c.outputDir, exercise)[k])
    ensures r.Some? ==> r.value in GeneratedCandidates(c.outputDir, exercise) && c.fs.present(r.value)
  {
    FirstPresent(GeneratedCandidates(c.outputDir, exercise), c.fs.present)
  }

  /** `result.agentError || result.testError`. */
  function ErrorOf(result: TestResult): (r: Option<string>)
    ensures Truthy(result.agentError) ==> r == result.agentError
    ensures !Truthy(result.agentError) ==> r == result.testError
  {
    if Truthy(result.agentError) then result.agentError else result.testError
  }

  predicate Passed(result: TestResult) {
    result.overallSuccess
  }

  predicate Succeeded(s: SolutionInfo) {
    s.success
  }

  /** What `collectSuccessfulSolutions` records for one passed result. */
  function SuccessEntry(c: Collector, result: TestResult): (r: seq<SolutionInfo>)
    ensures |r| <= 1
    ensures |r| == 1 <==> FindSolution(c, result.exercise).Some?
    ensures |r| == 1 ==> r[0] == SolutionInfo(result.exercise, FindSolution(c, result.exercise).value, true, None)
  {
    match FindSolution(c, result.exercise)
    case Some(path) => [SolutionInfo(result.exercise, path, true, None)]
    case None => []
  }

  function CollectFound(c: Collector, results: seq<TestResult>): seq<SolutionInfo>
    decreases |results|
  {
    if |results| == 0 then [] else SuccessEntry(c, results[0]) + CollectFound(c, results[1..])
  }

  /** `collectSuccessfulSolutions`: the passed results that have a solution
      file, in input order, each marked successful. */
  function CollectSuccessful(c: Collector, results: seq<TestResult>): (r: seq<SolutionInfo>)
    ensures |r| <= |Filter(Passed, results)|
  {
    CollectFoundLength(c, Filter(Passed, results));
    CollectFound(c, Filter(Passed, results))
  }

  lemma {:induction false} CollectFoundLength(c: Collector, results: seq<TestResult>)
    ensures |CollectFound(c, results)| <= |results|
    ensures forall k :: 0 <= k < |CollectFound(c, results)| ==> Succeeded(CollectFound(c, results)[k])
    decreases |results|
  {
    if |results| > 0 {
      CollectFoundLength(c, results[1..]);
    }
  }

  /** What `collectAllSolutions` records for one result: its solution file
      with its own success flag, or for a failed result without one, a
      generated file; the error is kept only for failures. */
  function Entry(c: Collector, result: TestResult): (r: seq<SolutionInfo>)
    ensures |r| <= 1
    ensures |r| == 1 ==> r[0].exercise == result.exercise && r[0].success == result.overallSuccess
    ensures |r| == 1 ==> r[0].error == if result.overallSuccess then None else ErrorOf(result)
    ensures FindSolution(c, result.exercise).Some? ==> |r| == 1 && r[0].solutionPath == FindSolution(c, result.exercise).value
    ensures FindSolution(c, result.exercise).None? ==>
      (|r| == 1 <==> !result.overallSuccess && FindGenerated(c, result.exercise).Some?)
    ensures FindSolution(c, result.exercise).None? && |r| == 1 ==>
      r[0].solutionPath == FindGenerated(c, result.exercise).value
  {
    match FindSolution(c, result.exercise)
    case Some(path) =>
      [SolutionInfo(result.exercise, path, result.overallSuccess,
                    if result.overallSuccess then None else ErrorOf(result))]
    case None =>
      if result.overallSuccess then []
      else
        match FindGenerated(c, result.exercise)
        case Some(path) => [SolutionInfo(result.exercise, path, false, ErrorOf(result))]
        case None => []
  }

  /** `collectAllSolutions`: at most one entry per result, in input order. */
  function CollectAll(c: Collector, results: seq<TestResult>): (r: seq<SolutionInfo>)
    ensures |r| <= |results|
    ensures forall k :: 0 <= k < |r| ==> (r[k].success ==> r[k].error.None?)
  {
    CollectAllFacts(c, results);
    FlatMap(EntryOf(c), results)
  }

  function EntryOf(c: Collector): TestResult -> seq<SolutionInfo> {
    result => Entry(c, result)
  }

  /** An entry marked successful carries no error. */
  predicate Consistent(s: SolutionInfo) {
    s.success ==> s.error.None?
  }

  lemma CollectAllFacts(c: Collector, results: seq<TestResult>)
    ensures var r := FlatMap(EntryOf(c), results);
      |r| <= |results| && forall k :: 0 <= k < |r| ==> (r[k].success ==> r[k].error.None?)
  {
    forall i | 0 <= i < |results|
      ensures |EntryOf(c)(results[i])| <= 1
      ensures forall k :: 0 <= k < |EntryOf(c)(results[i])| ==> Consistent(EntryOf(c)(results[i])[k])
    {
      var e := Entry(c, results[i]);
      assert EntryOf(c)(results[i]) == e;
    }
    FlatMapSmall(EntryOf(c), results, Consistent);
  }

  /** Collecting from a concatenation is concatenating the collections, so
      each result contributes its own entry at its own place. */
  lemma CollectAllAppend(c: Collector, a: seq<TestResult>, b: seq<TestResult>)
    ensures CollectAll(c, a + b) == CollectAll(c, a) + CollectAll(c, b)
  {
    FlatMapAppend(EntryOf(c), a, b);
  }

  /** The successful solutions are exactly the successful entries of all solutions. */
  lemma {:induction false} SuccessfulAreFilteredAll(c: Collector, results: seq<TestResult>)
    ensures CollectSuccessful(c, results) == Filter(Succeeded, CollectAll(c, results))
    decreases |results|
  {
    if |results| > 0 {
      var x := results[0];
      var rest := results[1..];
      SuccessfulAreFilteredAll(c, rest);
      assert CollectAll(c, results) == Entry(c, x) + CollectAll(c, rest);
      FilterAppend(Succeeded, Entry(c, x), CollectAll(c, rest));
      if Passed(x) {
        assert Filter(Passed, results) == [x] + Filter(Passed, rest);
        assert Filter(Passed, results)[1..] == Filter(Passed, rest);
        assert Filter(Succeeded, Entry(c, x)) == SuccessEntry(c, x);
      } else {
        assert Filter(Passed, results) == Filter(Passed, rest);
        assert Filter(Succeeded, Entry(c, x)) == [];
      }
    }
  }

  /** What one listed entry contributes: a directory with a solution gives
      that solution, marked successful; anything else gives nothing. */
  function DirSolution(c: Collector): Node -> seq<SolutionInfo> {
    (node: Node) =>
      if node.Dir? && FindSolution(c, node.name).Some? then
        [SolutionInfo(node.name, FindSolution(c, node.name).value, true, None)]
      else []
  }

  /** The entries of a directory listing that are directories with a solution,
      in listing order. */
  function DirEntries(c: Collector, items: seq<Node>): (r: Result<seq<SolutionInfo>>)
    ensures r.Ok? ==> forall k :: 0 <= k < |r.value| ==>
      r.value[k].success && r.value[k].error.None?
      && FindSolution(c, r.value[k].exercise) == Some(r.value[k].solutionPath)
    ensures r.Ok? <==> forall k :: 0 <= k < |items| ==> !items[k].Unstattable?
    ensures r.Ok? ==> r.value == FlatMap(DirSolution(c), items)
    decreases |items|
  {
    if |items| == 0 then Ok([])
    else
      var rest := DirEntries(c, items[1..]);
      assert forall k :: 1 <= k < |items| ==> items[k] == items[1..][k - 1];
      match items[0]
      case Unstattable(_, message) => Err(message)
      case Dir(name, _, _) =>
        var rest :- rest;
        Ok((match FindSolution(c, name)
            case Some(path) => [SolutionInfo(name, path, true, None)]
            case None => []) + rest)
      case _ => rest
  }

  /** Every listed directory with a solution is collected, at the place its
      entry has in the listing: the entries before it contribute first, those
      after it next. */
  lemma DirEntriesComplete(c: Collector, items: seq<Node>, k: nat)
    requires DirEntries(c, items).Ok? && k < |items|
    requires items[k].Dir? && FindSolution(c, items[k].name).Some?
    ensures DirEntries(c, items).value
      == FlatMap(DirSolution(c), items[..k])
         + [SolutionInfo(items[k].name, FindSolution(c, items[k].name).value, true, None)]
         + FlatMap(DirSolution(c), items[k + 1..])
  {
    FlatMapAt(DirSolution(c), items, k);
  }

  /** `collectAllSolutionsFromDir(dir)`: nothing when `dir` is absent; else
      every listed directory with a solution, marked successful. The solution
      is looked up under the collector's own `outputDir`, not under `dir`. */
  function CollectFromDir(c: Collector, dir: string): (r: Result<seq<SolutionInfo>>)
    ensures !c.fs.present(dir) ==> r == Ok([])
    ensures r.Ok? ==> forall k :: 0 <= k < |r.value| ==>
      r.value[k].success && FindSolution(c, r.value[k].exercise) == Some(r.value[k].solutionPath)
    ensures c.fs.present(dir) && c.fs.listing(dir).Err? ==> r.Err?
    ensures c.fs.present(dir) && c.fs.listing(dir).Ok? ==>
      (r.Ok? <==> forall k :: 0 <= k < |c.fs.listing(dir).value| ==> !c.fs.listing(dir).value[k].Unstattable?)
    ensures c.fs.present(dir) && r.Ok? ==> r.value == FlatMap(DirSolution(c), c.fs.listing(dir).value)
  {
    if !c.fs.present(dir) then Ok([])
    else
      var items :- c.fs.listing(dir);
      DirEntries(c, items)
  }
}
