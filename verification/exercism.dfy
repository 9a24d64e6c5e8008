/** `ExercismDataset` of `src/datasets/exercism.ts`: the practice-directory
    listing, the source/test classification of an exercise's files, the
    metadata and the instruction text. File reads and directory listings are
    parameters, each a `Result` whose `Err` is the thrown error. */
module Exercism {
  import opened Wrappers
  import opened Strings
  import opened Seqs
  import opened Types
  import opened Sorting

  /** `Test.*\.` : `Test` somewhere with a `.` after it. */
  predicate TestThenDot(f: string)
    decreases |f|
  {
    |f| >= 4 && ((StartsWith(f, "Test") && '.' in f[4..]) || TestThenDot(f[1..]))
  }

  /** The first four test patterns: `.test.`, `_test.`, `.spec.`, `_spec.`. */
  predicate BasicTestName(f: string) {
    Contains(f, ".test.") || Contains(f, "_test.") || Contains(f, ".spec.") || Contains(f, "_spec.")
  }

  /** All eight test patterns: the basic four, `test_*.py`, `*_test.py`,
      `*Test.` and `Test*.`. */
  predicate TestName(f: string) {
    || BasicTestName(f)
    || (EndsWith(f, ".py") && Contains(f[..|f| - 3], "test_"))
    || EndsWith(f, "_test.py")
    || Contains(f, "Test.")
    || TestThenDot(f)
  }

  /** The source extensions: `.ts`, `.js`, `.jsx`, `.tsx`. */
  predicate SourceExtension(f: string) {
    EndsWith(f, ".ts") || EndsWith(f, ".js") || EndsWith(f, ".jsx") || EndsWith(f, ".tsx")
  }

  predicate ExercismSource(f: string) {
    SourceExtension(f) && !TestName(f)
  }

  /** A visible sub-directory of the practice directory. */
  predicate IsTaskDir(e: DirEntry) {
    e.isDirectory && !StartsWith(e.name, ".")
  }

  function EntryName(e: DirEntry): string {
    e.name
  }

  /** The sorted names of the visible sub-directories. */
  function TaskNames(entries: seq<DirEntry>): (r: seq<string>)
    ensures Sorted(r)
    ensures forall x :: x in r <==> exists e :: e in entries && IsTaskDir(e) && e.name == x
  {
    var kept := Filter(IsTaskDir, entries);
    var names := Map(EntryName, kept);
    assert forall x :: x in names <==> exists e :: e in kept && e.name == x by {
      forall x | x in names
        ensures exists e :: e in kept && e.name == x
      {
        var i :| 0 <= i < |names| && names[i] == x;
        assert kept[i] in kept;
      }
      forall x | exists e :: e in kept && e.name == x
        ensures x in names
      {
        var e :| e in kept && e.name == x;
        var i :| 0 <= i < |kept| && kept[i] == e;
        assert names[i] == x;
      }
    }
    SortNames(names);
    Sort(names)
  }

  lemma SortNames(names: seq<string>)
    ensures forall x :: x in Sort(names) <==> x in names
  {
    forall x
      ensures x in Sort(names) <==> x in names
    {
      SortSameElements(names, x);
    }
  }

  /** `getTasks`: the task names, or none when the directory cannot be read. */
  function GetTasks(listing: Result<seq<DirEntry>>): (r: seq<string>)
    ensures listing.Err? ==> r == []
    ensures listing.Ok? ==> r == TaskNames(listing.value)
  {
    if listing.Err? then [] else TaskNames(listing.value)
  }

  /** `getTaskFiles`: the test files and the source files that are not tests,
      each in listing order; both empty when the directory cannot be read. */
  function GetTaskFiles(listing: Result<seq<string>>): (r: TaskFiles)
    ensures listing.Err? ==> r == TaskFiles([], [])
    ensures listing.Ok? ==> forall f :: f in r.testFiles <==> f in listing.value && TestName(f)
    ensures listing.Ok? ==> forall f :: f in r.sourceFiles <==> f in listing.value && SourceExtension(f) && !TestName(f)
  {
    if listing.Err? then TaskFiles([], [])
    else TaskFiles(Filter(ExercismSource, listing.value), Filter(TestName, listing.value))
  }

  /** No file is both a source file and a test file. */
  lemma TaskFilesDisjoint(listing: Result<seq<string>>, f: string)
    ensures !(f in GetTaskFiles(listing).sourceFiles && f in GetTaskFiles(listing).testFiles)
  {
  }

  /** Every file of the listing with a source extension lands in exactly one list. */
  lemma TaskFilesCover(listing: seq<string>, f: string)
    requires f in listing && SourceExtension(f)
    ensures f in GetTaskFiles(Ok(listing)).sourceFiles || f in GetTaskFiles(Ok(listing)).testFiles
  {
  }

  /** Classifying a concatenated listing classifies each part: both lists
      keep the listing's order and its repetitions. */
  lemma TaskFilesAppend(a: seq<string>, b: seq<string>)
    ensures GetTaskFiles(Ok(a + b)).testFiles == GetTaskFiles(Ok(a)).testFiles + GetTaskFiles(Ok(b)).testFiles
    ensures GetTaskFiles(Ok(a + b)).sourceFiles == GetTaskFiles(Ok(a)).sourceFiles + GetTaskFiles(Ok(b)).sourceFiles
  {
    FilterAppend(TestName, a, b);
    FilterAppend(ExercismSource, a, b);
  }

  /** One listed file is a test file, a source file, or neither. */
  lemma TaskFilesSingle(f: string)
    ensures GetTaskFiles(Ok([f])).testFiles == if TestName(f) then [f] else []
    ensures GetTaskFiles(Ok([f])).sourceFiles == if SourceExtension(f) && !TestName(f) then [f] else []
  {
  }

  /** `getTestFiles` is the test half of `getTaskFiles`: the listed files
      matching a test pattern, in listing order; none when the directory
      cannot be read. */
  function GetTestFiles(listing: Result<seq<string>>): (r: seq<string>)
    ensures r == GetTaskFiles(listing).testFiles
    ensures listing.Err? ==> r == []
    ensures listing.Ok? ==> forall f :: f in r <==> f in listing.value && TestName(f)
    ensures listing.Ok? ==> forall i :: 0 <= i < |r| ==> TestName(r[i])
  {
    GetTaskFiles(listing).testFiles
  }

  /** `getTaskMetadata`: the task id as title, never a commit. */
  function GetTaskMetadata(taskId: string): (r: Metadata)
    ensures r.commitId.None? && r.title == Some(taskId)
  {
    Metadata(None, Some(taskId))
  }

  /** The instruction text: base, exercise instructions and environment
      notes separated by blank lines, then the custom instruction when non-empty. */
  function InstructionText(base: string, exercise: string, environment: string, custom: Option<string>): (r: string)
    ensures StartsWith(r, base + "\n\n" + exercise + "\n\n" + environment)
    ensures !Truthy(custom) ==> r == base + "\n\n" + exercise + "\n\n" + environment
    ensures Truthy(custom) ==> EndsWith(r, "\n\n" + custom.value)
    ensures Truthy(custom) ==> |r| == |base + "\n\n" + exercise + "\n\n" + environment| + 2 + |custom.value|
  {
    var core := base + "\n\n" + exercise + "\n\n" + environment;
    PrefixOfAppend(core, "\n\n" + (if Truthy(custom) then custom.value else ""));
    if Truthy(custom) then core + ("\n\n" + custom.value) else core
  }

  /** The error a failed read is rethrown as. */
  function InstructionsError(taskId: string, message: string): string {
    "Failed to read exercise instructions for " + taskId + ": " + message
  }

  /** `getInstructions`: the environment file is read first, then the
      exercise's instructions; the first failure is rethrown with its message
      prefixed. */
  function GetInstructions(taskId: string, base: string, custom: Option<string>,
                           environment: Result<string>, exercise: Result<string>): (r: Result<string>)
    ensures r.Ok? <==> environment.Ok? && exercise.Ok?
    ensures r.Ok? ==> r.value == InstructionText(base, exercise.value, environment.value, custom)
    ensures environment.Err? ==> r == Err(InstructionsError(taskId, environment.message))
    ensures environment.Ok? && exercise.Err? ==> r == Err(InstructionsError(taskId, exercise.message))
  {
    match environment
    case Err(m) => Err(InstructionsError(taskId, m))
    case Ok(env) =>
      match exercise
      case Err(m) => Err(InstructionsError(taskId, m))
      case Ok(text) => Ok(InstructionText(base, text, env, custom))
  }
}
