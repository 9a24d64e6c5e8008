/** `ExerciseReader` of `src/exercises/reader.ts`: the base directory,
    resolved once and cached, the exercise listing, and a file classification
    that, unlike the Exercism dataset's, excludes only four test patterns from
    the source files. */
module Reader {
  import opened Wrappers
  import opened Strings
  import opened Seqs
  import opened Types
  import opened Exercism

  /** The reader's one piece of state: the resolved base path, once known. */
  datatype ReaderState = ReaderState(resolved: Option<string>)

  /** `resolveBasePath`: a cached non-empty path wins; otherwise `<cwd>/<base>`
      when it holds `CLAUDE.md`, else `<cwd>/repos/exercism-typescript` when the
      base is `exercism-typescript` and that holds `CLAUDE.md`, else
      `<cwd>/<base>`. The answer is cached. */
  function ResolveBasePath(state: ReaderState, cwd: string, basePath: string, hasFile: string -> bool)
    : (r: (string, ReaderState))
    ensures Truthy(state.resolved) ==> r == (state.resolved.value, state)
    ensures !Truthy(state.resolved) ==> r.1 == ReaderState(Some(r.0))
    ensures !Truthy(state.resolved) && hasFile(PathJoin(PathJoin(cwd, basePath), "CLAUDE.md")) ==>
      r.0 == PathJoin(cwd, basePath)
    ensures !Truthy(state.resolved) && !hasFile(PathJoin(PathJoin(cwd, basePath), "CLAUDE.md")) ==>
      r.0 == (if basePath == "exercism-typescript" && hasFile(PathJoin(FallbackPath(cwd), "CLAUDE.md"))
              then FallbackPath(cwd) else PathJoin(cwd, basePath))
  {
    if Truthy(state.resolved) then (state.resolved.value, state)
    else
      var default := PathJoin(cwd, basePath);
      if hasFile(PathJoin(default, "CLAUDE.md")) then (default, ReaderState(Some(default)))
      else if basePath == "exercism-typescript" && hasFile(PathJoin(FallbackPath(cwd), "CLAUDE.md")) then
        (FallbackPath(cwd), ReaderState(Some(FallbackPath(cwd))))
      else (default, ReaderState(Some(default)))
  }

  function FallbackPath(cwd: string): string {
    PathJoin(PathJoin(cwd, "repos"), "exercism-typescript")
  }

  /** Once a non-empty path is resolved, later calls return it whatever the
      file system, working directory or base then say. */
  lemma ResolveCached(state: ReaderState, cwd: string, basePath: string, hasFile: string -> bool,
                      cwd2: string, basePath2: string, hasFile2: string -> bool)
    requires ResolveBasePath(state, cwd, basePath, hasFile).0 != ""
    ensures var (p, next) := ResolveBasePath(state, cwd, basePath, hasFile);
      ResolveBasePath(next, cwd2, basePath2, hasFile2) == (p, next)
  {
  }

  /** `getExercises`: as the Exercism task list, but a listing error propagates. */
  function GetExercises(listing: Result<seq<DirEntry>>): (r: Result<seq<string>>)
    ensures listing.Err? ==> r == Err(listing.message)
    ensures listing.Ok? ==> r == Ok(TaskNames(listing.value))
  {
    var entries :- listing;
    Ok(TaskNames(entries))
  }

  /** The reader's source filter: a source extension and none of the four
      basic test patterns. */
  predicate ReaderSource(f: string) {
    SourceExtension(f) && !BasicTestName(f)
  }

  /** `getTestFiles`: all eight patterns; none when the directory cannot be read. */
  function GetTestFiles(listing: Result<seq<string>>): (r: seq<string>)
    ensures listing.Err? ==> r == []
    ensures listing.Ok? ==> forall f :: f in r <==> f in listing.value && TestName(f)
  {
    if listing.Err? then [] else Filter(TestName, listing.value)
  }

  /** `getSourceFiles`. */
  function GetSourceFiles(listing: Result<seq<string>>): (r: seq<string>)
    ensures listing.Err? ==> r == []
    ensures listing.Ok? ==> forall f :: f in r <==> f in listing.value && SourceExtension(f) && !BasicTestName(f)
  {
    if listing.Err? then [] else Filter(ReaderSource, listing.value)
  }

  /** Each of the reader's lists of a concatenated listing is the lists of
      the parts, concatenated: listing order and repetitions are kept. */
  lemma ReaderFilesAppend(a: seq<string>, b: seq<string>)
    ensures GetTestFiles(Ok(a + b)) == GetTestFiles(Ok(a)) + GetTestFiles(Ok(b))
    ensures GetSourceFiles(Ok(a + b)) == GetSourceFiles(Ok(a)) + GetSourceFiles(Ok(b))
  {
    FilterAppend(TestName, a, b);
    FilterAppend(ReaderSource, a, b);
  }

  /** Where one listed file goes in the reader's lists. */
  lemma ReaderFilesSingle(f: string)
    ensures GetTestFiles(Ok([f])) == if TestName(f) then [f] else []
    ensures GetSourceFiles(Ok([f])) == if SourceExtension(f) && !BasicTestName(f) then [f] else []
  {
  }

  /** `getFileList`: both lists from the same listing, empty when it cannot be read. */
  function GetFileList(listing: Result<seq<string>>): (r: TaskFiles)
    ensures r.sourceFiles == GetSourceFiles(listing) && r.testFiles == GetTestFiles(listing)
    ensures listing.Err? ==> r == TaskFiles([], [])
    ensures listing.Ok? ==> forall f :: f in r.testFiles <==> f in listing.value && TestName(f)
    ensures listing.Ok? ==> forall f :: f in r.sourceFiles <==> f in listing.value && SourceExtension(f) && !BasicTestName(f)
  {
    TaskFiles(GetSourceFiles(listing), GetTestFiles(listing))
  }

  /** A source-named file matching only the last four test patterns (such as
      `FooTest.ts`) is both a source and a test file here, while the Exercism
      dataset counts it as a test file only. */
  lemma ReaderOverlap(listing: seq<string>, f: string)
    requires f in listing && SourceExtension(f) && TestName(f) && !BasicTestName(f)
    ensures f in GetFileList(Ok(listing)).sourceFiles && f in GetFileList(Ok(listing)).testFiles
    ensures f !in GetTaskFiles(Ok(listing)).sourceFiles && f in GetTaskFiles(Ok(listing)).testFiles
  {
  }

  /** The two readers agree on the test files. */
  lemma SameTestFiles(listing: Result<seq<string>>)
    ensures GetFileList(listing).testFiles == Exercism.GetTaskFiles(listing).testFiles
  {
  }

  /** `getInstructions`: the Exercism format, read from the resolved base path. */
  function GetInstructions(exerciseName: string, base: string, custom: Option<string>,
                           environment: Result<string>, exercise: Result<string>): (r: Result<string>)
    ensures r == Exercism.GetInstructions(exerciseName, base, custom, environment, exercise)
    ensures r.Err? ==> StartsWith(r.message, "Failed to read exercise instructions for " + exerciseName + ": ")
  {
    var r := Exercism.GetInstructions(exerciseName, base, custom, environment, exercise);
    if r.Err? then
      var m := if environment.Err? then environment.message else exercise.message;
      assert r.message == ("Failed to read exercise instructions for " + exerciseName + ": ") + m;
      PrefixOfAppend("Failed to read exercise instructions for " + exerciseName + ": ", m);
      r
    else r
  }
}
