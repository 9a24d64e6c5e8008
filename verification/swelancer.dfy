/** `SweLancerDataset` of `src/datasets/swelancer.ts`. The CSV file arrives
    already parsed (`csv-parse` is not part of this model): a `Result` holding
    the records, or the read/parse error. */
module SweLancer {
  import opened Wrappers
  import opened Strings
  import opened Seqs
  import opened Types

  /** The columns of a record the dataset reads. */
  datatype SweTask = SweTask(questionId: string, variant: string, title: string, description: string)

  /** The dataset's one piece of state: the cached tasks, once loaded. */
  datatype SweState = SweState(cache: Option<seq<SweTask>>)

  predicate IsIc(t: SweTask) {
    t.variant == "ic_swe"
  }

  /** `loadTasks`: the cache when present (even an empty one); otherwise the
      `ic_swe` records, which are then cached. A failed load gives no tasks
      and leaves the cache empty, so the next call tries again. */
  function LoadTasks(state: SweState, csv: Result<seq<SweTask>>): (r: (seq<SweTask>, SweState))
    ensures state.cache.Some? ==> r == (state.cache.value, state)
    ensures state.cache.None? && csv.Err? ==> r == ([], state)
    ensures state.cache.None? && csv.Ok? ==> r.1 == SweState(Some(r.0))
    ensures state.cache.None? && csv.Ok? ==> forall t :: t in r.0 <==> t in csv.value && IsIc(t)
  {
    if state.cache.Some? then (state.cache.value, state)
    else if csv.Err? then ([], state)
    else
      var tasks := Filter(IsIc, csv.value);
      (tasks, SweState(Some(tasks)))
  }

  /** A fresh load of concatenated records loads each part in turn: the
      tasks keep the file's order and its repetitions. */
  lemma LoadTasksAppend(a: seq<SweTask>, b: seq<SweTask>)
    ensures LoadTasks(SweState(None), Ok(a + b)).0
      == LoadTasks(SweState(None), Ok(a)).0 + LoadTasks(SweState(None), Ok(b)).0
  {
    FilterAppend(IsIc, a, b);
  }

  /** A fresh load of one record keeps it iff it is an `ic_swe` record. */
  lemma LoadTasksSingle(t: SweTask)
    ensures LoadTasks(SweState(None), Ok([t])).0 == if IsIc(t) then [t] else []
  {
  }

  /** Whatever the file says later, a successful load is what every later call sees. */
  lemma LoadCached(state: SweState, csv: Result<seq<SweTask>>, later: Result<seq<SweTask>>)
    requires csv.Ok? || state.cache.Some?
    ensures var (tasks, next) := LoadTasks(state, csv);
      LoadTasks(next, later) == (tasks, next)
  {
  }

  function QuestionId(t: SweTask): string {
    t.questionId
  }

  /** `getTasks`: the question ids of the `ic_swe` records, in file order. */
  function GetTasks(state: SweState, csv: Result<seq<SweTask>>): (r: (seq<string>, SweState))
    ensures r.1 == LoadTasks(state, csv).1
    ensures |r.0| == |LoadTasks(state, csv).0|
    ensures forall i :: 0 <= i < |r.0| ==> r.0[i] == LoadTasks(state, csv).0[i].questionId
  {
    var (tasks, next) := LoadTasks(state, csv);
    (Map(QuestionId, tasks), next)
  }

  /** A fresh load lists only `ic_swe` records. */
  lemma TasksAreIc(csv: seq<SweTask>, id: string)
    requires id in GetTasks(SweState(None), Ok(csv)).0
    ensures exists t :: t in csv && IsIc(t) && t.questionId == id
  {
    var ids := GetTasks(SweState(None), Ok(csv)).0;
    var tasks := LoadTasks(SweState(None), Ok(csv)).0;
    var i :| 0 <= i < |ids| && ids[i] == id;
    assert tasks[i] in tasks;
  }

  /** `getTaskFiles` and `getTestFiles`: always empty. */
  function GetTaskFiles(taskId: string): (r: TaskFiles)
    ensures r.sourceFiles == [] && r.testFiles == []
  {
    TaskFiles([], [])
  }

  function GetTestFiles(taskId: string): (r: seq<string>)
    ensures r == []
  {
    []
  }

  /** `tasks.find(t => t.question_id === id)`. */
  function Find(tasks: seq<SweTask>, id: string): (r: Option<SweTask>)
    ensures r.None? <==> forall t :: t in tasks ==> t.questionId != id
    ensures r.Some? ==> r.value in tasks && r.value.questionId == id
    ensures r.Some? ==>
      exists i :: 0 <= i < |tasks| && tasks[i] == r.value && forall j :: 0 <= j < i ==> tasks[j].questionId != id
    decreases |tasks|
  {
    if |tasks| == 0 then None
    else if tasks[0].questionId == id then Some(tasks[0])
    else
      var r := Find(tasks[1..], id);
      if r.Some? then
        var i :| 0 <= i < |tasks[1..]| && tasks[1..][i] == r.value
          && forall j :: 0 <= j < i ==> tasks[1..][j].questionId != id;
        assert tasks[i + 1] == r.value;
        r
      else r
  }

  /** `getTaskMetadata`: the trimmed contents of the issue's `commit_id.txt`
      when it can be read, and the title of the matching task if any. */
  function GetTaskMetadata(state: SweState, csv: Result<seq<SweTask>>, taskId: string, commitFile: Result<string>)
    : (r: (Metadata, SweState))
    ensures r.1 == LoadTasks(state, csv).1
    ensures commitFile.Ok? ==> r.0.commitId == Some(Trim(commitFile.value))
    ensures commitFile.Err? ==> r.0.commitId.None?
    ensures r.0.title.Some? <==> Find(LoadTasks(state, csv).0, taskId).Some?
    ensures r.0.title.Some? ==> r.0.title.value == Find(LoadTasks(state, csv).0, taskId).value.title
  {
    var (tasks, next) := LoadTasks(state, csv);
    var task := Find(tasks, taskId);
    var commitId := if commitFile.Ok? then Some(Trim(commitFile.value)) else None;
    (Metadata(commitId, if task.Some? then Some(task.value.title) else None), next)
  }

  const GoalText :=
    "## Goal\nFix the bug described above. The codebase is the Expensify App (React Native).\n"
    + "You should explore the codebase to identify the issue. The current working directory is the root of the app.\n"

  /** The base instruction, the title heading, the description and the goal. */
  function TaskText(task: SweTask, base: string): string {
    base + "\n\n# Task: " + task.title + "\n\n## Description\n" + task.description + "\n\n" + GoalText
  }

  /** The instruction text of a task: its text, then the custom instruction
      after a blank line iff that is non-empty. */
  function TaskInstructions(task: SweTask, base: string, custom: Option<string>): (r: string)
    ensures StartsWith(r, TaskText(task, base))
    ensures !Truthy(custom) ==> r == TaskText(task, base)
    ensures Truthy(custom) ==> EndsWith(r, "\n\n" + custom.value) && |r| == |TaskText(task, base)| + 2 + |custom.value|
  {
    var text := TaskText(task, base);
    var tail := if Truthy(custom) then "\n\n" + custom.value else "";
    PrefixOfAppend(text, tail);
    text + tail
  }

  /** `getInstructions`: an unknown id throws `Task <id> not found`. */
  function GetInstructions(state: SweState, csv: Result<seq<SweTask>>, taskId: string, base: string,
                           custom: Option<string>): (r: (Result<string>, SweState))
    ensures r.1 == LoadTasks(state, csv).1
    ensures r.0.Err? <==> Find(LoadTasks(state, csv).0, taskId).None?
    ensures r.0.Err? ==> r.0.message == "Task " + taskId + " not found"
    ensures r.0.Ok? ==> r.0.value == TaskInstructions(Find(LoadTasks(state, csv).0, taskId).value, base, custom)
  {
    var (tasks, next) := LoadTasks(state, csv);
    match Find(tasks, taskId)
    case None => (Err("Task " + taskId + " not found"), next)
    case Some(task) => (Ok(TaskInstructions(task, base, custom)), next)
  }
}
