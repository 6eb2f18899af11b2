/** The task registry (src/main/services/TaskManager.ts): the task table and
    its dependent audio_file and transcription_result rows, the six-state
    transition table, and the guarded create / update / delete / transition
    operations and the filtered, newest-first listings. The SQL store is a
    set of maps; ids, clocks and the locale date text are parameters. */
module TaskRegistry {
  import opened Types
  import opened Text

  /** The caller-supplied metadata bag (string values only). */
  type Metadata = map<string, string>

  datatype Task = Task(
    taskId: string,
    title: string,
    description: string,
    state: TaskState,
    audioSource: AudioSource,
    audioLoc: string,
    transcriptionLoc: string,
    createdAt: int,
    updatedAt: int,
    metadata: Metadata)

  /** An audio_file row; only the columns the registry reads. */
  datatype AudioFileRow = AudioFileRow(fileId: string, taskId: string, fileName: string, filePath: string)

  /** A transcription_result row; only the columns the registry reads. */
  datatype ResultRow = ResultRow(resultId: string, taskId: string, model: string)

  // ---------------------------------------------------------------------
  // The transition table
  // ---------------------------------------------------------------------

  function Successors(from: TaskState): set<TaskState>
  {
    match from
    case PENDING => {RECORDING, SAVED, FAILED}
    case RECORDING => {SAVED, FAILED}
    case SAVED => {IN_TRANSCRIB, FAILED}
    case IN_TRANSCRIB => {COMPLETED, FAILED}
    case COMPLETED => {FAILED}
    case FAILED => {PENDING, SAVED}
  }

  predicate IsValidStateTransition(from: TaskState, to: TaskState)
  {
    to in Successors(from)
  }

  /** No state may be re-entered directly, every state other than FAILED can
      fail in one step, and COMPLETED -> PENDING is refused. */
  lemma TransitionTableShape(s: TaskState)
    ensures !IsValidStateTransition(s, s)
    ensures s != FAILED <==> IsValidStateTransition(s, FAILED)
    ensures !IsValidStateTransition(COMPLETED, PENDING)
  {
  }

  /** Only a task being transcribed can complete, and only a saved task can
      start being transcribed. */
  lemma TransitionPredecessors(s: TaskState)
    ensures IsValidStateTransition(s, COMPLETED) <==> s == IN_TRANSCRIB
    ensures IsValidStateTransition(s, IN_TRANSCRIB) <==> s == SAVED
    ensures IsValidStateTransition(s, RECORDING) <==> s == PENDING
  {
  }

  /** A run of states, each step allowed by the table. */
  ghost predicate IsRun(p: seq<TaskState>)
  {
    forall i :: 0 < i < |p| ==> IsValidStateTransition(p[i - 1], p[i])
  }

  /** Every state is reachable from PENDING through the table. */
  lemma EveryStateReachable(s: TaskState) returns (p: seq<TaskState>)
    ensures IsRun(p) && |p| >= 1 && p[0] == PENDING && p[|p| - 1] == s
  {
    match s
    case PENDING => p := [PENDING];
    case RECORDING => p := [PENDING, RECORDING];
    case SAVED => p := [PENDING, SAVED];
    case IN_TRANSCRIB => p := [PENDING, SAVED, IN_TRANSCRIB];
    case COMPLETED => p := [PENDING, SAVED, IN_TRANSCRIB, COMPLETED];
    case FAILED => p := [PENDING, FAILED];
  }

  /** Any run from PENDING (the state every task is created in) to COMPLETED
      passes through SAVED and then IN_TRANSCRIB: a task cannot complete
      without being saved and transcribed first. */
  lemma {:induction false} CompletionNeedsTranscription(p: seq<TaskState>)
    requires IsRun(p) && |p| >= 1 && p[0] == PENDING && p[|p| - 1] == COMPLETED
    ensures exists i, j :: 0 <= i < j < |p| - 1 && p[i] == SAVED && p[j] == IN_TRANSCRIB
  {
    var n := |p|;
    assert IsValidStateTransition(p[n - 2], p[n - 1]);
    assert p[n - 2] == IN_TRANSCRIB;
    var k := n - 2;
    assert IsValidStateTransition(p[k - 1], p[k]);
    assert p[k - 1] == SAVED;
    assert 0 <= k - 1 < k < |p| - 1;
  }

  // ---------------------------------------------------------------------
  // Creating a task
  // ---------------------------------------------------------------------

  /** `metadata?.<key> || ''`. */
  function MetaText(metadata: Option<Metadata>, key: string): string
  {
    if metadata.Some? && key in metadata.value then metadata.value[key] else ""
  }

  function SourceLabel(source: AudioSource): string
  {
    if source == RECORD then "录音" else "导入"
  }

  /** `generateTaskTitle`, with the locale-formatted creation time as a parameter. */
  function GenerateTaskTitle(source: AudioSource, dateText: string): (title: string)
    ensures source == RECORD ==> StartsWith(title, "录音任务")
    ensures source == IMPORT ==> StartsWith(title, "导入任务")
  {
    SourceLabel(source) + "任务 - " + dateText
  }

  /** The record `createTask` builds. */
  function NewTask(source: AudioSource, metadata: Option<Metadata>, id: string, now: int, dateText: string): (t: Task)
    ensures t.taskId == id && t.state == PENDING && t.audioSource == source
    ensures t.createdAt == now && t.updatedAt == now
    ensures t.title == GenerateTaskTitle(source, dateText)
    ensures metadata.None? ==> t.description == "" && t.audioLoc == "" && t.transcriptionLoc == "" && t.metadata == map[]
    ensures metadata.Some? ==> t.metadata == metadata.value
    ensures metadata.Some? ==>
      && t.description == (if "description" in metadata.value then metadata.value["description"] else "")
      && t.audioLoc == (if "audioLoc" in metadata.value then metadata.value["audioLoc"] else "")
      && t.transcriptionLoc == (if "transcriptionLoc" in metadata.value then metadata.value["transcriptionLoc"] else "")
  {
    Task(id, GenerateTaskTitle(source, dateText), MetaText(metadata, "description"), PENDING, source,
         MetaText(metadata, "audioLoc"), MetaText(metadata, "transcriptionLoc"), now, now,
         if metadata.Some? then metadata.value else map[])
  }

  // ---------------------------------------------------------------------
  // Updating a task
  // ---------------------------------------------------------------------

  /** One key of a `Partial<Task>` update. Only title, description and metadata
      are on the allow-list; every other key (state, transcriptionLoc, ...) is
      `Other`. */
  datatype TaskField = Title(title: string) | Description(description: string) | Meta(metadata: Metadata) | Other(key: string)
  {
    predicate Allowed() { !Other? }

    function Key(): string
    {
      match this
      case Title(_) => "title"
      case Description(_) => "description"
      case Meta(_) => "metadata"
      case Other(k) => k
    }
  }

  const AllowedUpdates: set<string> := {"title", "description", "metadata"}

  /** The keys that survive the allow-list, in update order. */
  function AllowedKeys(updates: seq<TaskField>): (keys: seq<string>)
    ensures forall k :: k in keys ==> k in AllowedUpdates
    ensures |keys| <= |updates|
  {
    if updates == [] then []
    else
      var last := updates[|updates| - 1];
      AllowedKeys(updates[..|updates| - 1]) + (if last.Allowed() then [last.Key()] else [])
  }

  function ApplyField(t: Task, f: TaskField): Task
  {
    match f
    case Title(s) => t.(title := s)
    case Description(s) => t.(description := s)
    case Meta(m) => t.(metadata := m)
    case Other(_) => t
  }

  function ApplyFields(t: Task, updates: seq<TaskField>): Task
  {
    if updates == [] then t else ApplyField(ApplyFields(t, updates[..|updates| - 1]), updates[|updates| - 1])
  }

  /** The allow-list protects every structural field of a task. */
  lemma {:induction false} ApplyFieldsKeepsProtected(t: Task, updates: seq<TaskField>)
    ensures var u := ApplyFields(t, updates);
      u.taskId == t.taskId && u.state == t.state && u.audioSource == t.audioSource
      && u.audioLoc == t.audioLoc && u.transcriptionLoc == t.transcriptionLoc
      && u.createdAt == t.createdAt && u.updatedAt == t.updatedAt
  {
    if updates != [] {
      ApplyFieldsKeepsProtected(t, updates[..|updates| - 1]);
    }
  }

  /** An update made only of keys off the allow-list selects no column. */
  lemma {:induction false} OnlyOtherKeysSelectNothing(updates: seq<TaskField>)
    requires forall i :: 0 <= i < |updates| ==> updates[i].Other?
    ensures AllowedKeys(updates) == []
    ensures forall t :: ApplyFields(t, updates) == t
  {
    if updates != [] {
      OnlyOtherKeysSelectNothing(updates[..|updates| - 1]);
    }
  }

  // ---------------------------------------------------------------------
  // Pure specifications of the mutations (the store as maps)
  // ---------------------------------------------------------------------

  function NotFoundError(id: string): Failure { PlainError("任务不存在: " + id) }

  /** `updateTaskState`: the new task table, or the error it throws. */
  function Transition(tasks: map<string, Task>, id: string, to: TaskState, now: int): (r: Result<map<string, Task>>)
    ensures r.Ok? <==> id in tasks && IsValidStateTransition(tasks[id].state, to)
    ensures id !in tasks ==> r == Err(NotFoundError(id))
    ensures r.Ok? ==> (r.value.Keys == tasks.Keys && r.value[id].state == to
                       && r.value[id] == tasks[id].(state := to, updatedAt := now)
                       && forall k :: k in tasks && k != id ==> r.value[k] == tasks[k])
  {
    if id !in tasks then Err(NotFoundError(id))
    else if !IsValidStateTransition(tasks[id].state, to) then
      Err(PlainError("无效的状态转换: " + tasks[id].state.Name() + " -> " + to.Name()))
    else Ok(tasks[id := tasks[id].(state := to, updatedAt := now)])
  }

  /** `updateTask`: the new task table, or the error it throws. When no key
      survives the allow-list nothing is written, not even `updatedAt`. */
  function Update(tasks: map<string, Task>, id: string, updates: seq<TaskField>, now: int): (r: Result<map<string, Task>>)
    ensures r.Err? <==> id !in tasks
    ensures r.Err? ==> r.error == NotFoundError(id)
    ensures r.Ok? && AllowedKeys(updates) == [] ==> r.value == tasks
    ensures r.Ok? && AllowedKeys(updates) != [] ==> r.value == tasks[id := ApplyFields(tasks[id], updates).(updatedAt := now)]
  {
    if id !in tasks then Err(NotFoundError(id))
    else if AllowedKeys(updates) == [] then Ok(tasks)
    else Ok(tasks[id := ApplyFields(tasks[id], updates).(updatedAt := now)])
  }

  /** An update that names only `transcriptionLoc` (or any other key off the
      allow-list) changes nothing at all, so the orchestrator's attempt to
      record where it wrote the transcript is lost. */
  lemma TranscriptionLocUpdateIsNoOp(tasks: map<string, Task>, id: string, now: int)
    requires id in tasks
    ensures Update(tasks, id, [Other("transcriptionLoc")], now) == Ok(tasks)
  {
    OnlyOtherKeysSelectNothing([Other("transcriptionLoc")]);
  }

  /** An accepted update never changes a task's state, source, locations or
      creation time, and touches no other task. */
  lemma UpdateKeepsStructure(tasks: map<string, Task>, id: string, updates: seq<TaskField>, now: int)
    requires Update(tasks, id, updates, now).Ok?
    ensures var m := Update(tasks, id, updates, now).value;
      m.Keys == tasks.Keys
      && m[id].state == tasks[id].state && m[id].audioSource == tasks[id].audioSource
      && m[id].audioLoc == tasks[id].audioLoc && m[id].transcriptionLoc == tasks[id].transcriptionLoc
      && m[id].createdAt == tasks[id].createdAt
      && forall k :: k in tasks && k != id ==> m[k] == tasks[k]
  {
    ApplyFieldsKeepsProtected(tasks[id], updates);
  }

  predicate InProgress(s: TaskState) { s == RECORDING || s == IN_TRANSCRIB }

  /** `deleteTask`'s guard: the error thrown, if any. */
  function DeleteGuard(tasks: map<string, Task>, id: string): (r: Option<Failure>)
    ensures r.None? <==> id in tasks && !InProgress(tasks[id].state)
    ensures id !in tasks ==> r == Some(NotFoundError(id))
  {
    if id !in tasks then Some(NotFoundError(id))
    else if InProgress(tasks[id].state) then Some(PlainError("无法删除进行中的任务"))
    else None
  }

  /** The audio_file table after `DELETE ... WHERE taskID = id`. */
  function DropAudioOf(rows: map<string, AudioFileRow>, id: string): (r: map<string, AudioFileRow>)
    ensures forall f :: f in r ==> r[f].taskId != id
    ensures forall f :: f in rows && rows[f].taskId != id ==> f in r && r[f] == rows[f]
    ensures r.Keys <= rows.Keys
  {
    map f | f in rows && rows[f].taskId != id :: rows[f]
  }

  /** The transcription_result table after `DELETE ... WHERE taskID = id`. */
  function DropResultsOf(rows: map<string, ResultRow>, id: string): (r: map<string, ResultRow>)
    ensures forall k :: k in r ==> r[k].taskId != id
    ensures forall k :: k in rows && rows[k].taskId != id ==> k in r && r[k] == rows[k]
    ensures r.Keys <= rows.Keys
  {
    map k | k in rows && rows[k].taskId != id :: rows[k]
  }

  // ---------------------------------------------------------------------
  // Listing
  // ---------------------------------------------------------------------

  /** `getTasks` filters; a field that is None, empty or zero is not applied
      (the source tests each for truthiness). A negative limit or offset is
      passed on to SQLite as it is. */
  datatype TaskFilters = TaskFilters(
    state: Option<TaskState>,
    audioSource: Option<AudioSource>,
    startDate: Option<int>,
    endDate: Option<int>,
    searchQuery: string,
    limit: int,
    offset: int)

  /** SQLite's `LIKE '%q%'`: a substring match that ignores the case of ASCII letters. */
  predicate Like(s: string, q: string)
  {
    Contains(Lower(s), Lower(q))
  }

  predicate MatchesFilters(t: Task, f: TaskFilters)
  {
    && (f.state.Some? ==> t.state == f.state.value)
    && (f.audioSource.Some? ==> t.audioSource == f.audioSource.value)
    && (f.startDate.Some? ==> t.createdAt >= f.startDate.value)
    && (f.endDate.Some? ==> t.createdAt <= f.endDate.value)
    && (f.searchQuery != "" ==> Like(t.title, f.searchQuery) || Like(t.description, f.searchQuery))
  }

  /** One conjunct of `getTasks`' WHERE clause. */
  datatype Condition =
    | StateIs(state: TaskState)
    | SourceIs(source: AudioSource)
    | CreatedFrom(start: int)
    | CreatedUntil(end: int)
    | TitleOrDescriptionLike(query: string)

  predicate Holds(c: Condition, t: Task)
  {
    match c
    case StateIs(s) => t.state == s
    case SourceIs(a) => t.audioSource == a
    case CreatedFrom(start) => t.createdAt >= start
    case CreatedUntil(end) => t.createdAt <= end
    case TitleOrDescriptionLike(q) => Like(t.title, q) || Like(t.description, q)
  }

  /** The conditions joined with AND; no condition means no WHERE clause. */
  predicate AllHold(conds: seq<Condition>, t: Task)
  {
    forall i :: 0 <= i < |conds| ==> Holds(conds[i], t)
  }

  predicate NoFilter(f: TaskFilters)
  {
    f.state.None? && f.audioSource.None? && f.startDate.None? && f.endDate.None? && f.searchQuery == ""
  }

  /** What a listing selects: the WHERE conditions of `getTasks` or the query of `searchTasks`. */
  datatype Query = Filtered(conds: seq<Condition>) | Search(text: string)

  /** Newest first by creation time (ties in any order). */
  predicate NewestFirst(s: seq<Task>)
  {
    forall i, j :: 0 <= i < j < |s| ==> s[i].createdAt >= s[j].createdAt
  }

  predicate DistinctIds(s: seq<Task>)
  {
    forall i, j :: 0 <= i < j < |s| ==> s[i].taskId != s[j].taskId
  }

  /** Inserts `t` into a newest-first list, after every task at least as new. */
  function InsertNewest(s: seq<Task>, t: Task): (r: seq<Task>)
    ensures |r| == |s| + 1
    ensures forall x :: x in r <==> x in s || x == t
  {
    if s == [] || t.createdAt > s[0].createdAt then [t] + s
    else [s[0]] + InsertNewest(s[1..], t)
  }

  lemma {:induction false} InsertNewestKeepsOrder(s: seq<Task>, t: Task)
    requires NewestFirst(s)
    ensures NewestFirst(InsertNewest(s, t))
  {
    if s != [] && t.createdAt <= s[0].createdAt {
      InsertNewestKeepsOrder(s[1..], t);
      var r := InsertNewest(s, t);
      forall i, j | 0 <= i < j < |r| ensures r[i].createdAt >= r[j].createdAt {
        if i == 0 {
          assert r[j] in s[1..] || r[j] == t;
        }
      }
    }
  }

  lemma {:induction false} InsertNewestKeepsDistinct(s: seq<Task>, t: Task)
    requires DistinctIds(s)
    requires forall x :: x in s ==> x.taskId != t.taskId
    ensures DistinctIds(InsertNewest(s, t))
  {
    if s != [] && t.createdAt <= s[0].createdAt {
      InsertNewestKeepsDistinct(s[1..], t);
      var r := InsertNewest(s, t);
      forall i, j | 0 <= i < j < |r| ensures r[i].taskId != r[j].taskId {
        if i == 0 {
          assert r[j] in s[1..] || r[j] == t;
          if r[j] in s[1..] {
            var k :| 0 <= k < |s[1..]| && s[1..][k] == r[j];
            assert s[k + 1] == r[j];
          }
        }
      }
    }
  }

  /** `LIMIT limit OFFSET offset`, where the offset only applies with a
      (non-zero) limit. SQLite reads a negative limit as no limit and a
      negative offset as 0. */
  function Page(rows: seq<Task>, limit: int, offset: int): (r: seq<Task>)
    ensures limit == 0 ==> r == rows
    ensures limit > 0 ==> |r| <= limit
    ensures limit > 0 && 0 <= offset <= |rows| ==> r == rows[offset..][..if limit < |rows| - offset then limit else |rows| - offset]
    ensures limit > 0 && offset < 0 ==> r == rows[..if limit < |rows| then limit else |rows|]
    ensures limit < 0 && 0 <= offset <= |rows| ==> r == rows[offset..]
    ensures limit < 0 && offset < 0 ==> r == rows
    ensures limit != 0 && offset > |rows| ==> r == []
  {
    if limit == 0 then rows
    else
      var from := if offset < 0 then 0 else if offset < |rows| then offset else |rows|;
      var rest := rows[from..];
      if limit < 0 then rest else rest[..if limit < |rest| then limit else |rest|]
  }

  lemma AllHoldPush(conds: seq<Condition>, c: Condition)
    ensures forall t :: AllHold(conds + [c], t) <==> AllHold(conds, t) && Holds(c, t)
  {
    forall t ensures AllHold(conds + [c], t) <==> AllHold(conds, t) && Holds(c, t) {
      if AllHold(conds, t) && Holds(c, t) {
        forall i | 0 <= i < |conds + [c]| ensures Holds((conds + [c])[i], t) {
          if i < |conds| { assert (conds + [c])[i] == conds[i]; }
        }
      }
      if AllHold(conds + [c], t) {
        assert (conds + [c])[|conds|] == c;
        forall i | 0 <= i < |conds| ensures Holds(conds[i], t) {
          assert (conds + [c])[i] == conds[i];
        }
      }
    }
  }

  /** Pushes one condition per filter that is set, in the source's order. */
  method BuildConditions(f: TaskFilters) returns (conds: seq<Condition>)
    ensures forall t :: AllHold(conds, t) <==> MatchesFilters(t, f)
    ensures conds == [] <==> NoFilter(f)
    ensures |conds| <= 5
  {
    conds := [];
    if f.state.Some? {
      AllHoldPush(conds, StateIs(f.state.value));
      conds := conds + [StateIs(f.state.value)];
    }
    if f.audioSource.Some? {
      AllHoldPush(conds, SourceIs(f.audioSource.value));
      conds := conds + [SourceIs(f.audioSource.value)];
    }
    if f.startDate.Some? {
      AllHoldPush(conds, CreatedFrom(f.startDate.value));
      conds := conds + [CreatedFrom(f.startDate.value)];
    }
    if f.endDate.Some? {
      AllHoldPush(conds, CreatedUntil(f.endDate.value));
      conds := conds + [CreatedUntil(f.endDate.value)];
    }
    if f.searchQuery != "" {
      AllHoldPush(conds, TitleOrDescriptionLike(f.searchQuery));
      conds := conds + [TitleOrDescriptionLike(f.searchQuery)];
    }
  }

  // ---------------------------------------------------------------------
  // The registry object
  // ---------------------------------------------------------------------

  class TaskManager {
    var tasks: map<string, Task>
    var audioFiles: map<string, AudioFileRow>
    var results: map<string, ResultRow>

    /** Each task is stored under its own id. */
    ghost predicate Valid()
      reads this
    {
      forall id :: id in tasks ==> tasks[id].taskId == id
    }

    constructor ()
      ensures Valid() && tasks == map[] && audioFiles == map[] && results == map[]
    {
      tasks, audioFiles, results := map[], map[], map[];
    }

    /** `createTask`; the insert fails like a primary-key violation when the id is taken. */
    method CreateTask(source: AudioSource, metadata: Option<Metadata>, id: string, now: int, dateText: string)
      returns (r: Result<Task>)
      requires Valid()
      modifies this
      ensures Valid() && audioFiles == old(audioFiles) && results == old(results)
      ensures id in old(tasks) ==> r == Err(DatabaseError("创建任务失败")) && tasks == old(tasks)
      ensures id !in old(tasks) ==> r == Ok(NewTask(source, metadata, id, now, dateText)) && tasks == old(tasks)[id := r.value]
    {
      if id in tasks {
        return Err(DatabaseError("创建任务失败"));
      }
      var t := NewTask(source, metadata, id, now, dateText);
      tasks := tasks[id := t];
      r := Ok(t);
    }

    /** `getTask`. */
    function GetTask(id: string): (r: Option<Task>)
      reads this
      ensures r.Some? <==> id in tasks
      ensures r.Some? ==> r.value == tasks[id]
    {
      if id in tasks then Some(tasks[id]) else None
    }

    /** `updateTask`: collects the allowed keys in a loop and writes them
        together with `updatedAt`, or writes nothing when none is allowed. */
    method UpdateTask(id: string, updates: seq<TaskField>, now: int) returns (r: Result<()>)
      requires Valid()
      modifies this
      ensures Valid() && audioFiles == old(audioFiles) && results == old(results)
      ensures var spec := Update(old(tasks), id, updates, now);
        (spec.Ok? ==> r == Ok(()) && tasks == spec.value)
        && (spec.Err? ==> r == Err(spec.error) && tasks == old(tasks))
    {
      if id !in tasks {
        return Err(NotFoundError(id));
      }
      var fields: seq<string> := [];
      var updated := tasks[id];
      var i := 0;
      while i < |updates|
        invariant 0 <= i <= |updates|
        invariant fields == AllowedKeys(updates[..i])
        invariant updated == ApplyFields(tasks[id], updates[..i])
      {
        assert updates[..i + 1][..i] == updates[..i];
        var f := updates[i];
        if f.Allowed() {
          fields := fields + [f.Key()];
        }
        updated := ApplyField(updated, f);
        i := i + 1;
      }
      assert updates[..i] == updates;
      if fields == [] {
        return Ok(());
      }
      ApplyFieldsKeepsProtected(tasks[id], updates);
      tasks := tasks[id := updated.(updatedAt := now)];
      r := Ok(());
    }

    /** `deleteTask`: refuses missing and in-progress tasks; otherwise removes
        the task's audio_file rows, its transcription_result rows and the task. */
    method DeleteTask(id: string) returns (r: Result<()>)
      requires Valid()
      modifies this
      ensures Valid()
      ensures var guard := DeleteGuard(old(tasks), id);
        (guard.Some? ==> (r == Err(guard.value) && tasks == old(tasks)
                          && audioFiles == old(audioFiles) && results == old(results)))
        && (guard.None? ==> (r == Ok(()) && tasks == old(tasks) - {id}
                             && audioFiles == DropAudioOf(old(audioFiles), id)
                             && results == DropResultsOf(old(results), id)))
    {
      var guard := DeleteGuard(tasks, id);
      if guard.Some? {
        return Err(guard.value);
      }
      audioFiles := DropAudioOf(audioFiles, id);
      results := DropResultsOf(results, id);
      tasks := tasks - {id};
      r := Ok(());
    }

    /** `updateTaskState`. */
    method UpdateTaskState(id: string, to: TaskState, now: int) returns (r: Result<()>)
      requires Valid()
      modifies this
      ensures Valid() && audioFiles == old(audioFiles) && results == old(results)
      ensures var spec := Transition(old(tasks), id, to, now);
        (spec.Ok? ==> r == Ok(()) && tasks == spec.value)
        && (spec.Err? ==> r == Err(spec.error) && tasks == old(tasks))
    {
      var spec := Transition(tasks, id, to, now);
      if spec.Err? {
        return Err(spec.error);
      }
      tasks := spec.value;
      r := Ok(());
    }

    /** `searchTasks`' condition: the query in the title, the description, the
        name of one of the task's audio files or the model of one of its results. */
    predicate SearchMatches(t: Task, q: string)
      reads this
    {
      || Like(t.title, q) || Like(t.description, q)
      || (exists f :: f in audioFiles && audioFiles[f].taskId == t.taskId && Like(audioFiles[f].fileName, q))
      || (exists k :: k in results && results[k].taskId == t.taskId && Like(results[k].model, q))
    }

    predicate Selects(q: Query, t: Task)
      reads this
    {
      match q
      case Filtered(conds) => AllHold(conds, t)
      case Search(text) => SearchMatches(t, text)
    }

    /** Every selected task exactly once, newest first. */
    method Select(q: Query) returns (rows: seq<Task>)
      requires Valid()
      ensures forall t :: t in rows <==> t in tasks.Values && Selects(q, t)
      ensures NewestFirst(rows) && DistinctIds(rows)
    {
      var rest := tasks.Keys;
      rows := [];
      while rest != {}
        invariant rest <= tasks.Keys
        invariant forall t :: t in rows <==> t in tasks.Values && t.taskId !in rest && Selects(q, t)
        invariant NewestFirst(rows) && DistinctIds(rows)
        decreases rest
      {
        var k :| k in rest;
        var t := tasks[k];
        if Selects(q, t) {
          InsertNewestKeepsOrder(rows, t);
          InsertNewestKeepsDistinct(rows, t);
          rows := InsertNewest(rows, t);
        }
        rest := rest - {k};
      }
    }

    /** `getTasks`: the filtered tasks newest first (`ordered`), paged by limit/offset. */
    method GetTasks(f: TaskFilters) returns (page: seq<Task>, ordered: seq<Task>)
      requires Valid()
      ensures forall t :: t in ordered <==> t in tasks.Values && MatchesFilters(t, f)
      ensures NewestFirst(ordered) && DistinctIds(ordered)
      ensures page == Page(ordered, f.limit, f.offset)
    {
      var conds := BuildConditions(f);
      ordered := Select(Filtered(conds));
      page := Page(ordered, f.limit, f.offset);
    }

    /** `searchTasks`: matching tasks, newest first. */
    method SearchTasks(query: string) returns (rows: seq<Task>)
      requires Valid()
      ensures forall t :: t in rows <==> t in tasks.Values && SearchMatches(t, query)
      ensures NewestFirst(rows) && DistinctIds(rows)
    {
      rows := Select(Search(query));
    }
  }
}
