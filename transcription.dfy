/** The transcription orchestrator (src/main/services/TranscriptionManager.ts):
    the per-task status queue driven by start, stop, completion and batch,
    result lookup and export. The fire-and-forget background job is the
    explicit `Complete` step, given the backend's outcome; the files it writes
    are maps from path to content. */
module Transcription {
  import opened Types
  import opened Text
  import opened TaskRegistry
  import opened Export
  import opened Backends
  import opened Config

  /** The api type `initialize` asks the configuration store for. */
  const RequestedApiType: string := "openai"

  /** The observable state: the task table, the status queue and the
      transcript files written under `transcriptions/`. */
  datatype World = World(
    tasks: map<string, Task>,
    queue: map<string, TranscriptionStatus>,
    transcripts: map<string, TranscriptionResult>)

  /** The entry a successful start records. */
  function FreshStatus(id: string, now: int): TranscriptionStatus
  {
    TranscriptionStatus(id, Transcribing, 0, None, now, None)
  }

  /** `startTranscription`'s three checks, in order. */
  function StartGuard(tasks: map<string, Task>, client: Option<Client>, id: string): (r: Option<Failure>)
    ensures r.None? <==> id in tasks && tasks[id].state == SAVED && client.Some?
    ensures id !in tasks ==> r == Some(PlainError("任务不存在: " + id))
    ensures id in tasks && tasks[id].state != SAVED ==> r == Some(PlainError("任务状态不正确，无法开始转录: " + tasks[id].state.Name()))
    ensures id in tasks && tasks[id].state == SAVED && client.None? ==> r == Some(PlainError("API客户端未初始化"))
  {
    if id !in tasks then Some(PlainError("任务不存在: " + id))
    else if tasks[id].state != SAVED then Some(PlainError("任务状态不正确，无法开始转录: " + tasks[id].state.Name()))
    else if client.None? then Some(PlainError("API客户端未初始化"))
    else None
  }

  /** A start either fails with nothing changed, or moves the task to
      IN_TRANSCRIB and records a fresh `transcribing` entry at progress 0. */
  function StartSpec(w: World, client: Option<Client>, id: string, now: int): (r: Result<World>)
    ensures StartGuard(w.tasks, client, id).Some? <==> r.Err?
    ensures r.Err? ==> r.error == StartGuard(w.tasks, client, id).value
    ensures r.Ok? ==> (r.value.tasks == w.tasks[id := w.tasks[id].(state := IN_TRANSCRIB, updatedAt := now)]
                       && r.value.queue == w.queue[id := FreshStatus(id, now)]
                       && r.value.transcripts == w.transcripts)
  {
    var guard := StartGuard(w.tasks, client, id);
    if guard.Some? then Err(guard.value)
    else
      var t := Transition(w.tasks, id, IN_TRANSCRIB, now);
      Ok(World(t.value, w.queue[id := FreshStatus(id, now)], w.transcripts))
  }

  /** The entry after a stop: marked `cancelled` with an end time, when present. */
  function CancelEntry(queue: map<string, TranscriptionStatus>, id: string, now: int): map<string, TranscriptionStatus>
  {
    if id in queue then queue[id := queue[id].(status := Cancelled, endTime := Some(now))] else queue
  }

  /** `stopTranscription`: the entry is cancelled first, then the FAILED
      transition is requested whatever the entry said; its error is thrown. */
  function StopSpec(w: World, id: string, now: int): (r: (Result<()>, World))
    ensures r.1.queue == CancelEntry(w.queue, id, now) && r.1.transcripts == w.transcripts
    ensures Transition(w.tasks, id, FAILED, now).Ok? ==> r.0 == Ok(()) && r.1.tasks == Transition(w.tasks, id, FAILED, now).value
    ensures Transition(w.tasks, id, FAILED, now).Err? ==> r.0 == Err(Transition(w.tasks, id, FAILED, now).error) && r.1.tasks == w.tasks
  {
    var t := Transition(w.tasks, id, FAILED, now);
    var queue := CancelEntry(w.queue, id, now);
    if t.Ok? then (Ok(()), World(t.value, queue, w.transcripts)) else (Err(t.error), World(w.tasks, queue, w.transcripts))
  }

  /** The catch block of the background job: request FAILED; if that throws,
      the entry is left as it was; otherwise mark the entry `failed` with the
      error's message. */
  function FailSpec(w: World, id: string, message: string, now: int): (r: World)
    ensures r.transcripts == w.transcripts
    ensures Transition(w.tasks, id, FAILED, now).Err? ==> r == w
    ensures Transition(w.tasks, id, FAILED, now).Ok? ==>
      (r.tasks == Transition(w.tasks, id, FAILED, now).value
       && r.queue.Keys == w.queue.Keys
       && (id in w.queue ==> r.queue[id] == w.queue[id].(status := Failed, error := Some(message), endTime := Some(now)))
       && forall k :: k in w.queue && k != id ==> r.queue[k] == w.queue[k])
  {
    var t := Transition(w.tasks, id, FAILED, now);
    if t.Err? then w
    else
      var queue := if id in w.queue then w.queue[id := w.queue[id].(status := Failed, error := Some(message), endTime := Some(now))] else w.queue;
      World(t.value, queue, w.transcripts)
  }

  /** Where the background job writes a task's transcript. */
  function TranscriptPath(workDir: string, id: string): string
  {
    workDir + "/transcriptions/" + id + "/transcription.json"
  }

  /** The background job for `id`, given the backend's outcome, the elapsed
      time in seconds (`elapsed`, the job's `processingTime`) and what writing
      the transcript gave (`writeError`: None when `mkdirSync` and
      `writeFileSync` succeed, else the message they threw): on success the
      result is stamped with that time and with the task's id (the backends
      leave `taskID` empty for the caller to set), the transcript is written, the (ineffective)
      transcriptionLoc update is made, the task is moved to COMPLETED and the
      entry marked `completed` at 100; any error on the way goes to FailSpec. */
  function CompleteSpec(w: World, workDir: string, id: string, outcome: Result<TranscriptionResult>, elapsed: int,
                        writeError: Option<string>, now: int): World
  {
    if id !in w.tasks || w.tasks[id].audioLoc == "" then FailSpec(w, id, "任务或音频文件不存在: " + id, now)
    else if outcome.Err? then FailSpec(w, id, outcome.error.message, now)
    else if writeError.Some? then FailSpec(w, id, writeError.value, now)
    else
      var written := w.transcripts[TranscriptPath(workDir, id) := outcome.value.(processingTime := elapsed, taskId := id)];
      var afterLoc := Update(w.tasks, id, [Other("transcriptionLoc")], now).value;
      var t := Transition(afterLoc, id, COMPLETED, now);
      if t.Err? then FailSpec(World(afterLoc, w.queue, written), id, t.error.message, now)
      else
        var queue := if id in w.queue then w.queue[id := w.queue[id].(status := Completed, progress := 100, endTime := Some(now))] else w.queue;
        World(t.value, queue, written)
  }

  /** The body an export of `result` in a supported format writes. */
  function ExportBody(result: TranscriptionResult, f: ExportFormat): Body
  {
    match f
    case TXT => Plain(PlainTextOf(result))
    case JSON => JsonOf(result)
    case SRT => Plain(SrtText(SegmentsOf(result)))
    case VTT => Plain(VttText(SegmentsOf(result)))
  }

  /** `exportTranscription`: fetch the result first, then render it for the
      format and write it under `exportDir`, returning the path written.
      `writeError` is what `mkdirSync` and `writeFileSync` gave: None on
      success, else the message they threw, which the call rethrows. Every
      failure leaves the exported files as they were. */
  function ExportSpec(tasks: map<string, Task>, transcripts: map<string, TranscriptionResult>, exports: map<string, Body>,
                      exportDir: string, id: string, format: string, writeError: Option<string>, now: nat): (r: (Result<string>, map<string, Body>))
    ensures r.0.Err? ==> r.1 == exports
    ensures ResultLookup(tasks, transcripts, id).Err? ==> r.0 == Err(ResultLookup(tasks, transcripts, id).error)
    ensures ResultLookup(tasks, transcripts, id).Ok? && ParseExportFormat(format).None? ==>
      r.0 == Err(PlainError("不支持的导出格式: " + format))
    ensures ResultLookup(tasks, transcripts, id).Ok? && ParseExportFormat(format).Some? && writeError.Some? ==>
      r.0 == Err(PlainError(writeError.value))
    ensures ResultLookup(tasks, transcripts, id).Ok? && ParseExportFormat(format).Some? && writeError.None? ==>
      var result := ResultLookup(tasks, transcripts, id).value;
      var f := ParseExportFormat(format).value;
      var path := ExportPath(exportDir, id, now, f);
      && r.0 == Ok(path) && r.1.Keys == exports.Keys + {path}
      && (forall p :: p in exports && p != path ==> r.1[p] == exports[p])
      && (f == TXT ==> r.1[path] == Plain(PlainTextOf(result)))
      && (f == SRT ==> r.1[path] == Plain(SrtText(SegmentsOf(result))))
      && (f == VTT ==> r.1[path] == Plain(VttText(SegmentsOf(result))))
      && (f == JSON ==> r.1[path] == JsonOf(result))
  {
    var found := ResultLookup(tasks, transcripts, id);
    if found.Err? then (Err(found.error), exports)
    else if ParseExportFormat(format).None? then (Err(PlainError("不支持的导出格式: " + format)), exports)
    else if writeError.Some? then (Err(PlainError(writeError.value)), exports)
    else
      var f := ParseExportFormat(format).value;
      var path := ExportPath(exportDir, id, now, f);
      (Ok(path), exports[path := ExportBody(found.value, f)])
  }

  /** What `waitForTranscriptionComplete` does on one look at the queue. */
  datatype Verdict = Resolved | Rejected(message: string) | Pending

  /** `status.error || '未知错误'`. */
  function ErrorText(error: Option<string>): string
  {
    if error.Some? && error.value != "" then error.value else "未知错误"
  }

  function WaitVerdict(queue: map<string, TranscriptionStatus>, id: string): (v: Verdict)
    ensures v == Resolved <==> id in queue && queue[id].status == Completed
    ensures v == Pending <==> id in queue && !(queue[id].status in {Completed, Failed, Cancelled})
    ensures id !in queue ==> v == Rejected("转录状态不存在: " + id)
    ensures id in queue && queue[id].status in {Failed, Cancelled} ==> v == Rejected("转录失败: " + ErrorText(queue[id].error))
  {
    if id !in queue then Rejected("转录状态不存在: " + id)
    else if queue[id].status == Completed then Resolved
    else if queue[id].status == Failed || queue[id].status == Cancelled then Rejected("转录失败: " + ErrorText(queue[id].error))
    else Pending
  }

  /** `getTranscriptionResult`: needs the task and a non-empty transcriptionLoc,
      then reads the file there. */
  function ResultLookup(tasks: map<string, Task>, transcripts: map<string, TranscriptionResult>, id: string): (r: Result<TranscriptionResult>)
    ensures id !in tasks || tasks[id].transcriptionLoc == "" ==> r == Err(PlainError("转录结果不存在: " + id))
    ensures r.Ok? <==> id in tasks && tasks[id].transcriptionLoc != "" && tasks[id].transcriptionLoc in transcripts
    ensures r.Ok? ==> r.value == transcripts[tasks[id].transcriptionLoc]
  {
    if id !in tasks || tasks[id].transcriptionLoc == "" then Err(PlainError("转录结果不存在: " + id))
    else if tasks[id].transcriptionLoc !in transcripts then
      Err(PlainError("ENOENT: no such file or directory, open '" + tasks[id].transcriptionLoc + "'"))
    else Ok(transcripts[tasks[id].transcriptionLoc])
  }

  /** One task of a batch: its backend outcome, the elapsed time and what
      writing its transcript gave. */
  datatype Run = Run(outcome: Result<TranscriptionResult>, elapsed: int, writeError: Option<string>)

  /** One round of `batchTranscribe`: start, let the job finish, then wait.
      `ok` is false when the start threw or the wait rejected (the source logs
      the id and goes on). */
  datatype Round = Round(world: World, ok: bool)

  function BatchStep(w: World, client: Option<Client>, workDir: string, id: string, run: Run, now: int): Round
  {
    var s := StartSpec(w, client, id, now);
    if s.Err? then Round(w, false)
    else
      var done := CompleteSpec(s.value, workDir, id, run.outcome, run.elapsed, run.writeError, now);
      Round(done, WaitVerdict(done.queue, id) == Resolved)
  }

  /** The whole batch, in list order: the final world and the ids that failed. */
  function BatchSpec(w: World, client: Option<Client>, workDir: string, ids: seq<string>, runs: seq<Run>, now: int): (World, seq<string>)
    requires |runs| == |ids|
  {
    if ids == [] then (w, [])
    else
      var n := |ids|;
      var before := BatchSpec(w, client, workDir, ids[..n - 1], runs[..n - 1], now);
      var step := BatchStep(before.0, client, workDir, ids[n - 1], runs[n - 1], now);
      (step.world, before.1 + (if step.ok then [] else [ids[n - 1]]))
  }

  // ---------------------------------------------------------------------
  // Properties of the orchestration
  // ---------------------------------------------------------------------

  /** The seeded configuration (rows of type "whisper" only, active or not)
      gives no client, so every start of a saved task fails with the
      missing-client error. */
  lemma SeededConfigGivesNoClient(rows: seq<ApiConfig>, tasks: map<string, Task>, id: string)
    requires forall i :: 0 <= i < |rows| ==> rows[i].apiType == "whisper"
    requires id in tasks && tasks[id].state == SAVED
    ensures GetApiConfig(rows, RequestedApiType).None?
    ensures StartGuard(tasks, None, id) == Some(PlainError("API客户端未初始化"))
  {
  }

  /** A successful job on a task being transcribed completes it and its entry,
      stores the transcript under the task's id, and leaves transcriptionLoc as it was. */
  lemma CompleteSuccess(w: World, workDir: string, id: string, result: TranscriptionResult, elapsed: int, now: int)
    requires id in w.tasks && w.tasks[id].state == IN_TRANSCRIB && w.tasks[id].audioLoc != ""
    ensures var r := CompleteSpec(w, workDir, id, Ok(result), elapsed, None, now);
      && id in r.tasks && r.tasks[id].state == COMPLETED
      && r.tasks[id].transcriptionLoc == w.tasks[id].transcriptionLoc
      && (id in w.queue ==> r.queue[id].status == Completed && r.queue[id].progress == 100 && r.queue[id].endTime == Some(now))
      && r.transcripts[TranscriptPath(workDir, id)] == result.(processingTime := elapsed, taskId := id)
      && r.transcripts[TranscriptPath(workDir, id)].taskId == id
  {
    TranscriptionLocUpdateIsNoOp(w.tasks, id, now);
  }

  /** A failed job on a task being transcribed fails it and records the
      error's message, whatever the write would have given. */
  lemma CompleteFailure(w: World, workDir: string, id: string, e: Failure, elapsed: int, writeError: Option<string>, now: int)
    requires id in w.tasks && w.tasks[id].state == IN_TRANSCRIB && w.tasks[id].audioLoc != ""
    ensures var r := CompleteSpec(w, workDir, id, Err(e), elapsed, writeError, now);
      && r.tasks[id].state == FAILED
      && (id in w.queue ==> r.queue[id].status == Failed && r.queue[id].error == Some(e.message))
      && r.transcripts == w.transcripts
  {
  }

  /** A transcript that cannot be written fails a task being transcribed with
      the write's message; nothing is stored and the entry is not completed. */
  lemma CompleteWriteFailure(w: World, workDir: string, id: string, result: TranscriptionResult, elapsed: int,
                             message: string, now: int)
    requires id in w.tasks && w.tasks[id].state == IN_TRANSCRIB && w.tasks[id].audioLoc != ""
    ensures var r := CompleteSpec(w, workDir, id, Ok(result), elapsed, Some(message), now);
      && id in r.tasks && r.tasks[id].state == FAILED
      && (id in w.queue ==> r.queue[id].status == Failed && r.queue[id].error == Some(message) && r.queue[id].endTime == Some(now))
      && r.transcripts == w.transcripts
  {
  }

  /** Stopping a task that has already failed throws, after cancelling its entry. */
  lemma StopFailedTaskThrows(w: World, id: string, now: int)
    requires id in w.tasks && w.tasks[id].state == FAILED
    ensures StopSpec(w, id, now).0 == Err(PlainError("无效的状态转换: FAILED -> FAILED"))
    ensures StopSpec(w, id, now).1.tasks == w.tasks
    ensures id in w.queue ==> StopSpec(w, id, now).1.queue[id].status == Cancelled
  {
    assert "无效的状态转换: " + FAILED.Name() + " -> " + FAILED.Name() == "无效的状态转换: FAILED -> FAILED";
  }

  /** A job that succeeds after its task was stopped cannot complete it: the
      task stays FAILED and the entry stays as the stop left it, though the
      transcript file is still written. */
  lemma LateSuccessAfterStop(w: World, workDir: string, id: string, result: TranscriptionResult, elapsed: int, now: int)
    requires id in w.tasks && w.tasks[id].state == FAILED && w.tasks[id].audioLoc != ""
    ensures var r := CompleteSpec(w, workDir, id, Ok(result), elapsed, None, now);
      r.tasks == w.tasks && r.queue == w.queue && TranscriptPath(workDir, id) in r.transcripts
  {
    TranscriptionLocUpdateIsNoOp(w.tasks, id, now);
  }

  /** Because the transcript location is never recorded, a task created without
      one still has no retrievable result after a successful job. */
  lemma ResultUnreachableAfterCompletion(w: World, workDir: string, id: string, result: TranscriptionResult, elapsed: int, now: int)
    requires id in w.tasks && w.tasks[id].state == IN_TRANSCRIB && w.tasks[id].audioLoc != ""
    requires w.tasks[id].transcriptionLoc == ""
    ensures var r := CompleteSpec(w, workDir, id, Ok(result), elapsed, None, now);
      ResultLookup(r.tasks, r.transcripts, id) == Err(PlainError("转录结果不存在: " + id))
  {
    CompleteSuccess(w, workDir, id, result, elapsed, now);
  }

  /** After a successful start the job always settles the entry, so the wait
      never polls forever: it resolves exactly when the job succeeded with an
      audio file present and its transcript was written. */
  lemma WaitSettlesAfterStart(w: World, client: Option<Client>, workDir: string, id: string, run: Run, now: int)
    requires StartSpec(w, client, id, now).Ok?
    ensures var done := CompleteSpec(StartSpec(w, client, id, now).value, workDir, id, run.outcome, run.elapsed, run.writeError, now);
      && WaitVerdict(done.queue, id) != Pending
      && (WaitVerdict(done.queue, id) == Resolved <==> run.outcome.Ok? && run.writeError.None? && w.tasks[id].audioLoc != "")
  {
    var s := StartSpec(w, client, id, now).value;
    if run.outcome.Ok? && run.writeError.None? && s.tasks[id].audioLoc != "" {
      CompleteSuccess(s, workDir, id, run.outcome.value, run.elapsed, now);
    }
  }

  /** A round whose start fails changes nothing, so the batch goes on from the
      same state with the next id. */
  lemma FailedStartChangesNothing(w: World, client: Option<Client>, workDir: string, id: string, run: Run, now: int)
    requires StartGuard(w.tasks, client, id).Some?
    ensures BatchStep(w, client, workDir, id, run, now) == Round(w, false)
  {
  }

  /** A batch of a pending task followed by a saved one: the first fails to
      start, and the second is still transcribed and completed. */
  lemma BatchContinuesAfterFailure(w: World, client: Client, workDir: string, a: string, b: string, result: TranscriptionResult, now: int)
    requires a != b && a in w.tasks && b in w.tasks
    requires w.tasks[a].state == PENDING && w.tasks[b].state == SAVED && w.tasks[b].audioLoc != ""
    ensures var r := BatchSpec(w, Some(client), workDir, [a, b], [Run(Err(ApiError("timeout")), 0, None), Run(Ok(result), 0, None)], now);
      && r.1 == [a] && a in r.0.tasks && b in r.0.tasks && b in r.0.queue
      && r.0.tasks[b].state == COMPLETED && r.0.queue[b].status == Completed && r.0.tasks[a] == w.tasks[a]
  {
    var ids := [a, b];
    var runs := [Run(Err(ApiError("timeout")), 0, None), Run(Ok(result), 0, None)];
    assert ids[..1] == [a] && runs[..1] == [runs[0]];
    assert ids[..1][..0] == [] && runs[..1][..0] == [];
    assert BatchSpec(w, Some(client), workDir, [], [], now) == (w, []);
    FailedStartChangesNothing(w, Some(client), workDir, a, runs[0], now);
    var first := BatchSpec(w, Some(client), workDir, ids[..1], runs[..1], now);
    assert first == (w, [] + [a]);
    assert [] + [a] == [a];
    assert first == (w, [a]);
    var s := StartSpec(w, Some(client), b, now).value;
    CompleteSuccess(s, workDir, b, result, 0, now);
  }

  /** A batch with one more id at the end is one more round. */
  lemma BatchSpecSnoc(w: World, client: Option<Client>, workDir: string, ids: seq<string>, runs: seq<Run>,
                      id: string, run: Run, now: int)
    requires |runs| == |ids|
    ensures var before := BatchSpec(w, client, workDir, ids, runs, now);
      var step := BatchStep(before.0, client, workDir, id, run, now);
      BatchSpec(w, client, workDir, ids + [id], runs + [run], now) == (step.world, before.1 + (if step.ok then [] else [id]))
  {
    var xs, rs := ids + [id], runs + [run];
    assert xs[..|xs| - 1] == ids && rs[..|rs| - 1] == runs;
  }

  /** A batch over two lists is the batch over the first, continued from its
      final state with the second; the failures are those of the first
      followed by those of the second. */
  lemma {:induction false} BatchSplit(w: World, client: Option<Client>, workDir: string,
                                      ids1: seq<string>, runs1: seq<Run>, ids2: seq<string>, runs2: seq<Run>, now: int)
    requires |runs1| == |ids1| && |runs2| == |ids2|
    ensures var first := BatchSpec(w, client, workDir, ids1, runs1, now);
      var second := BatchSpec(first.0, client, workDir, ids2, runs2, now);
      BatchSpec(w, client, workDir, ids1 + ids2, runs1 + runs2, now) == (second.0, first.1 + second.1)
    decreases |ids2|
  {
    var first := BatchSpec(w, client, workDir, ids1, runs1, now);
    if ids2 == [] {
      assert ids1 + ids2 == ids1 && runs1 + runs2 == runs1;
      assert BatchSpec(first.0, client, workDir, ids2, runs2, now) == (first.0, []);
      assert first.1 + [] == first.1;
    } else {
      var n2 := |ids2|;
      var p, q, x, r := ids2[..n2 - 1], runs2[..n2 - 1], ids2[n2 - 1], runs2[n2 - 1];
      assert ids2 == p + [x] && runs2 == q + [r];
      assert ids1 + ids2 == (ids1 + p) + [x] && runs1 + runs2 == (runs1 + q) + [r];
      BatchSplit(w, client, workDir, ids1, runs1, p, q, now);
      BatchSpecSnoc(w, client, workDir, ids1 + p, runs1 + q, x, r, now);
      BatchSpecSnoc(first.0, client, workDir, p, q, x, r, now);
      var mid := BatchSpec(first.0, client, workDir, p, q, now);
      var fail := if BatchStep(mid.0, client, workDir, x, r, now).ok then [] else [x];
      assert (first.1 + mid.1) + fail == first.1 + (mid.1 + fail);
    }
  }

  /** Whatever came before, an id whose start is refused is logged as failed,
      changes nothing, and the batch goes on from the same state with the
      ids after it. */
  lemma BatchContinuesAfterRefusedStart(w: World, client: Option<Client>, workDir: string,
                                        ids1: seq<string>, runs1: seq<Run>, a: string, run: Run,
                                        ids2: seq<string>, runs2: seq<Run>, now: int)
    requires |runs1| == |ids1| && |runs2| == |ids2|
    requires StartGuard(BatchSpec(w, client, workDir, ids1, runs1, now).0.tasks, client, a).Some?
    ensures var first := BatchSpec(w, client, workDir, ids1, runs1, now);
      var rest := BatchSpec(first.0, client, workDir, ids2, runs2, now);
      BatchSpec(w, client, workDir, ids1 + [a] + ids2, runs1 + [run] + runs2, now) == (rest.0, first.1 + [a] + rest.1)
  {
    var first := BatchSpec(w, client, workDir, ids1, runs1, now);
    FailedStartChangesNothing(first.0, client, workDir, a, run, now);
    BatchSpecSnoc(w, client, workDir, ids1, runs1, a, run, now);
    BatchSplit(w, client, workDir, ids1 + [a], runs1 + [run], ids2, runs2, now);
  }

  /** The elements of `xs` whose flag is set, in their order. */
  function Select(xs: seq<string>, keep: seq<bool>): (r: seq<string>)
    requires |keep| == |xs|
    ensures |r| <= |xs|
    ensures forall x :: x in r <==> exists i :: 0 <= i < |xs| && keep[i] && xs[i] == x
    decreases |xs|
  {
    if xs == [] then []
    else
      var n := |xs|;
      var rest := Select(xs[..n - 1], keep[..n - 1]);
      assert forall i :: 0 <= i < n - 1 ==> xs[..n - 1][i] == xs[i] && keep[..n - 1][i] == keep[i];
      rest + (if keep[n - 1] then [xs[n - 1]] else [])
  }

  /** Which rounds of a batch fail: round `i` runs from the state the first
      `i` rounds leave. */
  function FailedRounds(w: World, client: Option<Client>, workDir: string, ids: seq<string>, runs: seq<Run>, now: int): (m: seq<bool>)
    requires |runs| == |ids|
    ensures |m| == |ids|
  {
    seq(|ids|, i requires 0 <= i < |ids| =>
      !BatchStep(BatchSpec(w, client, workDir, ids[..i], runs[..i], now).0, client, workDir, ids[i], runs[i], now).ok)
  }

  /** The flags of a batch without its last id are the first flags of the whole batch. */
  lemma FailedRoundsPrefix(w: World, client: Option<Client>, workDir: string, ids: seq<string>, runs: seq<Run>, now: int)
    requires |runs| == |ids| > 0
    ensures var n := |ids|;
      FailedRounds(w, client, workDir, ids[..n - 1], runs[..n - 1], now) == FailedRounds(w, client, workDir, ids, runs, now)[..n - 1]
  {
    var n := |ids|;
    var m := FailedRounds(w, client, workDir, ids, runs, now);
    var m' := FailedRounds(w, client, workDir, ids[..n - 1], runs[..n - 1], now);
    forall i | 0 <= i < n - 1
      ensures m'[i] == m[i]
    {
      FailedRoundAt(w, client, workDir, ids, runs, now, i);
    }
  }

  /** Round `i` fails alike in a batch and in the batch without its last id. */
  lemma FailedRoundAt(w: World, client: Option<Client>, workDir: string, ids: seq<string>, runs: seq<Run>, now: int, i: nat)
    requires |runs| == |ids| && i < |ids| - 1
    ensures var n := |ids|;
      FailedRounds(w, client, workDir, ids[..n - 1], runs[..n - 1], now)[i] == FailedRounds(w, client, workDir, ids, runs, now)[i]
  {
    var n := |ids|;
    assert ids[..n - 1][..i] == ids[..i] && runs[..n - 1][..i] == runs[..i];
    assert ids[..n - 1][i] == ids[i] && runs[..n - 1][i] == runs[i];
  }

  /** The ids a batch reports are exactly the ids of its failed rounds, in
      list order: a subsequence of the batch. */
  lemma {:induction false} BatchFailedAreFailedRounds(w: World, client: Option<Client>, workDir: string,
                                                      ids: seq<string>, runs: seq<Run>, now: int)
    requires |runs| == |ids|
    ensures BatchSpec(w, client, workDir, ids, runs, now).1 == Select(ids, FailedRounds(w, client, workDir, ids, runs, now))
    decreases |ids|
  {
    if ids != [] {
      var n := |ids|;
      var m := FailedRounds(w, client, workDir, ids, runs, now);
      FailedRoundsPrefix(w, client, workDir, ids, runs, now);
      BatchFailedAreFailedRounds(w, client, workDir, ids[..n - 1], runs[..n - 1], now);
      var before := BatchSpec(w, client, workDir, ids[..n - 1], runs[..n - 1], now);
      var ok := BatchStep(before.0, client, workDir, ids[n - 1], runs[n - 1], now).ok;
      var fail := if ok then [] else [ids[n - 1]];
      assert BatchSpec(w, client, workDir, ids, runs, now).1 == before.1 + fail;
      assert m[n - 1] == !ok;
      assert Select(ids, m) == Select(ids[..n - 1], m[..n - 1]) + fail;
    }
  }

  /** With distinct ids, an id is reported exactly when its own round failed. */
  lemma BatchFailedExactly(w: World, client: Option<Client>, workDir: string,
                           ids: seq<string>, runs: seq<Run>, now: int, i: nat)
    requires |runs| == |ids| && i < |ids|
    requires forall j, k :: 0 <= j < k < |ids| ==> ids[j] != ids[k]
    ensures ids[i] in BatchSpec(w, client, workDir, ids, runs, now).1
        <==> !BatchStep(BatchSpec(w, client, workDir, ids[..i], runs[..i], now).0, client, workDir, ids[i], runs[i], now).ok
  {
    BatchFailedAreFailedRounds(w, client, workDir, ids, runs, now);
    var m := FailedRounds(w, client, workDir, ids, runs, now);
    if ids[i] in Select(ids, m) {
      var j :| 0 <= j < |ids| && m[j] && ids[j] == ids[i];
      assert j == i;
    }
  }

  // ---------------------------------------------------------------------
  // The orchestrator object
  // ---------------------------------------------------------------------

  class TranscriptionManager {
    const registry: TaskRegistry.TaskManager
    const workDir: string
    var client: Option<Client>
    var queue: map<string, TranscriptionStatus>
    var transcripts: map<string, TranscriptionResult>
    /** Files written under `exports/`. */
    var exports: map<string, Body>

    /** The registry is consistent and every entry is filed under its own task id. */
    ghost predicate Valid()
      reads this, registry
    {
      registry.Valid() && forall id :: id in queue ==> queue[id].taskId == id
    }

    function State(): World
      reads this, registry
    {
      World(registry.tasks, queue, transcripts)
    }

    constructor (registry: TaskRegistry.TaskManager, workDir: string)
      requires registry.Valid()
      ensures Valid() && this.registry == registry && this.workDir == workDir
      ensures client.None? && queue == map[] && transcripts == map[] && exports == map[]
    {
      this.registry := registry;
      this.workDir := workDir;
      client, queue, transcripts, exports := None, map[], map[], map[];
    }

    /** `initialize`: build a client from the active "openai" row, if any; an
        unsupported type throws and leaves the client as it was. */
    method Initialize(rows: seq<ApiConfig>) returns (r: Result<()>)
      requires Valid()
      modifies this
      ensures Valid() && queue == old(queue) && transcripts == old(transcripts) && exports == old(exports)
      ensures var found := GetApiConfig(rows, RequestedApiType);
        && (found.None? ==> r == Ok(()) && client == old(client))
        && (found.Some? && CreateApi(found.value).Ok? ==> r == Ok(()) && client == Some(CreateApi(found.value).value))
        && (found.Some? && CreateApi(found.value).Err? ==> r == Err(CreateApi(found.value).error) && client == old(client))
    {
      var found := GetApiConfig(rows, RequestedApiType);
      if found.None? {
        return Ok(());
      }
      var made := CreateApi(found.value);
      if made.Err? {
        return Err(made.error);
      }
      client := Some(made.value);
      r := Ok(());
    }

    method StartTranscription(id: string, now: int) returns (r: Result<()>)
      requires Valid()
      modifies this, registry
      ensures Valid() && client == old(client) && exports == old(exports)
      ensures var spec := StartSpec(old(State()), old(client), id, now);
        (spec.Err? ==> r == Err(spec.error) && State() == old(State()))
        && (spec.Ok? ==> r == Ok(()) && State() == spec.value)
    {
      var guard := StartGuard(registry.tasks, client, id);
      if guard.Some? {
        return Err(guard.value);
      }
      var _ := registry.UpdateTaskState(id, IN_TRANSCRIB, now);
      queue := queue[id := FreshStatus(id, now)];
      r := Ok(());
    }

    method StopTranscription(id: string, now: int) returns (r: Result<()>)
      requires Valid()
      modifies this, registry
      ensures Valid() && client == old(client) && exports == old(exports)
      ensures (r, State()) == StopSpec(old(State()), id, now)
    {
      if id in queue {
        queue := queue[id := queue[id].(status := Cancelled, endTime := Some(now))];
      }
      r := registry.UpdateTaskState(id, FAILED, now);
    }

    /** `getTranscriptionStatus`: the entry, or a `not_found` placeholder at progress 0. */
    function GetTranscriptionStatus(id: string, now: int): (s: TranscriptionStatus)
      reads this
      ensures id in queue ==> s == queue[id]
      ensures id !in queue ==>
        (s.taskId == id && s.status == NotFound && s.progress == 0 && s.startTime == now
         && s.error.None? && s.endTime.None?)
    {
      if id in queue then queue[id] else TranscriptionStatus(id, NotFound, 0, None, now, None)
    }

    /** `getTranscriptionProgress`: the entry's progress, or 0. */
    function GetTranscriptionProgress(id: string): (p: int)
      reads this
      ensures id in queue ==> p == queue[id].progress
      ensures id !in queue ==> p == 0
    {
      if id in queue then queue[id].progress else 0
    }

    function GetTranscriptionResult(id: string): (r: Result<TranscriptionResult>)
      reads this, registry
      ensures r == ResultLookup(registry.tasks, transcripts, id)
      ensures r.Ok? ==> id in registry.tasks && r.value == transcripts[registry.tasks[id].transcriptionLoc]
    {
      ResultLookup(registry.tasks, transcripts, id)
    }

    /** `exportTranscription`: fetch the result, render it and write it
        under `exports/`; returns the path written. */
    method ExportTranscription(id: string, format: string, writeError: Option<string>, now: nat) returns (r: Result<string>)
      requires Valid()
      modifies this
      ensures Valid() && client == old(client) && queue == old(queue) && transcripts == old(transcripts)
      ensures (r, exports) == ExportSpec(registry.tasks, transcripts, old(exports), workDir + "/exports", id, format, writeError, now)
    {
      var result := GetTranscriptionResult(id);
      if result.Err? {
        return Err(result.error);
      }
      var rendered := Render(result.value, format);
      if rendered.Err? {
        return Err(rendered.error);
      }
      if writeError.Some? {
        return Err(PlainError(writeError.value));
      }
      var f := ParseExportFormat(format).value;
      assert rendered.value.0 == ExportBody(result.value, f);
      var path := ExportPath(workDir + "/exports", id, now, f);
      exports := exports[path := rendered.value.0];
      r := Ok(path);
    }

    /** The background job for `id`, run to its end. */
    method Complete(id: string, outcome: Result<TranscriptionResult>, elapsed: int, writeError: Option<string>, now: int)
      requires Valid()
      modifies this, registry
      ensures Valid() && client == old(client) && exports == old(exports)
      ensures State() == CompleteSpec(old(State()), workDir, id, outcome, elapsed, writeError, now)
    {
      var task := registry.GetTask(id);
      var failure: Option<string> := None;
      if task.None? || task.value.audioLoc == "" {
        failure := Some("任务或音频文件不存在: " + id);
      } else if outcome.Err? {
        failure := Some(outcome.error.message);
      } else if writeError.Some? {
        failure := writeError;
      } else {
        transcripts := transcripts[TranscriptPath(workDir, id) := outcome.value.(processingTime := elapsed, taskId := id)];
        TranscriptionLocUpdateIsNoOp(registry.tasks, id, now);
        var _ := registry.UpdateTask(id, [Other("transcriptionLoc")], now);
        var done := registry.UpdateTaskState(id, COMPLETED, now);
        if done.Err? {
          failure := Some(done.error.message);
        } else if id in queue {
          queue := queue[id := queue[id].(status := Completed, progress := 100, endTime := Some(now))];
        }
      }
      if failure.Some? {
        var failed := registry.UpdateTaskState(id, FAILED, now);
        if failed.Ok? && id in queue {
          queue := queue[id := queue[id].(status := Failed, error := failure, endTime := Some(now))];
        }
      }
    }

    /** `batchTranscribe`: every id in order; a failure is noted and the loop goes on. */
    method BatchTranscribe(ids: seq<string>, runs: seq<Run>, now: int) returns (failed: seq<string>)
      requires Valid() && |runs| == |ids|
      modifies this, registry
      ensures Valid() && client == old(client) && exports == old(exports)
      ensures (State(), failed) == BatchSpec(old(State()), old(client), workDir, ids, runs, now)
    {
      failed := [];
      for i := 0 to |ids|
        invariant Valid() && client == old(client) && exports == old(exports)
        invariant (State(), failed) == BatchSpec(old(State()), old(client), workDir, ids[..i], runs[..i], now)
      {
        assert ids[..i + 1][..i] == ids[..i] && runs[..i + 1][..i] == runs[..i];
        ghost var failedBefore := failed;
        ghost var step := BatchStep(State(), client, workDir, ids[i], runs[i], now);
        var started := StartTranscription(ids[i], now);
        if started.Err? {
          failed := failed + [ids[i]];
        } else {
          Complete(ids[i], runs[i].outcome, runs[i].elapsed, runs[i].writeError, now);
          if WaitVerdict(queue, ids[i]) != Resolved {
            failed := failed + [ids[i]];
          }
        }
        assert State() == step.world;
        assert failed == failedBefore + (if step.ok then [] else [ids[i]]);
      }
      assert ids[..|ids|] == ids && runs[..|runs|] == runs;
    }
  }
}
