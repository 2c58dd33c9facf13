/** The task/result store: a queue of audio-processing tasks, the VAD
    (voice-activity detection) results that point at a queue row, the
    language ("Languini") results that point at a VAD result, and profiling
    events keyed by process id. Each operation is one SQL statement over the
    four tables, modelled on in-memory sequences of rows in table order. */
module VadDb {
  import opened Wrappers
  import opened Json
  import opened Sql

  datatype Status = Pending | Processing | Completed | Failed

  /** A row of `salina_vad_queue`. */
  datatype QueueRow = QueueRow(
    id: int,
    processId: string,
    audioFilePath: string,
    status: Status,
    errorMessage: Option<string>,
    metadata: Option<string>,
    createdAt: Option<string>)

  /** What `getTaskStatus` selects: `status, error_message`. */
  datatype TaskStatus = TaskStatus(status: Status, errorMessage: Option<string>)

  /** A row of `salina_vad_results`; `processId` is the process id under which
      the downstream stage records its profiling events. */
  datatype VadResultRow = VadResultRow(
    id: int,
    vadQueueId: int,
    processId: string,
    chunksJson: Option<string>)

  /** A fetched VAD result row, with the `chunks` field `getVadResults` may attach. */
  datatype VadResults = VadResults(row: VadResultRow, chunks: Option<Value>)

  /** A row of `salina_languini_results`. */
  datatype LanguiniResultRow = LanguiniResultRow(
    id: int,
    vadResultId: int,
    languageResultsJson: Option<string>)

  /** A fetched language result row, with the `results` field `getLanguiniResults` may attach. */
  datatype LanguiniResults = LanguiniResults(row: LanguiniResultRow, results: Option<Value>)

  /** A row of `salina_process_profiling`. */
  datatype ProfilingEvent = ProfilingEvent(id: int, processId: string, timestamp: string, data: string)

  /** What an INSERT reports: the new row's id and the number of rows changed. */
  datatype RunResult = RunResult(lastInsertRowid: int, changes: nat)

  /** A stored payload that `JSON.parse` rejects. */
  datatype Fault = MalformedPayload(text: string)

  /** JavaScript truthiness of a TEXT column: present and not the empty string. */
  predicate Truthy(field: Option<string>) {
    field.Some? && field.value != ""
  }

  /** The join from a VAD result to the queue keeps `r`: some queue row is the one
      `r.vadQueueId` points at and carries the task's process id. */
  predicate Joined(queue: seq<QueueRow>, r: VadResultRow, processId: string) {
    exists q :: q in queue && q.id == r.vadQueueId && q.processId == processId
  }

  /** The process ids of the VAD results joined to the task `processId`
      (the sub-select of `getProfiling`). */
  function StageProcessIds(queue: seq<QueueRow>, vadResults: seq<VadResultRow>, processId: string): set<string> {
    set r | r in vadResults && Joined(queue, r, processId) :: r.processId
  }

  /** Profiling events ordered by timestamp, oldest first. */
  predicate TimestampOrder(a: ProfilingEvent, b: ProfilingEvent) {
    TextLe(a.timestamp, b.timestamp)
  }

  /** Tasks ordered by creation time, newest first. */
  predicate NewestFirst(a: QueueRow, b: QueueRow) {
    NullableTextLe(b.createdAt, a.createdAt)
  }

  lemma TimestampOrderIsTotal()
    ensures TotalPreorder(TimestampOrder)
  {
    forall a: ProfilingEvent, b: ProfilingEvent
      ensures TimestampOrder(a, b) || TimestampOrder(b, a)
    {
      TextLeTotal(a.timestamp, b.timestamp);
    }
    forall a: ProfilingEvent, b: ProfilingEvent, c: ProfilingEvent | TimestampOrder(a, b) && TimestampOrder(b, c)
      ensures TimestampOrder(a, c)
    {
      TextLeTransitive(a.timestamp, b.timestamp, c.timestamp);
    }
  }

  lemma NewestFirstIsTotal()
    ensures TotalPreorder(NewestFirst)
  {
    forall a: QueueRow, b: QueueRow
      ensures NewestFirst(a, b) || NewestFirst(b, a)
    {
      if a.createdAt.Some? && b.createdAt.Some? {
        TextLeTotal(a.createdAt.value, b.createdAt.value);
      }
    }
    forall a: QueueRow, b: QueueRow, c: QueueRow | NewestFirst(a, b) && NewestFirst(b, c)
      ensures NewestFirst(a, c)
    {
      if a.createdAt.Some? && c.createdAt.Some? {
        TextLeTransitive(c.createdAt.value, b.createdAt.value, a.createdAt.value);
      }
    }
  }

  /** The queue row `enqueueVadTask` inserts. */
  function PendingTask(id: int, processId: string, filePath: string, metadata: Value,
                       createdAt: Option<string>): (row: QueueRow)
    ensures row.processId == processId && row.audioFilePath == filePath
    ensures row.status == Pending && row.errorMessage == None
    ensures row.metadata.Some? && Truthy(row.metadata) && Decode(row.metadata.value) == Some(metadata)
  {
    QueueRow(id, processId, filePath, Pending, None, Some(Encode(metadata)), createdAt)
  }

  class VadDbService {
    var queue: seq<QueueRow>
    var vadResults: seq<VadResultRow>
    var languiniResults: seq<LanguiniResultRow>
    var profiling: seq<ProfilingEvent>

    /** A service over a database whose tables hold the given rows. */
    constructor (queue: seq<QueueRow>, vadResults: seq<VadResultRow>,
                 languiniResults: seq<LanguiniResultRow>, profiling: seq<ProfilingEvent>)
      ensures this.queue == queue && this.vadResults == vadResults
      ensures this.languiniResults == languiniResults && this.profiling == profiling
    {
      this.queue := queue;
      this.vadResults := vadResults;
      this.languiniResults := languiniResults;
      this.profiling := profiling;
    }

    /** Inserts a pending task. The row id and the creation time (possibly NULL)
        are assigned by the database and are passed in here. */
    method EnqueueVadTask(rowId: int, createdAt: Option<string>, processId: string, filePath: string,
                          metadata: Value := EmptyObject)
      returns (r: RunResult)
      modifies this
      ensures queue == old(queue) + [PendingTask(rowId, processId, filePath, metadata, createdAt)]
      ensures vadResults == old(vadResults) && languiniResults == old(languiniResults)
      ensures profiling == old(profiling)
      ensures r == RunResult(rowId, 1)
      ensures forall p ::
                GetTaskStatus(p) == if p != processId || old(GetTaskStatus(p)).Some? then old(GetTaskStatus(p))
                                    else Some(TaskStatus(Pending, None))
    {
      var row := PendingTask(rowId, processId, filePath, metadata, createdAt);
      ghost var before := queue;
      queue := queue + [row];
      forall p
        ensures GetTaskStatus(p) == if p != processId || old(GetTaskStatus(p)).Some? then old(GetTaskStatus(p))
                                    else Some(TaskStatus(Pending, None))
      {
        FirstMatchAppend(before, row, (q: QueueRow) => q.processId == p);
      }
      r := RunResult(rowId, 1);
    }

    /** The status and error message of the task, looked up by process id via `get`. */
    function GetTaskStatus(processId: string): (r: Option<TaskStatus>)
      reads this
      ensures r.None? <==> forall q :: q in queue ==> q.processId != processId
      ensures r.Some? ==> exists q :: q in queue && q.processId == processId && r.value == TaskStatus(q.status, q.errorMessage)
    {
      var i := FirstMatch(queue, (q: QueueRow) => q.processId == processId);
      if i < |queue| then Some(TaskStatus(queue[i].status, queue[i].errorMessage)) else None
    }

    /** The VAD result joined to the task `processId`, with its `chunks_json`
        decoded into `chunks` when that column is truthy. */
    method GetVadResults(processId: string) returns (r: Result<Option<VadResults>, Fault>)
      ensures r == Ok(None) <==> forall v :: v in vadResults ==> !Joined(queue, v, processId)
      ensures r.Ok? && r.value.Some? ==>
        var found := r.value.value;
        && found.row in vadResults && Joined(queue, found.row, processId)
        && (Truthy(found.row.chunksJson) ==> found.chunks.Some? && Decode(found.row.chunksJson.value) == found.chunks)
        && (!Truthy(found.row.chunksJson) ==> found.chunks == None)
      ensures r.Err? ==>
        exists v :: v in vadResults && Joined(queue, v, processId) && Truthy(v.chunksJson)
          && Decode(v.chunksJson.value) == None && r.error == MalformedPayload(v.chunksJson.value)
      ensures (forall v :: v in vadResults && Joined(queue, v, processId) && Truthy(v.chunksJson)
                 ==> Decode(v.chunksJson.value).Some?) ==> r.Ok?
    {
      var tasks := queue;
      var i := FirstMatch(vadResults, (v: VadResultRow) => Joined(tasks, v, processId));
      if i == |vadResults| {
        return Ok(None);
      }
      var result := VadResults(vadResults[i], None);
      if Truthy(result.row.chunksJson) {
        var parsed := Decode(result.row.chunksJson.value);
        if parsed.None? {
          return Err(MalformedPayload(result.row.chunksJson.value));
        }
        result := result.(chunks := parsed);
      }
      return Ok(Some(result));
    }

    /** The language result that points at the VAD result, looked up by that
        foreign key via `get`, with `language_results_json` decoded into
        `results` when it is truthy. */
    method GetLanguiniResults(vadResultId: int) returns (r: Result<Option<LanguiniResults>, Fault>)
      ensures r == Ok(None) <==> forall l :: l in languiniResults ==> l.vadResultId != vadResultId
      ensures r.Ok? && r.value.Some? ==>
        var found := r.value.value;
        && found.row in languiniResults && found.row.vadResultId == vadResultId
        && (Truthy(found.row.languageResultsJson) ==>
              found.results.Some? && Decode(found.row.languageResultsJson.value) == found.results)
        && (!Truthy(found.row.languageResultsJson) ==> found.results == None)
      ensures r.Err? ==>
        exists l :: l in languiniResults && l.vadResultId == vadResultId
          && Truthy(l.languageResultsJson) && Decode(l.languageResultsJson.value) == None
          && r.error == MalformedPayload(l.languageResultsJson.value)
      ensures (forall l :: l in languiniResults && l.vadResultId == vadResultId && Truthy(l.languageResultsJson)
                 ==> Decode(l.languageResultsJson.value).Some?) ==> r.Ok?
    {
      var i := FirstMatch(languiniResults, (l: LanguiniResultRow) => l.vadResultId == vadResultId);
      if i == |languiniResults| {
        return Ok(None);
      }
      var result := LanguiniResults(languiniResults[i], None);
      if Truthy(result.row.languageResultsJson) {
        var parsed := Decode(result.row.languageResultsJson.value);
        if parsed.None? {
          return Err(MalformedPayload(result.row.languageResultsJson.value));
        }
        result := result.(results := parsed);
      }
      return Ok(Some(result));
    }

    /** Whether the profiling event belongs to the task `processId`: recorded
        under that id, or under the id of a VAD result joined to the task. */
    predicate Concerns(e: ProfilingEvent, processId: string)
      reads this
    {
      e.processId == processId || e.processId in StageProcessIds(queue, vadResults, processId)
    }

    /** The profiling events of the task, oldest first. */
    function GetProfiling(processId: string): (r: seq<ProfilingEvent>)
      reads this
      ensures forall e :: multiset(r)[e] == if Concerns(e, processId) then multiset(profiling)[e] else 0
      ensures forall i, j :: 0 <= i < j < |r| ==> TextLe(r[i].timestamp, r[j].timestamp)
    {
      var linked := StageProcessIds(queue, vadResults, processId);
      TimestampOrderIsTotal();
      SortBy(Filter(profiling, (e: ProfilingEvent) => e.processId == processId || e.processId in linked), TimestampOrder)
    }

    /** Every task, newest first (a NULL `created_at` sorts last). */
    function GetAllTasks(): (r: seq<QueueRow>)
      reads this
      ensures multiset(r) == multiset(queue)
      ensures forall i, j :: 0 <= i < j < |r| ==> NullableTextLe(r[j].createdAt, r[i].createdAt)
    {
      NewestFirstIsTotal();
      SortBy(queue, NewestFirst)
    }
  }

  /** `getAllTasks` lists the tasks in the same order whatever order they were
      inserted in, provided no two of them were created at the same instant. */
  lemma AllTasksIgnoreInsertionOrder(s: VadDbService, t: VadDbService)
    requires multiset(s.queue) == multiset(t.queue)
    requires forall i, j :: 0 <= i < j < |s.queue| ==> s.queue[i].createdAt != s.queue[j].createdAt
    ensures s.GetAllTasks() == t.GetAllTasks()
  {
    var a, b := s.GetAllTasks(), t.GetAllTasks();
    forall x, y | x in a && y in a && NewestFirst(x, y) && NewestFirst(y, x)
      ensures x == y
    {
      if x.createdAt.Some? && y.createdAt.Some? {
        TextLeAntisymmetric(x.createdAt.value, y.createdAt.value);
      }
      assert x in multiset(s.queue) && y in multiset(s.queue);
      var i :| 0 <= i < |s.queue| && s.queue[i] == x;
      var j :| 0 <= j < |s.queue| && s.queue[j] == y;
      assert !(i < j) && !(j < i);
    }
    SortedUnique(a, b, NewestFirst);
  }

  /** A task with no VAD result joined to it (in particular a process id no queue
      row carries) gets exactly what the query without its sub-select gives: the
      events recorded under its own id, oldest first. */
  lemma ProfilingWithoutLinkedResults(s: VadDbService, processId: string)
    requires forall r :: r in s.vadResults ==> !Joined(s.queue, r, processId)
    ensures TotalPreorder(TimestampOrder)
    ensures s.GetProfiling(processId) ==
            SortBy(Filter(s.profiling, (e: ProfilingEvent) => e.processId == processId), TimestampOrder)
    ensures forall e :: multiset(s.GetProfiling(processId))[e] ==
                          if e.processId == processId then multiset(s.profiling)[e] else 0
  {
    TimestampOrderIsTotal();
    var linked := StageProcessIds(s.queue, s.vadResults, processId);
    assert linked == {};
    FilterAgrees(s.profiling, (e: ProfilingEvent) => e.processId == processId || e.processId in linked,
                 (e: ProfilingEvent) => e.processId == processId);
  }

  lemma ProfilingOfUnknownTask(s: VadDbService, processId: string)
    requires forall q :: q in s.queue ==> q.processId != processId
    ensures forall e :: multiset(s.GetProfiling(processId))[e] ==
                          if e.processId == processId then multiset(s.profiling)[e] else 0
  {
  }
}
