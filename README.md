# VAD task/result store — a Dafny model

This project models the task/result store of an audio-processing pipeline and
the resource check made before its worker is launched.

The store (`VadDbService` in `src/database.ts`) keeps four tables:

- a queue of voice-activity-detection (VAD) tasks, keyed externally by `process_id`;
- VAD results, each pointing at a queue row through `vad_queue_id`;
- language ("Languini") results, each pointing at a VAD result through `vad_result_id`;
- profiling events, each tagged with a `process_id`.

Each of its operations is one SQL statement. The model keeps the tables as
sequences of rows, in table order, in the fields of a class `VadDbService`:

- enqueueing appends one pending row whose metadata is the encoded argument;
- the status lookup is a `get` on the queue by `process_id`;
- the VAD result lookup is a `get` on a join from the queue to the results, then an optional decode of `chunks_json` into `chunks`;
- the language result lookup is a `get` by foreign key, then an optional decode of `language_results_json` into `results`;
- the profiling query is a filtered union ordered by timestamp, ascending;
- the task listing is the whole queue ordered by `created_at`, descending.

`validateResources` (`src/resources.ts`) is modelled as a method that builds
its list of missing resources step by step. The set of existing paths, the
path-joining function and the platform are its inputs.

Files and modules:

- `wrappers.dfy` — `Option` (absent values, SQL NULL) and `Result` (a value or a fault).
- `json.dfy` — module `Json`: the structured payload values, and `Encode`/`Decode` standing for `JSON.stringify`/`JSON.parse`. Decoding an encoding is proved to give the value back.
- `sql.dfy` — module `Sql`: the SQL semantics the statements rely on:
  - `get` returns the first matching row in table order;
  - `all` with a WHERE clause keeps exactly the matching rows;
  - TEXT values are ordered character by character;
  - ORDER BY is an insertion sort, proved sorted and a permutation of its input.
- `vaddb.dfy` — module `VadDb`: the row types and the class `VadDbService`.
- `resources.dfy` — module `Resources`: `ValidateResources`.

The read operations are functions (`reads this`) or methods without a
`modifies` clause. So the verifier itself guarantees that they leave all four
tables unchanged.

## Model

| member | source | states |
|---|---|---|
| `Json.Encode` | src/database.ts:12 | The encoded text is never empty (so stored metadata is always truthy), and decoding it gives back exactly the value that was encoded. |
| `Json.Decode` | src/database.ts:31 | Decoding is partial: it fails (where `JSON.parse` throws) on some inputs, among them the empty text. |
| `Json.ParseSerialized` | src/database.ts:12 | Parsing the encoding of any value, followed by any text, yields that value and leaves exactly that text behind. |
| `Sql.FirstMatch` | src/database.ts:17 | The row `get` returns is the first row that satisfies the WHERE clause; when none does the result is "absent". |
| `Sql.FirstMatchAppend` | src/database.ts:7-17 | After a row is appended, `get` still returns the row it returned before. It returns the new row only when no earlier row matched and the new row does. |
| `Sql.Filter` | src/database.ts:50-58 | `all` with a WHERE clause returns each matching row exactly as many times as it occurs in the table, and no other row. |
| `Sql.FilterAgrees` | src/database.ts:52-58 | Two WHERE clauses that agree on every row of the table select the same rows, each as often as it occurs, in table order (the model's row order before ORDER BY applies). |
| `Sql.SortBy` | src/database.ts:59 | ORDER BY returns a permutation of its input rows in which every earlier row precedes or ties with every later one. |
| `Sql.TextLe` | src/database.ts:59 | Definition of the TEXT order of the default BINARY collation, character by character; the same order sorts `created_at` at line 66. |
| `Sql.TextLeIsLexicographic` | src/database.ts:59 | The TEXT order holds exactly when the first text is a prefix of the second, or the two first differ at a position where the first has the smaller character. |
| `Sql.NullableTextLe` | src/database.ts:66 | Definition of the order on a NULLable TEXT column: NULL lies below every value, so a descending sort puts NULL last. |
| `Sql.TextLeTotal` | src/database.ts:59 | Any two TEXT values are comparable. |
| `Sql.TextLeTransitive` | src/database.ts:59 | The TEXT order is transitive. |
| `Sql.TextLeAntisymmetric` | src/database.ts:66 | Two TEXT values ordered both ways are equal. |
| `Sql.SortedUnique` | src/database.ts:66 | Two sorted permutations of the same rows are equal when no two distinct rows have equal sort keys. |
| `VadDb.PendingTask` | src/database.ts:7-12 | The inserted row has the given process id and file path, status `pending`, no error message, and metadata whose decoding is the argument. |
| `VadDb.Truthy` | src/database.ts:30 | Definition: a TEXT column is truthy when it is present and not the empty string. The same test guards the decode at line 40. |
| `VadDb.Joined` | src/database.ts:26-27 | Definition: the join keeps a VAD result exactly when some queue row is the one its `vad_queue_id` names and that row carries the given process id. The sub-select at lines 56-57 uses the same join. |
| `VadDb.VadDbService.Concerns` | src/database.ts:52-58 | Definition of the profiling WHERE clause: the event is recorded under the process id, or its process id is in `StageProcessIds`, the sub-select at lines 53-58 (the process ids of the VAD results joined to that task). |
| `VadDb.ProfilingWithoutLinkedResults` | src/database.ts:47-61 | When no VAD result is joined to the task, the sub-select contributes nothing. The profiling query then selects the events recorded under that id, each as often as in the table, oldest first. It also states that, in the model, the result equals the own-id-only query as a sequence; that equality rests on the model's deterministic sort (see "## Left out"). |
| `VadDb.ProfilingOfUnknownTask` | src/database.ts:47-61 | For a process id that no queue row carries, the profiling query returns exactly the events recorded under that id, each as often as in the table. |
| `VadDb.TimestampOrderIsTotal` | src/database.ts:59 | `TimestampOrder`, the ORDER BY key of the profiling query (timestamp ascending), is a total preorder. |
| `VadDb.NewestFirstIsTotal` | src/database.ts:66 | `NewestFirst`, the ORDER BY key of the task listing (`created_at` descending, NULL last), is a total preorder. |
| `VadDb.VadDbService.constructor` | src/database.ts:5 | The service starts over the tables it is given. |
| `VadDb.VadDbService.EnqueueVadTask` | src/database.ts:7-13 | Appends exactly one queue row (see `PendingTask`) and leaves the other tables unchanged. The metadata argument defaults to `{}`. It reports the new row id and one change. Afterwards the status lookup for this process id returns `pending` if no row with that id existed before, and the older row's status otherwise. The lookup for every other id is unchanged. |
| `VadDb.VadDbService.GetTaskStatus` | src/database.ts:15-18 | Absent exactly when no queue row has the process id. Otherwise it returns the status and error message of a queue row with that process id. |
| `VadDb.VadDbService.GetVadResults` | src/database.ts:21-34 | Absent exactly when no VAD result is joined to a queue row with the process id. Otherwise it returns a joined row. When that row's `chunks_json` is truthy, `chunks` is its decoding; otherwise no `chunks` is attached. It faults only on a joined row whose truthy payload does not decode, and it cannot fault when every such payload decodes. |
| `VadDb.VadDbService.GetLanguiniResults` | src/database.ts:37-44 | Absent exactly when no language result has the given `vad_result_id`. Otherwise it returns such a row, with `results` decoded from a truthy `language_results_json` and nothing attached otherwise. It faults only on a malformed truthy payload of such a row. |
| `VadDb.VadDbService.GetProfiling` | src/database.ts:47-62 | Returns every event recorded under the process id, or under the process id of a VAD result joined to that task, as often as it occurs in the table. No other event appears. Timestamps are non-decreasing. |
| `VadDb.VadDbService.GetAllTasks` | src/database.ts:65-68 | Returns a permutation of the queue with `created_at` non-increasing; NULL sorts last. |
| `VadDb.AllTasksIgnoreInsertionOrder` | src/database.ts:66 | Two stores holding the same tasks in any insertion order list them identically, provided no two tasks share a `created_at`. |
| `Resources.WorkerName` | src/resources.ts:11 | Definition: the worker's file name is `worker.exe` on Windows and `worker` elsewhere. |
| `Resources.ValidateResources` | src/resources.ts:9-26 | `allExist` (the source's `exists`) holds iff nothing is missing. The worker name is `worker.exe` on Windows and `worker` elsewhere. It is listed iff `basePath/<worker>` is absent, and `_internal folder` is listed iff `basePath/_internal` is absent. At most two entries, the worker first. Both are listed when both are absent, and the result is `(true, [])` when both are present. |

## Left out

- Database plumbing: `prepare`/`run`/`get`/`all` of the SQLite binding and the database handle are not modelled. The tables are fields, and the constructor receives their initial rows.
- Row ids and `created_at` are assigned by the database schema, which is not part of this model. `EnqueueVadTask` receives both as parameters; `created_at` is optional, since whether the schema gives it a default is not known. The INSERT does not set `error_message`; the model assumes its default is NULL (`PendingTask` stores `None`).
- Duplicate process ids: a uniqueness constraint on `process_id`, and the Conflict error it would raise, would live in the schema, which is not part of this model. No code shown checks for one. So `EnqueueVadTask` always appends, and its contract says what a later status lookup then sees. Foreign-key enforcement is absent for the same reason.
- Which row `get` returns when several match: SQL leaves it open. The model takes the first in table order, but the contracts of `GetTaskStatus`, `GetVadResults` and `GetLanguiniResults` claim only "a matching row".
- EnqueueVadTask: the part of its contract about a repeated process id (the status lookup keeps returning the older row's status) relies on that first-row choice. With another choice of row, that lookup could return the new `pending` row instead.
- Ties in ORDER BY: SQL leaves the order of rows with equal timestamps or equal `created_at` open. The model's sort keeps table order among ties, and the contracts claim only sortedness and permutation, except `ProfilingWithoutLinkedResults`, whose sequence equality rests on the model's deterministic sort; SQL may order tied events differently in the two queries.
- JSON text format: `Encode`/`Decode` use a self-delimiting, tagged stand-in encoding, not JSON's grammar. `Num` stands for JavaScript numbers with integer values; Dafny's integers are unbounded, so integers beyond the exactly representable range of a double (2^53) are in `Value` though no JavaScript number holds them, and fractional numbers such as a `0.95` confidence are not modelled. The cases where `JSON.stringify` throws (a BigInt, a cyclic object) are outside `Json.Value`. JavaScript values that `JSON.stringify` maps to `undefined` (functions, `undefined` itself) are outside `Json.Value`.
- The attached `chunks`/`results` field is modelled on a fetched row value, not as a field assigned on a shared object. The fetched object is fresh and unshared, so no aliasing is lost.
- Status lifecycle: no code in the store changes `status` after the insert. Transitions, and the rule that `failed` carries an error message, belong to the external worker and are not modelled. Status is one of the four declared values; other text in the column is not represented.
- `audio_file_path` is not checked to be non-empty, because the code does not check it.
- A NULL `process_id` in the VAD result table (relevant to the `IN` sub-select) is not represented; the column is modelled as non-NULL TEXT.
- A NULL `timestamp` in the profiling table is not represented either; SQLite's ascending sort would put such an event first. The column is modelled as non-NULL TEXT.
- File system, `path.join` and `process.platform` are inputs of `ValidateResources` (`present`, `join`, `isWindows`).
- Two facts about the code that a reader might expect otherwise:
  - the code itself does no uniqueness check on enqueue (a plain INSERT); whether a repeated process id fails depends on a schema constraint that is not shown, and the model always inserts;
  - the decode is skipped for any falsy payload, not only an absent one, so an empty `chunks_json` or `language_results_json` is not decoded either.
- Duplicate keys in JSON objects: `Json.Value` allows an object with a repeated key, which no JavaScript object has (`JSON.parse` keeps the last one). The round trip of `Encode` is stated for all values, these included; the model does not restrict objects to distinct keys.
