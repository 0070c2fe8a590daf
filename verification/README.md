# runway: a verified model of the local record store and its sync

runway keeps application records in a local SQL database and syncs them with a remote
object service. This project models the core of it in Dafny and proves properties of the model:

- **`Model`** (src/Model.js): builds an immutable record class from a field declaration.
  Every schema gets the bookkeeping fields `updateTime`, `createTime` and `class_name`.
  Instances change only through `set`. `set` issues one `$set` command per key, stamps
  `updateTime` with the current time, and refuses keys that are locked. The index key and
  `class_name` are locked whenever an index is declared.
- **`Runway`** (src/runway.js): the `RunWay` store.
  - It registers record classes by name and creates one table per class.
  - It writes `CREATE TABLE`, `INSERT`, `UPDATE`, `DELETE` and `SELECT` statements, field by field.
  - It formats each value as a SQL literal by the field's JavaScript type. Strings are quoted,
    numbers are written as they are, and objects are JSON-encoded and quoted.
  - It turns raw result rows back into records.
- **`Sync`** (src/sync.js): the `Syncer`.
  - A sync-up state machine pushes unsynced rows in rounds. Calls made during a round share
    one promise and add at most one more round. After a failure it waits and retries.
  - It converts rows to remote objects with an owner-only access list, and converts remote
    objects back to records.
  - The sync-down filter skips records whose version id is already stored locally.
  - A per-user watermark holds the last sync-down time.
- **`SyncToParse`** (src/syncToParse.js): saves the unsynced objects of each slice of an
  application store. It keeps at most one save per class in flight. A class that is busy or
  whose save failed is rescheduled once, by a timer.

Supporting modules: `Values` holds JavaScript values, `String(v)`, `Number(v)` and
truthiness, plus the `Result` type and its generic `Collect`. `Dicts` holds a plain object as
an ordered list of entries, with `Object.keys` order, assignment, `Object.assign` and
`delete`. `Strings` holds `join`, lower-casing and decimal integer text.

## How the model relates to the code

- **External calls become parameters.**
  - The SQL driver: `executeSql` appends the statement to a log `executed`, and the rows a
    query returns come from a `query` oracle.
  - `JSON.stringify` and `JSON.parse` are the function parameters `json` and `parse`;
    `parse` yields `None` where `JSON.parse` throws, and that becomes an error result.
  - The current time (`now()` in src/Model.js) is a parameter `now`.
  - Browser storage is an `Option` of a string map.
  - The signed-in user is an `Option<string>`.
- **Objects keep their key order.** An object is a list of entries in insertion order.
  Assigning an existing key keeps its place. This is the order `Object.keys`,
  `objectValues` and `forEach` see.
- **The index key is a parameter.** The store targets rows through
  `RecordClass.sql.sql_key` (src/runway.js:133), but `Model` only ever sets
  `RecordClass.sql.sql_index` (src/Model.js:28). As written, the index key is therefore
  undefined. The model carries the key the store uses as an explicit field `indexKey` of
  `RecordClass`, next to `sqlIndex`.
- **The schema order follows the code.** `Object.assign({}, defaults, attributes)` puts
  `updateTime`, `createTime` and `class_name` first, then the declared fields. The model
  follows this order. The expected SQL in tests/tests.js:17 lists the declared fields first.
- **`saveRecord` is modelled as written** (src/runway.js:43). It inserts when the record
  already exists and updates when it does not.
  `Runway.RunWay.SaveRecord` and `Runway.SaveStatement` keep that branch.
- **String literals are not escaped** (src/runway.js:257-258). `Runway.QuoteBreaksStringLiteral`
  shows that a string containing a quote does not read back as one literal.
- **Asynchronous work is a state machine.** Asynchronous callbacks (promise settlement and
  timers) are explicit events of a state machine. `Sync` and `SyncToParse` each have a pure
  step function per event, an `Event` datatype, and `Run` over a sequence of events. The
  classes `Sync.Syncer` and `SyncToParse.SyncToParse` hold the source's fields. Their methods
  are proved to perform exactly these steps.

## Model

| member | source | states |
|---|---|---|
| Model.ProhibitedKeys | src/Model.js:13-17 | the locked keys are the caller's list plus, when a truthy (non-empty) index is declared, the index key and 'class_name'; nothing else |
| Model.MakeRecordClass | src/Model.js:8-33 | the class carries the given name, the declared index and exactly the locked keys above |
| Model.SchemaOfModel | src/Model.js:9-11 | the schema holds the three bookkeeping fields first, then every declared field with its declared kind, and no other key; a declared field overrides a default of the same name |
| Model.Struct | src/Model.js:11 | a struct instance has exactly the declared fields in declaration order, each read from the input or undefined |
| Model.ConstructedField | src/Model.js:24-27 | a constructed record has every declared field; a supplied value wins, otherwise 'class_name' is the class name, the two times are `now`, and any other field is undefined |
| Model.GetUpdateCommands | src/Model.js:35-47 | fails exactly for a null key; otherwise yields the `$set` commands of the update object followed by `updateTime := now` |
| Model.SetCommandsOfDistinct | src/Model.js:41-44 | the `$set` commands mirror the update object key for key, in key order |
| Model.SingleKeyCommands | src/Model.js:36-39 | `set(key, value)` with a plain key gives exactly two commands: that key's `$set`, then `updateTime` |
| Model.PatchCommands | src/Model.js:40-46 | for a patch, every patch key gets its `$set`, `updateTime` is always `now` even when the patch sets it, and no other key appears |
| Model.CommandsDistinct | src/Model.js:40-46 | a command object never repeats a key |
| Model.ValidateUpdates | src/Model.js:49-55 | fails exactly when some command key is prohibited, and the error names the first prohibited key in key order |
| Model.FirstProhibited | src/Model.js:50-53 | finds a prohibited key exactly when one exists among the keys |
| Model.FirstProhibitedAt | src/Model.js:50-53 | the key found is the first prohibited one: a prohibited key with none before it |
| Model.SetFailsIffProhibited | src/Model.js:19-23 | `set` fails exactly when a key it would write, `updateTime` included, is locked |
| Model.SetRejectsLockedKeys | src/Model.js:14-23 | with a truthy index declared, setting the index key or 'class_name' always fails |
| Model.SetUpdatesFields | src/Model.js:19-23 | a successful `set` keeps the declared fields; each field takes its command's value or keeps its old one, and `updateTime` becomes `now` |
| Values.NumberOfTextIsIdentity | src/runway.js:83-85 | `Number` of an integer's decimal text, a negative one with its minus sign included, is that integer |
| Values.CollectResult | src/sync.js:117-126 | collecting per-item results yields every value, in order, when all succeed; otherwise it yields the first error, with every earlier item successful |
| Runway.ColumnTypeMatchesJsType | src/runway.js:98-124 | column type and JavaScript type agree: Integer iff number; TEXT iff string or object other than the irreducible `Object`; no column type iff no JavaScript type or `Object` |
| Runway.FormatFieldValue | src/runway.js:255-270 | a string is quoted, a number is the value itself, unformatted, an object is JSON-quoted; an untyped field is the unknown-type error |
| Runway.MissingNumberLiterals | src/runway.js:164-190 | an undefined or null number is written as nothing by the insert's `join`, but as `undefined` or `null` by the template literals of the other statements |
| Runway.UnpackValue | src/runway.js:74-89 | converting a column fails exactly for an object field whose text `JSON.parse` rejects, with the syntax error |
| Runway.LiteralRoundTrip | src/runway.js:255-270 | a value the store writes is written the same by `join` and by a template, and is read back and unpacked to the same value, for quote-free strings, all integers, and objects whose JSON parses back |
| Runway.QuoteBreaksStringLiteral | src/runway.js:257-258 | a string holding a quote does not come back as one literal, since nothing is escaped |
| Runway.ColumnDefs | src/runway.js:145-150 | one `name type` definition per declared field, in declaration order |
| Runway.RunWay.GetCreateTableSql | src/runway.js:136-152 | the statement is `CREATE TABLE IF NOT EXISTS` on the lower-cased class name, with the column definitions joined by commas |
| Runway.JsFieldTypesOfDistinct | src/runway.js:225-237 | the field types are listed field for field, in declaration order |
| Runway.RunWay.GetRecordClassJSFieldTypes | src/runway.js:225-237 | the loop computes each declared field's JavaScript type, assigned in field order |
| Runway.FieldValuesForSql | src/runway.js:244-254 | formatting succeeds exactly when every record key has a JavaScript type; otherwise it is the unknown-type error |
| Runway.FieldValuesOfDistinct | src/runway.js:244-254 | the formatted values follow the record key for key, each formatted by its field's type |
| Runway.FieldValuesErrPrefix | src/runway.js:247-251 | the first key that fails to format decides the failure of the whole record |
| Runway.RunWay.GetRecordFieldValuesForSql | src/runway.js:244-254 | the loop computes the formatted values, stopping at the first key that throws |
| Runway.UnpackedOfDistinct | src/runway.js:73-91 | when unpacking succeeds, one value per typed field, in field order, each converted from its raw column by the field's type |
| Runway.Unpacked | src/runway.js:73-91 | unpacking succeeds exactly when every typed field's column converts; a failure is the JSON syntax error |
| Runway.UnpackedErrPrefix | src/runway.js:73-91 | the first column `JSON.parse` rejects decides the failure of the whole row |
| Runway.UnpackedRecordFields | src/runway.js:69-93 | unpacking a row fails exactly when `JSON.parse` rejects one of its object columns, with the syntax error; otherwise the record has every declared field in order, each converted from the row, and the constructor's defaults never show |
| Runway.RunWay.UnpackRecord | src/runway.js:69-93 | an unregistered class is the no-record-class error; otherwise the result is exactly the row's record, or the syntax error of a column that does not parse |
| Runway.LookupClass | src/runway.js:125-131 | yields the registered class exactly when the name is registered, and the no-record-class error otherwise |
| Runway.Assignments | src/runway.js:184-188 | one `field = value` per entry, in order, the value written as a template literal writes it |
| Runway.RunWay.AssignmentList | src/runway.js:212-216 | the loop builds one `field = value` per entry, in order, each value written as a template literal writes it |
| Runway.UpdateSetList | src/runway.js:178-190 | an update's SET list omits the index key and keeps every other field once, so it has one entry fewer exactly when the index is present; the WHERE literal is the text of the index field's own value, `undefined` when the record lacks it |
| Runway.InsertColumnsMatchValues | src/runway.js:158-169 | for a record with the declared fields, the i-th column is the i-th field and the i-th value is that field's formatted value |
| Runway.RunWay.GetInsertRecordSql | src/runway.js:158-169 | a missing class name, an unregistered class and an untyped key are errors; otherwise it is the insert of the class's columns and the record's formatted values, joined as `join` writes them |
| Runway.RunWay.GetUpdateRecordSql | src/runway.js:170-192 | the same errors; otherwise it is the update that sets every field but the index and targets the index literal |
| Runway.RunWay.GetDeleteRecordSql | src/runway.js:193-200 | an unregistered class or an untyped key is an error; otherwise it is the delete targeting the record's index literal |
| Runway.RunWay.GetFindRecordSql | src/runway.js:207-220 | an unregistered class or an untyped key is an error; otherwise it is the select with one `field = literal` conjunct per filter key |
| Runway.RunWay.constructor | src/runway.js:10-14 | a new store has its name, no classes and no statements issued |
| Runway.RunWay.ExecuteSql | src/runway.js:15-17 | the statement is issued (appended to the log) and the driver's rows are returned |
| Runway.RunWay.RegisterRecordClass | src/runway.js:21-29 | the class is then found under its name, every other name is unaffected, and its create statement is issued |
| Runway.RunWay.FindRecords | src/runway.js:54-62 | a find that cannot be built is its error and issues nothing; otherwise the statement is issued and the result is the returned rows unpacked in order, or the first failing row's error |
| Runway.FoundRecordsResult | src/runway.js:56-61 | the found records are the returned rows unpacked one by one, in row order; a failure is the syntax error of some row, every earlier row unpacking |
| Runway.RunWay.Exists | src/runway.js:30-37 | issues the find on the index value; answers whether it returns any row, or fails with a returned row's unpacking error |
| Runway.RunWay.SaveRecord | src/runway.js:38-53 | issues the existence query, and stops with the error if a found row does not unpack; then issues the insert when a row exists and the update when none does (as written), or returns that statement's error; an unregistered class issues nothing |
| Sync.AsWrittenReducesToTruthyCode | src/sync.js:79-87 | as written, an error counts as unexpected exactly when its code is truthy |
| Sync.AsWrittenReportsConnectionFailure | src/sync.js:79-87 | as written, code 100 (connection failed) counts as unexpected |
| Sync.UnexpectedErrors | src/sync.js:79-87 | corrected: unexpected exactly when the error has a truthy code that is not 100; 100 is expected and 101 is not; the corrected test reports nothing the test as written does not |
| Sync.AsWrittenLogsConnectionFailure | src/sync.js:60-68 | as written, the failure handler logs a connection failure; the corrected handler does not, and apart from the log the two agree |
| Sync.InitialValid | src/sync.js:14-29 | a new syncer satisfies the sync-up invariant |
| Sync.StepValid | src/sync.js:34-74 | every call and every settlement or timer keeps the invariant: a deferred is outstanding exactly while syncing; a pending round or retry timer, never both, means syncing; resync only while syncing |
| Sync.RunValid | src/sync.js:34-74 | every sequence of events from a valid state ends valid |
| Sync.SyncUpWhileSyncing | src/sync.js:34-39 | a call during a sync only sets `resync` and returns the outstanding promise |
| Sync.SyncUpWhenIdle | src/sync.js:34-48 | a call when idle starts exactly one round, on a fresh deferred never resolved before |
| Sync.SuccessWithResync | src/sync.js:49-54 | success with `resync` set starts another round on the same deferred and resolves nothing |
| Sync.SuccessWithoutResync | src/sync.js:49-59 | success without `resync` resolves the deferred once and leaves the syncer idle |
| Sync.FailureThenRetry | src/sync.js:60-74 | a failure with an error object resolves nothing, keeps syncing, logs the error exactly when the corrected test reports it, and the timer starts a new round on the same deferred |
| Sync.RoundsStartOneAtATime | src/sync.js:34-74 | no event starts more than one round, and a round starts only when none is pending or the pending one just succeeded |
| Sync.ResolvedOnlyGrows | src/sync.js:49-59 | resolved deferreds stay resolved, and none is resolved twice |
| Sync.ThreeCallsShareOnePromise | src/sync.js:34-59 | three calls from idle share one promise and one round, then one extra round, and that promise resolves once |
| Sync.CallDuringRetryWaitAddsRound | src/sync.js:34-74 | a call during the retry wait makes the retried round be followed by one more before resolution |
| Sync.NoReasonStalls | src/sync.js:60-74 | a rejection without an error object throws in the handler before the timer is set: the syncer stays syncing with no round or timer pending, its deferred unresolved |
| Sync.StalledForever | src/sync.js:34-74 | from a stalled syncer no sequence of events starts a round or resolves the outstanding deferred |
| Sync.Syncer.constructor | src/sync.js:14-29 | a new syncer is idle, with a 60000 ms retry interval and 10 retry attempts |
| Sync.Syncer.SetRetryInterval | src/sync.js:30-33 | sets the interval and the retry flag, nothing else |
| Sync.Syncer.SyncUp | src/sync.js:34-48 | performs the sync-up step and returns its promise |
| Sync.Syncer.HandleSyncUpSuccess | src/sync.js:49-59 | performs the success step |
| Sync.Syncer.HandleSyncUpFail | src/sync.js:60-74 | performs the failure step, with the corrected error test |
| Sync.Syncer.RetryTimerFired | src/sync.js:65-68 | performs the retry step |
| Sync.RemoteModelAttrs | src/sync.js:137-149 | fails exactly for a non-string user id; otherwise the object has the user id and the deleted flag, the record's other attributes, and access for that user only |
| Sync.ConvertedRow | src/sync.js:117-126 | a row of an unknown class is that error; a row with an object column `JSON.parse` rejects is the syntax error; otherwise it is the remote object of the record unpacked from the row without `synced`, carrying the row's `deleted` and `user_id` |
| Sync.SyncedColumnIgnored | src/sync.js:118-121 | the `synced` column plays no part in the conversion |
| Sync.ConvertRowsResult | src/sync.js:114-128 | on success, one remote object per row, in row order, each the conversion of its row; on failure, the error of some row, every earlier row converting |
| Sync.ConvertRowToParseModel | src/sync.js:117-126 | the loop body computes the row's conversion |
| Sync.ConvertRowsToParseModels | src/sync.js:114-128 | the loop computes the conversion of all rows, stopping at the first that throws |
| Sync.SaveParseModels | src/sync.js:129-136 | all objects are saved in one call when there are any; otherwise the result is an empty list with no call |
| Sync.RecordOfRemoteObject | src/sync.js:150-156 | a record made from a remote object has each declared field's value from the object, except `createdAt`, `updatedAt` and `objectId`, which read as absent |
| Sync.RemoveProperties | src/sync.js:244-252 | the copy holds exactly the entries whose key is not listed, in order |
| Sync.IndexOf | src/sync.js:223 | -1 exactly when no element is strictly equal; otherwise the first strictly equal position |
| Sync.NewRecords | src/sync.js:222-225 | keeps only records whose version id is not among the local ones, and every such record |
| Sync.NewRecordsOfConcat | src/sync.js:222-225 | the filter works record by record: the new records of a concatenation are those of each part, in order |
| Sync.NewRecordsSingleton | src/sync.js:222-225 | one record is kept, once, exactly when its version id is not found locally |
| Sync.SyncDownClass | src/sync.js:211-228 | fails exactly when the local version ids are unavailable and there is a record to filter; otherwise it saves exactly the new records among the converted remote objects, with no new version ids, already synced |
| Sync.NewRecordsIdempotent | src/sync.js:211-228 | after the new records are stored, the same remote records yield nothing more to save |
| Sync.SyncDownTimeKey | src/sync.js:194-197 | the key is the store name and the user id within fixed text |
| Sync.SyncDownTimeKeysDiffer | src/sync.js:194-197 | different users of one store get different watermark keys |
| Sync.GetLastSyncDownTime | src/sync.js:186-193 | the stored number; 0 without storage, without an entry, or when the stored value is not a number; the syntax error when the stored text does not parse |
| Sync.SaveLastSyncDownTime | src/sync.js:180-185 | writes only when storage exists |
| Sync.WatermarkRoundTrip | src/sync.js:180-193 | a saved watermark is read back by the same user, and every other user's watermark is unchanged |
| SyncToParse.GetParseStore | src/syncToParse.js:32-34 | the slice is found exactly when the store has it |
| SyncToParse.GetUnsyncedModels | src/syncToParse.js:68-73 | keeps exactly the objects with no `parse_id` whose `sync` is not `false` |
| SyncToParse.UnsyncedIdempotent | src/syncToParse.js:68-73 | filtering twice equals filtering once |
| SyncToParse.UnsyncedOfConcat | src/syncToParse.js:68-73 | the filter keeps order: it distributes over concatenation |
| SyncToParse.SaveObjsToParse | src/syncToParse.js:79-100 | resolves at once exactly for no objects; otherwise saves one remote object per object, of that class with its data |
| SyncToParse.ConvertModelsToParseModels | src/syncToParse.js:102-111 | the loop builds one remote object per store object, in order |
| SyncToParse.RescheduleValid | src/syncToParse.js:59-66 | a timer is set only for a class that has no timer id, with a fresh truthy id; otherwise nothing changes |
| SyncToParse.SyncStoreValid | src/syncToParse.js:36-51 | `syncStore` keeps the invariant: syncing exactly while a save is in flight; each class holds at most one timer id |
| SyncToParse.SyncAllValid | src/syncToParse.js:26-30 | syncing every class keeps the invariant |
| SyncToParse.StepValid | src/syncToParse.js:26-66 | every call, settlement and timer keeps the invariant |
| SyncToParse.RunValid | src/syncToParse.js:26-66 | every sequence of events from a valid state ends valid, keeping every timer and every scheduled class |
| SyncToParse.SyncStoreOutcome | src/syncToParse.js:36-51 | a save starts exactly when the class is not syncing and its slice exists: the class is marked syncing and one save of its unsynced objects is recorded; otherwise only a reschedule happens |
| SyncToParse.SyncAllTimers | src/syncToParse.js:26-30 | syncing every class only adds timers |
| SyncToParse.StepTimers | src/syncToParse.js:59-66 | timers only accumulate, and a class with a timer id gets no new timer |
| SyncToParse.RescheduledAtMostOnce | src/syncToParse.js:59-66 | over any run, a class that has a timer id is never given another timer |
| SyncToParse.ErrorCountNeverIncrements | src/syncToParse.js:53-57 | the error handler leaves the class's count at 0 and reschedules it |
| SyncToParse.SettleClearsSyncing | src/syncToParse.js:44-46 | once a save settles the class is no longer syncing; a failure reschedules it |
| SyncToParse.BusyAfterRetryStaysIdle | src/syncToParse.js:36-66 | a class that still has a save in flight after its one timer is neither saved nor rescheduled |
| SyncToParse.SyncToParse.constructor | src/syncToParse.js:12-24 | empty per-class state; the interval is the configured one, or 3000 ms when it is missing or 0 |
| SyncToParse.SyncToParse.SyncAll | src/syncToParse.js:26-30 | performs `syncStore` for each class in turn |
| SyncToParse.SyncToParse.SyncStore | src/syncToParse.js:36-51 | performs the `syncStore` step |
| SyncToParse.SyncToParse.SyncErrorHandler | src/syncToParse.js:53-57 | performs the error-handler step |
| SyncToParse.SyncToParse.RescheduleSync | src/syncToParse.js:59-66 | performs the reschedule step |
| SyncToParse.SyncToParse.SaveSettled | src/syncToParse.js:44-46 | performs the settle step: the error handler on failure, then syncing cleared |
| SyncToParse.SyncToParse.TimerFired | src/syncToParse.js:62-64 | the timer runs `syncStore` on the store as it is then |

## Left out

- The SQL engine itself is an oracle (`query`). Transactions, the web-SQL and device-ready
  wrappers, and database opening (src/database.js, src/db.js, src/webSqlPromise.js,
  src/deviceReadyPromise.js) are not part of this model.
- Store operations the syncer calls but src/runway.js does not define (`getRecordClasses`,
  `markAsSynced`, `saveRecords`) are not part of this model. For them the model gives only the
  arguments `syncDownClass` passes (`Sync.SaveRecordsCall`). Hence `syncUpClasses`,
  `syncUpClass`, `markAsSynced` and `syncDownClasses` (src/sync.js:88-113, 157-159, 171-179)
  are left out. So are the orchestration of `syncDown` (src/sync.js:160-170), which chains
  remote calls, and `syncUpClass`'s logging of every error it rethrows.
- The remote SDK: `saveAll`, queries and `findAll`, `Cloud.run`, `Object.extend`, `ACL` and
  `User.current`. `getTimeFromServer` and `getSyncDownClassParseQuery` (src/sync.js:198-200,
  232-241) build remote queries and are left out. A remote object is a value
  (`Sync.ParseModel`), and `toJSON()` is taken as the input object.
- `getVersionIds` (src/sync.js:201-210) runs a query. The model takes its outcome as input:
  the ids, or `None` when the query failed and its error was swallowed.
- `setModelParseIds` (src/syncToParse.js:113-119) dispatches an action to the application
  store. Redux is not modelled. `ParseInterface.initialize` is not modelled either.
- Timer delays (`retry_interval`, `reschedule_interval`) are stored but not used to order
  events. Any enabled event can happen next.
- Sync.Syncer.HandleSyncUpFail: logs with the corrected error test (see Findings). As written
  it also logs every error whose code is truthy, connection failures included;
  `Sync.FailureStepAsWritten` is that handler.
- Sync.Syncer.HandleSyncUpFail: does not model `logError` itself throwing. The source catches
  that inside the handler, and then no retry timer is set.
- Sync.Syncer: `max_retry_attempts` is stored and never read, as in the source.
- Logging to the console, `defaultLogError` and `getCreateTableSql`'s debug output are left out.
- `getRecordClassName` is the class's `name` field. The `!RecordClass` guards of
  `getCreateTableSql` and `getRecordClassJSFieldTypes` cannot fail on a class value, so they
  are not modelled.
- Runway.UnpackValue: the `'boolean'` case of `unpackRecord` is unreachable, because
  `getJSFieldType` never returns it. It is therefore not modelled.
- Model.MakeRecordClass: the locked keys are a fresh list. The source pushes the index key and
  'class_name' into the caller's own `prohibited_update_keys` array, so classes made from one
  options object share one list that grows with each class.
- Values.ToNumber: reads optional sign and decimal digits only. `Number`'s trimming of white
  space, fractions, exponents, hexadecimal text and `Infinity` are not modelled; such text is NaN.
- Values.Value: numbers are integers, since records keep numbers in `Integer` columns.
  Fractions, exponents and `Object.keys` placing integer-like keys first are not modelled.
- Strings.ToLower: lower-cases ASCII letters only; Unicode case mapping is not modelled.
- tcomb's runtime type checks in `t.struct` and `update` are not modelled. A record is built
  from whatever values it is given.
- Runway.RunWay.SaveRecord: the `getRecordIndexValue` read is `Column(record, indexKey)`.
  Its separate function is not modelled.
- SyncToParse.Unsynced: `obj.sync` on an Immutable map is taken to be the map's `sync` entry.

## Findings

| source | as written | input that shows it | evidently intended | confidence | as-written member | corrected member |
|---|---|---|---|---|---|---|
| src/sync.js:83 | `expected_errors[error.code] !== -1` compares a string or `undefined` with `-1`, which is always true, so every error with a truthy code is reported as unexpected | `{code: 100}` (connection failed) is logged | an error is unexpected only when its code is not in the table, so a connection failure is not logged | not executed | Sync.AsWrittenLogsConnectionFailure | Sync.UnexpectedErrors |
