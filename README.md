# log4js MongoDB appender: a Dafny model

This project models the core of `lib/index.js`, a log4js appender that
writes log events to MongoDB. Its three parts are:

- **The key sanitiser `replaceKeys`** and its `ERROR` wrapper
  (`sanitizer.dfy`, module `Sanitizer`). It is a total, recursive rewrite
  of a JSON-like `Value`. A leading `$` in an object key becomes
  `_dollar_` and every `.` becomes `_dot_`. Arrays are rebuilt element by
  element. Errors become `{name, message}`. Everything else passes through
  unchanged. Objects are ordered key/value lists, and `dest[key] = value`
  is modelled exactly: a key that is already present is overwritten in
  place. So two source keys that escape to the same string collapse, and
  the later one wins.
- **The configuration** (`configuration.dfy`, module `Configuration`).
  This covers the write-mode policy `getOptions`, the `mongodb://`
  prefix, the `writeInterval` seconds-to-milliseconds conversion, the
  defaults, and the error thrown when the connection string is missing.
- **The buffering state machine**. `pipeline.dfy` (module `Pipeline`)
  states it as pure step functions over the closure state. These cover
  the intake closure, `insert`, one `batchInsert` timer tick, the batch
  insert callback, the connect callback, and the `setImmediate` replays
  it queues. `appender.dfy` (module `Appender`) holds the same state as a
  class, `MongoAppender`, whose methods update fields in place. Its
  `batch` is a `RecordBuffer` reference, so that pushing the buffer into
  `cache` and then splicing it (lib/index.js:167-168) leaves the cached
  entry aliased to the live, now empty, buffer. Every method's
  postcondition says that the new abstract state is the matching
  `Pipeline` function applied to the old one. `properties.dfy` (module
  `PipelineProperties`) proves what those functions guarantee over whole
  runs of the event loop (`Pipeline.Run`).

The model follows the code as written, including these quirks:

- Batch inserts use the configured `getOptions()` (lib/index.js:156).
  They are not forced to "safe", whatever the comment on line 157 says.
- There is no atomic buffer swap. The buffer is emptied only in the
  insert callback, and all of it is emptied (lib/index.js:164). Records
  that arrive in between are dropped
  (`RecordsArrivingDuringBatchWriteAreDropped`). A tick that fires before
  the callback sends the same records again
  (`TickBeforeCallbackRewritesBatch`).
- The error record's `name` is `err.toString()`. That string is empty when
  the error's name and message are both empty (`ErrorToString`), so it is
  not always non-empty.
- `cache` holds the cloned events, not records. It is never emptied: it is
  replayed once, because the connect callback fires once
  (`RunKeepsConnectionAndCache`).
- In batching mode `cache` only ever holds the batch array. Replaying it
  throws a TypeError in `insert`, because an array has no `logger`. So
  batches cached before the connection are never delivered
  (`ReplayedBatchesAreNotDelivered`).
- The self-emission check reads the event's own `category`, but the
  record stores `logger.category` (`OwnLoggerCategoryIsStored`).
- The cached events are replayed with `setImmediate`
  (lib/index.js:194-197). An event logged after the connect callback but
  before those replays run is written first, ahead of the events cached
  earlier (`LateEventOvertakesCachedOnes`).
- `metaData` is stored as configured and is not sanitised. Only the
  record's `data` is guaranteed clean (`StoreOnlyGetsSanitisedData`).

Inputs the model treats as parameters:

- The layout is a parameter `layout: RawEvent -> string`.
- The outcome of the connection attempt is chosen by calling
  `ConnectSucceeded` or `ConnectFailed`.
- Whether a batch insert failed is the `failed` argument of
  `CompleteBatchWrite`.

## Model

| member | source | states |
|---|---|---|
| Sanitizer.EscapeDots | lib/index.js:60-61 | the result has no `.`; a key without `.` is unchanged |
| Sanitizer.EscapeDotsOfDot | lib/index.js:60-61 | every `.`, wherever it stands, becomes `_dot_`, and the text on either side is escaped independently |
| Sanitizer.EscapeDotsAppend | lib/index.js:60-61 | the global replace works character by character: escaping distributes over concatenation |
| Sanitizer.EscapeKey | lib/index.js:55-61 | an escaped key never starts with `$` and never contains `.`; a key that already does neither is unchanged; a `$`-prefixed key becomes `_dollar_` followed by the rest with its dots escaped |
| Sanitizer.EscapeKeyIdempotent | lib/index.js:55-61 | a second escape leaves an escaped key unchanged |
| Sanitizer.ErrorToString | lib/index.js:42 | `err.toString()` is empty exactly when both name and message are empty; a missing or empty message gives the name, an empty name gives the message, and a non-empty name and message give `name: message` |
| Sanitizer.ErrorMessage | lib/index.js:43 | the stored message is never empty: an absent or empty message becomes `"error"`, any other is kept |
| Sanitizer.ErrorRecord | lib/index.js:38-44 | an error becomes an object with exactly the fields `name` (its string form) and `message` |
| Sanitizer.Lookup | lib/index.js:63 | reading a key of an object succeeds exactly when the key is present |
| Sanitizer.Assign | lib/index.js:63 | `dest[key] = v` keeps the key order and overwrites in place if the key is present, else appends the key at the end |
| Sanitizer.AssignLookup | lib/index.js:63 | after `dest[key] = v`, `key` reads `v` and every other key reads as before |
| Sanitizer.AssignFresh | lib/index.js:63 | assigning an absent key appends the pair |
| Sanitizer.LastValue | lib/index.js:54-64 | some pair carries a value for `k` exactly when `k` is one of the pairs' keys |
| Sanitizer.AssignAll | lib/index.js:52-68 | `mixin` keeps keys distinct and only holds pairs it was given; it never has more fields than it received |
| Sanitizer.AssignAllLookup | lib/index.js:52-68 | after `mixin`, each key holds the value of the last pair that carries it |
| Sanitizer.AssignAllFresh | lib/index.js:52-68 | `mixin` of pairs with distinct new keys appends them in order |
| Sanitizer.EscapedPairs | lib/index.js:54-63 | `mixin` assigns one pair per source field, in order, each under the escaped key with a clean value |
| Sanitizer.Sanitize | lib/index.js:49-89 | the result is clean at every depth: no `$`-prefixed or dotted key, no duplicate key, no error object; null, scalars, dates, regexes and ObjectIDs come back unchanged; arrays keep their length; objects never gain fields |
| Sanitizer.SanitizeFixesClean | lib/index.js:49-89 | a value that is already clean comes back unchanged |
| Sanitizer.SanitizeIdempotent | lib/index.js:49-89 | sanitising twice is sanitising once |
| Sanitizer.SanitizeArray | lib/index.js:80-86 | element `i` of a sanitised array is element `i` sanitised |
| Sanitizer.SanitizeError | lib/index.js:74-77 | an error is stored as `{name: err.toString(), message: err.message or "error"}` |
| Sanitizer.SanitizeObjectLookup | lib/index.js:52-88 | key `k` of a sanitised object holds the sanitised value of the last source key that escapes to `k` |
| Sanitizer.SanitizeObjectKeys | lib/index.js:52-88 | a sanitised object has key `k` exactly when some source key escapes to `k` |
| Sanitizer.AssignTwice | lib/index.js:63 | two assignments to one key leave a single field that holds the second value |
| Sanitizer.CollidingKeysCollapse | lib/index.js:56-63 | `{"a.b": x, "a_dot_b": y}` is stored as `{"a_dot_b": y}`: colliding keys collapse and the later one wins |
| Configuration.GetOptions | lib/index.js:91-104 | an insert is acknowledged (`w = 1`) exactly for "normal" and "safe"; the journal is requested exactly for "safe"; `w` is 0 or 1 |
| Configuration.NormalizeConnectionString | lib/index.js:173-176 | the result starts with `mongodb://`; a string that already does is unchanged, any other gets the prefix |
| Configuration.NormalizeIdempotent | lib/index.js:173-176 | prefixing is applied at most once |
| Configuration.BatchIntervalMs | lib/index.js:29-33 | batching is on exactly for a positive `writeInterval`, and the interval is then that many seconds in milliseconds |
| Configuration.Configure | lib/index.js:17-33 | construction fails, with the source's message, exactly when the configuration or its connection string is missing or empty; otherwise the settings carry the caller's connection string with `mongodb://` prepended when missing, the write mode, the interval, the supplied `metaData` when it is truthy (else `{}`) and the supplied `collectionName` when it is non-empty (else `"log"`) |
| Configuration.ConfigureDefaults | lib/index.js:24-33 | with no `metaData` and no `collectionName`, the defaults are `{}` and `"log"` |
| Pipeline.Init | lib/index.js:21-23 | when `mongodbAppender` returns, nothing is connected, cached, buffered, queued, written or reported |
| Pipeline.Handle | lib/index.js:201-216 | an event in the appender's own category changes nothing; otherwise the prepared event's record is appended to the buffer (batching on), written once (connected) or the prepared event is cached (not connected); in each case the cache, buffer and store not routed to stay as they were, and the connection, pending inserts, replay queue and reports are untouched |
| Pipeline.Step | lib/index.js:151-216 | no callback changes a decided connection, and none removes anything from the cache, the store or the reports |
| Pipeline.Run | lib/index.js:151-216 | over any sequence of callbacks, everything written and reported stays written and reported, in order |
| Pipeline.Unwrap | lib/index.js:204-210 | a string first argument is rendered by the layout; a single other argument is unwrapped; any other argument list is kept as an array |
| Pipeline.Prepare | lib/index.js:201-212 | the event handed to `insert` carries the sanitised, unwrapped payload, and so clean data, with every other field copied |
| Pipeline.BuildRecord | lib/index.js:116-122 | the record stores the logger's category, the event's start time, data and level, and the configured `metaData` |
| Pipeline.Insert | lib/index.js:109-146 | a self-emitted event changes nothing; with batching on exactly one record is appended to the buffer; with batching off, when connected, exactly one single insert with `getOptions()` is issued, and when not connected the event is appended to the cache; nothing else changes |
| Pipeline.BatchTick | lib/index.js:151-171 | an empty buffer is a no-op; when connected, one insert of the whole buffer in order, with `getOptions()`, and the buffer is kept; when not connected, the cache grows by the buffer itself and the buffer is emptied |
| Pipeline.CompleteBatchWrite | lib/index.js:158-165 | the callback empties the whole buffer, reports a failure, and leaves the store and the cache alone |
| Pipeline.ConnectSucceeded | lib/index.js:191-198 | the state becomes connected and one replay per cache entry is queued, in cache order; the cache is kept |
| Pipeline.ConnectFailed | lib/index.js:183-189 | the failure is reported and the state stays unconnected |
| Pipeline.RunReplay | lib/index.js:194-197 | a replayed event goes through `insert`; a replayed batch array faults and writes nothing |
| PipelineProperties.InsertInv | lib/index.js:109-146 | `insert` of a clean event preserves the invariant of reachable states |
| PipelineProperties.StepInv | lib/index.js:109-216 | every callback of the event loop preserves that invariant |
| PipelineProperties.RunInv | lib/index.js:109-216 | so does every run of callbacks |
| PipelineProperties.StoreOnlyGetsSanitisedData | lib/index.js:201-216 | in any run, every document written has sanitised `data`, and every insert, batch inserts included, uses the configured `getOptions()` |
| PipelineProperties.RunKeepsConnectionAndCache | lib/index.js:183-199 | once decided, the connection state never changes; the cache is only ever appended to, never emptied |
| PipelineProperties.ReplayOneEvent | lib/index.js:194-197 | with batching off, one replay writes the queued event and drops it from the queue |
| PipelineProperties.ReplayAllWritesInOrder | lib/index.js:194-198 | with batching off, the queued replays write each cached event once, in queue order, and change nothing else |
| PipelineProperties.CachedEventsDeliveredOnConnect | lib/index.js:183-198 | after a successful connect, the cached events are all written, each exactly once, in arrival order, and the cache is left as it was |
| PipelineProperties.LogWhileNotConnected | lib/index.js:143-145 | with batching off and no connection, logged events are appended to the cache in arrival order and nothing is written |
| PipelineProperties.RunReplaysIsReplayAll | lib/index.js:194-197 | running one replay per queued entry empties the queue in order |
| PipelineProperties.EventsLoggedBeforeConnectAreWrittenInOrder | lib/index.js:129-198 | events logged before the connection resolves end up written exactly once each, in arrival order, once the connect callback and its replays have run |
| PipelineProperties.LateEventOvertakesCachedOnes | lib/index.js:129-198 | an event logged between the connect callback and the deferred replay is written before the event cached earlier |
| PipelineProperties.SafeWritesAreJournaled | lib/index.js:91-104 | in "safe" mode every insert a run issues, single or batched, is acknowledged and journaled; with batching off each carries exactly one document |
| PipelineProperties.ReplayedBatchesAreNotDelivered | lib/index.js:194-198 | replaying cached batch arrays writes nothing and reports one fault per array |
| PipelineProperties.InsertAllAppendsToBatch | lib/index.js:124-127 | with batching on, `insert` appends one record per event, in order, and touches neither the cache nor the store |
| PipelineProperties.LogWhileBatching | lib/index.js:124-127 | with batching on, logging calls through the intake append one record per event to the buffer, in arrival order, and change nothing else |
| PipelineProperties.OneIntervalOneBatchWrite | lib/index.js:151-165 | events logged through the intake between an emptied buffer and the next tick, while connected, go out as one insert holding all their records, in arrival order, with `getOptions()` |
| PipelineProperties.RecordsArrivingDuringBatchWriteAreDropped | lib/index.js:158-165 | a record appended while a batch insert is pending is wiped by its callback without ever being written |
| PipelineProperties.TickBeforeCallbackRewritesBatch | lib/index.js:154-158 | a tick before the pending callback has run sends the same records a second time |
| PipelineProperties.OwnLoggerCategoryIsStored | lib/index.js:111-122 | an event whose own `category` is not the module name is stored, under its logger's category, even when that is the module name |
| Appender.MongoAppender.constructor | lib/index.js:21-23 | the closure starts unconnected, with an empty cache and an empty buffer |
| Appender.MongoAppender.Insert | lib/index.js:109-146 | `insert` updates the fields as `Pipeline.Insert` says |
| Appender.MongoAppender.BatchInsert | lib/index.js:151-171 | `batchInsert` updates the fields as `Pipeline.BatchTick` says; when not connected, the cached entry is the buffer object itself, and it is now empty |
| Appender.MongoAppender.CompleteBatchWrite | lib/index.js:158-165 | the insert callback updates the fields as `Pipeline.CompleteBatchWrite` says |
| Appender.MongoAppender.ConnectSucceeded | lib/index.js:191-198 | the connect callback's `forEach` queues the cache in order, as `Pipeline.ConnectSucceeded` says |
| Appender.MongoAppender.ConnectFailed | lib/index.js:183-189 | the failed connect updates the fields as `Pipeline.ConnectFailed` says |
| Appender.MongoAppender.RunReplay | lib/index.js:194-197 | one `setImmediate` replay updates the fields as `Pipeline.RunReplay` says |
| Appender.MongoAppender.Handle | lib/index.js:201-216 | the returned intake function updates the fields as `Pipeline.Handle` says |

## Left out

- MongoDB driver calls (`MongoClient.connect`, `db.collection`, `collection.insert`) are not performed. Each insert is appended to a ghost log of writes (`Pipeline.Write`). The connect outcome and the batch insert outcome are arguments of explicit operations. The collection name and the connection options are only passed to the driver, so they play no further part.
- Documents are captured when an insert is issued. The driver may later serialise the batch array, or add `_id` fields to documents; this is not modelled.
- The error callback of a single acknowledged insert (lib/index.js:135-141) only logs. Its report is not recorded.
- `setInterval` and `setImmediate` are not modelled as concurrency. Timer ticks, insert callbacks, the connect callback and the queued replays are explicit operations (`Pipeline.Op`) that run one at a time, in any order the caller picks.
- A replayed batch array makes `insert` throw a TypeError. This is recorded as a `ReplayFault` report. What the uncaught exception then does to the Node.js process is not modelled.
- The JSON deep copy of the event (lib/index.js:202) is not modelled. The input is taken to be JSON-like already, so cycles, and the loss of dates and errors through JSON, are out of scope.
- The event is assumed to have a `logger` (log4js always sets one). The `TypeError` an event without one would raise is not modelled.
- The log4js layout and the layout construction in `configure` (lib/index.js:222-228) are not modelled. The layout is a function parameter.
- The `lx-helpers` library is not part of this model. Its `isObject`, `isArray`, `getType` and `forEach` are taken to mean what their names say, and arrays are not objects to `isObject`.
- Stack traces (`Error.captureStackTrace`) and the text written by `console.error` and `logger.error` are not modelled. Only the fact that something was reported is kept.
- Numbers are unbounded integers, not IEEE doubles. They only pass through the sanitiser unchanged, and `writeInterval` is taken in whole seconds.
- Objects are key/value lists in JavaScript's enumeration order. The special assignment behaviour of a `__proto__` key is not modelled. Neither is the rule that array-index keys enumerate first (escaping never turns a key into an array index or back).
- The settings are fixed at construction. A caller that later mutates `config.write` would change what `getOptions` returns; this is not modelled.
