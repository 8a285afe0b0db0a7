/**
 * The buffering state machine of lib/index.js as pure functions over the
 * closure state: the intake step, `insert`, one `batchInsert` timer tick,
 * the batch write's completion callback, the connect callback and the
 * deferred replays it schedules. The class in appender.dfy updates its
 * fields exactly as these functions say.
 */
module Pipeline {
  import opened Wrappers
  import opened Sanitizer
  import opened Configuration

  /** A log4js logging event as the intake receives it (after its JSON deep
      copy): `data` is the logger call's argument list. `category` is the
      event's own `category` property, `loggerCategory` is `logger.category`. */
  datatype RawEvent = RawEvent(
    startTime: string,
    category: Option<string>,
    loggerCategory: string,
    level: string,
    data: seq<Value>)

  /** The cloned event after the intake rewrote its `data` to one value. */
  datatype Event = Event(
    startTime: string,
    category: Option<string>,
    loggerCategory: string,
    level: string,
    data: Value)

  /** The document `insert` builds for the store. */
  datatype Record = Record(
    timestamp: string,
    data: Value,
    level: string,
    category: string,
    metaData: Value)

  /** An entry of `cache`: a cloned event, or the batch buffer array itself.
      A cached batch is the live buffer, not a copy, so it carries no records
      of its own. */
  datatype Entry = CachedEvent(event: Event) | CachedBatch

  /** Whether the connect callback has set `collection`, has failed, or is pending. */
  datatype Connection = Connecting | Connected | Failed

  /** One call of `collection.insert`: the document(s), the options, and
      whether an array was passed (a batch). */
  datatype Write = Write(docs: seq<Record>, options: WriteOptions, bulk: bool)

  /** What the appender reports on its error channels. */
  datatype Report =
    | ConnectError  // console.error in the connect callback
    | BatchWriteError  // logger.error in the batch insert callback
    | ReplayFault  // the TypeError a replayed batch array raises in `insert`

  datatype State = State(
    connection: Connection,
    cache: seq<Entry>,
    batch: seq<Record>,
    inFlight: nat,  // batch inserts whose callback has not run yet
    scheduled: seq<Entry>,  // replays queued with setImmediate, not yet run
    writes: seq<Write>,
    reports: seq<Report>)

  /** The state right after `mongodbAppender` returns. */
  function Init(): (r: State)
    ensures r.connection == Connecting && r.inFlight == 0
    ensures r.cache == [] && r.batch == [] && r.scheduled == []
    ensures r.writes == [] && r.reports == []
  {
    State(Connecting, [], [], 0, [], [], [])
  }

  // ---------------------------------------------------------------------
  // Intake

  /** The payload rewrite of the intake: a string first argument means the
      layout renders the event; a single argument is unwrapped; any other
      argument list is kept as an array. */
  function Unwrap(raw: RawEvent, layout: RawEvent -> string): (r: Value)
    ensures |raw.data| > 0 && raw.data[0].Str? ==> r == Str(layout(raw))
    ensures |raw.data| == 1 && !raw.data[0].Str? ==> r == raw.data[0]
    ensures |raw.data| != 1 && (|raw.data| == 0 || !raw.data[0].Str?) ==> r == Arr(raw.data)
  {
    if |raw.data| > 0 && raw.data[0].Str? then Str(layout(raw))
    else if |raw.data| == 1 then raw.data[0]
    else Arr(raw.data)
  }

  /** The cloned event handed to `insert`: unwrapped, then sanitised. */
  function Prepare(raw: RawEvent, layout: RawEvent -> string): (e: Event)
    ensures Clean(e.data)
    ensures e.data == Sanitize(Unwrap(raw, layout))
    ensures e.category == raw.category && e.loggerCategory == raw.loggerCategory
    ensures e.startTime == raw.startTime && e.level == raw.level
  {
    Event(raw.startTime, raw.category, raw.loggerCategory, raw.level, Sanitize(Unwrap(raw, layout)))
  }

  // ---------------------------------------------------------------------
  // insert

  /** The self-emission check reads the event's own `category` property. */
  predicate IsSelfEmitted(e: Event) {
    e.category == Some(ModuleName)
  }

  /** The stored category is the LOGGER's category, not the one checked above. */
  function BuildRecord(e: Event, metaData: Value): (r: Record)
    ensures r.category == e.loggerCategory && r.data == e.data
    ensures r.timestamp == e.startTime && r.level == e.level && r.metaData == metaData
  {
    Record(e.startTime, e.data, e.level, e.loggerCategory, metaData)
  }

  /** The single-document write `insert` issues when connected and not batching. */
  function SingleWrite(st: Settings, e: Event): Write {
    Write([BuildRecord(e, st.metaData)], GetOptions(st.write), false)
  }

  /** `insert`: drop self-emitted events; when batching, append the record to
      the buffer; otherwise write it if connected, else cache the event. */
  function Insert(st: Settings, s: State, e: Event): (r: State)
    ensures IsSelfEmitted(e) ==> r == s
    ensures !IsSelfEmitted(e) && st.intervalMs > 0 ==>
      r == s.(batch := s.batch + [BuildRecord(e, st.metaData)])
    ensures !IsSelfEmitted(e) && st.intervalMs == 0 && s.connection == Connected ==>
      r == s.(writes := s.writes + [SingleWrite(st, e)])
    ensures !IsSelfEmitted(e) && st.intervalMs == 0 && s.connection != Connected ==>
      r == s.(cache := s.cache + [CachedEvent(e)])
  {
    if IsSelfEmitted(e) then s
    else if st.intervalMs > 0 then s.(batch := s.batch + [BuildRecord(e, st.metaData)])
    else if s.connection == Connected then s.(writes := s.writes + [SingleWrite(st, e)])
    else s.(cache := s.cache + [CachedEvent(e)])
  }

  /** The intake closure: prepare the cloned event, then `insert` it. */
  function Handle(st: Settings, layout: RawEvent -> string, s: State, raw: RawEvent): (r: State)
    ensures raw.category == Some(ModuleName) ==> r == s
    ensures r.connection == s.connection && r.inFlight == s.inFlight
    ensures r.scheduled == s.scheduled && r.reports == s.reports
    ensures raw.category != Some(ModuleName) && st.intervalMs > 0 ==>
      r.batch == s.batch + [BuildRecord(Prepare(raw, layout), st.metaData)]
      && r.writes == s.writes && r.cache == s.cache
    ensures raw.category != Some(ModuleName) && st.intervalMs == 0 && s.connection == Connected ==>
      r.writes == s.writes + [SingleWrite(st, Prepare(raw, layout))]
      && r.cache == s.cache && r.batch == s.batch
    ensures raw.category != Some(ModuleName) && st.intervalMs == 0 && s.connection != Connected ==>
      r.cache == s.cache + [CachedEvent(Prepare(raw, layout))]
      && r.writes == s.writes && r.batch == s.batch
  {
    Insert(st, s, Prepare(raw, layout))
  }

  // ---------------------------------------------------------------------
  // batchInsert and its callback

  /** One tick of the `setInterval` timer running `batchInsert`. When
      connected, the whole buffer goes out as one insert with the configured
      options and stays in the buffer until the callback runs. When not, the
      buffer array itself is cached and then emptied. */
  function BatchTick(st: Settings, s: State): (r: State)
    ensures s.batch == [] ==> r == s
    ensures s.batch != [] && s.connection == Connected ==>
      r == s.(writes := s.writes + [Write(s.batch, GetOptions(st.write), true)],
              inFlight := s.inFlight + 1)
    ensures s.batch != [] && s.connection != Connected ==>
      r == s.(cache := s.cache + [CachedBatch], batch := [])
  {
    if s.batch == [] then s
    else if s.connection == Connected then
      s.(writes := s.writes + [Write(s.batch, GetOptions(st.write), true)],
         inFlight := s.inFlight + 1)
    else s.(cache := s.cache + [CachedBatch], batch := [])
  }

  /** The callback of a batch insert: report a failure, then empty the
      WHOLE buffer, including records appended after the insert was issued. */
  function CompleteBatchWrite(s: State, failed: bool): (r: State)
    requires s.inFlight > 0
    ensures r.batch == [] && r.inFlight == s.inFlight - 1
    ensures r.reports == s.reports + (if failed then [BatchWriteError] else [])
    ensures r.writes == s.writes && r.cache == s.cache && r.connection == s.connection
    ensures r.scheduled == s.scheduled
  {
    s.(batch := [], inFlight := s.inFlight - 1,
       reports := s.reports + (if failed then [BatchWriteError] else []))
  }

  // ---------------------------------------------------------------------
  // The connect callback and the replays it schedules

  /** The connect callback on success: set `collection` and queue one
      replay per cache entry, in cache order. The cache itself is kept. */
  function ConnectSucceeded(s: State): (r: State)
    requires s.connection == Connecting
    ensures r.connection == Connected
    ensures r.scheduled == s.scheduled + s.cache
    ensures r.cache == s.cache && r.batch == s.batch && r.writes == s.writes
    ensures r.inFlight == s.inFlight && r.reports == s.reports
  {
    s.(connection := Connected, scheduled := s.scheduled + s.cache)
  }

  /** The connect callback on failure: report it; `collection` stays unset. */
  function ConnectFailed(s: State): (r: State)
    requires s.connection == Connecting
    ensures r == s.(connection := Failed, reports := s.reports + [ConnectError])
  {
    s.(connection := Failed, reports := s.reports + [ConnectError])
  }

  /** One queued replay: `insert` of a cached event; a cached batch array
      throws in `insert` (it has no `logger`) and nothing is written. */
  function RunReplay(st: Settings, s: State): (r: State)
    requires s.scheduled != []
    ensures |r.scheduled| == |s.scheduled| - 1
    ensures s.scheduled[0].CachedEvent? ==>
      r == Insert(st, s.(scheduled := s.scheduled[1..]), s.scheduled[0].event)
    ensures s.scheduled[0].CachedBatch? ==>
      r == s.(scheduled := s.scheduled[1..], reports := s.reports + [ReplayFault])
  {
    var rest := s.(scheduled := s.scheduled[1..]);
    match s.scheduled[0]
    case CachedEvent(e) => Insert(st, rest, e)
    case CachedBatch => rest.(reports := s.reports + [ReplayFault])
  }

  /** Run every queued replay in order. */
  function ReplayAll(st: Settings, s: State): State
    decreases |s.scheduled|
  {
    if s.scheduled == [] then s else ReplayAll(st, RunReplay(st, s))
  }

  // ---------------------------------------------------------------------
  // The event loop

  /** What can happen next: a logging call reaches the intake, the batch
      timer fires, a batch insert calls back, the driver's connect callback
      runs (once), or a queued replay runs. */
  datatype Op =
    | Log(raw: RawEvent)
    | Tick
    | WriteDone(failed: bool)
    | ConnectOk
    | ConnectErr
    | Replay

  /** One callback of the event loop. Callbacks that cannot fire in a state
      (no timer when batching is off, no pending insert, a second connect
      callback, an empty replay queue) leave it unchanged. */
  function Step(st: Settings, layout: RawEvent -> string, s: State, op: Op): (r: State)
    ensures s.connection != Connecting ==> r.connection == s.connection
    ensures s.cache <= r.cache && s.writes <= r.writes && s.reports <= r.reports
  {
    match op
    case Log(raw) => Handle(st, layout, s, raw)
    case Tick => if st.intervalMs > 0 then BatchTick(st, s) else s
    case WriteDone(failed) => if s.inFlight > 0 then CompleteBatchWrite(s, failed) else s
    case ConnectOk => if s.connection == Connecting then ConnectSucceeded(s) else s
    case ConnectErr => if s.connection == Connecting then ConnectFailed(s) else s
    case Replay => if s.scheduled != [] then RunReplay(st, s) else s
  }

  /** Callbacks run one after another. Nothing written or reported is ever
      taken back. */
  function Run(st: Settings, layout: RawEvent -> string, s: State, ops: seq<Op>): (r: State)
    ensures s.writes <= r.writes && s.reports <= r.reports
    decreases |ops|
  {
    if ops == [] then s else Run(st, layout, Step(st, layout, s, ops[0]), ops[1..])
  }
}
