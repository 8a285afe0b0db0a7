/**
 * What the buffering state machine of lib/index.js guarantees, and the
 * quirks it has, stated over the step functions of module Pipeline.
 */
module PipelineProperties {
  import opened Wrappers
  import opened Sanitizer
  import opened Configuration
  import opened Pipeline

  // ---------------------------------------------------------------------
  // Invariant of every reachable state

  /** Cached events are sanitised, never self-emitted, and only cached when
      batching is off; batch arrays are only cached when batching is on. */
  predicate EntryOk(st: Settings, en: Entry) {
    match en
    case CachedEvent(e) => st.intervalMs == 0 && !IsSelfEmitted(e) && Clean(e.data)
    case CachedBatch => st.intervalMs > 0
  }

  /** A write as `insert` or `batchInsert` issues it: sanitised documents, the
      configured options, one document per write when batching is off, an
      array when it is on. */
  predicate WriteOk(st: Settings, w: Write) {
    && w.options == GetOptions(st.write)
    && w.bulk == (st.intervalMs > 0)
    && (!w.bulk ==> |w.docs| == 1)
    && forall j :: 0 <= j < |w.docs| ==> Clean(w.docs[j].data)
  }

  predicate Inv(st: Settings, s: State) {
    && (forall i :: 0 <= i < |s.cache| ==> EntryOk(st, s.cache[i]))
    && (forall i :: 0 <= i < |s.scheduled| ==> EntryOk(st, s.scheduled[i]))
    && (st.intervalMs == 0 ==> s.batch == [] && s.inFlight == 0)
    && (s.connection != Connected ==> s.inFlight == 0 && s.scheduled == [])
    && (forall i :: 0 <= i < |s.batch| ==> Clean(s.batch[i].data))
    && (forall i :: 0 <= i < |s.writes| ==> WriteOk(st, s.writes[i]))
  }

  lemma InitInv(st: Settings)
    ensures Inv(st, Init())
  {
  }

  lemma {:induction false} InsertInv(st: Settings, s: State, e: Event)
    requires Inv(st, s) && Clean(e.data)
    ensures Inv(st, Insert(st, s, e))
  {
    var r := Insert(st, s, e);
    if !IsSelfEmitted(e) {
      if st.intervalMs > 0 {
        assert r.batch[|s.batch|] == BuildRecord(e, st.metaData);
      } else if s.connection == Connected {
        assert r.writes[|s.writes|] == SingleWrite(st, e);
      } else {
        assert r.cache[|s.cache|] == CachedEvent(e);
      }
    }
  }

  lemma {:induction false} StepInv(st: Settings, layout: RawEvent -> string, s: State, op: Op)
    requires Inv(st, s)
    ensures Inv(st, Step(st, layout, s, op))
  {
    match op
    case Log(raw) => InsertInv(st, s, Prepare(raw, layout));
    case Tick =>
      if st.intervalMs > 0 && s.batch != [] {
        var r := BatchTick(st, s);
        if s.connection == Connected {
          assert WriteOk(st, r.writes[|s.writes|]);
        } else {
          assert r.cache[|s.cache|] == CachedBatch;
        }
      }
    case WriteDone(failed) =>
    case ConnectOk =>
      if s.connection == Connecting {
        var r := ConnectSucceeded(s);
        assert r.scheduled == s.cache;
      }
    case ConnectErr =>
    case Replay =>
      if s.scheduled != [] {
        var rest := s.(scheduled := s.scheduled[1..]);
        assert Inv(st, rest);
        if s.scheduled[0].CachedEvent? {
          InsertInv(st, rest, s.scheduled[0].event);
        }
      }
  }

  lemma {:induction false} RunInv(st: Settings, layout: RawEvent -> string, s: State, ops: seq<Op>)
    requires Inv(st, s)
    ensures Inv(st, Run(st, layout, s, ops))
    decreases |ops|
  {
    if ops != [] {
      StepInv(st, layout, s, ops[0]);
      RunInv(st, layout, Step(st, layout, s, ops[0]), ops[1..]);
    }
  }

  /** Whatever happens, every document that reaches the store has sanitised
      `data`, and every insert carries the configured `getOptions()`, batch
      inserts included. */
  lemma StoreOnlyGetsSanitisedData(st: Settings, layout: RawEvent -> string, ops: seq<Op>, i: nat, j: nat)
    requires i < |Run(st, layout, Init(), ops).writes|
    requires j < |Run(st, layout, Init(), ops).writes[i].docs|
    ensures Clean(Run(st, layout, Init(), ops).writes[i].docs[j].data)
    ensures Run(st, layout, Init(), ops).writes[i].options == GetOptions(st.write)
  {
    InitInv(st);
    RunInv(st, layout, Init(), ops);
  }

  // ---------------------------------------------------------------------
  // Connection lifecycle

  /** The connection leaves Connecting at most once and never comes back;
      the cache is never emptied or reordered, only appended to. */
  lemma {:induction false} RunKeepsConnectionAndCache(st: Settings, layout: RawEvent -> string, s: State, ops: seq<Op>)
    ensures s.connection != Connecting ==> Run(st, layout, s, ops).connection == s.connection
    ensures s.cache <= Run(st, layout, s, ops).cache
    decreases |ops|
  {
    if ops != [] {
      var next := Step(st, layout, s, ops[0]);
      assert s.connection != Connecting ==> next.connection == s.connection;
      assert s.cache <= next.cache;
      RunKeepsConnectionAndCache(st, layout, next, ops[1..]);
    }
  }

  predicate CachedEventsOnly(es: seq<Entry>) {
    forall i :: 0 <= i < |es| ==> es[i].CachedEvent? && !IsSelfEmitted(es[i].event)
  }

  function EventsOf(es: seq<Entry>): (r: seq<Event>)
    requires CachedEventsOnly(es)
    ensures |r| == |es|
    ensures forall i :: 0 <= i < |es| ==> r[i] == es[i].event
  {
    seq(|es|, i requires 0 <= i < |es| => es[i].event)
  }

  function SingleWrites(st: Settings, events: seq<Event>): (r: seq<Write>)
    ensures |r| == |events|
    ensures forall i :: 0 <= i < |events| ==> r[i] == SingleWrite(st, events[i])
  {
    seq(|events|, i requires 0 <= i < |events| => SingleWrite(st, events[i]))
  }

  /** With batching off and the connection up, the queued replays write each
      cached event once, in queue order. */
  lemma {:induction false} ReplayAllWritesInOrder(st: Settings, s: State)
    requires st.intervalMs == 0 && s.connection == Connected
    requires CachedEventsOnly(s.scheduled)
    ensures ReplayAll(st, s)
         == s.(scheduled := [], writes := s.writes + SingleWrites(st, EventsOf(s.scheduled)))
    decreases |s.scheduled|
  {
    if s.scheduled == [] {
      assert s.writes + SingleWrites(st, []) == s.writes;
    } else {
      var e := s.scheduled[0].event;
      var next := ReplayOneEvent(st, s);
      ReplayAllWritesInOrder(st, next);
      WritesOfRest(st, s.writes, s.scheduled);
    }
  }

  /** One replay of a cached event, with batching off and the connection up, writes it. */
  lemma ReplayOneEvent(st: Settings, s: State) returns (next: State)
    requires st.intervalMs == 0 && s.connection == Connected
    requires s.scheduled != [] && CachedEventsOnly(s.scheduled)
    ensures next == s.(scheduled := s.scheduled[1..], writes := s.writes + [SingleWrite(st, s.scheduled[0].event)])
    ensures ReplayAll(st, s) == ReplayAll(st, next)
    ensures next.connection == Connected && CachedEventsOnly(next.scheduled)
  {
    next := RunReplay(st, s);
  }

  lemma WritesOfRest(st: Settings, writes: seq<Write>, es: seq<Entry>)
    requires es != [] && CachedEventsOnly(es)
    ensures writes + [SingleWrite(st, es[0].event)] + SingleWrites(st, EventsOf(es[1..]))
         == writes + SingleWrites(st, EventsOf(es))
  {
    assert EventsOf(es) == [es[0].event] + EventsOf(es[1..]);
    SingleWritesCons(st, es[0].event, EventsOf(es[1..]));
  }

  lemma SingleWritesCons(st: Settings, e: Event, events: seq<Event>)
    ensures SingleWrites(st, [e] + events) == [SingleWrite(st, e)] + SingleWrites(st, events)
  {
  }

  /** Events cached before the connection came up are all written once the
      replays have run: each exactly once, in arrival order, and the cache
      itself is left as it was. */
  lemma CachedEventsDeliveredOnConnect(st: Settings, s: State)
    requires st.intervalMs == 0 && s.connection == Connecting && s.scheduled == []
    requires CachedEventsOnly(s.cache)
    ensures ReplayAll(st, ConnectSucceeded(s)).writes == s.writes + SingleWrites(st, EventsOf(s.cache))
    ensures ReplayAll(st, ConnectSucceeded(s)).cache == s.cache
  {
    var c := ConnectSucceeded(s);
    assert c.scheduled == s.cache;
    ReplayAllWritesInOrder(st, c);
  }

  lemma {:induction false} RunAppend(st: Settings, layout: RawEvent -> string, s: State, a: seq<Op>, b: seq<Op>)
    ensures Run(st, layout, s, a + b) == Run(st, layout, Run(st, layout, s, a), b)
    decreases |a|
  {
    if a == [] {
      assert a + b == b;
    } else {
      assert (a + b)[0] == a[0] && (a + b)[1..] == a[1..] + b;
      var next := Step(st, layout, s, a[0]);
      assert Run(st, layout, s, a + b) == Run(st, layout, next, a[1..] + b);
      assert Run(st, layout, s, a) == Run(st, layout, next, a[1..]);
      RunAppend(st, layout, next, a[1..], b);
    }
  }

  function LogOps(raws: seq<RawEvent>): (r: seq<Op>)
    ensures |r| == |raws|
    ensures forall i :: 0 <= i < |raws| ==> r[i] == Log(raws[i])
  {
    seq(|raws|, i requires 0 <= i < |raws| => Log(raws[i]))
  }

  function Replays(n: nat): (r: seq<Op>)
    ensures |r| == n
    ensures forall i :: 0 <= i < n ==> r[i] == Replay
  {
    seq(n, _ => Replay)
  }

  function PrepareAll(raws: seq<RawEvent>, layout: RawEvent -> string): (r: seq<Event>)
    ensures |r| == |raws|
    ensures forall i :: 0 <= i < |raws| ==> r[i] == Prepare(raws[i], layout)
  {
    seq(|raws|, i requires 0 <= i < |raws| => Prepare(raws[i], layout))
  }

  function CachedEvents(events: seq<Event>): (r: seq<Entry>)
    ensures |r| == |events|
    ensures forall i :: 0 <= i < |events| ==> r[i] == CachedEvent(events[i])
  {
    seq(|events|, i requires 0 <= i < |events| => CachedEvent(events[i]))
  }

  predicate NoneSelfEmittedRaw(raws: seq<RawEvent>) {
    forall i :: 0 <= i < |raws| ==> raws[i].category != Some(ModuleName)
  }

  /** With batching off and no connection, each logged event is appended to
      the cache, in arrival order, and nothing is written. */
  lemma {:induction false} LogWhileNotConnected(st: Settings, layout: RawEvent -> string, s: State, raws: seq<RawEvent>)
    requires st.intervalMs == 0 && s.connection != Connected && NoneSelfEmittedRaw(raws)
    ensures Run(st, layout, s, LogOps(raws))
         == s.(cache := s.cache + CachedEvents(PrepareAll(raws, layout)))
    decreases |raws|
  {
    if raws != [] {
      var next := LogOneNotConnected(st, layout, s, raws);
      LogWhileNotConnected(st, layout, next, raws[1..]);
      CachedEventsOfRest(s.cache, raws, layout);
    }
  }

  lemma LogOneNotConnected(st: Settings, layout: RawEvent -> string, s: State, raws: seq<RawEvent>)
    returns (next: State)
    requires st.intervalMs == 0 && s.connection != Connected && NoneSelfEmittedRaw(raws) && raws != []
    ensures next == s.(cache := s.cache + [CachedEvent(Prepare(raws[0], layout))])
    ensures Run(st, layout, s, LogOps(raws)) == Run(st, layout, next, LogOps(raws[1..]))
    ensures next.connection != Connected && NoneSelfEmittedRaw(raws[1..])
  {
    next := Step(st, layout, s, Log(raws[0]));
    assert LogOps(raws)[0] == Log(raws[0]);
    assert LogOps(raws)[1..] == LogOps(raws[1..]);
  }

  lemma CachedEventsOfRest(cache: seq<Entry>, raws: seq<RawEvent>, layout: RawEvent -> string)
    requires raws != []
    ensures cache + [CachedEvent(Prepare(raws[0], layout))] + CachedEvents(PrepareAll(raws[1..], layout))
         == cache + CachedEvents(PrepareAll(raws, layout))
  {
    var events := PrepareAll(raws, layout);
    assert events[0] == Prepare(raws[0], layout);
    assert events[1..] == PrepareAll(raws[1..], layout);
    CachedEventsSplit(cache, events);
  }

  lemma CachedEventsSplit(cache: seq<Entry>, events: seq<Event>)
    requires events != []
    ensures cache + [CachedEvent(events[0])] + CachedEvents(events[1..]) == cache + CachedEvents(events)
  {
    assert CachedEvents(events) == [CachedEvent(events[0])] + CachedEvents(events[1..]);
  }

  /** Running one replay per queued entry is running the whole queue. */
  lemma {:induction false} RunReplaysIsReplayAll(st: Settings, layout: RawEvent -> string, s: State)
    ensures Run(st, layout, s, Replays(|s.scheduled|)) == ReplayAll(st, s)
    decreases |s.scheduled|
  {
    if s.scheduled != [] {
      var next := RunReplay(st, s);
      assert Step(st, layout, s, Replay) == next;
      assert Replays(|s.scheduled|)[1..] == Replays(|next.scheduled|);
      RunReplaysIsReplayAll(st, layout, next);
    }
  }

  /** Events logged before the connection resolves, with batching off, are
      all written once the connect callback and its replays have run: each
      exactly once, in arrival order, with the configured options. */
  lemma EventsLoggedBeforeConnectAreWrittenInOrder(st: Settings, layout: RawEvent -> string, raws: seq<RawEvent>)
    requires st.intervalMs == 0 && NoneSelfEmittedRaw(raws)
    ensures Run(st, layout, Init(), LogOps(raws) + [ConnectOk] + Replays(|raws|)).writes
         == SingleWrites(st, PrepareAll(raws, layout))
  {
    var events := PrepareAll(raws, layout);
    var cached := LoggedBeforeConnect(st, layout, raws);
    RunAppend(st, layout, Init(), LogOps(raws) + [ConnectOk], Replays(|raws|));
    RunAppend(st, layout, Init(), LogOps(raws), [ConnectOk]);
    var c := ConnectSucceeded(cached);
    assert Run(st, layout, cached, [ConnectOk]) == c by {
      assert Step(st, layout, cached, ConnectOk) == c;
    }
    RunReplaysIsReplayAll(st, layout, c);
    CachedEventsDeliveredOnConnect(st, cached);
    assert EventsOf(cached.cache) == events;
  }

  /** The state after the logging calls that precede the connect callback. */
  lemma LoggedBeforeConnect(st: Settings, layout: RawEvent -> string, raws: seq<RawEvent>)
    returns (cached: State)
    requires st.intervalMs == 0 && NoneSelfEmittedRaw(raws)
    ensures cached == Init().(cache := CachedEvents(PrepareAll(raws, layout)))
    ensures Run(st, layout, Init(), LogOps(raws)) == cached
    ensures CachedEventsOnly(cached.cache) && |cached.cache| == |raws|
  {
    cached := Init().(cache := CachedEvents(PrepareAll(raws, layout)));
    LogWhileNotConnected(st, layout, Init(), raws);
    assert [] + cached.cache == cached.cache;
  }

  /** The replays are deferred with setImmediate, so an event logged after
      the connect callback but before the replays run is written first and
      overtakes the events cached earlier. */
  lemma LateEventOvertakesCachedOnes(st: Settings, layout: RawEvent -> string, a: RawEvent, b: RawEvent)
    requires st.intervalMs == 0
    requires a.category != Some(ModuleName) && b.category != Some(ModuleName)
    ensures Run(st, layout, Init(), [Log(a), ConnectOk, Log(b), Replay]).writes
         == [SingleWrite(st, Prepare(b, layout)), SingleWrite(st, Prepare(a, layout))]
  {
    var s1 := Step(st, layout, Init(), Log(a));
    assert s1 == Init().(cache := [CachedEvent(Prepare(a, layout))]);
    var s2 := Step(st, layout, s1, ConnectOk);
    assert s2 == s1.(connection := Connected, scheduled := s1.cache);
    var s3 := Step(st, layout, s2, Log(b));
    assert s3 == s2.(writes := [SingleWrite(st, Prepare(b, layout))]);
    var s4 := Step(st, layout, s3, Replay);
    assert s4.writes == [SingleWrite(st, Prepare(b, layout)), SingleWrite(st, Prepare(a, layout))];
    RunFour(st, layout, Init(), Log(a), ConnectOk, Log(b), Replay);
  }

  lemma RunFour(st: Settings, layout: RawEvent -> string, s: State, o1: Op, o2: Op, o3: Op, o4: Op)
    ensures Run(st, layout, s, [o1, o2, o3, o4])
         == Step(st, layout, Step(st, layout, Step(st, layout, Step(st, layout, s, o1), o2), o3), o4)
  {
    var s1 := Step(st, layout, s, o1);
    var s2 := Step(st, layout, s1, o2);
    var s3 := Step(st, layout, s2, o3);
    assert Run(st, layout, s3, [o4]) == Step(st, layout, s3, o4);
    assert [o3, o4][1..] == [o4];
    assert Run(st, layout, s2, [o3, o4]) == Run(st, layout, s3, [o4]);
    assert [o2, o3, o4][1..] == [o3, o4];
    assert Run(st, layout, s1, [o2, o3, o4]) == Run(st, layout, s2, [o3, o4]);
    assert [o1, o2, o3, o4][1..] == [o2, o3, o4];
  }

  /** In "safe" mode every insert a run issues asks for acknowledgement and
      the journal; with batching off each of them is a single document. */
  lemma SafeWritesAreJournaled(st: Settings, layout: RawEvent -> string, ops: seq<Op>, i: nat)
    requires st.write == Some("safe") && i < |Run(st, layout, Init(), ops).writes|
    ensures Acknowledged(Run(st, layout, Init(), ops).writes[i].options)
    ensures Run(st, layout, Init(), ops).writes[i].options.journal
    ensures st.intervalMs == 0 ==>
      !Run(st, layout, Init(), ops).writes[i].bulk && |Run(st, layout, Init(), ops).writes[i].docs| == 1
  {
    InitInv(st);
    RunInv(st, layout, Init(), ops);
  }

  predicate CachedBatchesOnly(es: seq<Entry>) {
    forall i :: 0 <= i < |es| ==> es[i].CachedBatch?
  }

  /** With batching on, every replay of a cached batch array faults and
      writes nothing: the records of a batch cached while disconnected are
      never delivered. */
  lemma {:induction false} ReplayedBatchesAreNotDelivered(st: Settings, s: State)
    requires CachedBatchesOnly(s.scheduled)
    ensures ReplayAll(st, s).writes == s.writes
    ensures ReplayAll(st, s).reports == s.reports + seq(|s.scheduled|, _ => ReplayFault)
    decreases |s.scheduled|
  {
    if s.scheduled != [] {
      var next := RunReplay(st, s);
      assert next.scheduled == s.scheduled[1..];
      ReplayedBatchesAreNotDelivered(st, next);
      assert s.reports + [ReplayFault] + seq(|s.scheduled| - 1, _ => ReplayFault)
          == s.reports + seq(|s.scheduled|, _ => ReplayFault);
    }
  }

  // ---------------------------------------------------------------------
  // Batching

  function InsertAll(st: Settings, s: State, events: seq<Event>): State
    decreases |events|
  {
    if events == [] then s else InsertAll(st, Insert(st, s, events[0]), events[1..])
  }

  function Records(st: Settings, events: seq<Event>): (r: seq<Record>)
    ensures |r| == |events|
    ensures forall i :: 0 <= i < |events| ==> r[i] == BuildRecord(events[i], st.metaData)
  {
    seq(|events|, i requires 0 <= i < |events| => BuildRecord(events[i], st.metaData))
  }

  predicate NoneSelfEmitted(events: seq<Event>) {
    forall i :: 0 <= i < |events| ==> !IsSelfEmitted(events[i])
  }

  /** With batching on, `insert` only appends records to the buffer, in
      arrival order; the cache and the store are untouched. */
  lemma {:induction false} InsertAllAppendsToBatch(st: Settings, s: State, events: seq<Event>)
    requires st.intervalMs > 0 && NoneSelfEmitted(events)
    ensures InsertAll(st, s, events) == s.(batch := s.batch + Records(st, events))
    decreases |events|
  {
    if events != [] {
      var next := s.(batch := s.batch + [BuildRecord(events[0], st.metaData)]);
      assert InsertAll(st, s, events) == InsertAll(st, next, events[1..]);
      InsertAllAppendsToBatch(st, next, events[1..]);
      RecordsOfRest(st, s.batch, events);
    }
  }

  lemma RecordsOfRest(st: Settings, batch: seq<Record>, events: seq<Event>)
    requires events != []
    ensures batch + [BuildRecord(events[0], st.metaData)] + Records(st, events[1..])
         == batch + Records(st, events)
  {
    var head := [BuildRecord(events[0], st.metaData)];
    var rest := Records(st, events[1..]);
    assert Records(st, events) == head + rest by {
      forall i | 0 <= i < |events|
        ensures Records(st, events)[i] == (head + rest)[i]
      {
        if i > 0 {
          assert (head + rest)[i] == rest[i - 1];
        }
      }
    }
    assert batch + head + rest == batch + (head + rest);
  }

  /** With batching on, each logged event's record is appended to the
      buffer, in arrival order, and nothing else changes. */
  lemma {:induction false} LogWhileBatching(st: Settings, layout: RawEvent -> string, s: State, raws: seq<RawEvent>)
    requires st.intervalMs > 0 && NoneSelfEmittedRaw(raws)
    ensures Run(st, layout, s, LogOps(raws))
         == s.(batch := s.batch + Records(st, PrepareAll(raws, layout)))
    decreases |raws|
  {
    if raws != [] {
      var next := LogOneBatching(st, layout, s, raws);
      LogWhileBatching(st, layout, next, raws[1..]);
      var events := PrepareAll(raws, layout);
      assert events[0] == Prepare(raws[0], layout);
      assert events[1..] == PrepareAll(raws[1..], layout);
      RecordsOfRest(st, s.batch, events);
    }
  }

  lemma LogOneBatching(st: Settings, layout: RawEvent -> string, s: State, raws: seq<RawEvent>)
    returns (next: State)
    requires st.intervalMs > 0 && NoneSelfEmittedRaw(raws) && raws != []
    ensures next == s.(batch := s.batch + [BuildRecord(Prepare(raws[0], layout), st.metaData)])
    ensures Run(st, layout, s, LogOps(raws)) == Run(st, layout, next, LogOps(raws[1..]))
    ensures NoneSelfEmittedRaw(raws[1..])
  {
    next := Step(st, layout, s, Log(raws[0]));
    assert LogOps(raws)[0] == Log(raws[0]);
    assert LogOps(raws)[1..] == LogOps(raws[1..]);
  }

  /** Events logged between an emptied buffer and the next tick, while
      connected, go out as one batch insert holding all of them, in arrival
      order, with the configured options. */
  lemma OneIntervalOneBatchWrite(st: Settings, layout: RawEvent -> string, s: State, raws: seq<RawEvent>)
    requires st.intervalMs > 0 && s.connection == Connected && s.batch == []
    requires raws != [] && NoneSelfEmittedRaw(raws)
    ensures Run(st, layout, s, LogOps(raws) + [Tick]).writes
         == s.writes + [Write(Records(st, PrepareAll(raws, layout)), GetOptions(st.write), true)]
  {
    var records := Records(st, PrepareAll(raws, layout));
    var filled := s.(batch := records);
    LogWhileBatching(st, layout, s, raws);
    assert [] + records == records;
    RunAppend(st, layout, s, LogOps(raws), [Tick]);
    assert Run(st, layout, filled, [Tick]) == BatchTick(st, filled) by {
      assert Step(st, layout, filled, Tick) == BatchTick(st, filled);
    }
  }

  /** The buffer is emptied by the insert callback, not when the insert is
      issued: a record that arrives in between is wiped without being written. */
  lemma RecordsArrivingDuringBatchWriteAreDropped(st: Settings, s: State, e: Event, failed: bool)
    requires st.intervalMs > 0 && s.connection == Connected && s.batch != [] && !IsSelfEmitted(e)
    ensures Insert(st, BatchTick(st, s), e).batch == s.batch + [BuildRecord(e, st.metaData)]
    ensures CompleteBatchWrite(Insert(st, BatchTick(st, s), e), failed).batch == []
    ensures CompleteBatchWrite(Insert(st, BatchTick(st, s), e), failed).writes
         == s.writes + [Write(s.batch, GetOptions(st.write), true)]
  {
  }

  /** A tick that comes before the previous batch insert has called back
      sends the same records again. */
  lemma TickBeforeCallbackRewritesBatch(st: Settings, s: State)
    requires st.intervalMs > 0 && s.connection == Connected && s.batch != []
    ensures BatchTick(st, BatchTick(st, s)).writes
         == s.writes + [Write(s.batch, GetOptions(st.write), true), Write(s.batch, GetOptions(st.write), true)]
  {
  }

  /** The self-emission check reads the event's `category`, the stored record
      the logger's: an event of the appender's own logger whose `category`
      property is not the module name is stored under that module name. */
  lemma OwnLoggerCategoryIsStored(st: Settings, s: State, e: Event)
    requires st.intervalMs == 0 && s.connection == Connected
    requires e.category != Some(ModuleName) && e.loggerCategory == ModuleName
    ensures Insert(st, s, e).writes == s.writes + [SingleWrite(st, e)]
    ensures SingleWrite(st, e).docs[0].category == ModuleName
  {
  }
}
