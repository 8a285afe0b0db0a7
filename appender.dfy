/**
 * The closure state of `mongodbAppender` in lib/index.js as an object:
 * `collection` (here the connection state), `cache`, `batchLogEvent`, and
 * the functions that update them in place. Each method changes the fields
 * exactly as the matching function of module Pipeline changes the state.
 */
module Appender {
  import opened Wrappers
  import opened Sanitizer
  import opened Configuration
  import opened Pipeline

  /** The `batchLogEvent` array. It is a reference: `cache` can hold it. */
  class RecordBuffer {
    var items: seq<Record>

    constructor ()
      ensures items == []
    {
      items := [];
    }
  }

  /** An entry of `cache`: a cloned event, or a batch array by reference. */
  datatype Pending = PendingEvent(event: Event) | PendingBatch(buffer: RecordBuffer)

  function EntryOf(p: Pending): Entry {
    match p
    case PendingEvent(e) => CachedEvent(e)
    case PendingBatch(_) => CachedBatch
  }

  function Entries(ps: seq<Pending>): (r: seq<Entry>)
    ensures |r| == |ps|
    ensures forall i :: 0 <= i < |ps| ==> r[i] == EntryOf(ps[i])
  {
    seq(|ps|, i requires 0 <= i < |ps| => EntryOf(ps[i]))
  }

  lemma EntriesAppend(ps: seq<Pending>, p: Pending)
    ensures Entries(ps + [p]) == Entries(ps) + [EntryOf(p)]
  {
  }

  lemma EntriesConcat(ps: seq<Pending>, qs: seq<Pending>)
    ensures Entries(ps + qs) == Entries(ps) + Entries(qs)
  {
  }

  lemma EntriesTail(ps: seq<Pending>)
    requires ps != []
    ensures Entries(ps[1..]) == Entries(ps)[1..]
  {
  }

  class MongoAppender {
    const settings: Settings
    const batch: RecordBuffer  // batchLogEvent
    var connection: Connection  // whether `collection` is set
    var cache: seq<Pending>
    var inFlight: nat  // batch inserts whose callback has not run yet
    var scheduled: seq<Pending>  // replays queued with setImmediate
    ghost var writes: seq<Write>  // every collection.insert issued, in order
    ghost var reports: seq<Report>  // console.error / logger.error reports

    /** Every batch array in `cache` (and in the replay queue) is the live
        buffer itself, never a copy. */
    ghost predicate Valid()
      reads this
    {
      && (forall i :: 0 <= i < |cache| && cache[i].PendingBatch? ==> cache[i].buffer == batch)
      && (forall i :: 0 <= i < |scheduled| && scheduled[i].PendingBatch? ==> scheduled[i].buffer == batch)
    }

    ghost function Abstract(): State
      reads this, batch
    {
      State(connection, Entries(cache), batch.items, inFlight, Entries(scheduled), writes, reports)
    }

    /** The closure state when `mongodbAppender` returns: not connected,
        nothing cached, an empty buffer. */
    constructor (settings: Settings)
      ensures Valid() && fresh(batch)
      ensures this.settings == settings && Abstract() == Init()
    {
      this.settings := settings;
      batch := new RecordBuffer();
      connection := Connecting;
      cache := [];
      inFlight := 0;
      scheduled := [];
      writes := [];
      reports := [];
    }

    /** `insert`. */
    method Insert(e: Event)
      requires Valid()
      modifies this, batch
      ensures Valid() && unchanged(this`connection)
      ensures Abstract() == Pipeline.Insert(settings, old(Abstract()), e)
    {
      var options := GetOptions(settings.write);
      if e.category == Some(ModuleName) {
        return;
      }
      var record := BuildRecord(e, settings.metaData);
      if settings.intervalMs > 0 {
        batch.items := batch.items + [record];
        return;
      }
      if connection == Connected {
        writes := writes + [Write([record], options, false)];
      } else {
        EntriesAppend(cache, PendingEvent(e));
        cache := cache + [PendingEvent(e)];
      }
    }

    /** `batchInsert`, run by the interval timer. When not connected the
        buffer array itself goes into `cache` and is then emptied, so the
        cached entry is the same, now empty, array. */
    method BatchInsert()
      requires Valid()
      modifies this, batch
      ensures Valid()
      ensures Abstract() == BatchTick(settings, old(Abstract()))
      ensures old(batch.items) != [] && old(connection) != Connected ==>
        cache == old(cache) + [PendingBatch(batch)] && batch.items == []
    {
      if |batch.items| > 0 {
        if connection == Connected {
          var options := GetOptions(settings.write);
          writes := writes + [Write(batch.items, options, true)];
          inFlight := inFlight + 1;
        } else {
          EntriesAppend(cache, PendingBatch(batch));
          cache := cache + [PendingBatch(batch)];
          batch.items := [];
        }
      }
    }

    /** The callback of a batch insert: report a failure, then splice the
        whole buffer away. */
    method CompleteBatchWrite(failed: bool)
      requires Valid() && inFlight > 0
      modifies this, batch
      ensures Valid()
      ensures Abstract() == Pipeline.CompleteBatchWrite(old(Abstract()), failed)
    {
      if failed {
        reports := reports + [BatchWriteError];
      }
      batch.items := [];
      inFlight := inFlight - 1;
    }

    /** The connect callback on success: set `collection`, then queue a
        replay of every cache entry, in cache order (`cache.forEach` with
        `setImmediate`). */
    method ConnectSucceeded()
      requires Valid() && connection == Connecting
      modifies this
      ensures Valid()
      ensures Abstract() == Pipeline.ConnectSucceeded(old(Abstract()))
    {
      connection := Connected;
      var i := 0;
      while i < |cache|
        invariant 0 <= i <= |cache|
        invariant scheduled == old(scheduled) + cache[..i]
        invariant cache == old(cache) && connection == Connected && inFlight == old(inFlight)
        invariant writes == old(writes) && reports == old(reports)
        invariant Valid()
      {
        scheduled := scheduled + [cache[i]];
        i := i + 1;
      }
      assert cache[..|cache|] == cache;
      EntriesConcat(old(scheduled), cache);
    }

    /** The connect callback on failure: report it and keep `collection` unset. */
    method ConnectFailed()
      requires Valid() && connection == Connecting
      modifies this
      ensures Valid()
      ensures Abstract() == Pipeline.ConnectFailed(old(Abstract()))
    {
      reports := reports + [ConnectError];
      connection := Failed;
    }

    /** One queued replay: `insert` of the cached entry. A batch array has no
        `logger`, so `insert` throws on it and nothing is written. */
    method RunReplay()
      requires Valid() && scheduled != []
      modifies this, batch
      ensures Valid()
      ensures Abstract() == Pipeline.RunReplay(settings, old(Abstract()))
    {
      var entry := scheduled[0];
      EntriesTail(scheduled);
      scheduled := scheduled[1..];
      match entry
      case PendingEvent(e) =>
        Insert(e);
      case PendingBatch(_) =>
        reports := reports + [ReplayFault];
    }

    /** The function `mongodbAppender` returns: unwrap the payload, sanitise
        it, then `insert` the cloned event. */
    method Handle(raw: RawEvent, layout: RawEvent -> string)
      requires Valid()
      modifies this, batch
      ensures Valid()
      ensures Abstract() == Pipeline.Handle(settings, layout, old(Abstract()), raw)
    {
      var data := Unwrap(raw, layout);
      data := Sanitize(data);
      Insert(Event(raw.startTime, raw.category, raw.loggerCategory, raw.level, data));
    }
  }
}
