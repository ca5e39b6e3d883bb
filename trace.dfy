/** What the transport asks of the database and what it emits, recorded as
    traces, and the stream objects it hands out (index.js:278-331). */
module Trace {
  import opened Wrappers
  import opened Js
  import opened Records

  /** A caller's callback, identified by an opaque token. */
  type CallbackId = nat

  /** A database error, opaque. */
  type DbError = nat

  /** The stream `stream` returns. Only the state the transport itself puts
      on it is modelled; what it emits goes to the event trace. */
  class LogStream {
    /** The flag the installed `destroy` sets. */
    var destroyed: bool
    /** Whether the transport has installed `destroy` on this stream. */
    var destroyable: bool

    /** `new Stream` */
    constructor ()
      ensures !destroyed && !destroyable
    {
      destroyed := false;
      destroyable := false;
    }
  }

  /** The options object of `stream`; `stream` is `options.stream`. */
  datatype StreamOptions = StreamOptions(stream: Option<LogStream>)

  /** The one changefeed (`this._changes`) and the streams whose listeners
      are attached to it, in attachment order. */
  datatype Feed = Feed(listeners: seq<LogStream>)

  /** The listeners of the current feed, none if there is no feed. */
  function Listeners(feed: Option<Feed>): seq<LogStream>
  {
    if feed.Some? then feed.value.listeners else []
  }

  /** `_changes.on(...)` for one more stream, creating the feed if needed. */
  function Attach(feed: Option<Feed>, s: LogStream): (f: Feed)
    ensures |f.listeners| == |Listeners(feed)| + 1
    ensures f.listeners[..|Listeners(feed)|] == Listeners(feed)
    ensures f.listeners[|Listeners(feed)|] == s
  {
    Feed(Listeners(feed) + [s])
  }

  /** A request issued to the database through the driver. */
  datatype Request =
    | DbCreate(db: string)
    | TableCreate(db: string, table: string)
    | IndexCreate(db: string, table: string, field: string)
    | IndexWait(db: string, table: string)
    | Insert(db: string, table: string, record: Record)
    | Select(db: string, table: string, options: Option<QueryOptions>, fields: seq<string>)
    | Changes(db: string, table: string)   // open the changefeed of inserts
    | CloseFeed                            // `_changes.close()`
    | CloseCursor                          // `_changes._cursor.close()`
    | DrainPool                            // `r.getPoolMaster().drain()`
  {
    /** A request that reads or writes log records. */
    predicate IsData()
    {
      Insert? || Select? || Changes?
    }
  }

  /** No request in the trace reads or writes log records. */
  predicate NoDataRequests(reqs: seq<Request>)
  {
    forall i | 0 <= i < |reqs| :: !reqs[i].IsData()
  }

  lemma NoDataAppend(a: seq<Request>, b: seq<Request>)
    requires NoDataRequests(a) && NoDataRequests(b)
    ensures NoDataRequests(a + b)
  {
    forall i | 0 <= i < |a + b|
      ensures !(a + b)[i].IsData()
    {
      if i >= |a| {
        assert (a + b)[i] == b[i - |a|];
      }
    }
  }

  /** How many changefeeds a trace leaves open: feeds opened minus feeds
      closed. */
  function OpenFeeds(reqs: seq<Request>): int
  {
    if reqs == [] then 0
    else
      var last := reqs[|reqs| - 1];
      OpenFeeds(reqs[..|reqs| - 1]) + (if last.Changes? then 1 else if last.CloseFeed? then -1 else 0)
  }

  lemma {:induction false} OpenFeedsAppend(a: seq<Request>, b: seq<Request>)
    ensures OpenFeeds(a + b) == OpenFeeds(a) + OpenFeeds(b)
  {
    if b != [] {
      var n := |b| - 1;
      assert (a + b)[..|a + b| - 1] == a + b[..n];
      OpenFeedsAppend(a, b[..n]);
    } else {
      assert a + b == a;
    }
  }

  /** One more request changes the count of open feeds by its own effect. */
  lemma OpenFeedsSnoc(a: seq<Request>, q: Request)
    ensures OpenFeeds(a + [q]) == OpenFeeds(a) + (if q.Changes? then 1 else if q.CloseFeed? then -1 else 0)
  {
    assert (a + [q])[..|a|] == a;
  }

  /** Requests that neither open nor close a feed leave none open. */
  lemma {:induction false} QuietOpensNoFeed(reqs: seq<Request>)
    requires forall i | 0 <= i < |reqs| :: !reqs[i].Changes? && !reqs[i].CloseFeed?
    ensures OpenFeeds(reqs) == 0
  {
    if reqs != [] {
      QuietOpensNoFeed(reqs[..|reqs| - 1]);
    }
  }

  /** The database's answer to an insert or a query. */
  datatype DbAnswer = Succeeded(rows: seq<Record>) | Failed(error: DbError)

  /** The arguments a callback is invoked with. */
  datatype Reply =
    | Acknowledged             // `callback(null, true)`
    | Rows(rows: seq<Record>)  // `callback(null, results)`
    | Rejected(error: DbError) // `callback(error, null)`

  /** An event the changefeed emits. Only inserts reach it: the feed is
      filtered on `old_val` being null by the database. */
  datatype FeedEvent =
    | Data(newVal: Record)
    | FeedError(error: DbError)
    | FeedEnded
    | FeedClosed

  /** An event a stream emits. */
  datatype StreamEvent =
    | LogEvent(record: Record)
    | ErrorEvent(error: DbError)
    | EndEvent
    | CloseEvent

  /** Everything the transport makes observable besides requests. */
  datatype Event =
    | Logged                                   // `emit('logged')`
    | TransportError(error: DbError)           // `emit('error', error)`
    | Ready                                    // `emit('ready')`
    | Replied(callback: CallbackId, reply: Reply)
    | Unhandled(exception: JsError)            // thrown inside a promise handler
    | Emitted(stream: LogStream, event: StreamEvent)
    | Ended(stream: LogStream)                 // `stream.end()`
}
