/** The winston transport object: its constructor and bootstrap, the queue
    of calls made before it is ready, and the `log`, `query`, `stream` and
    `close` methods (index.js:34-364). */
module Transport {
  import opened Wrappers
  import opened Js
  import opened Options
  import opened Records
  import opened Trace
  import opened Provisioning
  import opened Dispatch

  /** What the `destroy` installed on a stream did. */
  datatype DestroyResult =
    | AlreadyDestroyed      // returned null, nothing done
    | Destroyed
    | Threw(error: JsError) // `self._changes` was already null

  /** The stream `options.stream` supplies, if any. */
  function Given(options: Option<StreamOptions>): Option<LogStream>
  {
    if options.Some? then options.value.stream else None
  }

  function GivenSet(options: Option<StreamOptions>): set<LogStream>
  {
    if Given(options).Some? then {Given(options).value} else {}
  }

  class RethinkDB {
    const config: Config
    /** `this.r`, the driver `openConnection` chose. */
    const r: Driver
    var ready: bool
    /** `this._queue`; `None` once `delete self._queue` has run. */
    var queue: Option<seq<Call>>
    /** `this._changes`, the one changefeed every stream shares. */
    var changes: Option<Feed>
    /** Every request issued to the database, in order. */
    var requests: seq<Request>
    /** Every event emitted and callback invoked, in order. */
    var events: seq<Event>
    /** Every call that got past the `ready` check, in the order it ran. */
    ghost var served: seq<Call>
    /** Whether the bootstrap series has completed without error. */
    ghost var provisioned: bool
    /** Whether the bootstrap series has run; the constructor starts it once. */
    ghost var booted: bool
    /** Whether that series passed every step. */
    ghost var passed: bool

    /** At most one changefeed is open, and it is the one in `_changes`;
        before the bootstrap has completed nothing was read or written and
        every call is queued. A series that failed is never run again, so
        the transport then never becomes ready. */
    ghost predicate Valid()
      reads this
    {
      && OpenFeeds(requests) == (if changes.Some? then 1 else 0)
      && (ready ==> provisioned)
      && (provisioned ==> passed)
      && (passed ==> booted)
      && (booted && !provisioned ==> !ready)
      && (!provisioned ==> queue.Some? && changes.None? && NoDataRequests(requests) && served == [])
    }

    /** The synchronous part of `new RethinkDB(options)` once
        `openConnection` chose `driver`. */
    constructor (options: Option<TransportOptions>, hostname: string, driver: Driver)
      ensures Valid() && !provisioned && !booted && !passed
      ensures config == Configure(options, hostname) && r == driver
      ensures !ready && queue == Some([]) && changes.None?
      ensures requests == [] && events == []
    {
      config := Configure(options, hostname);
      r := driver;
      ready := false;
      queue := Some([]);
      changes := None;
      requests := [];
      events := [];
      served := [];
      provisioned := false;
      booted := false;
      passed := false;
    }

    /** `new RethinkDB(options)`: throws "Invalid options" when
        `options.options` has a shape `openConnection` refuses. */
    static method Create(options: Option<TransportOptions>, hostname: string)
      returns (result: Result<RethinkDB, ConfigError>)
      ensures OpenConnection(OptionsOrEmpty(options).connection).Failure? ==> result == Failure(InvalidOptions)
      ensures OpenConnection(OptionsOrEmpty(options).connection).Success? ==>
        && result.Success? && fresh(result.value)
        && result.value.Valid() && !result.value.provisioned && !result.value.booted && !result.value.passed
        && result.value.r == OpenConnection(OptionsOrEmpty(options).connection).value
        && result.value.config == Configure(options, hostname)
        && !result.value.ready && result.value.queue == Some([]) && result.value.changes.None?
        && result.value.requests == [] && result.value.events == []
    {
      var driver := OpenConnection(OptionsOrEmpty(options).connection);
      if driver.Failure? {
        return Failure(InvalidOptions);
      }
      var t := new RethinkDB(options, hostname, driver.value);
      return Success(t);
    }

    /** The bootstrap series: the provisioning steps, then `ready = true`
        and the queue replayed. `replies` answers the queued calls in order. */
    method Bootstrap(answers: Answers, replies: seq<DbAnswer>) returns (outcome: Outcome<BootError>)
      requires Valid() && !booted && |replies| == |queue.value|
      modifies this`ready, this`queue, this`changes, this`requests, this`events, this`served,
               this`provisioned, this`booted, this`passed, QueuedStreams(queue.value)`destroyable
      ensures Valid() && booted && passed == outcome.Pass?
      ensures outcome == ProvisionResult(answers)
      ensures ready <==> outcome.Pass?
      ensures provisioned <==> outcome.Pass?
      ensures outcome.Fail? ==>
        && requests == old(requests) + ProvisionRequests(config.db, config.table, answers)
        && queue == old(queue) && events == old(events) && changes == old(changes)
        && forall j | 0 <= j < |old(queue.value)| && old(queue.value)[j].StreamCall? ::
             old(queue.value)[j].stream.destroyable == old(queue.value[j].stream.destroyable)
      ensures outcome.Pass? ==>
        && queue.None?
        && served == old(queue.value)
        && requests == old(requests) + ProvisionRequests(config.db, config.table, answers)
                       + ReplayRequests(config, old(queue.value), None)
        && events == old(events) + ReplayEvents(config, old(queue.value), replies) + [Ready]
        && changes == FeedAfter(None, old(queue.value))
        && forall j | 0 <= j < |old(queue.value)| && old(queue.value)[j].StreamCall? ::
             old(queue.value)[j].stream.destroyable
             && old(queue.value)[j].stream.destroyed == old(queue.value[j].stream.destroyed)
    {
      outcome := Provision(answers);
      if outcome.Pass? {
        Start(replies);
      }
    }

    /** The end of a series that passed: `self.ready = true`, then the
        queue is drained. */
    method Start(replies: seq<DbAnswer>)
      requires Valid() && passed && !provisioned && |replies| == |queue.value|
      modifies this`ready, this`queue, this`changes, this`requests, this`events, this`served,
               this`provisioned, QueuedStreams(queue.value)`destroyable
      ensures Valid() && ready && provisioned && queue.None?
      ensures served == old(queue.value)
      ensures requests == old(requests) + ReplayRequests(config, old(queue.value), None)
      ensures events == old(events) + ReplayEvents(config, old(queue.value), replies) + [Ready]
      ensures changes == FeedAfter(None, old(queue.value))
      ensures forall j | 0 <= j < |old(queue.value)| && old(queue.value)[j].StreamCall? ::
        old(queue.value)[j].stream.destroyable
        && old(queue.value)[j].stream.destroyed == old(queue.value[j].stream.destroyed)
    {
      provisioned := true;
      ready := true;
      DrainQueue(replies);
    }

    /** The four steps of the series, each issued only after the previous
        one passed. The series runs once per transport. */
    method Provision(answers: Answers) returns (outcome: Outcome<BootError>)
      requires Valid() && !booted
      modifies this`requests, this`booted, this`passed
      ensures Valid() && booted && passed == outcome.Pass? && !provisioned
      ensures outcome == ProvisionResult(answers)
      ensures requests == old(requests) + ProvisionRequests(config.db, config.table, answers)
    {
      var issued := [DbCreate(config.db)];
      outcome := Pass;
      if answers.dbCreate.OtherError? {
        outcome := Fail(StepFailed(CreateDb, answers.dbCreate));
      } else {
        issued := issued + [TableCreate(config.db, config.table)];
        if answers.tableCreate.OtherError? {
          outcome := Fail(StepFailed(CreateTable, answers.tableCreate));
        } else {
          issued := issued + [IndexCreate(config.db, config.table, "timestamp")];
          if answers.indexCreate.OtherError? {
            outcome := Fail(StepFailed(CreateIndex, answers.indexCreate));
          } else if answers.indexCreate.Created? {
            issued := issued + [IndexWait(config.db, config.table)];
            if !answers.indexWait.Created? {
              outcome := Fail(StepFailed(WaitIndex, answers.indexWait));
            }
          }
        }
      }
      assert issued == ProvisionRequests(config.db, config.table, answers);
      NoDataAppend(requests, issued);
      QuietOpensNoFeed(issued);
      OpenFeedsAppend(requests, issued);
      requests := requests + issued;
      booted := true;
      passed := outcome.Pass?;
    }

    /** `drainQueue`: re-invoke every queued call in order, delete the queue
        and emit `ready`. */
    method DrainQueue(replies: seq<DbAnswer>)
      requires Valid() && ready && queue.Some? && |replies| == |queue.value|
      modifies this`queue, this`changes, this`requests, this`events, this`served, QueuedStreams(queue.value)`destroyable
      ensures Valid() && ready && queue.None?
      ensures served == old(served) + old(queue.value)
      ensures requests == old(requests) + ReplayRequests(config, old(queue.value), old(changes))
      ensures events == old(events) + ReplayEvents(config, old(queue.value), replies) + [Ready]
      ensures changes == FeedAfter(old(changes), old(queue.value))
      ensures forall j | 0 <= j < |old(queue.value)| && old(queue.value)[j].StreamCall? ::
        old(queue.value)[j].stream.destroyable
        && old(queue.value)[j].stream.destroyed == old(queue.value[j].stream.destroyed)
    {
      var pending := queue.value;
      var i := 0;
      while i < |pending|
        invariant 0 <= i <= |pending|
        invariant Replaying(pending, replies, i, old(served), old(requests), old(events), old(changes))
        invariant forall j {:trigger pending[j].stream.destroyable} | 0 <= j < i && pending[j].StreamCall? :: pending[j].stream.destroyable
      {
        ReplayOne(pending, replies, i, old(served), old(requests), old(events), old(changes));
        i := i + 1;
      }
      TakeAll(pending);
      TakeAll(replies);
      queue := None;
      events := events + [Ready];
    }

    /** The state after the first `i` queued calls were replayed. */
    ghost predicate Replaying(pending: seq<Call>, replies: seq<DbAnswer>, i: nat, served0: seq<Call>,
                              requests0: seq<Request>, events0: seq<Event>, changes0: Option<Feed>)
      reads this
    {
      && i <= |pending| == |replies|
      && Valid() && ready && queue == Some(pending)
      && served == served0 + pending[..i]
      && requests == requests0 + ReplayRequests(config, pending[..i], changes0)
      && events == events0 + ReplayEvents(config, pending[..i], replies[..i])
      && changes == FeedAfter(changes0, pending[..i])
    }

    /** Replays the `i`-th queued call. */
    method ReplayOne(pending: seq<Call>, replies: seq<DbAnswer>, i: nat, ghost served0: seq<Call>,
                     ghost requests0: seq<Request>, ghost events0: seq<Event>, ghost changes0: Option<Feed>)
      requires i < |pending| && Replaying(pending, replies, i, served0, requests0, events0, changes0)
      modifies this`queue, this`requests, this`events, this`changes, this`served,
               (if pending[i].StreamCall? then {pending[i].stream} else {})`destroyable
      requires forall j {:trigger pending[j].stream.destroyable} | 0 <= j < i && pending[j].StreamCall? :: pending[j].stream.destroyable
      ensures Valid() && ready && queue == Some(pending)
      ensures served == served0 + pending[..i + 1]
      ensures requests == requests0 + ReplayRequests(config, pending[..i + 1], changes0)
      ensures events == events0 + ReplayEvents(config, pending[..i + 1], replies[..i + 1])
      ensures changes == FeedAfter(changes0, pending[..i + 1])
      ensures forall j {:trigger pending[j].stream.destroyable} | 0 <= j < i + 1 && pending[j].StreamCall? :: pending[j].stream.destroyable
    {
      ReplayRequestsAdvance(config, pending, i, changes0, requests0, requests);
      ReplayEventsAdvance(config, pending, replies, i, events0, events);
      FeedAfterAdvance(pending, i, changes0);
      TakeSnoc(pending, i);
      AppendAssoc(served0, pending[..i], [pending[i]]);
      Apply(pending, i, replies[i]);
    }

    /** `self[item.method].apply(self, item.args)` for the `i`-th queued
        call, with the transport ready; `destroy` stays installed on the
        streams of the calls before it. */
    method Apply(pending: seq<Call>, i: nat, answer: DbAnswer)
      requires i < |pending| && Valid() && ready
      requires forall j {:trigger pending[j].stream.destroyable} | 0 <= j < i && pending[j].StreamCall? :: pending[j].stream.destroyable
      modifies this`queue, this`requests, this`events, this`changes, this`served,
               (if pending[i].StreamCall? then {pending[i].stream} else {})`destroyable
      ensures Valid() && ready && queue == old(queue)
      ensures served == old(served) + [pending[i]]
      ensures requests == old(requests) + ReadyRequests(config, pending[i], old(changes))
      ensures events == old(events) + ReadyEvents(config, pending[i], answer)
      ensures changes == FeedAfterCall(old(changes), pending[i])
      ensures forall j {:trigger pending[j].stream.destroyable} | 0 <= j < i + 1 && pending[j].StreamCall? :: pending[j].stream.destroyable
    {
      match pending[i] {
        case LogCall(level, message, meta, cb) =>
          var _ := Log(level, message, meta, cb, answer);
        case QueryCall(first, cb) =>
          var _ := Query(first, cb, answer);
        case StreamCall(s) =>
          var _, _ := Stream(Some(StreamOptions(Some(s))));
      }
    }

    /** `log(level, msg, meta, callback)`; `answer` is the database's answer
        to the insert, if one is issued. */
    method Log(level: string, message: string, meta: Meta, callback: Option<CallbackId>, answer: DbAnswer)
      returns (thrown: Option<JsError>)
      requires Valid()
      modifies this`queue, this`requests, this`events, this`served
      ensures Valid()
      ensures !old(ready) && old(queue).Some? ==>
        && thrown.None? && queue == Some(old(queue).value + [LogCall(level, message, meta, callback)])
        && requests == old(requests) && events == old(events) && served == old(served)
      ensures !old(ready) && old(queue).None? ==>
        && thrown == Some(TypeError) && queue.None?
        && requests == old(requests) && events == old(events) && served == old(served)
      ensures old(ready) ==>
        && thrown.None? && queue == old(queue)
        && served == old(served) + [LogCall(level, message, meta, callback)]
        && requests == old(requests) + ReadyRequests(config, LogCall(level, message, meta, callback), changes)
        && events == old(events) + ReadyEvents(config, LogCall(level, message, meta, callback), answer)
    {
      var call := LogCall(level, message, meta, callback);
      if !ready {
        if queue.None? {
          return Some(TypeError);
        }
        queue := Some(queue.value + [call]);
        return None;
      }
      LogReady(level, message, meta, callback, answer);
      thrown := None;
    }

    /** The part of `log` past the `ready` check: the record is inserted
        unless the transport is silent, then `logged` or `error` is emitted
        and the callback told. */
    method LogReady(level: string, message: string, meta: Meta, callback: Option<CallbackId>, answer: DbAnswer)
      requires Valid() && ready
      modifies this`requests, this`events, this`served
      ensures Valid()
      ensures served == old(served) + [LogCall(level, message, meta, callback)]
      ensures requests == old(requests) + ReadyRequests(config, LogCall(level, message, meta, callback), changes)
      ensures events == old(events) + ReadyEvents(config, LogCall(level, message, meta, callback), answer)
    {
      var call := LogCall(level, message, meta, callback);
      served := served + [call];
      if config.silent {
        assert ReadyRequests(config, call, changes) == [];
        assert ReadyEvents(config, call, answer) == Notify(callback, Acknowledged);
        events := events + Notify(callback, Acknowledged);
      } else {
        var record := RecordOf(config, level, message, meta);
        assert ReadyRequests(config, call, changes) == [Insert(config.db, config.table, record)];
        assert ReadyEvents(config, call, answer) == Reported(callback, answer);
        InsertRecord(record);
        events := events + Reported(callback, answer);
      }
    }

    /** The insert of a record that `log` issues when not silent. */
    method InsertRecord(record: Record)
      requires Valid() && ready
      modifies this`requests
      ensures Valid()
      ensures requests == old(requests) + [Insert(config.db, config.table, record)]
    {
      var insert := Insert(config.db, config.table, record);
      OpenFeedsSnoc(requests, insert);
      assert provisioned && OpenFeeds(requests + [insert]) == OpenFeeds(requests);
      requests := requests + [insert];
    }

    /** `query(options, callback)`; `answer` is the database's answer to the
        query, if one is issued. */
    method Query(first: QueryArg, callback: Option<CallbackId>, answer: DbAnswer)
      returns (thrown: Option<JsError>)
      requires Valid()
      modifies this`queue, this`requests, this`events, this`served
      ensures Valid()
      ensures !old(ready) && old(queue).Some? ==>
        && thrown.None? && queue == Some(old(queue).value + [QueryCall(first, callback)])
        && requests == old(requests) && events == old(events) && served == old(served)
      ensures !old(ready) && old(queue).None? ==>
        && thrown == Some(TypeError) && queue.None?
        && requests == old(requests) && events == old(events) && served == old(served)
      ensures old(ready) ==>
        && thrown.None? && queue == old(queue)
        && served == old(served) + [QueryCall(first, callback)]
        && requests == old(requests) + ReadyRequests(config, QueryCall(first, callback), changes)
        && events == old(events) + ReadyEvents(config, QueryCall(first, callback), answer)
    {
      var call := QueryCall(first, callback);
      if !ready {
        if queue.None? {
          return Some(TypeError);
        }
        queue := Some(queue.value + [call]);
        return None;
      }
      served := served + [call];
      thrown := None;
      var q := ShiftQueryArgs(first, callback);
      var fields := Projection(q.options);
      OpenFeedsSnoc(requests, Select(config.db, config.table, q.options, fields));
      requests := requests + [Select(config.db, config.table, q.options, fields)];
      match answer {
        case Succeeded(rows) =>
          events := events + Invoke(q.callback, Rows(rows));
        case Failed(e) =>
          events := events + [TransportError(e)] + Invoke(q.callback, Rejected(e));
      }
    }

    /** `stream(options)`: returns `options.stream` or a new stream. Before
        the transport is ready the call is queued with that very stream; once
        ready, `destroy` is installed and the stream is attached to the shared
        feed, which is opened only if there is none. */
    method Stream(options: Option<StreamOptions>) returns (stream: LogStream, thrown: Option<JsError>)
      requires Valid()
      modifies this`queue, this`requests, this`changes, this`served, GivenSet(options)`destroyable
      ensures Valid()
      ensures Given(options).Some? ==> stream == Given(options).value && stream.destroyed == old(stream.destroyed)
      ensures Given(options).None? ==> fresh(stream) && !stream.destroyed
      ensures !old(ready) && old(queue).Some? ==>
        && thrown.None? && queue == Some(old(queue).value + [StreamCall(stream)])
        && requests == old(requests) && changes == old(changes) && served == old(served)
        && (Given(options).None? ==> !stream.destroyable)
        && (Given(options).Some? ==> stream.destroyable == old(stream.destroyable))
      ensures !old(ready) && old(queue).None? ==>
        && thrown == Some(TypeError) && queue.None?
        && requests == old(requests) && changes == old(changes) && served == old(served)
      ensures old(ready) ==>
        && thrown.None? && queue == old(queue) && stream.destroyable
        && served == old(served) + [StreamCall(stream)]
        && requests == old(requests) + ReadyRequests(config, StreamCall(stream), old(changes))
        && changes == Some(Attach(old(changes), stream))
    {
      var given := Given(options);
      if given.Some? {
        stream := given.value;
      } else {
        stream := new LogStream();
      }
      if !ready {
        if queue.None? {
          return stream, Some(TypeError);
        }
        queue := Some(queue.value + [StreamCall(stream)]);
        return stream, None;
      }
      StreamReady(stream);
      thrown := None;
    }

    /** The part of `stream` past the `ready` check: `destroy` is installed
        and the stream attached to the shared feed, which is opened only if
        there is none. */
    method StreamReady(stream: LogStream)
      requires Valid() && ready
      modifies this`requests, this`changes, this`served, stream`destroyable
      ensures Valid() && stream.destroyable
      ensures served == old(served) + [StreamCall(stream)]
      ensures requests == old(requests) + ReadyRequests(config, StreamCall(stream), old(changes))
      ensures changes == Some(Attach(old(changes), stream))
    {
      served := served + [StreamCall(stream)];
      stream.destroyable := true;
      if changes.None? {
        OpenFeedsSnoc(requests, Changes(config.db, config.table));
        requests := requests + [Changes(config.db, config.table)];
      }
      changes := Some(Attach(changes, stream));
    }

    /** The `destroy` installed on a stream: idempotent; the first call marks
        the stream destroyed, ends it, closes the shared feed and forgets it. */
    method Destroy(stream: LogStream) returns (result: DestroyResult)
      requires Valid() && stream.destroyable
      modifies stream`destroyed, this`changes, this`requests, this`events
      ensures Valid() && stream.destroyed
      ensures old(stream.destroyed) ==>
        && result == AlreadyDestroyed
        && changes == old(changes) && requests == old(requests) && events == old(events)
      ensures !old(stream.destroyed) ==>
        && events == old(events) + [Ended(stream)] && changes.None?
        && (old(changes).Some? ==> result == Destroyed && requests == old(requests) + [CloseFeed])
        && (old(changes).None? ==> result == Threw(TypeError) && requests == old(requests))
    {
      if stream.destroyed {
        return AlreadyDestroyed;
      }
      stream.destroyed := true;
      events := events + [Ended(stream)];
      if changes.None? {
        return Threw(TypeError);
      }
      OpenFeedsSnoc(requests, CloseFeed);
      requests := requests + [CloseFeed];
      changes := None;
      result := Destroyed;
    }

    /** The shared feed emits an event; every attached stream re-emits it. */
    method FeedEmit(ev: FeedEvent)
      requires Valid() && changes.Some?
      modifies this`events
      ensures events == old(events) + Forwarded(changes.value.listeners, ev)
    {
      events := events + Forwarded(changes.value.listeners, ev);
    }

    /** `close()`: no longer ready; close the live feed's cursor, if any,
        then drain the connection pool once. */
    method Close()
      requires Valid()
      modifies this`ready, this`requests
      ensures Valid() && !ready
      ensures requests == old(requests) + CloseRequests(changes.Some?)
    {
      ready := false;
      if changes.Some? {
        OpenFeedsSnoc(requests, CloseCursor);
        requests := requests + [CloseCursor];
      }
      OpenFeedsSnoc(requests, DrainPool);
      if !provisioned {
        NoDataAppend(requests, [DrainPool]);
      }
      requests := requests + [DrainPool];
    }
  }
}
