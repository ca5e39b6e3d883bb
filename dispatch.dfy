/** What one call of `log`, `query` or `stream` does once the transport is
    ready, what replaying the queue does, how the shared feed forwards its
    events, and what `close` asks of the database (index.js:60-73, 175-364). */
module Dispatch {
  import opened Wrappers
  import opened Js
  import opened Options
  import opened Records
  import opened Trace

  /** A call as the queue keeps it: `{ method, args }`. */
  datatype Call =
    | LogCall(level: string, message: string, meta: Meta, callback: Option<CallbackId>)
    | QueryCall(first: QueryArg, callback: Option<CallbackId>)
    | StreamCall(stream: LogStream)

  /** The streams the calls carry. */
  function QueuedStreams(calls: seq<Call>): set<LogStream>
  {
    set c | c in calls && c.StreamCall? :: c.stream
  }

  /** `if (callback) { callback(...) }`: a guarded callback. */
  function Notify(cb: Option<CallbackId>, reply: Reply): seq<Event>
  {
    if cb.Some? then [Replied(cb.value, reply)] else []
  }

  /** `callback(...)` with no guard: a missing callback throws inside the
      promise handler. */
  function Invoke(cb: Option<CallbackId>, reply: Reply): seq<Event>
  {
    if cb.Some? then [Replied(cb.value, reply)] else [Unhandled(TypeError)]
  }

  /** What a non-silent `log` emits once the insert settles: `logged` or
      `error`, then the guarded callback. */
  function Reported(cb: Option<CallbackId>, answer: DbAnswer): seq<Event>
  {
    if answer.Succeeded? then [Logged] + Notify(cb, Acknowledged)
    else [TransportError(answer.error)] + Notify(cb, Rejected(answer.error))
  }

  /** The requests a call issues when it runs with the transport ready;
      `feed` is `this._changes` when it runs. */
  function ReadyRequests(c: Config, call: Call, feed: Option<Feed>): (reqs: seq<Request>)
  {
    match call
    case LogCall(level, message, meta, _) =>
      if c.silent then [] else [Insert(c.db, c.table, RecordOf(c, level, message, meta))]
    case QueryCall(first, second) =>
      var q := ShiftQueryArgs(first, second);
      [Select(c.db, c.table, q.options, Projection(q.options))]
    case StreamCall(_) =>
      if feed.None? then [Changes(c.db, c.table)] else []
  }

  /** The events a call causes when it runs with the transport ready, given
      the database's answer to its request. */
  function ReadyEvents(c: Config, call: Call, answer: DbAnswer): (evs: seq<Event>)
  {
    match call
    case LogCall(_, _, _, cb) =>
      if c.silent then Notify(cb, Acknowledged)
      else Reported(cb, answer)
    case QueryCall(first, second) =>
      var q := ShiftQueryArgs(first, second);
      if answer.Succeeded? then Invoke(q.callback, Rows(answer.rows))
      else [TransportError(answer.error)] + Invoke(q.callback, Rejected(answer.error))
    case StreamCall(_) => []
  }

  /** The requests of one call once the transport is ready: a log call
      inserts its record unless the transport is silent, a query issues one
      select over the projected fields, a stream call opens the feed only
      when there is none. Nothing else is asked of the database. */
  lemma ReadyCallRequests(c: Config, call: Call, feed: Option<Feed>)
    ensures var reqs := ReadyRequests(c, call, feed);
      && |reqs| <= 1
      && (forall i | 0 <= i < |reqs| :: reqs[i].IsData())
      && (call.LogCall? ==> reqs == if c.silent then [] else [Insert(c.db, c.table, RecordOf(c, call.level, call.message, call.meta))])
      && (call.QueryCall? ==> |reqs| == 1 && reqs[0].Select?
                              && reqs[0].fields == Projection(ShiftQueryArgs(call.first, call.callback).options))
      && (call.StreamCall? ==> reqs == if feed.None? then [Changes(c.db, c.table)] else [])
  {
  }

  /** The callback of a ready log call always hears back: of success when
      the transport is silent or the insert succeeded, otherwise of the
      database's error; a failed query is reported as an `error` event first. */
  lemma ReadyCallReplies(c: Config, call: Call, answer: DbAnswer)
    ensures var evs := ReadyEvents(c, call, answer);
      && (call.LogCall? && c.silent ==> evs == Notify(call.callback, Acknowledged))
      && (call.LogCall? && call.callback.Some? ==>
            Replied(call.callback.value, if c.silent || answer.Succeeded? then Acknowledged else Rejected(answer.error)) in evs)
      && (call.LogCall? && call.callback.None? ==> forall e | e in evs :: !e.Replied?)
      && (call.QueryCall? && answer.Failed? ==> evs[0] == TransportError(answer.error))
      && (call.StreamCall? ==> evs == [])
  {
  }

  /** `query(cb)` is served exactly as `query({}, cb)`: the same select and
      the same events, whatever second argument follows the callback. */
  lemma QueryCallbackFirstLikeEmptyOptions(c: Config, k: CallbackId, second: Option<CallbackId>,
                                           feed: Option<Feed>, answer: DbAnswer)
    ensures ReadyRequests(c, QueryCall(QueryFunction(k), second), feed)
         == ReadyRequests(c, QueryCall(QueryObject(None), Some(k)), feed)
    ensures ReadyEvents(c, QueryCall(QueryFunction(k), second), answer)
         == ReadyEvents(c, QueryCall(QueryObject(None), Some(k)), answer)
  {
  }

  /** The select of a ready query projects onto the caller's `fields` when
      there are any, even an empty list; without them it keeps every field a
      logged record can hold, and the database's `id`. */
  lemma QueryProjectsFields(c: Config, first: QueryArg, second: Option<CallbackId>, feed: Option<Feed>,
                            level: string, message: string, meta: Meta)
    ensures var reqs := ReadyRequests(c, QueryCall(first, second), feed);
      && |reqs| == 1 && reqs[0].Select?
      && (first.QueryObject? && first.options.Some? && first.options.value.fields.Some? ==>
            reqs[0].fields == first.options.value.fields.value)
      && (first.QueryFunction? || first.options.None? || first.options.value.fields.None? ==>
            && "id" in reqs[0].fields
            && forall f | f in RecordOf(c, level, message, meta) :: f in reqs[0].fields)
  {
  }

  /** `this._changes` after a call ran with the transport ready. */
  function FeedAfterCall(feed: Option<Feed>, call: Call): Option<Feed>
  {
    if call.StreamCall? then Some(Attach(feed, call.stream)) else feed
  }

  /** The streams of the stream calls, in order. */
  function StreamsOf(calls: seq<Call>): seq<LogStream>
  {
    if calls == [] then []
    else
      var last := calls[|calls| - 1];
      StreamsOf(calls[..|calls| - 1]) + if last.StreamCall? then [last.stream] else []
  }

  /** `this._changes` after the calls ran in order with the transport ready. */
  function FeedAfter(feed: Option<Feed>, calls: seq<Call>): (f: Option<Feed>)
    ensures f.Some? <==> feed.Some? || StreamsOf(calls) != []
    ensures f.Some? ==> f.value.listeners == Listeners(feed) + StreamsOf(calls)
  {
    if calls == [] then feed
    else FeedAfterCall(FeedAfter(feed, calls[..|calls| - 1]), calls[|calls| - 1])
  }

  /** The requests the calls issue when replayed in order. */
  function ReplayRequests(c: Config, calls: seq<Call>, feed: Option<Feed>): seq<Request>
  {
    if calls == [] then []
    else
      var init := calls[..|calls| - 1];
      ReplayRequests(c, init, feed) + ReadyRequests(c, calls[|calls| - 1], FeedAfter(feed, init))
  }

  /** The events the calls cause when replayed in order, the i-th call
      receiving the i-th answer. */
  function ReplayEvents(c: Config, calls: seq<Call>, answers: seq<DbAnswer>): seq<Event>
    requires |answers| == |calls|
  {
    if calls == [] then []
    else
      var n := |calls| - 1;
      ReplayEvents(c, calls[..n], answers[..n]) + ReadyEvents(c, calls[n], answers[n])
  }

  /** One more call of a replay: a trace that holds the requests of the
      first `i` calls, extended by those of call `i` with the feed they
      left, holds the requests of the first `i + 1`. */
  lemma ReplayRequestsAdvance(c: Config, calls: seq<Call>, i: nat, feed: Option<Feed>,
                              reqs0: seq<Request>, reqs: seq<Request>)
    requires i < |calls|
    requires reqs == reqs0 + ReplayRequests(c, calls[..i], feed)
    ensures reqs + ReadyRequests(c, calls[i], FeedAfter(feed, calls[..i]))
         == reqs0 + ReplayRequests(c, calls[..i + 1], feed)
  {
    assert calls[..i + 1][..i] == calls[..i];
    AppendAssoc(reqs0, ReplayRequests(c, calls[..i], feed), ReadyRequests(c, calls[i], FeedAfter(feed, calls[..i])));
  }

  /** The same for the events, call `i` receiving answer `i`. */
  lemma ReplayEventsAdvance(c: Config, calls: seq<Call>, answers: seq<DbAnswer>, i: nat,
                            evs0: seq<Event>, evs: seq<Event>)
    requires i < |calls| == |answers|
    requires evs == evs0 + ReplayEvents(c, calls[..i], answers[..i])
    ensures evs + ReadyEvents(c, calls[i], answers[i]) == evs0 + ReplayEvents(c, calls[..i + 1], answers[..i + 1])
  {
    assert calls[..i + 1][..i] == calls[..i];
    assert answers[..i + 1][..i] == answers[..i];
    AppendAssoc(evs0, ReplayEvents(c, calls[..i], answers[..i]), ReadyEvents(c, calls[i], answers[i]));
  }

  /** The same for the shared feed. */
  lemma FeedAfterAdvance(calls: seq<Call>, i: nat, feed: Option<Feed>)
    requires i < |calls|
    ensures FeedAfterCall(FeedAfter(feed, calls[..i]), calls[i]) == FeedAfter(feed, calls[..i + 1])
  {
    assert calls[..i + 1][..i] == calls[..i];
  }

  lemma DropAppend<T>(a: seq<T>, b: seq<T>)
    requires a != []
    ensures (a + b)[1..] == a[1..] + b
  {
  }

  lemma TakeAll<T>(s: seq<T>)
    ensures s[..|s|] == s
  {
  }

  lemma TakeSnoc<T>(s: seq<T>, i: nat)
    requires i < |s|
    ensures s[..i + 1] == s[..i] + [s[i]]
  {
  }

  lemma AppendAssoc<T>(a: seq<T>, b: seq<T>, d: seq<T>)
    ensures (a + b) + d == a + (b + d)
  {
  }

  /** Only the inserts of a request trace, in order. */
  function Inserts(reqs: seq<Request>): seq<Request>
  {
    if reqs == [] then [] else (if reqs[0].Insert? then [reqs[0]] else []) + Inserts(reqs[1..])
  }

  /** One insert per log call, in order: the record each log call writes. */
  function LogInserts(c: Config, calls: seq<Call>): seq<Request>
  {
    if calls == [] then []
    else
      var last := calls[|calls| - 1];
      LogInserts(c, calls[..|calls| - 1])
      + if last.LogCall? then [Insert(c.db, c.table, RecordOf(c, last.level, last.message, last.meta))] else []
  }

  lemma {:induction false} InsertsAppend(a: seq<Request>, b: seq<Request>)
    ensures Inserts(a + b) == Inserts(a) + Inserts(b)
  {
    if a == [] {
      assert a + b == b;
    } else {
      DropAppend(a, b);
      InsertsAppend(a[1..], b);
      AppendAssoc(if a[0].Insert? then [a[0]] else [], Inserts(a[1..]), Inserts(b));
    }
  }

  /** Replaying the queue writes exactly the queued log records, in the
      order they were queued, and none when the transport is silent. */
  lemma {:induction false} ReplayInsertsFollowLogCalls(c: Config, calls: seq<Call>, feed: Option<Feed>)
    ensures Inserts(ReplayRequests(c, calls, feed)) == if c.silent then [] else LogInserts(c, calls)
  {
    if calls != [] {
      var init := calls[..|calls| - 1];
      var call := calls[|calls| - 1];
      var last := ReadyRequests(c, call, FeedAfter(feed, init));
      ReplayInsertsFollowLogCalls(c, init, feed);
      InsertsAppend(ReplayRequests(c, init, feed), last);
      ReadyInserts(c, call, FeedAfter(feed, init));
    }
  }

  /** The inserts of one ready call: its record, if it is a log call and the
      transport is not silent. */
  lemma ReadyInserts(c: Config, call: Call, feed: Option<Feed>)
    ensures Inserts(ReadyRequests(c, call, feed))
         == if !c.silent && call.LogCall? then [Insert(c.db, c.table, RecordOf(c, call.level, call.message, call.meta))] else []
  {
    var reqs := ReadyRequests(c, call, feed);
    if reqs != [] {
      assert reqs[1..] == [];
    }
  }

  /** Replaying the queue opens the changefeed at most once: once if no feed
      existed and some stream call was queued, otherwise never. */
  lemma {:induction false} ReplayOpensFeedAtMostOnce(c: Config, calls: seq<Call>, feed: Option<Feed>)
    ensures multiset(ReplayRequests(c, calls, feed))[Changes(c.db, c.table)]
         == if feed.None? && StreamsOf(calls) != [] then 1 else 0
  {
    if calls != [] {
      var init := calls[..|calls| - 1];
      ReplayOpensFeedAtMostOnce(c, init, feed);
    }
  }

  /** With the transport silent, replaying queued log calls issues no
      request and every callback they carry is told of success. */
  lemma {:induction false} SilentReplayOnlyAcknowledges(c: Config, calls: seq<Call>, answers: seq<DbAnswer>, feed: Option<Feed>)
    requires c.silent && |answers| == |calls|
    requires forall i | 0 <= i < |calls| :: calls[i].LogCall?
    ensures ReplayRequests(c, calls, feed) == []
    ensures forall e | e in ReplayEvents(c, calls, answers) :: e.Replied? && e.reply == Acknowledged
  {
    if calls != [] {
      var n := |calls| - 1;
      SilentReplayOnlyAcknowledges(c, calls[..n], answers[..n], feed);
    }
  }

  /** What a stream emits for one feed event. */
  function Forward(ev: FeedEvent): StreamEvent
  {
    match ev
    case Data(newVal) => LogEvent(newVal)
    case FeedError(e) => ErrorEvent(e)
    case FeedEnded => EndEvent
    case FeedClosed => CloseEvent
  }

  /** One feed event reaches every attached stream, in attachment order. */
  function Forwarded(listeners: seq<LogStream>, ev: FeedEvent): (evs: seq<Event>)
    ensures |evs| == |listeners|
    ensures forall i | 0 <= i < |listeners| :: evs[i] == Emitted(listeners[i], Forward(ev))
  {
    if listeners == [] then []
    else [Emitted(listeners[0], Forward(ev))] + Forwarded(listeners[1..], ev)
  }

  /** What `close` asks of the database: the cursor of a live feed is
      closed first, and the pool is drained exactly once, last. */
  function CloseRequests(feedOpen: bool): (reqs: seq<Request>)
    ensures |reqs| >= 1 && reqs[|reqs| - 1] == DrainPool
    ensures multiset(reqs)[DrainPool] == 1
    ensures CloseCursor in reqs <==> feedOpen
    ensures NoDataRequests(reqs)
  {
    if feedOpen then [CloseCursor, DrainPool] else [DrainPool]
  }
}
