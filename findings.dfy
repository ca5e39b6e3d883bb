/** Three places where index.js does not do what it evidently means to, each
    modelled as written next to a lemma that exhibits the difference. The
    transport in `Transport` follows the intended behaviour. */
module Findings {
  import opened Wrappers
  import opened Js
  import opened Options
  import opened Records
  import opened Trace
  import opened Dispatch

  /** How `_changes._cursor.close()` settles. */
  datatype CursorAnswer = CursorClosed | CursorRejected(error: DbError)

  /** What `close()` does as written: the requests it issues and what it
      throws synchronously. */
  datatype CloseOutcome = CloseOutcome(requests: seq<Request>, thrown: Option<JsError>)

  /** `close()` as written (index.js:340-364). With a live feed it closes the
      cursor and attaches the drain for success; evaluating the filter
      `r.Error.ReqlRuntimeError` of the next `.catch` then throws, because no
      `r` is in scope there, so neither rejection handler is ever attached. */
  function CloseAsWritten(feedOpen: bool, cursor: CursorAnswer): (o: CloseOutcome)
    ensures feedOpen ==> o.thrown == Some(ReferenceError) && |o.requests| >= 1 && o.requests[0] == CloseCursor
    ensures !feedOpen ==> o == CloseOutcome([DrainPool], None)
    ensures DrainPool in o.requests <==> !feedOpen || cursor.CursorClosed?
    ensures multiset(o.requests)[DrainPool] <= 1
  {
    if feedOpen then
      CloseOutcome([CloseCursor] + (if cursor.CursorClosed? then [DrainPool] else []), Some(ReferenceError))
    else
      CloseOutcome([DrainPool], None)
  }

  /** A cursor that fails to close leaves the pool undrained, while the
      intended `close` drains it exactly once whatever the cursor does. */
  lemma CloseAsWrittenLeavesPoolOpen(e: DbError)
    ensures DrainPool !in CloseAsWritten(true, CursorRejected(e)).requests
    ensures CloseAsWritten(true, CursorRejected(e)).thrown == Some(ReferenceError)
    ensures multiset(CloseRequests(true))[DrainPool] == 1
  {
  }

  /** The events of a ready `query` as written (index.js:258-264): the
      rejection handler refers to `self`, which `query` never declares, so
      it throws before emitting `error` or invoking the callback. */
  function QueryEventsAsWritten(first: QueryArg, second: Option<CallbackId>, answer: DbAnswer): (evs: seq<Event>)
    ensures answer.Succeeded? ==> evs == Invoke(ShiftQueryArgs(first, second).callback, Rows(answer.rows))
    ensures answer.Failed? ==> evs == [Unhandled(ReferenceError)]
    ensures answer.Failed? ==> forall e | e in evs :: !e.Replied? && !e.TransportError?
  {
    var q := ShiftQueryArgs(first, second);
    if answer.Succeeded? then Invoke(q.callback, Rows(answer.rows)) else [Unhandled(ReferenceError)]
  }

  /** A failed query never reaches its callback as written; the intended
      handler emits `error` and then passes the error to the callback. */
  lemma QueryFailureNeverReported(first: QueryArg, k: CallbackId, c: Config, e: DbError)
    requires first.QueryObject?
    ensures Replied(k, Rejected(e)) !in QueryEventsAsWritten(first, Some(k), Failed(e))
    ensures ReadyEvents(c, QueryCall(first, Some(k)), Failed(e)) == [TransportError(e), Replied(k, Rejected(e))]
  {
  }

  /** The arguments `stream` was called with: none at all, or one (which may
      be `undefined`). */
  datatype StreamArguments = NoArguments | OneArgument(options: Option<StreamOptions>)

  /** The options the queued call replays with, as written (index.js:282-289).
      `options = options || {}` and `options.stream = stream` reach the queued
      `arguments` only through its first slot, which exists only when an
      argument was passed. */
  function QueuedOptionsAsWritten(args: StreamArguments, s: LogStream): (o: Option<StreamOptions>)
    ensures args.OneArgument? ==> o == Some(StreamOptions(Some(s)))
    ensures args.NoArguments? ==> o.None?
  {
    if args.OneArgument? then Some(StreamOptions(Some(s))) else None
  }

  /** The stream the replay attaches to the feed: the queued one, or `None`
      when the replay makes a new one. */
  function ReplayedStreamAsWritten(args: StreamArguments, s: LogStream): (r: Option<LogStream>)
    ensures r == Some(s) <==> args.OneArgument?
  {
    var o := QueuedOptionsAsWritten(args, s);
    if o.Some? then o.value.stream else None
  }

  /** `stream()` called with no argument before the transport is ready
      returns a stream that the replay never attaches to the feed. */
  lemma ZeroArgumentStreamOrphaned(s: LogStream)
    ensures ReplayedStreamAsWritten(NoArguments, s).None?
    ensures ReplayedStreamAsWritten(OneArgument(None), s) == Some(s)
  {
  }
}
