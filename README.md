# winston-rethinkdb transport: lifecycle and dispatch, in Dafny

This project models the `RethinkDB` winston transport of `index.js`, and proves properties of the model. The modelled part is the transport's lifecycle and dispatch state machine:

- **Construction.** The constructor applies the option defaults, then `openConnection` picks a driver from the shape of `options.options`.
- **Bootstrap.** Provisioning creates the database, the table and the `timestamp` index, tolerating the driver's `ReqlRuntimeError` at each step.
- **Queueing before ready.** Until bootstrap completes, `log`, `query` and `stream` calls go into `_queue`. Bootstrap then replays them in order and deletes the queue.
- **`log`.** It has a `silent` short-circuit. Otherwise it shapes the record, with `hostname` and `label` attached conditionally.
- **`query`.** It shifts a function first argument into the callback slot and applies the default projection.
- **`stream`.** All streams share one changefeed. Each stream gets an idempotent `destroy`.
- **`close`.** It ends in exactly one pool drain.

The database and the event emitter are not modelled as code. They appear as two traces kept on the transport object:

- `requests`: every request issued to the database, in order.
- `events`: every `emit`, every callback invocation and every exception thrown inside a promise handler, in order.

The database's answers are parameters of the methods that wait for them. Properties such as "no insert was issued before the transport was ready" become postconditions on these traces. Promise chains and the `async` helpers are flattened into sequential steps.

Modules, one per file:

- `Wrappers` (`wrappers.dfy`): `Option`, `Result` and `Outcome`.
- `Js` (`js.dfy`): `typeof`, truthiness, `||` defaults and the runtime's exceptions.
- `Options` (`options.dfy`): the stored configuration and `openConnection`.
- `Records` (`records.dfy`): the log record, the query argument shift and the projection.
- `Trace` (`trace.dfy`): the stream objects, the request and event traces, and the count of open changefeeds.
- `Provisioning` (`provisioning.dfy`): the bootstrap steps.
- `Dispatch` (`dispatch.dfy`): what one call does once the transport is ready, the replay of the queue as a fold over the queued calls, and the feed's forwarding and `close`'s requests.
- `Transport` (`transport.dfy`): the class `RethinkDB` with fields `ready`, `queue`, `changes`, `requests` and `events`, and a ghost invariant `Valid`:
  - at most one changefeed is open, and it is the one held in `_changes`;
  - before bootstrap completes, no record was read or written and every call was queued.
  - the bootstrap series runs once, and `ready` can only become true after a series that passed, so after a failed series the transport is never ready.
- `Findings` (`findings.dfy`): three defects, modelled as written.

## Model

| member | source | states |
|---|---|---|
| Js.Or | index.js:45-54 | `o \|\| fallback` on an optional string: a non-empty option wins, an absent or empty one gives the fallback; the result is never empty |
| Js.TypeOfFunction | index.js:239 | `typeof v` is `"function"` exactly for function values, which is how `query` tells a callback from an options object |
| Options.Configure | index.js:42-54 | without options the configuration is name `rethinkdb`, level `info`, db `test`, table `log`, no label, not silent, no host; with options each of name, level, db and table is the option when truthy and the default otherwise; label, silent and storeHost are copied; hostname is the value given |
| Options.OpenConnection | index.js:77-88 | succeeds iff `options.options` is falsy, a function or an object: falsy gives the default pool, a function gives what it returns, an object is passed to the pool; any other value fails with "Invalid options" |
| Transport.RethinkDB.constructor | index.js:34-58 | a new transport has the configured options and the chosen driver, is not ready, has an empty queue and no changefeed, and has issued and emitted nothing |
| Transport.RethinkDB.Create | index.js:34-88 | `new RethinkDB(options)` throws "Invalid options" exactly when `openConnection` refuses the option shape; otherwise it yields a fresh, valid, not-ready transport with an empty queue and the driver `openConnection` chose |
| Provisioning.ProvisionRequests | index.js:91-136 | the bootstrap asks for the database, then the table, then the `timestamp` index, each only if every earlier step passed; the index wait is issued only if the index was created just now; no request reads or writes records |
| Provisioning.ProvisionResult | index.js:91-150 | the bootstrap passes iff the database and table steps succeed or fail with `ReqlRuntimeError`, and the index step either fails with `ReqlRuntimeError` or succeeds with its wait succeeding; otherwise the error names the first failing step, in the order database, table, index, index wait, with that step's answer |
| Provisioning.ExistingTargetBootstrapsLikeClean | index.js:91-136 | against an existing database, table and index the bootstrap passes like against a clean server, issuing the same requests minus the index wait |
| Transport.RethinkDB.Provision | index.js:91-145 | runs at most once per transport; issues exactly the bootstrap requests for the answers given, returns the series' outcome and records whether it passed; the transport stays valid |
| Transport.RethinkDB.Bootstrap | index.js:140-150 | the series runs once per transport; `ready` becomes true iff every step passed; on failure nothing but the bootstrap requests happened, the queue is kept and no queued stream gains `destroy`, and since neither `Provision` nor `Start` can run again after a failed series, `ready` stays false for good; on success the queue is replayed in order, exactly once each, then deleted and `ready` emitted, and every queued stream has `destroy` installed |
| Transport.RethinkDB.Start | index.js:146-148 | only after a series that passed: the transport becomes ready and provisioned, the queue is replayed in order through the ready dispatch, then deleted and `ready` emitted |
| Transport.RethinkDB.DrainQueue | index.js:60-73 | with the transport ready, the queued calls run in queue order, each exactly once; the requests and events are those of the calls in that order; the shared feed carries every queued stream; then the queue is deleted and `ready` is emitted |
| Transport.RethinkDB.ReplayOne | index.js:61-64 | running the next queued call extends the traces of the replayed prefix by that call's own requests and events |
| Transport.RethinkDB.Apply | index.js:61-64 | a queued call, re-invoked by name, has exactly the effect the ready `log`, `query` or `stream` has, leaves the queue alone, and installs `destroy` on a queued stream |
| Transport.RethinkDB.Log | index.js:175-219 | before ready: one queue entry, no request, no event, returns normally; after `close()` reset `ready` on a transport whose queue was already deleted: throws TypeError with no effect; when ready: the call is served with the requests and events of a ready log call |
| Transport.RethinkDB.LogReady | index.js:184-219 | silent: no request, the callback (if any) hears success; otherwise exactly one insert of the shaped record, then `logged` and success, or `error` and the error |
| Transport.RethinkDB.InsertRecord | index.js:206 | issues exactly one insert into the configured table and keeps the open-feed count |
| Dispatch.ReadyCallRequests | index.js:184-206 | a ready call issues at most one request and it reads or writes records; a log call inserts its shaped record unless silent; a query issues one select over the projected fields; a stream call opens the feed only when none exists |
| Dispatch.ReadyCallReplies | index.js:184-219 | a silent log call only acknowledges; a log callback always hears back, of success or of the database's error, and never without a callback; a failed query emits `error` first; a stream call emits nothing |
| Records.RecordOf | index.js:191-203 | the record has `level`, `message`, decycled `meta` and a server `timestamp`; it has `hostname` iff `storeHost` and `label` iff the label is truthy; it has no `id`, and no field outside the seven default fields |
| Dispatch.QueryCallbackFirstLikeEmptyOptions | index.js:239-242 | `query(cb)` issues the same select and causes the same events as `query({}, cb)`, whatever follows the callback |
| Dispatch.QueryProjectsFields | index.js:247-255 | a ready query issues exactly one select; given fields are projected as they are, even an empty list; without fields the projection keeps every field a logged record can hold and the database's `id` |
| Records.DefaultProjectionKeepsRecord | index.js:191-203 | every field a log record can hold, and the database's `id`, is in the default projection |
| Transport.RethinkDB.Query | index.js:230-265 | before ready: one queue entry, no request; after the queue was deleted: TypeError; when ready: exactly one select with the shifted options and projected fields; the callback receives the rows, or `error` is emitted and the callback receives the error |
| Trace.LogStream.constructor | index.js:283 | a new stream is neither destroyed nor has `destroy` installed |
| Transport.RethinkDB.Stream | index.js:278-291 | returns `options.stream` or a new stream; before ready the queue holds that same stream, no feed is opened and nothing else changes; after the queue was deleted: TypeError; when ready: `destroy` installed and the stream attached to the one shared feed |
| Transport.RethinkDB.StreamReady | index.js:293-331 | `destroy` is installed and the stream attached; a changefeed request is issued only when `_changes` is null, so at most one feed is open |
| Dispatch.FeedAfter | index.js:305-328 | after ready calls, a feed exists iff one existed or some stream call ran, and its listeners are the earlier ones followed by the streams of the calls in order |
| Dispatch.ReplayOpensFeedAtMostOnce | index.js:305-311 | replaying the queue opens the changefeed exactly once if no feed existed and some stream was queued, and never otherwise |
| Dispatch.ReplayInsertsFollowLogCalls | index.js:60-73 | replaying the queue inserts exactly the records of the queued log calls, in queue order, and none when silent |
| Dispatch.SilentReplayOnlyAcknowledges | index.js:184-189 | with the transport silent, replayed log calls issue no request and every event they cause is a success reply |
| Transport.RethinkDB.Destroy | index.js:294-303 | idempotent: on a destroyed stream it returns null with no effect; the first call marks it destroyed, ends it, closes the shared feed and forgets it, or throws TypeError when another stream's `destroy` already nulled the feed |
| Dispatch.Forwarded | index.js:313-328 | one feed event is re-emitted by every attached stream, once each, in attachment order |
| Transport.RethinkDB.FeedEmit | index.js:313-328 | a feed event adds exactly the forwarded events to the trace |
| Dispatch.CloseRequests | index.js:340-364 | `close` closes the live feed's cursor, if any, and ends with exactly one pool drain; it reads or writes no record |
| Transport.RethinkDB.Close | index.js:340-364 | the transport is no longer ready and has issued exactly the close requests for whether a feed is live |
| Findings.CloseAsWritten | index.js:340-364 | as written, with a live feed `close` throws ReferenceError after closing the cursor, and drains the pool only when the cursor closes successfully |
| Findings.CloseAsWrittenLeavesPoolOpen | index.js:345-359 | a cursor that fails to close leaves the pool undrained as written, while the intended close drains it once |
| Findings.QueryEventsAsWritten | index.js:258-264 | as written, a failed query neither emits `error` nor reaches the callback; the handler throws ReferenceError |
| Findings.QueryFailureNeverReported | index.js:261-264 | the callback of a failed query hears nothing as written, while the intended handler emits `error` and then passes the error to the callback |
| Findings.ReplayedStreamAsWritten | index.js:282-290 | as written, the replay reuses the returned stream iff `stream` was called with an argument |
| Findings.ZeroArgumentStreamOrphaned | index.js:282-290 | `stream()` with no argument before ready returns a stream the replay never attaches |

## Left out

- The driver's query semantics are not modelled: `orderBy`, `during`, `skip`, `limit`, `pluck` and the changefeed's `old_val` filter. A select records the options and projected fields it was built from; the rows are an answer parameter.
- winston's `normalizeQuery` is not part of this model. The query options are an opaque window plus the optional `fields`, so the default projection applies when the caller gives no `fields`.
- `cycle.decycle`, `r.now()` and `os.hostname()` are foreign calls. The first two are recorded as opaque field values; the hostname is a constructor parameter.
- The winston `Transport` base class, `util.inherits` and transport registration are not part of this model.
- Promise and callback timing are flattened into sequential steps. This covers `async.series`, `async.eachSeries` and the points at which handlers run. The replay runs the queued calls one after another with their answers given in order. In the source, `removeQueue` emits `ready` (index.js:69) once every queued call has been issued, before the replies to the replayed inserts and selects settle (index.js:207-218, 258-264); the model's event trace puts `ready` after those replies.
- Events the feed emits after `close()` are not modelled.
- Every rejection routed through bluebird's `.error(...)` is taken as handled. That is the routing of the bootstrap steps (any error other than `ReqlRuntimeError` fails its step), of the insert in `log` (index.js:213), of the select in `query` (index.js:261) and of the cursor close in `close` (index.js:357). bluebird's `.error` handles only operational rejections; a rejection it ignores would leave the series pending forever, or leave `log`, `query` and `close` without their `error` event and callback. `DbAnswer` and `StepAnswer` do not have that third outcome, so `LogReady`, `Query` and `Close` treat every failure as handled.
- Transport.RethinkDB.Destroy: assumes the stream has a working `end()`. The default stream is `new Stream` from Node's `stream` module (index.js:11, 283), which is not part of this model; if that class has no `end`, `destroy` as written throws TypeError after marking the stream destroyed and before closing the feed, which the model does not capture.
- `Transport.RethinkDB.Create` and `Bootstrap` are separate calls. In the source the constructor starts the series and the rest completes asynchronously; calls queued in between are the transport's queue at the moment `Bootstrap` is called.
- JavaScript values are modelled only as far as `typeof` and truthiness distinguish them. There are no symbols or bigints. `silent` and `storeHost` are taken as booleans, that is, by their truthiness.
- The `Stream` and `EventEmitter` machinery is reduced to the stream object's `destroyed` flag and whether `destroy` was installed. What a stream emits goes to the event trace.
- The pool drain in `close` is a single request; the pool's own shutdown is not modelled.

## Findings

| source | as written | input that shows it | evidently intended | confidence | as-written member | corrected member |
|---|---|---|---|---|---|---|
| index.js:353 | `close` filters its `.catch` on `r.Error.ReqlRuntimeError`, but no `r` is in scope in the prototype method, so `close` throws ReferenceError once the cursor close is under way, and neither rejection handler is attached | a live feed whose cursor close rejects: no drain, and `close` throws | the pool is drained exactly once whatever the cursor close does | high (not executed) | Findings.CloseAsWritten | Transport.RethinkDB.Close |
| index.js:262 | the query rejection handler calls `self.emit`, but `query` declares no `self`, so the handler throws ReferenceError | a ready query whose select is rejected: no `error` event and the callback is never invoked | emit `error`, then pass the error to the callback | high (not executed) | Findings.QueryEventsAsWritten | Transport.RethinkDB.Query |
| index.js:282-289 | `options = options \|\| {}` and `options.stream = stream` reach the queued `arguments` only through its first slot; with no argument there is none, so the replay calls `stream()` again and makes a new stream | `stream()` before ready: the returned stream is never attached to the feed | the queued call carries the returned stream, so the replay hooks it up | medium (not executed; sloppy-mode `arguments` aliasing) | Findings.ReplayedStreamAsWritten | Transport.RethinkDB.Stream |

Two more defects are modelled as written, without a correction:

- After `close()` resets `ready`, a call of `log`, `query` or `stream` pushes onto the deleted `_queue` and throws TypeError (`Transport.RethinkDB.Log`, `Query` and `Stream`).
- Once one stream's `destroy` has nulled the shared `_changes`, calling `destroy` on another stream ends that stream and then throws TypeError (`Transport.RethinkDB.Destroy`).
