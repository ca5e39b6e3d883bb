/** The log record `log` writes and the argument handling of `query`
    (index.js:191-204, 238-249). */
module Records {
  import opened Wrappers
  import opened Js
  import opened Options

  /** The caller's metadata object. `cycle.decycle` is applied to it as an
      opaque step. */
  type Meta = nat

  /** A value stored in a record field. */
  datatype Field =
    | Text(text: string)
    | Decycled(meta: Meta)   // `cycle.decycle(meta)`
    | ServerNow              // `r.now()`, evaluated by the server at insert time

  /** A record: field name to value. */
  type Record = map<string, Field>

  /** The projection `query` uses when the caller names no fields. */
  const DefaultFields: seq<string> := ["id", "level", "message", "meta", "timestamp", "hostname", "label"]

  /** The record `log` inserts. */
  function RecordOf(c: Config, level: string, message: string, meta: Meta): (rec: Record)
    ensures "level" in rec && rec["level"] == Text(level)
    ensures "message" in rec && rec["message"] == Text(message)
    ensures "meta" in rec && rec["meta"] == Decycled(meta)
    ensures "timestamp" in rec && rec["timestamp"] == ServerNow
    ensures "hostname" in rec <==> c.storeHost
    ensures c.storeHost ==> rec["hostname"] == Text(c.hostname)
    ensures "label" in rec <==> Present(c.staticLabel)
    ensures Present(c.staticLabel) ==> rec["label"] == Text(c.staticLabel.value)
    ensures "id" !in rec
    ensures forall k | k in rec :: k in DefaultFields
  {
    var rec := map["level" := Text(level), "message" := Text(message),
                   "meta" := Decycled(meta), "timestamp" := ServerNow];
    var rec := if c.storeHost then rec["hostname" := Text(c.hostname)] else rec;
    if Present(c.staticLabel) then rec["label" := Text(c.staticLabel.value)] else rec
  }

  /** The query options the caller passes. `window` stands for `from`,
      `until`, `order`, `start` and `rows`, which winston's `normalizeQuery`
      fills in and the database evaluates; `fields` is the projection. */
  datatype QueryOptions = QueryOptions(window: nat, fields: Option<seq<string>>)

  /** The first argument of `query`: a callback in options' place, or an
      options object (`None` when it is `undefined`). */
  datatype QueryArg =
    | QueryFunction(callback: nat)
    | QueryObject(options: Option<QueryOptions>)

  /** What `query` goes on with once the optional options are shifted out. */
  datatype ShiftedQuery = ShiftedQuery(options: Option<QueryOptions>, callback: Option<nat>)

  /** The first argument of `query` as a JavaScript value. */
  function ArgValue(first: QueryArg): Value
  {
    match first
    case QueryFunction(cb) => Function(cb)
    case QueryObject(None) => Undefined
    case QueryObject(Some(o)) => Object(o.window)
  }

  /** `q_opts.fields` as a JavaScript value: an array when given. */
  function FieldsValue(options: Option<QueryOptions>): Value
  {
    if options.Some? && options.value.fields.Some? then Object(|options.value.fields.value|) else Undefined
  }

  /** A function first argument (`typeof` gives "function", see
      `Js.TypeOfFunction`) is the callback and the options become `{}`. */
  function ShiftQueryArgs(first: QueryArg, second: Option<nat>): (q: ShiftedQuery)
    ensures ArgValue(first).Function? ==> q.callback == Some(first.callback) && q.options.None?
    ensures !ArgValue(first).Function? ==> q.callback == second && q.options == first.options
  {
    match first
    case QueryFunction(cb) => ShiftedQuery(None, Some(cb))
    case QueryObject(o) => ShiftedQuery(o, second)
  }

  /** The fields `query` projects onto. An empty list is truthy in
      JavaScript, so only missing fields fall back to the default. */
  function Projection(options: Option<QueryOptions>): (fields: seq<string>)
    ensures Truthy(FieldsValue(options)) ==> fields == options.value.fields.value
    ensures !Truthy(FieldsValue(options)) ==> fields == DefaultFields
  {
    if options.Some? && options.value.fields.Some? then options.value.fields.value else DefaultFields
  }

  /** Every field a record written by `log` can hold is kept by the default
      projection, together with the database's `id`. */
  lemma DefaultProjectionKeepsRecord(c: Config, level: string, message: string, meta: Meta)
    ensures forall k | k in RecordOf(c, level, message, meta) :: k in Projection(None)
    ensures "id" in Projection(None)
  {
  }
}
