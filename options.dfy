/** Construction-time configuration of the transport and the choice of
    database driver (index.js:34-88). */
module Options {
  import opened Wrappers
  import opened Js

  /** The options object handed to the constructor. Absent string options are
      `None`; `silent` and `storeHost` are taken by their truthiness. */
  datatype TransportOptions = TransportOptions(
    name: Option<string>,
    level: Option<string>,
    staticLabel: Option<string>,
    silent: bool,
    storeHost: bool,
    db: Option<string>,
    table: Option<string>,
    connection: Value)   // `options.options`

  /** The transport's fixed configuration, as stored on the instance. */
  datatype Config = Config(
    name: string,
    level: string,
    staticLabel: Option<string>,
    silent: bool,
    storeHost: bool,
    hostname: string,
    db: string,
    table: string)

  /** `options || {}` seen from its fields. */
  function OptionsOrEmpty(options: Option<TransportOptions>): TransportOptions
  {
    if options.Some? then options.value
    else TransportOptions(None, None, None, false, false, None, None, Undefined)
  }

  /** The configuration the constructor stores. `hostname` is the value of
      `os.hostname()`, taken as given. */
  function Configure(options: Option<TransportOptions>, hostname: string): (c: Config)
    ensures c.name != "" && c.level != "" && c.db != "" && c.table != ""
    ensures c.hostname == hostname
    ensures options.None? ==> c == Config("rethinkdb", "info", None, false, false, hostname, "test", "log")
    ensures options.Some? ==>
      && c.staticLabel == options.value.staticLabel
      && c.silent == options.value.silent
      && c.storeHost == options.value.storeHost
      && c.name == (if Present(options.value.name) then options.value.name.value else "rethinkdb")
      && c.level == (if Present(options.value.level) then options.value.level.value else "info")
      && c.db == (if Present(options.value.db) then options.value.db.value else "test")
      && c.table == (if Present(options.value.table) then options.value.table.value else "log")
  {
    var o := OptionsOrEmpty(options);
    Config(Or(o.name, "rethinkdb"), Or(o.level, "info"), o.staticLabel, o.silent, o.storeHost,
           hostname, Or(o.db, "test"), Or(o.table, "log"))
  }

  /** The connection handle stored in `this.r`. */
  datatype Driver =
    | DefaultPool          // `require('rethinkdbdash')()`
    | PoolWith(params: nat) // `require('rethinkdbdash')(options.options)`
    | Supplied(handle: nat) // whatever `options.options()` returned

  datatype ConfigError = InvalidOptions   // `new Error("Invalid options")`

  /** `openConnection`: which driver the shape of `options.options` selects. */
  function OpenConnection(v: Value): (r: Result<Driver, ConfigError>)
    ensures r.Success? <==> !Truthy(v) || TypeOf(v) == "function" || TypeOf(v) == "object"
    ensures !Truthy(v) ==> r == Success(DefaultPool)
    ensures Truthy(v) && TypeOf(v) == "function" ==> r == Success(Supplied(v.result))
    ensures Truthy(v) && TypeOf(v) == "object" ==> r == Success(PoolWith(v.params))
    ensures r.Failure? ==> r.error == InvalidOptions
  {
    if !Truthy(v) then Success(DefaultPool)
    else if v.Function? then Success(Supplied(v.result))
    else if v.Object? then Success(PoolWith(v.params))
    else Failure(InvalidOptions)
  }
}
