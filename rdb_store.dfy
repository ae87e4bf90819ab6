/** The relational store (pkg/store/rdb_store.go, pkg/store/config.go):
    configuration checks, type names, pool-size defaults, the redacted
    configuration report and the once-only initialisation. Opening the
    database and pinging it are I/O; their outcomes are parameters. */
module RdbStore {
  import opened Wrappers
  import Text

  /** `DBType` is an integer in Go; these are its named values. */
  const MySQL: int := 0
  const PostgreSQL: int := 1
  const SQLite: int := 2

  datatype DatabaseConfig = DatabaseConfig(
    dbType: int,
    host: string,
    port: int,
    database: string,
    username: string,
    password: string,
    sslMode: string,
    file: string,
    maxOpenConnection: string,
    maxIdleConnection: string)

  function TypeName(t: int): (name: string)
    ensures t == MySQL <==> name == "mysql"
    ensures t == PostgreSQL <==> name == "postgresql"
    ensures t == SQLite <==> name == "sqlite"
    ensures t !in {MySQL, PostgreSQL, SQLite} <==> name == "unknown"
  {
    if t == MySQL then "mysql"
    else if t == PostgreSQL then "postgresql"
    else if t == SQLite then "sqlite"
    else "unknown"
  }

  /** validateConfig: the first failing check, in the order of the source. */
  function ValidateConfig(c: DatabaseConfig): Option<string> {
    if c.dbType == MySQL || c.dbType == PostgreSQL then
      var name := TypeName(c.dbType);
      if c.host == "" then Some("database host is required for " + name)
      else if c.port <= 0 then Some("valid database port is required for " + name)
      else if c.database == "" then Some("database name is required for " + name)
      else if c.username == "" then Some("database username is required for " + name)
      else None
    else if c.dbType == SQLite then
      if c.file == "" then Some("database file path is required for SQLite") else None
    else Some("unsupported rdb type: " + Text.IntToString(c.dbType))
  }

  /** A server configuration passes exactly when host, port, database and
      user are all given; a SQLite one exactly when the file is; no other
      type passes. Among several gaps the host is reported first, then the
      port, then the database. */
  lemma ValidateMeaning(c: DatabaseConfig)
    ensures (c.dbType == MySQL || c.dbType == PostgreSQL) ==>
      (ValidateConfig(c) == None <==> c.host != "" && c.port > 0 && c.database != "" && c.username != "")
    ensures c.dbType == SQLite ==> (ValidateConfig(c) == None <==> c.file != "")
    ensures c.dbType !in {MySQL, PostgreSQL, SQLite} ==> ValidateConfig(c).Some?
    ensures (c.dbType == MySQL || c.dbType == PostgreSQL) && c.host == "" ==>
      ValidateConfig(c) == Some("database host is required for " + TypeName(c.dbType))
    ensures (c.dbType == MySQL || c.dbType == PostgreSQL) && c.host != "" && c.port <= 0 ==>
      ValidateConfig(c) == Some("valid database port is required for " + TypeName(c.dbType))
    ensures (c.dbType == MySQL || c.dbType == PostgreSQL) && c.host != "" && c.port > 0 && c.database == "" ==>
      ValidateConfig(c) == Some("database name is required for " + TypeName(c.dbType))
  {
  }

  /** A pool size from its text: `strconv.Atoi`, and the default when that
      gives zero or less (which covers unparseable text). */
  function PoolSize(text: string, default: int): (n: int)
    requires default > 0
    ensures n > 0
    ensures Text.AtoiValue(text) > 0 ==> n == Text.AtoiValue(text)
    ensures !Text.AtoiSyntax(text) ==> n == default
  {
    var parsed := Text.AtoiValue(text);
    if parsed <= 0 then default else parsed
  }

  const DefaultMaxOpen: int := 25
  const DefaultMaxIdle: int := 10

  /** The entries of the configuration report. */
  datatype InfoValue = Str(s: string) | Num(n: int)

  /** GetConfigInfo: every field but the password. */
  function ConfigInfo(c: DatabaseConfig): (info: map<string, InfoValue>)
    ensures "password" !in info
    ensures info.Keys == {"type", "host", "port", "database", "username", "file",
                          "max_open_connection", "max_idle_connection", "ssl_mode"}
  {
    map["type" := Str(TypeName(c.dbType)), "host" := Str(c.host), "port" := Num(c.port),
        "database" := Str(c.database), "username" := Str(c.username), "file" := Str(c.file),
        "max_open_connection" := Str(c.maxOpenConnection), "max_idle_connection" := Str(c.maxIdleConnection),
        "ssl_mode" := Str(c.sslMode)]
  }

  /** Changing only the password does not change the report. */
  lemma ConfigInfoHidesPassword(c: DatabaseConfig, p: string)
    ensures ConfigInfo(c.(password := p)) == ConfigInfo(c)
  {
  }

  /** How Initialize wraps a failure of the pool setup. */
  function PoolError(e: string): string {
    "connection pool configuration failed: " + e
  }

  /** An open database handle of a given type. */
  datatype Connection = Connection(dbType: int)

  class RdbStore {
    var config: DatabaseConfig
    var db: Option<Connection>
    /** Whether the once-guarded body has run. */
    var done: bool
    var maxOpen: Option<int>
    var maxIdle: Option<int>

    /** NewRDBStore: a zero store, not initialised. */
    constructor ()
      ensures db == None && !done && maxOpen == None && maxIdle == None
      ensures config == DatabaseConfig(MySQL, "", 0, "", "", "", "", "", "", "")
    {
      config := DatabaseConfig(MySQL, "", 0, "", "", "", "", "", "", "");
      db := None;
      done := false;
      maxOpen := None;
      maxIdle := None;
    }

    function IsInitialized(): bool
      reads this
    {
      db.Some?
    }

    /** The first call stores the configuration, validates it, opens the
        database and sets up the pool; every later call returns no error and
        changes nothing, whatever the first call did. The driver's answers
        are parameters: `openErr` of `gorm.Open`, which hands back its handle
        even when it fails, `connErr` of getting the pooled connection, which
        stops before the pool is sized, and `pingErr` of the ping that follows
        the sizing. */
    method Initialize(c: DatabaseConfig, openErr: Option<string>, connErr: Option<string>, pingErr: Option<string>)
      returns (err: Option<string>)
      modifies this
      ensures old(done) ==> (err == None && config == old(config) && db == old(db) && done &&
        maxOpen == old(maxOpen) && maxIdle == old(maxIdle))
      ensures !old(done) ==> done && config == c
      ensures !old(done) && ValidateConfig(c).Some? ==>
        err == Some("config validation failed: " + ValidateConfig(c).value) && db == old(db) &&
        maxOpen == old(maxOpen) && maxIdle == old(maxIdle)
      ensures !old(done) && ValidateConfig(c) == None ==> db == Some(Connection(c.dbType))
      ensures !old(done) && ValidateConfig(c) == None && openErr.Some? ==>
        err == Some("database initialization failed: " + openErr.value) &&
        maxOpen == old(maxOpen) && maxIdle == old(maxIdle)
      ensures !old(done) && ValidateConfig(c) == None && openErr == None && connErr.Some? ==>
        err == Some(PoolError("failed to get underlying database connection: " + connErr.value)) &&
        maxOpen == old(maxOpen) && maxIdle == old(maxIdle)
      ensures !old(done) && ValidateConfig(c) == None && openErr == None && connErr == None ==>
        (maxOpen == Some(PoolSize(c.maxOpenConnection, DefaultMaxOpen)) &&
         maxIdle == Some(PoolSize(c.maxIdleConnection, DefaultMaxIdle)) &&
         err == (if pingErr.Some? then Some(PoolError("database ping test failed: " + pingErr.value)) else None))
    {
      if done {
        return None;
      }
      done := true;
      config := c;
      var invalid := ValidateConfig(config);
      if invalid.Some? {
        return Some("config validation failed: " + invalid.value);
      }
      db := Some(Connection(config.dbType));
      if openErr.Some? {
        return Some("database initialization failed: " + openErr.value);
      }
      if connErr.Some? {
        return Some(PoolError("failed to get underlying database connection: " + connErr.value));
      }
      maxOpen := Some(PoolSize(config.maxOpenConnection, DefaultMaxOpen));
      maxIdle := Some(PoolSize(config.maxIdleConnection, DefaultMaxIdle));
      if pingErr.Some? {
        return Some(PoolError("database ping test failed: " + pingErr.value));
      }
      err := None;
    }

    method GetConfigInfo() returns (info: map<string, InfoValue>)
      ensures info == ConfigInfo(config)
    {
      info := ConfigInfo(config);
    }
  }

  /** The store tests: a new store is not initialised; an invalid first
      configuration fails, and a second Initialize then succeeds without
      looking at its configuration and leaves the store uninitialised. */
  method Scenario(bad: DatabaseConfig, good: DatabaseConfig) returns (initially: bool, first: Option<string>, second: Option<string>, after: bool)
    requires ValidateConfig(bad).Some?
    ensures !initially && first.Some? && second == None && !after
  {
    var store := new RdbStore();
    initially := store.IsInitialized();
    first := store.Initialize(bad, None, None, None);
    second := store.Initialize(good, None, None, None);
    after := store.IsInitialized();
  }

  /** A valid configuration whose open fails is reported, yet the store
      counts as initialised, because the handle `gorm.Open` returned is
      kept. */
  method FailedOpenScenario(c: DatabaseConfig, e: string) returns (err: Option<string>, initialized: bool)
    requires ValidateConfig(c) == None
    ensures err == Some("database initialization failed: " + e) && initialized
  {
    var store := new RdbStore();
    err := store.Initialize(c, Some(e), None, None);
    initialized := store.IsInitialized();
  }
}
