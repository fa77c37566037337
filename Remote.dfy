/**
 * `RemoteDb` and `RemoteDbSession`: the database handle of a client/server engine with its two
 * memoised properties, and the session that opens a scoped second connection to the system
 * database. Every connection event is appended to the handle's ghost `log`.
 */
module Remote {
  import opened Wrappers
  import opened Text
  import opened ConnectionStrings
  import opened Fallback

  /** The engine kinds that matter here: only Oracle is treated differently. */
  datatype DatabaseType = SqlServer | Oracle | MySql | PostgreSQL | OtherEngine

  const LOCAL_SERVER := "127.0.0.1"

  datatype ConnectionState = ClosedState | OpenState | DisposedState

  /**
   * A physical connection as the driver's factory hands it out. Each lifecycle step records
   * itself in the ghost log of the handle the connection was created for.
   */
  class Connection {
    const owner: RemoteDb
    var connectionString: Option<ConnStr>
    var state: ConnectionState

    /** `Factory.CreateConnection()` followed by setting `ConnectionString`. */
    constructor (owner: RemoteDb, connectionString: Option<ConnStr>)
      modifies owner`log
      ensures this.owner == owner
      ensures this.connectionString == connectionString && state == ClosedState
      ensures owner.log == old(owner.log) + [ConnectionCreated(connectionString)]
    {
      this.owner := owner;
      this.connectionString := connectionString;
      state := ClosedState;
      new;
      owner.log := owner.log + [ConnectionCreated(connectionString)];
    }

    /** `Open()`; `answer` is the driver's reply: None when it opens, Some(e) when it throws e. */
    method Open(answer: Option<Error>) returns (failure: Option<Error>)
      requires state == ClosedState
      modifies this`state, owner`log
      ensures failure == answer
      ensures state == if answer.None? then OpenState else ClosedState
      ensures owner.log == old(owner.log) + [ConnectionOpened(connectionString, answer.None?)]
    {
      failure := answer;
      if answer.None? {
        state := OpenState;
      }
      owner.log := owner.log + [ConnectionOpened(connectionString, answer.None?)];
    }

    /** `Dispose()`, which the `using` block calls on every way out. */
    method Dispose()
      modifies this`state, owner`log
      ensures state == DisposedState
      ensures owner.log == old(owner.log) + [ConnectionDisposed]
    {
      state := DisposedState;
      owner.log := owner.log + [ConnectionDisposed];
    }
  }

  class RemoteDb {
    const dbType: DatabaseType
    /** `SystemDatabaseName`: "master" unless an engine overrides it, so a constructor argument. */
    const systemDatabaseName: string
    const connName: string
    /** `ConnectionString` in parsed form; None stands for a null or empty string. */
    const connectionString: Option<ConnStr>
    /** The `DatabaseName` a new session of this handle reports. */
    const databaseName: NString

    /** `_ServerVersion`: None until the first read. */
    var versionCache: NString
    /** `_User`: None until a read finds a connection string. */
    var userCache: NString
    /** Every connection event and log line produced through this handle, in order. */
    ghost var log: seq<Event>

    constructor (dbType: DatabaseType, systemDatabaseName: string, connName: string,
                 connectionString: Option<ConnStr>, databaseName: NString)
      ensures this.dbType == dbType && this.systemDatabaseName == systemDatabaseName
      ensures this.connName == connName && this.connectionString == connectionString
      ensures this.databaseName == databaseName
      ensures versionCache.None? && userCache.None? && log == []
    {
      this.dbType := dbType;
      this.systemDatabaseName := systemDatabaseName;
      this.connName := connName;
      this.connectionString := connectionString;
      this.databaseName := databaseName;
      versionCache := None;
      userCache := None;
      log := [];
    }

    /** What every session of this handle shows a callback. */
    function StateOf(): SessionState
    {
      SessionState(databaseName, connectionString)
    }

    method CreateSession() returns (s: RemoteDbSession)
      ensures fresh(s) && s.db == this && s.State() == StateOf()
    {
      s := new RemoteDbSession(this);
    }

    /**
     * `ServerVersion`. `open` is the driver's answer to opening the fallback connection and
     * `probe` the outcome of reading the version from the session's open connection.
     */
    method ServerVersion(open: Option<Error>, probe: Result<NString, Error>)
      returns (r: Result<NString, Error>)
      modifies this`versionCache, this`log
      ensures old(versionCache).Some? ==>
        r == Success(old(versionCache)) && versionCache == old(versionCache) && log == old(log)
      ensures old(versionCache).None? ==>
        && log == old(log) + SystemTrace(StateOf(), systemDatabaseName, open)
        && r == ProcessResult(StateOf(), systemDatabaseName, open, probe)
        && versionCache == (if r.Success? then r.value else Some(""))
    {
      if versionCache.Some? {
        return Success(versionCache);
      }
      // the sentinel goes in first, so a probe that throws is not repeated
      versionCache := Some("");
      var session := CreateSession();
      r := session.ProcessWithSystem((s: SessionState) => probe, open);
      if r.Success? {
        versionCache := r.value;
      }
    }

    /**
     * `User`: the login named by the connection string, looked up once and cached.
     * `hasBuilder` is false when the factory hands out no connection-string builder, so that
     * using it throws.
     */
    method User(hasBuilder: bool) returns (r: Result<NString, Error>)
      modifies this`userCache
      ensures old(userCache).Some? ==> r == Success(old(userCache)) && userCache == old(userCache)
      ensures old(userCache).None? && connectionString.None? ==> r == Success(None) && userCache.None?
      ensures old(userCache).None? && connectionString.Some? && !hasBuilder ==>
        r == Failure(NullReference) && userCache.None?
      ensures old(userCache).None? && connectionString.Some? && hasBuilder ==>
        r == Success(Some(UserOf(connectionString.value))) && userCache == r.value
    {
      if userCache.Some? {
        return Success(userCache);
      }
      if connectionString.None? {
        return Success(None);
      }
      if !hasBuilder {
        return Failure(NullReference);
      }
      var ocsb := new ConnectionStringBuilder(connectionString);
      if ocsb.ContainsKey("User ID") {
        userCache := Some(ocsb.entries["User ID"]);
      } else if ocsb.ContainsKey("User") {
        userCache := Some(ocsb.entries["User"]);
      } else if ocsb.ContainsKey("uid") {
        userCache := Some(ocsb.entries["uid"]);
      } else {
        userCache := Some("");
      }
      r := Success(userCache);
    }

    /**
     * `DefaultConnectionString`. `builder` holds what the factory's fresh builder contains,
     * None when the factory has no builder; `baseDefault` is the generic handle's default.
     */
    function DefaultConnectionString(builder: Option<ConnStr>, baseDefault: ConnStr): (r: ConnStr)
      ensures builder.None? ==> r == baseDefault
      ensures builder.Some? ==> "Server" in r && r["Server"] == LOCAL_SERVER
      ensures builder.Some? && dbType != Oracle ==>
        "Database" in r && r["Database"] == systemDatabaseName
      ensures builder.Some? && dbType == Oracle ==>
        ("Database" in r <==> "Database" in builder.value)
      ensures builder.Some? ==>
        r.Keys == builder.value.Keys + {"Server"} + (if dbType == Oracle then {} else {"Database"})
      ensures builder.Some? ==>
        forall k :: k in builder.value && k != "Server" && (k != "Database" || dbType == Oracle)
          ==> r[k] == builder.value[k]
    {
      match builder
      case None => baseDefault
      case Some(b) =>
        var withServer := b["Server" := LOCAL_SERVER];
        // Oracle's connection grammar has no Database keyword
        if dbType != Oracle then withServer["Database" := systemDatabaseName] else withServer
    }

    /** `OnSetConnectionString`: the generic handle's step `baseStep`, then `TryAdd("Pooling", "false")`. */
    method OnSetConnectionString(builder: ConnectionStringBuilder, baseStep: ConnStr -> ConnStr)
      modifies builder
      ensures builder.entries == DisablePooling(baseStep(old(builder.entries)))
    {
      builder.entries := baseStep(builder.entries);
      var _ := builder.TryAdd(POOLING_KEY, "false");
    }
  }

  /**
   * A default connection string is already on the system database: retargeting it to the
   * system database, as the fallback connection does, leaves it as it is.
   */
  lemma DefaultTargetsSystemDatabase(db: RemoteDb, builder: ConnStr, baseDefault: ConnStr)
    requires db.dbType != Oracle
    ensures var d := db.DefaultConnectionString(Some(builder), baseDefault);
      RetargetDatabase(d, db.systemDatabaseName) == d
  {
    var d := db.DefaultConnectionString(Some(builder), baseDefault);
    assert d["Database" := db.systemDatabaseName] == d;
  }

  class RemoteDbSession {
    const db: RemoteDb
    const databaseName: NString
    const connectionString: Option<ConnStr>

    constructor (db: RemoteDb)
      ensures this.db == db
      ensures databaseName == db.databaseName && connectionString == db.connectionString
    {
      this.db := db;
      databaseName := db.databaseName;
      connectionString := db.connectionString;
    }

    function State(): SessionState
    {
      SessionState(databaseName, connectionString)
    }

    /**
     * `ProcessWithSystem`: runs `cb` on this session, inside a `using` block over a second
     * connection opened against the system database when the session is on another database.
     */
    method ProcessWithSystem<T>(cb: SessionState -> Result<T, Error>, open: Option<Error>)
      returns (r: Result<T, Error>)
      modifies db`log
      ensures db.log == old(db.log) + SystemTrace(State(), db.systemDatabaseName, open)
      ensures r == ProcessResult(State(), db.systemDatabaseName, open, cb(State()))
    {
      var dbname := databaseName;
      var sysdbname := db.systemDatabaseName;
      if NeedsSystemConnection(dbname, sysdbname) {
        var conn := new Connection(db, connectionString);
        var failure := OpenDatabase(conn, sysdbname, open);
        if failure.None? {
          r := cb(this.State());
          db.log := db.log + [CallbackInvoked(this.State())];
        } else {
          r := Failure(failure.value);
        }
        // the end of the using block
        conn.Dispose();
      } else {
        r := cb(this.State());
        db.log := db.log + [CallbackInvoked(this.State())];
      }
    }

    /** `OpenDatabase`: rewrites the connection's database keyword to `dbName`, then opens it. */
    static method OpenDatabase(conn: Connection, dbName: string, answer: Option<Error>)
      returns (failure: Option<Error>)
      requires conn.state == ClosedState
      modifies conn, conn.owner`log
      ensures conn.connectionString == Retarget(old(conn.connectionString), dbName)
      ensures conn.owner.log == old(conn.owner.log) + [ConnectionOpened(conn.connectionString, answer.None?)]
      ensures failure == answer
      ensures conn.state == if answer.None? then OpenState else ClosedState
    {
      var builder := new ConnectionStringBuilder(conn.connectionString);
      var flag := false;
      if builder.Get("Database").Some? {
        builder.Set("Database", dbName);
        flag := true;
      } else if builder.Get("Initial Catalog").Some? {
        builder.Set("Initial Catalog", dbName);
        flag := true;
      }
      if flag {
        conn.connectionString := Some(builder.entries);
      }
      failure := conn.Open(answer);
    }

    /**
     * `GetSchema`: `first` is the outcome of the direct `base.GetSchema` attempt, `retried`
     * that of the attempt made inside `ProcessWithSystem`.
     */
    method GetSchema<T>(collection: string, first: Result<T, Error>, open: Option<Error>,
                        retried: Result<T, Error>) returns (r: Result<T, Error>)
      modifies db`log
      ensures db.log == old(db.log) +
        GetSchemaTrace(State(), db.systemDatabaseName, collection, db.connName, first, open)
      ensures r == GetSchemaResult(State(), db.systemDatabaseName, first, open, retried)
    {
      if first.Success? {
        return first;
      }
      db.log := db.log +
        [LogWritten(Diagnostic(collection, Message(first.error), connectionString, db.connName))];
      r := ProcessWithSystem((s: SessionState) => retried, open);
    }
  }
}
