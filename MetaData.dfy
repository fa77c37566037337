/**
 * `RemoteDbMetaData.SetSchema`: how a schema request picks its target database and which
 * kinds of request go through the system-database fallback.
 */
module MetaData {
  import opened Wrappers
  import opened Text
  import opened Fallback
  import opened Remote

  /** The schema operations a metadata object is asked for. */
  datatype DDLSchema =
    | CreateDatabase | DropDatabase | DatabaseExist
    | CreateTable | DropTable | TableExist
    | AddTableDescription | DropTableDescription
    | AddColumn | AlterColumn | DropColumn | AddColumnDescription | DropColumnDescription
    | CreateIndex | DropIndex

  /** An element of the `params Object[]` argument list. */
  datatype Obj = Null | Bool(b: bool) | Str(s: string) | Other(tag: int)

  /** A string reference boxed as an object. */
  function Box(s: NString): Obj
  {
    if s.Some? then Str(s.value) else Null
  }

  /**
   * The collaborators `SetSchema` calls and this model does not see into: the driver's answer
   * to opening a fallback connection, `QueryCount(GetSchemaSQL(kind, values))`, and the
   * generic `base.SetSchema(kind, values)`.
   */
  datatype Engine = Engine(
    openSystem: Option<Error>,
    count: (DDLSchema, Option<seq<Obj>>) -> Result<int, Error>,
    baseSetSchema: (DDLSchema, Option<seq<Obj>>) -> Result<Obj, Error>)

  predicate IsAdministrative(kind: DDLSchema)
  {
    kind.DatabaseExist? || kind.CreateDatabase? || kind.DropDatabase?
  }

  /** The target database: `values[0]` when it is a non-empty string, else the session's name. */
  function ResolveName(current: NString, values: Option<seq<Obj>>): (r: NString)
    ensures values.Some? && |values.value| > 0 && values.value[0].Str? && values.value[0].s != ""
      ==> r == Some(values.value[0].s)
    ensures r != current ==>
      r.Some? && r.value != "" && values.Some? && |values.value| > 0 && values.value[0] == Str(r.value)
  {
    match values
    case Some(vs) =>
      if |vs| > 0 && vs[0].Str? && vs[0].s != "" then Some(vs[0].s) else current
    case None => current
  }

  /** The argument list `CreateDatabase` is rebuilt into: the target name, then `values[1]` or null. */
  function CreateArgs(name: NString, values: Option<seq<Obj>>): (r: seq<Obj>)
    ensures |r| == 2 && r[0] == Box(name)
    ensures r[1] == if values.Some? && |values.value| >= 2 then values.value[1] else Null
  {
    [Box(name), if values.None? || |values.value| < 2 then Null else values.value[1]]
  }

  /** A count query's answer as the boxed boolean "count > 0". */
  function CountPositive(c: Result<int, Error>): Result<Obj, Error>
  {
    match c
    case Success(n) => Success(Bool(n > 0))
    case Failure(e) => Failure(e)
  }

  /** What the generic `SetSchema` gets for a kind that is passed through. */
  datatype Route =
    | CountTable(values: Option<seq<Obj>>)
    | ViaSystem(action: AdminAction)
    | Generic(kind: DDLSchema, values: Option<seq<Obj>>)

  /** The callback an administrative request runs through the fallback. */
  datatype AdminAction = ExistCheck(name: NString) | Create(args: seq<Obj>) | Drop(name: NString)

  /** The switch of `SetSchema`. */
  function Dispatch(kind: DDLSchema, values: Option<seq<Obj>>, current: NString): (r: Route)
    ensures r.ViaSystem? <==> IsAdministrative(kind)
    ensures r.CountTable? <==> kind.TableExist?
    ensures r.CountTable? ==> r.values == values
    ensures r.Generic? ==> r.kind == kind && r.values == values
    ensures kind.DatabaseExist? ==> r == ViaSystem(ExistCheck(ResolveName(current, values)))
    ensures kind.CreateDatabase? ==> r == ViaSystem(Create(CreateArgs(ResolveName(current, values), values)))
    ensures kind.DropDatabase? ==> r == ViaSystem(Drop(ResolveName(current, values)))
  {
    var name := ResolveName(current, values);
    match kind
    case TableExist => CountTable(values)
    case DatabaseExist => ViaSystem(ExistCheck(name))
    case CreateDatabase => ViaSystem(Create(CreateArgs(name, values)))
    case DropDatabase => ViaSystem(Drop(name))
    case _ => Generic(kind, values)
  }

  /** The callback's outcome for an administrative action. */
  function RunAdmin(action: AdminAction, engine: Engine): Result<Obj, Error>
  {
    match action
    case ExistCheck(name) => RemoteDbMetaData.DatabaseExist(name, engine)
    case Create(args) => engine.baseSetSchema(CreateDatabase, Some(args))
    case Drop(name) => RemoteDbMetaData.DropDatabase(name, engine)
  }

  /** The events one `SetSchema` call produces. */
  function SetSchemaTrace(st: SessionState, systemName: string, kind: DDLSchema,
                          values: Option<seq<Obj>>, engine: Engine): seq<Event>
  {
    if Dispatch(kind, values, st.databaseName).ViaSystem? then
      SystemTrace(st, systemName, engine.openSystem)
    else []
  }

  /** What one `SetSchema` call returns. */
  function SetSchemaResult(st: SessionState, systemName: string, kind: DDLSchema,
                           values: Option<seq<Obj>>, engine: Engine): Result<Obj, Error>
  {
    match Dispatch(kind, values, st.databaseName)
    case CountTable(vs) => CountPositive(engine.count(TableExist, vs))
    case ViaSystem(action) => ProcessResult(st, systemName, engine.openSystem, RunAdmin(action, engine))
    case Generic(k, vs) => engine.baseSetSchema(k, vs)
  }

  class RemoteDbMetaData {
    const db: RemoteDb

    constructor (db: RemoteDb)
      ensures this.db == db
    {
      this.db := db;
    }

    /** `DatabaseExist`: a count over the system catalog for the named database, positive or not. */
    static function DatabaseExist(name: NString, engine: Engine): (r: Result<Obj, Error>)
      ensures r.Failure? <==> engine.count(DDLSchema.DatabaseExist, Some([Box(name)])).Failure?
      ensures r.Failure? ==> r.error == engine.count(DDLSchema.DatabaseExist, Some([Box(name)])).error
      ensures r.Success? ==>
        r.value.Bool? && (r.value.b <==> engine.count(DDLSchema.DatabaseExist, Some([Box(name)])).value > 0)
    {
      CountPositive(engine.count(DDLSchema.DatabaseExist, Some([Box(name)])))
    }

    /** `DropDatabase`: the generic drop, its answer cast to a boolean. */
    static function DropDatabase(name: NString, engine: Engine): (r: Result<Obj, Error>)
      ensures var b := engine.baseSetSchema(DDLSchema.DropDatabase, Some([Box(name)]));
        && (r.Success? <==> b.Success? && b.value.Bool?)
        && (r.Success? ==> r == b)
        && (b.Failure? ==> r == b)
        && (b == Success(Null) ==> r == Failure(NullReference))
        && (b.Success? && !b.value.Bool? && !b.value.Null? ==> r == Failure(CastError))
    {
      // unboxing null to a boolean throws a null reference, any other non-boolean a bad cast
      match engine.baseSetSchema(DDLSchema.DropDatabase, Some([Box(name)]))
      case Success(Bool(b)) => Success(Bool(b))
      case Success(Null) => Failure(NullReference)
      case Success(_) => Failure(CastError)
      case Failure(e) => Failure(e)
    }

    /** `ProcessWithSystem`: the same fallback, on a session of its own. */
    method ProcessWithSystem<T>(cb: SessionState -> Result<T, Error>, open: Option<Error>)
      returns (r: Result<T, Error>)
      modifies db`log
      ensures db.log == old(db.log) + SystemTrace(db.StateOf(), db.systemDatabaseName, open)
      ensures r == ProcessResult(db.StateOf(), db.systemDatabaseName, open, cb(db.StateOf()))
    {
      var session := db.CreateSession();
      r := session.ProcessWithSystem(cb, open);
    }

    method SetSchema(kind: DDLSchema, values: Option<seq<Obj>>, engine: Engine)
      returns (r: Result<Obj, Error>)
      modifies db`log
      ensures db.log == old(db.log) +
        SetSchemaTrace(db.StateOf(), db.systemDatabaseName, kind, values, engine)
      ensures r == SetSchemaResult(db.StateOf(), db.systemDatabaseName, kind, values, engine)
    {
      var session := db.CreateSession();
      var databaseName := session.databaseName;
      if values.Some? && |values.value| > 0 && values.value[0].Str? && values.value[0].s != "" {
        databaseName := Some(values.value[0].s);
      }
      var args := values;
      match kind {
        case TableExist =>
          r := CountPositive(engine.count(kind, args));
        case DatabaseExist =>
          r := ProcessWithSystem((s: SessionState) => DatabaseExist(databaseName, engine),
                                 engine.openSystem);
        case CreateDatabase =>
          args := Some([Box(databaseName),
                        if args.None? || |args.value| < 2 then Null else args.value[1]]);
          var rebuilt := args;
          r := ProcessWithSystem((s: SessionState) => engine.baseSetSchema(kind, rebuilt),
                                 engine.openSystem);
        case DropDatabase =>
          r := ProcessWithSystem((s: SessionState) => DropDatabase(databaseName, engine),
                                 engine.openSystem);
        case _ =>
          r := engine.baseSetSchema(kind, args);
      }
    }
  }

  /**
   * When there is no argument list, it is empty, or its first element is not a non-empty
   * string, the target is the session's own database name.
   */
  lemma SessionNameUnlessExplicit(current: NString, values: Option<seq<Obj>>)
    ensures (values.None? || |values.value| == 0 || !values.value[0].Str? || values.value[0].s == "")
      ==> ResolveName(current, values) == current
  {
  }

  /** The rebuilt `CreateDatabase` arguments resolve again to the same non-empty target. */
  lemma CreateArgsResolveToTarget(current: NString, values: Option<seq<Obj>>, other: NString)
    requires !IsNullOrEmpty(ResolveName(current, values))
    ensures ResolveName(other, Some(CreateArgs(ResolveName(current, values), values)))
      == ResolveName(current, values)
  {
  }

  /**
   * The three administrative kinds produce exactly the fallback's connection events; every
   * other kind produces none.
   */
  lemma AdministrativeKindsUseFallback(st: SessionState, systemName: string, kind: DDLSchema,
                                       values: Option<seq<Obj>>, engine: Engine)
    ensures IsAdministrative(kind) ==>
      SetSchemaTrace(st, systemName, kind, values, engine) == SystemTrace(st, systemName, engine.openSystem)
    ensures !IsAdministrative(kind) ==> SetSchemaTrace(st, systemName, kind, values, engine) == []
  {
  }

  /** `TableExist` is a count query on the session, positive or not, with no fallback. */
  lemma TableExistCountsDirectly(st: SessionState, systemName: string, values: Option<seq<Obj>>,
                                 engine: Engine)
    ensures SetSchemaTrace(st, systemName, TableExist, values, engine) == []
    ensures var r := SetSchemaResult(st, systemName, TableExist, values, engine);
      var c := engine.count(TableExist, values);
      && (c.Success? ==> r == Success(Bool(c.value > 0)))
      && (c.Failure? ==> r == Failure(c.error))
  {
  }

  /** Every other kind reaches the generic `SetSchema` with its original arguments, directly. */
  lemma OtherKindsPassThrough(st: SessionState, systemName: string, kind: DDLSchema,
                              values: Option<seq<Obj>>, engine: Engine)
    requires !IsAdministrative(kind) && !kind.TableExist?
    ensures SetSchemaTrace(st, systemName, kind, values, engine) == []
    ensures SetSchemaResult(st, systemName, kind, values, engine) == engine.baseSetSchema(kind, values)
  {
  }

  /**
   * `SetSchema(DatabaseExist, [name])` asks the catalog about `name`, not about the database
   * the session is on, and answers from the count once the fallback connection opens.
   */
  lemma DatabaseExistAsksForExplicitName(st: SessionState, systemName: string, name: string,
                                         rest: seq<Obj>, engine: Engine)
    requires name != "" && engine.openSystem.None?
    ensures var r := SetSchemaResult(st, systemName, DatabaseExist, Some([Str(name)] + rest), engine);
      var c := engine.count(DatabaseExist, Some([Str(name)]));
      && (c.Success? ==> r == Success(Bool(c.value > 0)))
      && (c.Failure? ==> r == Failure(c.error))
  {
    assert ([Str(name)] + rest)[0] == Str(name);
  }

  /**
   * Creating a database that does not exist yet, from a session on another database: the
   * request goes through one system-database connection, created, opened, used once by the
   * generic creation with exactly `[name, option]`, and disposed.
   */
  lemma CreateDatabaseThroughSystem(st: SessionState, systemName: string, name: string,
                                    option: Obj, engine: Engine)
    requires name != "" && engine.openSystem.None?
    requires NeedsSystemConnection(st.databaseName, systemName)
    ensures SetSchemaResult(st, systemName, CreateDatabase, Some([Str(name), option]), engine)
      == engine.baseSetSchema(CreateDatabase, Some([Str(name), option]))
    ensures SetSchemaTrace(st, systemName, CreateDatabase, Some([Str(name), option]), engine)
      == [ConnectionCreated(st.connectionString),
          ConnectionOpened(Retarget(st.connectionString, systemName), true),
          CallbackInvoked(st),
          ConnectionDisposed]
  {
    assert [Str(name), option] == [Str(name)] + [option];
  }
}
