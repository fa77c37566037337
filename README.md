# XCode remote-database fallback, modelled in Dafny

This project models the administrative layer XCode puts over client/server database engines
(`RemoteDb`, `RemoteDbSession`, `RemoteDbMetaData`). That layer does four things:

- It derives a default connection string that points at `127.0.0.1` and the system database.
  The system database is named "master" unless an engine overrides it; in the model the name
  is a constructor argument of `RemoteDb`.
- It adds `Pooling=false` when the connection string has no `Pooling` keyword.
- It memoises the server version and the login name.
- It runs administrative work through a fallback: when a session is on an application database,
  a second, short-lived connection is created, retargeted at the system database and opened.
  The callback then runs, and the `using` block disposes the connection on every way out.

`GetSchema` retries a failed schema query exactly once through that fallback. `SetSchema` sends
database existence, creation and deletion through it. Table existence and every other kind of
request run directly.

Modules:

- `Wrappers` holds Option (null) and Result (a call that may throw).
- `Text` holds `IsNullOrEmpty` and `EqualIgnoreCase`, the latter as an ASCII case fold.
- `ConnectionStrings` models a connection string as a keyword→value map. It holds the keyword
  priorities of `OpenDatabase` and `User`, the pooling step, and the in-place builder class.
- `Fallback` describes the protocol as pure functions. `SystemTrace`/`GetSchemaTrace` give the
  connection events and log lines of one call, and `ProcessResult`/`GetSchemaResult` give what the
  call returns. The lemmas here state what the protocol guarantees.
- `Remote` holds the classes `Connection`, `RemoteDb` and `RemoteDbSession`. Their methods
  update the caches and a ghost event `log` on the handle. Their contracts tie that log and the
  results to the functions in `Fallback`.
- `MetaData` holds the `DDLSchema` dispatch of `SetSchema` as pure functions with lemmas, plus
  the class `RemoteDbMetaData`, whose methods are proved against those functions.

External collaborators are parameters:

- the driver's answer to `Open` (`open`: None when it opens, Some(e) when it throws);
- the outcomes of the two `base.GetSchema` attempts;
- the server-version probe;
- `QueryCount(GetSchemaSQL(...))` and the generic `base.SetSchema`, both fields of `Engine`;
- the generic `base.OnSetConnectionString` step.

Points of the code's behaviour that are easy to get wrong:

- Pooling: the model takes `TryAdd("Pooling", "false")` to add the pair only when the keyword
  is absent, so in the model an explicit `Pooling=true` survives
  (`ConnectionStrings.ExplicitPoolingSurvives`).
- Server-version sentinel: "" is cached before the probe, so a probe that throws leaves ""
  cached and is not repeated. A probe that returns null caches null, so the next read probes
  again (`Remote.RemoteDb.ServerVersion`).
- Callback argument: the callback is always handed the session itself, never the extra
  connection, so its result is the same in both branches (`Fallback.CallbackOnceWithSession`).
- Missing keyword: the extra connection is retargeted only when its connection string has a
  `Database` or an `Initial Catalog` keyword. Otherwise it opens whatever the original string
  names.

## Model

| member | source | states |
|---|---|---|
| `Text.EqualIgnoreCaseIsLowerEquality` | XCode/DataAccessLayer/Common/RemoteDb.cs:143 | the case-insensitive comparison in the branch condition holds exactly when both names have the same ASCII lower-case form |
| `ConnectionStrings.FirstKeyIndex` | XCode/DataAccessLayer/Common/RemoteDb.cs:57-64 | the keyword found is the first one of the priority list that the string contains: none before it is present, and none is found only when none of them is present |
| `ConnectionStrings.FirstKeyIndexDependsOnKeysOnly` | XCode/DataAccessLayer/Common/RemoteDb.cs:165-174 | the keyword chosen depends only on which keywords are present, not on their values |
| `ConnectionStrings.RetargetDatabase` | XCode/DataAccessLayer/Common/RemoteDb.cs:163-179 | `Database` is rewritten when present; otherwise `Initial Catalog` is rewritten when present; otherwise the string is unchanged; the keyword set is kept, every other entry is preserved, and at most one entry changes |
| `ConnectionStrings.RetargetDatabaseTwice` | XCode/DataAccessLayer/Common/RemoteDb.cs:163-179 | retargeting an already retargeted string rewrites the same keyword, so only the last name counts |
| `ConnectionStrings.UserOf` | XCode/DataAccessLayer/Common/RemoteDb.cs:57-64 | the login is `User ID` if present, else `User`, else `uid`, else the empty string |
| `ConnectionStrings.UserOfIgnoresOtherKeys` | XCode/DataAccessLayer/Common/RemoteDb.cs:57-64 | setting any keyword other than the three login keywords leaves the login unchanged |
| `ConnectionStrings.DisablePooling` | XCode/DataAccessLayer/Common/RemoteDb.cs:87-94 | afterwards `Pooling` is present, it is "false" when it was absent, every existing entry is kept, and no other keyword is added |
| `ConnectionStrings.DisablePoolingIdempotent` | XCode/DataAccessLayer/Common/RemoteDb.cs:87-94 | normalising twice is the same as normalising once |
| `ConnectionStrings.ExplicitPoolingSurvives` | XCode/DataAccessLayer/Common/RemoteDb.cs:93 | a caller's `Pooling=true` is not overwritten by the add-if-absent step |
| `ConnectionStrings.ConnectionStringBuilder.TryAdd` | XCode/DataAccessLayer/Common/RemoteDb.cs:93 | the builder's entries gain the pair exactly when the keyword was absent, and the method reports whether it added it |
| `Text.IsNullOrEmpty` | XCode/DataAccessLayer/Common/RemoteDb.cs:143 | a name is null-or-empty exactly when it is null or the empty string |
| `Text.EqualIgnoreCase` | XCode/DataAccessLayer/Common/RemoteDb.cs:143 | two names are equal ignoring case exactly when their ASCII lower-case forms are equal; every name equals itself |
| `ConnectionStrings.AddIfAbsent` | XCode/DataAccessLayer/Common/RemoteDb.cs:93 | the keyword is present afterwards, it carries the new value only when it was absent, and every existing entry keeps its value |
| `Fallback.NeedsSystemConnection` | XCode/DataAccessLayer/Common/RemoteDb.cs:139-143 | a second connection is needed exactly when the session's database name is non-null, non-empty and has a different lower-case form from the system name |
| `Fallback.SystemTrace` | XCode/DataAccessLayer/Common/RemoteDb.cs:139-157 | a connection is disposed exactly in the fallback branch; the callback is invoked, always with the session's own state, exactly when the branch is direct or the open succeeds; the direct branch is the invocation alone |
| `Fallback.ProcessResult` | XCode/DataAccessLayer/Common/RemoteDb.cs:139-157 | the call returns the callback's outcome unchanged, except that a failed open of the fallback connection returns that failure instead |
| `Remote.Connection.constructor` | XCode/DataAccessLayer/Common/RemoteDb.cs:145-147 | a created connection starts closed, holds the given connection string, and records its creation in its handle's log |
| `Remote.Connection.Open` | XCode/DataAccessLayer/Common/RemoteDb.cs:181 | the connection is open exactly when the driver accepts, the driver's failure is returned, and the attempt is recorded in the handle's log |
| `Remote.Connection.Dispose` | XCode/DataAccessLayer/Common/RemoteDb.cs:145-152 | the connection ends disposed and its disposal is recorded in the handle's log |
| `Fallback.SystemConnectionIff` | XCode/DataAccessLayer/Common/RemoteDb.cs:139-157 | one extra connection is created exactly when the database name is non-empty and differs, ignoring case, from the system name; it is opened once and disposed once; the direct branch creates and disposes none |
| `Fallback.DisposedBeforeReturn` | XCode/DataAccessLayer/Common/RemoteDb.cs:145-152 | in the fallback branch the connection's creation is the first event and its disposal the last, whether the open fails, the callback fails or the callback succeeds |
| `Fallback.CallbackOnceWithSession` | XCode/DataAccessLayer/Common/RemoteDb.cs:143-157 | unless opening the extra connection throws, the callback runs exactly once, it is handed the session itself, and its result, success or failure, is returned unchanged in either branch |
| `Fallback.OpenFailurePropagates` | XCode/DataAccessLayer/Common/RemoteDb.cs:145-151 | when the system-database connection cannot be opened, the callback never runs and the open failure propagates |
| `Fallback.FallbackTargetsSystemDatabase` | XCode/DataAccessLayer/Common/RemoteDb.cs:147-149 | the extra connection is opened with the session's connection string retargeted so that its database keyword names the system database |
| `Fallback.SystemNameInAnyCaseIsDirect` | XCode/DataAccessLayer/Common/RemoteDb.cs:143 | a session already on the system database, in any letter case, takes the direct branch |
| `Fallback.GetSchemaRetriesOnce` | XCode/DataAccessLayer/Common/RemoteDb.cs:120-133 | a first success is returned with no log line and no fallback; a first failure writes exactly one diagnostic carrying the error's message and makes at most one retry, exactly one when the fallback opens, whose result, failure included, is returned; every connection created is disposed |
| `Remote.RemoteDb.ServerVersion` | XCode/DataAccessLayer/Common/RemoteDb.cs:16-39 | a cached non-null value is returned with no probe and no connection event; otherwise the call runs the fallback once, returns its result, and leaves the result cached on success and "" cached on failure |
| `Remote.RemoteDb.User` | XCode/DataAccessLayer/Common/RemoteDb.cs:44-67 | a cached login is returned unchanged; with no connection string the result is null and nothing is cached; when the factory has no builder the call throws and nothing is cached; otherwise the result is the prioritised login and it is cached |
| `Remote.RemoteDb.DefaultConnectionString` | XCode/DataAccessLayer/Common/RemoteDb.cs:70-85 | without a builder the generic default is returned; with one, `Server` is `127.0.0.1`, `Database` is the system database except on Oracle, where it is left as the builder had it, and every other entry of the builder is kept |
| `Remote.RemoteDb.OnSetConnectionString` | XCode/DataAccessLayer/Common/RemoteDb.cs:87-94 | the builder ends up holding the generic step's result with `Pooling` added when absent |
| `Remote.DefaultTargetsSystemDatabase` | XCode/DataAccessLayer/Common/RemoteDb.cs:70-85 | outside Oracle, the default connection string already names the system database, so retargeting it there changes nothing |
| `Remote.RemoteDbSession.ProcessWithSystem` | XCode/DataAccessLayer/Common/RemoteDb.cs:137-158 | the handle's log, to which the extra connection's own creation, open and dispose steps write, grows by exactly the fallback trace of this session, and the result is the callback's result on this session, or the open failure |
| `Remote.RemoteDbSession.OpenDatabase` | XCode/DataAccessLayer/Common/RemoteDb.cs:160-182 | the connection's string is retargeted to the given database (unchanged when no keyword is present) and the connection is opened in every case, open or not according to the driver's answer |
| `Remote.RemoteDbSession.GetSchema` | XCode/DataAccessLayer/Common/RemoteDb.cs:120-133 | the log grows by the retry trace and the result is the first attempt's on success, otherwise the retry's through the fallback |
| `MetaData.ResolveName` | XCode/DataAccessLayer/Common/RemoteDb.cs:198-200 | a non-empty string in first position is the target; any target other than the session's database name is such a first string |
| `MetaData.Dispatch` | XCode/DataAccessLayer/Common/RemoteDb.cs:202-226 | a request goes through the fallback exactly for the three administrative kinds, each with the resolved name (creation with the rebuilt arguments); `TableExist` and only it is a count with the original values; every other kind is passed on with its kind and original values |
| `MetaData.CreateArgs` | XCode/DataAccessLayer/Common/RemoteDb.cs:211 | the rebuilt list has exactly two elements: the target name, then `values[1]` when there are at least two values and null otherwise |
| `MetaData.RemoteDbMetaData.DatabaseExist` | XCode/DataAccessLayer/Common/RemoteDb.cs:229-233 | the database exists exactly when the catalog count for its name is positive; a count failure propagates |
| `MetaData.RemoteDbMetaData.DropDatabase` | XCode/DataAccessLayer/Common/RemoteDb.cs:235-238 | the generic drop's boolean answer is returned; a failure propagates, a null answer is a null-reference failure, any other non-boolean answer a cast failure |
| `MetaData.RemoteDbMetaData.ProcessWithSystem` | XCode/DataAccessLayer/Common/RemoteDb.cs:240-243 | the same fallback as the session's, on a fresh session of the handle |
| `MetaData.RemoteDbMetaData.SetSchema` | XCode/DataAccessLayer/Common/RemoteDb.cs:195-227 | the log grows by the dispatch's trace and the result is the dispatch's result |
| `MetaData.SessionNameUnlessExplicit` | XCode/DataAccessLayer/Common/RemoteDb.cs:198-200 | the session's database name is the target when there are no values, they are empty, or the first is not a non-empty string |
| `MetaData.CreateArgsResolveToTarget` | XCode/DataAccessLayer/Common/RemoteDb.cs:198-213 | the rebuilt creation arguments name the same non-empty target again |
| `MetaData.AdministrativeKindsUseFallback` | XCode/DataAccessLayer/Common/RemoteDb.cs:202-226 | a `DatabaseExist`, `CreateDatabase` or `DropDatabase` request produces exactly the fallback's trace; every other request produces no connection event |
| `MetaData.TableExistCountsDirectly` | XCode/DataAccessLayer/Common/RemoteDb.cs:204-205 | `TableExist` answers count > 0 on the session with no fallback; a count failure propagates |
| `MetaData.OtherKindsPassThrough` | XCode/DataAccessLayer/Common/RemoteDb.cs:223-226 | every other kind reaches the generic `SetSchema` with its original arguments and no fallback |
| `MetaData.DatabaseExistAsksForExplicitName` | XCode/DataAccessLayer/Common/RemoteDb.cs:198-208 | an existence check for an explicit name counts that name, not the session's database |
| `MetaData.CreateDatabaseThroughSystem` | XCode/DataAccessLayer/Common/RemoteDb.cs:198-218 | creating a new database from a session on another database creates, opens, uses once and disposes one system-database connection, and the generic creation gets exactly `[name, option]` |

## Left out

- The ADO.NET objects are left out. `Connection` is a minimal stand-in with a state. The driver's
  answer to `Open` is a parameter. `Factory.CreateConnection` is taken never to fail.
- ConnectionStrings.ConnectionStringBuilder.TryAdd: add-if-absent is assumed from the method's
  name; NewLife's implementation is not part of this model. If it overwrites an existing
  `Pooling` value, pooling would always end up off, and the model does not establish that.
- Text.EqualIgnoreCase: folds only ASCII letters. The source's ordinal case-insensitive
  comparison also folds non-ASCII case pairs (such as É and é); the model treats those as
  different names.
- Remote.RemoteDb.User: the driver's connection-string builder is modelled as the same
  exact-keyword map as NewLife's builder. A driver builder that matches keywords
  case-insensitively or parses the text differently is not captured. A missing builder is
  modelled, as the `hasBuilder` argument.
- Remote.RemoteDb.DefaultConnectionString: the driver's builder is modelled as an exact-keyword
  map of its initial entries, and its `ToString` is not modelled; a missing builder is the
  `None` case.
- The session's own `Open`/`AutoClose` inside the server-version callback are folded into the
  `probe` outcome.
- SQL text is not modelled: `GetSchemaSQL` and `QueryCount` appear only as `Engine.count`.
- The generic base classes are not part of this model. Their `GetSchema`, `SetSchema` and
  `OnSetConnectionString` are parameters.
- These come from files that are not part of this model: the `DatabaseType` and `DDLSchema`
  enumerations (modelled with the members that matter here) and how a session derives
  `DatabaseName` (taken as the handle's `databaseName`).
- NewLife's `ConnectionStringBuilder` is modelled only as a map with exact keyword equality. Its
  text parsing and `ToString` are not modelled, nor is its case-insensitive keyword lookup.
- A session whose database is not a `RemoteDb` is not modelled. In that case
  `SystemDatabaseName` is null.
- The format string of `DAL.WriteLog` is not modelled. The log entry records the four arguments
  it is given.
- The commented-out wait after creating a database is not modelled.
- Concurrency is not modelled. The two caches are unsynchronised fields, and the model is
  sequential.
- `NewLife.PeerToPeer/Messages/CommandMessage/CommandMessageBase.cs` is left out. It holds only a
  message factory and a plain property, with no logic to model.
