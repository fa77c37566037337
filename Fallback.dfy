/**
 * The system-database fallback protocol of `RemoteDbSession`, as pure functions: which
 * connection events one call produces and what it returns. The methods in module Remote are
 * proved to follow these functions; the lemmas here state what the protocol guarantees.
 */
module Fallback {
  import opened Wrappers
  import opened Text
  import opened ConnectionStrings

  /** What a call into the driver or a callback can throw. */
  datatype Error = DbError(message: string) | CastError | NullReference

  /** `Exception.Message`. */
  function Message(e: Error): string
  {
    match e
    case DbError(m) => m
    case CastError => "Specified cast is not valid."
    case NullReference => "Object reference not set to an instance of an object."
  }

  /** What a callback can observe of the session it is handed. */
  datatype SessionState = SessionState(databaseName: NString, connectionString: Option<ConnStr>)

  /** The arguments of the diagnostic `GetSchema` writes before it retries. */
  datatype Diagnostic = Diagnostic(
    collection: string, message: string, connectionString: Option<ConnStr>, connName: string)

  /** The observable steps of a call: the fallback connection's lifecycle, callbacks, log lines. */
  datatype Event =
    | ConnectionCreated(cs: Option<ConnStr>)
    | ConnectionOpened(cs: Option<ConnStr>, ok: bool)
    | CallbackInvoked(session: SessionState)
    | ConnectionDisposed
    | LogWritten(diagnostic: Diagnostic)

  datatype EventKind = CreateKind | OpenKind | InvokeKind | DisposeKind | LogKind

  function KindOf(e: Event): EventKind
  {
    match e
    case ConnectionCreated(_) => CreateKind
    case ConnectionOpened(_, _) => OpenKind
    case CallbackInvoked(_) => InvokeKind
    case ConnectionDisposed => DisposeKind
    case LogWritten(_) => LogKind
  }

  /** How many events of kind `k` a trace holds. */
  function Count(t: seq<Event>, k: EventKind): nat
  {
    if t == [] then 0 else (if KindOf(t[0]) == k then 1 else 0) + Count(t[1..], k)
  }

  lemma {:induction false} CountConcat(a: seq<Event>, b: seq<Event>, k: EventKind)
    ensures Count(a + b, k) == Count(a, k) + Count(b, k)
  {
    if a == [] {
      assert a + b == b;
    } else {
      assert (a + b)[1..] == a[1..] + b;
      CountConcat(a[1..], b, k);
    }
  }

  /**
   * The branch condition of `ProcessWithSystem`: a second connection is needed when the
   * session names a database and that name is not the system database's, ignoring case.
   */
  predicate NeedsSystemConnection(databaseName: NString, systemName: string)
    ensures NeedsSystemConnection(databaseName, systemName) <==>
      databaseName.Some? && databaseName.value != "" && Lower(databaseName.value) != Lower(systemName)
  {
    !IsNullOrEmpty(databaseName) && !EqualIgnoreCase(databaseName.value, systemName)
  }

  /** The connection string after `OpenDatabase`; a null string has no keyword to rewrite. */
  function Retarget(cs: Option<ConnStr>, dbName: string): Option<ConnStr>
  {
    match cs
    case None => None
    case Some(m) => Some(RetargetDatabase(m, dbName))
  }

  /**
   * The events of one `ProcessWithSystem` call. `open` is the driver's answer to opening the
   * fallback connection: None when it opens, Some(e) when `Open` throws e.
   */
  function SystemTrace(st: SessionState, systemName: string, open: Option<Error>): (t: seq<Event>)
    ensures NeedsSystemConnection(st.databaseName, systemName) <==> ConnectionDisposed in t
    ensures CallbackInvoked(st) in t <==> open.None? || !NeedsSystemConnection(st.databaseName, systemName)
    ensures forall e :: e in t && e.CallbackInvoked? ==> e.session == st
    ensures !NeedsSystemConnection(st.databaseName, systemName) ==> |t| == 1
  {
    if NeedsSystemConnection(st.databaseName, systemName) then
      [ConnectionCreated(st.connectionString),
       ConnectionOpened(Retarget(st.connectionString, systemName), open.None?)]
      + (if open.None? then [CallbackInvoked(st)] else [])
      + [ConnectionDisposed]
    else
      [CallbackInvoked(st)]
  }

  /** What one `ProcessWithSystem` call returns when the callback yields `outcome`. */
  function ProcessResult<T>(st: SessionState, systemName: string, open: Option<Error>,
                            outcome: Result<T, Error>): (r: Result<T, Error>)
    ensures r == outcome || (open.Some? && r == Failure(open.value))
    ensures r != outcome ==> NeedsSystemConnection(st.databaseName, systemName) && open.Some?
    ensures open.None? ==> r == outcome
    ensures NeedsSystemConnection(st.databaseName, systemName) && open.Some? ==> r == Failure(open.value)
  {
    if NeedsSystemConnection(st.databaseName, systemName) && open.Some? then Failure(open.value)
    else outcome
  }

  /**
   * A fallback connection is created exactly when the branch condition holds, and every
   * connection that is created is opened once and disposed once, whatever the driver answers
   * and whatever the callback does; the direct branch creates and disposes nothing.
   */
  lemma SystemConnectionIff(st: SessionState, systemName: string, open: Option<Error>)
    ensures var t := SystemTrace(st, systemName, open);
      && Count(t, CreateKind) == (if NeedsSystemConnection(st.databaseName, systemName) then 1 else 0)
      && Count(t, OpenKind) == Count(t, CreateKind)
      && Count(t, DisposeKind) == Count(t, CreateKind)
  {
    var t := SystemTrace(st, systemName, open);
    if NeedsSystemConnection(st.databaseName, systemName) {
      var head := [ConnectionCreated(st.connectionString),
                   ConnectionOpened(Retarget(st.connectionString, systemName), open.None?)];
      var mid: seq<Event> := if open.None? then [CallbackInvoked(st)] else [];
      CountConcat(head + mid, [ConnectionDisposed], CreateKind);
      CountConcat(head, mid, CreateKind);
      CountConcat(head + mid, [ConnectionDisposed], OpenKind);
      CountConcat(head, mid, OpenKind);
      CountConcat(head + mid, [ConnectionDisposed], DisposeKind);
      CountConcat(head, mid, DisposeKind);
    }
  }

  /**
   * In the fallback branch the connection is created first and disposed last: nothing
   * happens in the call after the dispose, on the success path and on both failure paths.
   */
  lemma DisposedBeforeReturn(st: SessionState, systemName: string, open: Option<Error>)
    requires NeedsSystemConnection(st.databaseName, systemName)
    ensures var t := SystemTrace(st, systemName, open);
      && t[0] == ConnectionCreated(st.connectionString)
      && t[|t| - 1] == ConnectionDisposed
      && forall i :: 0 <= i < |t| - 1 ==> t[i] != ConnectionDisposed
  {
  }

  /**
   * Unless opening the fallback connection throws, the callback runs exactly once, it is
   * handed the session itself (never the extra connection), and its result is returned
   * unchanged, success or failure, in either branch.
   */
  lemma CallbackOnceWithSession<T>(st: SessionState, systemName: string, open: Option<Error>,
                                   outcome: Result<T, Error>)
    requires open.None? || !NeedsSystemConnection(st.databaseName, systemName)
    ensures var t := SystemTrace(st, systemName, open);
      && Count(t, InvokeKind) == 1
      && (forall e :: e in t && e.CallbackInvoked? ==> e.session == st)
      && ProcessResult(st, systemName, open, outcome) == outcome
  {
    var t := SystemTrace(st, systemName, open);
    if NeedsSystemConnection(st.databaseName, systemName) {
      var head := [ConnectionCreated(st.connectionString),
                   ConnectionOpened(Retarget(st.connectionString, systemName), true)];
      CountConcat(head + [CallbackInvoked(st)], [ConnectionDisposed], InvokeKind);
      CountConcat(head, [CallbackInvoked(st)], InvokeKind);
    }
  }

  /** When the fallback connection cannot be opened, the callback never runs and the failure propagates. */
  lemma OpenFailurePropagates<T>(st: SessionState, systemName: string, open: Option<Error>,
                                 outcome: Result<T, Error>)
    requires NeedsSystemConnection(st.databaseName, systemName) && open.Some?
    ensures Count(SystemTrace(st, systemName, open), InvokeKind) == 0
    ensures ProcessResult(st, systemName, open, outcome) == Failure(open.value)
  {
    var t := SystemTrace(st, systemName, open);
    assert t == [ConnectionCreated(st.connectionString),
                 ConnectionOpened(Retarget(st.connectionString, systemName), false),
                 ConnectionDisposed];
    assert Count(t[1..][1..][1..], InvokeKind) == 0;
    assert Count(t[1..][1..], InvokeKind) == 0;
    assert Count(t[1..], InvokeKind) == 0;
  }

  /**
   * The fallback connection is opened against the system database whenever the session's
   * connection string names its database under one of the two recognised keywords.
   */
  lemma FallbackTargetsSystemDatabase(st: SessionState, systemName: string, open: Option<Error>)
    requires NeedsSystemConnection(st.databaseName, systemName)
    requires st.connectionString.Some? && DatabaseKey(st.connectionString.value).Some?
    ensures var t := SystemTrace(st, systemName, open);
      var key := DatabaseKey(st.connectionString.value).value;
      && t[1].ConnectionOpened? && t[1].cs.Some?
      && key in t[1].cs.value && t[1].cs.value[key] == systemName
  {
  }

  /** A session already on the system database, in any letter case, takes the direct branch. */
  lemma SystemNameInAnyCaseIsDirect(st: SessionState, systemName: string)
    requires st.databaseName.Some? && Lower(st.databaseName.value) == Lower(systemName)
    ensures !NeedsSystemConnection(st.databaseName, systemName)
  {
    EqualIgnoreCaseIsLowerEquality(st.databaseName.value, systemName);
  }

  /** The events of one `GetSchema` call, given the outcome of its first, direct attempt. */
  function GetSchemaTrace<T>(st: SessionState, systemName: string, collection: string,
                             connName: string, first: Result<T, Error>,
                             open: Option<Error>): seq<Event>
  {
    if first.Success? then []
    else
      [LogWritten(Diagnostic(collection, Message(first.error), st.connectionString, connName))]
      + SystemTrace(st, systemName, open)
  }

  /** What one `GetSchema` call returns, given the outcomes of the direct attempt and of the retry. */
  function GetSchemaResult<T>(st: SessionState, systemName: string, first: Result<T, Error>,
                              open: Option<Error>, retried: Result<T, Error>): Result<T, Error>
  {
    if first.Success? then first else ProcessResult(st, systemName, open, retried)
  }

  /**
   * `GetSchema` retries exactly once: a first success is returned with no log line and no
   * fallback; a first failure writes one diagnostic, then makes one attempt through the
   * fallback whose failure propagates, and every connection it creates is disposed.
   */
  lemma GetSchemaRetriesOnce<T>(st: SessionState, systemName: string, collection: string,
                                connName: string, first: Result<T, Error>, open: Option<Error>,
                                retried: Result<T, Error>)
    ensures var t := GetSchemaTrace(st, systemName, collection, connName, first, open);
      var r := GetSchemaResult(st, systemName, first, open, retried);
      && (first.Success? ==> t == [] && r == first)
      && (first.Failure? ==>
            && t[0].LogWritten? && t[0].diagnostic.message == Message(first.error)
            && Count(t, LogKind) == 1
            && Count(t, InvokeKind) <= 1
            && Count(t, DisposeKind) == Count(t, CreateKind))
      && (first.Failure? && (open.None? || !NeedsSystemConnection(st.databaseName, systemName)) ==>
            Count(t, InvokeKind) == 1 && r == retried)
      && (first.Failure? && open.Some? && NeedsSystemConnection(st.databaseName, systemName) ==>
            r == Failure(open.value))
  {
    if first.Failure? {
      var log := [LogWritten(Diagnostic(collection, Message(first.error), st.connectionString, connName))];
      var inner := SystemTrace(st, systemName, open);
      SystemConnectionIff(st, systemName, open);
      CountConcat(log, inner, LogKind);
      CountConcat(log, inner, InvokeKind);
      CountConcat(log, inner, CreateKind);
      CountConcat(log, inner, DisposeKind);
      if open.None? || !NeedsSystemConnection(st.databaseName, systemName) {
        CallbackOnceWithSession(st, systemName, open, retried);
      } else {
        OpenFailurePropagates(st, systemName, open, retried);
      }
      if !NeedsSystemConnection(st.databaseName, systemName) {
        assert Count(inner, LogKind) == 0;
      } else {
        var head := [ConnectionCreated(st.connectionString),
                     ConnectionOpened(Retarget(st.connectionString, systemName), open.None?)];
        var mid: seq<Event> := if open.None? then [CallbackInvoked(st)] else [];
        CountConcat(head + mid, [ConnectionDisposed], LogKind);
        CountConcat(head, mid, LogKind);
      }
      assert Count(inner, LogKind) == 0;
    }
  }
}
