/** The `dbmysqli` object itself: the fields the source updates in place, and one method per
    operation, each proved to change those fields exactly as the matching function of
    SessionSpec says. The mysqli driver is outside the model: what it reports comes in as
    parameters (a ConnectAttempt for connecting, a Driver for one statement) and the calls
    made on it are recorded in a ghost trace. */
module Db {
  import opened Php
  import opened Exceptions
  import opened ConnectionRegistry
  import opened Coercion
  import opened SessionSpec

  class DbMysqli {
    /** the process-wide registry of `mysql_connect` */
    const registry: Registry
    /** the configured `DB_MYSQLI_*` connection defaults */
    const defaults: Credentials

    var db: Connection?
    var isConnected: bool
    /** the last fatal error of the current call, `false` in the source when there is none */
    var error: Option<string>
    var inTransaction: bool
    var rollback: bool
    var failedConnectionsCount: nat
    var failedConnectionsTreshold: int
    var keepLiveLog: bool
    var dbLiveStats: seq<QueryStat>
    var dbErrors: seq<ErrorRecord>
    var throwQueryExceptions: bool
    var executedQueries: nat
    /** the calls this session made on the driver, oldest first */
    ghost var calls: seq<DriverCall>

    /** The bookkeeping fields as one value. */
    ghost function State(): SessionState
      reads this
    {
      SessionState(isConnected, failedConnectionsCount, failedConnectionsTreshold, error, inTransaction, rollback,
                   throwQueryExceptions, keepLiveLog, executedQueries, dbErrors, dbLiveStats, calls)
    }

    /** A session holds a handle exactly when it is connected, and its bookkeeping is
        Consistent: only in a transaction while connected, and in one exactly when it last
        switched the driver's autocommit off. */
    ghost predicate Valid()
      reads this`isConnected, this`db, this`inTransaction, this`calls
    {
      (isConnected <==> db != null) &&
      (inTransaction ==> isConnected) &&
      inTransaction == AutocommitOff(calls)
    }

    /** Whether the registry already holds a connection for these credentials. */
    ghost predicate Known(c: Credentials)
      reads registry
    {
      Identifier(c) in registry.instances
    }

    /** What connecting with `c` does to the handle and the registry. The registry gains
        an entry only when the session became connected and no connection for `c` was
        registered yet, and that entry is the session's new handle; otherwise the registry
        is as it was. A session that becomes connected holds the registered connection for
        `c`; otherwise the handle stays. */
    twostate predicate Linked(c: Credentials)
      reads this`db, this`isConnected, registry
    {
      var added := !old(isConnected) && isConnected && Identifier(c) !in old(registry.instances);
      (added ==> db != null && registry.instances == old(registry.instances)[Identifier(c) := db]) &&
      (!added ==> registry.instances == old(registry.instances)) &&
      (!old(isConnected) && isConnected ==> Identifier(c) in registry.instances && db == registry.instances[Identifier(c)]) &&
      (old(isConnected) || !isConnected ==> db == old(db))
    }

    /** `__construct()`: a fresh session, neither connected nor in a transaction. */
    constructor (registry: Registry, defaults: Credentials)
      ensures Valid()
      ensures this.registry == registry && this.defaults == defaults && db == null
      ensures State() == Initial
    {
      this.registry := registry;
      this.defaults := defaults;
      db := null;
      isConnected := false;
      error := None;
      inTransaction := false;
      rollback := false;
      failedConnectionsCount := 0;
      failedConnectionsTreshold := 10;
      keepLiveLog := false;
      dbLiveStats := [];
      dbErrors := [];
      throwQueryExceptions := false;
      executedQueries := 0;
      calls := [];
    }

    /** `new dbmysqli($inTransaction)`: a fresh session which, when asked to, begins a
        transaction with the default credentials straight away. */
    static method New(registry: Registry, defaults: Credentials, inTransaction: bool, a: ConnectAttempt)
      returns (session: DbMysqli, o: Outcome<bool>)
      modifies registry
      ensures fresh(session) && session.Valid()
      ensures session.registry == registry && session.defaults == defaults
      ensures !inTransaction ==> session.State() == Initial && o == Done(false)
      ensures inTransaction ==>
        Step(session.State(), o) == Begin(Initial, Identifier(defaults) in old(registry.instances), a)
      ensures var added := session.isConnected && Identifier(defaults) !in old(registry.instances);
        (added ==> session.db != null && registry.instances == old(registry.instances)[Identifier(defaults) := session.db]) &&
        (!added ==> registry.instances == old(registry.instances))
      ensures session.isConnected ==>
        Identifier(defaults) in registry.instances && session.db == registry.instances[Identifier(defaults)]
    {
      session := new DbMysqli(registry, defaults);
      o := Done(false);
      if inTransaction {
        assert WithDefaults(NoCredentials, defaults) == defaults;
        o := session.BeginTransaction(NoCredentials, a);
      }
    }

    /** One call on the driver's connection or statement object, recorded in the trace. */
    ghost method Record(c: DriverCall)
      modifies this`calls
      ensures calls == old(calls) + [c]
      ensures !c.Autocommit? ==> AutocommitOff(calls) == AutocommitOff(old(calls))
    {
      calls := calls + [c];
    }

    /** `_logError`. */
    method LogError(query: Option<string>, errno: int, severity: Severity, err: string) returns (o: Outcome<bool>)
      modifies this`dbErrors, this`rollback, this`error
      ensures Step(State(), o) == Log(old(State()), query, errno, severity, err)
    {
      var complete: string;
      if EmptyString(err) {
        complete := NotSpecified;
      } else if severity == NonFatal {
        complete := NoticePrefix + err;
      } else {
        complete := ErrorPrefix + err;
        rollback := true;
      }
      dbErrors := dbErrors + [ErrorRecord(query, executedQueries, errno, severity, complete)];
      if severity == Fatal {
        error := Some(ErrorText(errno, err));
        return Raised(NewQueryException(query, err, errno));
      }
      o := Done(true);
    }

    // ----- connections -----

    /** `_connectToDatabase`. */
    method ConnectToDatabase(c: Credentials, a: ConnectAttempt) returns (o: Outcome<bool>)
      requires Valid()
      modifies this`isConnected, this`db, this`failedConnectionsCount, this`dbErrors, this`rollback, this`error, registry
      ensures Valid()
      ensures Step(State(), o) == Connect(old(State()), old(Known(c)), a)
      ensures Linked(c)
    {
      ConnectConsistent(State(), Known(c), a);
      if !isConnected {
        if failedConnectionsCount < failedConnectionsTreshold {
          var r := registry.GetInstance(c, a);
          if r.Raised? {
            if r.ex.MysqliSqlException? {
              o := ConnectFailed(r.ex.message);
              return;
            }
            return Raised(r.ex);
          }
          db := r.value;
          isConnected := true;
        } else {
          return Raised(DatabaseException(TooManyAttempts));
        }
      }
      o := Done(isConnected);
    }

    /** The `catch` block of `_connectToDatabase`: count the failure, then log it as
        fatal, which throws. */
    method ConnectFailed(message: string) returns (o: Outcome<bool>)
      modifies this`failedConnectionsCount, this`dbErrors, this`rollback, this`error
      ensures Step(State(), o) == Log(old(State()).(failedConnectionsCount := old(failedConnectionsCount) + 1), None, 0, Fatal, message)
    {
      failedConnectionsCount := failedConnectionsCount + 1;
      o := LogError(None, 0, Fatal, message);
    }

    /** `registerConnection`: connect with the given parameters, each empty one replaced by
        its default, unless already connected; answers whether the session is connected. */
    method RegisterConnection(given: Credentials, a: ConnectAttempt) returns (o: Outcome<bool>)
      requires Valid()
      modifies this`isConnected, this`db, this`failedConnectionsCount, this`dbErrors, this`rollback, this`error, registry
      ensures Valid()
      ensures Step(State(), o) == Connect(old(State()), old(Known(WithDefaults(given, defaults))), a)
      ensures Linked(WithDefaults(given, defaults))
    {
      if !isConnected {
        var r := ConnectToDatabase(WithDefaults(given, defaults), a);
        if r.Raised? {
          return r;
        }
      }
      o := Done(isConnected);
    }

    // ----- transactions -----

    /** `beginTransaction`. */
    method BeginTransaction(given: Credentials, a: ConnectAttempt) returns (o: Outcome<bool>)
      requires Valid()
      modifies this`isConnected, this`db, this`failedConnectionsCount, this`dbErrors, this`rollback, this`error, registry
      modifies this`inTransaction, this`throwQueryExceptions, this`calls
      ensures Valid()
      ensures Step(State(), o) == Begin(old(State()), old(Known(WithDefaults(given, defaults))), a)
      ensures Linked(WithDefaults(given, defaults))
    {
      BeginConsistent(State(), Known(WithDefaults(given, defaults)), a);
      if !inTransaction {
        var r := RegisterConnection(given, a);
        if r.Raised? {
          return r;
        }
        if r.value {
          OpenTransaction();
        }
      }
      o := Done(inTransaction);
    }

    /** The body of `beginTransaction` once connected: mark the transaction open, switch
        query exceptions on and autocommit off. */
    method OpenTransaction()
      requires Valid() && isConnected && !inTransaction
      modifies this`inTransaction, this`throwQueryExceptions, this`calls
      ensures Valid()
      ensures State() == old(State()).(inTransaction := true, throwQueryExceptions := true, calls := old(calls) + [Autocommit(false)])
    {
      inTransaction := true;
      throwQueryExceptions := true;
      Record(Autocommit(false));
      AutocommitOffAfter(old(calls), false);
    }

    /** `endTransaction`: always answers false. */
    method EndTransaction() returns (r: bool)
      requires Valid()
      modifies this`rollback, this`inTransaction, this`calls
      ensures Valid()
      ensures State() == End(old(State())) && !r
    {
      EndConsistent(State());
      if inTransaction {
        if !rollback {
          Record(Commit);
        } else {
          Record(Rollback);
          rollback := false;
        }
        Record(Autocommit(true));
        inTransaction := false;
      }
      r := inTransaction;
    }

    /** `__destruct`: end the transaction when connected or in one. */
    method Destruct()
      requires Valid()
      modifies this`rollback, this`inTransaction, this`calls
      ensures Valid()
      ensures State() == End(old(State()))
    {
      if isConnected || inTransaction {
        var _ := EndTransaction();
      }
    }

    // ----- the statement pipeline -----

    /** `_executeQuery`. */
    method ExecuteQuery(sql: Option<string>, args: seq<PValue>, a: ConnectAttempt, d: Driver) returns (o: Outcome<bool>)
      requires Valid()
      modifies this`isConnected, this`db, this`failedConnectionsCount, this`dbErrors, this`rollback, this`error, registry
      modifies this`calls
      ensures Valid()
      ensures Step(State(), o) == SessionSpec.ExecuteQuery(old(State()), old(Known(defaults)), a, sql, args, d)
      ensures Linked(defaults)
    {
      assert WithDefaults(NoCredentials, defaults) == defaults;
      var connected := RegisterConnection(NoCredentials, a);
      if connected.Raised? {
        return Raised(connected.ex);
      }
      StatementConsistent(State(), sql, args, d);
      o := RunStatement(sql, args, d);
    }

    /** The statement part of `_executeQuery`: infer the bind types and prepare; a failed
        prepare is fatal. */
    method RunStatement(sql: Option<string>, args: seq<PValue>, d: Driver) returns (o: Outcome<bool>)
      modifies this`dbErrors, this`rollback, this`error, this`calls
      ensures Step(State(), o) == Statement(old(State()), sql, args, d)
    {
      ghost var s := State();
      var types, values := CastValues(args);
      Record(Prepare(sql));
      if !d.prepareOk {
        o := LogError(sql, d.prepareErrno, Fatal, d.prepareError);
        return;
      }
      o := BindAndExecute(s, sql, types, values, d);
    }

    /** The rest of `_executeQuery` once the statement is prepared: bind the arguments
        unless an error is recorded (a failed bind is fatal), then execute, or log a notice
        when the statement is not run and no error is recorded. */
    method BindAndExecute(ghost s: SessionState, sql: Option<string>, types: string, values: seq<PValue>, d: Driver)
      returns (o: Outcome<bool>)
      requires d.prepareOk && types == Signature(values)
      requires State() == s.(calls := s.calls + [Prepare(sql)])
      modifies this`dbErrors, this`rollback, this`error, this`calls
      ensures Step(State(), o) == Statement(s, sql, values, d)
    {
      StatementByStage(s, sql, values, d);
      var executeQuery := false;
      if |values| > 0 {
        if error.None? {
          Record(BindParam(types, values));
          executeQuery := d.bindOk;
          if !executeQuery {
            assert calls == s.calls + [Prepare(sql), BindParam(types, values)];
            o := LogError(sql, d.bindErrno, Fatal, BindFailure);
            return;
          }
        }
      } else if !EmptyText(sql) {
        executeQuery := true;
      }
      if executeQuery && d.prepareOk {
        Record(Execute);
        assert calls == s.calls + StatementCalls(s.error.Some?, sql, values, d);
      } else if error.None? {
        var _ := LogError(sql, 0, NonFatal, GeneralError);
      }
      o := Done(executeQuery);
    }

    /** `_executeResultArray`. */
    method ExecuteResultArray(d: Driver) returns (o: Outcome<Value>)
      requires WellFormed(d)
      modifies this`dbErrors, this`rollback, this`error
      ensures Step(State(), o) == ResultArray(old(State()), d)
    {
      if error.Some? {
        return Done(Bool(false));
      }
      if !EmptyString(d.stmtError) {
        var e := LogError(None, d.stmtErrno, Fatal, d.stmtError);
        return Raised(e.ex);
      }
      match d.metadata
      case Some(fields) =>
        var rows := FetchRows(fields, d.fetched);
        o := Done(Rows(rows));
      case None =>
        if d.stmtErrno == 0 {
          o := Done(Bool(true));
        } else {
          o := Done(Int(d.stmtErrno));
        }
    }

    /** `_logStatistics`: answers whether an entry was appended. */
    method LogStatistics(sql: Option<string>, c: Counters) returns (logged: bool)
      modifies this`dbLiveStats
      ensures State() == Statistics(old(State()), sql, c)
      ensures logged == keepLiveLog
    {
      logged := false;
      if keepLiveLog {
        var n := 0;
        if isConnected {
          var info := ResultInfo(error, c);
          if info.Some? {
            n := info.value.numRows;
          }
        }
        dbLiveStats := dbLiveStats + [QueryStat(sql, n, error, inTransaction)];
        logged := true;
      }
    }

    /** The part of `__call` after the statement: fetch what the request asks for, then
        record the statistics entry. */
    method Complete(req: Request, sql: Option<string>, d: Driver) returns (o: Outcome<Value>)
      requires WellFormed(d)
      modifies this`dbErrors, this`rollback, this`error, this`dbLiveStats
      ensures Step(State(), o) == Finish(old(State()), req, sql, d)
    {
      var result: Value;
      if req == QueryRequest {
        var r := ExecuteResultArray(d);
        if r.Raised? {
          return r;
        }
        result := r.value;
      } else {
        var info := ResultInfo(error, d.counters);
        result := InfoValue(req, info);
      }
      var _ := LogStatistics(sql, d.counters);
      o := Done(result);
    }

    /** The head of `__call`: clear the recorded error and count the query. */
    method StartCall()
      modifies this`error, this`executedQueries
      ensures State() == CallStart(old(State()))
    {
      error := None;
      executedQueries := executedQueries + 1;
    }

    /** `__call` for `query`, `numRows` and `insertId`: clear the recorded error, count the
        query, run the statement, then complete the call. */
    method Invoke(req: Request, sql: Option<string>, args: seq<PValue>, a: ConnectAttempt, d: Driver) returns (o: Outcome<Value>)
      requires Valid() && WellFormed(d)
      modifies this`error, this`executedQueries, this`dbLiveStats, this`calls
      modifies this`isConnected, this`db, this`failedConnectionsCount, this`dbErrors, this`rollback, registry
      ensures Valid()
      ensures Step(State(), o) == CallRequest(old(State()), old(Known(defaults)), req, sql, args, a, d)
      ensures Linked(defaults)
    {
      StartCall();
      o := Serve(req, sql, args, a, d);
    }

    /** The rest of `__call` once the query is counted: run the statement, and when it did
        not throw, answer the request and log the statistics. */
    method Serve(req: Request, sql: Option<string>, args: seq<PValue>, a: ConnectAttempt, d: Driver) returns (o: Outcome<Value>)
      requires Valid() && WellFormed(d)
      modifies this`error, this`executedQueries, this`dbLiveStats, this`calls
      modifies this`isConnected, this`db, this`failedConnectionsCount, this`dbErrors, this`rollback, registry
      ensures Valid()
      ensures var q := SessionSpec.ExecuteQuery(old(State()), old(Known(defaults)), a, sql, args, d);
        Step(State(), o) == if q.out.Raised? then Step(q.state, Raised(q.out.ex)) else Finish(q.state, req, sql, d)
      ensures Linked(defaults)
    {
      var q := ExecuteQuery(sql, args, a, d);
      if q.Raised? {
        return Raised(q.ex);
      }
      o := Complete(req, sql, d);
    }

    /** `$db->query($sql, ...$args)`: the rows, true or the errno. */
    method Query(sql: Option<string>, args: seq<PValue>, a: ConnectAttempt, d: Driver) returns (o: Outcome<Value>)
      requires Valid() && WellFormed(d)
      modifies this`error, this`executedQueries, this`dbLiveStats, this`calls
      modifies this`isConnected, this`db, this`failedConnectionsCount, this`dbErrors, this`rollback, registry
      ensures Valid()
      ensures Step(State(), o) == CallRequest(old(State()), old(Known(defaults)), QueryRequest, sql, args, a, d)
      ensures Linked(defaults)
    {
      o := Invoke(QueryRequest, sql, args, a, d);
    }

    /** `$db->numRows($sql, ...$args)`: the row count, or null after an error. */
    method NumRows(sql: Option<string>, args: seq<PValue>, a: ConnectAttempt, d: Driver) returns (o: Outcome<Value>)
      requires Valid() && WellFormed(d)
      modifies this`error, this`executedQueries, this`dbLiveStats, this`calls
      modifies this`isConnected, this`db, this`failedConnectionsCount, this`dbErrors, this`rollback, registry
      ensures Valid()
      ensures Step(State(), o) == CallRequest(old(State()), old(Known(defaults)), NumRowsRequest, sql, args, a, d)
      ensures Linked(defaults)
    {
      o := Invoke(NumRowsRequest, sql, args, a, d);
    }

    /** `$db->insertId($sql, ...$args)`: the last insert id, or null after an error. */
    method InsertId(sql: Option<string>, args: seq<PValue>, a: ConnectAttempt, d: Driver) returns (o: Outcome<Value>)
      requires Valid() && WellFormed(d)
      modifies this`error, this`executedQueries, this`dbLiveStats, this`calls
      modifies this`isConnected, this`db, this`failedConnectionsCount, this`dbErrors, this`rollback, registry
      ensures Valid()
      ensures Step(State(), o) == CallRequest(old(State()), old(Known(defaults)), InsertIdRequest, sql, args, a, d)
      ensures Linked(defaults)
    {
      o := Invoke(InsertIdRequest, sql, args, a, d);
    }

    /** `__call`: dispatch on the method name; any other name answers "Method not
        supported!" and is still logged. */
    method Call(name: string, sql: Option<string>, args: seq<PValue>, a: ConnectAttempt, d: Driver) returns (o: Outcome<Value>)
      requires Valid() && WellFormed(d)
      modifies this, registry
      ensures Valid()
      ensures Step(State(), o) == SessionSpec.Call(old(State()), old(Known(defaults)), name, sql, args, a, d)
      ensures Linked(defaults)
    {
      match RequestFor(name)
      case Some(req) =>
        o := Invoke(req, sql, args, a, d);
      case None =>
        error := None;
        var _ := LogStatistics(sql, d.counters);
        o := Done(Text(NotSupported));
    }
  }
}
