# dbmysqli session, connection registry and query exception

A Dafny model of the core of `unreal4u/db_mysqli`, a parameterised-query layer over PHP's
mysqli driver. It covers three parts:

- the bookkeeping of a `dbmysqli` session:
  - connecting through the process-wide registry;
  - the failed-connection counter and its threshold;
  - transactions and the rollback flag;
  - preparing, binding and executing one statement per `query`/`numRows`/`insertId` call;
  - the error log `dbErrors` and the statistics log `dbLiveStats`;
  - the bind-type letters chosen for the arguments, and the classification of fetched
    columns by field type code;
- the registry `mysql_connect`, with one connection object per credential tuple;
- the message and code of `exceptions\query`.

Files, one module each:

- `php.dfy` (`Php`): PHP scalar values, `empty()`, truthiness, and the decimal text of an
  integer.
- `exceptions.dfy` (`Exceptions`): the three exception kinds; `Outcome`, which is either a
  value or a thrown exception; the query exception message.
- `registry.dfy` (`ConnectionRegistry`): the classes `Connection` and `Registry`. `Registry`
  holds the `instances` map that `getInstance` updates in place.
- `coercion.dfy` (`Coercion`): `_castValues` with the loose `switch`, and the fetch loop of
  `_executeResultArray` with its field-type table.
- `session_spec.dfy` (`SessionSpec`):
  - the session's bookkeeping as a value, `SessionState`;
  - one function per operation, giving the new state and the outcome;
  - the lemmas that state what the library promises about the operations.
- `session.dfy` (`Db`): the class `DbMysqli`. It has the source's fields, and one method per
  operation. Each method is proved to change the fields exactly as its SessionSpec function
  says.

The mysqli driver is not modelled. What it reports comes in as parameters:

- a `ConnectAttempt` for building a connection;
- a `Driver` for one statement: whether prepare succeeded, whether bind succeeded, errno and
  error text, the counters, the field metadata, and the fetched raw rows.

The calls the session makes on the driver are recorded in the ghost trace `calls`: prepare,
bind, execute, commit, rollback and autocommit. A PHP exception is a `Raised` outcome. Every
method returns at once on `Raised`, so any change made before the throw stays in place (a
log entry, the rollback flag, the recorded error).

Some PHP function bodies are split over several Dafny methods, and each such method names
the lines it covers:

- `__call` is `Call`, `Invoke`, `StartCall`, `Serve` and `Complete`;
- `_executeQuery` is `ExecuteQuery`, `RunStatement` and `BindAndExecute`;
- `beginTransaction` is `BeginTransaction` and `OpenTransaction`;
- the `catch` block of `_connectToDatabase` is `ConnectFailed`.

`Query`, `NumRows` and `InsertId` are the three magic methods that `__call` serves.

Where the code and its documented intent disagree, the model follows the code:

- A fatal `_logError` always throws. `throwQueryExceptions` is set by `beginTransaction` but
  never read, so no mode returns false instead of throwing.
- A fatal error with an empty description is logged as "(not specified)" and does not set
  the rollback flag.
- The rollback flag is set outside transactions too. `beginTransaction` does not clear it, so
  the next transaction rolls back (`RollbackSurvivesBegin`).
- Connection failures reach the session as `exceptions\database`. Only a
  `\mysqli_sql_exception` escaping the registry moves the failed-connection counter; a
  failure the driver reports never does (`ReportedFailureNotCounted`). The
  fatal log entry made in that `catch` throws a query exception, so the `_throwException`
  that follows it never runs.
- `_castValues` switches on the value with loose comparison, not on `true`. So `null`,
  `false`, `0` and `0.0` get "s", and the string "0" gets "i".
- The registry key concatenates the five fields without a separator, so different tuples can
  share one connection (`UnseparatedKeysCollide`).
- Statistics are recorded only for calls that complete without throwing.

## Model

| member | source | states |
|---|---|---|
| Php.NatToStringRoundTrip | src/unreal4u/dbmysqli.php:611 | the decimal text of a natural number reads back as that number (the digits of the errno concatenated into `_error`) |
| Exceptions.QueryMessageShape | src/unreal4u/exceptions/query.php:14-17 | the error text is a prefix of the message; the message is the error text alone exactly when the query is empty (null, "" or "0"); otherwise it is followed by "; Query: " and the query |
| Exceptions.NewQueryException | src/unreal4u/exceptions/query.php:12-19 | a query exception carries the supplied errno as its code and the query message built from the query and the error text |
| Exceptions.QueryMessageDeterminesQuery | src/unreal4u/exceptions/query.php:14-17 | for one error text, two messages are equal exactly when both queries are empty or they are the same query |
| ConnectionRegistry.UnseparatedKeysCollide | src/unreal4u/auxiliar_classes.php:29 | two different credential tuples with the same concatenation get the same registry key |
| ConnectionRegistry.ConstructionError | src/unreal4u/auxiliar_classes.php:52-74 | construction fails exactly when the driver threw, reported a connect error, or raised after the link was made. A driver throw or connect error becomes exactly the database exception with the fixed prefix followed by the driver's connect error. Otherwise a failure after the link is exactly the driver's own `\mysqli_sql_exception` with its message |
| ConnectionRegistry.Connection.Open | src/unreal4u/auxiliar_classes.php:52-64 | a failed construction throws that exception and yields no object; a successful one yields a fresh connected object |
| ConnectionRegistry.Connection.Clone | src/unreal4u/auxiliar_classes.php:43-45 | cloning always throws a database exception with the refusal text |
| ConnectionRegistry.Connection.Destruct | src/unreal4u/auxiliar_classes.php:79-84 | the link is closed once, only if it was open; the object is then disconnected, so a second destruct closes nothing |
| ConnectionRegistry.Registry.constructor | src/unreal4u/auxiliar_classes.php:17 | the registry starts empty |
| ConnectionRegistry.Registry.GetInstance | src/unreal4u/auxiliar_classes.php:28-36 | a registered key returns its stored connection and changes nothing. An absent key with a failing construction throws and stores nothing. Otherwise a fresh connected object is stored under the key. No entry is replaced or removed |
| ConnectionRegistry.Registry.GetInstanceTwice | src/unreal4u/auxiliar_classes.php:28-36 | once a request succeeds, a second request for the same credentials returns the same object |
| Coercion.BindLetterMatchesTable | src/unreal4u/dbmysqli.php:369-389 | the loose `switch` gives "s" for null, false, 0, 0.0 and strings other than "0"; "i" for true, non-zero integers and "0"; "d" for non-zero floats; always one of i, d, s |
| Coercion.SignatureShape | src/unreal4u/dbmysqli.php:366-392 | the type string has exactly one letter per argument, in argument order, each given by the table |
| Coercion.SignatureHasNoBlob | src/unreal4u/dbmysqli.php:354-392 | the blob letter "b" never occurs |
| Coercion.CastValues | src/unreal4u/dbmysqli.php:365-400 | the loop returns the arguments unchanged and the type string of the whole list ("" for no arguments) |
| Coercion.DecodeCell | src/unreal4u/dbmysqli.php:515-531 | codes 7, 10, 11 and 12 become a date-time only for a non-null value; code 16 becomes a boolean; codes 4, 5 and 246 become a float; every other code, and a null date-time, keeps the raw value; the raw value is always kept |
| Coercion.DecodeRow | src/unreal4u/dbmysqli.php:497-546 | a decoded row is keyed by exactly the field names |
| Coercion.DecodeRowAt | src/unreal4u/dbmysqli.php:511-546 | a column's name maps to that column's decoding unless a later column has the same name |
| Coercion.DecodeRowDistinct | src/unreal4u/dbmysqli.php:497-546 | with distinct field names, every column appears under its own name with its own decoding |
| Coercion.DecodeRows | src/unreal4u/dbmysqli.php:510-547 | one decoded row per fetch |
| Coercion.DecodeRowsAt | src/unreal4u/dbmysqli.php:510-547 | row k of the result is the decoding of the k-th fetch and has every field name |
| Coercion.FetchRows | src/unreal4u/dbmysqli.php:510-547 | the fetch loop produces the decoded rows in fetch order |
| SessionSpec.RequestFor | src/unreal4u/dbmysqli.php:155-158 | exactly "query", "numRows" and "insertId" are served |
| SessionSpec.LogTextShape | src/unreal4u/dbmysqli.php:593-600 | an empty description is logged as "(not specified)". Otherwise the text ends with the description. Exactly a fatal error with a description gets "[ERROR] ", and exactly a notice with one gets "[NOTICE] " |
| SessionSpec.ErrorText | src/unreal4u/dbmysqli.php:611 | the recorded error text starts with "[" |
| SessionSpec.NumRowsOf | src/unreal4u/dbmysqli.php:463-471 | the row count is affected_rows when positive; otherwise num_rows when it is set, and 0 when it is not; it is never negative for non-negative counters |
| SessionSpec.ResultInfo | src/unreal4u/dbmysqli.php:459-477 | the info is empty exactly when an error is recorded; otherwise it holds the row count and the insert id |
| SessionSpec.ExecutedOnlyWhenPreparedAndBound | src/unreal4u/dbmysqli.php:423-443 | a statement runs exactly when it was prepared and then either bound (with arguments and no error recorded) or has a non-empty query (without arguments) |
| SessionSpec.WithDefaults | src/unreal4u/dbmysqli.php:294-312 | each empty connection parameter is replaced by its default; the others are kept |
| SessionSpec.LogEffect | src/unreal4u/dbmysqli.php:592-616 | logging appends exactly one entry with the current query number, the query, the errno, the severity and the text LogText(severity, description), and changes nothing but the log, the rollback flag and the recorded error. The flag is newly set exactly for a fatal error with a description, which is when the entry has the "[ERROR] " prefix, so a notice never sets it. Exactly fatal entries throw, and what they throw is the query exception of the query, the description and the errno, after recording "[errno] description". A notice returns true and keeps the recorded error |
| SessionSpec.ConnectEffect | src/unreal4u/dbmysqli.php:325-349 | connecting succeeds exactly when the session is connected already, or is below the threshold with the credentials registered or constructible; a failed connect leaves the session disconnected. At the threshold it throws the database exception "Too many attempts to connect to database, not trying anymore" and changes nothing. A database exception from the registry passes through unchanged. The counter moves by one only for a `\mysqli_sql_exception`, which is the only failure that is logged and throws a query exception. A connected session is left unchanged. Nothing else changes |
| SessionSpec.ReportedFailureNotCounted | src/unreal4u/dbmysqli.php:330-343 | a connect failure the driver reports (a throw or a connect error) neither moves the failed-connection counter nor writes a log entry, and an unconnected session with unregistered credentials throws a database exception for it |
| SessionSpec.ConnectSteps | src/unreal4u/dbmysqli.php:325-349 | connecting makes no driver call on the session's trace, keeps the query count, the switches and the statistics, only extends the log, and fails whenever it cannot connect |
| SessionSpec.StatementTrace | src/unreal4u/dbmysqli.php:419-447 | a statement always prepares; it binds with the inferred types when there are arguments and no error is recorded; it executes exactly when it runs; it throws the prepare or bind failure, otherwise answers whether it ran |
| SessionSpec.StatementLog | src/unreal4u/dbmysqli.php:423-447 | a statement logs exactly for a failed prepare or bind (fatal, with the driver's or the bind message) and for a statement that does not run while no error is recorded (the "General error" notice); nothing but the trace, the log, the flag and the recorded error changes |
| SessionSpec.StatementRollback | src/unreal4u/dbmysqli.php:423-447 | a statement sets the rollback flag exactly on a bind failure or on a prepare failure with a description |
| SessionSpec.StatementSteps | src/unreal4u/dbmysqli.php:408-451 | a statement keeps the query count, switches and statistics, numbers new log entries with this query, and a thrown query exception always follows a fatal entry |
| SessionSpec.FinishEffect | src/unreal4u/dbmysqli.php:162-174 | with no error recorded, fetching throws exactly for `query` when the statement reports an error, logging it; otherwise it returns the call's result and records the statistics |
| SessionSpec.StatisticsEffect | src/unreal4u/dbmysqli.php:625-663 | on a connected session with no error, one statistics entry with the query, the row count, no error and the transaction flag is appended exactly when the live log is on |
| SessionSpec.CallRefused | src/unreal4u/dbmysqli.php:159-160 | a call on a session that cannot connect throws what connecting throws |
| SessionSpec.CallConnected | src/unreal4u/dbmysqli.php:159-168 | a call on a session that can connect runs its statement connected, and fetches unless the statement threw |
| SessionSpec.CallBookkeeping | src/unreal4u/dbmysqli.php:146-178 | each `query`, `numRows` and `insertId` call counts exactly one query, and the log only gains entries numbered with it. A statistics entry is added only on completion: the row count, no error and the transaction flag. A completed call leaves no recorded error and the rollback flag as it was, and does not touch the transaction or the switches |
| SessionSpec.CallOutcome | src/unreal4u/dbmysqli.php:146-178 | a call that cannot connect throws and makes no driver call. Otherwise it makes exactly the statement's driver calls. A prepare or bind failure throws its query exception, and a `query` whose statement reports an error throws one for it. Every other call returns its result |
| SessionSpec.CallRollback | src/unreal4u/dbmysqli.php:146-178 | a query exception from a call always follows a fatal log entry with an error recorded; the rollback flag is never cleared by a call and is newly set exactly when a new entry carries "[ERROR] " |
| SessionSpec.CallDispatch | src/unreal4u/dbmysqli.php:146-178 | the three names run the shared pipeline. Any other name answers "Method not supported!": no query is counted, no driver call or log entry is made, the recorded error is cleared and the statistics are recorded |
| SessionSpec.BeginEffect | src/unreal4u/dbmysqli.php:242-252 | inside a transaction nothing changes. Otherwise a transaction opens exactly when connecting succeeds: queries throw from then on and autocommit goes off. A failed connect leaves no transaction and no driver call. The rollback flag survives |
| SessionSpec.EndEffect | src/unreal4u/dbmysqli.php:259-273 | inside a transaction it rolls back exactly when the flag is set, otherwise commits, clears the flag, switches autocommit on and leaves the transaction; outside one it changes nothing |
| SessionSpec.RollbackSurvivesBegin | src/unreal4u/dbmysqli.php:242-273 | a rollback flag set before `beginTransaction` makes the transaction it opens end in a rollback |
| SessionSpec.MarkedErrorRollsBack | src/unreal4u/dbmysqli.php:259-273 | a transaction in which a call logged an "[ERROR] " entry ends in a rollback |
| SessionSpec.ConnectConsistent | src/unreal4u/dbmysqli.php:325-349 | connecting keeps the session consistent: a transaction only while connected, and a transaction exactly while autocommit is off |
| SessionSpec.StatementConsistent | src/unreal4u/dbmysqli.php:408-451 | a statement keeps the session consistent |
| SessionSpec.CallConsistent | src/unreal4u/dbmysqli.php:146-178 | a call keeps the session consistent |
| SessionSpec.BeginConsistent | src/unreal4u/dbmysqli.php:242-252 | `beginTransaction` keeps the session consistent |
| SessionSpec.EndConsistent | src/unreal4u/dbmysqli.php:259-273 | `endTransaction` keeps the session consistent |
| Php.NatToString | src/unreal4u/dbmysqli.php:611 | the decimal digits of a natural number, non-empty, with a leading '0' only for 0; NatToStringRoundTrip shows it loses nothing |
| Php.IntToString | src/unreal4u/dbmysqli.php:611 | PHP's text of an integer in a concatenation: non-empty, with a leading '-' exactly for negative numbers followed by the digits of its absolute value, and the digits alone for the others |
| SessionSpec.LogText | src/unreal4u/dbmysqli.php:593-600 | the text of a log entry; its contract is LogTextShape, and LogEffect states it is the text of the appended entry |
| SessionSpec.QueryResult | src/unreal4u/dbmysqli.php:549-554 | the value `_executeResultArray` returns for a statement without error: the decoded rows when there is metadata, otherwise true for errno 0 and the errno for any other; for `query` it is the CallResult that FinishEffect and CallOutcome state, and Db.DbMysqli.ExecuteResultArray computes its rows with the FetchRows loop |
| SessionSpec.InfoValue | src/unreal4u/dbmysqli.php:165-166 | `$resultInfo[$method]` for `numRows` and `insertId`, null when the info is empty; with no error recorded FinishEffect states that it is the CallResult (the row count or the insert id) |
| SessionSpec.StatRows | src/unreal4u/dbmysqli.php:644-648 | the row count of a statistics entry, 0 without a connection or while an error is recorded; StatisticsEffect states that otherwise it is NumRowsOf the counters |
| SessionSpec.NotRun | src/unreal4u/dbmysqli.php:445-446 | a statement that is not run logs the "General error" notice unless an error is recorded; StatementLog states it |
| Exceptions.QueryMessage | src/unreal4u/exceptions/query.php:14-17 | the message of a query exception; its contract is QueryMessageShape and QueryMessageDeterminesQuery |
| ConnectionRegistry.Identifier | src/unreal4u/auxiliar_classes.php:29 | the registry key, the unseparated concatenation of the five parameters; UnseparatedKeysCollide shows the collisions, and GetInstance's contract is stated over it |
| Coercion.BindLetter | src/unreal4u/dbmysqli.php:369-389 | the loose switch, case by case; BindLetterMatchesTable states it against the independent table LetterTable |
| Coercion.Signature | src/unreal4u/dbmysqli.php:366-392 | the type string of an argument list; SignatureShape and SignatureHasNoBlob state it, CastValues is proved to compute it |
| Coercion.Classify | src/unreal4u/dbmysqli.php:515-531 | the field-type table; its contract is DecodeCell's |
| SessionSpec.StatementStage | src/unreal4u/dbmysqli.php:423-447 | how far one statement gets; ExecutedOnlyWhenPreparedAndBound characterises its Executed stage |
| SessionSpec.Log | src/unreal4u/dbmysqli.php:592-616 | the `_logError` step; its contract is LogEffect, and Db.DbMysqli.LogError is proved to follow it |
| SessionSpec.Connect | src/unreal4u/dbmysqli.php:325-349 | the `_connectToDatabase` step; its contract is ConnectEffect, ReportedFailureNotCounted, ConnectSteps and ConnectConsistent |
| SessionSpec.Begin | src/unreal4u/dbmysqli.php:242-252 | the `beginTransaction` step; its contract is BeginEffect, RollbackSurvivesBegin and BeginConsistent |
| SessionSpec.End | src/unreal4u/dbmysqli.php:259-273 | the `endTransaction` step; its contract is EndEffect and EndConsistent |
| SessionSpec.Statement | src/unreal4u/dbmysqli.php:412-447 | the statement part of `_executeQuery`; its contract is StatementTrace, StatementLog, StatementRollback, StatementSteps and StatementConsistent |
| SessionSpec.ExecuteQuery | src/unreal4u/dbmysqli.php:408-451 | connecting with the defaults, then the statement; CallRefused and CallConnected state it per case |
| SessionSpec.ResultArray | src/unreal4u/dbmysqli.php:485-558 | the `_executeResultArray` step; FinishEffect states its outcome with no error recorded |
| SessionSpec.Statistics | src/unreal4u/dbmysqli.php:625-663 | the `_logStatistics` step; its contract is StatisticsEffect |
| SessionSpec.Finish | src/unreal4u/dbmysqli.php:162-174 | fetching and then the statistics; its contract is FinishEffect |
| SessionSpec.CallStart | src/unreal4u/dbmysqli.php:147-159 | clearing the error and counting the query; CallBookkeeping states the count |
| SessionSpec.CallRequest | src/unreal4u/dbmysqli.php:146-178 | a served call; its contract is CallBookkeeping, CallOutcome, CallRollback and MarkedErrorRollsBack |
| SessionSpec.Call | src/unreal4u/dbmysqli.php:146-178 | `__call`; its contract is CallDispatch and CallConsistent |
| Db.DbMysqli.constructor | src/unreal4u/dbmysqli.php:32-129 | a new session is not connected and not in a transaction, with no errors, no statistics, threshold 10 and no driver calls |
| Db.DbMysqli.New | src/unreal4u/dbmysqli.php:125-129 | `new dbmysqli(true)` is a fresh session followed by `beginTransaction` with the defaults; `new dbmysqli()` is the fresh session. A connected session holds the registered connection for the defaults. The registry gains an entry for the defaults only when the session becomes connected and none was registered, and that entry is the new handle; otherwise the registry is unchanged. |
| Db.DbMysqli.LogError | src/unreal4u/dbmysqli.php:592-616 | the fields change and the call ends as the logging step says |
| Db.DbMysqli.ConnectToDatabase | src/unreal4u/dbmysqli.php:325-349 | the fields change as the connect step says, and a newly connected session holds the registered connection for these credentials. The registry gains an entry for these credentials only when the session becomes connected and none was registered, and that entry is the new handle; otherwise the registry is unchanged. |
| Db.DbMysqli.ConnectFailed | src/unreal4u/dbmysqli.php:334-341 | the counter goes up by one, then the failure is logged as fatal and throws |
| Db.DbMysqli.RegisterConnection | src/unreal4u/dbmysqli.php:290-318 | the session connects with the given parameters filled in from the defaults, as the connect step says, unless it is already connected. The registry gains an entry for those parameters only when the session becomes connected and none was registered, and that entry is the new handle; otherwise the registry is unchanged. |
| Db.DbMysqli.BeginTransaction | src/unreal4u/dbmysqli.php:242-252 | the fields and the trace change as the begin step says; the session stays consistent. The registry gains an entry for the filled-in parameters only when the session becomes connected and none was registered, and that entry is the new handle; otherwise the registry is unchanged. |
| Db.DbMysqli.OpenTransaction | src/unreal4u/dbmysqli.php:245-247 | the transaction opens, query exceptions are switched on, and autocommit goes off |
| Db.DbMysqli.EndTransaction | src/unreal4u/dbmysqli.php:259-273 | the fields and the trace change as the end step says, and the answer is false |
| Db.DbMysqli.Destruct | src/unreal4u/dbmysqli.php:134-138 | destruction ends the transaction as `endTransaction` does |
| Db.DbMysqli.ExecuteQuery | src/unreal4u/dbmysqli.php:408-451 | the session connects with the defaults if needed, then runs the statement, as the query step says. The registry gains an entry for the defaults only when the session becomes connected and none was registered, and that entry is the new handle; otherwise the registry is unchanged. |
| Db.DbMysqli.RunStatement | src/unreal4u/dbmysqli.php:412-427 | the statement runs as the statement step says, starting with the type inference and the prepare |
| Db.DbMysqli.BindAndExecute | src/unreal4u/dbmysqli.php:428-447 | after a successful prepare, the bind, the execute and the logging follow the statement step |
| Db.DbMysqli.ExecuteResultArray | src/unreal4u/dbmysqli.php:485-558 | the answer and the log follow the result-array step |
| Db.DbMysqli.LogStatistics | src/unreal4u/dbmysqli.php:625-663 | the statistics log changes as the statistics step says, and the answer is whether the live log is on |
| Db.DbMysqli.Complete | src/unreal4u/dbmysqli.php:162-174 | fetching what the request asks for, then logging statistics, follows the finishing step |
| Db.DbMysqli.StartCall | src/unreal4u/dbmysqli.php:147-159 | the recorded error is cleared and the query counted |
| Db.DbMysqli.Invoke | src/unreal4u/dbmysqli.php:147-177 | a served call follows the call step and keeps the session consistent. The registry gains an entry for the defaults only when the session becomes connected and none was registered, and that entry is the new handle; otherwise the registry is unchanged. |
| Db.DbMysqli.Serve | src/unreal4u/dbmysqli.php:160-177 | after counting, the statement runs, then the call completes unless the statement threw. The registry gains an entry for the defaults only when the session becomes connected and none was registered, and that entry is the new handle; otherwise the registry is unchanged. |
| Db.DbMysqli.Query | src/unreal4u/dbmysqli.php:155-168 | `query` follows the call step for a query request. The registry gains an entry for the defaults only when the session becomes connected and none was registered, and that entry is the new handle; otherwise the registry is unchanged. |
| Db.DbMysqli.NumRows | src/unreal4u/dbmysqli.php:155-168 | `numRows` follows the call step for a row-count request. The registry gains an entry for the defaults only when the session becomes connected and none was registered, and that entry is the new handle; otherwise the registry is unchanged. |
| Db.DbMysqli.InsertId | src/unreal4u/dbmysqli.php:155-168 | `insertId` follows the call step for an insert-id request. The registry gains an entry for the defaults only when the session becomes connected and none was registered, and that entry is the new handle; otherwise the registry is unchanged. |
| Db.DbMysqli.Call | src/unreal4u/dbmysqli.php:146-178 | `__call` follows the dispatch step and keeps the session consistent. The registry gains an entry for the defaults only when the session becomes connected and none was registered, and that entry is the new handle; otherwise the registry is unchanged. |

## Left out

- The mysqli driver itself: `prepare`, `bind_param`, `execute`, `store_result`, `bind_result`, `fetch`, `result_metadata`, `commit`, `rollback`, `autocommit`, `set_charset` and `close` are external. Their results are parameters, and only prepare, bind, execute, commit, rollback and autocommit are recorded in the trace.
- The statement object `_stmt` and its reset before each prepare are not modelled; a statement's results come with the `Driver` value of the same call.
- `db` holds the registry's connection object, where the source holds the mysqli handle inside it.
- Elapsed time and memory (`microtime`, `memory_get_usage`, `number_format`) in `_stats` and in the statistics entries are environment values.
- The conversions themselves (`new \DateTime`, `(bool)`, `floatval`) are library parsing and floating point; only which conversion applies is modelled.
- Floats are reduced to whether they are zero, the only thing the loose comparisons in `_castValues` look at. Arguments that are not scalars are not modelled.
- `md5` in the registry key is a foreign hash. It is taken to be injective, so the key is the concatenation itself.
- `mysqli_report`, the `var_dump` debug output and the line and file numbers passed to `exceptions\database` have no effect on the session's state.
- `_makeValuesReferenced` only builds PHP references and is the identity on values.
- `__get`, `__toString` and `version` are outside the modelled core. `__get` answers `_executeResultInfo()` for the key it is given, or "Method not supported!" when the info has no such key; it changes nothing, and its info is `ResultInfo`. `__toString` is a constant banner. `version()` is a plain `query`, and `version(true)` reads an undefined property.
- PHP integers are 64 bits wide; `executedQueries` and the failure counter are unbounded here because their overflow is unreachable in practice.
- The static registry is a `Registry` object handed to each session. The order in which PHP runs destructors, and garbage collection, are runtime concerns.
- Db.DbMysqli.New: when the constructor's `beginTransaction` throws, PHP hands the caller no object; the model still returns the session, in the state the throw left it, next to the `Raised` outcome.
- Coercion.DecodeRow: a fetched row is a map from field name to cell, so the column order of the PHP row array (the first occurrence of each field name) is not modelled; which names appear and the value under each name are.
