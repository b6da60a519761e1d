/** The two exception classes of the library, the driver's own exception, and the
    outcome of an operation that may throw one of them. */
module Exceptions {
  import opened Php

  datatype Exception =
      /** `exceptions\query`: a failed statement; `code` is the driver's errno. */
    | QueryException(message: string, code: int)
      /** `exceptions\database`: connection-level trouble (an ErrorException with code 0). */
    | DatabaseException(message: string)
      /** `\mysqli_sql_exception`, raised by the driver itself in strict reporting mode. */
    | MysqliSqlException(message: string)

  /** A call either completes with a value or throws; what it changed before throwing stays
      changed, which is why the operations returning an Outcome are methods on objects. */
  datatype Outcome<+T> = Done(value: T) | Raised(ex: Exception)

  const QuerySeparator: string := "; Query: "

  /** The message of a query exception: the driver's error text, followed by the offending
      query when there is one (a `null`, "" or "0" query counts as none). */
  function QueryMessage(query: Option<string>, errstr: string): string
  {
    if EmptyText(query) then errstr else errstr + QuerySeparator + query.value
  }

  /** The message starts with the driver's error text, and is nothing more exactly when
      there is no query; otherwise the separator and the query follow it. */
  lemma QueryMessageShape(query: Option<string>, errstr: string)
    ensures errstr <= QueryMessage(query, errstr)
    ensures QueryMessage(query, errstr) == errstr <==> EmptyText(query)
    ensures !EmptyText(query) ==>
      var m := QueryMessage(query, errstr);
      |m| == |errstr| + |QuerySeparator| + |query.value| &&
      m[|errstr|..|errstr| + |QuerySeparator|] == QuerySeparator &&
      m[|errstr| + |QuerySeparator|..] == query.value
  {
  }

  /** `new exceptions\query($query, $errstr, $errno)`. */
  function NewQueryException(query: Option<string>, errstr: string, errno: int): (e: Exception)
    ensures e.QueryException? && e.code == errno
    ensures e.message == QueryMessage(query, errstr)
  {
    QueryException(QueryMessage(query, errstr), errno)
  }

  /** Two query exceptions raised for the same driver error carry the same message exactly
      when they were raised for the same query, or both for none. */
  lemma {:induction false} QueryMessageDeterminesQuery(q1: Option<string>, q2: Option<string>, errstr: string)
    ensures QueryMessage(q1, errstr) == QueryMessage(q2, errstr) <==>
      (EmptyText(q1) && EmptyText(q2)) || (!EmptyText(q1) && !EmptyText(q2) && q1.value == q2.value)
  {
    var m1, m2 := QueryMessage(q1, errstr), QueryMessage(q2, errstr);
    QueryMessageShape(q1, errstr);
    QueryMessageShape(q2, errstr);
    if m1 == m2 && !EmptyText(q1) {
      assert |m2| == |m1| > |errstr|;
      assert q1.value == m1[|errstr| + |QuerySeparator|..] == q2.value;
    }
  }
}
