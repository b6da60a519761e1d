/** The process-wide connection registry (`mysql_connect`): one connection object per
    distinct credential tuple, created on first request and handed out on every later one. */
module ConnectionRegistry {
  import opened Php
  import opened Exceptions

  /** Connection parameters. The port is kept as the text PHP concatenates into the key. */
  datatype Credentials = Credentials(host: string, user: string, pass: string, db: string, port: string)

  /** The registry key. The source hashes this concatenation with md5; the hash is taken
      to be injective, so the key is the concatenation itself. No separator is used. */
  function Identifier(c: Credentials): string
  {
    c.host + c.user + c.pass + c.db + c.port
  }

  /** Two tuples whose fields differ can still share one registry entry. */
  lemma UnseparatedKeysCollide(pass: string, db: string, port: string)
    ensures Credentials("ab", "", pass, db, port) != Credentials("a", "b", pass, db, port)
    ensures Identifier(Credentials("ab", "", pass, db, port)) == Identifier(Credentials("a", "b", pass, db, port))
  {
    assert "ab" + "" == "a" + "b";
  }

  const ConnectFailurePrefix: string := "Check database server is running. MySQL error: "
  const CloneRefusal: string := "We can only declare this class once! Do not try to clone it"

  /** What the driver does while the connection object is being constructed. */
  datatype ConnectAttempt = ConnectAttempt(
    /** `new \mysqli(...)` itself threw */
    threw: bool,
    /** the text of `mysqli_connect_error()` ("" when it reports nothing) */
    connectError: string,
    /** a `\mysqli_sql_exception` raised after the link was made (by `set_charset`), if any */
    afterConnect: Option<string>)

  /** The exception that construction ends in, or None when the object is built. Both
      connect-failure branches end in the same database exception: the one thrown inside the
      `try` is caught by its own `catch (\Exception)` and thrown anew. */
  function ConstructionError(a: ConnectAttempt): (e: Option<Exception>)
    ensures e.Some? && e.value.DatabaseException? ==>
      ConnectFailurePrefix <= e.value.message && e.value.message[|ConnectFailurePrefix|..] == a.connectError
    ensures e.Some? ==> e.value.DatabaseException? || e.value.MysqliSqlException?
    ensures e.None? <==> !a.threw && EmptyString(a.connectError) && a.afterConnect.None?
    ensures a.threw || !EmptyString(a.connectError) ==> e == Some(DatabaseException(ConnectFailurePrefix + a.connectError))
    ensures !a.threw && EmptyString(a.connectError) && a.afterConnect.Some? ==> e == Some(MysqliSqlException(a.afterConnect.value))
  {
    if a.threw || !EmptyString(a.connectError) then
      Some(DatabaseException(ConnectFailurePrefix + a.connectError))
    else if a.afterConnect.Some? then
      Some(MysqliSqlException(a.afterConnect.value))
    else
      None
  }

  /** One physical connection (an instance of `mysql_connect`). */
  class Connection {
    var isConnected: bool
    /** number of `close()` calls made on the driver link */
    ghost var closeCalls: nat

    /** The object as it stands once the driver connected and the charset was set. */
    constructor Connected()
      ensures isConnected && closeCalls == 0
    {
      isConnected := true;
      closeCalls := 0;
    }

    /** `__construct`: connect, or throw; no object survives a failed construction. */
    static method Open(a: ConnectAttempt) returns (o: Outcome<Connection>)
      ensures ConstructionError(a).Some? ==> o == Raised(ConstructionError(a).value)
      ensures ConstructionError(a).None? ==> o.Done? && fresh(o.value) && o.value.isConnected && o.value.closeCalls == 0
    {
      var e := ConstructionError(a);
      if e.Some? {
        return Raised(e.value);
      }
      var c := new Connection.Connected();
      o := Done(c);
    }

    /** `__clone`: copying the singleton is always refused. */
    method Clone() returns (o: Outcome<Connection>)
      ensures o.Raised? && o.ex.DatabaseException?
      ensures o.ex.message == ConnectFailurePrefix + CloneRefusal
    {
      o := Raised(DatabaseException(ConnectFailurePrefix + CloneRefusal));
    }

    /** `__destruct`: close the link if it is open; a second call does nothing. */
    method Destruct()
      modifies this
      ensures !isConnected
      ensures closeCalls == old(closeCalls) + (if old(isConnected) then 1 else 0)
    {
      if isConnected {
        closeCalls := closeCalls + 1;
        isConnected := false;
      }
    }
  }

  /** The static `$_instance` map of `mysql_connect`. */
  class Registry {
    var instances: map<string, Connection>

    constructor ()
      ensures instances == map[]
    {
      instances := map[];
    }

    /** `getInstance`: hand out the registered connection for these credentials, or
        construct, register and hand out a new one. An entry is added only when its key is
        absent and construction succeeded; no entry is ever replaced or removed. */
    method GetInstance(c: Credentials, a: ConnectAttempt) returns (o: Outcome<Connection>)
      modifies this
      ensures Identifier(c) in old(instances) ==>
        o == Done(old(instances)[Identifier(c)]) && instances == old(instances)
      ensures Identifier(c) !in old(instances) && ConstructionError(a).Some? ==>
        o == Raised(ConstructionError(a).value) && instances == old(instances)
      ensures Identifier(c) !in old(instances) && ConstructionError(a).None? ==>
        o.Done? && fresh(o.value) && o.value.isConnected &&
        instances == old(instances)[Identifier(c) := o.value]
      ensures forall k :: k in old(instances) ==> k in instances && instances[k] == old(instances)[k]
      ensures o.Done? ==> Identifier(c) in instances && instances[Identifier(c)] == o.value
    {
      var key := Identifier(c);
      if key !in instances {
        var made := Connection.Open(a);
        if made.Raised? {
          return Raised(made.ex);
        }
        instances := instances[key := made.value];
      }
      o := Done(instances[key]);
    }

    /** Two requests for the same credentials: once the first one succeeded, the second
        returns the very same object, whatever the driver would have done. */
    method GetInstanceTwice(c: Credentials, a1: ConnectAttempt, a2: ConnectAttempt)
      returns (first: Outcome<Connection>, second: Outcome<Connection>)
      modifies this
      ensures first.Done? ==> second == first
      ensures Identifier(c) in old(instances) ==> first == second == Done(old(instances)[Identifier(c)])
    {
      first := GetInstance(c, a1);
      second := GetInstance(c, a2);
    }
  }
}
