/**
  The database helper: a single shared connection object and a query executor
  that retries while SQLite reports the database as locked.

  The database itself is not modelled here. Each attempt to run a statement
  (with its fetch and commit) has an outcome, and the executor is a function of
  the sequence of outcomes the environment produces, one per attempt.
  The one-second waits between attempts are counted, not performed.
 */
module Database {
  import opened Text

  const MaxRetries := 10
  const RetriesExceededText := "Database is locked and max retries exceeded."
  const LockedWord := "locked"

  datatype Field = IntField(n: int) | TextField(s: string) | NullField
  type Row = seq<Field>

  /** What one attempt at the statement gave. */
  datatype Attempt =
    | Done(rows: seq<Row>)               // the statement ran; the rows its cursor yields
    | OperationalError(message: string)  // aiosqlite.OperationalError
    | OtherError(message: string)        // any other exception

  /** A locked error is an operational error whose lower-cased message contains "locked". */
  predicate IsLocked(a: Attempt)
  {
    a.OperationalError? && Contains(Lower(a.message), LockedWord)
  }

  /** What a successful call returns. */
  datatype Value = AllRows(rows: seq<Row>) | OneRow(row: Option<Row>) | Nothing

  datatype DbError =
    | Reraised(message: string)       // a non-locked operational error, raised again
    | Propagated(message: string)     // any other exception, not caught
    | RetriesExceeded(message: string)

  datatype Outcome = Returned(value: Value) | Raised(error: DbError)

  /** The outcome, how many attempts were made, how many waits, and whether a commit happened. */
  datatype Execution = Execution(outcome: Outcome, attempts: nat, sleeps: nat, committed: bool)

  /** What a successful attempt returns: all rows, else the first row, else nothing. */
  function Fetched(rows: seq<Row>, fetch: bool, fetchone: bool): (v: Value)
    ensures fetch ==> v == AllRows(rows)
    ensures !fetch && fetchone ==> v.OneRow? && (v.row.Some? <==> |rows| > 0)
    ensures !fetch && fetchone && |rows| > 0 ==> v.row == Some(rows[0])
    ensures !fetch && !fetchone ==> v == Nothing
  {
    if fetch then AllRows(rows)
    else if fetchone then OneRow(if |rows| > 0 then Some(rows[0]) else None)
    else Nothing
  }

  /** The retry loop from attempt `n` on, after `n` locked attempts. */
  function RetryFrom(attempts: seq<Attempt>, n: nat, fetch: bool, fetchone: bool, commit: bool): Execution
    requires n <= MaxRetries <= |attempts|
    decreases MaxRetries - n
  {
    if n == MaxRetries then Execution(Raised(RetriesExceeded(RetriesExceededText)), MaxRetries, MaxRetries, false)
    else
      match attempts[n]
      case Done(rows) => Execution(Returned(Fetched(rows, fetch, fetchone)), n + 1, n, commit)
      case OperationalError(m) =>
        if IsLocked(attempts[n]) then RetryFrom(attempts, n + 1, fetch, fetchone, commit)
        else Execution(Raised(Reraised(m)), n + 1, n, false)
      case OtherError(m) => Execution(Raised(Propagated(m)), n + 1, n, false)
  }

  /** `execute_query`. */
  function ExecuteQuery(attempts: seq<Attempt>, fetch: bool, fetchone: bool, commit: bool): Execution
    requires MaxRetries <= |attempts|
  {
    RetryFrom(attempts, 0, fetch, fetchone, commit)
  }

  /** The first `n` attempts were all locked. */
  predicate LockedBefore(attempts: seq<Attempt>, n: nat)
    requires n <= |attempts|
  {
    forall i :: 0 <= i < n ==> IsLocked(attempts[i])
  }

  /** What the first attempt that is not locked, the `n`-th, makes of the call. */
  predicate SettledAt(e: Execution, attempts: seq<Attempt>, n: nat, fetch: bool, fetchone: bool, commit: bool)
    requires n < |attempts|
  {
    && e.attempts == n + 1
    && e.sleeps == n
    && match attempts[n]
       case Done(rows) => e.outcome == Returned(Fetched(rows, fetch, fetchone)) && e.committed == commit
       case OperationalError(m) => e.outcome == Raised(Reraised(m)) && !e.committed
       case OtherError(m) => e.outcome == Raised(Propagated(m)) && !e.committed
  }

  /** The retry policy, from attempt `n` on. */
  lemma {:induction false} RetryFromSpec(attempts: seq<Attempt>, n: nat, fetch: bool, fetchone: bool, commit: bool)
    requires n <= MaxRetries <= |attempts| && LockedBefore(attempts, n)
    ensures var e := RetryFrom(attempts, n, fetch, fetchone, commit);
      if LockedBefore(attempts, MaxRetries) then
        e == Execution(Raised(RetriesExceeded(RetriesExceededText)), MaxRetries, MaxRetries, false)
      else
        exists m :: n <= m < MaxRetries && LockedBefore(attempts, m) && !IsLocked(attempts[m])
                    && SettledAt(e, attempts, m, fetch, fetchone, commit)
    decreases MaxRetries - n
  {
    if n < MaxRetries {
      if IsLocked(attempts[n]) {
        RetryFromSpec(attempts, n + 1, fetch, fetchone, commit);
      } else {
        var e := RetryFrom(attempts, n, fetch, fetchone, commit);
        assert SettledAt(e, attempts, n, fetch, fetchone, commit);
      }
    }
  }

  /**
    `execute_query`: ten locked attempts raise "max retries exceeded" after ten
    waits; otherwise the first attempt that is not locked settles the call, after
    one wait per locked attempt before it.
   */
  lemma ExecuteQuerySpec(attempts: seq<Attempt>, fetch: bool, fetchone: bool, commit: bool)
    requires MaxRetries <= |attempts|
    ensures var e := ExecuteQuery(attempts, fetch, fetchone, commit);
      if LockedBefore(attempts, MaxRetries) then
        e == Execution(Raised(RetriesExceeded(RetriesExceededText)), MaxRetries, MaxRetries, false)
      else
        exists m :: 0 <= m < MaxRetries && LockedBefore(attempts, m) && !IsLocked(attempts[m])
                    && SettledAt(e, attempts, m, fetch, fetchone, commit)
  {
    RetryFromSpec(attempts, 0, fetch, fetchone, commit);
  }

  /** At most ten attempts, and a wait after every one that did not settle the call. */
  lemma ExecuteQueryBounds(attempts: seq<Attempt>, fetch: bool, fetchone: bool, commit: bool)
    requires MaxRetries <= |attempts|
    ensures var e := ExecuteQuery(attempts, fetch, fetchone, commit);
      && 1 <= e.attempts <= MaxRetries
      && e.sleeps == (if e.outcome == Raised(RetriesExceeded(RetriesExceededText)) then e.attempts else e.attempts - 1)
      && (e.committed <==> commit && e.outcome.Returned?)
  {
    ExecuteQuerySpec(attempts, fetch, fetchone, commit);
  }

  /** The same loop, written as the source's `for … else`. */
  method RunQuery(attempts: seq<Attempt>, fetch: bool, fetchone: bool, commit: bool) returns (e: Execution)
    requires MaxRetries <= |attempts|
    ensures e == ExecuteQuery(attempts, fetch, fetchone, commit)
    ensures e.attempts <= MaxRetries
  {
    var attempt := 0;
    while attempt < MaxRetries
      invariant attempt <= MaxRetries
      invariant LockedBefore(attempts, attempt)
      invariant RetryFrom(attempts, attempt, fetch, fetchone, commit) == ExecuteQuery(attempts, fetch, fetchone, commit)
    {
      match attempts[attempt] {
        case Done(rows) =>
          return Execution(Returned(Fetched(rows, fetch, fetchone)), attempt + 1, attempt, commit);
        case OperationalError(m) =>
          if !IsLocked(attempts[attempt]) {
            return Execution(Raised(Reraised(m)), attempt + 1, attempt, false);
          }
        case OtherError(m) =>
          return Execution(Raised(Propagated(m)), attempt + 1, attempt, false);
      }
      attempt := attempt + 1;
    }
    e := Execution(Raised(RetriesExceeded(RetriesExceededText)), MaxRetries, MaxRetries, false);
  }

  /** `execute_read`: never commits. */
  function ExecuteRead(attempts: seq<Attempt>, fetch: bool, fetchone: bool): (e: Execution)
    requires MaxRetries <= |attempts|
    ensures !e.committed
  {
    ExecuteQuery(attempts, fetch, fetchone, false)
  }

  /** `execute_write`: returns nothing, and commits exactly when it succeeds. */
  function ExecuteWrite(attempts: seq<Attempt>): (e: Execution)
    requires MaxRetries <= |attempts|
    ensures e.outcome.Returned? ==> e.outcome.value == Nothing
    ensures e.committed <==> e.outcome.Returned?
  {
    ExecuteQueryBounds(attempts, false, false, true);
    ExecuteQuery(attempts, false, false, true)
  }

  /**
    `insert_db`: the write, then `SELECT last_insert_rowid()` read with
    `fetchone`; the first column of that row, or None when there is no row or
    the row is empty (an empty tuple is false in Python).
   */
  function InsertDb(write: seq<Attempt>, select: seq<Attempt>): (r: Result<Option<Field>, DbError>)
    requires MaxRetries <= |write| && MaxRetries <= |select|
    ensures ExecuteWrite(write).outcome.Raised? ==> r == Failure(ExecuteWrite(write).outcome.error)
    ensures r.Success? ==> ExecuteWrite(write).committed
    ensures r.Success? && r.value.Some? ==>
      var s := ExecuteQuery(select, false, true, false).outcome;
      s.Returned? && s.value.row.Some? && |s.value.row.value| > 0 && r.value.value == s.value.row.value[0]
    ensures ExecuteWrite(write).outcome.Returned? ==>
      var s := ExecuteQuery(select, false, true, false).outcome;
      && (s.Raised? ==> r == Failure(s.error))
      && (s.Returned? && s.value.OneRow? && s.value.row.Some? && |s.value.row.value| > 0 ==>
            r == Success(Some(s.value.row.value[0])))
      && (s.Returned? && s.value.OneRow? && (s.value.row.None? || |s.value.row.value| == 0) ==> r == Success(None))
  {
    match ExecuteWrite(write).outcome
    case Raised(err) => Failure(err)
    case Returned(_) =>
      match ExecuteQuery(select, false, true, false).outcome
      case Raised(err) => Failure(err)
      case Returned(v) =>
        ExecuteQueryBounds(select, false, true, false);
        ExecuteQuerySpec(select, false, true, false);
        if v.OneRow? && v.row.Some? && |v.row.value| > 0 then Success(Some(v.row.value[0]))
        else Success(None)
  }

  // ---- The shared instance and its connection ----

  datatype Instance = Instance(dbPath: string, timeout: int, connected: bool)

  /** The class attribute `_instance`. */
  datatype Registry = Registry(instance: Option<Instance>)

  /** `connect`: opens the connection unless one is open. */
  function Connect(i: Instance): (r: Instance)
    ensures r.connected && r.dbPath == i.dbPath && r.timeout == i.timeout
    ensures i.connected ==> r == i
  {
    if i.connected then i else i.(connected := true)
  }

  /** `close`: closes an open connection; nothing happens otherwise. */
  function Close(i: Instance): (r: Instance)
    ensures !r.connected && r.dbPath == i.dbPath && r.timeout == i.timeout
    ensures !i.connected ==> r == i
  {
    if i.connected then i.(connected := false) else i
  }

  /**
    `get_instance`: the first call creates and connects the instance; later calls
    return it unchanged.
   */
  function GetInstance(reg: Registry, dbPath: string, timeout: int): (r: (Registry, Instance))
    ensures r.0.instance == Some(r.1)
    ensures reg.instance.Some? ==> r.0 == reg && r.1 == reg.instance.value
    ensures reg.instance.None? ==> r.1 == Instance(dbPath, timeout, true)
  {
    match reg.instance
    case Some(i) => (reg, i)
    case None =>
      var i := Connect(Instance(dbPath, timeout, false));
      (Registry(Some(i)), i)
  }

  /**
    `close` on the shared instance (`VideoDatabaseManager.close` closes the object
    `get_instance` handed out): the stored instance is closed in place.
   */
  function CloseShared(reg: Registry): (r: Registry)
    ensures reg.instance.None? ==> r == reg
    ensures reg.instance.Some? ==> r.instance.Some? && r.instance.value == Close(reg.instance.value)
    ensures reg.instance.Some? ==> !r.instance.value.connected
  {
    match reg.instance
    case Some(i) => Registry(Some(Close(i)))
    case None => reg
  }

  /**
    Once the shared instance is closed, every later `get_instance` returns it closed:
    an existing instance is never reconnected.
   */
  lemma CloseThenGetInstanceStaysClosed(reg: Registry, dbPath: string, timeout: int)
    requires reg.instance.Some?
    ensures var (reg1, i) := GetInstance(CloseShared(reg), dbPath, timeout);
      && !i.connected
      && i == Close(reg.instance.value)
      && reg1 == CloseShared(reg)
  {
  }

  /** Before any instance exists, closing does nothing and `get_instance` creates a connected one. */
  lemma CloseBeforeGetInstance(reg: Registry, dbPath: string, timeout: int)
    requires reg.instance.None?
    ensures GetInstance(CloseShared(reg), dbPath, timeout).1.connected
  {
  }

  /** A second call returns the first call's instance, whatever its arguments. */
  lemma GetInstanceIsSingleton(reg: Registry, p1: string, t1: int, p2: string, t2: int)
    ensures var (reg1, i1) := GetInstance(reg, p1, t1);
      var (reg2, i2) := GetInstance(reg1, p2, t2);
      reg2 == reg1 && i2 == i1
  {
  }

  /**
    Connecting and closing are idempotent. The third clause is about one
    instance value: no path of the program reconnects the shared instance.
   */
  lemma ConnectCloseIdempotent(i: Instance)
    ensures Connect(Connect(i)) == Connect(i)
    ensures Close(Close(i)) == Close(i)
    ensures Connect(Close(Connect(i))) == Connect(i)
  {
  }
}
