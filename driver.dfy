/**
 * What the two engines use of psycopg2, and the lifecycle they share.
 *
 * The database server is not modelled. What the driver does on one call of an engine
 * operation is given as a `DriverScript`: whether `psycopg2.connect` succeeds, whether
 * `cursor.execute` and `connection.commit` raise, and what a fetch returns or raises.
 * `Connection` and `Cursor` are the driver objects the engines hold in their fields;
 * their methods follow the script and record what was done to them.
 *
 * An `Effect` is the reference description of one engine call: what it returns or
 * raises, and in which state it leaves the connection and cursor it opened.
 */
module Driver {
  import opened Results
  import opened Rows
  import opened Retry

  /** A column value as psycopg2 returns it. */
  datatype Value = Integer(i: int) | Text(s: string) | Boolean(b: bool)

  /** A result row: one cell per column; SQL NULL arrives as None, a float NaN as NaN. */
  type Row = seq<Cell<Value>>

  /** An exception raised by psycopg2 (connection refused, syntax error, violated
      constraint, ...); only its identity matters here. */
  datatype DbError = DbError(code: string)

  /** What an engine call can raise: a driver exception, passed on unchanged, or the
      Python errors of `fetchone()[0]` on no row (`TypeError: 'NoneType' object is not
      subscriptable`) and on a row without columns (`IndexError`). */
  datatype Error = Raised(dbError: DbError) | NotSubscriptable | IndexOutOfRange

  /** The outcome of one driver call that returns nothing. */
  datatype Step = Succeeds | Fails(error: DbError)

  /** The driver's behaviour during one engine call. */
  datatype DriverScript = DriverScript(connect: Step, execute: Step,
                                       fetch: Outcome<seq<Row>, DbError>, commit: Step)

  /** The keyword arguments given to `psycopg2.connect`. */
  datatype Credentials = Credentials(user: string, password: string, host: string,
                                     port: int, database: string)

  /** One `cursor.execute(query, parameters)`; `None` when no parameters are passed. */
  datatype Statement = Statement(text: string, parameters: Option<map<string, Value>>)

  /** What an engine operation returns: nothing (`None`), a normalised result table, or
      the first column of the row `RETURNING id` produced (absent when `returnId` is false). */
  datatype Answer = Done | Frame(rows: seq<seq<Option<Value>>>) | InsertedId(id: Option<Cell<Value>>)

  /** The two retried operations, as the one decorator sees them. */
  datatype Request =
    | Select(query: string, parameters: Option<map<string, Value>>)
    | Update(query: string, parameters: Option<map<string, Value>>, returnId: bool)

  class Connection {
    const credentials: Credentials
    var committed: bool
    var closed: bool

    /** A successful `psycopg2.connect(...)`. */
    constructor (credentials: Credentials)
      ensures this.credentials == credentials && !committed && !closed
    {
      this.credentials := credentials;
      committed, closed := false, false;
    }

    /** `connection.commit()`. */
    method Commit(step: Step) returns (r: Outcome<(), DbError>)
      modifies this
      ensures r.Ok? <==> step.Succeeds?
      ensures step.Fails? ==> r.error == step.error
      ensures committed == (old(committed) || step.Succeeds?) && closed == old(closed)
    {
      if step.Fails? {
        return Err(step.error);
      }
      committed := true;
      return Ok(());
    }

    /** `connection.close()`. */
    method Close()
      modifies this
      ensures closed && committed == old(committed)
    {
      closed := true;
    }
  }

  /** `psycopg2.connect(...)`: a new open connection, or the exception it raises. */
  method Connect(credentials: Credentials, step: Step) returns (r: Outcome<Connection, DbError>)
    ensures r.Ok? <==> step.Succeeds?
    ensures step.Fails? ==> r.error == step.error
    ensures r.Ok? ==> fresh(r.value) && r.value.credentials == credentials
                      && !r.value.committed && !r.value.closed
  {
    if step.Fails? {
      return Err(step.error);
    }
    var c := new Connection(credentials);
    return Ok(c);
  }

  class Cursor {
    const connection: Connection
    /** Opened with `cursor_factory=RealDictCursor` (rows as dictionaries). */
    const dictRows: bool
    /** Every statement passed to `execute`, in order. */
    var sent: seq<Statement>
    var closed: bool

    /** `connection.cursor()`, or `connection.cursor(cursor_factory=RealDictCursor)`. */
    constructor (connection: Connection, dictRows: bool)
      ensures this.connection == connection && this.dictRows == dictRows
      ensures sent == [] && !closed
    {
      this.connection := connection;
      this.dictRows := dictRows;
      sent, closed := [], false;
    }

    /** `cursor.execute(statement.text, statement.parameters)`. */
    method Execute(statement: Statement, step: Step) returns (r: Outcome<(), DbError>)
      modifies this
      ensures r.Ok? <==> step.Succeeds?
      ensures step.Fails? ==> r.error == step.error
      ensures sent == old(sent) + [statement] && closed == old(closed)
    {
      sent := sent + [statement];
      if step.Fails? {
        return Err(step.error);
      }
      return Ok(());
    }

    /** `cursor.fetchone()`: the first row, `None` when there is none, or the exception. */
    method FetchOne(fetch: Outcome<seq<Row>, DbError>) returns (r: Outcome<Option<Row>, DbError>)
      ensures r.Err? <==> fetch.Err?
      ensures fetch.Err? ==> r.error == fetch.error
      ensures fetch.Ok? ==> (r.value.None? <==> fetch.value == [])
      ensures fetch.Ok? && fetch.value != [] ==> r.value.value == fetch.value[0]
    {
      match fetch
      case Err(e) => r := Err(e);
      case Ok(rows) => r := if rows == [] then Ok(None) else Ok(Some(rows[0]));
    }

    /** `cursor.close()`. */
    method Close()
      modifies this
      ensures closed && sent == old(sent)
    {
      closed := true;
    }
  }

  // ---------------------------------------------------------------------------
  // The reference description of one engine call.

  /** `connected`: `psycopg2.connect` succeeded, so the call replaced the engine's
      connection and cursor by new ones; the other fields describe those new objects. */
  datatype Effect = Effect(result: Outcome<Answer, Error>, connected: bool, dictRows: bool,
                           sent: seq<Statement>, committed: bool, closed: bool)

  /** A call that opened a connection and returned or raised without closing it. */
  predicate Leaks(e: Effect)
  {
    e.connected && !e.closed
  }

  /** A call whose `psycopg2.connect` raised: the exception reaches the caller after
      logging and nothing else happens. */
  function NotConnected(error: DbError): (e: Effect)
    ensures e.result == Err(Raised(error)) && !e.connected && !Leaks(e) && !e.committed
  {
    Effect(Err(Raised(error)), false, false, [], false, false)
  }

  /** The engine's connection and cursor are the ones the effect describes. */
  ghost predicate Reflects(connection: Connection?, cursor: Cursor?, credentials: Credentials, e: Effect)
    reads connection, cursor
  {
    && connection != null && cursor != null
    && cursor.connection == connection
    && connection.credentials == credentials
    && cursor.dictRows == e.dictRows
    && cursor.sent == e.sent
    && connection.committed == e.committed
    && connection.closed == e.closed && cursor.closed == e.closed
  }

  /** `create_table` and `create_index` (both engines): connect, open a plain cursor and
      execute outside any `try`, then commit inside a `try` whose `finally` closes.
      So an `execute` that raises leaves the connection and cursor open, while a
      `commit` that raises is re-raised after closing. */
  function DdlEffect(statement: Statement, s: DriverScript): (e: Effect)
    ensures e.connected <==> s.connect.Succeeds?
    ensures e.connected ==> e.sent == [statement] && !e.dictRows
    ensures e.result.Ok? <==> s.connect.Succeeds? && s.execute.Succeeds? && s.commit.Succeeds?
    ensures e.result.Ok? ==> e.result.value == Done
    ensures e.committed <==> e.result.Ok?
    ensures e.closed <==> e.connected && s.execute.Succeeds?
    ensures Leaks(e) <==> s.connect.Succeeds? && s.execute.Fails?
    ensures e.result.Err? ==> e.result.error == Raised(
              if s.connect.Fails? then s.connect.error
              else if s.execute.Fails? then s.execute.error
              else s.commit.error)
  {
    if s.connect.Fails? then NotConnected(s.connect.error)
    else if s.execute.Fails? then Effect(Err(Raised(s.execute.error)), true, false, [statement], false, false)
    else if s.commit.Fails? then Effect(Err(Raised(s.commit.error)), true, false, [statement], false, true)
    else Effect(Ok(Done), true, false, [statement], true, true)
  }

  /** `run_select_query` (both engines): connect, open a dictionary cursor, execute,
      fetch every row, close, and normalise the rows. Nothing is inside a `try`, so
      the connection is closed only when both `execute` and `fetchall` succeed; nothing
      is committed. */
  function SelectEffect(statement: Statement, s: DriverScript): (e: Effect)
    ensures e.connected <==> s.connect.Succeeds?
    ensures e.connected ==> e.sent == [statement] && e.dictRows
    ensures e.result.Ok? <==> s.connect.Succeeds? && s.execute.Succeeds? && s.fetch.Ok?
    ensures e.result.Ok? ==> e.result.value == Frame(ReplaceNanWithNone(s.fetch.value))
    ensures !e.committed
    ensures e.closed <==> e.result.Ok?
    ensures Leaks(e) <==> e.connected && e.result.Err?
    ensures e.result.Err? ==> e.result.error == Raised(
              if s.connect.Fails? then s.connect.error
              else if s.execute.Fails? then s.execute.error
              else s.fetch.error)
  {
    if s.connect.Fails? then NotConnected(s.connect.error)
    else if s.execute.Fails? then Effect(Err(Raised(s.execute.error)), true, true, [statement], false, false)
    else if s.fetch.Err? then Effect(Err(Raised(s.fetch.error)), true, true, [statement], false, false)
    else Effect(Ok(Frame(ReplaceNanWithNone(s.fetch.value))), true, true, [statement], false, true)
  }

  /** `self.cursor.fetchone()[0]`: the first column of the first row, or what that
      expression raises. */
  function FetchOneFirstColumn(fetch: Outcome<seq<Row>, DbError>): (r: Outcome<Cell<Value>, Error>)
    ensures r.Ok? <==> fetch.Ok? && fetch.value != [] && fetch.value[0] != []
    ensures r.Ok? ==> r.value == fetch.value[0][0]
    ensures fetch.Err? ==> r == Err(Raised(fetch.error))
    ensures fetch.Ok? && fetch.value == [] ==> r == Err(NotSubscriptable)
    ensures fetch.Ok? && fetch.value != [] && fetch.value[0] == [] ==> r == Err(IndexOutOfRange)
  {
    match fetch
    case Err(e) => Err(Raised(e))
    case Ok(rows) =>
      if rows == [] then Err(NotSubscriptable)
      else if rows[0] == [] then Err(IndexOutOfRange)
      else Ok(rows[0][0])
  }

  /** The retry configuration both engines decorate their queries with:
      five tries, 3 seconds, doubling, no logger. */
  function EnginePolicy(): (p: Policy)
    ensures p == DefaultPolicy()
  {
    Policy(5, 3, 2, false)
  }

  /** The engines' delays of 3, 6, 12 and 24 seconds are lengths `time.sleep` accepts. */
  lemma EngineDelaysValid()
    ensures ValidDelays(EnginePolicy())
  {
    DelaysNonNegative(EnginePolicy());
  }

  /** So a retried engine operation raises only what its last attempt raised. */
  lemma EngineRunsNeverSleepNegative<V, E>(op: nat -> Outcome<V, E>)
    ensures var run := Expected(EnginePolicy(), op);
      run.result == Lift(op(run.calls - 1))
  {
    EngineDelaysValid();
  }

  /** The last of the first `n` attempts that connected, if any did: the one whose
      connection and cursor the engine's fields hold afterwards. */
  function LastConnected(effects: nat -> Effect, n: nat): (j: Option<nat>)
    ensures j.Some? ==> j.value < n && effects(j.value).connected
    ensures j.Some? ==> forall i :: j.value < i < n ==> !effects(i).connected
    ensures j.None? ==> forall i :: 0 <= i < n ==> !effects(i).connected
  {
    if n == 0 then None
    else if effects(n - 1).connected then Some(n - 1)
    else LastConnected(effects, n - 1)
  }

  /** How many of the first `n` attempts of a retried request left a connection open. */
  function LeakCount(effects: nat -> Effect, n: nat): (c: nat)
    ensures c <= n
    ensures c == 0 <==> forall i :: 0 <= i < n ==> !Leaks(effects(i))
    ensures c == n <==> forall i :: 0 <= i < n ==> Leaks(effects(i))
  {
    if n == 0 then 0 else LeakCount(effects, n - 1) + (if Leaks(effects(n - 1)) then 1 else 0)
  }
}
