/**
 * The `PostgresEngine` class of easy_postgres_engine/postgres_engine.py.
 *
 * Each operation opens a new connection and cursor, stores them in the engine's fields,
 * runs one statement and closes them again on the paths the source closes them on.
 * `run_update_query` puts `execute`, `fetchone` and `commit` in one `try` whose
 * `finally` closes, so it never leaves a connection open.
 */
module Engine {
  import opened Results
  import opened Rows
  import opened Retry
  import opened SqlText
  import opened Driver

  /** `run_update_query` on one attempt. */
  function UpdateEffect(query: string, parameters: Option<map<string, Value>>, returnId: bool,
                        s: DriverScript): (e: Effect)
    ensures e.connected <==> s.connect.Succeeds?
    ensures e.connected ==> e.sent == [Statement(UpdateText(query, returnId), parameters)] && !e.dictRows
    ensures e.connected ==> e.closed
    ensures !Leaks(e)
    ensures e.committed <==> e.result.Ok?
    ensures e.result.Ok? <==> && s.connect.Succeeds? && s.execute.Succeeds?
                              && (returnId ==> FetchOneFirstColumn(s.fetch).Ok?)
                              && s.commit.Succeeds?
    ensures e.result.Ok? ==> e.result.value == InsertedId(
              if returnId then Some(FetchOneFirstColumn(s.fetch).value) else None)
    ensures e.result.Err? ==>
              e.result.error == (if s.connect.Fails? then Raised(s.connect.error)
                                 else if s.execute.Fails? then Raised(s.execute.error)
                                 else if returnId && FetchOneFirstColumn(s.fetch).Err? then FetchOneFirstColumn(s.fetch).error
                                 else Raised(s.commit.error))
  {
    var sent := [Statement(UpdateText(query, returnId), parameters)];
    if s.connect.Fails? then NotConnected(s.connect.error)
    else if s.execute.Fails? then Effect(Err(Raised(s.execute.error)), true, false, sent, false, true)
    else if returnId && FetchOneFirstColumn(s.fetch).Err? then
      Effect(Err(FetchOneFirstColumn(s.fetch).error), true, false, sent, false, true)
    else if s.commit.Fails? then Effect(Err(Raised(s.commit.error)), true, false, sent, false, true)
    else
      var id := if returnId then Some(FetchOneFirstColumn(s.fetch).value) else None;
      Effect(Ok(InsertedId(id)), true, false, sent, true, true)
  }

  /** One attempt of a retried request. */
  function AttemptEffect(request: Request, s: DriverScript): (e: Effect)
    ensures request.Update? ==> !Leaks(e)
    ensures request.Select? ==> (Leaks(e) <==> e.connected && e.result.Err?)
  {
    match request
    case Select(query, parameters) => SelectEffect(Statement(query, parameters), s)
    case Update(query, parameters, returnId) => UpdateEffect(query, parameters, returnId, s)
  }

  /** The effect of each attempt of a retried request. */
  function Effects(request: Request, scripts: nat -> DriverScript): nat -> Effect
  {
    (i: nat) => AttemptEffect(request, scripts(i))
  }

  /** What each attempt of a retried request returns or raises. */
  function Attempts(request: Request, scripts: nat -> DriverScript): nat -> Outcome<Answer, Error>
  {
    (i: nat) => AttemptEffect(request, scripts(i)).result
  }

  class PostgresEngine {
    const databaseName: string
    const user: string
    const password: string
    const host: string
    const port: int
    var connection: Connection?
    var cursor: Cursor?

    constructor (databaseName: string, user: string, password: string,
                 host: string := "localhost", port: int := 5432)
      ensures this.databaseName == databaseName && this.user == user && this.password == password
      ensures this.host == host && this.port == port
      ensures connection == null && cursor == null
    {
      this.databaseName, this.user, this.password := databaseName, user, password;
      this.host, this.port := host, port;
      connection, cursor := null, null;
    }

    /** The keyword arguments of `psycopg2.connect`. */
    function ConnectArguments(): Credentials
    {
      Credentials(user, password, host, port, databaseName)
    }

    /** `_get_connection`: on success the field holds a new open connection; on failure
        the exception is logged and re-raised and the field keeps its old value. */
    method GetConnection(step: Step) returns (r: Outcome<(), Error>)
      modifies this
      ensures r.Ok? <==> step.Succeeds?
      ensures step.Fails? ==> r.error == Raised(step.error)
      ensures step.Succeeds? ==> && fresh(connection) && connection.credentials == ConnectArguments()
                                 && !connection.committed && !connection.closed
      ensures step.Fails? ==> connection == old(connection)
      ensures cursor == old(cursor)
    {
      var c := Connect(ConnectArguments(), step);
      if c.Err? {
        return Err(Raised(c.error));
      }
      connection := c.value;
      return Ok(());
    }

    /** `_get_cursor`: a plain cursor for insertion queries, a `RealDictCursor` otherwise. */
    method GetCursor(isInsertionQuery: bool)
      requires connection != null && !connection.closed
      modifies this
      ensures fresh(cursor) && cursor.connection == connection && cursor.dictRows == !isInsertionQuery
      ensures cursor.sent == [] && !cursor.closed
      ensures connection == old(connection)
    {
      cursor := new Cursor(connection, !isInsertionQuery);
    }

    /** `close`: closes the connection, then the cursor, each only if the field is set;
        the fields keep pointing at the closed objects. */
    method Close()
      modifies connection, cursor
      ensures connection == old(connection) && cursor == old(cursor)
      ensures connection != null ==> connection.closed && connection.committed == old(connection.committed)
      ensures cursor != null ==> cursor.closed && cursor.sent == old(cursor.sent)
    {
      if connection != null {
        connection.Close();
      }
      if cursor != null {
        cursor.Close();
      }
    }

    /** `create_table`. */
    method CreateTable(s: DriverScript, schema: string) returns (r: Outcome<Answer, Error>)
      modifies this
      ensures r == DdlEffect(Statement(schema, None), s).result
      ensures var e := DdlEffect(Statement(schema, None), s);
        if e.connected then fresh(connection) && fresh(cursor) && Reflects(connection, cursor, ConnectArguments(), e)
        else connection == old(connection) && cursor == old(cursor)
    {
      r := RunDdl(s, Statement(schema, None));
    }

    /** `create_index`: the same lifecycle around the statement `IndexQuery` builds. */
    method CreateIndex(s: DriverScript, tableName: string, column: string) returns (r: Outcome<Answer, Error>)
      modifies this
      ensures r == DdlEffect(Statement(IndexQuery(tableName, column), None), s).result
      ensures var e := DdlEffect(Statement(IndexQuery(tableName, column), None), s);
        if e.connected then fresh(connection) && fresh(cursor) && Reflects(connection, cursor, ConnectArguments(), e)
        else connection == old(connection) && cursor == old(cursor)
    {
      var indexQuery := IndexQuery(tableName, column);
      r := RunDdl(s, Statement(indexQuery, None));
    }

    /** The body `create_table` and `create_index` share: connect, plain cursor,
        `execute` outside the `try`, `commit` inside it, `close` in its `finally`. */
    method RunDdl(s: DriverScript, statement: Statement) returns (r: Outcome<Answer, Error>)
      modifies this
      ensures r == DdlEffect(statement, s).result
      ensures var e := DdlEffect(statement, s);
        if e.connected then fresh(connection) && fresh(cursor) && Reflects(connection, cursor, ConnectArguments(), e)
        else connection == old(connection) && cursor == old(cursor)
    {
      var c := GetConnection(s.connect);
      if c.Err? {
        return Err(c.error);
      }
      GetCursor(true);
      var x := cursor.Execute(statement, s.execute);
      if x.Err? {
        return Err(Raised(x.error));
      }
      var m := connection.Commit(s.commit);
      Close();
      if m.Err? {
        return Err(Raised(m.error));
      }
      return Ok(Done);
    }

    /** `run_select_query`: no `try`; `close` runs only once `fetchall` has returned. */
    method RunSelectQuery(s: DriverScript, query: string, parameters: Option<map<string, Value>> := None)
      returns (r: Outcome<Answer, Error>)
      modifies this
      ensures r == SelectEffect(Statement(query, parameters), s).result
      ensures var e := SelectEffect(Statement(query, parameters), s);
        if e.connected then fresh(connection) && fresh(cursor) && Reflects(connection, cursor, ConnectArguments(), e)
        else connection == old(connection) && cursor == old(cursor)
    {
      var c := GetConnection(s.connect);
      if c.Err? {
        return Err(c.error);
      }
      GetCursor(false);
      var x := cursor.Execute(Statement(query, parameters), s.execute);
      if x.Err? {
        return Err(Raised(x.error));
      }
      var outputs := s.fetch;  // cursor.fetchall()
      if outputs.Err? {
        return Err(Raised(outputs.error));
      }
      Close();
      return Ok(Frame(ReplaceNanWithNone(outputs.value)));
    }

    /** The undecorated body of `run_update_query`. */
    method UpdateAttempt(s: DriverScript, query: string, parameters: Option<map<string, Value>>, returnId: bool)
      returns (r: Outcome<Answer, Error>)
      modifies this
      ensures r == UpdateEffect(query, parameters, returnId, s).result
      ensures var e := UpdateEffect(query, parameters, returnId, s);
        if e.connected then fresh(connection) && fresh(cursor) && Reflects(connection, cursor, ConnectArguments(), e)
        else connection == old(connection) && cursor == old(cursor)
    {
      var c := GetConnection(s.connect);
      if c.Err? {
        return Err(c.error);
      }
      GetCursor(true);
      var text := UpdateText(query, returnId);
      var x := cursor.Execute(Statement(text, parameters), s.execute);
      if x.Err? {
        Close();
        return Err(Raised(x.error));
      }
      var insertedId: Option<Cell<Value>> := None;
      if returnId {
        var row := cursor.FetchOne(s.fetch);
        if row.Err? {
          Close();
          return Err(Raised(row.error));
        }
        if row.value.None? {
          Close();
          return Err(NotSubscriptable);
        }
        if row.value.value == [] {
          Close();
          return Err(IndexOutOfRange);
        }
        insertedId := Some(row.value.value[0]);
      }
      var m := connection.Commit(s.commit);
      Close();
      if m.Err? {
        return Err(Raised(m.error));
      }
      return Ok(InsertedId(insertedId));
    }

    /** One undecorated call of a retried operation. */
    method Attempt(s: DriverScript, request: Request) returns (r: Outcome<Answer, Error>)
      modifies this
      ensures r == AttemptEffect(request, s).result
      ensures var e := AttemptEffect(request, s);
        if e.connected then fresh(connection) && fresh(cursor) && Reflects(connection, cursor, ConnectArguments(), e)
        else connection == old(connection) && cursor == old(cursor)
    {
      match request
      case Select(query, parameters) =>
        r := RunSelectQuery(s, query, parameters);
      case Update(query, parameters, returnId) =>
        r := UpdateAttempt(s, query, parameters, returnId);
    }

    /** The fields hold the connection and cursor of the last of the first `n` attempts
        that connected, as that attempt left them, or still `c0` and `cu0` if none did. */
    ghost predicate Tracks(effects: nat -> Effect, n: nat, c0: Connection?, cu0: Cursor?)
      reads this, connection, cursor
    {
      match LastConnected(effects, n)
      case Some(j) => Reflects(connection, cursor, ConnectArguments(), effects(j))
      case None => connection == c0 && cursor == cu0
    }

    /** Attempt n of a retried request, with the state it leaves stated over all the
        attempts made so far. */
    method TrackedAttempt(scripts: nat -> DriverScript, request: Request, n: nat,
                          ghost c0: Connection?, ghost cu0: Cursor?) returns (r: Outcome<Answer, Error>)
      requires Tracks(Effects(request, scripts), n, c0, cu0)
      modifies this
      ensures r == Attempts(request, scripts)(n)
      ensures Tracks(Effects(request, scripts), n + 1, c0, cu0)
      ensures Effects(request, scripts)(n).connected ==> fresh(connection) && fresh(cursor)
      ensures !Effects(request, scripts)(n).connected ==> connection == old(connection) && cursor == old(cursor)
    {
      ghost var effects := Effects(request, scripts);
      r := Attempt(scripts(n), request);
      assert effects(n) == AttemptEffect(request, scripts(n));
      assert LastConnected(effects, n + 1) ==
             if effects(n).connected then Some(n) else LastConnected(effects, n);
    }

    /** `@retry(numRetries=5, retryDelaySeconds=3, backoffScalingFactor=2)` around one
        operation: the loop of `Retry.RetryFunction`, whose wrapped call is `Attempt`
        with the driver behaving as `scripts(i)` on attempt i. The engine's fields end up
        holding the connection and cursor of the last attempt that connected. */
    method WithRetry(scripts: nat -> DriverScript, request: Request) returns (run: Run<Answer, Error>)
      modifies this
      ensures run == Expected(EnginePolicy(), Attempts(request, scripts))
      ensures Tracks(Effects(request, scripts), run.calls, old(connection), old(cursor))
      ensures LastConnected(Effects(request, scripts), run.calls).Some? ==> fresh(connection) && fresh(cursor)
    {
      var p := EnginePolicy();
      ghost var op := Attempts(request, scripts);
      ghost var effects := Effects(request, scripts);
      EngineDelaysValid();
      var numTries, currentDelay := p.numRetries, p.retryDelay;
      var calls: nat, sleeps, messages := 0, [], [];
      while numTries > 1
        invariant Progress(p, op, calls, numTries, currentDelay, sleeps, messages)
        invariant Tracks(effects, calls, old(connection), old(cursor))
        invariant LastConnected(effects, calls).Some? ==> fresh(connection) && fresh(cursor)
        decreases numTries
      {
        var outcome := TrackedAttempt(scripts, request, calls, old(connection), old(cursor));
        if outcome.Ok? {
          ProgressSuccess(p, op, calls, numTries, currentDelay, sleeps, messages);
          return Run(Ok(outcome.value), calls + 1, sleeps, messages);
        }
        // time.sleep(currentDelay) cannot raise: every engine delay is non-negative
        assert DelayAt(p, calls) >= 0;
        ProgressStep(p, op, calls, numTries, currentDelay, sleeps, messages);
        messages := messages + [Message(SinkOf(p), outcome.error, currentDelay)];
        sleeps := sleeps + [currentDelay];
        calls, numTries := calls + 1, numTries - 1;
        currentDelay := currentDelay * p.backoffScalingFactor;
      }
      ProgressFinal(p, op, calls, numTries, currentDelay, sleeps, messages);
      var outcome := TrackedAttempt(scripts, request, calls, old(connection), old(cursor));
      run := Run(Lift(outcome), calls + 1, sleeps, messages);
    }

    /** `run_select_query_with_retry`. */
    method RunSelectQueryWithRetry(scripts: nat -> DriverScript, query: string,
                                   parameters: Option<map<string, Value>> := None)
      returns (run: Run<Answer, Error>)
      modifies this
      ensures run == Expected(EnginePolicy(), Attempts(Select(query, parameters), scripts))
      ensures var last := LastConnected(Effects(Select(query, parameters), scripts), run.calls);
        last.Some? ==> && fresh(connection) && fresh(cursor)
                       && Reflects(connection, cursor, ConnectArguments(),
                                   Effects(Select(query, parameters), scripts)(last.value))
      ensures LastConnected(Effects(Select(query, parameters), scripts), run.calls).None? ==>
                connection == old(connection) && cursor == old(cursor)
    {
      run := WithRetry(scripts, Select(query, parameters));
    }

    /** `run_update_query`, decorated with the retry. */
    method RunUpdateQuery(scripts: nat -> DriverScript, query: string,
                          parameters: Option<map<string, Value>> := None, returnId: bool := true)
      returns (run: Run<Answer, Error>)
      modifies this
      ensures run == Expected(EnginePolicy(), Attempts(Update(query, parameters, returnId), scripts))
      ensures var last := LastConnected(Effects(Update(query, parameters, returnId), scripts), run.calls);
        last.Some? ==> && fresh(connection) && fresh(cursor)
                       && Reflects(connection, cursor, ConnectArguments(),
                                   Effects(Update(query, parameters, returnId), scripts)(last.value))
                       && connection.closed && cursor.closed
      ensures LastConnected(Effects(Update(query, parameters, returnId), scripts), run.calls).None? ==>
                connection == old(connection) && cursor == old(cursor)
    {
      run := WithRetry(scripts, Update(query, parameters, returnId));
    }
  }

  // ---------------------------------------------------------------------------
  // Properties of retried requests.

  /** Whatever the driver does on each attempt, a retried `run_update_query` leaves
      no connection open. */
  lemma RetriedUpdateNeverLeaks(query: string, parameters: Option<map<string, Value>>, returnId: bool,
                                scripts: nat -> DriverScript, n: nat)
    ensures LeakCount(Effects(Update(query, parameters, returnId), scripts), n) == 0
  {
    var effects := Effects(Update(query, parameters, returnId), scripts);
    forall i | 0 <= i < n
      ensures !Leaks(effects(i))
    {
      assert effects(i) == AttemptEffect(Update(query, parameters, returnId), scripts(i));
    }
  }

  /** A retried `run_update_query` commits on exactly one attempt, the last, when it
      returns, and on none when it raises: a retry never repeats a committed update. */
  lemma RetriedUpdateCommitsOnce(query: string, parameters: Option<map<string, Value>>, returnId: bool,
                                 scripts: nat -> DriverScript, i: nat)
    requires i < Expected(EnginePolicy(), Attempts(Update(query, parameters, returnId), scripts)).calls
    ensures var run := Expected(EnginePolicy(), Attempts(Update(query, parameters, returnId), scripts));
      AttemptEffect(Update(query, parameters, returnId), scripts(i)).committed <==>
      i == run.calls - 1 && run.result.Ok?
  {
    var op := Attempts(Update(query, parameters, returnId), scripts);
    FailurePassesThrough(EnginePolicy(), op);
    assert AttemptEffect(Update(query, parameters, returnId), scripts(i)).committed <==> op(i).Ok?;
  }

  /** A select whose `execute` raises on every attempt after connecting is tried five
      times, and all five attempts end without closing their connection. */
  lemma RetriedSelectLeaks(query: string, parameters: Option<map<string, Value>>, scripts: nat -> DriverScript)
    requires forall i :: 0 <= i < 5 ==> scripts(i).connect.Succeeds? && scripts(i).execute.Fails?
    ensures var run := Expected(EnginePolicy(), Attempts(Select(query, parameters), scripts));
      && run.calls == 5 && run.result.Err?
      && LeakCount(Effects(Select(query, parameters), scripts), run.calls) == 5
  {
    var op := Attempts(Select(query, parameters), scripts);
    forall i | 0 <= i < 5
      ensures op(i).Err?
    {
      assert !scripts(i).execute.Succeeds?;
    }
    EngineDelaysValid();
    AllAttemptsFail(EnginePolicy(), op);
  }
}
