/**
 * The `PostgresEngine` class of the root postgres_engine.py, the older copy of the engine.
 *
 * It has the same lifecycle as the package's class for `create_table`, `create_index`
 * and `run_select_query`, adds `create_new_foreign_key_constraint`, decorates
 * `run_select_query` itself, and runs `execute` and `fetchone` of `run_update_query`
 * outside its `try`, so a failure there leaves the connection open and uncommitted.
 */
module LegacyEngine {
  import opened Results
  import opened Rows
  import opened Retry
  import opened SqlText
  import opened Driver
  import Engine

  /** `run_update_query` on one attempt. */
  function UpdateEffect(query: string, parameters: Option<map<string, Value>>, returnId: bool,
                        s: DriverScript): (e: Effect)
    ensures e.connected <==> s.connect.Succeeds?
    ensures e.connected ==> e.sent == [Statement(UpdateText(query, returnId), parameters)] && !e.dictRows
    ensures e.committed <==> e.result.Ok?
    ensures Leaks(e) <==> s.connect.Succeeds? &&
                          (s.execute.Fails? || (returnId && FetchOneFirstColumn(s.fetch).Err?))
    ensures e.result.Ok? <==> && s.connect.Succeeds? && s.execute.Succeeds?
                              && (returnId ==> FetchOneFirstColumn(s.fetch).Ok?)
                              && s.commit.Succeeds?
    ensures e.result.Ok? ==> e.result.value == InsertedId(
              if returnId then Some(FetchOneFirstColumn(s.fetch).value) else None)
  {
    var sent := [Statement(UpdateText(query, returnId), parameters)];
    if s.connect.Fails? then NotConnected(s.connect.error)
    else if s.execute.Fails? then Effect(Err(Raised(s.execute.error)), true, false, sent, false, false)
    else if returnId && FetchOneFirstColumn(s.fetch).Err? then
      Effect(Err(FetchOneFirstColumn(s.fetch).error), true, false, sent, false, false)
    else if s.commit.Fails? then Effect(Err(Raised(s.commit.error)), true, false, sent, false, true)
    else
      var id := if returnId then Some(FetchOneFirstColumn(s.fetch).value) else None;
      Effect(Ok(InsertedId(id)), true, false, sent, true, true)
  }

  /** One attempt of a retried request. */
  function AttemptEffect(request: Request, s: DriverScript): (e: Effect)
    ensures request.Select? ==> (Leaks(e) <==> e.connected && e.result.Err?)
  {
    match request
    case Select(query, parameters) => SelectEffect(Statement(query, parameters), s)
    case Update(query, parameters, returnId) => UpdateEffect(query, parameters, returnId, s)
  }

  /** The effect of each attempt of a retried request. */
  function Effects(request: Request, scripts: nat -> DriverScript): nat -> Effect
  {
    (i: nat) => AttemptEffect(request, scripts(i))
  }

  /** What each attempt of a retried request returns or raises. */
  function Attempts(request: Request, scripts: nat -> DriverScript): nat -> Outcome<Answer, Error>
  {
    (i: nat) => AttemptEffect(request, scripts(i)).result
  }

  class PostgresEngine {
    const databaseName: string
    const user: string
    const password: string
    const host: string
    const port: int
    var connection: Connection?
    var cursor: Cursor?

    constructor (databaseName: string, user: string, password: string,
                 host: string := "localhost", port: int := 5432)
      ensures this.databaseName == databaseName && this.user == user && this.password == password
      ensures this.host == host && this.port == port
      ensures connection == null && cursor == null
    {
      this.databaseName, this.user, this.password := databaseName, user, password;
      this.host, this.port := host, port;
      connection, cursor := null, null;
    }

    /** The keyword arguments of `psycopg2.connect`. */
    function ConnectArguments(): Credentials
    {
      Credentials(user, password, host, port, databaseName)
    }

    /** `_get_connection`: on success the field holds a new open connection; on failure
        the exception is logged and re-raised and the field keeps its old value. */
    method GetConnection(step: Step) returns (r: Outcome<(), Error>)
      modifies this
      ensures r.Ok? <==> step.Succeeds?
      ensures step.Fails? ==> r.error == Raised(step.error)
      ensures step.Succeeds? ==> && fresh(connection) && connection.credentials == ConnectArguments()
                                 && !connection.committed && !connection.closed
      ensures step.Fails? ==> connection == old(connection)
      ensures cursor == old(cursor)
    {
      var c := Connect(ConnectArguments(), step);
      if c.Err? {
        return Err(Raised(c.error));
      }
      connection := c.value;
      return Ok(());
    }

    /** `_get_cursor`: a plain cursor for insertion queries, a `RealDictCursor` otherwise. */
    method GetCursor(isInsertionQuery: bool)
      requires connection != null && !connection.closed
      modifies this
      ensures fresh(cursor) && cursor.connection == connection && cursor.dictRows == !isInsertionQuery
      ensures cursor.sent == [] && !cursor.closed
      ensures connection == old(connection)
    {
      cursor := new Cursor(connection, !isInsertionQuery);
    }

    /** `close`: closes the connection, then the cursor, each only if the field is set;
        the fields keep pointing at the closed objects. */
    method Close()
      modifies connection, cursor
      ensures connection == old(connection) && cursor == old(cursor)
      ensures connection != null ==> connection.closed && connection.committed == old(connection.committed)
      ensures cursor != null ==> cursor.closed && cursor.sent == old(cursor.sent)
    {
      if connection != null {
        connection.Close();
      }
      if cursor != null {
        cursor.Close();
      }
    }

    /** `create_table`. */
    method CreateTable(s: DriverScript, schema: string) returns (r: Outcome<Answer, Error>)
      modifies this
      ensures r == DdlEffect(Statement(schema, None), s).result
      ensures var e := DdlEffect(Statement(schema, None), s);
        if e.connected then fresh(connection) && fresh(cursor) && Reflects(connection, cursor, ConnectArguments(), e)
        else connection == old(connection) && cursor == old(cursor)
    {
      r := RunDdl(s, Statement(schema, None));
    }

    /** `create_index`: the same lifecycle around the statement `IndexQuery` builds. */
    method CreateIndex(s: DriverScript, tableName: string, column: string) returns (r: Outcome<Answer, Error>)
      modifies this
      ensures r == DdlEffect(Statement(IndexQuery(tableName, column), None), s).result
      ensures var e := DdlEffect(Statement(IndexQuery(tableName, column), None), s);
        if e.connected then fresh(connection) && fresh(cursor) && Reflects(connection, cursor, ConnectArguments(), e)
        else connection == old(connection) && cursor == old(cursor)
    {
      var indexQuery := IndexQuery(tableName, column);
      r := RunDdl(s, Statement(indexQuery, None));
    }

    /** The body `create_table` and `create_index` share: connect, plain cursor,
        `execute` outside the `try`, `commit` inside it, `close` in its `finally`. */
    method RunDdl(s: DriverScript, statement: Statement) returns (r: Outcome<Answer, Error>)
      modifies this
      ensures r == DdlEffect(statement, s).result
      ensures var e := DdlEffect(statement, s);
        if e.connected then fresh(connection) && fresh(cursor) && Reflects(connection, cursor, ConnectArguments(), e)
        else connection == old(connection) && cursor == old(cursor)
    {
      var c := GetConnection(s.connect);
      if c.Err? {
        return Err(c.error);
      }
      GetCursor(true);
      var x := cursor.Execute(statement, s.execute);
      if x.Err? {
        return Err(Raised(x.error));
      }
      var m := connection.Commit(s.commit);
      Close();
      if m.Err? {
        return Err(Raised(m.error));
      }
      return Ok(Done);
    }


    /** `create_new_foreign_key_constraint`: `create_table` on the foreign-key template
        filled in by `str.format`, which places each argument verbatim. */
    method CreateNewForeignKeyConstraint(s: DriverScript, tableName: string, constraintName: string,
                                         foreignKeySQL: string)
      returns (r: Outcome<Answer, Error>)
      modifies this
      ensures var schema := ForeignKeyHead + tableName + ForeignKeyMiddle + constraintName + " "
                            + foreignKeySQL + ForeignKeyTail;
        var e := DdlEffect(Statement(schema, None), s);
        && r == e.result
        && if e.connected then fresh(connection) && fresh(cursor) && Reflects(connection, cursor, ConnectArguments(), e)
           else connection == old(connection) && cursor == old(cursor)
    {
      var formatted := Format(ForeignKeyTemplate, ForeignKeyArgs(tableName, constraintName, foreignKeySQL));
      FormatForeignKey(tableName, constraintName, foreignKeySQL);
      r := CreateTable(s, formatted.value);
    }

    /** The undecorated body of `run_select_query`: no `try`, `close` only once
        `fetchall` has returned, then `where(notnull, None).dropna(how="all")`
        without the package's final `replace`. */
    method SelectAttempt(s: DriverScript, query: string, parameters: Option<map<string, Value>>)
      returns (r: Outcome<Answer, Error>)
      modifies this
      ensures r == SelectEffect(Statement(query, parameters), s).result
      ensures var e := SelectEffect(Statement(query, parameters), s);
        if e.connected then fresh(connection) && fresh(cursor) && Reflects(connection, cursor, ConnectArguments(), e)
        else connection == old(connection) && cursor == old(cursor)
    {
      var c := GetConnection(s.connect);
      if c.Err? {
        return Err(c.error);
      }
      GetCursor(false);
      var x := cursor.Execute(Statement(query, parameters), s.execute);
      if x.Err? {
        return Err(Raised(x.error));
      }
      var outputs := s.fetch;  // cursor.fetchall()
      if outputs.Err? {
        return Err(Raised(outputs.error));
      }
      Close();
      return Ok(Frame(DropAllNull(Where(outputs.value))));
    }

    /** The undecorated body of `run_update_query`: `execute` and `fetchone()[0]` run
        before the `try`, so only a failing `commit` is followed by `close`. */
    method UpdateAttempt(s: DriverScript, query: string, parameters: Option<map<string, Value>>, returnId: bool)
      returns (r: Outcome<Answer, Error>)
      modifies this
      ensures r == UpdateEffect(query, parameters, returnId, s).result
      ensures var e := UpdateEffect(query, parameters, returnId, s);
        if e.connected then fresh(connection) && fresh(cursor) && Reflects(connection, cursor, ConnectArguments(), e)
        else connection == old(connection) && cursor == old(cursor)
    {
      var c := GetConnection(s.connect);
      if c.Err? {
        return Err(c.error);
      }
      GetCursor(true);
      var text := UpdateText(query, returnId);
      var x := cursor.Execute(Statement(text, parameters), s.execute);
      if x.Err? {
        return Err(Raised(x.error));
      }
      var insertedId: Option<Cell<Value>> := None;
      if returnId {
        var row := cursor.FetchOne(s.fetch);
        if row.Err? {
          return Err(Raised(row.error));
        }
        if row.value.None? {
          return Err(NotSubscriptable);
        }
        if row.value.value == [] {
          return Err(IndexOutOfRange);
        }
        insertedId := Some(row.value.value[0]);
      }
      var m := connection.Commit(s.commit);
      Close();
      if m.Err? {
        return Err(Raised(m.error));
      }
      return Ok(InsertedId(insertedId));
    }

    /** One undecorated call of a retried operation. */
    method Attempt(s: DriverScript, request: Request) returns (r: Outcome<Answer, Error>)
      modifies this
      ensures r == AttemptEffect(request, s).result
      ensures var e := AttemptEffect(request, s);
        if e.connected then fresh(connection) && fresh(cursor) && Reflects(connection, cursor, ConnectArguments(), e)
        else connection == old(connection) && cursor == old(cursor)
    {
      match request
      case Select(query, parameters) =>
        r := SelectAttempt(s, query, parameters);
      case Update(query, parameters, returnId) =>
        r := UpdateAttempt(s, query, parameters, returnId);
    }

    /** The fields hold the connection and cursor of the last of the first `n` attempts
        that connected, as that attempt left them, or still `c0` and `cu0` if none did. */
    ghost predicate Tracks(effects: nat -> Effect, n: nat, c0: Connection?, cu0: Cursor?)
      reads this, connection, cursor
    {
      match LastConnected(effects, n)
      case Some(j) => Reflects(connection, cursor, ConnectArguments(), effects(j))
      case None => connection == c0 && cursor == cu0
    }

    /** Attempt n of a retried request, with the state it leaves stated over all the
        attempts made so far. */
    method TrackedAttempt(scripts: nat -> DriverScript, request: Request, n: nat,
                          ghost c0: Connection?, ghost cu0: Cursor?) returns (r: Outcome<Answer, Error>)
      requires Tracks(Effects(request, scripts), n, c0, cu0)
      modifies this
      ensures r == Attempts(request, scripts)(n)
      ensures Tracks(Effects(request, scripts), n + 1, c0, cu0)
      ensures Effects(request, scripts)(n).connected ==> fresh(connection) && fresh(cursor)
      ensures !Effects(request, scripts)(n).connected ==> connection == old(connection) && cursor == old(cursor)
    {
      ghost var effects := Effects(request, scripts);
      r := Attempt(scripts(n), request);
      assert effects(n) == AttemptEffect(request, scripts(n));
      assert LastConnected(effects, n + 1) ==
             if effects(n).connected then Some(n) else LastConnected(effects, n);
    }

    /** `@retry(numRetries=5, retryDelay=3, backoffScalingFactor=2)` around one
        operation: the loop of `Retry.RetryFunction`, whose wrapped call is `Attempt`
        with the driver behaving as `scripts(i)` on attempt i. The engine's fields end up
        holding the connection and cursor of the last attempt that connected. */
    method WithRetry(scripts: nat -> DriverScript, request: Request) returns (run: Run<Answer, Error>)
      modifies this
      ensures run == Expected(EnginePolicy(), Attempts(request, scripts))
      ensures Tracks(Effects(request, scripts), run.calls, old(connection), old(cursor))
      ensures LastConnected(Effects(request, scripts), run.calls).Some? ==> fresh(connection) && fresh(cursor)
    {
      var p := EnginePolicy();
      ghost var op := Attempts(request, scripts);
      ghost var effects := Effects(request, scripts);
      EngineDelaysValid();
      var numTries, currentDelay := p.numRetries, p.retryDelay;
      var calls: nat, sleeps, messages := 0, [], [];
      while numTries > 1
        invariant Progress(p, op, calls, numTries, currentDelay, sleeps, messages)
        invariant Tracks(effects, calls, old(connection), old(cursor))
        invariant LastConnected(effects, calls).Some? ==> fresh(connection) && fresh(cursor)
        decreases numTries
      {
        var outcome := TrackedAttempt(scripts, request, calls, old(connection), old(cursor));
        if outcome.Ok? {
          ProgressSuccess(p, op, calls, numTries, currentDelay, sleeps, messages);
          return Run(Ok(outcome.value), calls + 1, sleeps, messages);
        }
        // time.sleep(currentDelay) cannot raise: every engine delay is non-negative
        assert DelayAt(p, calls) >= 0;
        ProgressStep(p, op, calls, numTries, currentDelay, sleeps, messages);
        messages := messages + [Message(SinkOf(p), outcome.error, currentDelay)];
        sleeps := sleeps + [currentDelay];
        calls, numTries := calls + 1, numTries - 1;
        currentDelay := currentDelay * p.backoffScalingFactor;
      }
      ProgressFinal(p, op, calls, numTries, currentDelay, sleeps, messages);
      var outcome := TrackedAttempt(scripts, request, calls, old(connection), old(cursor));
      run := Run(Lift(outcome), calls + 1, sleeps, messages);
    }

    /** `run_select_query`, decorated with the retry. */
    method RunSelectQuery(scripts: nat -> DriverScript, query: string,
                          parameters: Option<map<string, Value>> := None)
      returns (run: Run<Answer, Error>)
      modifies this
      ensures run == Expected(EnginePolicy(), Attempts(Select(query, parameters), scripts))
      ensures var last := LastConnected(Effects(Select(query, parameters), scripts), run.calls);
        last.Some? ==> && fresh(connection) && fresh(cursor)
                       && Reflects(connection, cursor, ConnectArguments(),
                                   Effects(Select(query, parameters), scripts)(last.value))
      ensures LastConnected(Effects(Select(query, parameters), scripts), run.calls).None? ==>
                connection == old(connection) && cursor == old(cursor)
    {
      run := WithRetry(scripts, Select(query, parameters));
    }

    /** `run_update_query`, decorated with the retry. */
    method RunUpdateQuery(scripts: nat -> DriverScript, query: string,
                          parameters: Option<map<string, Value>> := None, returnId: bool := true)
      returns (run: Run<Answer, Error>)
      modifies this
      ensures run == Expected(EnginePolicy(), Attempts(Update(query, parameters, returnId), scripts))
      ensures var last := LastConnected(Effects(Update(query, parameters, returnId), scripts), run.calls);
        last.Some? ==> && fresh(connection) && fresh(cursor)
                       && Reflects(connection, cursor, ConnectArguments(),
                                   Effects(Update(query, parameters, returnId), scripts)(last.value))
      ensures LastConnected(Effects(Update(query, parameters, returnId), scripts), run.calls).None? ==>
                connection == old(connection) && cursor == old(cursor)
    {
      run := WithRetry(scripts, Update(query, parameters, returnId));
    }
  }

  // ---------------------------------------------------------------------------
  // Comparison with the package's engine.

  /** The two `run_update_query` bodies return and raise the same, send the same
      statement and commit in the same cases; they differ only in whether the connection
      is closed, and exactly when `execute` or `fetchone()[0]` raises. */
  lemma UpdateDiffersOnlyInClosing(query: string, parameters: Option<map<string, Value>>, returnId: bool,
                                   s: DriverScript)
    ensures var legacy := UpdateEffect(query, parameters, returnId, s);
            var package := Engine.UpdateEffect(query, parameters, returnId, s);
      && legacy.result == package.result
      && legacy.connected == package.connected && legacy.sent == package.sent
      && legacy.committed == package.committed
      && (legacy.closed != package.closed <==>
            s.connect.Succeeds? && (s.execute.Fails? || (returnId && FetchOneFirstColumn(s.fetch).Err?)))
  {
  }

  /** An update whose `execute` raises on every attempt after connecting is tried five
      times here, and all five attempts end without closing their connection, where
      the package's version closes every one. */
  lemma RetriedUpdateLeaks(query: string, parameters: Option<map<string, Value>>, returnId: bool,
                           scripts: nat -> DriverScript)
    requires forall i :: 0 <= i < 5 ==> scripts(i).connect.Succeeds? && scripts(i).execute.Fails?
    ensures var run := Expected(EnginePolicy(), Attempts(Update(query, parameters, returnId), scripts));
      && run.calls == 5 && run.result.Err?
      && LeakCount(Effects(Update(query, parameters, returnId), scripts), run.calls) == 5
  {
    var op := Attempts(Update(query, parameters, returnId), scripts);
    forall i | 0 <= i < 5
      ensures op(i).Err?
    {
      assert !scripts(i).execute.Succeeds?;
    }
    EngineDelaysValid();
    AllAttemptsFail(EnginePolicy(), op);
  }
}
