# easy_postgres_engine in Dafny

A model of the `easy_postgres_engine` library: a small wrapper that opens a
PostgreSQL connection per operation, runs one statement, and closes it again. Selects
and updates are retried with backoff. The model covers three files:

- `retry_decorator.py`: the `retry` decorator. It tries the wrapped call while more
  than one try is left. After each failure it reports the exception, sleeps, and
  multiplies the delay. A final call outside the `try` decides the outcome.
- `easy_postgres_engine/postgres_engine.py`: the package's `PostgresEngine` class and
  `replace_nan_with_none_in_dataframe`.
- `postgres_engine.py`: the older root copy of the class. It adds
  `create_new_foreign_key_constraint`. Its `run_update_query` runs `execute` and
  `fetchone` outside the `try`.

Modules:

- `Results` (results.dfy): `Option`, and `Outcome` for a call that returns (`Ok`) or
  raises (`Err`).
- `Retry` (retry.dfy): the retry loop as a method, `RetryFunction`, proved equal to a
  reference description, `Expected`. The wrapped function is a parameter
  `op: nat -> Outcome`, where `op(i)` is what its i-th invocation does. The loop
  returns its sleeps and warning messages in a `Run` record instead of performing them.
  The sleep runs inside the `except` block, so a negative delay, which `time.sleep`
  rejects with `ValueError`, ends the call right after the warning (`NegativeSleep`).
- `Rows` (rows.dfy): null normalisation of result tables. A cell is a value, NaN or
  None. The result is the rows that are not entirely null, in order, with every null
  as `None`.
- `SqlText` (sqltext.dfy): the statement texts the engines build:
  - the `CREATE INDEX` statement, with a parser that reads the table and column back;
  - the `RETURNING id` suffix;
  - a model of `str.format` with keyword arguments, and the foreign-key template.
- `Driver` (driver.dfy): what the engines use of psycopg2.
  - `Connection` and `Cursor` are classes that record commits, closes and executed
    statements.
  - A `DriverScript` says what the driver does during one engine call: connect
    succeeds or raises, `execute` and `commit` raise or not, and the fetch returns
    rows or raises.
  - It also holds the reference descriptions (`Effect`) of the lifecycle both engines
    share: `create_table`/`create_index` (`DdlEffect`) and `run_select_query`
    (`SelectEffect`).
- `Engine` (engine.dfy) and `LegacyEngine` (legacy.dfy): the two `PostgresEngine`
  classes.
  - Each operation is a method that updates the `connection` and `cursor` fields. It
    is proved to return what the matching `Effect` says and to leave those objects in
    the state the `Effect` describes.
  - Each class has one retry loop, `WithRetry`, over a `Request` (select or update).
    It is proved against the same `Retry.Expected` as `Retry.RetryFunction`.

The package decorates its queries with `retryDelaySeconds=3`. That keyword belongs to
a decorator (`easy_postgres_engine/retry_decorator.py`) that is not part of this
model. Its configuration is taken as the arguments `(5, 3, 2)` of the decorator in
`retry_decorator.py`, with no logger.

The index name `{tableName}_{column}` is not injective.
`SqlText.IndexNamesCollide` shows two different (table, column) pairs that get the
same index name: `("a_b", "c")` and `("a", "b_c")`. For the second pair,
`IF NOT EXISTS` silently skips creating the index. The statements themselves still
differ, and `ParseIndexQuery` tells them apart.

## Model

| member | source | states |
|---|---|---|
| Retry.DefaultPolicy | retry_decorator.py:5 | the defaults are five tries, a 3-second delay, a factor of 2, and no logger |
| Retry.RetryFunction | retry_decorator.py:9-23 | the loop's outcome, number of invocations, sleeps and messages are exactly `Expected`: the attempts up to the first success inside the loop (or up to the loop's end) all raise, then one more invocation decides; unless a delay before then is negative, when the call raises `ValueError` after that attempt's warning and before its sleep |
| Retry.Lift | retry_decorator.py:13-23 | a value or exception of the wrapped function reaches the caller unchanged |
| Retry.FirstNegativeFrom | retry_decorator.py:20-22 | the first attempt in a range whose delay is negative; every earlier delay is non-negative |
| Retry.DelaysNonNegative | retry_decorator.py:10-22 | a non-negative `retryDelay` and factor give only delays `time.sleep` accepts |
| Retry.FirstOkFrom | retry_decorator.py:11-13 | the first attempt in a range that returns; every earlier one raises |
| Retry.MaxCalls | retry_decorator.py:10-11 | `max(numRetries, 1)` is at least 1 and at least numRetries, and it is one more than the number of calls inside the loop |
| Retry.SinkOf | retry_decorator.py:16-19 | warnings go to the logger exactly when one is given, otherwise to the console |
| Retry.AllAttemptsFail | retry_decorator.py:10-23 | when every invocation raises: with valid delays the function is invoked exactly `max(numRetries, 1)` times and the last exception is raised; with a negative delay the call raises `ValueError` after fewer invocations |
| Retry.FirstSuccess | retry_decorator.py:11-20 | if attempt k is the first to return and the delays before it are non-negative, the result is its value after exactly k invocations; if one of them is negative, `ValueError` is raised before attempt k |
| Retry.FailurePassesThrough | retry_decorator.py:13-23 | the caller gets the last invocation's value or exception unchanged, an exception only after all `max(numRetries, 1)` tries; or else a `ValueError` whose delay is the negative delay announced for the last invocation, before the tries are used up |
| Retry.ScheduleAt | retry_decorator.py:10 | sleep i (from 0) lasts `retryDelay * backoffScalingFactor^i` |
| Retry.ScheduleGrows | retry_decorator.py:22 | each sleep is the previous one times the scaling factor |
| Retry.MessagesAt | retry_decorator.py:15-19 | message i reports attempt i's exception and the delay slept after it |
| Retry.SleepsAndMessages | retry_decorator.py:11-22 | one message per failed attempt inside the loop and none after the final call; a sleep after each message except one announcing a negative delay; at most `numRetries - 1` of each; every sleep non-negative; each message directed to the logger or console |
| Retry.SingleTry | retry_decorator.py:11 | with `numRetries <= 1`: one invocation, no sleep, no message |
| Retry.NegativeDelayAborts | retry_decorator.py:14-20 | a negative `retryDelay` with more than one try: a failing first invocation is reported, then `sleep` raises `ValueError`; one invocation and no sleep |
| Retry.NegativeFactorAborts | retry_decorator.py:14-22 | a positive delay with a negative factor and more than two tries: after two failures, one sleep happens and the second raises `ValueError` |
| Retry.EngineScheduleWhenAllFail | easy_postgres_engine/postgres_engine.py:101 | with the engines' `(5, 3, 2)` and every attempt failing: five invocations, sleeps of 3, 6, 12 and 24 seconds, four messages |
| Rows.NullToNone | easy_postgres_engine/postgres_engine.py:13 | a cell becomes `Some` exactly when it is not null, keeping its value |
| Rows.WhereRow | easy_postgres_engine/postgres_engine.py:13 | `where(notnull, None)` on a row keeps its length and maps each cell |
| Rows.Where | easy_postgres_engine/postgres_engine.py:13 | `where(notnull, None)` keeps the number of rows and maps each row |
| Rows.DropAllNull | easy_postgres_engine/postgres_engine.py:13 | `dropna(how="all")` keeps only rows of the input that are not all None, and keeps every such row |
| Rows.DropAllNullAppend | easy_postgres_engine/postgres_engine.py:13 | the filter works row by row: filtering a concatenation concatenates the filtered parts |
| Rows.NormaliseOneRow | easy_postgres_engine/postgres_engine.py:12-14 | an all-null row disappears; any other row stays with each null as None |
| Rows.NormaliseAppend | easy_postgres_engine/postgres_engine.py:12-14 | normalisation works row by row and keeps the row order |
| Rows.NormaliseKeeps | easy_postgres_engine/postgres_engine.py:12-14 | a row with a non-null cell survives; every surviving row has a non-None cell and comes from the input |
| SqlText.IndexQueryParses | easy_postgres_engine/postgres_engine.py:78 | the `CREATE INDEX IF NOT EXISTS t_c ON t(c);` text reads back as table t and column c when the names contain no space and the table no `(` |
| SqlText.ParsedIndexQueryIsBuilt | postgres_engine.py:60 | every text the parser accepts is exactly the statement built from what it read |
| SqlText.IndexNamesCollide | easy_postgres_engine/postgres_engine.py:78 | two different (table, column) pairs give the same index name but different statements |
| SqlText.UpdateTextRoundTrip | easy_postgres_engine/postgres_engine.py:107-108 | with `returnId` the executed text is the query followed by exactly `\nRETURNING id`; without it, the query unchanged |
| SqlText.FormatLiteral | postgres_engine.py:71-74 | `str.format` copies text without braces unchanged |
| SqlText.FormatField | postgres_engine.py:76-80 | a `{name}` field is replaced by its keyword argument, verbatim |
| SqlText.FormatForeignKey | postgres_engine.py:71-80 | the foreign-key template always formats, with each of the three arguments inserted verbatim in its place, whatever it contains |
| Driver.Connect | easy_postgres_engine/postgres_engine.py:38-40 | `psycopg2.connect` gives a new open, uncommitted connection with the given arguments, or raises the driver's exception |
| Driver.Connection.Commit | easy_postgres_engine/postgres_engine.py:68 | a commit that succeeds marks the connection committed; one that fails raises and changes nothing |
| Driver.Cursor.Execute | easy_postgres_engine/postgres_engine.py:66 | the statement is recorded as sent; the call raises exactly when the driver does |
| Driver.Cursor.FetchOne | easy_postgres_engine/postgres_engine.py:112 | the first row, `None` when there are no rows, or the fetch's exception |
| Driver.NotConnected | easy_postgres_engine/postgres_engine.py:36-43 | a failed connect raises the same exception and opens and commits nothing |
| Driver.DdlEffect | easy_postgres_engine/postgres_engine.py:63-73 | create: returns exactly when connect, execute and commit succeed; commits exactly when it returns; closes exactly when execute succeeded; leaks exactly when execute raised; raises the first failing step's exception |
| Driver.SelectEffect | easy_postgres_engine/postgres_engine.py:92-99 | select: returns the normalised rows exactly when connect, execute and fetchall succeed; never commits; closes exactly when it returns; so it leaks on every failure after connecting |
| Driver.FetchOneFirstColumn | easy_postgres_engine/postgres_engine.py:112 | `fetchone()[0]` is the first column of the first row; no row raises `TypeError`, an empty row raises `IndexError`, a driver error passes through |
| Driver.EnginePolicy | easy_postgres_engine/postgres_engine.py:101 | the engines' retry configuration is the decorator's default |
| Driver.EngineDelaysValid | easy_postgres_engine/postgres_engine.py:101 | every delay of the engines' configuration is non-negative |
| Driver.EngineRunsNeverSleepNegative | easy_postgres_engine/postgres_engine.py:101 | so a retried engine operation returns or raises exactly what its last attempt did |
| Driver.LastConnected | easy_postgres_engine/postgres_engine.py:36-43 | the last of the first n attempts that connected, with no later one connecting; None exactly when none connected |
| Driver.LeakCount | easy_postgres_engine/postgres_engine.py:92-97 | counts the attempts that left a connection open; it is 0 exactly when none did and n exactly when all did |
| Engine.UpdateEffect | easy_postgres_engine/postgres_engine.py:101-121 | update: after connecting it always closes, so it never leaks; commits exactly when it returns; returns `fetchone()[0]` with `returnId` and None without; raises the first failing step's exception unchanged |
| Engine.AttemptEffect | easy_postgres_engine/postgres_engine.py:88-121 | a retried update never leaks; a retried select leaks exactly when it fails after connecting |
| Engine.PostgresEngine.constructor | easy_postgres_engine/postgres_engine.py:18-34 | stores the five arguments (host `localhost` and port 5432 by default); no connection and no cursor |
| Engine.PostgresEngine.GetConnection | easy_postgres_engine/postgres_engine.py:36-43 | on success the field holds a new open connection made with the engine's arguments; on failure the same exception is raised and the field keeps its old value |
| Engine.PostgresEngine.GetCursor | easy_postgres_engine/postgres_engine.py:45-49 | a new cursor on the current connection: plain for insertion queries, dictionary rows otherwise |
| Engine.PostgresEngine.Close | easy_postgres_engine/postgres_engine.py:57-61 | closes the connection and the cursor when set; the fields are not reset and nothing else changes |
| Engine.PostgresEngine.CreateTable | easy_postgres_engine/postgres_engine.py:63-73 | returns what `DdlEffect` says for the schema; after connecting, the fields hold new objects in the state `DdlEffect` describes; otherwise the fields are unchanged |
| Engine.PostgresEngine.CreateIndex | easy_postgres_engine/postgres_engine.py:75-86 | the same for the statement `IndexQuery(tableName, column)` |
| Engine.PostgresEngine.RunDdl | easy_postgres_engine/postgres_engine.py:64-73 | the shared body of create_table and create_index meets `DdlEffect` |
| Engine.PostgresEngine.RunSelectQuery | easy_postgres_engine/postgres_engine.py:92-99 | returns and leaves the state that `SelectEffect` describes |
| Engine.PostgresEngine.UpdateAttempt | easy_postgres_engine/postgres_engine.py:102-121 | returns and leaves the state that `UpdateEffect` describes |
| Engine.PostgresEngine.Attempt | easy_postgres_engine/postgres_engine.py:88-121 | one undecorated select or update meets `AttemptEffect` |
| Engine.PostgresEngine.TrackedAttempt | easy_postgres_engine/postgres_engine.py:88-121 | attempt n meets `AttemptEffect`, and afterwards the fields hold the objects of the last attempt so far that connected, or the original ones if none did |
| Engine.PostgresEngine.WithRetry | easy_postgres_engine/postgres_engine.py:101 | the retried request's outcome, calls, sleeps and messages are `Retry.Expected` over the attempts' outcomes; the fields hold new objects in the state of the last attempt that connected, and are unchanged when none did |
| Engine.PostgresEngine.RunSelectQueryWithRetry | easy_postgres_engine/postgres_engine.py:88-90 | the retried select meets `Retry.Expected`; the fields reflect the last attempt that connected, or are unchanged when none did |
| Engine.PostgresEngine.RunUpdateQuery | easy_postgres_engine/postgres_engine.py:101-121 | the retried update meets `Retry.Expected`; the fields reflect the last attempt that connected, whose connection and cursor are closed, or are unchanged when none did |
| Engine.RetriedUpdateNeverLeaks | easy_postgres_engine/postgres_engine.py:109-120 | whatever the driver does on each attempt, no attempt of a retried update leaves a connection open |
| Engine.RetriedUpdateCommitsOnce | easy_postgres_engine/postgres_engine.py:110-118 | a retried update commits on exactly one attempt, the last, when it returns, and on none when it raises |
| Engine.RetriedSelectLeaks | easy_postgres_engine/postgres_engine.py:93-97 | a select that keeps failing in execute after connecting is tried five times, and all five attempts end without closing their connection |
| LegacyEngine.UpdateEffect | postgres_engine.py:93-111 | update: leaks exactly when execute or `fetchone()[0]` raises after connecting; commits exactly when it returns; returns `fetchone()[0]` with `returnId` and None without |
| LegacyEngine.AttemptEffect | postgres_engine.py:83-111 | a retried select leaks exactly when it fails after connecting |
| LegacyEngine.PostgresEngine.constructor | postgres_engine.py:11-18 | stores the five arguments with the same defaults; no connection and no cursor |
| LegacyEngine.PostgresEngine.GetConnection | postgres_engine.py:20-25 | as in the package |
| LegacyEngine.PostgresEngine.GetCursor | postgres_engine.py:27-31 | as in the package |
| LegacyEngine.PostgresEngine.Close | postgres_engine.py:39-43 | closes the connection and the cursor when set, without resetting the fields |
| LegacyEngine.PostgresEngine.CreateTable | postgres_engine.py:45-55 | meets `DdlEffect`; a commit failure is re-raised unchanged after both objects are closed |
| LegacyEngine.PostgresEngine.CreateIndex | postgres_engine.py:57-68 | meets `DdlEffect` for `IndexQuery(tableName, column)` |
| LegacyEngine.PostgresEngine.RunDdl | postgres_engine.py:46-55 | the shared body meets `DdlEffect` |
| LegacyEngine.PostgresEngine.CreateNewForeignKeyConstraint | postgres_engine.py:70-81 | runs `create_table` on the template with the three arguments substituted verbatim |
| LegacyEngine.PostgresEngine.SelectAttempt | postgres_engine.py:84-91 | returns and leaves the state that `SelectEffect` describes |
| LegacyEngine.PostgresEngine.UpdateAttempt | postgres_engine.py:94-111 | returns and leaves the state that the legacy `UpdateEffect` describes |
| LegacyEngine.PostgresEngine.Attempt | postgres_engine.py:83-111 | one undecorated select or update meets `AttemptEffect` |
| LegacyEngine.PostgresEngine.TrackedAttempt | postgres_engine.py:83-111 | attempt n meets `AttemptEffect`, and afterwards the fields hold the objects of the last attempt so far that connected, or the original ones if none did |
| LegacyEngine.PostgresEngine.WithRetry | postgres_engine.py:83 | the retried request meets `Retry.Expected`; the fields hold new objects in the state of the last attempt that connected, and are unchanged when none did |
| LegacyEngine.PostgresEngine.RunSelectQuery | postgres_engine.py:83-91 | the retried select meets `Retry.Expected`; the fields reflect the last attempt that connected, or are unchanged when none did |
| LegacyEngine.PostgresEngine.RunUpdateQuery | postgres_engine.py:93-111 | the retried update meets `Retry.Expected`; the fields reflect the last attempt that connected, or are unchanged when none did |
| LegacyEngine.UpdateDiffersOnlyInClosing | postgres_engine.py:99-110 | the legacy and package update return, raise, send and commit the same; they differ only in closing, exactly when execute or `fetchone()[0]` raises after connecting |
| LegacyEngine.RetriedUpdateLeaks | postgres_engine.py:93-111 | an update whose execute keeps failing after connecting is tried five times, and all five attempts end without closing their connection |

## Left out

- The database server and psycopg2 itself. What the driver does is an input (`DriverScript`). Server-side id generation, constraint checking, and the row order of a select are not modelled.
- Parameter binding: `%(name)s` placeholders stay in the text, and the parameters are recorded beside it.
- Exceptions from `connection.cursor()`, `connection.close()` and `cursor.close()`. These calls are modelled as always succeeding. The order in which `close` closes the connection and then the cursor is not recorded.
- Engine.PostgresEngine.GetCursor: requires an open connection. Calling `cursor()` on a closed connection or on None raises in Python; no engine operation does this.
- `logging.exception` and the text of the retry warnings. A warning is recorded as its sink, the exception and the announced delay.
- `time.sleep`: sleeps are recorded, not performed. Delays are integers, so float delays and float factors are not modelled.
- pandas and numpy. A result table is a sequence of rows of cells. Column names, the index labels that `dropna` keeps, and dtype coercion are not modelled.
- The package's final `replace({np.nan: None})` pass. It only matters through dtype coercion, so in this model it is the identity, and the legacy `run_select_query`, which lacks it, gets the same rows here. In pandas the legacy version can leave NaN in a numeric column where the package's returns None.
- Rows.ReplaceNanWithNone: a plain composition with no contract of its own. Its properties are stated by `NormaliseOneRow`, `NormaliseAppend` and `NormaliseKeeps`.
- SqlText.Format: models `str.format` with keyword arguments only. Conversions (`!r`), format specs (`:>10`), attribute and index fields are rejected as `UnsupportedField` and not interpreted. Positional fields are rejected because no positional argument is ever passed.
- Retry.RetryFunction: the wrapped function's arguments are not modelled. `op(i)` stands for the i-th invocation with the same arguments.
- Retry.RetryFunction: an `Err` of the wrapped function stands for an `Exception` subclass, which `except Exception` catches. A `BaseException` that is not an `Exception` (`KeyboardInterrupt`, `SystemExit`, `GeneratorExit`) would escape at the first invocation without a retry; such exceptions are not modelled.
- Retry.RetryFunction: `time.sleep` also raises for a delay too large for the platform (`OverflowError`); only the negative-delay `ValueError` is modelled.
- The unshown `easy_postgres_engine/retry_decorator.py` is not part of this model (see above).
- The test module is not part of this model. It needs a live database.
