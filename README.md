# cakephp/database core, modelled in Dafny

This project models the core of the CakePHP database layer and proves
properties of that model. It covers the following parts:

- **The abstract `Driver`.** This is the hub that owns at most one PDO
  connection. It memoises the server version, guards transactions, and
  executes statements. With a logger configured, every execution is
  logged, whether it fails or not. It also answers `supports` questions
  and renders literal values for schema statements (`schemaValue`).
- **The `integer` and `decimal` column types.** These convert between
  application values, database values and request data.
- **The `FunctionsBuilder` factory.** It builds SQL function and aggregate
  expressions.
- **The collated `StringExpression`.**
- **The `DriverFeatureEnum` enumeration.**

Modules:

| module | file | what it holds |
|---|---|---|
| `PhpValues` | `php_values.dfy` | PHP values. PHP 8's `(int)`/`(string)` casts, `is_numeric`, `ctype_digit`, truthiness and array-key canonicalisation. |
| `ValueBinding` | `value_binder.dfy` | The value binder an expression writes into: a placeholder counter plus the list of bindings. |
| `Expression` | `string_expression.dfy` | `StringExpression`. |
| `DriverFeatureEnum` | `driver_feature_enum.dfy` | The seven backed feature cases. |
| `IntegerType` | `integer_type.dfy` | The integer column type. |
| `DecimalType` | `decimal_type.dfy` | The decimal column type. |
| `FunctionsBuilder` | `functions_builder.dfy` | The SQL function factory. |
| `DatabaseDriver` | `driver.dfy` | The driver, plus the collaborator state it reads and changes: the connection, statements, and the query logger. |

Choices of representation:

- **Where the source changes state, the model does too.** The driver,
  `DecimalType`'s locale-parser switch, the string expression and the value
  binder are classes whose methods update their fields. The two `manyToPHP`
  methods are loops over a row map. Everything else is a function.
- **What the outside world answers is passed in as a parameter.**
  - A connection attempt's outcome is a `RetryRun`: connected after n
    retries, or gave up with a reason.
  - What executing a statement yields is an `ExecResponse`: a row count,
    a PDO exception, or any other throwable.
  - The connection's quoting function is part of the `Server` a connection
    reports.
- **Exceptions are `Err` results.** Each carries the exception kind and,
  where the source builds one, its message.
- **The three feature names `supports` matches are backend values.** They
  are the `static::FEATURE_*` constants, declared outside the abstract
  driver. `SupportsMatchesEnum` relates them to `DriverFeatureEnum`.

Where the documentation and the code disagree, the model follows the code.
For example, a `login` option is refused only when `username` is empty (at
`Driver.php:120-124`), not whenever it is given.

## Model

| member | source | states |
|---|---|---|
| `IntegerType.ToDatabase` | Type/IntegerType.php:35-49 | null and '' give SQL NULL; a non-scalar is refused with an error and nothing else is; every other scalar gives its `(int)` cast |
| `IntegerType.ToPHP` | Type/IntegerType.php:58-65 | null stays null, and only null gives null; everything else becomes its integer cast |
| `IntegerType.ManyToPHP` | Type/IntegerType.php:72-82 | the row keeps exactly its keys; listed fields that are set and not null are int-cast; every other entry is unchanged |
| `IntegerType.ToStatement` | Type/IntegerType.php:91-94 | the binding type is PARAM_INT (1) whatever the value |
| `IntegerType.Marshal` | Type/IntegerType.php:102-115 | null and '' give null; a numeric or all-digit value gives its int cast; an array gives 1; the result is always null or an integer |
| `IntegerType.MarshalIgnoresCtypeDigit` | Type/IntegerType.php:107 | the `ctype_digit` test never changes the outcome, because every value it accepts is already numeric |
| `IntegerType.MarshalNullCases` | Type/IntegerType.php:104-114 | marshal gives null exactly for null, '', and values that are neither numeric nor arrays |
| `IntegerType.RoundTrip` | Type/IntegerType.php:35-65 | an integer is stored unchanged and read back unchanged, including when the database returns it as decimal text |
| `DecimalType.ToDatabase` | Type/DecimalType.php:56-78 | null and '' give null; numeric values pass unchanged; a Stringable with numeric text gives that text; exactly the other values are refused with InvalidArgument; every accepted result is null or numeric |
| `DecimalType.ToPHP` | Type/DecimalType.php:87-94 | null stays null; any other value becomes its string form; only an object without `__toString` fails, with the engine `Error` of the `(string)` cast |
| `DecimalType.ManyToPHP` | Type/DecimalType.php:99-110 | it fails exactly when a listed, set field holds an object without a string form, with the cast error of the first such field in list order; otherwise the row keeps its keys, listed non-null fields become strings, and every other entry is unchanged |
| `DecimalType.ToStatement` | Type/DecimalType.php:119-122 | the binding type is PARAM_STR (2) whatever the value |
| `DecimalType.DecimalType.constructor` | Type/DecimalType.php:38-46 | a new decimal type starts with the locale parser off and holds the configured number class |
| `DecimalType.DecimalType.UseLocaleParser` | Type/DecimalType.php:156-174 | switching off always succeeds; switching on succeeds only for `Number` or a subclass; otherwise it raises DatabaseError and keeps the old setting; `enable` defaults to true |
| `DecimalType.DecimalType.Marshal` | Type/DecimalType.php:130-146 | null and '' give null; with the parser on, non-empty strings go to the parser; every other numeric value (an integer or float, whatever the parser setting) gives its string form; strings matching `^[0-9,. ]+$` are kept, and everything else gives null |
| `DecimalType.MarshalKeepsStrings` | Type/DecimalType.php:138-145 | with the parser off, a string is kept exactly when it is non-empty and numeric or pattern-matching, and is never rewritten |
| `DecimalType.MarshalRoutesStringsToParser` | Type/DecimalType.php:135-137 | with the parser on, every non-empty string goes to the parser, even a numeric one |
| `DecimalType.RoundTrip` | Type/DecimalType.php:56-94 | a numeric string is stored unchanged and read back unchanged |
| `DecimalType.MarshalledNumbersAreStorable` | Type/DecimalType.php:138-139 | an integer or numeric string marshalled with the parser off is a string that `toDatabase` accepts unchanged |
| `FunctionsBuilder.Build` | FunctionsBuilder.php:40-47 | a plain function expression carrying exactly the given name, parameters, types and return type, with nothing added; parameters and types default to empty and the return type to 'string' |
| `FunctionsBuilder.LiteralArgs` | FunctionsBuilder.php:65-69 | exactly one parameter entry; it is a 'literal' entry exactly for a string; it passes the argument back unchanged, including integer-like strings that PHP stores as integer keys |
| `FunctionsBuilder.LiteralArgumentFunction` | FunctionsBuilder.php:59-72 | a plain function whose one argument is the given expression; a string argument is a 'literal' entry, anything else a list element (`LiteralArgs`); no conjunction and no addition are set |
| `FunctionsBuilder.SingleLiteralAggregate` | FunctionsBuilder.php:83-92 | an aggregate whose one argument is the given expression; a string argument is a 'literal' entry, anything else a list element (`LiteralArgs`); no conjunction and no addition are set |
| `FunctionsBuilder.FirstTypeOrString` | FunctionsBuilder.php:142 | a missing or falsy first type gives 'string'; a string first type is used as given; any other truthy value is a TypeError under strict typing; a successful result is never '' or '0' |
| `FunctionsBuilder.Rand` | FunctionsBuilder.php:99-102 | RAND with no parameters, typed float; no conjunction and no addition are set |
| `FunctionsBuilder.Sum` | FunctionsBuilder.php:111-119 | an aggregate SUM of the argument, typed 'integer' exactly when the first type is 'integer', and 'float' otherwise; a string argument is a 'literal' entry, anything else a list element (`LiteralArgs`); no conjunction and no addition are set |
| `FunctionsBuilder.Avg` | FunctionsBuilder.php:128-131 | an aggregate AVG of the argument, typed float; a string argument is a 'literal' entry, anything else a list element (`LiteralArgs`); no conjunction and no addition are set |
| `FunctionsBuilder.Max` | FunctionsBuilder.php:140-143 | an aggregate MAX of the argument, typed by `FirstTypeOrString`; it fails exactly when that does; a string argument is a 'literal' entry, anything else a list element (`LiteralArgs`); no conjunction and no addition are set |
| `FunctionsBuilder.Min` | FunctionsBuilder.php:152-155 | an aggregate MIN of the argument, typed by `FirstTypeOrString`; it fails exactly when that does; a string argument is a 'literal' entry, anything else a list element (`LiteralArgs`); no conjunction and no addition are set |
| `FunctionsBuilder.Count` | FunctionsBuilder.php:164-167 | an aggregate COUNT of the argument, typed integer; a string argument is a 'literal' entry, anything else a list element (`LiteralArgs`); no conjunction and no addition are set |
| `FunctionsBuilder.Concat` | FunctionsBuilder.php:176-179 | CONCAT of the arguments as given, typed string; no conjunction and no addition are set |
| `FunctionsBuilder.Coalesce` | FunctionsBuilder.php:188-191 | COALESCE of the arguments as given, typed by `FirstTypeOrString`; it fails exactly when that does; no conjunction and no addition are set |
| `FunctionsBuilder.DateDiff` | FunctionsBuilder.php:201-204 | DATEDIFF of the arguments as given, typed integer; no conjunction and no addition are set |
| `FunctionsBuilder.Extract` | FunctionsBuilder.php:227-233 | EXTRACT of the argument, typed integer, joined by ' FROM', with the part prepended as a literal that passes back the part; a string argument is a 'literal' entry, anything else a list element (`LiteralArgs`); the part is its own 'literal' entry |
| `FunctionsBuilder.DatePart` | FunctionsBuilder.php:214-217 | the same expression as `Extract`: EXTRACT of the expression, joined by ' FROM', with the part prepended as a literal with no types |
| `FunctionsBuilder.Amount` | FunctionsBuilder.php:246-248 | the interval amount is the value when it is numeric and '0' otherwise |
| `FunctionsBuilder.AmountIsNumeric` | FunctionsBuilder.php:246-249 | the interval amount is numeric text unless the value is a float |
| `FunctionsBuilder.Interval` | FunctionsBuilder.php:249 | the interval text is the amount, a space, and the unit |
| `FunctionsBuilder.DateAdd` | FunctionsBuilder.php:244-254 | DATE_ADD of the argument, typed datetime, joined by ', INTERVAL', with the interval literal appended; a string argument is a 'literal' entry, anything else a list element (`LiteralArgs`); the interval is its own 'literal' entry |
| `FunctionsBuilder.DayOfWeek` | FunctionsBuilder.php:264-267 | DAYOFWEEK of the argument, typed integer; a string argument is a 'literal' entry, anything else a list element (`LiteralArgs`); no conjunction and no addition are set |
| `FunctionsBuilder.Weekday` | FunctionsBuilder.php:277-280 | builds the same DAYOFWEEK expression as `DayOfWeek`, proved equal to it for every argument |
| `FunctionsBuilder.Now` | FunctionsBuilder.php:290-303 | 'datetime', 'date' and 'time' give NOW, CURRENT_DATE and CURRENT_TIME, each typed as the kind asked for; any other kind raises InvalidArgument; the kind defaults to 'datetime'; no conjunction and no addition are set |
| `FunctionsBuilder.Aggregate` | FunctionsBuilder.php:317-320 | an aggregate expression carrying exactly the given name, parameters, types and return type; parameters and types default to empty and the return type to 'float' |
| `FunctionsBuilder.FirstTypeDecidesReturnType` | FunctionsBuilder.php:140-191 | a truthy string first type is the return type of `max`, `min` and `coalesce` |
| `FunctionsBuilder.DefaultReturnTypes` | FunctionsBuilder.php:111-191 | with no types, `max`, `min` and `coalesce` are typed 'string' and `sum` is typed 'float' |
| `Expression.StringExpression.constructor` | Expression/StringExpression.php:42-46 | stores the string and the collation |
| `Expression.StringExpression.SetCollation` | Expression/StringExpression.php:54-57 | replaces the collation and leaves the string as it is |
| `Expression.StringExpression.GetCollation` | Expression/StringExpression.php:64-67 | returns the current collation |
| `Expression.StringExpression.Sql` | Expression/StringExpression.php:72-78 | adds exactly one binding: the next 'c' placeholder, bound to the string with type 'string'; renders that placeholder, ' COLLATE ', and the collation |
| `Expression.StringExpression.Traverse` | Expression/StringExpression.php:83-86 | returns the expression itself |
| `DriverFeatureEnum.From` | DriverFeatureEnum.php:19-55 | a string backs the returned case; a ValueError is raised only when no case is backed by the string; every refusal is a ValueError |
| `DriverFeatureEnum.CasesAreComplete` | DriverFeatureEnum.php:19-55 | there are exactly seven cases, and each is listed once |
| `DriverFeatureEnum.BackingValueInjective` | DriverFeatureEnum.php:24-54 | no two cases share a backing string, the misspelled disable-constraint one included |
| `DriverFeatureEnum.FromBackingValue` | DriverFeatureEnum.php:24-54 | `from` inverts the backing value on every case |
| `DatabaseDriver.MergeConfig` | Driver.php:125 | user keys win, the backend's defaults fill the rest, and `log` is present and defaults to false |
| `DatabaseDriver.LoggerClassName` | Driver.php:131 | true or null give the default logger class; a string names the class; any other value is a TypeError |
| `DatabaseDriver.Driver.Init` | Driver.php:66-133 | a new driver holds its backend, merged configuration, auto-quoting flag and logger, with no connection, no cached version and a retry count of 0 |
| `DatabaseDriver.Driver.Create` | Driver.php:118-133 | a login without a username is refused; otherwise the configuration is merged; auto-quoting is on exactly when `quoteIdentifiers` is non-empty; a fresh, empty logger exists exactly when `log` is not false |
| `DatabaseDriver.Driver.CreatePdo` | Driver.php:142-166 | the retry count is recorded however the loop ends; giving up raises a missing-connection error naming the backend and the reason |
| `DatabaseDriver.Driver.Connect` | Driver.php:171 | connects only when no connection is held; a held connection is kept as it is |
| `DatabaseDriver.Driver.Disconnect` | Driver.php:176-180 | leaves no connection and no cached version; nothing else changes |
| `DatabaseDriver.Driver.GetPdo` | Driver.php:197-205 | returns the held connection without connecting; otherwise it connects, failing exactly when the retry loop gave up |
| `DatabaseDriver.Driver.Version` | Driver.php:187-190 | returns the cached version without touching the connection; otherwise it caches the connection's version; a cached version is always the held connection's version; the retry count is unchanged while a connection is held, and is the new retry count after a fresh connect; after a fresh connect it holds a new connection, outside any transaction, with the connected server's version, probe and quoting; when the connect gives up it holds none; the version returned is then that server's version |
| `DatabaseDriver.Driver.InTransaction` | Driver.php:354-357 | reports the held connection's transaction flag, connecting first when none is held; the retry count is unchanged while a connection is held, and is the new retry count after a fresh connect; after a fresh connect it holds a new connection, outside any transaction, with the connected server's version, probe and quoting; when the connect gives up it holds none |
| `DatabaseDriver.Driver.Log` | Driver.php:575-588 | without a logger, returns false and logs nothing; otherwise it appends exactly one entry, the context with the message under `query` |
| `DatabaseDriver.Logged` | Driver.php:581-583 | the logged context is the given context plus `query` holding the message |
| `DatabaseDriver.Driver.BeginTransaction` | Driver.php:310-319 | already in a transaction: true with nothing logged; otherwise it logs exactly `BEGIN`, then a transaction is open; the retry count is unchanged while a connection is held, and is the new retry count after a fresh connect; after a fresh connect it holds a new connection with the connected server's version, probe and quoting; when the connect gives up it holds none |
| `DatabaseDriver.Driver.CommitTransaction` | Driver.php:324-333 | returns whether a transaction was open; logs `COMMIT` exactly when one was; afterwards none is open; the retry count is unchanged while a connection is held, and is the new retry count after a fresh connect; after a fresh connect it holds a new connection, outside any transaction, with the connected server's version, probe and quoting; when the connect gives up it holds none |
| `DatabaseDriver.Driver.RollbackTransaction` | Driver.php:338-347 | returns whether a transaction was open; logs `ROLLBACK` exactly when one was; afterwards none is open; the retry count is unchanged while a connection is held, and is the new retry count after a fresh connect; after a fresh connect it holds a new connection, outside any transaction, with the connected server's version, probe and quoting; when the connect gives up it holds none |
| `DatabaseDriver.ReplaceCommas` | Driver.php:397 | the same text with every comma turned into a point; it contains no comma |
| `DatabaseDriver.RenderSchemaValue` | Driver.php:385-413 | null, false and true become keywords; a float becomes its text with commas turned into points; integers and '0' are verbatim; a numeric string with no comma, no leading '0' and no 'e' is verbatim; everything else is quoted |
| `DatabaseDriver.NumericStringsHaveNoComma` | Driver.php:406-407 | the comma test never rejects a numeric string |
| `DatabaseDriver.VerbatimNeedsNoQuoting` | Driver.php:400-412 | every non-float verbatim rendering is a keyword or made only of digits, signs, points, exponent letters and white space |
| `DatabaseDriver.Driver.SchemaValue` | Driver.php:385-416 | a verbatim literal needs no connection; a quoted one connects if needed, then quotes the value's string form; an object without `__toString` fails its cast; on the quoting path the retry count is unchanged while a connection is held, and is the new retry count after a fresh connect; a quoted value after a fresh connect is quoted by the connected server's quoting; when the connect gives up no connection is held |
| `DatabaseDriver.Driver.IsConnected` | Driver.php:437-450 | true exactly when a connection is held and its `SELECT 1` probe succeeds; it never raises |
| `DatabaseDriver.Driver.EnableAutoQuoting` | Driver.php:455-460 | auto-quoting becomes exactly the argument; nothing else changes; `enable` defaults to true; the driver invariant is kept |
| `DatabaseDriver.Driver.DisableAutoQuoting` | Driver.php:465-470 | auto-quoting becomes false; nothing else changes; the driver invariant is kept |
| `DatabaseDriver.Driver.IsAutoQuotingEnabled` | Driver.php:475-478 | reports the auto-quoting flag |
| `DatabaseDriver.Driver.Supports` | Driver.php:488-496 | true exactly for the disable-constraint, quote and savepoint feature names |
| `DatabaseDriver.SupportsMatchesEnum` | Driver.php:488-496 | when the feature names are the enum's backing strings, exactly the DISABLE_CONSTRAINT_WITHOUT_TRANSACTION, PDO_QUOTE and SAVEPOINT cases are supported |
| `DatabaseDriver.CompileQuery` | Driver.php:501-508 | the compiler sees the query only after the translator for its kind has rewritten it; it stands alone, since `Prepare` and `Run` take the query's SQL as given |
| `DatabaseDriver.StatementTypeMap` | Driver.php:298-301 | a type map is attached exactly for a select query with results casting on, and it is that query's select type map |
| `DatabaseDriver.Driver.Prepare` | Driver.php:294-305 | connects if needed; returns a fresh statement for the query's SQL, with no bound parameters and the type map chosen by `StatementTypeMap`; the retry count is unchanged while a connection is held, and is the new retry count after a fresh connect; after a fresh connect it holds a new connection, outside any transaction, with the connected server's version, probe and quoting; when the connect gives up it holds none |
| `DatabaseDriver.ExecutionResult` | Driver.php:256-289 | only a clean run succeeds; a PDO exception and any other throwable are raised again unchanged |
| `DatabaseDriver.ExecutionContext` | Driver.php:275-283 | driver, error and parameters are always present; row count and timing are present exactly on success; the error is set exactly on failure |
| `DatabaseDriver.ExecutionLog` | Driver.php:264-284 | one entry per execution, filed under the statement's SQL, unless a non-PDO throwable escaped |
| `DatabaseDriver.FailureIsLoggedAndRaised` | Driver.php:271-288 | a failed run's log entry carries the very error that is raised, and has no row count or timing |
| `DatabaseDriver.SuccessIsLoggedWithRowCount` | Driver.php:280-283 | a successful run's entry has no error, and has the statement's row count and a timing |
| `DatabaseDriver.Driver.ExecuteStatement` | Driver.php:256-289 | raises what the execution raised; with a logger, it appends exactly the execution's log entry, using the given parameters or else the bound ones |
| `DatabaseDriver.Driver.Execute` | Driver.php:226-235 | prepares the SQL, binds the parameters, executes once, and logs once; it returns the statement exactly when execution succeeded; the retry count is unchanged while a connection is held, and is the new retry count after a fresh connect; after a fresh connect it holds a new connection, outside any transaction, with the connected server's version, probe and quoting; when the connect gives up it holds none |
| `DatabaseDriver.Driver.Run` | Driver.php:240-247 | prepares the query, binds its binder's values, executes once, and logs once; it returns the statement exactly when execution succeeded; the retry count is unchanged while a connection is held, and is the new retry count after a fresh connect; after a fresh connect it holds a new connection, outside any transaction, with the connected server's version, probe and quoting; when the connect gives up it holds none |

## Left out

- **Real PDO I/O.**
  - Opening the connection, running queries, `exec`, `lastInsertId`, and
    the server's quoting rules are not modelled. A connection is abstract
    state: a transaction flag, a version, a probe outcome and a quoting
    function.
  - `Connection.Begin`, `Commit` and `RollBack` always succeed. PDO
    returning false or throwing there is not modelled.
  - PDO failing while preparing a statement is not modelled.
- **Connect retries.**
  - The retry loop (`CommandRetry`, `ErrorCodeWaitStrategy`) is not modelled,
    nor is its sleeping. Only its outcome and retry count come in, as a
    `RetryRun`. So the bound of four retries is not stated.
  - The backend-specific `connect()` (DSN building, connection flags, init
    commands) is not modelled. It is reduced to "create the connection
    unless one is held".
- **Timing.** The value of `took` (`microtime`, `number_format`) is not
  modelled. Only its presence in the log context is.
- **Logger creation.**
  - Class resolution through `App::className`, and its failure, are left
    out: a logger class name is taken as found.
  - `setLogger`/`getLogger`, `__destruct` and `__debugInfo` are not modelled.
  - `(string)$loggedQuery` and the logger's `debug` formatting are not
    modelled. Only the context array each entry is built from is kept.
- **Collaborators not in this source.**
  - `Statement` internals are not modelled. `bind` pairs each value with its
    type by key, but the model takes bindings already paired. How a raw
    PDO statement executes is also left out.
  - `QueryCompiler`, `Query::sql()` and the query translators are
    parameters of `CompileQuery`. The bindings the compiler adds to the
    binder are not modelled.
  - The value binder's placeholder rule for names starting with ':' or '?'
    is not modelled, nor is its keyed map of bindings. The `ValueBinding`
    model keeps an ordered list and the `:c<n>` naming `StringExpression`
    uses.
  - `FunctionExpression`/`AggregateExpression` internals (`add`,
    `setConjunction`, SQL rendering) are not modelled. `add` calls are
    recorded, not merged.
- **Locale parsing.** `Number::parseFloat` is an uninterpreted function of
  the configured number class. The number class is a per-instance value
  rather than a static property.
- **Float formatting.** A float carries its PHP string form. The
  float-to-string conversion itself, and `(int)` of NaN or infinite
  floats, are not modelled.
- PhpValues.IntCast: `(int)` of a float truncates the float's PHP string
  form, not the double itself, so it can differ from PHP when that text is
  rounded. For example, 1.9999999999999998 (text "2") gives 1 in PHP and 2
  here. This reaches `IntegerType.ToDatabase`, `ToPHP`, `ManyToPHP` and
  `Marshal`.
- **Integer width.** Integers are unbounded, so PHP's 64-bit overflow on
  casts is not modelled. Array keys do respect PHP's integer range.
- PhpValues.StringToInt: `(int)` of a string with a fraction or an exponent
  truncates the exact decimal value. PHP first reads such a string as a
  double and truncates that, so the rounding to 53 bits is not modelled.
  For example, `(int)"0.99999999999999999"` is 1 in PHP and 0 here. This
  reaches `IntegerType.ToDatabase`, `ToPHP`, `ManyToPHP` and `Marshal`.
- **`__call`.** The magic dispatch in `FunctionsBuilder` cannot be stated
  statically. `Build` stands for what it calls.
- **Other members.** `schema`, `newCompiler`, `newTableSchema`,
  `getMaxAliasLength` and `quote` on the driver are outside the modelled
  core.
- **Schema/SqlGeneratorInterface.php.** It declares signatures only. It is
  not part of this model.
- `IntegerType.ToDatabase`: the refusal message helper at
  `Type/IntegerType.php:44` is external. The model states that the refusal
  is an InvalidArgument carrying the value's debug type.
- `DatabaseDriver.Driver.Supports`: the values of the `FEATURE_*` constants
  are declared outside this source. They are fields of the backend, and
  `SupportsMatchesEnum` ties them to the enumeration only under the stated
  assumption.
