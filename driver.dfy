/**
 * The database driver: it owns at most one connection, memoises the server
 * version, guards transactions, runs statements (logging each execution,
 * failed or not, when a logger is configured), answers capability questions
 * and renders literal values for schema statements.
 *
 * The connection, the statements it prepares and the query logger are
 * collaborators whose internals are not part of this model: each is a small
 * class holding the state the driver reads or changes. What the outside world
 * answers (how a connection attempt ends, what executing a statement yields)
 * comes in as parameters.
 */
module DatabaseDriver {
  import opened PhpValues
  import opened ValueBinding
  import DriverFeatureEnum

  // ---------------------------------------------------------------------------
  // Collaborators

  /** What the `SELECT 1` liveness probe does on the connection. */
  datatype ProbeOutcome = ProbeSucceeds | ProbeReturnsFalse | ProbeThrows

  /** What the server reports once a connection is open. */
  datatype Server = Server(version: string, probe: ProbeOutcome, quote: string -> string)

  /**
   * How one run of the connection retry loop ended: connected after some
   * retries, or gave up with the last error's message.
   */
  datatype RetryRun =
    | Connected(retries: nat, server: Server)
    | GaveUp(retries: nat, reason: string)

  /** An open connection handle: its transaction flag and what the server reports. */
  class Connection {
    var inTransaction: bool
    const serverVersion: string
    const probe: ProbeOutcome
    /** The connection's literal quoting (escaping rules are the server's). */
    const quote: string -> string

    constructor (server: Server)
      ensures !inTransaction
      ensures serverVersion == server.version && probe == server.probe && quote == server.quote
    {
      inTransaction := false;
      serverVersion := server.version;
      probe := server.probe;
      quote := server.quote;
    }

    method Begin() returns (ok: bool)
      modifies this
      ensures inTransaction && ok
    {
      inTransaction := true;
      ok := true;
    }

    method Commit() returns (ok: bool)
      modifies this
      ensures !inTransaction && ok
    {
      inTransaction := false;
      ok := true;
    }

    method RollBack() returns (ok: bool)
      modifies this
      ensures !inTransaction && ok
    {
      inTransaction := false;
      ok := true;
    }
  }

  /**
   * What executing a prepared statement yields: the affected row count, a
   * PDO exception, or any other throwable.
   */
  datatype ExecResponse =
    | Rows(rowCount: nat)
    | PdoFailure(message: string)
    | OtherFailure(message: string)

  /** A prepared statement: its SQL, the result type map, and the parameters bound so far. */
  class Statement {
    const queryString: string
    const typeMap: Option<map<string, string>>
    /** What executing this statement against the server yields. */
    const response: ExecResponse
    var boundParams: seq<Binding>

    constructor (queryString: string, typeMap: Option<map<string, string>>, response: ExecResponse)
      ensures this.queryString == queryString && this.typeMap == typeMap && this.response == response
      ensures boundParams == []
    {
      this.queryString := queryString;
      this.typeMap := typeMap;
      this.response := response;
      boundParams := [];
    }

    method Bind(params: seq<Binding>)
      modifies this
      ensures boundParams == old(boundParams) + params
    {
      boundParams := boundParams + params;
    }
  }

  /** One entry of a logged query's context array. */
  datatype ContextValue =
    | DriverRef
    | ErrorOf(error: Option<Error>)
    | Params(params: seq<Binding>)
    | NumRows(n: nat)
    | Took
    | QueryText(text: string)

  /** A logged query: the context array it was built from, `query` included. */
  datatype LoggedQuery = LoggedQuery(context: map<string, ContextValue>)

  /** The query logger: the class it was created from and what it has recorded. */
  class QueryLogger {
    const className: string
    var entries: seq<LoggedQuery>

    constructor (className: string)
      ensures this.className == className && entries == []
    {
      this.className := className;
      entries := [];
    }

    method Debug(entry: LoggedQuery)
      modifies this
      ensures entries == old(entries) + [entry]
    {
      entries := entries + [entry];
    }
  }

  /** The kinds of query. */
  datatype QueryType = Select | Insert | Update | Delete

  /**
   * A query, as far as the driver looks into it: its SQL, its kind, whether
   * results casting is on, the select type map and the values its binder holds.
   */
  datatype Query = Query(
    sql: string,
    kind: QueryType,
    resultsCasting: bool,
    selectTypeMap: map<string, string>,
    bindings: seq<Binding>)

  /** What `prepare` accepts: raw SQL or a query object. */
  datatype QueryOrSql = RawSql(text: string) | Compiled(query: Query)

  /**
   * What a concrete backend adds to the abstract driver: its short name, its
   * default configuration, and the values of the three feature names the base
   * driver supports.
   */
  datatype Backend = Backend(
    name: string,
    baseConfig: map<string, Value>,
    featureDisableConstraint: string,
    featureQuote: string,
    featureSavepoint: string)

  // ---------------------------------------------------------------------------
  // Configuration

  const LOGIN_MESSAGE: string := "Please pass \"username\" instead of \"login\" for connecting to the database"
  const DEFAULT_LOGGER: string := "Cake\\Database\\Log\\QueryLogger"

  /** PHP's `empty($config[key])`: missing, or present and falsy. */
  predicate Empty(config: map<string, Value>, key: string)
  {
    key !in config || !Truthy(config[key])
  }

  /**
   * `$config += $baseConfig + ['log' => false]`: user settings win over the
   * backend's defaults, which win over `log` being off.
   */
  function MergeConfig(base: map<string, Value>, config: map<string, Value>): (r: map<string, Value>)
    ensures r.Keys == config.Keys + base.Keys + {"log"}
    ensures forall k :: k in config ==> r[k] == config[k]
    ensures forall k :: k in base && k !in config ==> r[k] == base[k]
    ensures "log" !in config && "log" !in base ==> r["log"] == Bool(false)
  {
    map["log" := Bool(false)] + base + config
  }

  /**
   * The logger class `createLogger` is given: the default class for `true`
   * or null, the class named by a string, and a type error for anything else
   * (the parameter is a nullable string under strict typing).
   */
  function LoggerClassName(log: Value): (r: Result<string>)
    ensures log == Bool(true) || log == Null ==> r == Ok(DEFAULT_LOGGER)
    ensures log.Str? ==> r == Ok(log.s)
    ensures r.Err? <==> !(log == Bool(true) || log == Null || log.Str?)
    ensures r.Err? ==> r.error.TypeError?
  {
    if log == Bool(true) || log == Null then Ok(DEFAULT_LOGGER)
    else if log.Str? then Ok(log.s)
    else Err(TypeError("Cake\\Database\\Driver::createLogger(): Argument #1 ($className) must be of type ?string, " + DebugType(log) + " given"))
  }

  // ---------------------------------------------------------------------------
  // Literal rendering for schema statements

  /** How `schemaValue` renders a value: as given text, or through the connection's quoting. */
  datatype SchemaLiteral = Verbatim(text: string) | Quote(value: Value)

  /** `str_replace(',', '.', s)`. */
  function ReplaceCommas(s: string): (r: string)
    ensures |r| == |s|
    ensures forall i :: 0 <= i < |s| ==> r[i] == if s[i] == ',' then '.' else s[i]
    ensures ',' !in r
  {
    if |s| == 0 then ""
    else [if s[0] == ',' then '.' else s[0]] + ReplaceCommas(s[1..])
  }

  /** `str_contains(s, c)` for a single character. */
  predicate Contains(s: string, c: char)
  {
    c in s
  }

  /**
   * The literal a value is written as in schema statements: null, false and
   * true as keywords, a float as its text with commas turned into points, an
   * integer and the string '0' as they are, a numeric string that has no
   * comma, no leading '0' and no lower-case 'e' as it is; everything else is
   * quoted by the connection.
   */
  function RenderSchemaValue(value: Value): (r: SchemaLiteral)
    ensures value == Null ==> r == Verbatim("NULL")
    ensures value == Bool(false) ==> r == Verbatim("FALSE")
    ensures value == Bool(true) ==> r == Verbatim("TRUE")
    ensures value.Float? ==> r == Verbatim(ReplaceCommas(value.text))
    ensures value.Int? ==> r == Verbatim(IntToString(value.i))
    ensures value.Str? ==>
              (r == Verbatim(value.s) <==>
                 value.s == "0" ||
                 (IsNumericString(value.s) && !Contains(value.s, ',') && value.s[0] != '0' && !Contains(value.s, 'e')))
    ensures value.Str? ==> r == Verbatim(value.s) || r == Quote(value)
    ensures value.Arr? || value.Stringable? || value.Object? ==> r == Quote(value)
  {
    match value
    case Null => Verbatim("NULL")
    case Bool(b) => if b then Verbatim("TRUE") else Verbatim("FALSE")
    case Float(t) => Verbatim(ReplaceCommas(t))
    case Int(i) => Verbatim(IntToString(i))
    case Str(s) =>
      if s == "0" || (IsNumericString(s) && !Contains(s, ',') && s[0] != '0' && !Contains(s, 'e'))
      then Verbatim(s)
      else Quote(value)
    case _ => Quote(value)
  }

  /** A numeric string never holds a comma: the renderer's comma test never rejects anything. */
  lemma NumericStringsHaveNoComma(s: string)
    requires IsNumericString(s)
    ensures !Contains(s, ',')
  {
    NumericStringChars(s);
    assert forall i :: 0 <= i < |s| ==> s[i] != ',';
  }

  /**
   * Whatever is written unquoted, floats aside, is made of digits, signs,
   * points, exponent letters, white space and the three keywords' letters: no
   * quote character or other SQL syntax can reach the statement unescaped.
   */
  lemma VerbatimNeedsNoQuoting(value: Value)
    requires RenderSchemaValue(value).Verbatim? && !value.Float?
    ensures var t := RenderSchemaValue(value).text;
            t in {"NULL", "FALSE", "TRUE"} || forall i :: 0 <= i < |t| ==> IsNumericChar(t[i])
  {
    var t := RenderSchemaValue(value).text;
    match value
    case Int(i) =>
      var d := NatToString(if i < 0 then -i else i);
      assert forall k :: 0 <= k < |d| ==> IsDigit(d[k]);
      forall k | 0 <= k < |t| ensures IsNumericChar(t[k]) {
        if i < 0 && k > 0 {
          assert t[k] == d[k - 1];
        }
      }
    case Str(s) =>
      if s == "0" {
        assert IsNumericChar(t[0]);
      } else {
        NumericStringChars(s);
      }
    case _ =>
  }

  // ---------------------------------------------------------------------------
  // Statement preparation and the execution log

  /** The SQL a statement is prepared from. */
  function SqlOf(query: QueryOrSql): string
  {
    match query
    case RawSql(text) => text
    case Compiled(q) => q.sql
  }

  /** A statement carries a result type map only for a select query with results casting on. */
  function StatementTypeMap(query: QueryOrSql): (r: Option<map<string, string>>)
    ensures r.Some? <==> query.Compiled? && query.query.resultsCasting && query.query.kind == Select
    ensures r.Some? ==> r.value == query.query.selectTypeMap
  {
    if query.Compiled? && query.query.resultsCasting && query.query.kind == Select
    then Some(query.query.selectTypeMap)
    else None
  }

  /** What `executeStatement` raises for each response: only a clean run succeeds. */
  function ExecutionResult(response: ExecResponse): (r: Result<()>)
    ensures r.Ok? <==> response.Rows?
    ensures response.PdoFailure? ==> r == Err(PdoError(response.message))
    ensures response.OtherFailure? ==> r == Err(UncaughtError(response.message))
  {
    match response
    case Rows(_) => Ok(())
    case PdoFailure(m) => Err(PdoError(m))
    case OtherFailure(m) => Err(UncaughtError(m))
  }

  /** The context a logged call carries: the given context with the message under `query`. */
  function Logged(message: string, context: map<string, ContextValue>): (q: LoggedQuery)
    ensures q.context.Keys == context.Keys + {"query"}
    ensures q.context["query"] == QueryText(message)
    ensures forall k :: k in context && k != "query" ==> q.context[k] == context[k]
  {
    LoggedQuery(context["query" := QueryText(message)])
  }

  /**
   * The context of a logged execution: the driver, the error (if any) and
   * the parameters always; the row count and the timing only on success.
   */
  function ExecutionContext(response: ExecResponse, params: seq<Binding>): (c: map<string, ContextValue>)
    requires !response.OtherFailure?
    ensures "driver" in c && "error" in c && "params" in c
    ensures c["params"] == Params(params)
    ensures c["error"] == ErrorOf(if response.Rows? then None else Some(PdoError(response.message)))
    ensures "numRows" in c <==> response.Rows?
    ensures "took" in c <==> response.Rows?
    ensures response.Rows? ==> c["numRows"] == NumRows(response.rowCount)
    ensures "query" !in c
  {
    var base := map["driver" := DriverRef, "error" := ErrorOf(None), "params" := Params(params)];
    match response
    case Rows(n) => base["numRows" := NumRows(n)]["took" := Took]
    case PdoFailure(m) => base["error" := ErrorOf(Some(PdoError(m)))]
  }

  /**
   * What one execution adds to the log: one entry, unless something other
   * than a PDO exception escaped, which bypasses the logging.
   */
  function ExecutionLog(queryString: string, response: ExecResponse, params: seq<Binding>): (r: seq<LoggedQuery>)
    ensures |r| == (if response.OtherFailure? then 0 else 1)
    ensures |r| == 1 ==> "query" in r[0].context && r[0].context["query"] == QueryText(queryString)
  {
    if response.OtherFailure? then []
    else [Logged(queryString, ExecutionContext(response, params))]
  }

  /**
   * A failed execution is reported twice: the logged entry carries the very
   * error that is raised, and has neither a row count nor a timing.
   */
  lemma FailureIsLoggedAndRaised(queryString: string, message: string, params: seq<Binding>)
    ensures var log := ExecutionLog(queryString, PdoFailure(message), params);
            |log| == 1 &&
            log[0].context["error"] == ErrorOf(Some(ExecutionResult(PdoFailure(message)).error)) &&
            "numRows" !in log[0].context && "took" !in log[0].context
  {
  }

  /** A successful execution's entry reports the statement's row count and no error. */
  lemma SuccessIsLoggedWithRowCount(queryString: string, n: nat, params: seq<Binding>)
    ensures var log := ExecutionLog(queryString, Rows(n), params);
            |log| == 1 && ExecutionResult(Rows(n)).Ok? &&
            log[0].context["error"] == ErrorOf(None) &&
            log[0].context["numRows"] == NumRows(n) && "took" in log[0].context
  {
  }

  /**
   * Compiles a query: the translator chosen by the query's kind rewrites it
   * first, and the compiler sees only the rewritten query. It stands on its
   * own: `Prepare` and `Run` take a query's SQL text as given (`Query.sql`),
   * since the query compiler and translators are parameters here.
   */
  function CompileQuery(query: Query, translator: QueryType -> (Query -> Query), compile: Query -> string): (r: (Query, string))
    ensures r.0 == translator(query.kind)(query)
    ensures r.1 == compile(r.0)
  {
    var translated := translator(query.kind)(query);
    (translated, compile(translated))
  }

  // ---------------------------------------------------------------------------
  // The driver

  class Driver {
    const backend: Backend
    const config: map<string, Value>
    const logger: QueryLogger?
    var pdo: Connection?
    var version: Option<string>
    var autoQuoting: bool
    var connectRetries: nat

    /** A memoised version is the version of the connection currently held. */
    predicate Valid()
      reads this
    {
      version.Some? ==> pdo != null && version.value == pdo.serverVersion
    }

    constructor Init(backend: Backend, config: map<string, Value>, autoQuoting: bool, logger: QueryLogger?)
      ensures this.backend == backend && this.config == config && this.logger == logger
      ensures this.autoQuoting == autoQuoting
      ensures pdo == null && version == None && connectRetries == 0
      ensures Valid()
    {
      this.backend := backend;
      this.config := config;
      this.logger := logger;
      this.autoQuoting := autoQuoting;
      pdo := null;
      version := None;
      connectRetries := 0;
    }

    /**
     * Builds a driver of `backend` from the user's configuration: a `login`
     * without a `username` is refused; the configuration is merged over the
     * backend's defaults; auto-quoting starts on when `quoteIdentifiers` is
     * set; a logger is created unless `log` is false.
     */
    static method Create(backend: Backend, config: map<string, Value>) returns (r: Result<Driver>)
      ensures Empty(config, "username") && !Empty(config, "login") ==> r == Err(InvalidArgument(LOGIN_MESSAGE))
      ensures var merged := MergeConfig(backend.baseConfig, config);
              r.Ok? <==> !(Empty(config, "username") && !Empty(config, "login")) &&
                          (merged["log"] == Bool(false) || LoggerClassName(merged["log"]).Ok?)
      ensures r.Ok? ==> fresh(r.value) && r.value.Valid()
      ensures r.Ok? ==> r.value.backend == backend && r.value.config == MergeConfig(backend.baseConfig, config)
      ensures r.Ok? ==> r.value.pdo == null && r.value.version == None && r.value.connectRetries == 0
      ensures r.Ok? ==> r.value.autoQuoting == !Empty(r.value.config, "quoteIdentifiers")
      ensures r.Ok? ==> (r.value.logger == null <==> r.value.config["log"] == Bool(false))
      ensures r.Ok? && r.value.logger != null ==>
                fresh(r.value.logger) && r.value.logger.entries == [] &&
                r.value.logger.className == LoggerClassName(r.value.config["log"]).value
    {
      if Empty(config, "username") && !Empty(config, "login") {
        return Err(InvalidArgument(LOGIN_MESSAGE));
      }
      var merged := MergeConfig(backend.baseConfig, config);
      var autoQuoting := !Empty(merged, "quoteIdentifiers");
      var logger: QueryLogger? := null;
      if merged["log"] != Bool(false) {
        var className := LoggerClassName(merged["log"]);
        if className.Err? {
          return Err(className.error);
        }
        logger := new QueryLogger(className.value);
      }
      var d := new Driver.Init(backend, merged, autoQuoting, logger);
      return Ok(d);
    }

    /** Whether a transaction is open on the connection held (none when no connection is held). */
    predicate TransactionOpen()
      reads this, pdo
    {
      pdo != null && pdo.inTransaction
    }

    /**
     * Opens a connection through the retry loop. The number of retries is
     * recorded however the loop ends; giving up raises a missing-connection
     * error naming the backend and the last failure.
     */
    method CreatePdo(env: RetryRun) returns (r: Result<Connection>)
      modifies this
      ensures connectRetries == env.retries
      ensures env.Connected? ==>
                r.Ok? && fresh(r.value) && !r.value.inTransaction &&
                r.value.serverVersion == env.server.version && r.value.probe == env.server.probe &&
                r.value.quote == env.server.quote
      ensures env.GaveUp? ==> r == Err(MissingConnection(backend.name, env.reason))
      ensures pdo == old(pdo) && version == old(version) && autoQuoting == old(autoQuoting)
    {
      connectRetries := env.retries;
      match env
      case Connected(_, server) =>
        var c := new Connection(server);
        r := Ok(c);
      case GaveUp(_, reason) =>
        r := Err(MissingConnection(backend.name, reason));
    }

    /** Connects unless a connection is already held. */
    method Connect(env: RetryRun) returns (r: Result<()>)
      requires Valid()
      modifies this
      ensures Valid()
      ensures old(pdo) != null ==> r.Ok? && pdo == old(pdo) && connectRetries == old(connectRetries)
      ensures old(pdo) == null ==> connectRetries == env.retries
      ensures old(pdo) == null && env.Connected? ==>
                r.Ok? && pdo != null && fresh(pdo) && !pdo.inTransaction &&
                pdo.serverVersion == env.server.version && pdo.probe == env.server.probe && pdo.quote == env.server.quote
      ensures old(pdo) == null && env.GaveUp? ==> r == Err(MissingConnection(backend.name, env.reason)) && pdo == null
      ensures version == old(version) && autoQuoting == old(autoQuoting)
    {
      if pdo != null {
        return Ok(());
      }
      var c := CreatePdo(env);
      match c
      case Ok(connection) =>
        pdo := connection;
        r := Ok(());
      case Err(e) =>
        r := Err(e);
    }

    /** Drops the connection and the memoised version. */
    method Disconnect()
      modifies this
      ensures pdo == null && version == None
      ensures autoQuoting == old(autoQuoting) && connectRetries == old(connectRetries)
      ensures Valid()
    {
      pdo := null;
      version := None;
    }

    /** The connection held, connecting first when none is. */
    method GetPdo(env: RetryRun) returns (r: Result<Connection>)
      requires Valid()
      modifies this
      ensures Valid()
      ensures old(pdo) != null ==> r.Ok? && r.value == old(pdo) && connectRetries == old(connectRetries)
      ensures old(pdo) == null ==> connectRetries == env.retries
      ensures r.Ok? <==> old(pdo) != null || env.Connected?
      ensures old(pdo) == null && env.GaveUp? ==> r == Err(MissingConnection(backend.name, env.reason))
      ensures old(pdo) == null && env.Connected? ==>
                r.Ok? && fresh(r.value) && !r.value.inTransaction && r.value.serverVersion == env.server.version &&
                r.value.probe == env.server.probe && r.value.quote == env.server.quote
      ensures r.Ok? ==> pdo == r.value
      ensures r.Err? ==> pdo == null
      ensures version == old(version) && autoQuoting == old(autoQuoting)
    {
      if pdo == null {
        var c := Connect(env);
        if c.Err? {
          return Err(c.error);
        }
      }
      r := Ok(pdo);
    }

    /**
     * The server version: the memoised one when there is one, otherwise the
     * connection's (connecting if needed), which is then memoised.
     */
    method Version(env: RetryRun) returns (r: Result<string>)
      requires Valid()
      modifies this
      ensures Valid()
      ensures old(version).Some? ==> r == Ok(old(version).value) && pdo == old(pdo) && version == old(version)
      ensures old(version).None? && (old(pdo) != null || env.Connected?) ==> r.Ok?
      ensures old(version).None? && old(pdo) == null && env.GaveUp? ==>
                r == Err(MissingConnection(backend.name, env.reason)) && version == None
      ensures r.Ok? ==> version == Some(r.value) && pdo != null && r.value == pdo.serverVersion
      ensures old(pdo) != null ==> pdo == old(pdo)
      ensures old(pdo) != null ==> connectRetries == old(connectRetries)
      ensures old(version).None? && old(pdo) == null ==> connectRetries == env.retries
      ensures old(pdo) == null && env.Connected? ==>
                pdo != null && fresh(pdo) && !pdo.inTransaction && pdo.serverVersion == env.server.version &&
                pdo.probe == env.server.probe && pdo.quote == env.server.quote
      ensures old(pdo) == null && env.GaveUp? ==> pdo == null
      ensures old(pdo) == null && env.Connected? ==> r == Ok(env.server.version)
      ensures autoQuoting == old(autoQuoting)
    {
      if version.Some? {
        return Ok(version.value);
      }
      var c := GetPdo(env);
      match c
      case Err(e) =>
        r := Err(e);
      case Ok(connection) =>
        version := Some(connection.serverVersion);
        r := Ok(connection.serverVersion);
    }

    /** Whether a transaction is open on the connection, connecting first when none is held. */
    method InTransaction(env: RetryRun) returns (r: Result<bool>)
      requires Valid()
      modifies this
      ensures Valid()
      ensures r.Ok? <==> old(pdo) != null || env.Connected?
      ensures r.Ok? ==> r.value == old(TransactionOpen()) && r.value == TransactionOpen()
      ensures r.Err? ==> r == Err(MissingConnection(backend.name, env.reason))
      ensures old(pdo) != null ==> pdo == old(pdo)
      ensures old(pdo) != null ==> connectRetries == old(connectRetries)
      ensures old(pdo) == null ==> connectRetries == env.retries
      ensures old(pdo) == null && env.Connected? ==>
                pdo != null && fresh(pdo) && !pdo.inTransaction && pdo.serverVersion == env.server.version &&
                pdo.probe == env.server.probe && pdo.quote == env.server.quote
      ensures old(pdo) == null && env.GaveUp? ==> pdo == null
      ensures version == old(version) && autoQuoting == old(autoQuoting)
    {
      var c := GetPdo(env);
      match c
      case Err(e) =>
        r := Err(e);
      case Ok(connection) =>
        r := Ok(connection.inTransaction);
    }

    /**
     * Sends `message` to the logger with `context`, the message filed under
     * `query`; without a logger nothing happens and the answer is false.
     */
    method Log(message: string, context: map<string, ContextValue>) returns (r: bool)
      modifies logger
      ensures r <==> logger != null
      ensures logger != null ==> logger.entries == old(logger.entries) + [Logged(message, context)]
    {
      if logger == null {
        return false;
      }
      logger.Debug(Logged(message, context));
      return true;
    }

    /**
     * Opens a transaction. Already in one: true, nothing logged. Otherwise
     * `BEGIN` is logged first and the connection opens the transaction.
     */
    method BeginTransaction(env: RetryRun) returns (r: Result<bool>)
      requires Valid()
      modifies this, pdo, logger
      ensures Valid()
      ensures r.Ok? <==> old(pdo) != null || env.Connected?
      ensures r.Err? ==> r == Err(MissingConnection(backend.name, env.reason))
      ensures r.Ok? ==> r.value && TransactionOpen()
      ensures logger != null ==>
                logger.entries == old(logger.entries) + (if r.Ok? && !old(TransactionOpen()) then [Logged("BEGIN", map[])] else [])
      ensures old(pdo) != null ==> pdo == old(pdo)
      ensures old(pdo) != null ==> connectRetries == old(connectRetries)
      ensures old(pdo) == null ==> connectRetries == env.retries
      ensures old(pdo) == null && env.Connected? ==>
                pdo != null && fresh(pdo) && pdo.serverVersion == env.server.version &&
                pdo.probe == env.server.probe && pdo.quote == env.server.quote
      ensures old(pdo) == null && env.GaveUp? ==> pdo == null
      ensures version == old(version) && autoQuoting == old(autoQuoting)
    {
      var c := GetPdo(env);
      if c.Err? {
        return Err(c.error);
      }
      var connection := c.value;
      if connection.inTransaction {
        return Ok(true);
      }
      var _ := Log("BEGIN", map[]);
      var ok := connection.Begin();
      r := Ok(ok);
    }

    /**
     * Commits. Not in a transaction: false, nothing logged. Otherwise
     * `COMMIT` is logged first and the connection commits.
     */
    method CommitTransaction(env: RetryRun) returns (r: Result<bool>)
      requires Valid()
      modifies this, pdo, logger
      ensures Valid()
      ensures r.Ok? <==> old(pdo) != null || env.Connected?
      ensures r.Err? ==> r == Err(MissingConnection(backend.name, env.reason))
      ensures r.Ok? ==> r.value == old(TransactionOpen()) && !TransactionOpen()
      ensures logger != null ==>
                logger.entries == old(logger.entries) + (if r.Ok? && old(TransactionOpen()) then [Logged("COMMIT", map[])] else [])
      ensures old(pdo) != null ==> pdo == old(pdo)
      ensures old(pdo) != null ==> connectRetries == old(connectRetries)
      ensures old(pdo) == null ==> connectRetries == env.retries
      ensures old(pdo) == null && env.Connected? ==>
                pdo != null && fresh(pdo) && !pdo.inTransaction && pdo.serverVersion == env.server.version &&
                pdo.probe == env.server.probe && pdo.quote == env.server.quote
      ensures old(pdo) == null && env.GaveUp? ==> pdo == null
      ensures version == old(version) && autoQuoting == old(autoQuoting)
    {
      var c := GetPdo(env);
      if c.Err? {
        return Err(c.error);
      }
      var connection := c.value;
      if !connection.inTransaction {
        return Ok(false);
      }
      var _ := Log("COMMIT", map[]);
      var ok := connection.Commit();
      r := Ok(ok);
    }

    /**
     * Rolls back. Not in a transaction: false, nothing logged. Otherwise
     * `ROLLBACK` is logged first and the connection rolls back.
     */
    method RollbackTransaction(env: RetryRun) returns (r: Result<bool>)
      requires Valid()
      modifies this, pdo, logger
      ensures Valid()
      ensures r.Ok? <==> old(pdo) != null || env.Connected?
      ensures r.Err? ==> r == Err(MissingConnection(backend.name, env.reason))
      ensures r.Ok? ==> r.value == old(TransactionOpen()) && !TransactionOpen()
      ensures logger != null ==>
                logger.entries == old(logger.entries) + (if r.Ok? && old(TransactionOpen()) then [Logged("ROLLBACK", map[])] else [])
      ensures old(pdo) != null ==> pdo == old(pdo)
      ensures old(pdo) != null ==> connectRetries == old(connectRetries)
      ensures old(pdo) == null ==> connectRetries == env.retries
      ensures old(pdo) == null && env.Connected? ==>
                pdo != null && fresh(pdo) && !pdo.inTransaction && pdo.serverVersion == env.server.version &&
                pdo.probe == env.server.probe && pdo.quote == env.server.quote
      ensures old(pdo) == null && env.GaveUp? ==> pdo == null
      ensures version == old(version) && autoQuoting == old(autoQuoting)
    {
      var c := GetPdo(env);
      if c.Err? {
        return Err(c.error);
      }
      var connection := c.value;
      if !connection.inTransaction {
        return Ok(false);
      }
      var _ := Log("ROLLBACK", map[]);
      var ok := connection.RollBack();
      r := Ok(ok);
    }

    /**
     * Renders a value for a schema statement. Only a value that must be
     * quoted needs the connection (connecting if none is held); an object
     * without a string form then fails its cast.
     */
    method SchemaValue(value: Value, env: RetryRun) returns (r: Result<string>)
      requires Valid()
      modifies this
      ensures Valid()
      ensures RenderSchemaValue(value).Verbatim? ==>
                r == Ok(RenderSchemaValue(value).text) && pdo == old(pdo) && connectRetries == old(connectRetries)
      ensures RenderSchemaValue(value).Quote? && old(pdo) == null && env.GaveUp? ==>
                r == Err(MissingConnection(backend.name, env.reason))
      ensures RenderSchemaValue(value).Quote? && (old(pdo) != null || env.Connected?) ==>
                pdo != null && r == (if value.Object? then Err(StrCast(value).error) else Ok(pdo.quote(StrCast(value).value)))
      ensures old(pdo) != null ==> pdo == old(pdo)
      ensures old(pdo) != null ==> connectRetries == old(connectRetries)
      ensures RenderSchemaValue(value).Quote? && old(pdo) == null ==> connectRetries == env.retries
      ensures RenderSchemaValue(value).Quote? && old(pdo) == null && env.Connected? ==>
                pdo != null && fresh(pdo) && !pdo.inTransaction && pdo.serverVersion == env.server.version &&
                pdo.probe == env.server.probe && pdo.quote == env.server.quote
      ensures old(pdo) == null && env.GaveUp? ==> pdo == null
      ensures version == old(version) && autoQuoting == old(autoQuoting)
    {
      match RenderSchemaValue(value)
      case Verbatim(text) =>
        r := Ok(text);
      case Quote(v) =>
        var c := GetPdo(env);
        if c.Err? {
          return Err(c.error);
        }
        var connection := c.value;
        match StrCast(v)
        case Err(e) =>
          r := Err(e);
        case Ok(s) =>
          r := Ok(connection.quote(s));
    }

    /** The `SELECT 1` liveness probe: false without a connection or when the probe fails or throws. */
    function IsConnected(): (r: bool)
      reads this, pdo
      ensures r <==> pdo != null && pdo.probe == ProbeSucceeds
    {
      if pdo == null then false
      else
        match pdo.probe
        case ProbeSucceeds => true
        case ProbeReturnsFalse => false
        case ProbeThrows => false
    }

    /** Sets auto-quoting to exactly `enable`; nothing else changes. */
    method EnableAutoQuoting(enable: bool := true)
      modifies this
      ensures Valid() == old(Valid())
      ensures autoQuoting == enable
      ensures pdo == old(pdo) && version == old(version) && connectRetries == old(connectRetries)
    {
      autoQuoting := enable;
    }

    /** Turns auto-quoting off; nothing else changes. */
    method DisableAutoQuoting()
      modifies this
      ensures Valid() == old(Valid())
      ensures !autoQuoting
      ensures pdo == old(pdo) && version == old(version) && connectRetries == old(connectRetries)
    {
      autoQuoting := false;
    }

    function IsAutoQuotingEnabled(): (r: bool)
      reads this
      ensures r == autoQuoting
    {
      autoQuoting
    }

    /** The base driver supports exactly three features: disabling constraints, quoting and savepoints. */
    function Supports(feature: string): (r: bool)
      ensures r <==> feature in {backend.featureDisableConstraint, backend.featureQuote, backend.featureSavepoint}
    {
      if feature == backend.featureDisableConstraint then true
      else if feature == backend.featureQuote then true
      else feature == backend.featureSavepoint
    }

    /**
     * Prepares a statement for raw SQL or a query (connecting first if need
     * be); a result type map is attached only for a select query with
     * results casting on.
     */
    method Prepare(query: QueryOrSql, env: RetryRun, response: ExecResponse) returns (r: Result<Statement>)
      requires Valid()
      modifies this
      ensures Valid()
      ensures r.Ok? <==> old(pdo) != null || env.Connected?
      ensures r.Err? ==> r == Err(MissingConnection(backend.name, env.reason))
      ensures r.Ok? ==>
                fresh(r.value) && r.value.queryString == SqlOf(query) &&
                r.value.typeMap == StatementTypeMap(query) && r.value.response == response && r.value.boundParams == []
      ensures old(pdo) != null ==> pdo == old(pdo)
      ensures old(pdo) != null ==> connectRetries == old(connectRetries)
      ensures old(pdo) == null ==> connectRetries == env.retries
      ensures old(pdo) == null && env.Connected? ==>
                pdo != null && fresh(pdo) && !pdo.inTransaction && pdo.serverVersion == env.server.version &&
                pdo.probe == env.server.probe && pdo.quote == env.server.quote
      ensures old(pdo) == null && env.GaveUp? ==> pdo == null
      ensures version == old(version) && autoQuoting == old(autoQuoting)
    {
      var c := GetPdo(env);
      if c.Err? {
        return Err(c.error);
      }
      var statement := new Statement(SqlOf(query), StatementTypeMap(query), response);
      r := Ok(statement);
    }

    /**
     * Executes a prepared statement. With a logger, a run that ends in a PDO
     * exception is logged like a successful one (error set, no row count or
     * timing) before the exception is raised again.
     */
    method ExecuteStatement(statement: Statement, params: Option<seq<Binding>>) returns (r: Result<()>)
      modifies logger
      ensures r == ExecutionResult(statement.response)
      ensures logger != null ==>
                logger.entries == old(logger.entries) +
                  ExecutionLog(statement.queryString, statement.response,
                               if params.Some? then params.value else statement.boundParams)
    {
      if logger == null {
        return ExecutionResult(statement.response);
      }
      if statement.response.OtherFailure? {
        return Err(UncaughtError(statement.response.message));
      }
      var logParams := if params.Some? then params.value else statement.boundParams;
      var _ := Log(statement.queryString, ExecutionContext(statement.response, logParams));
      r := ExecutionResult(statement.response);
    }

    /** Prepares raw SQL, binds `params` when there are any, and executes it. */
    method Execute(sql: string, params: seq<Binding>, env: RetryRun, response: ExecResponse) returns (r: Result<Statement>)
      requires Valid()
      modifies this, logger
      ensures Valid()
      ensures old(pdo) == null && env.GaveUp? ==> r == Err(MissingConnection(backend.name, env.reason))
      ensures old(pdo) == null && env.GaveUp? && logger != null ==> logger.entries == old(logger.entries)
      ensures old(pdo) != null || env.Connected? ==>
                (r.Ok? <==> response.Rows?) &&
                (r.Err? ==> r == Err(ExecutionResult(response).error)) &&
                (logger != null ==> logger.entries == old(logger.entries) + ExecutionLog(sql, response, params))
      ensures r.Ok? ==> fresh(r.value) && r.value.queryString == sql && r.value.boundParams == params && r.value.typeMap == None
      ensures old(pdo) != null ==> pdo == old(pdo)
      ensures old(pdo) != null ==> connectRetries == old(connectRetries)
      ensures old(pdo) == null ==> connectRetries == env.retries
      ensures old(pdo) == null && env.Connected? ==>
                pdo != null && fresh(pdo) && !pdo.inTransaction && pdo.serverVersion == env.server.version &&
                pdo.probe == env.server.probe && pdo.quote == env.server.quote
      ensures old(pdo) == null && env.GaveUp? ==> pdo == null
      ensures version == old(version) && autoQuoting == old(autoQuoting)
    {
      var p := Prepare(RawSql(sql), env, response);
      if p.Err? {
        return Err(p.error);
      }
      var statement := p.value;
      if |params| > 0 {
        statement.Bind(params);
      }
      assert statement.boundParams == params;
      assert logger != null ==> logger.entries == old(logger.entries);
      var e := ExecuteStatement(statement, None);
      if e.Err? {
        return Err(e.error);
      }
      r := Ok(statement);
    }

    /** Prepares a query, binds the values its binder holds, and executes it. */
    method Run(query: Query, env: RetryRun, response: ExecResponse) returns (r: Result<Statement>)
      requires Valid()
      modifies this, logger
      ensures Valid()
      ensures old(pdo) == null && env.GaveUp? ==> r == Err(MissingConnection(backend.name, env.reason))
      ensures old(pdo) == null && env.GaveUp? && logger != null ==> logger.entries == old(logger.entries)
      ensures old(pdo) != null || env.Connected? ==>
                (r.Ok? <==> response.Rows?) &&
                (r.Err? ==> r == Err(ExecutionResult(response).error)) &&
                (logger != null ==> logger.entries == old(logger.entries) + ExecutionLog(query.sql, response, query.bindings))
      ensures r.Ok? ==>
                fresh(r.value) && r.value.queryString == query.sql && r.value.boundParams == query.bindings &&
                r.value.typeMap == StatementTypeMap(Compiled(query))
      ensures old(pdo) != null ==> pdo == old(pdo)
      ensures old(pdo) != null ==> connectRetries == old(connectRetries)
      ensures old(pdo) == null ==> connectRetries == env.retries
      ensures old(pdo) == null && env.Connected? ==>
                pdo != null && fresh(pdo) && !pdo.inTransaction && pdo.serverVersion == env.server.version &&
                pdo.probe == env.server.probe && pdo.quote == env.server.quote
      ensures old(pdo) == null && env.GaveUp? ==> pdo == null
      ensures version == old(version) && autoQuoting == old(autoQuoting)
    {
      var p := Prepare(Compiled(query), env, response);
      if p.Err? {
        return Err(p.error);
      }
      var statement := p.value;
      statement.Bind(query.bindings);
      assert statement.boundParams == query.bindings;
      assert logger != null ==> logger.entries == old(logger.entries);
      var e := ExecuteStatement(statement, None);
      if e.Err? {
        return Err(e.error);
      }
      r := Ok(statement);
    }
  }

  /**
   * Read against the feature enumeration: when the backend's three feature
   * names are the enumeration's backing strings, a feature given by its
   * backing string is supported exactly when it is one of those three.
   */
  lemma SupportsMatchesEnum(d: Driver, f: DriverFeatureEnum.DriverFeature)
    requires d.backend.featureDisableConstraint ==
             DriverFeatureEnum.BackingValue(DriverFeatureEnum.DisableConstraintWithoutTransaction)
    requires d.backend.featureQuote == DriverFeatureEnum.BackingValue(DriverFeatureEnum.PdoQuote)
    requires d.backend.featureSavepoint == DriverFeatureEnum.BackingValue(DriverFeatureEnum.Savepoint)
    ensures d.Supports(DriverFeatureEnum.BackingValue(f)) <==>
            f == DriverFeatureEnum.DisableConstraintWithoutTransaction ||
            f == DriverFeatureEnum.PdoQuote || f == DriverFeatureEnum.Savepoint
  {
    DriverFeatureEnum.BackingValueInjective(f, DriverFeatureEnum.DisableConstraintWithoutTransaction);
    DriverFeatureEnum.BackingValueInjective(f, DriverFeatureEnum.PdoQuote);
    DriverFeatureEnum.BackingValueInjective(f, DriverFeatureEnum.Savepoint);
  }
}
