/** The tool server: its start-up checks of the environment, the `**Error**` / `**Success**`
    answer texts, and the decision flow of the `query_table`, `insert_record` and
    `update_record` tools, with the database behind a `SupabaseManager` and an oracle. */
module McpServer {
  import opened Values
  import opened Text
  import opened Database

  // ---------------------------------------------------------------- environment and configuration

  /** The process environment: the variables that are set, with their values. */
  type Env = map<string, string>

  /** `os.getenv(name)` is truthy: set and non-empty. */
  predicate IsSet(env: Env, name: string) {
    name in env && env[name] != ""
  }

  /** `os.getenv(name, default)`: a variable that is set, even to "", wins over the default. */
  function EnvOr(env: Env, name: string, default: string): string {
    if name in env then env[name] else default
  }

  const RequiredVars: seq<string> := ["SUPABASE_URL", "SUPABASE_ANON_KEY"]

  const MissingVarsError := "Missing required environment variables: "

  /** The names of `names` that are not set, in order. */
  function MissingVars(env: Env, names: seq<string>): (r: seq<string>)
    ensures forall i | 0 <= i < |r| :: r[i] in names && !IsSet(env, r[i])
    ensures forall i | 0 <= i < |names| :: !IsSet(env, names[i]) ==> names[i] in r
  {
    if |names| == 0 then []
    else (if IsSet(env, names[0]) then [] else [names[0]]) + MissingVars(env, names[1..])
  }

  /** `validate_environment`: None when it passes, otherwise the message of its ValueError. */
  function ValidateEnvironment(env: Env): Option<string> {
    var missing := MissingVars(env, RequiredVars);
    if |missing| > 0 then Some(MissingVarsError + ListRepr(missing)) else None
  }

  /** The environment check fails exactly when the URL or the key is unset or empty, and the
      message lists the missing names in the order URL, key. */
  lemma EnvironmentVerdict(env: Env)
    ensures ValidateEnvironment(env).None? <==> IsSet(env, "SUPABASE_URL") && IsSet(env, "SUPABASE_ANON_KEY")
    ensures !IsSet(env, "SUPABASE_URL") && !IsSet(env, "SUPABASE_ANON_KEY") ==>
      ValidateEnvironment(env) == Some(MissingVarsError + "['SUPABASE_URL', 'SUPABASE_ANON_KEY']")
    ensures !IsSet(env, "SUPABASE_URL") && IsSet(env, "SUPABASE_ANON_KEY") ==>
      ValidateEnvironment(env) == Some(MissingVarsError + "['SUPABASE_URL']")
    ensures IsSet(env, "SUPABASE_URL") && !IsSet(env, "SUPABASE_ANON_KEY") ==>
      ValidateEnvironment(env) == Some(MissingVarsError + "['SUPABASE_ANON_KEY']")
  {
    var url, key := "SUPABASE_URL", "SUPABASE_ANON_KEY";
    assert RequiredVars[1..] == [key] && [key][1..] == [];
    var forKey := if IsSet(env, key) then [] else [key];
    assert MissingVars(env, [key]) == forKey + MissingVars(env, []);
    assert MissingVars(env, RequiredVars) == (if IsSet(env, url) then [] else [url]) + forKey;
    if !IsSet(env, url) && !IsSet(env, key) {
      assert MissingVars(env, RequiredVars) == [url, key];
    }
    UrlRendered();
    KeyRendered();
    BothRendered();
  }

  lemma UrlQuoted()
    ensures StrRepr("SUPABASE_URL") == Quote("SUPABASE_URL")
  {
    PlainRepr("SUPABASE_URL");
  }

  lemma KeyQuoted()
    ensures StrRepr("SUPABASE_ANON_KEY") == Quote("SUPABASE_ANON_KEY")
  {
    PlainRepr("SUPABASE_ANON_KEY");
  }

  lemma UrlRendered()
    ensures ListRepr(["SUPABASE_URL"]) == "['SUPABASE_URL']"
  {
    SingleListRepr("SUPABASE_URL");
    UrlQuoted();
  }

  lemma KeyRendered()
    ensures ListRepr(["SUPABASE_ANON_KEY"]) == "['SUPABASE_ANON_KEY']"
  {
    SingleListRepr("SUPABASE_ANON_KEY");
    KeyQuoted();
  }

  lemma BothRendered()
    ensures ListRepr(["SUPABASE_URL", "SUPABASE_ANON_KEY"]) == "['SUPABASE_URL', 'SUPABASE_ANON_KEY']"
  {
    PairListRepr("SUPABASE_URL", "SUPABASE_ANON_KEY");
    UrlQuoted();
    KeyQuoted();
    BothQuoted();
  }

  lemma BothQuoted()
    ensures "[" + Quote("SUPABASE_URL") + ", " + Quote("SUPABASE_ANON_KEY") + "]" == "['SUPABASE_URL', 'SUPABASE_ANON_KEY']"
  {
  }

  /** The dictionary `get_config` returns. */
  datatype Config = Config(logLevel: string, serverName: string, maxQueryLimit: int, debug: bool)

  /** `get_config`: None when `int(...)` of the query limit raises. */
  function GetConfig(env: Env): (r: Option<Config>)
    ensures r.None? <==> ParseInt(EnvOr(env, "MCP_MAX_QUERY_LIMIT", "1000")).None?
  {
    match ParseInt(EnvOr(env, "MCP_MAX_QUERY_LIMIT", "1000"))
    case None => None
    case Some(n) =>
      Some(Config(
        EnvOr(env, "LOG_LEVEL", "INFO"),
        EnvOr(env, "MCP_SERVER_NAME", "supabase-mcp"),
        n,
        DebugValue(EnvOr(env, "DEBUG", "false"))))
  }

  lemma DefaultLimitParses()
    ensures ParseInt("1000") == Some(1000)
  {
    assert NatToDecimal(1000) == "1000" by {
      assert NatToDecimal(1) == "1";
      assert NatToDecimal(10) == "10";
      assert NatToDecimal(100) == "100";
    }
    DecimalRoundTrip(1000);
  }

  /** With none of the four variables set, the configuration is INFO, supabase-mcp, 1000, no debug. */
  lemma GetConfigDefaults(env: Env)
    requires "LOG_LEVEL" !in env && "MCP_SERVER_NAME" !in env && "MCP_MAX_QUERY_LIMIT" !in env && "DEBUG" !in env
    ensures GetConfig(env) == Some(Config("INFO", "supabase-mcp", 1000, false))
  {
    DefaultLimitParses();
    DebugValueSamples();
  }

  /** Whatever integer the limit variable spells, in `str` form, is the configured limit. */
  lemma ConfigLimitRoundTrip(env: Env, n: int)
    requires "MCP_MAX_QUERY_LIMIT" in env && env["MCP_MAX_QUERY_LIMIT"] == IntToDecimal(n)
    ensures GetConfig(env).Some? && GetConfig(env).value.maxQueryLimit == n
  {
    DecimalRoundTrip(n);
  }

  /** `value.lower() == "true"` */
  predicate DebugValue(value: string) {
    Lower(value) == "true"
  }

  /** Debug is on for any capitalisation of "true" and off for anything else, "1" and a padded
      " true" included. */
  lemma DebugValueSamples()
    ensures DebugValue("true") && DebugValue("TRUE") && DebugValue("True")
    ensures !DebugValue("false") && !DebugValue("1") && !DebugValue(" true") && !DebugValue("yes")
  {
    assert Lower("TRUE") == "true" && Lower("True") == "true" && Lower("true") == "true";
    assert Lower("false")[0] == 'f';
    assert |Lower("1")| == 1 && |Lower(" true")| == 5 && |Lower("yes")| == 3;
  }

  // ---------------------------------------------------------------- answer texts

  const ErrorHeading := "**Error**\n\n"
  const SuccessHeading := "**Success**\n\n"
  const DetailsOpen := "\n\n**Details:**\n```json\n"
  const DataOpen := "\n\n**Data:**\n```json\n"
  const FenceClose := "\n```"

  /** `create_error_response(message, details)`, with `dumps` for `json.dumps(indent=2, default=str)`;
      a missing details dictionary is the empty one. */
  function ErrorResponse(message: string, details: Entries, dumps: Value -> string): string {
    ErrorHeading + message + (if |details| > 0 then DetailsOpen + dumps(Obj(details)) + FenceClose else "")
  }

  /** `create_success_response(message, data)`: `None` is the absent data. */
  function SuccessResponse(message: string, data: Option<Value>, dumps: Value -> string): string {
    SuccessHeading + message + (if data.Some? then DataOpen + dumps(data.value) + FenceClose else "")
  }

  /** How a reader takes the JSON out of a fenced block that opens with `open`. */
  function FencedPayload(block: string, open: string): Option<string> {
    if |block| >= |open| + |FenceClose| && block[..|open|] == open && block[|block| - |FenceClose|..] == FenceClose
    then Some(block[|open|..|block| - |FenceClose|])
    else None
  }

  lemma FencedPayloadRoundTrip(open: string, payload: string)
    ensures FencedPayload(open + payload + FenceClose, open) == Some(payload)
  {
    var b := open + payload + FenceClose;
    assert b[..|open|] == open;
    assert b[|b| - |FenceClose|..] == FenceClose;
    assert b[|open|..|b| - |FenceClose|] == payload;
  }

  /** An error text is the heading, then the message, then a details block exactly when the details
      are non-empty; the block gives back the serialised details. */
  lemma ErrorResponseReadBack(message: string, details: Entries, dumps: Value -> string)
    ensures var r := ErrorResponse(message, details, dumps);
      && StartsWith(r, ErrorHeading)
      && r[|ErrorHeading|..|ErrorHeading| + |message|] == message
      && var rest := r[|ErrorHeading| + |message|..];
         && (rest == "" <==> |details| == 0)
         && (|details| > 0 ==> FencedPayload(rest, DetailsOpen) == Some(dumps(Obj(details))))
  {
    var tail := if |details| > 0 then DetailsOpen + dumps(Obj(details)) + FenceClose else "";
    var r := ErrorResponse(message, details, dumps);
    assert r == ErrorHeading + message + tail;
    assert r[..|ErrorHeading|] == ErrorHeading;
    assert r[|ErrorHeading|..|ErrorHeading| + |message|] == message;
    assert r[|ErrorHeading| + |message|..] == tail;
    if |details| > 0 {
      FencedPayloadRoundTrip(DetailsOpen, dumps(Obj(details)));
    }
  }

  /** A success text is the heading, then the message, then a data block exactly when data is
      given, an empty dictionary or list included; the block gives back the serialised data. */
  lemma SuccessResponseReadBack(message: string, data: Option<Value>, dumps: Value -> string)
    ensures var r := SuccessResponse(message, data, dumps);
      && StartsWith(r, SuccessHeading)
      && r[|SuccessHeading|..|SuccessHeading| + |message|] == message
      && var rest := r[|SuccessHeading| + |message|..];
         && (rest == "" <==> data.None?)
         && (data.Some? ==> FencedPayload(rest, DataOpen) == Some(dumps(data.value)))
  {
    var tail := if data.Some? then DataOpen + dumps(data.value) + FenceClose else "";
    var r := SuccessResponse(message, data, dumps);
    assert r == SuccessHeading + message + tail;
    assert r[..|SuccessHeading|] == SuccessHeading;
    assert r[|SuccessHeading|..|SuccessHeading| + |message|] == message;
    assert r[|SuccessHeading| + |message|..] == tail;
    if data.Some? {
      FencedPayloadRoundTrip(DataOpen, dumps(data.value));
    }
  }

  /** An error text is never taken for a success text, nor the other way round. */
  lemma ErrorAndSuccessDistinct(m1: string, details: Entries, m2: string, data: Option<Value>, dumps: Value -> string)
    ensures !StartsWith(ErrorResponse(m1, details, dumps), SuccessHeading)
    ensures !StartsWith(SuccessResponse(m2, data, dumps), ErrorHeading)
    ensures ErrorResponse(m1, details, dumps) != SuccessResponse(m2, data, dumps)
  {
    var e := ErrorResponse(m1, details, dumps);
    var s := SuccessResponse(m2, data, dumps);
    assert e[2] == 'E' && s[2] == 'S';
    if |e| >= |SuccessHeading| {
      assert e[..|SuccessHeading|][2] == e[2];
    }
    assert s[..|ErrorHeading|][2] == s[2];
  }

  // ---------------------------------------------------------------- what a tool answers

  /** A tool's answer before it is turned into text. */
  datatype Response =
    | ErrorAnswer(message: string, details: Entries)
    | SuccessAnswer(message: string, data: Option<Value>)
    | InvalidInput(errors: seq<FieldError>)                      // a request model refused its fields
    | NoDataFound(table: string, limit: int, filters: Entries)   // the query tool's own text

  /** The parts of the text that library code produces: json.dumps, and pydantic's description of
      one field error. */
  datatype Rendering = Rendering(dumps: Value -> string, fieldError: FieldError -> string)

  function RenderResponse(r: Response, render: Rendering): string {
    match r
    case ErrorAnswer(m, d) => ErrorResponse(m, d, render.dumps)
    case SuccessAnswer(m, data) => SuccessResponse(m, data, render.dumps)
    case InvalidInput(errors) =>
      ErrorResponse("Input validation failed",
        [("validation_errors", Arr(seq(|errors|, i requires 0 <= i < |errors| => Str(render.fieldError(errors[i])))))],
        render.dumps)
    case NoDataFound(table, limit, filters) =>
      "**No data found**\n\nTable '" + table + "' exists but no records match the given criteria.\n\n**Query Details:**\n- Limit: "
        + IntToDecimal(limit) + "\n- Filters: " + render.dumps(Obj(filters))
  }

  /** What a tool did: its answer, the manager's client afterwards, and the queries it sent. */
  datatype ToolRun = ToolRun(response: Response, client: Option<ClientHandle>, sent: seq<seq<Call>>)

  /** `"error": str(e)` */
  function ErrorOnly(message: string): Entries {
    [("error", Str(message))]
  }

  /** `"error": str(e), "table": table_name` */
  function ErrorInTable(message: string, table: string): Entries {
    [("error", Str(message)), ("table", Str(table))]
  }

  // ---------------------------------------------------------------- query_table

  /** `min(request.limit or 100, max_query_limit)` */
  function QueryLimit(limit: Option<int>, maxQueryLimit: int): int {
    Min(if limit.Some? && limit.value != 0 then limit.value else DefaultSelectLimit, maxQueryLimit)
  }

  /** How far `query_table` gets before it calls the database. */
  datatype QueryStep =
    | QueryInputRefused(errors: seq<FieldError>)
    | QueryFiltersRefused(error: string)
    | QueryProceeds(request: TableQueryRequest, limit: int)

  function QueryDecision(tableName: string, limit: Option<int>, filters: Entries, maxQueryLimit: int): QueryStep {
    match NewTableQueryRequest(tableName, limit, filters)
    case Rejected(errors) => QueryInputRefused(errors)
    case Accepted(request) =>
      match FiltersVerdict(request.filters)
      case Invalid(e) => QueryFiltersRefused(e)
      case Valid => QueryProceeds(request, QueryLimit(request.limit, maxQueryLimit))
  }

  function SelectArgs(request: TableQueryRequest, limit: int): QueryArgs {
    QueryArgs("*", request.filters, LimitOf(limit), None, [], [])
  }

  /** The answer of `query_table` to what `execute_query` gave. */
  function QueryAnswer(tableName: string, request: TableQueryRequest, limit: int, result: Outcome<seq<Value>>): Response {
    match result
    case Raised(ValueError(m)) => ErrorAnswer("Query validation failed", ErrorOnly(m))
    case Raised(RuntimeError(m)) => ErrorAnswer("Database query failed", ErrorInTable(m, tableName))
    case Ok(rows) =>
      if |rows| == 0 then NoDataFound(request.tableName, limit, request.filters)
      else SuccessAnswer(
        "Found " + IntToDecimal(|rows|) + " record(s) in table '" + request.tableName + "'"
          + (if |request.filters| > 0 then " (filtered)" else ""),
        Some(Obj([
          ("table", Str(request.tableName)),
          ("record_count", Int(|rows|)),
          ("limit_applied", Int(limit)),
          ("filters_applied", Obj(request.filters)),
          ("records", Arr(rows))])))
  }

  /** The answer of `query_table` when a check stops it. */
  function QueryStepAnswer(step: QueryStep): (r: Response)
    requires !step.QueryProceeds?
    ensures r.ErrorAnswer? || r.InvalidInput?
  {
    match step
    case QueryInputRefused(errors) => InvalidInput(errors)
    case QueryFiltersRefused(e) => ErrorAnswer("Filter validation failed", ErrorOnly(e))
  }

  /** What `query_table` does once its checks have come to `step`. */
  function QueryStepRun(client: Option<ClientHandle>, tableName: string, step: QueryStep, backend: Backend): ToolRun {
    if step.QueryProceeds? then
      var run := RunQuery(client, step.request.tableName, "select", SelectArgs(step.request, step.limit), backend);
      ToolRun(QueryAnswer(tableName, step.request, step.limit, run.result), run.client, run.sent)
    else ToolRun(QueryStepAnswer(step), client, [])
  }

  /** `query_table(table_name, limit, filters)` against a manager whose client was `client`. */
  function QueryTableRun(client: Option<ClientHandle>, tableName: string, limit: Option<int>, filters: Entries,
                         maxQueryLimit: int, backend: Backend): ToolRun {
    QueryStepRun(client, tableName, QueryDecision(tableName, limit, filters, maxQueryLimit), backend)
  }

  /** The limit passed on lies in 1..max for any limit the request model lets through, is the
      caller's limit capped at max, or 100 capped at max when none is given. */
  lemma QueryLimitBounds(limit: Option<int>, maxQueryLimit: int)
    requires maxQueryLimit >= 1
    requires limit.Some? ==> 1 <= limit.value <= MaxModelLimit
    ensures 1 <= QueryLimit(limit, maxQueryLimit) <= maxQueryLimit
    ensures QueryLimit(limit, maxQueryLimit) <= MaxModelLimit
    ensures limit.Some? ==> QueryLimit(limit, maxQueryLimit) == Min(limit.value, maxQueryLimit)
    ensures limit.None? ==> QueryLimit(limit, maxQueryLimit) == Min(DefaultSelectLimit, maxQueryLimit)
  {
  }

  /** A query stopped by a check is answered with an error, sends nothing and keeps the client. */
  lemma QueryStepStopped(client: Option<ClientHandle>, tableName: string, step: QueryStep, backend: Backend)
    ensures var run := QueryStepRun(client, tableName, step, backend);
      !step.QueryProceeds? ==> run.sent == [] && run.client == client && !run.response.SuccessAnswer?
  {
  }

  /** Refused input and refused filters are answered before the database is involved: the
      client is not created and nothing is sent. The model check comes first. */
  lemma QueryTableChecksFirst(client: Option<ClientHandle>, tableName: string, limit: Option<int>, filters: Entries,
                              maxQueryLimit: int, backend: Backend)
    ensures var run := QueryTableRun(client, tableName, limit, filters, maxQueryLimit, backend);
      && (!MatchesIdentifierPattern(tableName) || (limit.Some? && !(1 <= limit.value <= MaxModelLimit)) ==>
            run == ToolRun(InvalidInput(NewTableQueryRequest(tableName, limit, filters).errors), client, []))
      && (NewTableQueryRequest(tableName, limit, filters).Accepted? && FiltersVerdict(filters).Invalid? ==>
            run == ToolRun(ErrorAnswer("Filter validation failed", ErrorOnly(FiltersVerdict(filters).error)), client, []))
      && (run.sent != [] ==> NewTableQueryRequest(tableName, limit, filters).Accepted? && FiltersVerdict(filters) == Valid)
  {
    var step := QueryDecision(tableName, limit, filters, maxQueryLimit);
    QueryStepStopped(client, tableName, step, backend);
    if NewTableQueryRequest(tableName, limit, filters).Rejected? {
      assert step == QueryInputRefused(NewTableQueryRequest(tableName, limit, filters).errors);
    } else if FiltersVerdict(filters).Invalid? {
      assert step == QueryFiltersRefused(FiltersVerdict(filters).error);
    }
  }

  /** A query that passes the checks proceeds with the stripped name, the caller's limit and
      filters, and the computed limit. */
  lemma QueryDecisionProceeds(tableName: string, limit: Option<int>, filters: Entries, maxQueryLimit: int)
    requires QueryDecision(tableName, limit, filters, maxQueryLimit).QueryProceeds?
    ensures NewTableQueryRequest(tableName, limit, filters).Accepted? && FiltersVerdict(filters) == Valid
    ensures QueryDecision(tableName, limit, filters, maxQueryLimit)
         == QueryProceeds(TableQueryRequest(Strip(tableName), limit, filters), QueryLimit(limit, maxQueryLimit))
  {
    var checked := NewTableQueryRequest(tableName, limit, filters);
    assert checked.Accepted? && checked.value == TableQueryRequest(Strip(tableName), limit, filters);
  }

  /** The plan of the select `query_table` asks for: every column, one equality per filter, and a
      limit only when the computed one is positive. */
  lemma SelectArgsPlan(request: TableQueryRequest, ql: int)
    requires FiltersVerdict(request.filters) == Valid
    ensures Plan(request.tableName, "select", SelectArgs(request, ql))
         == Ok([From(request.tableName), Select("*")] + EqCalls(request.filters) + (if ql > 0 then [Limit(Min(ql, MaxSelectLimit))] else []))
  {
    var args := SelectArgs(request, ql);
    assert FilterFailure(args.filters).None?;
    var head := [From(request.tableName), Select("*")] + EqCalls(request.filters);
    var limits := if ql > 0 then [Limit(Min(ql, MaxSelectLimit))] else [];
    assert LimitCalls(args.limit) == limits;
    assert SelectPlan(request.tableName, args) == Ok(head + limits + []);
    assert head + limits + [] == head + limits;
  }

  /** A proceeding query sends at most the planned select. */
  lemma QueryStepSends(client: Option<ClientHandle>, tableName: string, request: TableQueryRequest, ql: int, backend: Backend)
    requires FiltersVerdict(request.filters) == Valid
    ensures var run := QueryStepRun(client, tableName, QueryProceeds(request, ql), backend);
      run.sent != [] ==> run.sent == [Plan(request.tableName, "select", SelectArgs(request, ql)).value]
  {
    RunQueryOutcomes(client, request.tableName, "select", SelectArgs(request, ql), backend);
  }

  /** With a positive computed limit, a proceeding query sends one `limit` of at most 1000. */
  lemma QueryStepLimited(client: Option<ClientHandle>, tableName: string, request: TableQueryRequest, ql: int, backend: Backend)
    requires FiltersVerdict(request.filters) == Valid && 1 <= ql <= MaxSelectLimit
    ensures var run := QueryStepRun(client, tableName, QueryProceeds(request, ql), backend);
      run.sent != [] ==> run.sent == [[From(request.tableName), Select("*")] + EqCalls(request.filters) + [Limit(ql)]]
  {
    QueryStepSends(client, tableName, request, ql, backend);
    SelectArgsPlan(request, ql);
  }

  /** With a computed limit below 1, a proceeding query sends no `limit` at all. */
  lemma QueryStepUnlimited(client: Option<ClientHandle>, tableName: string, request: TableQueryRequest, ql: int, backend: Backend)
    requires FiltersVerdict(request.filters) == Valid && ql <= 0
    ensures var run := QueryStepRun(client, tableName, QueryProceeds(request, ql), backend);
      run.sent != [] ==> run.sent == [[From(request.tableName), Select("*")] + EqCalls(request.filters)]
  {
    QueryStepSends(client, tableName, request, ql, backend);
    SelectArgsPlan(request, ql);
    var head := [From(request.tableName), Select("*")] + EqCalls(request.filters);
    assert head + [] == head;
  }

  /** When `query_table` reaches the database, it runs the select of the accepted request. */
  lemma QueryTableProceeds(client: Option<ClientHandle>, tableName: string, limit: Option<int>, filters: Entries,
                           maxQueryLimit: int, backend: Backend)
    requires QueryTableRun(client, tableName, limit, filters, maxQueryLimit, backend).sent != []
    ensures NewTableQueryRequest(tableName, limit, filters).Accepted? && FiltersVerdict(filters) == Valid
    ensures QueryDecision(tableName, limit, filters, maxQueryLimit)
         == QueryProceeds(TableQueryRequest(Strip(tableName), limit, filters), QueryLimit(limit, maxQueryLimit))
    ensures var request := TableQueryRequest(Strip(tableName), limit, filters);
      QueryTableRun(client, tableName, limit, filters, maxQueryLimit, backend).sent
        == [Plan(request.tableName, "select", SelectArgs(request, QueryLimit(limit, maxQueryLimit))).value]
  {
    var step := QueryDecision(tableName, limit, filters, maxQueryLimit);
    QueryStepStopped(client, tableName, step, backend);
    QueryDecisionProceeds(tableName, limit, filters, maxQueryLimit);
    QueryStepSends(client, tableName, step.request, step.limit, backend);
  }

  /** What `query_table` sends is one select of every column of the stripped table name, one
      equality per filter, and one limit within 1..max. */
  lemma QueryTableSendsBoundedSelect(client: Option<ClientHandle>, tableName: string, limit: Option<int>, filters: Entries,
                                     maxQueryLimit: int, backend: Backend)
    requires maxQueryLimit >= 1
    ensures var run := QueryTableRun(client, tableName, limit, filters, maxQueryLimit, backend);
      run.sent != [] ==>
        run.sent == [[From(Strip(tableName)), Select("*")] + EqCalls(filters) + [Limit(QueryLimit(limit, maxQueryLimit))]]
        && 1 <= QueryLimit(limit, maxQueryLimit) <= maxQueryLimit
  {
    var step := QueryDecision(tableName, limit, filters, maxQueryLimit);
    QueryStepStopped(client, tableName, step, backend);
    if step.QueryProceeds? {
      QueryDecisionProceeds(tableName, limit, filters, maxQueryLimit);
      QueryLimitBounds(limit, maxQueryLimit);
      QueryStepLimited(client, tableName, step.request, step.limit, backend);
    }
  }

  /** A configured maximum below 1 makes `query_table` send a select without any limit. */
  lemma NonPositiveMaximumDropsLimit(client: Option<ClientHandle>, tableName: string, limit: Option<int>, filters: Entries,
                                     maxQueryLimit: int, backend: Backend)
    requires maxQueryLimit < 1
    ensures var run := QueryTableRun(client, tableName, limit, filters, maxQueryLimit, backend);
      run.sent != [] ==> run.sent == [[From(Strip(tableName)), Select("*")] + EqCalls(filters)]
  {
    var step := QueryDecision(tableName, limit, filters, maxQueryLimit);
    QueryStepStopped(client, tableName, step, backend);
    if step.QueryProceeds? {
      QueryDecisionProceeds(tableName, limit, filters, maxQueryLimit);
      QueryStepUnlimited(client, tableName, step.request, step.limit, backend);
    }
  }

  // ---------------------------------------------------------------- checks shared by the write tools

  /** The longest string value the write tools let through. */
  const MaxValueLength := 10000

  /** The first entry whose value is a string longer than 10000 characters, with its length. */
  function FirstOversized(data: Entries): (r: Option<(string, int)>)
    ensures r.Some? ==> r.value.1 > MaxValueLength
    ensures r.None? <==> forall i | 0 <= i < |data| :: data[i].1.Str? ==> |data[i].1.s| <= MaxValueLength
  {
    if |data| == 0 then None
    else if data[0].1.Str? && |data[0].1.s| > MaxValueLength then Some((data[0].0, |data[0].1.s|))
    else
      assert forall i | 1 <= i < |data| :: data[i] == data[1..][i - 1];
      FirstOversized(data[1..])
  }

  /** Values that pass the filter validator are at most 1000 characters long, so never oversized. */
  lemma {:induction false} ValidatedNeverOversized(data: Entries)
    requires FiltersVerdict(data) == Valid
    ensures FirstOversized(data) == None
  {
    forall i | 0 <= i < |data| ensures data[i].1.Str? ==> |data[i].1.s| <= MaxValueLength {
      ValidFiltersAreSafe(data, i);
    }
  }

  /** The loop over the values that looks for an oversized string. */
  method FindOversized(data: Entries) returns (r: Option<(string, int)>)
    ensures r == FirstOversized(data)
  {
    var i := 0;
    while i < |data|
      invariant 0 <= i <= |data|
      invariant FirstOversized(data[i..]) == FirstOversized(data)
    {
      assert data[i..][0] == data[i] && data[i..][1..] == data[i + 1..];
      var (key, value) := data[i];
      if value.Str? && |value.s| > MaxValueLength {
        return Some((key, |value.s|));
      }
      i := i + 1;
    }
    return None;
  }

  /** `{"max_length": 10000, "actual_length": n}` */
  function TooLargeDetails(length: int): Entries {
    [("max_length", Int(MaxValueLength)), ("actual_length", Int(length))]
  }

  // ---------------------------------------------------------------- insert_record

  datatype InsertStep =
    | InsertInputRefused(errors: seq<FieldError>)
    | InsertNoData
    | InsertColumnsRefused(error: string)
    | InsertValueTooLarge(column: string, length: int)
    | InsertProceeds(request: RecordInsertRequest)

  /** The checks of `insert_record`, in the order they run. */
  function InsertDecision(tableName: string, data: Entries): InsertStep {
    match NewRecordInsertRequest(tableName, data)
    case Rejected(errors) => InsertInputRefused(errors)
    case Accepted(request) =>
      if |request.data| == 0 then InsertNoData
      else match FiltersVerdict(request.data)
        case Invalid(e) => InsertColumnsRefused(e)
        case Valid =>
          match FirstOversized(request.data)
          case Some((column, length)) => InsertValueTooLarge(column, length)
          case None => InsertProceeds(request)
  }

  /** The "no data" and "value too large" branches are never taken: the request model refuses
      empty data, and the column check refuses every string over 1000 characters first. */
  lemma InsertDeadBranches(tableName: string, data: Entries)
    ensures !InsertDecision(tableName, data).InsertNoData?
    ensures !InsertDecision(tableName, data).InsertValueTooLarge?
    ensures InsertDecision(tableName, data).InsertProceeds? <==>
      MatchesIdentifierPattern(tableName) && |data| > 0 && FiltersVerdict(data) == Valid
  {
    if NewRecordInsertRequest(tableName, data).Accepted? && FiltersVerdict(data) == Valid {
      ValidatedNeverOversized(data);
    }
  }

  /** What PostgreSQL reported, as `insert_record` sorts it. */
  datatype InsertFailure = DuplicateKey | ForeignKeyViolation | MissingRequired | OtherInsertFailure

  /** The classification `insert_record` performs: on the lower-cased message, "duplicate" or
      "unique", then "foreign key", then "not null". */
  function ClassifyInsertFailureAsWritten(message: string): InsertFailure {
    var m := Lower(message);
    if Contains(m, "duplicate") || Contains(m, "unique") then DuplicateKey
    else if Contains(m, "foreign key") then ForeignKeyViolation
    else if Contains(m, "not null") then MissingRequired
    else OtherInsertFailure
  }

  /** The corrected classification: as written, but a missing required field is also recognised by
      PostgreSQL's own wording, "not-null constraint". The tool below keeps the written one. */
  function ClassifyInsertFailure(message: string): InsertFailure {
    var m := Lower(message);
    if Contains(m, "duplicate") || Contains(m, "unique") then DuplicateKey
    else if Contains(m, "foreign key") then ForeignKeyViolation
    else if Contains(m, "not null") || Contains(m, "not-null") then MissingRequired
    else OtherInsertFailure
  }

  /** PostgreSQL's not-null violation, "null value in column "name" violates not-null constraint",
      written in the pieces that the proofs below cut it at. */
  const NotNullViolation := "null value in column " + "\"" + "name" + "\"" + NotNullViolationTail
  const NotNullViolationTail := " violates not" + "-" + "null constraint"

  /** The pieces of PostgreSQL's not-null message between its quotes and its hyphen. */
  lemma NotNullViolationLacks(w: string)
    requires forall k | 0 <= k < |w| :: w[k] != '"' && w[k] != '-'
    requires !Contains("null value in column ", w) && !Contains("name", w)
    requires !Contains(" violates not", w) && !Contains("null constraint", w)
    ensures !Contains(NotNullViolation, w)
  {
    SeparatorSplit("null value in column ", '"', "name", w);
    SeparatorSplit(" violates not", '-', "null constraint", w);
    SeparatorSplit("null value in column " + "\"" + "name", '"', NotNullViolationTail, w);
  }

  /** The message is already in lower case. */
  lemma NotNullViolationLowercase()
    ensures Lower(NotNullViolation) == NotNullViolation
  {
    var a, b, c, d := "null value in column ", "name", " violates not", "null constraint";
    LowerOfLowercase(a);
    LowerOfLowercase("\"");
    LowerOfLowercase(b);
    LowerOfLowercase(c);
    LowerOfLowercase("-");
    LowerOfLowercase(d);
    LowerJoin(a, "\"");
    LowerJoin(a + "\"", b);
    LowerJoin(a + "\"" + b, "\"");
    LowerJoin(c, "-");
    LowerJoin(c + "-", d);
    LowerJoin(a + "\"" + b + "\"", NotNullViolationTail);
  }

  /** The message says "not-null". */
  lemma NotNullViolationSaysNotNull()
    ensures Contains(NotNullViolation, "not-null")
  {
    assert OccursAt(NotNullViolationTail, 10, "not-null");
    ContainedInSuffix("null value in column " + "\"" + "name" + "\"", NotNullViolationTail, "not-null");
  }

  lemma NotNullViolationLacksDuplicate()
    ensures !Contains(NotNullViolation, "duplicate")
  {
    MissingCharNotContained("null value in column ", "duplicate", 0);
    MissingCharNotContained("name", "duplicate", 0);
    MissingCharNotContained(" violates not", "duplicate", 0);
    MissingCharNotContained("null constraint", "duplicate", 0);
    NotNullViolationLacks("duplicate");
  }

  lemma NotNullViolationLacksUnique()
    ensures !Contains(NotNullViolation, "unique")
  {
    MissingCharNotContained("null value in column ", "unique", 3);
    MissingCharNotContained("name", "unique", 3);
    MissingCharNotContained(" violates not", "unique", 3);
    MissingCharNotContained("null constraint", "unique", 3);
    NotNullViolationLacks("unique");
  }

  lemma NotNullViolationLacksForeignKey()
    ensures !Contains(NotNullViolation, "foreign key")
  {
    MissingCharNotContained("null value in column ", "foreign key", 8);
    MissingCharNotContained("name", "foreign key", 8);
    MissingCharNotContained(" violates not", "foreign key", 8);
    MissingCharNotContained("null constraint", "foreign key", 8);
    NotNullViolationLacks("foreign key");
  }

  lemma NotNullViolationLacksNotNull()
    ensures !Contains(NotNullViolation, "not null")
  {
    var t := "not null";
    MissingCharNotContained("null value in column ", t, 2);
    MissingCharNotContained("name", t, 1);
    MissingCharNotContained(" violates not", t, 5);
    MissingCharNotContained("null ", t, 1);
    MissingCharNotContained("onstraint", t, 6);
    SeparatorSplit("null ", 'c', "onstraint", t);
    assert "null " + "c" + "onstraint" == "null constraint";
    NotNullViolationLacks(t);
  }

  /** PostgreSQL's message names none of the words the written classification looks for. */
  lemma NotNullViolationWords()
    ensures Lower(NotNullViolation) == NotNullViolation
    ensures !Contains(NotNullViolation, "duplicate") && !Contains(NotNullViolation, "unique")
    ensures !Contains(NotNullViolation, "foreign key") && !Contains(NotNullViolation, "not null")
  {
    NotNullViolationLowercase();
    NotNullViolationLacksDuplicate();
    NotNullViolationLacksUnique();
    NotNullViolationLacksForeignKey();
    NotNullViolationLacksNotNull();
  }

  /** As written, the not-null violation falls through to the generic answer. */
  lemma NotNullViolationMissed()
    ensures ClassifyInsertFailureAsWritten(NotNullViolation) == OtherInsertFailure
  {
    NotNullViolationWords();
  }

  /** The corrected classification recognises it, and agrees with the written one on every message
      that does not say "not-null". */
  lemma NotNullViolationRecognised(message: string)
    ensures ClassifyInsertFailure(NotNullViolation) == MissingRequired
    ensures !Contains(Lower(message), "not-null") ==> ClassifyInsertFailure(message) == ClassifyInsertFailureAsWritten(message)
  {
    NotNullViolationWords();
    NotNullViolationSaysNotNull();
  }

  /** Classification ignores the case of the message, a message that names a duplicate wins over
      every other reading, and the generic answer is left exactly when no keyword occurs. */
  lemma InsertClassificationOrder(message: string)
    ensures ClassifyInsertFailureAsWritten(message) == ClassifyInsertFailureAsWritten(Lower(message))
    ensures Contains(Lower(message), "unique") ==> ClassifyInsertFailureAsWritten(message) == DuplicateKey
    ensures ClassifyInsertFailureAsWritten(message) == ForeignKeyViolation ==>
      Contains(Lower(message), "foreign key") && !Contains(Lower(message), "duplicate") && !Contains(Lower(message), "unique")
    ensures ClassifyInsertFailureAsWritten(message) == OtherInsertFailure <==>
      !Contains(Lower(message), "duplicate") && !Contains(Lower(message), "unique") && !Contains(Lower(message), "foreign key")
      && !Contains(Lower(message), "not null")
    ensures ClassifyInsertFailure(message) == ClassifyInsertFailure(Lower(message))
  {
    LowerIdempotent(message);
  }

  /** The answer to a failed insert: always an error that passes the database's message on. */
  function InsertFailureAnswer(message: string, tableName: string): (r: Response)
    ensures r.ErrorAnswer? && |r.details| > 0 && r.details[0] == ("error", Str(message))
  {
    match ClassifyInsertFailureAsWritten(message)
    case DuplicateKey => ErrorAnswer("Record insertion failed due to duplicate key",
      [("error", Str(message)), ("suggestion", Str("Check for unique constraints and existing records with the same key values"))])
    case ForeignKeyViolation => ErrorAnswer("Record insertion failed due to foreign key constraint",
      [("error", Str(message)), ("suggestion", Str("Ensure referenced records exist in related tables"))])
    case MissingRequired => ErrorAnswer("Record insertion failed due to missing required fields",
      [("error", Str(message)), ("suggestion", Str("Check for required (NOT NULL) columns and provide values"))])
    case OtherInsertFailure => ErrorAnswer("Database insertion failed", ErrorInTable(message, tableName))
  }

  /** The insert tool answers PostgreSQL's not-null violation with the generic failure, naming the
      table, not with the missing-fields advice. */
  lemma NotNullViolationAnsweredGenerically(tableName: string)
    ensures InsertFailureAnswer(NotNullViolation, tableName)
      == ErrorAnswer("Database insertion failed", ErrorInTable(NotNullViolation, tableName))
  {
    NotNullViolationMissed();
  }

  function InsertArgs(request: RecordInsertRequest): QueryArgs {
    QueryArgs("*", [], DefaultLimit, None, request.data, [])
  }

  function InsertAnswer(tableName: string, request: RecordInsertRequest, result: Outcome<seq<Value>>): Response {
    match result
    case Raised(ValueError(m)) => ErrorAnswer("Data validation failed", ErrorOnly(m))
    case Raised(RuntimeError(m)) => InsertFailureAnswer(m, tableName)
    case Ok(rows) =>
      var message := "Record inserted successfully into table '" + request.tableName + "'";
      if |rows| > 0 then SuccessAnswer(message, Some(Obj([
        ("table", Str(request.tableName)),
        ("inserted_data", Obj(request.data)),
        ("inserted_record", rows[0]),
        ("timestamp", Str("record created"))])))
      else SuccessAnswer(message, Some(Obj([
        ("table", Str(request.tableName)),
        ("inserted_data", Obj(request.data)),
        ("note", Str("Insert completed successfully. Record data not returned by database."))])))
  }

  /** The answer of `insert_record` when a check stops it. */
  function InsertStepAnswer(step: InsertStep): (r: Response)
    requires !step.InsertProceeds?
    ensures r.ErrorAnswer? || r.InvalidInput?
  {
    match step
    case InsertInputRefused(errors) => InvalidInput(errors)
    case InsertNoData => ErrorAnswer("No data provided for insertion",
      [("example", Obj([("name", Str("John Doe")), ("email", Str("john@example.com"))]))])
    case InsertColumnsRefused(e) => ErrorAnswer("Invalid column names in data", ErrorOnly(e))
    case InsertValueTooLarge(column, length) =>
      ErrorAnswer("Data value too large for column '" + column + "'", TooLargeDetails(length))
  }

  /** What `insert_record` does once its checks have come to `step`. */
  function InsertStepRun(client: Option<ClientHandle>, tableName: string, step: InsertStep, backend: Backend): ToolRun {
    if step.InsertProceeds? then
      var run := RunQuery(client, step.request.tableName, "insert", InsertArgs(step.request), backend);
      ToolRun(InsertAnswer(tableName, step.request, run.result), run.client, run.sent)
    else ToolRun(InsertStepAnswer(step), client, [])
  }

  /** `insert_record(table_name, data)` against a manager whose client was `client`. */
  function InsertRecordRun(client: Option<ClientHandle>, tableName: string, data: Entries, backend: Backend): ToolRun {
    InsertStepRun(client, tableName, InsertDecision(tableName, data), backend)
  }

  /** The plan of an insert with data: the table, then the rows to insert. */
  lemma InsertArgsPlan(request: RecordInsertRequest)
    requires |request.data| > 0
    ensures Plan(request.tableName, "insert", InsertArgs(request)) == Ok([From(request.tableName), Insert(request.data)])
  {
  }

  /** A step that stops the insert answers with an error, sends nothing and keeps the client. */
  lemma InsertStepStopped(client: Option<ClientHandle>, tableName: string, step: InsertStep, backend: Backend)
    ensures var run := InsertStepRun(client, tableName, step, backend);
      !step.InsertProceeds? ==> run.sent == [] && run.client == client && !run.response.SuccessAnswer?
  {
  }

  /** An insert stopped by a check sends nothing, keeps the client and reports no success. */
  lemma InsertRecordStopped(client: Option<ClientHandle>, tableName: string, data: Entries, backend: Backend)
    requires !InsertDecision(tableName, data).InsertProceeds?
    ensures var run := InsertRecordRun(client, tableName, data, backend);
      run.sent == [] && run.client == client && !run.response.SuccessAnswer?
  {
    InsertStepStopped(client, tableName, InsertDecision(tableName, data), backend);
  }

  /** An insert that passes the checks proceeds with the stripped name and the caller's data. */
  lemma InsertDecisionProceeds(tableName: string, data: Entries)
    requires InsertDecision(tableName, data).InsertProceeds?
    ensures InsertDecision(tableName, data) == InsertProceeds(RecordInsertRequest(Strip(tableName), data))
  {
    var checked := NewRecordInsertRequest(tableName, data);
    assert checked.Accepted? && checked.value == RecordInsertRequest(Strip(tableName), data);
  }

  /** A successful insert answer carries the inserted data under "inserted_data". */
  lemma InsertAnswerReportsData(tableName: string, request: RecordInsertRequest, result: Outcome<seq<Value>>)
    ensures var r := InsertAnswer(tableName, request, result);
      r.SuccessAnswer? ==> result.Ok? && r.data.Some? && r.data.value.Obj? && Lookup(r.data.value.fields, "inserted_data") == Some(Obj(request.data))
  {
    match result {
      case Raised(e) =>
      case Ok(rows) =>
        var message := "Record inserted successfully into table '" + request.tableName + "'";
        var fields: Entries;
        if |rows| > 0 {
          fields := [("table", Str(request.tableName)), ("inserted_data", Obj(request.data)),
                     ("inserted_record", rows[0]), ("timestamp", Str("record created"))];
        } else {
          fields := [("table", Str(request.tableName)), ("inserted_data", Obj(request.data)),
                     ("note", Str("Insert completed successfully. Record data not returned by database."))];
        }
        assert InsertAnswer(tableName, request, result) == SuccessAnswer(message, Some(Obj(fields)));
        assert |fields[0].0| != |"inserted_data"|;
        LookupSecond(fields, "inserted_data");
    }
  }

  /** A proceeding insert sends at most the rows of the request, and a success reports them. */
  lemma InsertStepSends(client: Option<ClientHandle>, tableName: string, request: RecordInsertRequest, backend: Backend)
    requires |request.data| > 0
    ensures var run := InsertStepRun(client, tableName, InsertProceeds(request), backend);
      && (run.sent != [] ==> run.sent == [[From(request.tableName), Insert(request.data)]])
      && (run.sent == [] ==> run.client.Some? ==> client.Some?)
      && (run.response.SuccessAnswer? ==>
            && run.sent == [[From(request.tableName), Insert(request.data)]]
            && run.response.data.Some? && run.response.data.value.Obj?
            && Lookup(run.response.data.value.fields, "inserted_data") == Some(Obj(request.data)))
  {
    var q := RunQuery(client, request.tableName, "insert", InsertArgs(request), backend);
    InsertArgsPlan(request);
    RunQueryOutcomes(client, request.tableName, "insert", InsertArgs(request), backend);
    InsertAnswerReportsData(tableName, request, q.result);
  }

  /** An insert that reaches the database sends exactly the caller's data into the stripped table
      name; a successful insert reports that data back. */
  lemma InsertSendsTheData(client: Option<ClientHandle>, tableName: string, data: Entries, backend: Backend)
    ensures var run := InsertRecordRun(client, tableName, data, backend);
      && (run.sent != [] ==> run.sent == [[From(Strip(tableName)), Insert(data)]])
      && (run.sent == [] ==> run.client.Some? ==> client.Some?)
      && (run.response.SuccessAnswer? ==>
            && run.sent == [[From(Strip(tableName)), Insert(data)]]
            && run.response.data.Some? && run.response.data.value.Obj?
            && Lookup(run.response.data.value.fields, "inserted_data") == Some(Obj(data)))
  {
    var step := InsertDecision(tableName, data);
    InsertStepStopped(client, tableName, step, backend);
    if step.InsertProceeds? {
      InsertDecisionProceeds(tableName, data);
      InsertDeadBranches(tableName, data);
      InsertStepSends(client, tableName, step.request, backend);
    }
  }

  // ---------------------------------------------------------------- update_record

  /** Columns an update may not set, in the order they are checked. */
  const ProtectedColumns: seq<string> := ["id", "created_at", "updated_at"]

  /** The first protected column that the updates name. */
  function FirstProtected(updates: Entries, columns: seq<string>): (r: Option<string>)
    ensures r.Some? ==> r.value in columns && HasKey(updates, r.value)
    ensures r.None? <==> forall i | 0 <= i < |columns| :: !HasKey(updates, columns[i])
  {
    if |columns| == 0 then None
    else if HasKey(updates, columns[0]) then Some(columns[0])
    else
      assert forall i | 1 <= i < |columns| :: columns[i] == columns[1..][i - 1];
      FirstProtected(updates, columns[1..])
  }

  /** The protected columns are tried in the order id, created_at, updated_at. */
  lemma ProtectedOrder(updates: Entries)
    ensures FirstProtected(updates, ProtectedColumns)
         == if HasKey(updates, "id") then Some("id")
            else if HasKey(updates, "created_at") then Some("created_at")
            else if HasKey(updates, "updated_at") then Some("updated_at")
            else None
  {
    var last: seq<string> := ["updated_at"];
    assert last[1..] == [];
    var lastTwo: seq<string> := ["created_at", "updated_at"];
    assert lastTwo[0] == "created_at" && lastTwo[1..] == last;
    assert ProtectedColumns[0] == "id" && ProtectedColumns[1..] == lastTwo;
    assert FirstProtected(updates, last) == if HasKey(updates, "updated_at") then Some("updated_at") else None;
    assert FirstProtected(updates, lastTwo)
        == if HasKey(updates, "created_at") then Some("created_at") else FirstProtected(updates, last);
  }

  datatype UpdateStep =
    | UpdateInputRefused(errors: seq<FieldError>)
    | NoFilters
    | NoUpdates
    | UpdateFiltersRefused(error: string)
    | UpdateValuesRefused(error: string)
    | UpdateValueTooLarge(column: string, length: int)
    | ProtectedColumn(column: string)
    | UpdateProceeds(request: RecordUpdateRequest)

  /** The checks of `update_record`, in the order they run. */
  function UpdateDecision(tableName: string, filters: Entries, updates: Entries): UpdateStep {
    match NewRecordUpdateRequest(tableName, filters, updates)
    case Rejected(errors) => UpdateInputRefused(errors)
    case Accepted(request) => UpdateChecks(request)
  }

  /** The checks that follow the request model's, on the accepted request. */
  function UpdateChecks(request: RecordUpdateRequest): (r: UpdateStep)
    ensures r.UpdateProceeds? ==> r.request == request
  {
    if |request.filters| == 0 then NoFilters
    else if |request.updates| == 0 then NoUpdates
    else if FiltersVerdict(request.filters).Invalid? then UpdateFiltersRefused(FiltersVerdict(request.filters).error)
    else if FiltersVerdict(request.updates).Invalid? then UpdateValuesRefused(FiltersVerdict(request.updates).error)
    else match FirstOversized(request.updates)
      case Some((column, length)) => UpdateValueTooLarge(column, length)
      case None =>
        match FirstProtected(request.updates, ProtectedColumns)
        case Some(column) => ProtectedColumn(column)
        case None => UpdateProceeds(request)
  }

  /** The update reaches the database exactly when every check passes, and the oversized branch
      is never taken. */
  lemma UpdateCheckOrder(tableName: string, filters: Entries, updates: Entries)
    ensures !UpdateDecision(tableName, filters, updates).UpdateValueTooLarge?
    ensures UpdateDecision(tableName, filters, updates).UpdateProceeds? <==>
      && MatchesIdentifierPattern(tableName)
      && |filters| > 0 && |updates| > 0
      && FiltersVerdict(filters) == Valid && FiltersVerdict(updates) == Valid
      && !HasKey(updates, "id") && !HasKey(updates, "created_at") && !HasKey(updates, "updated_at")
  {
    ProtectedOrder(updates);
    var checked := NewRecordUpdateRequest(tableName, filters, updates);
    if checked.Accepted? {
      assert checked.value.filters == filters && checked.value.updates == updates;
      if FiltersVerdict(updates) == Valid {
        ValidatedNeverOversized(updates);
      }
    }
  }

  /** A refused protected column is the one the search over the protected columns found. */
  lemma ProtectedColumnFound(tableName: string, filters: Entries, updates: Entries)
    requires UpdateDecision(tableName, filters, updates).ProtectedColumn?
    ensures FirstProtected(updates, ProtectedColumns) == Some(UpdateDecision(tableName, filters, updates).column)
  {
    var checked := NewRecordUpdateRequest(tableName, filters, updates);
    assert checked.Accepted? && checked.value.updates == updates;
    assert FirstOversized(updates).None?;
  }

  /** The refusals come in order: filters before updates, the filter check before the value
      check, and a refused protected column is the first of id, created_at, updated_at that the
      updates name. */
  lemma UpdateRefusalOrder(tableName: string, filters: Entries, updates: Entries)
    ensures UpdateDecision(tableName, filters, updates).ProtectedColumn? ==>
      var c := UpdateDecision(tableName, filters, updates).column;
      && HasKey(updates, c)
      && (c == "id" || (c == "created_at" && !HasKey(updates, "id"))
          || (c == "updated_at" && !HasKey(updates, "id") && !HasKey(updates, "created_at")))
    ensures UpdateDecision(tableName, filters, updates).NoUpdates? ==> |filters| > 0
    ensures UpdateDecision(tableName, filters, updates).UpdateValuesRefused? ==> FiltersVerdict(filters) == Valid
  {
    if UpdateDecision(tableName, filters, updates).ProtectedColumn? {
      ProtectedColumnFound(tableName, filters, updates);
      ProtectedOrder(updates);
    }
  }

  /** What PostgreSQL reported, as `update_record` sorts it. */
  datatype UpdateFailure = UpdateForeignKey | UpdateUnique | UpdateCheck | OtherUpdateFailure

  /** On the lower-cased message: "foreign key", then "unique" or "duplicate", then "check constraint". */
  function ClassifyUpdateFailure(message: string): UpdateFailure {
    var m := Lower(message);
    if Contains(m, "foreign key") then UpdateForeignKey
    else if Contains(m, "unique") || Contains(m, "duplicate") then UpdateUnique
    else if Contains(m, "check constraint") then UpdateCheck
    else OtherUpdateFailure
  }

  /** The update tool tries the foreign key first, the insert tool tries duplicates first: one
      message that names both is sorted differently by the two. */
  lemma UpdateClassificationOrder(message: string)
    ensures ClassifyUpdateFailure(message) == ClassifyUpdateFailure(Lower(message))
    ensures Contains(Lower(message), "foreign key") ==> ClassifyUpdateFailure(message) == UpdateForeignKey
    ensures Contains(Lower(message), "foreign key") && Contains(Lower(message), "unique") ==>
      ClassifyInsertFailureAsWritten(message) == DuplicateKey
    ensures ClassifyUpdateFailure(message) == UpdateCheck ==>
      Contains(Lower(message), "check constraint") && !Contains(Lower(message), "foreign key")
      && !Contains(Lower(message), "unique") && !Contains(Lower(message), "duplicate")
  {
    LowerIdempotent(message);
  }

  function UpdateFailureAnswer(message: string, tableName: string): Response {
    match ClassifyUpdateFailure(message)
    case UpdateForeignKey => ErrorAnswer("Update failed due to foreign key constraint",
      [("error", Str(message)), ("suggestion", Str("Ensure updated values reference existing records in related tables"))])
    case UpdateUnique => ErrorAnswer("Update failed due to unique constraint violation",
      [("error", Str(message)), ("suggestion", Str("Check for unique constraints and ensure updated values don't create duplicates"))])
    case UpdateCheck => ErrorAnswer("Update failed due to check constraint violation",
      [("error", Str(message)), ("suggestion", Str("Ensure updated values meet the table's validation rules"))])
    case OtherUpdateFailure => ErrorAnswer("Database update failed", ErrorInTable(message, tableName))
  }

  function UpdateArgs(request: RecordUpdateRequest): QueryArgs {
    QueryArgs("*", request.filters, DefaultLimit, None, [], request.updates)
  }

  function UpdateAnswer(tableName: string, request: RecordUpdateRequest, result: Outcome<seq<Value>>): Response {
    match result
    case Raised(ValueError(m)) => ErrorAnswer("Update validation failed", ErrorOnly(m))
    case Raised(RuntimeError(m)) => UpdateFailureAnswer(m, tableName)
    case Ok(rows) =>
      if |rows| > 0 then SuccessAnswer(
        "Successfully updated " + IntToDecimal(|rows|) + " record(s) in table '" + request.tableName + "'",
        Some(Obj([
          ("table", Str(request.tableName)),
          ("updated_count", Int(|rows|)),
          ("filters_applied", Obj(request.filters)),
          ("updates_applied", Obj(request.updates)),
          ("updated_records", Arr(rows))])))
      else SuccessAnswer(
        "Update operation completed for table '" + request.tableName + "'",
        Some(Obj([
          ("table", Str(request.tableName)),
          ("updated_count", Int(0)),
          ("filters_applied", Obj(request.filters)),
          ("updates_applied", Obj(request.updates)),
          ("message", Str("No records matched the filter criteria"))])))
  }

  function UpdateStepAnswer(step: UpdateStep): (r: Response)
    requires !step.UpdateProceeds?
    ensures r.ErrorAnswer? || r.InvalidInput?
  {
    match step
    case UpdateInputRefused(errors) => InvalidInput(errors)
    case NoFilters => ErrorAnswer("No filter conditions provided", [
      ("error", Str("Filters are required to prevent accidental mass updates")),
      ("example_filters", Obj([("id", Int(123)), ("status", Str("active"))]))])
    case NoUpdates => ErrorAnswer("No update values provided", [
      ("error", Str("Updates are required to specify what to change")),
      ("example_updates", Obj([("name", Str("New Name")), ("status", Str("inactive"))]))])
    case UpdateFiltersRefused(e) => ErrorAnswer("Invalid filter conditions", ErrorOnly(e))
    case UpdateValuesRefused(e) => ErrorAnswer("Invalid update values", ErrorOnly(e))
    case UpdateValueTooLarge(column, length) =>
      ErrorAnswer("Update value too large for column '" + column + "'", TooLargeDetails(length))
    case ProtectedColumn(column) => ErrorAnswer("Cannot update protected column '" + column + "'", [
      ("protected_columns", Arr([Str("id"), Str("created_at"), Str("updated_at")])),
      ("suggestion", Str("Use different column names or exclude protected columns"))])
  }

  /** What `update_record` does once its checks have come to `step`. */
  function UpdateStepRun(client: Option<ClientHandle>, tableName: string, step: UpdateStep, backend: Backend): ToolRun {
    if step.UpdateProceeds? then
      var run := RunQuery(client, step.request.tableName, "update", UpdateArgs(step.request), backend);
      ToolRun(UpdateAnswer(tableName, step.request, run.result), run.client, run.sent)
    else ToolRun(UpdateStepAnswer(step), client, [])
  }

  function UpdateRecordRun(client: Option<ClientHandle>, tableName: string, filters: Entries, updates: Entries,
                           backend: Backend): ToolRun {
    UpdateStepRun(client, tableName, UpdateDecision(tableName, filters, updates), backend)
  }

  /** A check that stops the update answers with an error, sends nothing and keeps the client. */
  lemma UpdateStepStopped(client: Option<ClientHandle>, tableName: string, step: UpdateStep, backend: Backend)
    ensures var run := UpdateStepRun(client, tableName, step, backend);
      !step.UpdateProceeds? ==> run.sent == [] && run.client == client && !run.response.SuccessAnswer?
  {
    if !step.UpdateProceeds? {
      assert UpdateStepRun(client, tableName, step, backend) == ToolRun(UpdateStepAnswer(step), client, []);
    }
  }

  /** An update that passes the checks proceeds with the stripped name and the caller's filters
      and values. */
  lemma UpdateDecisionProceeds(tableName: string, filters: Entries, updates: Entries)
    requires UpdateDecision(tableName, filters, updates).UpdateProceeds?
    ensures UpdateDecision(tableName, filters, updates) == UpdateProceeds(RecordUpdateRequest(Strip(tableName), filters, updates))
  {
    var checked := NewRecordUpdateRequest(tableName, filters, updates);
    assert checked.Accepted? && checked.value == RecordUpdateRequest(Strip(tableName), filters, updates);
  }

  /** A proceeding update is answered from one `execute_query("update")`. */
  lemma UpdateRecordProceeds(client: Option<ClientHandle>, tableName: string, filters: Entries, updates: Entries,
                             backend: Backend, request: RecordUpdateRequest)
    requires UpdateDecision(tableName, filters, updates) == UpdateProceeds(request)
    ensures var q := RunQuery(client, request.tableName, "update", UpdateArgs(request), backend);
      UpdateRecordRun(client, tableName, filters, updates, backend) == ToolRun(UpdateAnswer(tableName, request, q.result), q.client, q.sent)
  {
  }

  /** The plan of a checked update: the table, the values to set, one equality per filter. */
  lemma UpdateArgsPlan(request: RecordUpdateRequest)
    requires |request.filters| > 0 && |request.updates| > 0
    requires FiltersVerdict(request.filters) == Valid && FiltersVerdict(request.updates) == Valid
    ensures Plan(request.tableName, "update", UpdateArgs(request))
         == Ok([From(request.tableName), Update(request.updates)] + EqCalls(request.filters))
  {
  }

  lemma UpdateQuerySent(client: Option<ClientHandle>, request: RecordUpdateRequest, backend: Backend)
    requires |request.filters| > 0 && |request.updates| > 0
    requires FiltersVerdict(request.filters) == Valid && FiltersVerdict(request.updates) == Valid
    ensures var q := RunQuery(client, request.tableName, "update", UpdateArgs(request), backend);
      q.sent != [] ==> q.sent == [[From(request.tableName), Update(request.updates)] + EqCalls(request.filters)]
  {
    UpdateArgsPlan(request);
    RunQueryOutcomes(client, request.tableName, "update", UpdateArgs(request), backend);
  }

  /** An update that reaches the database is targeted: it sets the caller's values on the rows
      that match every one of the caller's filters, and never a protected column. */
  lemma UpdateSendsTargetedQuery(client: Option<ClientHandle>, tableName: string, filters: Entries, updates: Entries,
                                 backend: Backend)
    ensures var run := UpdateRecordRun(client, tableName, filters, updates, backend);
      run.sent != [] ==>
        && run.sent == [[From(Strip(tableName)), Update(updates)] + EqCalls(filters)]
        && |filters| > 0
        && !HasKey(updates, "id") && !HasKey(updates, "created_at") && !HasKey(updates, "updated_at")
  {
    if UpdateDecision(tableName, filters, updates).UpdateProceeds? {
      var request := RecordUpdateRequest(Strip(tableName), filters, updates);
      UpdateDecisionProceeds(tableName, filters, updates);
      UpdateCheckOrder(tableName, filters, updates);
      UpdateRecordProceeds(client, tableName, filters, updates, backend, request);
      UpdateQuerySent(client, request, backend);
    } else {
      UpdateRecordStopped(client, tableName, filters, updates, backend);
    }
  }

  /** An update stopped by a check sends nothing and keeps the client. */
  lemma UpdateRecordStopped(client: Option<ClientHandle>, tableName: string, filters: Entries, updates: Entries,
                            backend: Backend)
    requires !UpdateDecision(tableName, filters, updates).UpdateProceeds?
    ensures var run := UpdateRecordRun(client, tableName, filters, updates, backend);
      run.sent == [] && run.client == client && !run.response.SuccessAnswer?
  {
    UpdateStepStopped(client, tableName, UpdateDecision(tableName, filters, updates), backend);
  }

  // ---------------------------------------------------------------- the tools as methods

  /** The checks of `query_table`, run in order. */
  method CheckQuery(tableName: string, limit: Option<int>, filters: Entries, maxQueryLimit: int) returns (step: QueryStep)
    ensures step == QueryDecision(tableName, limit, filters, maxQueryLimit)
  {
    var checked := NewTableQueryRequest(tableName, limit, filters);
    if checked.Rejected? {
      return QueryInputRefused(checked.errors);
    }
    var request := checked.value;
    var verdict := ValidateColumnFilters(request.filters);
    if verdict.Invalid? {
      return QueryFiltersRefused(verdict.error);
    }
    var queryLimit := if request.limit.Some? && request.limit.value != 0 then request.limit.value else DefaultSelectLimit;
    queryLimit := Min(queryLimit, maxQueryLimit);
    return QueryProceeds(request, queryLimit);
  }

  /** `query_table` */
  method QueryTable(manager: SupabaseManager, tableName: string, limit: Option<int>, filters: Entries,
                    maxQueryLimit: int, backend: Backend, render: Rendering) returns (text: string)
    modifies manager
    ensures var run := QueryTableRun(old(manager.client), tableName, limit, filters, maxQueryLimit, backend);
      text == RenderResponse(run.response, render) && manager.client == run.client && manager.sent == old(manager.sent) + run.sent
  {
    var step := CheckQuery(tableName, limit, filters, maxQueryLimit);
    if step.QueryProceeds? {
      var request, queryLimit := step.request, step.limit;
      ghost var q := RunQuery(manager.client, request.tableName, "select", SelectArgs(request, queryLimit), backend);
      assert QueryStepRun(manager.client, tableName, step, backend)
          == ToolRun(QueryAnswer(tableName, request, queryLimit, q.result), q.client, q.sent);
      var result := manager.ExecuteQuery(request.tableName, "select", SelectArgs(request, queryLimit), backend);
      text := RenderResponse(QueryAnswer(tableName, request, queryLimit, result), render);
    } else {
      assert QueryStepRun(manager.client, tableName, step, backend) == ToolRun(QueryStepAnswer(step), manager.client, []);
      text := RenderResponse(QueryStepAnswer(step), render);
    }
  }

  /** The checks of `insert_record`, run in order. */
  method CheckInsert(tableName: string, data: Entries) returns (step: InsertStep)
    ensures step == InsertDecision(tableName, data)
  {
    var checked := NewRecordInsertRequest(tableName, data);
    if checked.Rejected? {
      return InsertInputRefused(checked.errors);
    }
    var request := checked.value;
    if |request.data| == 0 {
      return InsertNoData;
    }
    var verdict := ValidateColumnFilters(request.data);
    if verdict.Invalid? {
      return InsertColumnsRefused(verdict.error);
    }
    var oversized := FindOversized(request.data);
    if oversized.Some? {
      return InsertValueTooLarge(oversized.value.0, oversized.value.1);
    }
    return InsertProceeds(request);
  }

  /** `insert_record` */
  method InsertRecord(manager: SupabaseManager, tableName: string, data: Entries, backend: Backend, render: Rendering)
    returns (text: string)
    modifies manager
    ensures var run := InsertRecordRun(old(manager.client), tableName, data, backend);
      text == RenderResponse(run.response, render) && manager.client == run.client && manager.sent == old(manager.sent) + run.sent
  {
    var step := CheckInsert(tableName, data);
    if step.InsertProceeds? {
      var request := step.request;
      ghost var q := RunQuery(manager.client, request.tableName, "insert", InsertArgs(request), backend);
      assert InsertStepRun(manager.client, tableName, step, backend) == ToolRun(InsertAnswer(tableName, request, q.result), q.client, q.sent);
      var result := manager.ExecuteQuery(request.tableName, "insert", InsertArgs(request), backend);
      text := RenderResponse(InsertAnswer(tableName, request, result), render);
    } else {
      assert InsertStepRun(manager.client, tableName, step, backend) == ToolRun(InsertStepAnswer(step), manager.client, []);
      text := RenderResponse(InsertStepAnswer(step), render);
    }
  }

  /** The loop over the protected columns. */
  method FindProtected(updates: Entries) returns (r: Option<string>)
    ensures r == FirstProtected(updates, ProtectedColumns)
  {
    var k := 0;
    while k < |ProtectedColumns|
      invariant 0 <= k <= |ProtectedColumns|
      invariant FirstProtected(updates, ProtectedColumns[k..]) == FirstProtected(updates, ProtectedColumns)
    {
      assert ProtectedColumns[k..][0] == ProtectedColumns[k] && ProtectedColumns[k..][1..] == ProtectedColumns[k + 1..];
      if HasKey(updates, ProtectedColumns[k]) {
        return Some(ProtectedColumns[k]);
      }
      k := k + 1;
    }
    return None;
  }

  /** The checks of `update_record`, run in order. */
  method CheckUpdate(tableName: string, filters: Entries, updates: Entries) returns (step: UpdateStep)
    ensures step == UpdateDecision(tableName, filters, updates)
  {
    var checked := NewRecordUpdateRequest(tableName, filters, updates);
    if checked.Rejected? {
      return UpdateInputRefused(checked.errors);
    }
    var request := checked.value;
    if |request.filters| == 0 {
      return NoFilters;
    }
    if |request.updates| == 0 {
      return NoUpdates;
    }
    var filterVerdict := ValidateColumnFilters(request.filters);
    if filterVerdict.Invalid? {
      return UpdateFiltersRefused(filterVerdict.error);
    }
    var updateVerdict := ValidateColumnFilters(request.updates);
    if updateVerdict.Invalid? {
      return UpdateValuesRefused(updateVerdict.error);
    }
    var oversized := FindOversized(request.updates);
    if oversized.Some? {
      return UpdateValueTooLarge(oversized.value.0, oversized.value.1);
    }
    var protected := FindProtected(request.updates);
    if protected.Some? {
      return ProtectedColumn(protected.value);
    }
    return UpdateProceeds(request);
  }

  /** `update_record` */
  method UpdateRecord(manager: SupabaseManager, tableName: string, filters: Entries, updates: Entries,
                      backend: Backend, render: Rendering) returns (text: string)
    modifies manager
    ensures var run := UpdateRecordRun(old(manager.client), tableName, filters, updates, backend);
      text == RenderResponse(run.response, render) && manager.client == run.client && manager.sent == old(manager.sent) + run.sent
  {
    var step := CheckUpdate(tableName, filters, updates);
    if step.UpdateProceeds? {
      var request := step.request;
      ghost var q := RunQuery(manager.client, request.tableName, "update", UpdateArgs(request), backend);
      assert UpdateStepRun(manager.client, tableName, step, backend) == ToolRun(UpdateAnswer(tableName, request, q.result), q.client, q.sent);
      var result := manager.ExecuteQuery(request.tableName, "update", UpdateArgs(request), backend);
      text := RenderResponse(UpdateAnswer(tableName, request, result), render);
    } else {
      assert UpdateStepRun(manager.client, tableName, step, backend) == ToolRun(UpdateStepAnswer(step), manager.client, []);
      text := RenderResponse(UpdateStepAnswer(step), render);
    }
  }
}
