# Supabase MCP server: a verified model of its request handling

The Supabase MCP server is a Model Context Protocol tool server. It exposes a Supabase
(PostgreSQL) database to MCP clients through JSON-RPC 2.0 tools: `query_table`,
`describe_table`, `insert_record` and `update_record`. The tools are served over a streamable
HTTP transport with a single `/mcp` endpoint. That endpoint checks the `Origin` header, decodes
the JSON-RPC request, keeps an optional `Mcp-Session-Id` session table, dispatches to the tool
registry, and answers either with plain JSON or with one Server-Sent Event.

Every tool validates its input in a fixed order before it touches the database:

- pydantic request models;
- a table-name validator with a system-prefix denylist;
- a column-filter validator with eleven SQL-injection patterns and a length bound;
- length and protected-column checks.

The tool then runs one query through `SupabaseManager.execute_query`. Database failures are
classified by substrings of the error message.

This project models that layer in Dafny and proves what it promises. The modules follow the
source files:

| module (file) | models |
|---|---|
| `Values` (values.dfy) | Python values as they cross the tool boundary. A dictionary is an ordered list of entries: `d.get`, `key in d` and truthiness. |
| `Text` (text.dfy) | The `str` operations the code relies on: `strip`, ASCII `lower`, `in`, `startswith`, `str(int)` and `int(str)`, `repr` of a string and of a list of strings, and the identifier regular expression with its trailing-newline quirk. |
| `SqlPatterns` (sql_patterns.dfy) | The eleven dangerous-pattern regular expressions as predicates over the text. |
| `Database` (database.dfy) | The validators, the three request models, the credential check, and `SupabaseManager`. `SupabaseManager` is a class that creates its client lazily and logs the query-builder calls it sends. |
| `TransportBase` (transport_base.dfy) | The tool registry and `invoke_tool`, the `_running` life cycle as a class, and `TransportError`. |
| `HttpTransport` (http_transport.dfy) | The session table as a class field, the origin check, the streaming decision, request decoding, SSE framing and the `/mcp` endpoint's code and status table. |
| `McpServer` (mcp_server.dfy) | The environment and configuration checks, the `**Error**` / `**Success**` texts, and the decision flow of `query_table`, `insert_record` and `update_record`. |
| `DescribeTable` (describe_table.dfy) | `describe_table`: schema rows reshaped into column and constraint descriptions, the stable sort by position, and the sample-row fallback. |

Each tool is a module-level method that takes the `SupabaseManager` object as a parameter and may change it (`modifies manager`). Only `get_client`, `execute_query` and the query builders are methods of the class itself. A tool is split into two parts:

- a check method that runs the source's checks in order;
- the database call.

Each method is proved equal to a specification function of the old client. That function gives
three things:

- the answer;
- the client afterwards;
- the queries sent.

The properties are lemmas about that function.

The following are parameters of the model:

- the database, as a `Backend` oracle: the outcome of `create_client`, and the reply to each executed query or `rpc` call;
- the clock (`now`);
- the fresh session id that `uuid4` would give;
- `urlparse`'s host name;
- `json.dumps`;
- pydantic's text for one field error.

## Model

| member | source | states |
|---|---|---|
| Text.StripEmptyIffBlank | src/database.py:84 | `strip()` gives the empty string exactly when the name is empty or all white space, the first check of `validate_table_name`. |
| Text.PatternMatchStripsToIdentifier | src/database.py:27-33 | What passes the model's identifier pattern is not blank. Its stripped form, which the validator returns, is a strict identifier. It differs from the input at most by one trailing newline. |
| Text.TrailingNewlineQuirk | src/database.py:31 | `^[a-zA-Z_][a-zA-Z0-9_]*$` without MULTILINE accepts `"users\n"`, which is not an identifier. |
| Text.DecimalRoundTrip | src/mcp_server.py:68 | `int(str(i)) == i` for every integer, so any limit written in decimal configures that limit. |
| Text.ListReprMentions | src/mcp_server.py:54-57 | The `repr` of a list of strings contains the `repr` of each element, and each element itself when `repr` leaves it unescaped (no quote, backslash or control character). |
| Text.PlainRepr | src/transport_base.py:150-151 | A string with no quote, backslash or non-printable character is shown by `repr` as itself in single quotes. |
| SqlPatterns.CaughtBy | src/database.py:148-153 | A match of any one of the eleven patterns makes a value dangerous. |
| SqlPatterns.DropStatementCaught | src/database.py:125 | `'; DROP TABLE users; --` is caught. |
| SqlPatterns.BlockCommentCaught | src/database.py:130 | A one-line block comment is caught. |
| SqlPatterns.TautologyCaught | src/database.py:131 | `1 OR 1=1` is caught: `\bor\b`, anything, then `\b1\s*=\s*1\b`. |
| SqlPatterns.UnionSelectOpening | src/database.py:132 | Text that opens with `UNION SELECT ` matches the union pattern at its start. |
| SqlPatterns.UnionSelectCaught | src/database.py:132 | `UNION SELECT * FROM users` is caught. |
| SqlPatterns.ExtendedProcedureCaught | src/database.py:135 | `xp_cmdshell 'ls'` is caught by `\bxp_\w+`. |
| SqlPatterns.TrailingCommentCaught | src/database.py:129 | `admin' --` is caught by the comment pattern. |
| Database.ValidateTableName | src/database.py:75-108 | The loop over the prefixes gives exactly the validator's verdict. Blank names are refused first, then malformed names, then the first system prefix that the lower-cased name starts with. |
| Database.TableNameValidIff | src/database.py:84-108 | A name is accepted if and only if it fits the identifier pattern and does not start with `pg_`, `information_schema` or `supabase_` in any case. |
| Database.DottedPrefixesNeverFire | src/database.py:95-106 | The five dotted prefixes never refuse a name that fits the pattern, because such a name has no dot. |
| Database.LowerIdentifierHasNoDot | src/database.py:88-100 | The lower-cased form of a name that fits the pattern has no dot. |
| Database.SystemPrefixesLower | src/database.py:95-102 | The three prefixes an identifier can start with are their own lower case. |
| Database.PrefixStep | src/database.py:101-106 | Each prefix either refuses the name or passes the scan on to the next prefix. |
| Database.PlainIdentifierAccepted | src/database.py:95-108 | An identifier whose first letter is not p, i or s in any case is accepted. |
| Database.AcceptedTableNames | src/database.py:84-108 | `users` and `_private_table` are accepted. |
| Database.MalformedTableNames | src/database.py:84-92 | A blank name gets the empty-name message. `user-profiles` and `123users` get the format message. |
| Database.PostgresTableName | src/database.py:100-106 | `pg_user` is refused, naming the prefix `pg_`. |
| Database.SupabasePrefixRefused | src/database.py:100-106 | Any identifier whose lower case starts with `supabase_` is refused under that prefix. |
| Database.SupabaseTableName | src/database.py:100-106 | The prefix test ignores case: `Supabase_users` is refused. |
| Database.ValidateColumnFilters | src/database.py:111-162 | The loop over the entries, with an inner loop over the patterns, returns exactly the verdict of the checks in source order. |
| Database.FiltersVerdictFirstOffender | src/database.py:120-162 | The filters pass if and only if every entry is acceptable. Otherwise the error is the complaint about the first offending entry. |
| Database.ValidFiltersAreSafe | src/database.py:138-160 | In filters that pass, every key fits the identifier pattern, and every string value is not dangerous and at most 1000 characters long. |
| Database.NonStringValuesNeverFail | src/database.py:147-156 | Filters with identifier keys and no string values always pass. |
| Database.NoWordInInert | src/database.py:131-135 | No keyword, and neither `sp_` nor `xp_`, appears in text made of inert characters. |
| Database.InertOpenersMissing | src/database.py:124-136 | Inert text has no position where a keyword, a procedure prefix, a comment opener or a semicolon starts. |
| Database.InertPatternMissed | src/database.py:124-136 | Each of the eleven patterns misses inert text without `--`. |
| Database.InertValueNotDangerous | src/database.py:147-153 | Inert values, such as dates and numbers written as text, are never called dangerous. |
| Database.NoDoubleHyphen | src/database.py:129 | Text with no two adjacent hyphens does not contain `--`. |
| Database.AcceptedFilters | src/database.py:120-162 | Empty filters pass. So do numbers and booleans, and a date string. |
| Database.RefusedFilters | src/database.py:138-160 | A malformed key, an injection attempt and a 1001-character value are each refused with their own message naming the key. |
| Database.NewTableQueryRequest | src/database.py:20-33 | The model is accepted if and only if the name fits the pattern and a given limit lies in 1..1000. It then holds the stripped name, which is an identifier, and the caller's limit and filters. |
| Database.TableQueryErrorsAreExact | src/database.py:23-31 | A rejection lists the empty-name, format, below-minimum and above-maximum errors. Each one is listed exactly when its field is wrong. |
| Database.NewRecordInsertRequest | src/database.py:36-56 | The model is accepted if and only if the name fits the pattern and the data is not empty. It then holds the stripped name and the caller's data. |
| Database.NewRecordUpdateRequest | src/database.py:59-72 | The model is accepted if and only if the name fits the pattern, even with empty filters or updates. It then holds the stripped name, the filters and the updates. |
| Database.CredentialsAcceptedIff | src/database.py:183-195 | The credentials are accepted if and only if the URL starts with `https://` and the key is not blank. |
| Database.CredentialSamples | src/database.py:185-192 | The checks run in order: URL blank, then key blank, then not HTTPS. |
| Database.ForeignDomainOnlyWarns | src/database.py:194-195 | A URL outside `.supabase.co` is accepted, with a warning. |
| Database.EqCalls | src/database.py:300-301 | One `eq(key, value)` per filter entry, in order. |
| Database.ClientCreatedAtMostOnce | src/database.py:206-222 | Once a client has been obtained it is stored. Every later `get_client` returns it, whatever `create_client` would now do. |
| Database.InvalidTableTouchesNothing | src/database.py:262-265 | A refused table name raises its ValueError. The client is not created and nothing is sent. |
| Database.RunQueryOutcomes | src/database.py:247-287 | At most one query is sent. It is sent if and only if three things hold: the name is valid, a client exists and the operation's builder accepts the arguments. What is sent is the builder's plan. An existing client is kept. |
| Database.PlanRaisesValueError | src/database.py:289-364 | The builders refuse only with ValueError. |
| Database.RunQueryWrapsFailures | src/database.py:282-287 | Every RuntimeError that `execute_query` raises says "Database operation failed: ". |
| Database.UnsupportedOperation | src/database.py:279-280 | An operation name outside the four raises "Unsupported operation: " plus the name, and nothing is sent. |
| Database.SelectLimitBounded | src/database.py:303-306 | A select's `limit` lies in 1..1000. It is `min(limit, 1000)` for an int limit and 100 by default. |
| Database.WritesAreTargeted | src/database.py:315-364 | An update needs non-empty, valid filters and updates. A delete needs non-empty, valid filters. An insert needs data. |
| Database.SupabaseManager.constructor | src/database.py:168-181 | The manager holds its credentials, no client and no sent queries. |
| Database.SupabaseManager.GetClient | src/database.py:206-222 | The client field and the result follow the lazy `get_client` step. |
| Database.SupabaseManager.BuildSelect | src/database.py:289-313 | The step-by-step builder gives the select plan. |
| Database.SupabaseManager.BuildInsert | src/database.py:315-321 | The builder gives the insert plan. |
| Database.SupabaseManager.AppendEqs | src/database.py:344-345 | The loop adds one `eq` per filter entry to the query. |
| Database.SupabaseManager.BuildUpdate | src/database.py:323-347 | The builder gives the update plan, checking presence before validity. |
| Database.SupabaseManager.BuildDelete | src/database.py:349-364 | The builder gives the delete plan. |
| Database.SupabaseManager.ExecuteQuery | src/database.py:247-287 | The result, the client afterwards and the queries appended to the log are those of the `execute_query` specification. |
| TransportBase.ToolNames | src/transport_base.py:150 | `list(tools.keys())`, in registration order. |
| TransportBase.FindTool | src/transport_base.py:147-149 | The lookup finds a tool if and only if the name is registered, and then finds the first tool with that name. |
| TransportBase.UnknownToolReported | src/transport_base.py:147-151 | An unregistered method raises a ValueError whose message contains the method name and the `repr` of every registered name. A name that `repr` leaves unescaped, such as every Python identifier, appears as it is. |
| TransportBase.UnknownToolCallsNoHandler | src/transport_base.py:149-151 | The not-found answer depends only on the registered names and ignores the parameters. No handler takes part. |
| TransportBase.KnownToolDelegates | src/transport_base.py:153-161 | A registered method gives exactly what its handler gives, including a failure, which propagates unchanged. |
| TransportBase.RunOutcomeShape | src/transport_base.py:58-90 | `run` ends in a keyboard interrupt exactly when `stop` was interrupted, since that is not an `Exception` and escapes the `finally`. Otherwise it returns quietly exactly when `start` did not fail and the wait did not fail if it was reached. A raised error always says "Transport failed: ". A failure of `stop` never changes the outcome. |
| TransportBase.Transport.constructor | src/transport_base.py:26-35 | A new transport is not running and no shutdown has been requested. |
| TransportBase.Transport.Shutdown | src/transport_base.py:92-99 | Shutdown sets the event. |
| TransportBase.Transport.GracefulShutdown | src/transport_base.py:80-90 | `stop` is called only when the transport is running. The transport is not running afterwards, even if `stop` failed or was interrupted. It reports an interrupt exactly when `stop` ran and was interrupted. |
| TransportBase.Transport.Run | src/transport_base.py:58-90 | The result is the run outcome of `start`, the wait and `stop`. `start` and then `stop` are called, and the transport is not running afterwards. |
| TransportBase.NewTransportError | src/transport_base.py:164-177 | The error keeps the message and the transport type. Details that are missing or empty become the empty dictionary. |
| HttpTransport.NewSessionCreated | src/http_transport.py:253-267 | With no header, exactly one session is added under the fresh id, which is returned. It holds one request and `last_seen` is `now`. The other sessions are unchanged. |
| HttpTransport.KnownSessionTouched | src/http_transport.py:245-267 | A known id is returned. Its request count rises by one and `last_seen` becomes `now`. No session is added or removed, and the others are unchanged. |
| HttpTransport.UnknownSessionIgnored | src/http_transport.py:247-251 | An unknown id gives no session, and the table is left exactly as it was. |
| HttpTransport.SessionStepHeader | src/http_transport.py:236-267 | A session id is returned exactly when no header was sent or the header is known. |
| HttpTransport.SurvivorsExact | src/http_transport.py:377-388 | Cleanup keeps exactly the sessions that are not expired, and keeps them unchanged. |
| HttpTransport.TimeoutBoundary | src/http_transport.py:380-384 | A session idle for exactly 3600 seconds is kept, and one idle for longer is removed. A missing `last_seen` counts as 0. |
| HttpTransport.CleanupIdempotentAndMonotone | src/http_transport.py:377-388 | A second cleanup at the same time changes nothing. A later cleanup keeps no more sessions. |
| HttpTransport.FreshSessionSurvivesTimeout | src/http_transport.py:254-265 | A session created by a request survives every cleanup within the timeout after it. |
| HttpTransport.EffectiveCorsOrigins | src/http_transport.py:82 | The allowed origins are the configured ones, or `["http://localhost:3000"]` when the configured list is None or empty. |
| HttpTransport.OriginAcceptedIff | src/http_transport.py:269-293 | An origin is valid if and only if it is empty, or it parses and either names localhost or 127.0.0.1 or is one of the allowed origins. A parse failure is invalid. |
| HttpTransport.DefaultOriginsOnlyLocal | src/http_transport.py:82 | With the default configuration, a non-local origin is accepted only if it is `http://localhost:3000`. |
| HttpTransport.StreamThresholdBoundary | src/http_transport.py:295-314 | A 5000-character string result is not streamed for other tools, and a 5001-character one is. The three listed tools are always streamed. |
| HttpTransport.DecodeRequest | src/http_transport.py:30-35 | A decoded request comes from an object whose `method` is that string. A refused one has at least one defect. |
| HttpTransport.DecodeRequestIff | src/http_transport.py:30-35 | An object decodes if and only if three things hold: `method` is a string, `jsonrpc` is absent or a string, and `params` is absent, null or a dictionary. |
| HttpTransport.SseRoundTrip | src/http_transport.py:340-342 | A stream reader gets the payload back from the `data: …\n\n` event. |
| HttpTransport.SseSingleEvent | src/http_transport.py:341-342 | A payload without a raw newline forms exactly one event: the only blank line is at the end. |
| HttpTransport.SseHeadersShape | src/http_transport.py:360-369 | The stream carries no-cache, keep-alive and text/event-stream. It carries `Mcp-Session-Id` if and only if the session id is non-empty. |
| HttpTransport.ToolReplyShape | src/http_transport.py:137-189 | A plain success carries the session header. An error carries the request id and no result, with -32601 and 404 or -32603 and 500. |
| HttpTransport.EndpointErrorTable | src/http_transport.py:113-215 | Every error reply has one of four code and status pairs: -32700 and 400, -32600 and 400, -32601 and 404, -32603 and 500. Parse and shape errors have a null id and occur exactly when the body did not decode. Tool errors carry the request's id. No error carries a result. |
| HttpTransport.BadOriginRejectedFirst | src/http_transport.py:120-124 | A refused origin gets 403 before the body is read or a session is touched. |
| HttpTransport.SessionsOnlyForDecodedRequests | src/http_transport.py:126-156 | The session table changes only for a request that decoded. An unknown session id leaves it unchanged and gets no header. |
| HttpTransport.UnknownToolIs404 | src/http_transport.py:160-173 | An unregistered tool is answered with 404 and -32601. |
| HttpTransport.HttpTransport.constructor | src/http_transport.py:64-108 | The transport holds the effective origins and an empty session table. |
| HttpTransport.HttpTransport.HandleSession | src/http_transport.py:236-267 | The table afterwards and the result are the session step's. |
| HttpTransport.HttpTransport.CleanupSessions | src/http_transport.py:377-389 | The loop that collects expired ids and then deletes them leaves exactly the survivors. |
| HttpTransport.HttpTransport.Stop | src/http_transport.py:452-453 | `stop` empties the session table. |
| HttpTransport.HttpTransport.McpEndpoint | src/http_transport.py:113-215 | The reply and the table afterwards are the endpoint specification's. |
| McpServer.MissingVars | src/mcp_server.py:53-54 | The missing names are exactly the required names that are unset or empty, in order. |
| McpServer.EnvironmentVerdict | src/mcp_server.py:51-59 | The check passes if and only if both variables are set. Otherwise the message lists the missing ones in order. |
| McpServer.GetConfig | src/mcp_server.py:63-70 | The configuration fails exactly when `int()` of the limit variable (default "1000") fails. |
| McpServer.GetConfigDefaults | src/mcp_server.py:63-70 | With nothing set, the configuration is INFO, supabase-mcp, 1000 and debug off. |
| McpServer.ConfigLimitRoundTrip | src/mcp_server.py:68 | A limit variable holding `str(n)` configures the limit n. |
| McpServer.DebugValueSamples | src/mcp_server.py:69 | Debug is on for "true" in any case. It is off for "false", "1", " true" and "yes". |
| McpServer.FencedPayloadRoundTrip | src/mcp_server.py:105 | A reader gets the JSON back out of a fenced block. |
| McpServer.ErrorResponseReadBack | src/mcp_server.py:100-107 | The text is the heading, then the message, then a Details block exactly when the details are non-empty. The JSON of the details can be read back from that block. |
| McpServer.SuccessResponseReadBack | src/mcp_server.py:109-116 | The text is the heading, then the message, then a Data block exactly when data is not None, even when the data is empty. The JSON can be read back. |
| McpServer.ErrorAndSuccessDistinct | src/mcp_server.py:100-116 | An error text never starts like a success text, nor the other way round. |
| McpServer.QueryLimitBounds | src/mcp_server.py:234-236 | The limit passed on is `min(limit or 100, max)`. It lies in 1..max for every limit the request model lets through. |
| McpServer.CheckQuery | src/mcp_server.py:213-236 | The checks run in order and give exactly the query decision. |
| McpServer.QueryStepAnswer | src/mcp_server.py:219-232 | A stopped query is answered with an input error or an error text. |
| McpServer.QueryStepStopped | src/mcp_server.py:213-232 | A query stopped by a check sends nothing, keeps the client and reports no success. |
| McpServer.QueryTableChecksFirst | src/mcp_server.py:213-232 | Refused input gives "Input validation failed". Then refused filters give "Filter validation failed". In neither case is the database involved. Anything sent had passed both checks. |
| McpServer.QueryDecisionProceeds | src/mcp_server.py:213-236 | A query that passes proceeds with the stripped name, the caller's limit and filters, and the computed limit. |
| McpServer.SelectArgsPlan | src/mcp_server.py:239-245 | The select asked for covers every column, with one `eq` per filter and a `limit` only when the computed limit is positive. |
| McpServer.QueryStepSends | src/mcp_server.py:239-245 | A proceeding query sends at most the planned select. |
| McpServer.QueryStepLimited | src/mcp_server.py:236-245 | With a computed limit in 1..1000, the select carries exactly that limit. |
| McpServer.QueryStepUnlimited | src/mcp_server.py:236-245 | With a computed limit below 1, the select carries no limit at all. |
| McpServer.QueryTableProceeds | src/mcp_server.py:226-245 | When `query_table` reaches the database, it sends the select of the accepted request. |
| McpServer.QueryTableSendsBoundedSelect | src/mcp_server.py:234-245 | What is sent is one select of the stripped table, with one `eq` per filter and a limit in 1..max. |
| McpServer.NonPositiveMaximumDropsLimit | src/mcp_server.py:235-245 | A configured maximum below 1 makes the select have no limit. |
| McpServer.QueryTable | src/mcp_server.py:197-282 | The text, the client afterwards and the queries sent are those of the `query_table` specification. |
| McpServer.FirstOversized | src/mcp_server.py:516-521 | The offender found is a string longer than 10000 characters. None is found exactly when there is no such string. |
| McpServer.FindOversized | src/mcp_server.py:516-521 | The loop finds the first oversized value. |
| McpServer.ValidatedNeverOversized | src/mcp_server.py:508-521 | Values that pass the filter validator are never longer than the 10000-character bound. |
| McpServer.InsertDeadBranches | src/mcp_server.py:500-521 | The "no data" and "value too large" branches are unreachable. The insert proceeds if and only if the name fits, the data is not empty and the data passes the validator. |
| McpServer.CheckInsert | src/mcp_server.py:488-521 | The checks run in order and give exactly the insert decision. |
| McpServer.InsertStepAnswer | src/mcp_server.py:493-521 | A stopped insert is answered with an input error or an error text. |
| McpServer.InsertStepStopped | src/mcp_server.py:488-521 | An insert stopped by a check sends nothing, keeps the client and reports no success. |
| McpServer.InsertRecordStopped | src/mcp_server.py:488-521 | The same, stated on the tool's inputs. |
| McpServer.InsertDecisionProceeds | src/mcp_server.py:488-528 | An insert that passes proceeds with the stripped name and the caller's data. |
| McpServer.InsertArgsPlan | src/mcp_server.py:524-528 | The insert planned is the table, then the rows. |
| McpServer.InsertAnswerReportsData | src/mcp_server.py:530-551 | A successful answer carries the caller's data under "inserted_data". |
| McpServer.InsertStepSends | src/mcp_server.py:523-551 | A proceeding insert sends at most the request's rows, and a success means that they were sent and are reported. |
| McpServer.InsertSendsTheData | src/mcp_server.py:473-551 | Whatever `insert_record` sends is the caller's data into the stripped table, and a success reports that data. |
| McpServer.NotNullViolationWords | src/mcp_server.py:561-580 | PostgreSQL's not-null message is lower case and contains none of "duplicate", "unique", "foreign key" or "not null". |
| McpServer.NotNullViolationSaysNotNull | src/mcp_server.py:580 | That message does contain "not-null". |
| McpServer.NotNullViolationMissed | src/mcp_server.py:559-592 | As written, the not-null violation gets the generic answer. |
| McpServer.NotNullViolationRecognised | src/mcp_server.py:559-592 | The corrected classification recognises it. It agrees with the written one on every message without "not-null". |
| McpServer.InsertClassificationOrder | src/mcp_server.py:561-592 | The classification as written ignores case. A message containing "unique" is a duplicate even if it also names a foreign key. The generic answer is given exactly when none of "duplicate", "unique", "foreign key" and "not null" occurs. The corrected classification also ignores case. |
| McpServer.InsertFailureAnswer | src/mcp_server.py:559-592 | A failed insert is always answered with an error whose first detail is the database's message. The answer follows the classification as written. |
| McpServer.NotNullViolationAnsweredGenerically | src/mcp_server.py:559-592 | The insert tool answers PostgreSQL's not-null violation with "Database insertion failed" and the table, not with the missing-fields advice. |
| McpServer.InsertRecord | src/mcp_server.py:473-598 | The text, the client afterwards and the queries sent are those of the `insert_record` specification, which classifies failures as the source does. |
| McpServer.FirstProtected | src/mcp_server.py:674-684 | The column found is protected and present in the updates. None is found exactly when no protected column is present. |
| McpServer.ProtectedOrder | src/mcp_server.py:674-684 | The columns are tried in the order id, created_at, updated_at. |
| McpServer.FindProtected | src/mcp_server.py:674-684 | The loop finds the first protected column. |
| McpServer.UpdateChecks | src/mcp_server.py:630-684 | A proceeding update carries the accepted request unchanged. |
| McpServer.CheckUpdate | src/mcp_server.py:617-684 | The checks run in order and give exactly the update decision. |
| McpServer.UpdateCheckOrder | src/mcp_server.py:617-684 | The update proceeds if and only if five things hold: the name fits, the filters and updates are non-empty, both pass the validator, and no protected column is set. The oversized branch is unreachable. |
| McpServer.UpdateRefusalOrder | src/mcp_server.py:630-684 | The refusals come in order: filters before updates, and the filter check before the update check. The refused protected column is the first one present. |
| McpServer.ProtectedColumnFound | src/mcp_server.py:673-684 | The column named in the refusal is the one the search over the protected columns finds. |
| McpServer.UpdateStepAnswer | src/mcp_server.py:623-684 | A stopped update is answered with an input error or an error text. |
| McpServer.UpdateStepStopped | src/mcp_server.py:617-684 | An update stopped by a check sends nothing, keeps the client and reports no success. |
| McpServer.UpdateRecordStopped | src/mcp_server.py:617-684 | The same, stated on the tool's inputs. |
| McpServer.UpdateDecisionProceeds | src/mcp_server.py:617-684 | An update that passes proceeds with the stripped name and the caller's filters and updates. |
| McpServer.UpdateRecordProceeds | src/mcp_server.py:686-719 | A proceeding update is answered from one `execute_query("update")`. |
| McpServer.UpdateArgsPlan | src/mcp_server.py:686-692 | The update planned is the table, then the values to set, then one `eq` per filter. |
| McpServer.UpdateQuerySent | src/mcp_server.py:686-692 | A checked update sends at most that plan. |
| McpServer.UpdateSendsTargetedQuery | src/mcp_server.py:631-692 | Whatever `update_record` sends sets the caller's values on rows selected by at least one filter, and never sets a protected column. |
| McpServer.UpdateClassificationOrder | src/mcp_server.py:729-755 | The classification ignores case and tries "foreign key" first. It therefore disagrees with the insert tool when a message names both a foreign key and "unique". A check-constraint answer means that no earlier keyword occurs. |
| McpServer.UpdateRecord | src/mcp_server.py:601-766 | The text, the client afterwards and the queries sent are those of the `update_record` specification. |
| DescribeTable.SortByProperties | src/mcp_server.py:450 | `sorted` orders the keys and is a permutation of its input. |
| DescribeTable.SortByStable | src/mcp_server.py:450 | Elements with equal keys keep their order. |
| DescribeTable.ColumnBaseShape | src/mcp_server.py:408-414 | A column has name, type, nullable, default and position, in that order. Nullable is true if and only if `is_nullable` is "YES". Position defaults to 0. |
| DescribeTable.ColumnExtrasShape | src/mcp_server.py:416-423 | `max_length` is present only when truthy. `precision` is present only when truthy. `scale` is present only when both precision and scale are truthy. |
| DescribeTable.ColumnInfoShape | src/mcp_server.py:406-425 | The described column has the five fixed entries first, then the optional ones under exactly those conditions. |
| DescribeTable.ConstraintInfoShape | src/mcp_server.py:428-444 | A constraint has type, name and column. It has a reference if and only if the foreign table name is truthy. |
| DescribeTable.ShapeRows | src/mcp_server.py:406-444 | Reshaping succeeds if and only if every row is a dict, and then gives one description per row, in order. Otherwise it stops at the first row that is not a dict. |
| DescribeTable.ShapeEach | src/mcp_server.py:406-425 | The loop over the rows gives exactly that reshaping. |
| DescribeTable.SortByPositionFails | src/mcp_server.py:450 | Sorting fails if and only if there are two columns or more and one has no integer position. |
| DescribeTable.SortByPositionOrders | src/mcp_server.py:450 | A sort that succeeds orders by position, keeps every column, and keeps the order of equal positions. |
| DescribeTable.InferredSchemaShape | src/mcp_server.py:362-372 | There is one inferred column per sample entry, numbered from 1. It is nullable "YES" and of type "unknown" exactly when the value is None. |
| DescribeTable.InferEach | src/mcp_server.py:362-372 | The `enumerate` loop gives exactly the inferred columns. |
| DescribeTable.FallbackAnswerShape | src/mcp_server.py:358-397 | The fallback succeeds exactly when the sample query gives a first row that is a dict. A failed sample query is answered "Unable to describe" with the primary error. |
| DescribeTable.AnswerFromSample | src/mcp_server.py:358-397 | The method gives exactly the fallback answer. |
| DescribeTable.SchemaAnswerSucceeds | src/mcp_server.py:399-457 | The schema answer succeeds if and only if there are column rows, every row is a dict and the sort succeeds. It then reports the column count, the sorted columns and the constraints. |
| DescribeTable.SchemaAnswerSorted | src/mcp_server.py:446-457 | A successful answer reports one column per row, sorted stably by position, with none lost. |
| DescribeTable.AnswerFromSchema | src/mcp_server.py:399-457 | The method gives exactly the schema answer. |
| DescribeTable.DescribeChecksFirst | src/mcp_server.py:298-306 | A refused name is answered before the client is touched. A failing client creation gives the generic "Failed to describe" answer. |
| DescribeTable.FallbackOnlyAfterRpcFailure | src/mcp_server.py:342-359 | The sample query is sent if and only if three things hold: the name is valid, a client exists and a schema query failed. It is `select("*").limit(1)` on the table. |
| DescribeTable.Describe | src/mcp_server.py:285-470 | The text, the client afterwards and the queries sent are those of the `describe_table` specification. |

## Left out

- `list_tables` (src/mcp_server.py:119-195): it queries `information_schema` through the client and only reformats the rows. No decision of the validated core depends on it.
- `SupabaseManager.test_connection` (src/database.py:224-245): it is a health probe with no effect on state other than the lazy client.
- The `get_available_tools` fallback that scans the server's attributes (src/transport_base.py:117-131): it is reflection over Python objects. The model covers the `_tools` path.
- `mcp_info`, `health_check`, `start`, `_session_cleanup_loop`, and `stop` beyond emptying the session table (src/http_transport.py:217-234, 391-470): these are uvicorn and asyncio plumbing.
  - Cleanup is modelled as a call with an explicit `now`.
  - The cancellation of tasks is not modelled.
- Asynchrony: `run` and `_graceful_shutdown` are modelled sequentially. `_shutdown_event.wait()` becomes a step that ends normally, by a keyboard interrupt or by a failure.
- Logging, `load_dotenv`, the module-level `FastMCP` set-up, and setting the logging level from `LOG_LEVEL`: these have no effect on the answers.
- Floating-point values in JSON: `Value` has no float case.
- Text handling:
  - Upper and lower case and `\w` are ASCII only.
  - Unicode digits in `int()` are not accepted.
  - `repr` escapes the non-printable characters below U+0100 (C0 and C1 controls, DEL, the no-break space and the soft hyphen). Characters from U+0100 up are shown as they are, although Python also escapes the non-printable ones among them.
- pydantic's error texts, `json.dumps` and `urlparse` are parameters. Their output is not modelled. A `json.dumps` failure inside the SSE generator (src/http_transport.py:346-358) is therefore not modelled.
- JSON objects with duplicate keys: the decoder is assumed to give distinct keys.
- FastMCP's binding of JSON-RPC `params` to tool arguments: a handler is a function from the parameter dictionary to an outcome.
- HttpTransport.HttpTransport.constructor: inheritance from `TransportBase` is modelled by composition. The HTTP transport holds the registry. Host and port matter only to uvicorn and are left out.
- Database.SupabaseManager.constructor: it requires credentials that pass `_validate_credentials` instead of raising. The raising path is `CheckCredentials` and its lemmas.
- Database.SupabaseManager.ExecuteQuery: the `rpc` calls of `describe_table` are not entered in the manager's log of sent queries. Only table queries are logged.
- The tools' last `except Exception` handlers (src/mcp_server.py:277-282, 593-598, 761-766): every failure of `execute_query` is a ValueError or a RuntimeError, and both have their own handlers, which the model does answer. An exception of any other kind would come from code outside the model, such as the JSON rendering.
- DescribeTable.Describe:
  - The ValueError handler (src/mcp_server.py:459-464) cannot be reached: nothing in the model of the describe path raises ValueError.
  - The schema queries and the fallback use the table name as the caller wrote it. The source does the same.
- DescribeTable.SortByPosition: Python's comparison of positions that are not integers is not modelled. With two columns or more, any such position makes the sort fail with the `orderError` text, which is a parameter.
- McpServer.CheckQuery, McpServer.CheckInsert and McpServer.CheckUpdate: the inline checks at the top of each tool are separate methods, which the tool methods call.

## Findings

| source | as written | input that shows it | evidently intended | confidence | as-written member | corrected member |
|---|---|---|---|---|---|---|
| src/mcp_server.py:580 | A failed insert is reported as "missing required fields" only when the lower-cased message contains "not null", with a space. | PostgreSQL's message `null value in column "name" violates not-null constraint` contains "not-null", with a hyphen. It falls through to the generic "Database insertion failed" answer. | A not-null violation is reported as missing required fields. | medium, not executed | McpServer.NotNullViolationMissed | McpServer.NotNullViolationRecognised |

The model of `insert_record` keeps the classification as written, so its answers are the program's. The corrected classification is stated beside it, with its proof.
