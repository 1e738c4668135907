/** Validation of table names and column filters, the request models, and the Supabase manager
    with its lazily created client and its select/insert/update/delete query builders.
    The Supabase client is an oracle: creating it gives a handle or fails, and executing a built
    query (the sequence of builder calls) gives rows or fails. */
module Database {
  import opened Values
  import opened Text
  import opened SqlPatterns

  /** The `{"is_valid": …, "error": …}` dictionaries the validators return. */
  datatype Validation = Valid | Invalid(error: string)

  // ---------------------------------------------------------------- table names

  const EmptyTableNameError := "Table name cannot be empty"
  const TableNameFormatError := "Invalid table name format - only alphanumeric characters and underscores allowed"
  const SystemTableError := "Access to system tables/schemas not allowed: "

  /** The schemas and table-name prefixes that belong to Postgres and Supabase. */
  const SystemPrefixes: seq<string> :=
    ["pg_", "information_schema", "auth.", "storage.", "realtime.", "extensions.", "vault.", "supabase_"]

  /** The verdict on the lower-cased name given by the prefixes from index `k` on. */
  function PrefixVerdict(lower: string, k: nat): Validation
    decreases |SystemPrefixes| - k
  {
    if k >= |SystemPrefixes| then Valid
    else if StartsWith(lower, Lower(SystemPrefixes[k])) then Invalid(SystemTableError + SystemPrefixes[k])
    else PrefixVerdict(lower, k + 1)
  }

  /** What `validate_table_name` answers. */
  function TableNameVerdict(name: string): Validation {
    if IsBlank(name) then Invalid(EmptyTableNameError)
    else if !MatchesIdentifierPattern(name) then Invalid(TableNameFormatError)
    else PrefixVerdict(Lower(name), 0)
  }

  /** System tables, in the only forms an identifier can take. */
  predicate IsSystemIdentifier(name: string) {
    var lower := Lower(name);
    StartsWith(lower, "pg_") || StartsWith(lower, "information_schema") || StartsWith(lower, "supabase_")
  }

  /** `validate_table_name`: blank names, then malformed names, then system prefixes are refused. */
  method ValidateTableName(name: string) returns (v: Validation)
    ensures v == TableNameVerdict(name)
  {
    if IsBlank(name) {
      return Invalid(EmptyTableNameError);
    }
    if !MatchesIdentifierPattern(name) {
      return Invalid(TableNameFormatError);
    }
    var lower := Lower(name);
    var k := 0;
    while k < |SystemPrefixes|
      invariant 0 <= k <= |SystemPrefixes|
      invariant PrefixVerdict(lower, k) == PrefixVerdict(lower, 0)
    {
      var prefix := SystemPrefixes[k];
      if StartsWith(lower, Lower(prefix)) {
        return Invalid(SystemTableError + prefix);
      }
      k := k + 1;
    }
    return Valid;
  }

  /** A name that fits the identifier pattern has no dot in its lower-case form. */
  lemma LowerIdentifierHasNoDot(name: string, i: int)
    requires MatchesIdentifierPattern(name) && 0 <= i < |name|
    ensures Lower(name)[i] != '.'
  {
    if !IsIdentifier(name) && i == |name| - 1 {
      assert name[i] == '\n';
    } else if !IsIdentifier(name) {
      assert name[i] == name[..|name| - 1][i];
    }
  }

  /** Only three of the eight prefixes can ever refuse a name: the dotted ones would need a dot,
      which the identifier pattern has already excluded. */
  lemma {:induction false} DottedPrefixesNeverFire(name: string, k: nat)
    requires MatchesIdentifierPattern(name) && 2 <= k <= 6
    ensures PrefixVerdict(Lower(name), k) == PrefixVerdict(Lower(name), 7)
    decreases 7 - k
  {
    var lower := Lower(name);
    var p := SystemPrefixes[k];
    assert Lower(p) == p;
    var dot := |p| - 1;
    assert p[dot] == '.';
    if StartsWith(lower, p) {
      assert lower[dot] == p[dot];
      LowerIdentifierHasNoDot(name, dot);
    }
    if k < 6 {
      DottedPrefixesNeverFire(name, k + 1);
    }
  }

  /** The three prefixes an identifier can start with are already in lower case. */
  lemma SystemPrefixesLower()
    ensures Lower(SystemPrefixes[0]) == "pg_"
    ensures Lower(SystemPrefixes[1]) == "information_schema"
    ensures Lower(SystemPrefixes[7]) == "supabase_"
  {
    LowerOfLowercase("pg_");
    LowerOfLowercase("information_schema");
    LowerOfLowercase("supabase_");
  }

  /** One prefix of the scan: it refuses the name, or the scan goes on. */
  lemma PrefixStep(lower: string, k: nat)
    requires k < |SystemPrefixes|
    ensures PrefixVerdict(lower, k) == Valid <==>
      !StartsWith(lower, Lower(SystemPrefixes[k])) && PrefixVerdict(lower, k + 1) == Valid
  {
  }

  /** A table name is accepted exactly when it fits the identifier pattern and does not begin,
      in any case, with `pg_`, `information_schema` or `supabase_`. */
  lemma TableNameValidIff(name: string)
    ensures TableNameVerdict(name) == Valid <==> MatchesIdentifierPattern(name) && !IsSystemIdentifier(name)
  {
    if MatchesIdentifierPattern(name) {
      PatternMatchStripsToIdentifier(name);
      var lower := Lower(name);
      assert TableNameVerdict(name) == PrefixVerdict(lower, 0);
      SystemPrefixesLower();
      PrefixStep(lower, 0);
      PrefixStep(lower, 1);
      DottedPrefixesNeverFire(name, 2);
      PrefixStep(lower, 7);
      assert PrefixVerdict(lower, 8) == Valid;
    }
  }

  /** An identifier whose first letter cannot begin a system prefix is accepted. */
  lemma PlainIdentifierAccepted(name: string)
    requires IsIdentifier(name) && LowerChar(name[0]) != 'p' && LowerChar(name[0]) != 'i' && LowerChar(name[0]) != 's'
    ensures TableNameVerdict(name) == Valid
  {
    var lower := Lower(name);
    assert lower[0] == LowerChar(name[0]);
    assert !StartsWith(lower, "pg_") && !StartsWith(lower, "information_schema") && !StartsWith(lower, "supabase_");
    TableNameValidIff(name);
  }

  /** Names the validator is known to accept. */
  lemma AcceptedTableNames()
    ensures TableNameVerdict("users") == Valid
    ensures TableNameVerdict("_private_table") == Valid
  {
    assert IsIdentifier("users");
    PlainIdentifierAccepted("users");
    assert IsIdentifier("_private_table");
    PlainIdentifierAccepted("_private_table");
  }

  /** Blank and malformed names are refused with their own messages. */
  lemma MalformedTableNames()
    ensures TableNameVerdict("   ") == Invalid(EmptyTableNameError)
    ensures TableNameVerdict("user-profiles") == Invalid(TableNameFormatError)
    ensures TableNameVerdict("123users") == Invalid(TableNameFormatError)
  {
    assert !IsBlank("user-profiles") by { assert !IsSpace("user-profiles"[0]); }
    assert !IsIdentifier("user-profiles") by { assert "user-profiles"[4] == '-'; }
    assert !IsIdentifier("user-profiles"[..12]) by { assert "user-profiles"[..12][4] == '-'; }
    assert !IsBlank("123users") by { assert !IsSpace("123users"[0]); }
  }

  /** System tables are refused, naming the prefix that matched. */
  lemma PostgresTableName()
    ensures TableNameVerdict("pg_user") == Invalid(SystemTableError + "pg_")
  {
    assert !IsBlank("pg_user") by { assert !IsSpace("pg_user"[0]); }
    assert IsIdentifier("pg_user");
    assert Lower("pg_user")[..3] == "pg_";
  }

  /** An identifier that begins with `supabase_` in any case is refused under that prefix. */
  lemma SupabasePrefixRefused(name: string)
    requires IsIdentifier(name) && StartsWith(Lower(name), "supabase_")
    ensures TableNameVerdict(name) == Invalid(SystemTableError + "supabase_")
  {
    PatternMatchStripsToIdentifier(name);
    var lower := Lower(name);
    assert lower[0] == "supabase_"[0] == 's';
    SystemPrefixesLower();
    assert !StartsWith(lower, "pg_") && !StartsWith(lower, "information_schema");
    assert PrefixVerdict(lower, 0) == PrefixVerdict(lower, 2);
    DottedPrefixesNeverFire(name, 2);
  }

  /** The prefix test ignores case. */
  lemma SupabaseTableName()
    ensures TableNameVerdict("Supabase_users") == Invalid(SystemTableError + "supabase_")
  {
    var s := "Supabase_users";
    assert IsIdentifier(s);
    assert Lower(s)[..9] == "supabase_";
    SupabasePrefixRefused(s);
  }

  // ---------------------------------------------------------------- column filters

  const ColumnNameError := "Invalid column name format: "
  const DangerousPatternError := "Potentially dangerous pattern detected in filter: "
  const ValueTooLongError := "Filter value too long for column: "

  /** The longest string filter value that is let through. */
  const MaxFilterValueLength := 1000

  /** The complaint about one entry of a filter dictionary, in the order the checks run. */
  function EntryProblem(key: string, value: Value): Option<string> {
    if !MatchesIdentifierPattern(key) then Some(ColumnNameError + key)
    else if value.Str? && IsDangerous(value.s) then Some(DangerousPatternError + key)
    else if value.Str? && |value.s| > MaxFilterValueLength then Some(ValueTooLongError + key)
    else None
  }

  /** What `validate_column_filters` answers. */
  function FiltersVerdict(filters: Entries): Validation {
    if |filters| == 0 then Valid
    else match EntryProblem(filters[0].0, filters[0].1)
      case Some(e) => Invalid(e)
      case None => FiltersVerdict(filters[1..])
  }

  /** An entry that no check objects to, stated without reference to the order of the checks. */
  predicate AcceptableEntry(entry: (string, Value)) {
    && MatchesIdentifierPattern(entry.0)
    && (entry.1.Str? ==> !IsDangerous(entry.1.s) && |entry.1.s| <= MaxFilterValueLength)
  }

  /** Entry `i` is the first one that some check objects to. */
  predicate FirstOffenderAt(filters: Entries, i: int) {
    && 0 <= i < |filters|
    && !AcceptableEntry(filters[i])
    && forall j | 0 <= j < i :: AcceptableEntry(filters[j])
  }

  /** `validate_column_filters`: each entry in turn, its key first, then (for a string) each
      dangerous pattern in turn, then the length of the string. */
  method ValidateColumnFilters(filters: Entries) returns (v: Validation)
    ensures v == FiltersVerdict(filters)
  {
    if |filters| == 0 {
      return Valid;
    }
    var i := 0;
    while i < |filters|
      invariant 0 <= i <= |filters|
      invariant FiltersVerdict(filters[i..]) == FiltersVerdict(filters)
    {
      var (key, value) := filters[i];
      assert filters[i..][0] == filters[i] && filters[i..][1..] == filters[i + 1..];
      if !MatchesIdentifierPattern(key) {
        return Invalid(ColumnNameError + key);
      }
      if value.Str? {
        var k := 0;
        while k < |DangerousPatterns|
          invariant 0 <= k <= |DangerousPatterns|
          invariant forall j | 0 <= j < k :: !Search(DangerousPatterns[j], value.s)
        {
          if Search(DangerousPatterns[k], value.s) {
            return Invalid(DangerousPatternError + key);
          }
          k := k + 1;
        }
      }
      if value.Str? && |value.s| > MaxFilterValueLength {
        return Invalid(ValueTooLongError + key);
      }
      i := i + 1;
    }
    return Valid;
  }

  /** Filters pass exactly when every entry is acceptable; when they do not, the error names
      the first offending entry in iteration order. */
  lemma {:induction false} FiltersVerdictFirstOffender(filters: Entries)
    ensures FiltersVerdict(filters).Valid? <==> forall i | 0 <= i < |filters| :: AcceptableEntry(filters[i])
    ensures FiltersVerdict(filters).Invalid? ==>
              exists i :: FirstOffenderAt(filters, i) &&
                FiltersVerdict(filters) == Invalid(EntryProblem(filters[i].0, filters[i].1).value)
  {
    if |filters| > 0 {
      var rest := filters[1..];
      FiltersVerdictFirstOffender(rest);
      var head := filters[0];
      assert EntryProblem(head.0, head.1).None? <==> AcceptableEntry(head);
      if AcceptableEntry(head) {
        forall i | 0 <= i < |filters| && (forall j | 0 <= j < |rest| :: AcceptableEntry(rest[j]))
          ensures AcceptableEntry(filters[i])
        {
          if i > 0 { assert filters[i] == rest[i - 1]; }
        }
        if FiltersVerdict(filters).Invalid? {
          var i :| FirstOffenderAt(rest, i) &&
                   FiltersVerdict(rest) == Invalid(EntryProblem(rest[i].0, rest[i].1).value);
          assert filters[i + 1] == rest[i];
          forall j | 0 <= j < i + 1 ensures AcceptableEntry(filters[j]) {
            if j > 0 { assert filters[j] == rest[j - 1]; }
          }
          assert FirstOffenderAt(filters, i + 1);
        } else {
          forall i | 0 <= i < |rest| ensures AcceptableEntry(rest[i]) {
            assert rest[i] == filters[i + 1];
          }
        }
      } else {
        assert FirstOffenderAt(filters, 0);
      }
    }
  }

  /** A filter dictionary that passes has only identifier keys and only safe, short strings. */
  lemma ValidFiltersAreSafe(filters: Entries, i: int)
    requires FiltersVerdict(filters) == Valid && 0 <= i < |filters|
    ensures MatchesIdentifierPattern(filters[i].0)
    ensures filters[i].1.Str? ==> !IsDangerous(filters[i].1.s) && |filters[i].1.s| <= MaxFilterValueLength
  {
    FiltersVerdictFirstOffender(filters);
    assert AcceptableEntry(filters[i]);
  }

  /** Numbers, booleans, null, lists and nested dictionaries are never refused as values. */
  lemma NonStringValuesNeverFail(filters: Entries)
    requires forall i | 0 <= i < |filters| :: MatchesIdentifierPattern(filters[i].0) && !filters[i].1.Str?
    ensures FiltersVerdict(filters) == Valid
  {
    FiltersVerdictFirstOffender(filters);
  }

  /** A single character that cannot begin a match of any dangerous pattern. */
  predicate InertChar(c: char) {
    c != ';' && c != '/' && LowerChar(c) !in "oeusx"
  }

  /** A word that starts with one of the letters `InertChar` excludes occurs nowhere in an inert string. */
  lemma NoWordInInert(s: string, i: int, w: string)
    requires forall k | 0 <= k < |s| :: InertChar(s[k])
    requires |w| > 0 && w[0] in "oeusx"
    ensures !WordAt(s, i, w)
  {
    if 0 <= i && i + |w| <= |s| {
      assert Lower(s[i..i + |w|])[0] == LowerChar(s[i]);
    }
  }

  /** No keyword, procedure prefix, comment opener or semicolon occurs in an inert string. */
  lemma InertOpenersMissing(s: string)
    requires forall i | 0 <= i < |s| :: InertChar(s[i])
    ensures forall i | 0 <= i < |s| ::
      && s[i] != ';'
      && !WordAt(s, i, "or") && !WordAt(s, i, "union") && !WordAt(s, i, "exec")
      && !WordAt(s, i, "sp_") && !WordAt(s, i, "xp_")
      && !OccursAt(s, i, "/*")
  {
    forall i | 0 <= i < |s|
      ensures !WordAt(s, i, "or") && !WordAt(s, i, "union") && !WordAt(s, i, "exec")
      ensures !WordAt(s, i, "sp_") && !WordAt(s, i, "xp_")
      ensures !OccursAt(s, i, "/*")
    {
      NoWordInInert(s, i, "or");
      NoWordInInert(s, i, "union");
      NoWordInInert(s, i, "exec");
      NoWordInInert(s, i, "sp_");
      NoWordInInert(s, i, "xp_");
      if i + 2 <= |s| {
        assert s[i..i + 2][0] == s[i];
      }
    }
  }

  /** Each pattern of the list misses an inert string. */
  lemma InertPatternMissed(s: string, k: int)
    requires forall i | 0 <= i < |s| :: InertChar(s[i])
    requires !Contains(s, "--")
    requires 0 <= k < |DangerousPatterns|
    ensures !Search(DangerousPatterns[k], s)
  {
    InertOpenersMissing(s);
  }

  /** Values built only from characters that cannot begin a match (digits, most punctuation,
      most letters) and holding no double hyphen are never flagged. */
  lemma InertValueNotDangerous(s: string)
    requires forall i | 0 <= i < |s| :: InertChar(s[i])
    requires !Contains(s, "--")
    ensures !IsDangerous(s)
  {
    forall k | 0 <= k < |DangerousPatterns| ensures !Search(DangerousPatterns[k], s) {
      InertPatternMissed(s, k);
    }
  }

  lemma NoDoubleHyphen(s: string)
    requires forall i | 0 <= i < |s| - 1 :: !(s[i] == '-' && s[i + 1] == '-')
    ensures !Contains(s, "--")
  {
    forall i | 0 <= i <= |s| - 2 ensures !OccursAt(s, i, "--") {
      assert s[i..i + 2][0] == s[i] && s[i..i + 2][1] == s[i + 1];
    }
  }

  /** Filter dictionaries the validator is known to accept: plain numbers, booleans and dates. */
  lemma AcceptedFilters()
    ensures FiltersVerdict([]) == Valid
    ensures FiltersVerdict([("age", Int(25)), ("active", Bool(true))]) == Valid
    ensures FiltersVerdict([("created_at", Str("2024-01-01"))]) == Valid
  {
    assert IsIdentifier("age") && IsIdentifier("active") && IsIdentifier("created_at");
    NonStringValuesNeverFail([("age", Int(25)), ("active", Bool(true))]);
    var date := "2024-01-01";
    NoDoubleHyphen(date);
    InertValueNotDangerous(date);
  }

  /** A malformed key, an injection attempt and an over-long value are each refused, and the
      message names the key. */
  lemma RefusedFilters()
    ensures FiltersVerdict([("user-name", Str("John"))]) == Invalid(ColumnNameError + "user-name")
    ensures FiltersVerdict([("id", Str("1 OR 1=1"))]) == Invalid(DangerousPatternError + "id")
    ensures FiltersVerdict([("name", Str(seq(1001, _ => 'a')))]) == Invalid(ValueTooLongError + "name")
  {
    assert !IsIdentifier("user-name") by { assert "user-name"[4] == '-'; }
    assert !IsIdentifier("user-name"[..8]) by { assert "user-name"[..8][4] == '-'; }
    assert IsIdentifier("id") && IsIdentifier("name");
    TautologyCaught();
    var long: string := seq(1001, _ => 'a');
    NoDoubleHyphen(long);
    InertValueNotDangerous(long);
  }

  // ---------------------------------------------------------------- request models

  /** The field constraints a request model can report, in field order. */
  datatype FieldError =
    | TableNameTooShort   // min_length=1
    | TableNameFormat     // the identifier-pattern field validator
    | LimitBelowMinimum   // ge=1
    | LimitAboveMaximum   // le=1000
    | DataEmpty           // the non-empty validator on `data`

  /** A model built from its fields, or the list of field errors (pydantic's ValidationError). */
  datatype Checked<T> = Accepted(value: T) | Rejected(errors: seq<FieldError>)

  datatype TableQueryRequest = TableQueryRequest(tableName: string, limit: Option<int>, filters: Entries)

  datatype RecordInsertRequest = RecordInsertRequest(tableName: string, data: Entries)

  datatype RecordUpdateRequest = RecordUpdateRequest(tableName: string, filters: Entries, updates: Entries)

  const MaxModelLimit := 1000

  /** The errors of the `table_name` field: the length constraint, then the pattern. */
  function TableNameErrors(name: string): seq<FieldError> {
    if |name| < 1 then [TableNameTooShort]
    else if !MatchesIdentifierPattern(name) then [TableNameFormat]
    else []
  }

  function LimitErrors(limit: Option<int>): seq<FieldError> {
    match limit
    case None => []
    case Some(n) => if n < 1 then [LimitBelowMinimum] else if n > MaxModelLimit then [LimitAboveMaximum] else []
  }

  /** `TableQueryRequest(table_name=…, limit=…, filters=…)`. */
  function NewTableQueryRequest(name: string, limit: Option<int>, filters: Entries): (r: Checked<TableQueryRequest>)
    ensures r.Accepted? <==> MatchesIdentifierPattern(name) && (limit.Some? ==> 1 <= limit.value <= MaxModelLimit)
    ensures r.Accepted? ==> IsIdentifier(r.value.tableName) && r.value.tableName == Strip(name)
    ensures r.Accepted? ==> r.value.limit == limit && r.value.filters == filters
  {
    var errors := TableNameErrors(name) + LimitErrors(limit);
    if errors == [] then
      PatternMatchStripsToIdentifier(name);
      Accepted(TableQueryRequest(Strip(name), limit, filters))
    else Rejected(errors)
  }

  /** `RecordInsertRequest(table_name=…, data=…)`. */
  function NewRecordInsertRequest(name: string, data: Entries): (r: Checked<RecordInsertRequest>)
    ensures r.Accepted? <==> MatchesIdentifierPattern(name) && |data| > 0
    ensures r.Accepted? ==> IsIdentifier(r.value.tableName) && r.value.tableName == Strip(name)
    ensures r.Accepted? ==> r.value.data == data
  {
    var errors := TableNameErrors(name) + (if |data| == 0 then [DataEmpty] else []);
    if errors == [] then
      PatternMatchStripsToIdentifier(name);
      Accepted(RecordInsertRequest(Strip(name), data))
    else Rejected(errors)
  }

  /** `RecordUpdateRequest(table_name=…, filters=…, updates=…)`: empty dictionaries are allowed. */
  function NewRecordUpdateRequest(name: string, filters: Entries, updates: Entries): (r: Checked<RecordUpdateRequest>)
    ensures r.Accepted? <==> MatchesIdentifierPattern(name)
    ensures r.Accepted? ==> IsIdentifier(r.value.tableName) && r.value.tableName == Strip(name)
    ensures r.Accepted? ==> r.value.filters == filters && r.value.updates == updates
  {
    if TableNameErrors(name) == [] then
      PatternMatchStripsToIdentifier(name);
      Accepted(RecordUpdateRequest(Strip(name), filters, updates))
    else Rejected(TableNameErrors(name))
  }

  /** Every error the query model reports is about a field that is actually wrong, and both
      fields are reported when both are wrong. */
  lemma TableQueryErrorsAreExact(name: string, limit: Option<int>)
    requires NewTableQueryRequest(name, limit, []).Rejected?
    ensures var errs := NewTableQueryRequest(name, limit, []).errors;
      && (TableNameTooShort in errs <==> name == "")
      && (TableNameFormat in errs <==> name != "" && !MatchesIdentifierPattern(name))
      && (LimitBelowMinimum in errs <==> limit.Some? && limit.value < 1)
      && (LimitAboveMaximum in errs <==> limit.Some? && limit.value > MaxModelLimit)
  {
  }

  // ---------------------------------------------------------------- credentials

  datatype CredentialCheck =
    | CredentialsOk(warnsNotSupabase: bool)
    | CredentialsRejected(message: string)

  /** `_validate_credentials`: the first failing check raises; a URL outside `.supabase.co`
      only produces a warning. */
  function CheckCredentials(url: string, key: string): CredentialCheck {
    if IsBlank(url) then CredentialsRejected("SUPABASE_URL is required")
    else if IsBlank(key) then CredentialsRejected("SUPABASE_ANON_KEY is required")
    else if !StartsWith(url, "https://") then CredentialsRejected("SUPABASE_URL must be a valid HTTPS URL")
    else CredentialsOk(!Contains(url, ".supabase.co"))
  }

  /** Credentials are accepted exactly when both are present and the URL is an https one; the
      Supabase domain is never required. */
  lemma CredentialsAcceptedIff(url: string, key: string)
    ensures CheckCredentials(url, key).CredentialsOk? <==> StartsWith(url, "https://") && !IsBlank(key)
  {
    if StartsWith(url, "https://") {
      assert !IsSpace(url[0]);
    }
  }

  /** The order of the checks, as the known cases show it. */
  lemma CredentialSamples()
    ensures CheckCredentials("", "test-key") == CredentialsRejected("SUPABASE_URL is required")
    ensures CheckCredentials("https://test.supabase.co", "") == CredentialsRejected("SUPABASE_ANON_KEY is required")
    ensures CheckCredentials("http://test.com", "test-key") == CredentialsRejected("SUPABASE_URL must be a valid HTTPS URL")
    ensures CheckCredentials("http://test.com", "") == CredentialsRejected("SUPABASE_ANON_KEY is required")
  {
    NotBlankAt("https://test.supabase.co", 0);
    NotBlankAt("http://test.com", 0);
    NotBlankAt("test-key", 0);
    assert !StartsWith("http://test.com", "https://") by { assert "http://test.com"[..8][4] != "https://"[4]; }
  }

  /** A URL outside the Supabase domain is accepted, with only a warning. */
  lemma ForeignDomainOnlyWarns()
    ensures CheckCredentials("https://example.com", "k") == CredentialsOk(true)
  {
    var u := "https://example.com";
    assert !IsBlank(u) by { assert !IsSpace(u[0]); }
    assert !IsBlank("k") by { assert !IsSpace("k"[0]); }
    assert u[..8] == "https://";
    MissingCharNotContained(u, ".supabase.co", 5);
  }

  // ---------------------------------------------------------------- the client and its queries

  /** A Supabase client, as a handle. */
  datatype ClientHandle = ClientHandle(id: nat)

  /** What `create_client(url, key)` does when it is called. */
  datatype ClientInit = Created(client: ClientHandle) | ReturnedNothing | InitFailed(reason: string)

  /** One call on the query builder. */
  datatype Call =
    | From(table: string)
    | Select(columns: string)
    | Eq(column: string, value: Value)
    | Limit(count: int)
    | Order(column: string)
    | Insert(data: Entries)
    | Update(values: Entries)
    | Delete

  /** What `.execute()` gives for a built query. */
  datatype Reply = Rows(rows: seq<Value>) | DbFailed(reason: string)

  /** The database as the server sees it. */
  datatype Backend = Backend(connect: ClientInit, run: seq<Call> -> Reply)

  datatype Exc = ValueError(message: string) | RuntimeError(message: string)

  datatype Outcome<T> = Ok(value: T) | Raised(exc: Exc)

  /** The `limit` keyword of `execute_query`: left out, or `None` or a non-integer, or an int. */
  datatype LimitArg = DefaultLimit | NoLimit | LimitOf(n: int)

  /** The keyword arguments of `execute_query`; a missing or `None` dictionary is empty. */
  datatype QueryArgs = QueryArgs(
    columns: string,
    filters: Entries,
    limit: LimitArg,
    orderBy: Option<string>,
    data: Entries,
    updates: Entries)

  const NoArgs := QueryArgs("*", [], DefaultLimit, None, [], [])

  const DefaultSelectLimit := 100
  const MaxSelectLimit := 1000

  /** One `eq(key, value)` per filter entry, in order. */
  function EqCalls(filters: Entries): (r: seq<Call>)
    ensures |r| == |filters|
    ensures forall i | 0 <= i < |filters| :: r[i] == Eq(filters[i].0, filters[i].1)
  {
    if |filters| == 0 then []
    else EqCalls(filters[..|filters| - 1]) + [Eq(filters[|filters| - 1].0, filters[|filters| - 1].1)]
  }

  function Min(a: int, b: int): int {
    if a <= b then a else b
  }

  /** The `limit(...)` call of a select: only for a positive int, capped at 1000. */
  function LimitCalls(limit: LimitArg): seq<Call> {
    match limit
    case DefaultLimit => [Limit(DefaultSelectLimit)]
    case NoLimit => []
    case LimitOf(n) => if n > 0 then [Limit(Min(n, MaxSelectLimit))] else []
  }

  function OrderCalls(orderBy: Option<string>): seq<Call> {
    if orderBy.Some? && orderBy.value != "" then [Order(orderBy.value)] else []
  }

  /** A filter dictionary that the builders refuse, with the validator's message. */
  function FilterFailure(filters: Entries): Option<Exc> {
    match FiltersVerdict(filters)
    case Valid => None
    case Invalid(e) => Some(ValueError(e))
  }

  function SelectPlan(table: string, args: QueryArgs): Outcome<seq<Call>> {
    if |args.filters| > 0 && FilterFailure(args.filters).Some? then Raised(FilterFailure(args.filters).value)
    else Ok([From(table), Select(args.columns)] + EqCalls(args.filters) + LimitCalls(args.limit) + OrderCalls(args.orderBy))
  }

  function InsertPlan(table: string, args: QueryArgs): Outcome<seq<Call>> {
    if |args.data| == 0 then Raised(ValueError("Data is required for insert operation"))
    else Ok([From(table), Insert(args.data)])
  }

  function UpdatePlan(table: string, args: QueryArgs): Outcome<seq<Call>> {
    if |args.filters| == 0 then Raised(ValueError("Filters are required for update operation"))
    else if |args.updates| == 0 then Raised(ValueError("Updates are required for update operation"))
    else if FilterFailure(args.filters).Some? then Raised(FilterFailure(args.filters).value)
    else if FilterFailure(args.updates).Some? then Raised(FilterFailure(args.updates).value)
    else Ok([From(table), Update(args.updates)] + EqCalls(args.filters))
  }

  function DeletePlan(table: string, args: QueryArgs): Outcome<seq<Call>> {
    if |args.filters| == 0 then Raised(ValueError("Filters are required for delete operation"))
    else if FilterFailure(args.filters).Some? then Raised(FilterFailure(args.filters).value)
    else Ok([From(table), Delete] + EqCalls(args.filters))
  }

  /** The dispatch on the operation name. */
  function Plan(table: string, operation: string, args: QueryArgs): Outcome<seq<Call>> {
    if operation == "select" then SelectPlan(table, args)
    else if operation == "insert" then InsertPlan(table, args)
    else if operation == "update" then UpdatePlan(table, args)
    else if operation == "delete" then DeletePlan(table, args)
    else Raised(ValueError("Unsupported operation: " + operation))
  }

  /** `get_client`: the stored client, or a new one when none is stored yet. */
  function ClientStep(client: Option<ClientHandle>, connect: ClientInit): (Option<ClientHandle>, Outcome<ClientHandle>) {
    if client.Some? then (client, Ok(client.value))
    else match connect
      case Created(c) => (Some(c), Ok(c))
      case ReturnedNothing => (None, Raised(RuntimeError("Failed to initialize Supabase client")))
      case InitFailed(reason) => (None, Raised(RuntimeError("Supabase client initialization failed: " + reason)))
  }

  /** The effect of one `execute_query`: the client afterwards, the queries sent, and the result. */
  datatype QueryRun = QueryRun(client: Option<ClientHandle>, sent: seq<seq<Call>>, result: Outcome<seq<Value>>)

  const OperationFailed := "Database operation failed: "

  function RunQuery(client: Option<ClientHandle>, table: string, operation: string, args: QueryArgs, backend: Backend): QueryRun {
    match TableNameVerdict(table)
    case Invalid(e) => QueryRun(client, [], Raised(ValueError(e)))
    case Valid =>
      var (client', got) := ClientStep(client, backend.connect);
      if got.Raised? then QueryRun(client', [], Raised(RuntimeError(OperationFailed + got.exc.message)))
      else match Plan(table, operation, args)
        case Raised(e) => QueryRun(client', [], Raised(e))
        case Ok(calls) =>
          match backend.run(calls)
          case Rows(rows) => QueryRun(client', [calls], Ok(rows))
          case DbFailed(reason) => QueryRun(client', [calls], Raised(RuntimeError(OperationFailed + reason)))
  }

  /** Once a client has been obtained, every later `get_client` returns that same client, whatever
      creating a client would do by then. */
  lemma ClientCreatedAtMostOnce(client: Option<ClientHandle>, first: ClientInit, later: ClientInit)
    requires ClientStep(client, first).1.Ok?
    ensures ClientStep(client, first).0 == Some(ClientStep(client, first).1.value)
    ensures ClientStep(ClientStep(client, first).0, later) == ClientStep(client, first)
  {
  }

  /** A refused table name raises ValueError before the client is touched or anything is sent. */
  lemma InvalidTableTouchesNothing(client: Option<ClientHandle>, table: string, op: string, args: QueryArgs, backend: Backend)
    requires TableNameVerdict(table).Invalid?
    ensures RunQuery(client, table, op, args, backend) == QueryRun(client, [], Raised(ValueError(TableNameVerdict(table).error)))
  {
  }

  /** Nothing is sent unless the table name is valid, the client exists and the operation's own
      checks pass; then exactly the planned query is sent, and a result comes back only for it. */
  lemma RunQueryOutcomes(client: Option<ClientHandle>, table: string, op: string, args: QueryArgs, backend: Backend)
    ensures var run := RunQuery(client, table, op, args, backend);
      && |run.sent| <= 1
      && (|run.sent| == 1 <==> TableNameVerdict(table) == Valid && run.client.Some? && Plan(table, op, args).Ok?)
      && (|run.sent| == 1 ==> Plan(table, op, args) == Ok(run.sent[0]))
      && (run.result.Ok? ==> |run.sent| == 1)
      && (run.client.Some? || client.None?)
      && (client.Some? ==> run.client == client)
  {
  }

  /** The builders refuse only with ValueErrors. */
  lemma PlanRaisesValueError(table: string, op: string, args: QueryArgs)
    ensures Plan(table, op, args).Raised? ==> Plan(table, op, args).exc.ValueError?
  {
  }

  lemma PrefixOfConcat(a: string, b: string)
    ensures StartsWith(a + b, a)
  {
    assert (a + b)[..|a|] == a;
  }

  /** A failure other than a ValueError always comes back wrapped as a RuntimeError that says the
      operation failed. */
  lemma RunQueryWrapsFailures(client: Option<ClientHandle>, table: string, op: string, args: QueryArgs, backend: Backend)
    ensures var run := RunQuery(client, table, op, args, backend);
      run.result.Raised? && run.result.exc.RuntimeError? ==> StartsWith(run.result.exc.message, OperationFailed)
  {
    if TableNameVerdict(table) == Valid {
      var (client', got) := ClientStep(client, backend.connect);
      PlanRaisesValueError(table, op, args);
      if got.Raised? {
        PrefixOfConcat(OperationFailed, got.exc.message);
      } else if Plan(table, op, args).Ok? {
        var calls := Plan(table, op, args).value;
        if backend.run(calls).DbFailed? {
          PrefixOfConcat(OperationFailed, backend.run(calls).reason);
        }
      }
    }
  }

  /** An operation name outside the four raises "Unsupported operation", and only after the client
      has been obtained. */
  lemma UnsupportedOperation(client: ClientHandle, table: string, op: string, args: QueryArgs, backend: Backend)
    requires TableNameVerdict(table) == Valid
    requires op !in {"select", "insert", "update", "delete"}
    ensures RunQuery(Some(client), table, op, args, backend)
         == QueryRun(Some(client), [], Raised(ValueError("Unsupported operation: " + op)))
  {
  }

  /** A select sends at most one `limit`, and its count lies in 1..1000. */
  lemma SelectLimitBounded(table: string, args: QueryArgs, i: int)
    requires SelectPlan(table, args).Ok? && 0 <= i < |SelectPlan(table, args).value|
    requires SelectPlan(table, args).value[i].Limit?
    ensures 1 <= SelectPlan(table, args).value[i].count <= MaxSelectLimit
    ensures args.limit.LimitOf? ==> SelectPlan(table, args).value[i].count == Min(args.limit.n, MaxSelectLimit)
    ensures args.limit.DefaultLimit? ==> SelectPlan(table, args).value[i].count == DefaultSelectLimit
  {
    var head := [From(table), Select(args.columns)] + EqCalls(args.filters);
    var plan := SelectPlan(table, args).value;
    assert plan == head + LimitCalls(args.limit) + OrderCalls(args.orderBy);
  }

  /** Update and delete always name at least one row condition; insert always sends data. */
  lemma WritesAreTargeted(table: string, args: QueryArgs)
    ensures UpdatePlan(table, args).Ok? ==>
      |args.filters| > 0 && |args.updates| > 0 && FiltersVerdict(args.filters) == Valid && FiltersVerdict(args.updates) == Valid
    ensures DeletePlan(table, args).Ok? ==> |args.filters| > 0 && FiltersVerdict(args.filters) == Valid
    ensures InsertPlan(table, args).Ok? ==> |args.data| > 0
  {
  }

  /** `SupabaseManager`: its credentials, its lazily created client, and the queries it has sent. */
  class SupabaseManager {
    const url: string
    const key: string
    var client: Option<ClientHandle>
    var sent: seq<seq<Call>>

    /** The constructor runs `_validate_credentials`; a manager exists only for credentials that
        pass it (see `CheckCredentials` for the raising case). */
    constructor (url: string, key: string)
      requires CheckCredentials(url, key).CredentialsOk?
      ensures this.url == url && this.key == key && client == None && sent == []
    {
      this.url := url;
      this.key := key;
      client := None;
      sent := [];
    }

    /** `get_client`, which calls `initialize` when no client is stored. */
    method GetClient(connect: ClientInit) returns (r: Outcome<ClientHandle>)
      modifies this`client
      ensures (client, r) == ClientStep(old(client), connect)
    {
      if client.None? {
        match connect
        case Created(c) => client := Some(c);
        case ReturnedNothing =>
        case InitFailed(reason) => return Raised(RuntimeError("Supabase client initialization failed: " + reason));
      }
      if client.None? {
        return Raised(RuntimeError("Failed to initialize Supabase client"));
      }
      return Ok(client.value);
    }

    /** `_execute_select`: select, one `eq` per filter, then limit and order. */
    static method BuildSelect(table: string, args: QueryArgs) returns (r: Outcome<seq<Call>>)
      ensures r == SelectPlan(table, args)
    {
      var query := [From(table), Select(args.columns)];
      var filters := args.filters;
      if |filters| > 0 {
        var v := ValidateColumnFilters(filters);
        if v.Invalid? {
          return Raised(ValueError(v.error));
        }
      }
      var i := 0;
      while i < |filters|
        invariant 0 <= i <= |filters|
        invariant query == [From(table), Select(args.columns)] + EqCalls(filters[..i])
      {
        assert filters[..i + 1][..i] == filters[..i];
        query := query + [Eq(filters[i].0, filters[i].1)];
        i := i + 1;
      }
      assert filters[..i] == filters;
      match args.limit {
        case DefaultLimit => query := query + [Limit(DefaultSelectLimit)];
        case NoLimit =>
        case LimitOf(n) =>
          if n > 0 {
            query := query + [Limit(Min(n, MaxSelectLimit))];
          }
      }
      assert query == [From(table), Select(args.columns)] + EqCalls(filters) + LimitCalls(args.limit);
      if args.orderBy.Some? && args.orderBy.value != "" {
        query := query + [Order(args.orderBy.value)];
      }
      assert query == [From(table), Select(args.columns)] + EqCalls(filters) + LimitCalls(args.limit) + OrderCalls(args.orderBy);
      assert !(|args.filters| > 0 && FilterFailure(args.filters).Some?);
      return Ok(query);
    }

    /** `_execute_insert` */
    static method BuildInsert(table: string, args: QueryArgs) returns (r: Outcome<seq<Call>>)
      ensures r == InsertPlan(table, args)
    {
      if |args.data| == 0 {
        return Raised(ValueError("Data is required for insert operation"));
      }
      return Ok([From(table), Insert(args.data)]);
    }

    /** Appends one `eq` per filter entry to a built query. */
    static method AppendEqs(query: seq<Call>, filters: Entries) returns (r: seq<Call>)
      ensures r == query + EqCalls(filters)
    {
      r := query;
      var i := 0;
      while i < |filters|
        invariant 0 <= i <= |filters|
        invariant r == query + EqCalls(filters[..i])
      {
        assert filters[..i + 1][..i] == filters[..i];
        r := r + [Eq(filters[i].0, filters[i].1)];
        i := i + 1;
      }
      assert filters[..i] == filters;
    }

    /** `_execute_update`: both dictionaries must be present and valid; then update and the `eq`s. */
    static method BuildUpdate(table: string, args: QueryArgs) returns (r: Outcome<seq<Call>>)
      ensures r == UpdatePlan(table, args)
    {
      if |args.filters| == 0 {
        return Raised(ValueError("Filters are required for update operation"));
      }
      if |args.updates| == 0 {
        return Raised(ValueError("Updates are required for update operation"));
      }
      var v := ValidateColumnFilters(args.filters);
      if v.Invalid? {
        return Raised(ValueError(v.error));
      }
      v := ValidateColumnFilters(args.updates);
      if v.Invalid? {
        return Raised(ValueError(v.error));
      }
      var query := AppendEqs([From(table), Update(args.updates)], args.filters);
      return Ok(query);
    }

    /** `_execute_delete`: the filters must be present and valid; then delete and the `eq`s. */
    static method BuildDelete(table: string, args: QueryArgs) returns (r: Outcome<seq<Call>>)
      ensures r == DeletePlan(table, args)
    {
      if |args.filters| == 0 {
        return Raised(ValueError("Filters are required for delete operation"));
      }
      var v := ValidateColumnFilters(args.filters);
      if v.Invalid? {
        return Raised(ValueError(v.error));
      }
      var query := AppendEqs([From(table), Delete], args.filters);
      return Ok(query);
    }

    /** `execute_query`: the table name, then the client, then the operation's builder, then the
        database; ValueErrors pass through and every other failure is wrapped. */
    method ExecuteQuery(table: string, operation: string, args: QueryArgs, backend: Backend)
      returns (r: Outcome<seq<Value>>)
      modifies this
      ensures var run := RunQuery(old(client), table, operation, args, backend);
        r == run.result && client == run.client && sent == old(sent) + run.sent
    {
      var v := ValidateTableName(table);
      if v.Invalid? {
        return Raised(ValueError(v.error));
      }
      var got := GetClient(backend.connect);
      if got.Raised? {
        return Raised(RuntimeError(OperationFailed + got.exc.message));
      }
      var plan: Outcome<seq<Call>>;
      if operation == "select" {
        plan := BuildSelect(table, args);
      } else if operation == "insert" {
        plan := BuildInsert(table, args);
      } else if operation == "update" {
        plan := BuildUpdate(table, args);
      } else if operation == "delete" {
        plan := BuildDelete(table, args);
      } else {
        plan := Raised(ValueError("Unsupported operation: " + operation));
      }
      if plan.Raised? {
        return Raised(plan.exc);
      }
      sent := sent + [plan.value];
      match backend.run(plan.value)
      case Rows(rows) => return Ok(rows);
      case DbFailed(reason) => return Raised(RuntimeError(OperationFailed + reason));
    }
  }
}
