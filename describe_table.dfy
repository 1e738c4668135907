/** The `describe_table` tool: the schema rows that two `execute_sql` calls return are reshaped
    into column and constraint descriptions and the columns are sorted by position; when either
    call fails, one sample row of the table is read instead and the columns are inferred from it. */
module DescribeTable {
  import opened Values
  import opened Text
  import opened Database
  import opened McpServer

  // ---------------------------------------------------------------- Python's stable `sorted`

  /** Keys never decrease along the list. */
  predicate SortedBy<T>(xs: seq<T>, key: T -> int) {
    forall i, j | 0 <= i < j < |xs| :: key(xs[i]) <= key(xs[j])
  }

  /** `x` placed before the first element whose key is not smaller than its own. */
  function InsertBefore<T>(x: T, ys: seq<T>, key: T -> int): seq<T> {
    if |ys| == 0 || key(x) <= key(ys[0]) then [x] + ys
    else [ys[0]] + InsertBefore(x, ys[1..], key)
  }

  /** `sorted(xs, key=key)`: insertion from the back, so that equal keys keep their order. */
  function SortBy<T>(xs: seq<T>, key: T -> int): seq<T> {
    if |xs| == 0 then [] else InsertBefore(xs[0], SortBy(xs[1..], key), key)
  }

  /** The elements whose key is `k`, in their order. */
  function WithKey<T>(xs: seq<T>, key: T -> int, k: int): seq<T> {
    if |xs| == 0 then [] else (if key(xs[0]) == k then [xs[0]] else []) + WithKey(xs[1..], key, k)
  }

  lemma {:induction false} WithKeyConcat<T>(a: seq<T>, b: seq<T>, key: T -> int, k: int)
    ensures WithKey(a + b, key, k) == WithKey(a, key, k) + WithKey(b, key, k)
  {
    if |a| == 0 {
      assert a + b == b;
    } else {
      assert (a + b)[0] == a[0] && (a + b)[1..] == a[1..] + b;
      var h := if key(a[0]) == k then [a[0]] else [];
      assert WithKey(a + b, key, k) == h + WithKey(a[1..] + b, key, k);
      assert WithKey(a, key, k) == h + WithKey(a[1..], key, k);
      WithKeyConcat(a[1..], b, key, k);
      assert h + (WithKey(a[1..], key, k) + WithKey(b, key, k)) == (h + WithKey(a[1..], key, k)) + WithKey(b, key, k);
    }
  }

  /** Every key is at least `b`. */
  predicate AtLeast<T>(xs: seq<T>, key: T -> int, b: int) {
    forall i | 0 <= i < |xs| :: b <= key(xs[i])
  }

  lemma SortedCons<T>(a: T, s: seq<T>, key: T -> int)
    ensures SortedBy([a] + s, key) <==> AtLeast(s, key, key(a)) && SortedBy(s, key)
  {
    var c := [a] + s;
    assert forall i | 0 <= i < |s| :: c[i + 1] == s[i];
    if AtLeast(s, key, key(a)) && SortedBy(s, key) {
      forall i, j | 0 <= i < j < |c| ensures key(c[i]) <= key(c[j]) {
        assert c[j] == s[j - 1];
        if i > 0 {
          assert c[i] == s[i - 1];
        }
      }
    }
    if SortedBy(c, key) {
      forall i | 0 <= i < |s| ensures key(a) <= key(s[i]) {
        assert c[0] == a;
      }
    }
  }

  lemma {:induction false} InsertBeforeAtLeast<T>(x: T, ys: seq<T>, key: T -> int, b: int)
    requires AtLeast(ys, key, b) && b <= key(x)
    ensures AtLeast(InsertBefore(x, ys, key), key, b)
  {
    if |ys| == 0 || key(x) <= key(ys[0]) {
      var r := [x] + ys;
      assert forall i | 1 <= i < |r| :: r[i] == ys[i - 1];
    } else {
      InsertBeforeAtLeast(x, ys[1..], key, b);
      var r := [ys[0]] + InsertBefore(x, ys[1..], key);
      assert forall i | 1 <= i < |r| :: r[i] == InsertBefore(x, ys[1..], key)[i - 1];
    }
  }

  lemma {:induction false} InsertBeforeSorted<T>(x: T, ys: seq<T>, key: T -> int)
    requires SortedBy(ys, key)
    ensures SortedBy(InsertBefore(x, ys, key), key)
  {
    if |ys| == 0 || key(x) <= key(ys[0]) {
      SortedCons(x, ys, key);
    } else {
      assert ys == [ys[0]] + ys[1..];
      SortedCons(ys[0], ys[1..], key);
      InsertBeforeSorted(x, ys[1..], key);
      InsertBeforeAtLeast(x, ys[1..], key, key(ys[0]));
      SortedCons(ys[0], InsertBefore(x, ys[1..], key), key);
    }
  }

  lemma {:induction false} InsertBeforeMultiset<T>(x: T, ys: seq<T>, key: T -> int)
    ensures multiset(InsertBefore(x, ys, key)) == multiset(ys) + multiset{x}
  {
    if |ys| > 0 && key(x) > key(ys[0]) {
      InsertBeforeMultiset(x, ys[1..], key);
      assert ys == [ys[0]] + ys[1..];
    }
  }

  lemma WithKeySingle<T>(x: T, key: T -> int, k: int)
    ensures WithKey([x], key, k) == if key(x) == k then [x] else []
  {
    assert [x][1..] == [];
  }

  /** The elements sharing `x`'s key all come after the insertion point, so `x` goes in front of them. */
  lemma {:induction false} InsertBeforeWithKey<T>(x: T, ys: seq<T>, key: T -> int, k: int)
    ensures WithKey(InsertBefore(x, ys, key), key, k) == (if key(x) == k then [x] else []) + WithKey(ys, key, k)
  {
    WithKeySingle(x, key, k);
    if |ys| == 0 || key(x) <= key(ys[0]) {
      assert InsertBefore(x, ys, key) == [x] + ys;
      WithKeyConcat([x], ys, key, k);
    } else {
      var rest := InsertBefore(x, ys[1..], key);
      assert InsertBefore(x, ys, key) == [ys[0]] + rest;
      var own := if key(x) == k then [x] else [];
      var first := if key(ys[0]) == k then [ys[0]] else [];
      InsertBeforeWithKey(x, ys[1..], key, k);
      assert WithKey(rest, key, k) == own + WithKey(ys[1..], key, k);
      WithKeySingle(ys[0], key, k);
      WithKeyConcat([ys[0]], rest, key, k);
      assert WithKey(ys, key, k) == first + WithKey(ys[1..], key, k);
      assert own == [] || first == [];
      assert first + own == own + first;
    }
  }

  /** The sort puts the keys in order, keeps every element, and keeps the order of the elements
      that share a key: exactly what Python's stable `sorted` promises. */
  lemma {:induction false} SortByProperties<T>(xs: seq<T>, key: T -> int)
    ensures SortedBy(SortBy(xs, key), key)
    ensures multiset(SortBy(xs, key)) == multiset(xs)
  {
    if |xs| > 0 {
      SortByProperties(xs[1..], key);
      InsertBeforeSorted(xs[0], SortBy(xs[1..], key), key);
      InsertBeforeMultiset(xs[0], SortBy(xs[1..], key), key);
      assert xs == [xs[0]] + xs[1..];
    }
  }

  lemma {:induction false} SortByStable<T>(xs: seq<T>, key: T -> int, k: int)
    ensures WithKey(SortBy(xs, key), key, k) == WithKey(xs, key, k)
  {
    if |xs| > 0 {
      SortByStable(xs[1..], key, k);
      InsertBeforeWithKey(xs[0], SortBy(xs[1..], key), key, k);
    }
  }

  // ---------------------------------------------------------------- reshaping the rows

  /** `type(v).__name__` */
  function PyTypeName(v: Value): string {
    match v
    case Null => "NoneType"
    case Bool(_) => "bool"
    case Int(_) => "int"
    case Str(_) => "str"
    case Arr(_) => "list"
    case Obj(_) => "dict"
  }

  /** The message of the AttributeError raised by calling `attribute` on a row that is not a dict. */
  function NoAttribute(v: Value, attribute: string): string {
    "'" + PyTypeName(v) + "' object has no attribute '" + attribute + "'"
  }

  /** A key is in a concatenation exactly when it is in one of the parts. */
  lemma HasKeyConcat(a: Entries, b: Entries, key: string)
    ensures HasKey(a + b, key) <==> HasKey(a, key) || HasKey(b, key)
  {
    var c := a + b;
    if HasKey(c, key) {
      var i :| 0 <= i < |c| && c[i].0 == key;
      if i >= |a| {
        assert b[i - |a|].0 == key;
      }
    }
    if HasKey(b, key) {
      var i :| 0 <= i < |b| && b[i].0 == key;
      assert c[i + |a|].0 == key;
    }
    if HasKey(a, key) {
      var i :| 0 <= i < |a| && a[i].0 == key;
      assert c[i].0 == key;
    }
  }

  /** `get` passes over a prefix that lacks the key. */
  lemma {:induction false} LookupAfter(a: Entries, b: Entries, key: string)
    requires !HasKey(a, key)
    ensures Lookup(a + b, key) == Lookup(b, key)
  {
    if |a| == 0 {
      assert a + b == b;
    } else {
      assert a[0].0 != key;
      assert (a + b)[0] == a[0] && (a + b)[1..] == a[1..] + b;
      LookupAfter(a[1..], b, key);
    }
  }

  /** The five entries every described column has. */
  function ColumnBase(col: Entries): Entries {
    [ ("name", Get(col, "column_name", Null)),
      ("type", Get(col, "data_type", Null)),
      ("nullable", Bool(Get(col, "is_nullable", Str("UNKNOWN")) == Str("YES"))),
      ("default", Get(col, "column_default", Null)),
      ("position", Get(col, "ordinal_position", Int(0))) ]
  }

  /** The length, precision and scale, each only when the tool adds it. */
  function ColumnExtras(col: Entries): Entries {
    var maxLength := Get(col, "character_maximum_length", Null);
    var precision := Get(col, "numeric_precision", Null);
    var scale := Get(col, "numeric_scale", Null);
    (if Truthy(maxLength) then [("max_length", maxLength)] else [])
    + (if Truthy(precision) then [("precision", precision)] + (if Truthy(scale) then [("scale", scale)] else []) else [])
  }

  /** One row of `information_schema.columns`, as the tool describes the column. */
  function ColumnInfo(col: Entries): Entries {
    ColumnBase(col) + ColumnExtras(col)
  }

  lemma ColumnBaseShape(col: Entries)
    ensures var base := ColumnBase(col);
      && Keys(base) == ["name", "type", "nullable", "default", "position"]
      && (base[2].1 == Bool(true) <==> Lookup(col, "is_nullable") == Some(Str("YES")))
      && base[4].1 == Get(col, "ordinal_position", Int(0))
      && !HasKey(base, "max_length") && !HasKey(base, "precision") && !HasKey(base, "scale")
  {
  }

  lemma ColumnExtrasShape(col: Entries)
    ensures var extras := ColumnExtras(col);
      && (HasKey(extras, "max_length") <==> Truthy(Get(col, "character_maximum_length", Null)))
      && (HasKey(extras, "precision") <==> Truthy(Get(col, "numeric_precision", Null)))
      && (HasKey(extras, "scale") <==> Truthy(Get(col, "numeric_precision", Null)) && Truthy(Get(col, "numeric_scale", Null)))
      && (HasKey(extras, "max_length") ==> Lookup(extras, "max_length") == Lookup(col, "character_maximum_length"))
  {
    var maxLength := Get(col, "character_maximum_length", Null);
    var precision := Get(col, "numeric_precision", Null);
    var scale := Get(col, "numeric_scale", Null);
    var a := if Truthy(maxLength) then [("max_length", maxLength)] else [];
    var s := if Truthy(scale) then [("scale", scale)] else [];
    var p := if Truthy(precision) then [("precision", precision)] + s else [];
    assert ColumnExtras(col) == a + p;
    assert !HasKey(s, "max_length") && !HasKey(s, "precision");
    assert Truthy(scale) ==> s[0].0 == "scale";
    assert [("precision", precision)][0].0 == "precision";
    HasKeyConcat([("precision", precision)], s, "max_length");
    HasKeyConcat([("precision", precision)], s, "precision");
    HasKeyConcat([("precision", precision)], s, "scale");
    assert !HasKey(a, "precision") && !HasKey(a, "scale");
    assert Truthy(maxLength) ==> a[0].0 == "max_length" && (a + p)[0] == a[0];
    HasKeyConcat(a, p, "max_length");
    HasKeyConcat(a, p, "precision");
    HasKeyConcat(a, p, "scale");
  }

  /** The five fixed entries come first; a column is nullable exactly when the row says "YES";
      the length appears only when it is truthy, the precision likewise, and the scale only
      together with a truthy precision. */
  lemma ColumnInfoShape(col: Entries)
    ensures var info := ColumnInfo(col);
      && info[..5] == ColumnBase(col)
      && Keys(ColumnBase(col)) == ["name", "type", "nullable", "default", "position"]
      && (info[2].1 == Bool(true) <==> Lookup(col, "is_nullable") == Some(Str("YES")))
      && info[4].1 == Get(col, "ordinal_position", Int(0))
      && (HasKey(info, "max_length") <==> Truthy(Get(col, "character_maximum_length", Null)))
      && (HasKey(info, "precision") <==> Truthy(Get(col, "numeric_precision", Null)))
      && (HasKey(info, "scale") <==> Truthy(Get(col, "numeric_precision", Null)) && Truthy(Get(col, "numeric_scale", Null)))
      && (HasKey(info, "max_length") ==> Lookup(info, "max_length") == Lookup(col, "character_maximum_length"))
  {
    var base := ColumnBase(col);
    var extras := ColumnExtras(col);
    ColumnBaseShape(col);
    ColumnExtrasShape(col);
    assert (base + extras)[..5] == base;
    assert (base + extras)[2] == base[2] && (base + extras)[4] == base[4];
    HasKeyConcat(base, extras, "max_length");
    HasKeyConcat(base, extras, "precision");
    HasKeyConcat(base, extras, "scale");
    LookupAfter(base, extras, "max_length");
  }

  /** The entries every described constraint has. */
  function ConstraintBase(c: Entries): Entries {
    [ ("type", Get(c, "constraint_type", Null)),
      ("name", Get(c, "constraint_name", Null)),
      ("column", Get(c, "column_name", Null)) ]
  }

  /** The table and column a foreign key points at. */
  function Reference(c: Entries): Value {
    Obj([("table", Get(c, "foreign_table_name", Null)), ("column", Get(c, "foreign_column_name", Null))])
  }

  /** One row of the constraint query, as the tool describes the constraint. */
  function ConstraintInfo(c: Entries): Entries {
    ConstraintBase(c) + (if Truthy(Get(c, "foreign_table_name", Null)) then [("references", Reference(c))] else [])
  }

  /** A constraint carries a reference exactly when its foreign table name is truthy, and the
      reference names that table and the foreign column. */
  lemma ConstraintInfoShape(c: Entries)
    ensures var info := ConstraintInfo(c);
      && info[..3] == ConstraintBase(c)
      && Keys(ConstraintBase(c)) == ["type", "name", "column"]
      && (HasKey(info, "references") <==> Truthy(Get(c, "foreign_table_name", Null)))
      && (HasKey(info, "references") ==> Lookup(info, "references") == Some(Reference(c)))
  {
    var base := ConstraintBase(c);
    var extra := if Truthy(Get(c, "foreign_table_name", Null)) then [("references", Reference(c))] else [];
    assert (base + extra)[..3] == base;
    assert !HasKey(base, "references");
    HasKeyConcat(base, extra, "references");
    LookupAfter(base, extra, "references");
  }

  /** The rows reshaped one by one, or the first row that is not a dict. */
  datatype Shaped = Shaped(items: seq<Value>) | NotADict(row: Value)

  /** A loop over the rows that calls `get` on each: it stops at the first row that is not a dict. */
  function ShapeRows(rows: seq<Value>, shape: Entries -> Entries): (r: Shaped)
    ensures r.Shaped? <==> forall i | 0 <= i < |rows| :: rows[i].Obj?
    ensures r.Shaped? ==> |r.items| == |rows| && forall i | 0 <= i < |rows| :: r.items[i] == Obj(shape(rows[i].fields))
    ensures r.NotADict? ==>
      exists i | 0 <= i < |rows| :: rows[i] == r.row && !rows[i].Obj? && forall j | 0 <= j < i :: rows[j].Obj?
  {
    if |rows| == 0 then Shaped([])
    else if !rows[0].Obj? then NotADict(rows[0])
    else
      assert forall i | 1 <= i < |rows| :: rows[i] == rows[1..][i - 1];
      match ShapeRows(rows[1..], shape)
      case NotADict(row) =>
        var i :| 0 <= i < |rows[1..]| && rows[1..][i] == row && !rows[1..][i].Obj? && forall j | 0 <= j < i :: rows[1..][j].Obj?;
        assert rows[i + 1] == row;
        NotADict(row)
      case Shaped(items) => Shaped([Obj(shape(rows[0].fields))] + items)
  }

  /** The loop itself. */
  method ShapeEach(rows: seq<Value>, shape: Entries -> Entries) returns (r: Shaped)
    ensures r == ShapeRows(rows, shape)
  {
    var items: seq<Value> := [];
    var i := 0;
    while i < |rows|
      invariant 0 <= i <= |rows| && |items| == i
      invariant forall j | 0 <= j < i :: rows[j].Obj? && items[j] == Obj(shape(rows[j].fields))
    {
      if !rows[i].Obj? {
        var expected := ShapeRows(rows, shape);
        assert expected.NotADict?;
        var m :| 0 <= m < |rows| && rows[m] == expected.row && !rows[m].Obj? && forall j | 0 <= j < m :: rows[j].Obj?;
        assert m == i;
        return NotADict(rows[i]);
      }
      items := items + [Obj(shape(rows[i].fields))];
      i := i + 1;
    }
    return Shaped(items);
  }

  // ---------------------------------------------------------------- sorting the columns

  /** A position as a sort key: Python compares a bool as 0 or 1. */
  function PositionKey(v: Value): Option<int> {
    match v
    case Int(i) => Some(i)
    case Bool(b) => Some(if b then 1 else 0)
    case _ => None
  }

  /** The position of a described column, as an integer. */
  function ColumnPosition(info: Value): Option<int> {
    if info.Obj? then PositionKey(Get(info.fields, "position", Null)) else None
  }

  function PositionOrder(info: Value): int {
    ColumnPosition(info).GetOr(0)
  }

  datatype Ordered = Ordered(items: seq<Value>) | Unorderable

  /** `sorted(columns_info, key=lambda x: x["position"])`: one column needs no comparison; with
      more, integer positions sort stably and any other position raises a TypeError. */
  function SortByPosition(infos: seq<Value>): Ordered {
    if |infos| <= 1 then Ordered(infos)
    else if forall i | 0 <= i < |infos| :: ColumnPosition(infos[i]).Some? then Ordered(SortBy(infos, PositionOrder))
    else Unorderable
  }

  /** When the sort fails: only with two columns or more, one of them without an integer position. */
  lemma SortByPositionFails(infos: seq<Value>)
    ensures SortByPosition(infos).Unorderable? <==>
      |infos| >= 2 && exists i | 0 <= i < |infos| :: ColumnPosition(infos[i]).None?
  {
  }

  /** What a successful sort gives: the columns by ascending position, all of them, with equal
      positions in their original order. */
  lemma SortByPositionOrders(infos: seq<Value>, k: int)
    requires SortByPosition(infos).Ordered?
    ensures var sorted := SortByPosition(infos).items;
      && SortedBy(sorted, PositionOrder)
      && multiset(sorted) == multiset(infos)
      && WithKey(sorted, PositionOrder, k) == WithKey(infos, PositionOrder, k)
  {
    SortByProperties(infos, PositionOrder);
    SortByStable(infos, PositionOrder, k);
    if |infos| == 1 {
      assert infos[1..] == [];
    }
  }

  // ---------------------------------------------------------------- inferring from a sample row

  /** One column inferred from a sample value. */
  function InferredColumn(name: string, value: Value, position: int): Value {
    Obj([ ("column_name", Str(name)),
          ("data_type", Str(if value.Null? then "unknown" else PyTypeName(value))),
          ("is_nullable", Str(if value.Null? then "YES" else "UNKNOWN")),
          ("ordinal_position", Int(position)) ])
  }

  function InferColumns(record: Entries): seq<Value> {
    seq(|record|, i requires 0 <= i < |record| => InferredColumn(record[i].0, record[i].1, i + 1))
  }

  /** One inferred column per entry of the sample, in the sample's order, numbered from 1; the
      column is nullable (and of unknown type) exactly when its sample value is None. */
  lemma InferredSchemaShape(record: Entries, i: int)
    requires 0 <= i < |record|
    ensures var cols := InferColumns(record);
      && |cols| == |record|
      && cols[i].Obj? && |cols[i].fields| == 4
      && cols[i].fields[0] == ("column_name", Str(record[i].0))
      && cols[i].fields[3] == ("ordinal_position", Int(i + 1))
      && (cols[i].fields[2].1 == Str("YES") <==> record[i].1 == Null)
      && (cols[i].fields[1].1 == Str("unknown") <==> record[i].1 == Null)
  {
    assert |PyTypeName(record[i].1)| != 7;
  }

  /** `for idx, (col_name, value) in enumerate(sample_record.items(), 1)` */
  method InferEach(record: Entries) returns (cols: seq<Value>)
    ensures cols == InferColumns(record)
  {
    cols := [];
    var i := 0;
    while i < |record|
      invariant 0 <= i <= |record| && |cols| == i
      invariant forall j | 0 <= j < i :: cols[j] == InferredColumn(record[j].0, record[j].1, j + 1)
    {
      var (name, value) := record[i];
      cols := cols + [InferredColumn(name, value, i + 1)];
      i := i + 1;
    }
  }

  // ---------------------------------------------------------------- the tool

  /** The two `execute_sql` calls, which name the table as the caller wrote it. */
  datatype RpcQuery = ColumnQuery(table: string) | ConstraintQuery(table: string)

  /** What the two calls gave: both row lists, or the message of the first failure. */
  datatype Schema = Schema(columns: seq<Value>, constraints: seq<Value>) | RpcFailed(message: string)

  /** The column query first; the constraint query only when it succeeded. */
  function FetchSchema(table: string, rpc: RpcQuery -> Reply): Schema {
    match rpc(ColumnQuery(table))
    case DbFailed(m) => RpcFailed(m)
    case Rows(columns) =>
      match rpc(ConstraintQuery(table))
      case DbFailed(m) => RpcFailed(m)
      case Rows(constraints) => Schema(columns, constraints)
  }

  /** `client.table(t).select("*").limit(1)` */
  function FallbackCalls(table: string): seq<Call> {
    [From(table), Select("*"), Limit(1)]
  }

  const CheckSuggestion := "Check if the table exists and you have appropriate permissions"
  const InferenceNote := "Schema information inferred from sample data. Full schema details may not be available due to permissions."

  /** The outer handler's answer to any exception other than a ValueError. */
  function DescribeFailed(table: string, message: string): Response {
    ErrorAnswer("Failed to describe table '" + table + "'", ErrorOnly(message))
  }

  function UnableToDescribe(table: string, primary: string, fallback: string): Response {
    ErrorAnswer("Unable to describe table '" + table + "'",
      [("primary_error", Str(primary)), ("fallback_error", Str(fallback)), ("suggestion", Str(CheckSuggestion))])
  }

  function EmptyTableAnswer(table: string): Response {
    ErrorAnswer("Table '" + table + "' appears to be empty or inaccessible", [("suggestion", Str(CheckSuggestion))])
  }

  function InferredAnswer(table: string, columns: seq<Value>): Response {
    SuccessAnswer("Table '" + table + "' schema (inferred from sample data)", Some(Obj([
      ("table_name", Str(table)),
      ("columns", Arr(columns)),
      ("note", Str(InferenceNote))])))
  }

  /** The answer built from the sample row, after the schema queries failed with `primary`. */
  function FallbackAnswer(table: string, primary: string, reply: Reply): Response {
    match reply
    case DbFailed(reason) => UnableToDescribe(table, primary, reason)
    case Rows(rows) =>
      if |rows| == 0 then EmptyTableAnswer(table)
      else if rows[0].Obj? then InferredAnswer(table, InferColumns(rows[0].fields))
      else UnableToDescribe(table, primary, NoAttribute(rows[0], "items"))
  }

  /** The fallback succeeds exactly when the sample query returns a first row that is a dict, and
      then describes that row's entries; every failure of its own keeps the schema query's error. */
  lemma FallbackAnswerShape(table: string, primary: string, reply: Reply)
    ensures var r := FallbackAnswer(table, primary, reply);
      && (r.SuccessAnswer? <==> reply.Rows? && |reply.rows| > 0 && reply.rows[0].Obj?)
      && (r.SuccessAnswer? ==> r == InferredAnswer(table, InferColumns(reply.rows[0].fields)))
      && (r.ErrorAnswer? && (reply.DbFailed? || |reply.rows| > 0) ==>
            r.message == "Unable to describe table '" + table + "'"
            && |r.details| == 3 && r.details[0] == ("primary_error", Str(primary)))
  {
  }

  function NotFoundAnswer(table: string): Response {
    ErrorAnswer("Table '" + table + "' not found", [("suggestion", Str("Use list_tables tool to see available tables"))])
  }

  /** The message of a schema answer. */
  function SchemaMessage(table: string, count: int): string {
    "Schema for table '" + table + "' (" + IntToDecimal(count) + " columns)"
  }

  function SchemaSuccess(table: string, count: int, sorted: seq<Value>, described: seq<Value>): Response {
    SuccessAnswer(SchemaMessage(table, count), Some(Obj([
      ("table_name", Str(table)),
      ("column_count", Int(count)),
      ("columns", Arr(sorted)),
      ("constraints", Arr(described))])))
  }

  /** The answer built from the schema rows; `orderError` is the text of the TypeError that
      `sorted` raises on positions it cannot compare. */
  function SchemaAnswer(table: string, columns: seq<Value>, constraints: seq<Value>, orderError: string): Response {
    if |columns| == 0 then NotFoundAnswer(table)
    else match ShapeRows(columns, ColumnInfo)
      case NotADict(row) => DescribeFailed(table, NoAttribute(row, "get"))
      case Shaped(infos) =>
        match ShapeRows(constraints, ConstraintInfo)
        case NotADict(row) => DescribeFailed(table, NoAttribute(row, "get"))
        case Shaped(described) =>
          match SortByPosition(infos)
          case Unorderable => DescribeFailed(table, orderError)
          case Ordered(sorted) => SchemaSuccess(table, |infos|, sorted, described)
  }

  /** `describe_table(table_name)` against a manager whose client was `client`. */
  function DescribeTableRun(client: Option<ClientHandle>, table: string, backend: Backend, rpc: RpcQuery -> Reply,
                            orderError: string): ToolRun {
    match TableNameVerdict(table)
    case Invalid(e) => ToolRun(ErrorAnswer("Invalid table name", ErrorOnly(e)), client, [])
    case Valid =>
      var (client', got) := ClientStep(client, backend.connect);
      if got.Raised? then ToolRun(DescribeFailed(table, got.exc.message), client', [])
      else match FetchSchema(table, rpc)
        case RpcFailed(primary) =>
          ToolRun(FallbackAnswer(table, primary, backend.run(FallbackCalls(table))), client', [FallbackCalls(table)])
        case Schema(columns, constraints) =>
          ToolRun(SchemaAnswer(table, columns, constraints, orderError), client', [])
  }

  /** A refused name is answered before the client is touched; a client that cannot be created
      is reported as a failure to describe the table; nothing is sent in either case. */
  lemma DescribeChecksFirst(client: Option<ClientHandle>, table: string, backend: Backend, rpc: RpcQuery -> Reply,
                            orderError: string)
    ensures var run := DescribeTableRun(client, table, backend, rpc, orderError);
      && (TableNameVerdict(table).Invalid? ==>
            run == ToolRun(ErrorAnswer("Invalid table name", ErrorOnly(TableNameVerdict(table).error)), client, []))
      && (TableNameVerdict(table) == Valid && ClientStep(client, backend.connect).1.Raised? ==>
            run == ToolRun(DescribeFailed(table, ClientStep(client, backend.connect).1.exc.message),
                           ClientStep(client, backend.connect).0, []))
  {
  }

  /** The sample row is read exactly when the name is valid, a client exists and a schema query
      failed; it is then the only query sent, and a one-row select of the table as named. */
  lemma FallbackOnlyAfterRpcFailure(client: Option<ClientHandle>, table: string, backend: Backend, rpc: RpcQuery -> Reply,
                                    orderError: string)
    ensures var run := DescribeTableRun(client, table, backend, rpc, orderError);
      && (run.sent != [] <==>
            TableNameVerdict(table) == Valid && ClientStep(client, backend.connect).1.Ok? && FetchSchema(table, rpc).RpcFailed?)
      && (run.sent != [] ==> run.sent == [[From(table), Select("*"), Limit(1)]])
      && (client.Some? ==> run.client == client)
  {
  }

  /** A schema answer succeeds exactly when there are schema rows, every row is a dict and the
      positions can be sorted; it then reports the sorted columns, their count and the constraints. */
  lemma SchemaAnswerSucceeds(table: string, columns: seq<Value>, constraints: seq<Value>, orderError: string)
    ensures var r := SchemaAnswer(table, columns, constraints, orderError);
      var infos := ShapeRows(columns, ColumnInfo);
      var described := ShapeRows(constraints, ConstraintInfo);
      && (r.SuccessAnswer? <==> |columns| > 0 && infos.Shaped? && described.Shaped? && SortByPosition(infos.items).Ordered?)
      && (r.SuccessAnswer? ==>
            r == SchemaSuccess(table, |columns|, SortByPosition(infos.items).items, described.items))
  {
  }

  /** A schema answer reports one column per schema row, sorted stably by position. */
  lemma SchemaAnswerSorted(table: string, columns: seq<Value>, constraints: seq<Value>, orderError: string, k: int)
    requires SchemaAnswer(table, columns, constraints, orderError).SuccessAnswer?
    ensures var infos := ShapeRows(columns, ColumnInfo).items;
      var sorted := SortByPosition(infos).items;
      && |infos| == |columns|
      && SortedBy(sorted, PositionOrder)
      && multiset(sorted) == multiset(infos)
      && WithKey(sorted, PositionOrder, k) == WithKey(infos, PositionOrder, k)
  {
    SchemaAnswerSucceeds(table, columns, constraints, orderError);
    SortByPositionOrders(ShapeRows(columns, ColumnInfo).items, k);
  }

  /** The answer built from the sample row, when the schema queries failed. */
  method AnswerFromSample(table: string, primary: string, reply: Reply) returns (response: Response)
    ensures response == FallbackAnswer(table, primary, reply)
  {
    match reply {
      case DbFailed(reason) =>
        response := UnableToDescribe(table, primary, reason);
      case Rows(rows) =>
        if |rows| == 0 {
          response := EmptyTableAnswer(table);
        } else if rows[0].Obj? {
          var inferred := InferEach(rows[0].fields);
          response := InferredAnswer(table, inferred);
        } else {
          response := UnableToDescribe(table, primary, NoAttribute(rows[0], "items"));
        }
    }
  }

  /** The answer built from the rows of the two schema queries. */
  method AnswerFromSchema(table: string, columns: seq<Value>, constraints: seq<Value>, orderError: string)
    returns (response: Response)
    ensures response == SchemaAnswer(table, columns, constraints, orderError)
  {
    if |columns| == 0 {
      return NotFoundAnswer(table);
    }
    var infos := ShapeEach(columns, ColumnInfo);
    if infos.NotADict? {
      return DescribeFailed(table, NoAttribute(infos.row, "get"));
    }
    var described := ShapeEach(constraints, ConstraintInfo);
    if described.NotADict? {
      return DescribeFailed(table, NoAttribute(described.row, "get"));
    }
    match SortByPosition(infos.items) {
      case Unorderable => response := DescribeFailed(table, orderError);
      case Ordered(sorted) => response := SchemaSuccess(table, |infos.items|, sorted, described.items);
    }
  }

  /** `describe_table` */
  method Describe(manager: SupabaseManager, table: string, backend: Backend, rpc: RpcQuery -> Reply,
                  orderError: string, render: Rendering) returns (text: string)
    modifies manager
    ensures var run := DescribeTableRun(old(manager.client), table, backend, rpc, orderError);
      text == RenderResponse(run.response, render) && manager.client == run.client && manager.sent == old(manager.sent) + run.sent
  {
    var validation := ValidateTableName(table);
    if validation.Invalid? {
      return RenderResponse(ErrorAnswer("Invalid table name", ErrorOnly(validation.error)), render);
    }
    var got := manager.GetClient(backend.connect);
    if got.Raised? {
      return RenderResponse(DescribeFailed(table, got.exc.message), render);
    }
    var schema := FetchSchema(table, rpc);
    var response: Response;
    if schema.RpcFailed? {
      var calls := FallbackCalls(table);
      manager.sent := manager.sent + [calls];
      response := AnswerFromSample(table, schema.message, backend.run(calls));
    } else {
      response := AnswerFromSchema(table, schema.columns, schema.constraints, orderError);
    }
    text := RenderResponse(response, render);
  }
}
