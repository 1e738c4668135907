/** The eleven "dangerous pattern" regular expressions that the filter validator searches for,
    each written out as a predicate on the string it is searched in (a `re.search` with
    IGNORECASE). `\s` is Python's whitespace set, `\w` and case folding are taken over ASCII,
    and `.` is any character but a newline. */
module SqlPatterns {
  import opened Text

  datatype Pattern =
    | DropStatement       // ;\s*drop\s+
    | DeleteStatement     // ;\s*delete\s+
    | UpdateStatement     // ;\s*update\s+
    | InsertStatement     // ;\s*insert\s+
    | LineComment         // --.*
    | BlockComment        // /\*.*\*/
    | TautologyOr         // \bor\b.*\b1\s*=\s*1\b
    | UnionSelect         // \bunion\b.*\bselect\b
    | Exec                // \bexec\b
    | StoredProcedure     // \bsp_\w+
    | ExtendedProcedure   // \bxp_\w+

  /** The patterns in the order the validator tries them. */
  const DangerousPatterns: seq<Pattern> := [
    DropStatement, DeleteStatement, UpdateStatement, InsertStatement, LineComment, BlockComment,
    TautologyOr, UnionSelect, Exec, StoredProcedure, ExtendedProcedure
  ]

  /** `\w` */
  predicate IsWordChar(c: char) {
    IsIdentChar(c)
  }

  /** `\b` at position `p`: a word character on exactly one side. */
  predicate Boundary(s: string, p: int)
    requires 0 <= p <= |s|
  {
    (0 < p && IsWordChar(s[p - 1])) != (p < |s| && IsWordChar(s[p]))
  }

  /** The lower-case word `w` occurs at `i`, ignoring case. */
  predicate WordAt(s: string, i: int, w: string) {
    0 <= i && i + |w| <= |s| && Lower(s[i..i + |w|]) == w
  }

  /** `\bw\b` at `i`. */
  predicate KeywordAt(s: string, i: int, w: string) {
    WordAt(s, i, w) && Boundary(s, i) && Boundary(s, i + |w|)
  }

  /** `.*` can span positions `a` to `b`: no newline in between. */
  predicate NoNewline(s: string, a: int, b: int)
    requires 0 <= a <= b <= |s|
  {
    forall k | a <= k < b :: s[k] != '\n'
  }

  /** The first position at or after `k` that does not hold whitespace (`\s*` taken greedily). */
  function SkipSpaces(s: string, k: nat): (r: nat)
    requires k <= |s|
    ensures k <= r <= |s| && (r == |s| || !IsSpace(s[r]))
    ensures forall i | k <= i < r :: IsSpace(s[i])
    decreases |s| - k
  {
    if k < |s| && IsSpace(s[k]) then SkipSpaces(s, k + 1) else k
  }

  /** `;\s*kw\s+` with the semicolon at `i`. Since `kw` starts with a letter, `\s*` must take
      every blank after the semicolon. */
  predicate StatementAt(s: string, i: int, kw: string) {
    0 <= i < |s| && s[i] == ';' &&
    var k := SkipSpaces(s, i + 1);
    WordAt(s, k, kw) && k + |kw| < |s| && IsSpace(s[k + |kw|])
  }

  /** `\b1\s*=\s*1\b` with the first digit at `j`. */
  predicate OneEqualsOneAt(s: string, j: int) {
    0 <= j < |s| && s[j] == '1' && Boundary(s, j) &&
    var e := SkipSpaces(s, j + 1);
    e < |s| && s[e] == '=' &&
    var o := SkipSpaces(s, e + 1);
    o < |s| && s[o] == '1' && Boundary(s, o + 1)
  }

  /** `\bor\b.*\b1\s*=\s*1\b` with `or` at `i`. */
  predicate TautologyAt(s: string, i: int) {
    KeywordAt(s, i, "or") &&
    exists j | i + 2 <= j < |s| :: NoNewline(s, i + 2, j) && OneEqualsOneAt(s, j)
  }

  /** `\bunion\b.*\bselect\b` with `union` at `i`. */
  predicate UnionSelectAt(s: string, i: int) {
    KeywordAt(s, i, "union") &&
    exists j | i + 5 <= j <= |s| - 6 :: NoNewline(s, i + 5, j) && KeywordAt(s, j, "select")
  }

  // A block comment, slash-star then anything but a newline then star-slash, opening at `i`.
  predicate BlockCommentAt(s: string, i: int) {
    OccursAt(s, i, "/*") &&
    exists j | i + 2 <= j <= |s| - 2 :: NoNewline(s, i + 2, j) && OccursAt(s, j, "*/")
  }

  /** `\bpre\w+` with `pre` at `i`. */
  predicate ProcedureAt(s: string, i: int, pre: string) {
    WordAt(s, i, pre) && Boundary(s, i) && i + |pre| < |s| && IsWordChar(s[i + |pre|])
  }

  /** `re.search(p, s, re.IGNORECASE)` finds a match. */
  predicate Search(p: Pattern, s: string) {
    match p
    case DropStatement => exists i | 0 <= i < |s| :: StatementAt(s, i, "drop")
    case DeleteStatement => exists i | 0 <= i < |s| :: StatementAt(s, i, "delete")
    case UpdateStatement => exists i | 0 <= i < |s| :: StatementAt(s, i, "update")
    case InsertStatement => exists i | 0 <= i < |s| :: StatementAt(s, i, "insert")
    case LineComment => Contains(s, "--")
    case BlockComment => exists i | 0 <= i < |s| :: BlockCommentAt(s, i)
    case TautologyOr => exists i | 0 <= i < |s| :: TautologyAt(s, i)
    case UnionSelect => exists i | 0 <= i < |s| :: UnionSelectAt(s, i)
    case Exec => exists i | 0 <= i < |s| :: KeywordAt(s, i, "exec")
    case StoredProcedure => exists i | 0 <= i < |s| :: ProcedureAt(s, i, "sp_")
    case ExtendedProcedure => exists i | 0 <= i < |s| :: ProcedureAt(s, i, "xp_")
  }

  /** Some pattern of the list matches. */
  predicate IsDangerous(s: string) {
    exists k | 0 <= k < |DangerousPatterns| :: Search(DangerousPatterns[k], s)
  }

  /** A match of the pattern at index `k` of the list makes the text dangerous. */
  lemma CaughtBy(s: string, k: int)
    requires 0 <= k < |DangerousPatterns| && Search(DangerousPatterns[k], s)
    ensures IsDangerous(s)
  {
  }

  lemma WordAtIntro(s: string, i: int, raw: string, w: string)
    requires 0 <= i && i + |raw| <= |s| && s[i..i + |raw|] == raw && Lower(raw) == w
    ensures WordAt(s, i, w)
  {
  }

  lemma StatementAtIntro(s: string, i: int, k: nat, kw: string)
    requires 0 <= i < |s| && s[i] == ';' && i + 1 <= |s| && SkipSpaces(s, i + 1) == k
    requires WordAt(s, k, kw) && k + |kw| < |s| && IsSpace(s[k + |kw|])
    ensures StatementAt(s, i, kw)
  {
  }

  // The injection attempts that the validator is known to refuse are all caught.

  lemma DropStatementCaught()
    ensures IsDangerous("'; DROP TABLE users; --")
  {
    var s := "'; DROP TABLE users; --";
    assert s[3..7] == "DROP";
    assert Lower("DROP") == "drop";
    WordAtIntro(s, 3, "DROP", "drop");
    assert SkipSpaces(s, 3) == 3;
    assert SkipSpaces(s, 2) == 3;
    assert IsSpace(s[7]);
    StatementAtIntro(s, 1, 3, "drop");
    assert DangerousPatterns[0] == DropStatement;
    CaughtBy(s, 0);
  }

  lemma TautologyCaught()
    ensures IsDangerous("1 OR 1=1")
  {
    var s := "1 OR 1=1";
    assert SkipSpaces(s, 6) == 6 && SkipSpaces(s, 7) == 7;
    assert OneEqualsOneAt(s, 5);
    assert NoNewline(s, 4, 5);
    assert Lower(s[2..4]) == "or";
    assert TautologyAt(s, 2);
    assert Search(DangerousPatterns[6], s);
  }

  lemma BlockCommentCaught()
    ensures IsDangerous("/* comment */ active")
  {
    var s := "/* comment */ active";
    assert NoNewline(s, 2, 11);
    assert OccursAt(s, 11, "*/");
    assert BlockCommentAt(s, 0);
    assert Search(DangerousPatterns[5], s);
  }

  lemma UnionSelectAtIntro(s: string, i: int, j: int)
    requires KeywordAt(s, i, "union") && i + 5 <= j <= |s| - 6 && NoNewline(s, i + 5, j) && KeywordAt(s, j, "select")
    ensures UnionSelectAt(s, i)
  {
  }

  /** Text that opens with "UNION SELECT " matches the union pattern at its start. */
  lemma UnionSelectOpening(s: string)
    requires |s| >= 13 && s[..13] == "UNION SELECT "
    ensures UnionSelectAt(s, 0)
  {
    assert s[0..5] == "UNION" && s[6..12] == "SELECT";
    assert Lower("UNION") == "union";
    assert Lower("SELECT") == "select";
    WordAtIntro(s, 0, "UNION", "union");
    WordAtIntro(s, 6, "SELECT", "select");
    assert s[4] == 'N' && s[5] == ' ' && s[6] == 'S' && s[11] == 'T' && s[12] == ' ';
    assert Boundary(s, 0) && Boundary(s, 5);
    assert Boundary(s, 6) && Boundary(s, 12);
    assert NoNewline(s, 5, 6);
    UnionSelectAtIntro(s, 0, 6);
  }

  lemma UnionSelectCaught()
    ensures IsDangerous("UNION SELECT * FROM users")
  {
    var s := "UNION SELECT * FROM users";
    assert s[..13] == "UNION SELECT ";
    UnionSelectOpening(s);
    assert DangerousPatterns[7] == UnionSelect;
    CaughtBy(s, 7);
  }

  lemma ExtendedProcedureCaught()
    ensures IsDangerous("xp_cmdshell 'ls'")
  {
    var s := "xp_cmdshell 'ls'";
    assert Lower(s[0..3]) == "xp_";
    assert ProcedureAt(s, 0, "xp_");
    assert Search(DangerousPatterns[10], s);
  }

  lemma TrailingCommentCaught()
    ensures IsDangerous("admin' --")
  {
    var s := "admin' --";
    assert OccursAt(s, 7, "--");
    assert Search(DangerousPatterns[4], s);
  }
}
