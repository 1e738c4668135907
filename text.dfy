/** The parts of Python's `str` that the validators and the response builders rely on. */
module Text {
  import opened Values

  /** `c.isspace()`: the characters that `str.strip()` removes and that the regex class `\s` matches. */
  predicate IsSpace(c: char) {
    || c == ' '
    || '\t' <= c <= '\r'
    || '\U{1C}' <= c <= '\U{1F}'
    || c == '\U{85}' || c == '\U{A0}' || c == '\U{1680}'
    || '\U{2000}' <= c <= '\U{200A}'
    || c == '\U{2028}' || c == '\U{2029}' || c == '\U{202F}' || c == '\U{205F}' || c == '\U{3000}'
  }

  /** `not s or not s.strip()`: empty, or whitespace only. */
  predicate IsBlank(s: string) {
    forall i | 0 <= i < |s| :: IsSpace(s[i])
  }

  /** One character that is not white space makes a string non-blank. */
  lemma NotBlankAt(s: string, i: int)
    requires 0 <= i < |s| && !IsSpace(s[i])
    ensures !IsBlank(s)
  {
  }

  function TrimLeft(s: string): (r: string)
    ensures |r| <= |s| && r == s[|s| - |r|..]
    ensures r == [] || !IsSpace(r[0])
    ensures forall i | 0 <= i < |s| - |r| :: IsSpace(s[i])
  {
    if |s| > 0 && IsSpace(s[0]) then TrimLeft(s[1..]) else s
  }

  function TrimRight(s: string): (r: string)
    ensures |r| <= |s| && r == s[..|r|]
    ensures r == [] || !IsSpace(r[|r| - 1])
    ensures forall i | |r| <= i < |s| :: IsSpace(s[i])
  {
    if |s| > 0 && IsSpace(s[|s| - 1]) then TrimRight(s[..|s| - 1]) else s
  }

  /** `s.strip()` */
  function Strip(s: string): string {
    TrimLeft(TrimRight(s))
  }

  /** Stripping leaves a string alone exactly when it neither starts nor ends with whitespace. */
  lemma StripUnchanged(s: string)
    requires |s| > 0 && !IsSpace(s[0]) && !IsSpace(s[|s| - 1])
    ensures Strip(s) == s
  {
  }

  /** A string strips to nothing exactly when it is blank. */
  lemma StripEmptyIffBlank(s: string)
    ensures Strip(s) == [] <==> IsBlank(s)
  {
  }

  predicate IsAsciiLetter(c: char) { 'a' <= c <= 'z' || 'A' <= c <= 'Z' }

  predicate IsAsciiDigit(c: char) { '0' <= c <= '9' }

  predicate IsIdentStart(c: char) { IsAsciiLetter(c) || c == '_' }

  predicate IsIdentChar(c: char) { IsIdentStart(c) || IsAsciiDigit(c) }

  /** A whole string of the shape `[a-zA-Z_][a-zA-Z0-9_]*`. */
  predicate IsIdentifier(s: string) {
    |s| > 0 && IsIdentStart(s[0]) && forall i | 1 <= i < |s| :: IsIdentChar(s[i])
  }

  /** `re.match(r'^[a-zA-Z_][a-zA-Z0-9_]*$', s)`. Without MULTILINE, `$` also matches just before a
      newline that ends the string, so an identifier followed by one "\n" is accepted too. */
  predicate MatchesIdentifierPattern(s: string) {
    || IsIdentifier(s)
    || (|s| > 1 && s[|s| - 1] == '\n' && IsIdentifier(s[..|s| - 1]))
  }

  /** What passes the identifier pattern is never blank, and strips to a strict identifier. */
  lemma PatternMatchStripsToIdentifier(s: string)
    requires MatchesIdentifierPattern(s)
    ensures !IsBlank(s)
    ensures IsIdentifier(Strip(s))
    ensures Strip(s) == s || Strip(s) + "\n" == s
  {
    assert !IsSpace(s[0]);
    if IsIdentifier(s) {
      StripUnchanged(s);
    } else {
      var t := s[..|s| - 1];
      assert s == t + "\n";
      assert TrimRight(s) == TrimRight(t);
      StripUnchanged(t);
    }
  }

  /** The pattern's one quirk: a trailing newline gets through. */
  lemma TrailingNewlineQuirk()
    ensures MatchesIdentifierPattern("users\n") && !IsIdentifier("users\n")
  {
    assert IsIdentifier("users\n"[..5]);
  }

  /** ASCII lower-casing of one character. */
  function LowerChar(c: char): char {
    if 'A' <= c <= 'Z' then (c as int + 32) as char else c
  }

  /** `s.lower()` on ASCII letters; every other character is left as it is. */
  function Lower(s: string): (r: string)
    ensures |r| == |s| && forall i | 0 <= i < |s| :: r[i] == LowerChar(s[i])
  {
    seq(|s|, i requires 0 <= i < |s| => LowerChar(s[i]))
  }

  lemma LowerConcat(a: string, b: string)
    ensures Lower(a + b) == Lower(a) + Lower(b)
  {
  }

  lemma LowerJoin(a: string, b: string)
    requires Lower(a) == a && Lower(b) == b
    ensures Lower(a + b) == a + b
  {
    LowerConcat(a, b);
  }

  /** Text without capital letters is its own lower case. */
  lemma LowerOfLowercase(s: string)
    requires forall k | 0 <= k < |s| :: !('A' <= s[k] <= 'Z')
    ensures Lower(s) == s
  {
  }

  lemma LowerIdempotent(s: string)
    ensures Lower(Lower(s)) == Lower(s)
  {
  }

  /** `s.startswith(p)` */
  predicate StartsWith(s: string, p: string) {
    |p| <= |s| && s[..|p|] == p
  }

  /** `t` occurs in `s` at position `i`. */
  predicate OccursAt(s: string, i: int, t: string) {
    0 <= i && i + |t| <= |s| && s[i..i + |t|] == t
  }

  /** `t in s` for strings. */
  predicate Contains(s: string, t: string) {
    exists i | 0 <= i <= |s| - |t| :: OccursAt(s, i, t)
  }

  /** An occurrence in the second part of a string is an occurrence in the whole. */
  lemma ContainedInSuffix(a: string, b: string, t: string)
    requires Contains(b, t)
    ensures Contains(a + b, t)
  {
    var i :| 0 <= i <= |b| - |t| && OccursAt(b, i, t);
    assert (a + b)[|a| + i..|a| + i + |t|] == b[i..i + |t|];
    assert OccursAt(a + b, |a| + i, t);
  }

  /** A string that lacks one of the characters of `t` does not contain `t`. */
  lemma MissingCharNotContained(s: string, t: string, k: int)
    requires 0 <= k < |t| && forall i | 0 <= i < |s| :: s[i] != t[k]
    ensures !Contains(s, t)
  {
    forall i | 0 <= i <= |s| - |t| ensures !OccursAt(s, i, t) {
      assert s[i..i + |t|][k] == s[i + k];
    }
  }

  /** A character that `t` does not hold cuts every occurrence of `t` to one side of it. */
  lemma SeparatorSplit(a: string, c: char, b: string, t: string)
    requires forall k | 0 <= k < |t| :: t[k] != c
    requires !Contains(a, t) && !Contains(b, t)
    ensures !Contains(a + [c] + b, t)
  {
    var s := a + [c] + b;
    forall i | 0 <= i <= |s| - |t| ensures !OccursAt(s, i, t) {
      if i + |t| <= |a| {
        assert s[i..i + |t|] == a[i..i + |t|];
        assert !OccursAt(a, i, t);
      } else if i > |a| {
        assert s[i..i + |t|] == b[i - |a| - 1..i - |a| - 1 + |t|];
        assert !OccursAt(b, i - |a| - 1, t);
      } else {
        assert s[i..i + |t|][|a| - i] == c != t[|a| - i];
      }
    }
  }

  function DigitChar(d: nat): char
    requires d < 10
  {
    "0123456789"[d]
  }

  /** `str(n)` for a natural number. */
  function NatToDecimal(n: nat): (r: string)
    ensures |r| > 0 && forall i | 0 <= i < |r| :: IsAsciiDigit(r[i])
  {
    if n < 10 then [DigitChar(n)] else NatToDecimal(n / 10) + [DigitChar(n % 10)]
  }

  /** `str(i)` for an integer. */
  function IntToDecimal(i: int): string {
    if i < 0 then "-" + NatToDecimal(-i) else NatToDecimal(i)
  }

  function DigitValue(c: char): nat
    requires IsAsciiDigit(c)
  {
    c as int - '0' as int
  }

  /** The number that a non-empty run of ASCII digits denotes. */
  function DigitsValue(ds: string): nat
    requires forall i | 0 <= i < |ds| :: IsAsciiDigit(ds[i])
  {
    if |ds| == 0 then 0 else DigitsValue(ds[..|ds| - 1]) * 10 + DigitValue(ds[|ds| - 1])
  }

  /** Python's `int(s)` on ASCII input: surrounding whitespace, an optional sign, then digits,
      where single underscores may separate digits. */
  function ParseInt(s: string): (r: Option<int>)
  {
    var t := Strip(s);
    if |t| > 0 && (t[0] == '-' || t[0] == '+') then
      match ParseDigits(t[1..])
      case None => None
      case Some(n) => Some(if t[0] == '-' then -(n as int) else n as int)
    else ParseDigits(t)
  }

  /** Digits separated by single underscores, with no underscore at either end. */
  predicate IsDigitGroupString(b: string) {
    && |b| > 0 && IsAsciiDigit(b[0]) && IsAsciiDigit(b[|b| - 1])
    && (forall i | 0 <= i < |b| :: IsAsciiDigit(b[i]) || b[i] == '_')
    && (forall i | 0 <= i < |b| - 1 :: !(b[i] == '_' && b[i + 1] == '_'))
  }

  function DropUnderscores(b: string): (r: string)
    ensures (forall i | 0 <= i < |b| :: IsAsciiDigit(b[i]) || b[i] == '_') ==>
              forall i | 0 <= i < |r| :: IsAsciiDigit(r[i])
  {
    if |b| == 0 then [] else DropUnderscores(b[..|b| - 1]) + (if b[|b| - 1] == '_' then [] else [b[|b| - 1]])
  }

  function ParseDigits(b: string): Option<nat> {
    if IsDigitGroupString(b) then Some(DigitsValue(DropUnderscores(b))) else None
  }

  lemma {:induction false} DigitsValueOfDecimal(n: nat)
    ensures DigitsValue(NatToDecimal(n)) == n
  {
    if n >= 10 {
      DigitsValueOfDecimal(n / 10);
      var r := NatToDecimal(n);
      assert r[..|r| - 1] == NatToDecimal(n / 10);
    }
  }

  lemma {:induction false} DropUnderscoresOfDigits(b: string)
    requires forall i | 0 <= i < |b| :: IsAsciiDigit(b[i])
    ensures DropUnderscores(b) == b
  {
    if |b| > 0 {
      DropUnderscoresOfDigits(b[..|b| - 1]);
      assert b[..|b| - 1] + [b[|b| - 1]] == b;
    }
  }

  lemma ParseDigitsOfDecimal(n: nat)
    ensures ParseDigits(NatToDecimal(n)) == Some(n)
  {
    var d := NatToDecimal(n);
    assert IsDigitGroupString(d);
    DropUnderscoresOfDigits(d);
    DigitsValueOfDecimal(n);
  }

  lemma NatRoundTrip(n: nat)
    ensures ParseInt(NatToDecimal(n)) == Some(n)
  {
    var s := NatToDecimal(n);
    StripUnchanged(s);
    assert !(s[0] == '-' || s[0] == '+');
    ParseDigitsOfDecimal(n);
  }

  lemma NegativeRoundTrip(n: nat)
    requires n > 0
    ensures ParseInt("-" + NatToDecimal(n)) == Some(-(n as int))
  {
    var d := NatToDecimal(n);
    var s := "-" + d;
    assert s[0] == '-' && s[|s| - 1] == d[|d| - 1];
    StripUnchanged(s);
    assert s[1..] == d;
    ParseDigitsOfDecimal(n);
  }

  /** Rendering an integer in decimal and parsing it back gives the integer again. */
  lemma DecimalRoundTrip(i: int)
    ensures ParseInt(IntToDecimal(i)) == Some(i)
  {
    if i < 0 {
      var n: nat := -i;
      NegativeRoundTrip(n);
    } else {
      var n: nat := i;
      NatRoundTrip(n);
    }
  }

  function Quote(s: string): string {
    "'" + s + "'"
  }

  /** Whether `repr` shows a character as it is below U+0100: it escapes the C0 controls, DEL, the
      C1 controls, the no-break space and the soft hyphen. */
  predicate ReprPrintable(c: char) {
    !(c < ' ' || '\U{7F}' <= c <= '\U{A0}' || c == '\U{AD}')
  }

  function HexDigit(n: int): char
    requires 0 <= n < 16
  {
    "0123456789abcdef"[n]
  }

  /** One character of `repr(s)` written between the quotes `q`. */
  function EscapeChar(c: char, q: char): string {
    if c == q || c == '\\' then ['\\', c]
    else if c == '\t' then "\\t"
    else if c == '\n' then "\\n"
    else if c == '\r' then "\\r"
    else if !ReprPrintable(c) then
      assert c as int <= 0xAD;
      ['\\', 'x', HexDigit(c as int / 16), HexDigit(c as int % 16)]
    else [c]
  }

  function EscapeString(s: string, q: char): string {
    if |s| == 0 then "" else EscapeChar(s[0], q) + EscapeString(s[1..], q)
  }

  /** `repr(s)`: in single quotes, unless `s` holds a single quote and no double quote. */
  function StrRepr(s: string): string {
    var q := if '\'' in s && '"' !in s then '"' else '\'';
    [q] + EscapeString(s, q) + [q]
  }

  /** A character that `repr` in single quotes copies unchanged. */
  predicate PlainChar(c: char) {
    ReprPrintable(c) && c != '\'' && c != '\\'
  }

  predicate PlainString(s: string) {
    forall k | 0 <= k < |s| :: PlainChar(s[k])
  }

  lemma {:induction false} PlainEscapesNothing(s: string)
    requires PlainString(s)
    ensures EscapeString(s, '\'') == s
  {
    if |s| > 0 {
      assert PlainString(s[1..]) by {
        forall k | 0 <= k < |s[1..]| ensures PlainChar(s[1..][k]) {
          assert s[1..][k] == s[k + 1];
        }
      }
      PlainEscapesNothing(s[1..]);
      assert PlainChar(s[0]);
      assert EscapeChar(s[0], '\'') == [s[0]];
      assert [s[0]] + s[1..] == s;
    }
  }

  /** A string of plain characters is shown as itself in single quotes. */
  lemma PlainRepr(s: string)
    requires PlainString(s)
    ensures StrRepr(s) == Quote(s)
  {
    assert '\'' !in s by {
      forall k | 0 <= k < |s| ensures s[k] != '\'' {
        assert PlainChar(s[k]);
      }
    }
    PlainEscapesNothing(s);
  }

  /** `", ".join(parts)` */
  function JoinComma(parts: seq<string>): string {
    if |parts| == 0 then ""
    else if |parts| == 1 then parts[0]
    else parts[0] + ", " + JoinComma(parts[1..])
  }

  function Reprs(xs: seq<string>): (r: seq<string>)
    ensures |r| == |xs| && forall i | 0 <= i < |xs| :: r[i] == StrRepr(xs[i])
  {
    seq(|xs|, i requires 0 <= i < |xs| => StrRepr(xs[i]))
  }

  /** `repr(xs)` for a list of strings. */
  function ListRepr(xs: seq<string>): string {
    "[" + JoinComma(Reprs(xs)) + "]"
  }

  lemma SingleListRepr(x: string)
    ensures ListRepr([x]) == "[" + StrRepr(x) + "]"
  {
  }

  lemma PairListRepr(x: string, y: string)
    ensures ListRepr([x, y]) == "[" + StrRepr(x) + ", " + StrRepr(y) + "]"
  {
    var r := Reprs([x, y]);
    assert r == [StrRepr(x), StrRepr(y)] && r[1..] == [StrRepr(y)];
    assert JoinComma(r) == StrRepr(x) + ", " + JoinComma([StrRepr(y)]);
  }

  lemma OccursInConcat(a: string, b: string, c: string)
    ensures OccursAt(a + b + c, |a|, b)
  {
    assert (a + b + c)[|a|..|a| + |b|] == b;
  }

  lemma {:induction false} OccursShift(pre: string, s: string, i: int, t: string)
    requires OccursAt(s, i, t)
    ensures OccursAt(pre + s, |pre| + i, t)
  {
    assert (pre + s)[|pre| + i..|pre| + i + |t|] == s[i..i + |t|];
  }

  lemma {:induction false} OccursExtend(s: string, post: string, i: int, t: string)
    requires OccursAt(s, i, t)
    ensures OccursAt(s + post, i, t)
  {
    assert (s + post)[i..i + |t|] == s[i..i + |t|];
  }

  /** The `repr` of every name of the list appears in its rendering, and a plain name appears as
      it is. */
  lemma {:induction false} ListReprMentions(xs: seq<string>, k: int)
    requires 0 <= k < |xs|
    ensures Contains(ListRepr(xs), StrRepr(xs[k]))
    ensures PlainString(xs[k]) ==> Contains(ListRepr(xs), xs[k])
  {
    var rs := Reprs(xs);
    var j := JoinedMentions(rs, k);
    OccursShift("[", JoinComma(rs), j, rs[k]);
    OccursExtend("[" + JoinComma(rs), "]", 1 + j, rs[k]);
    if PlainString(xs[k]) {
      PlainRepr(xs[k]);
      QuotedInside(ListRepr(xs), 1 + j, xs[k]);
    }
  }

  lemma QuotedInside(s: string, i: int, t: string)
    requires OccursAt(s, i, Quote(t))
    ensures OccursAt(s, i + 1, t)
  {
    var w := s[i..i + |Quote(t)|];
    assert w == "'" + t + "'";
    assert w[1..1 + |t|] == t;
    var u, v := s[i + 1..i + 1 + |t|], w[1..1 + |t|];
    forall k | 0 <= k < |u| ensures u[k] == v[k] {
      assert u[k] == s[i + 1 + k] && v[k] == w[k + 1];
    }
    assert u == v;
  }

  lemma {:induction false} JoinedMentions(parts: seq<string>, k: int) returns (j: int)
    requires 0 <= k < |parts|
    ensures OccursAt(JoinComma(parts), j, parts[k])
  {
    if k == 0 {
      j := 0;
      assert JoinComma(parts)[..|parts[0]|] == parts[0] by {
        if |parts| > 1 {
          assert JoinComma(parts) == parts[0] + (", " + JoinComma(parts[1..]));
        }
      }
    } else {
      var j' := JoinedMentions(parts[1..], k - 1);
      assert parts[1..][k - 1] == parts[k];
      var pre := parts[0] + ", ";
      assert JoinComma(parts) == pre + JoinComma(parts[1..]);
      OccursShift(pre, JoinComma(parts[1..]), j', parts[k]);
      j := |pre| + j';
    }
  }
}
