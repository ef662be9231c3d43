/**
  The TOON encoder for query results: one escaped scalar per cell, a
  `query:` line, a `results[N]{columns}:` header and one indented line per
  row.
 */
module Toon {
  import opened PyStr

  // ---------------------------------------------------------------------
  // Escaping one value
  // ---------------------------------------------------------------------

  predicate IsQuoteChar(c: char) {
    c == '"' || c == '\''
  }

  /** When `_escape_toon_string` quotes the string form of a value. */
  predicate NeedsQuoting(s: string): (q: bool)
    ensures !q ==> s != "" && Strip(s) == s && ',' !in s && '\n' !in s && '\r' !in s
  {
    || ',' in s
    || '\n' in s
    || '\r' in s
    || Strip(s) != s
    || (s != [] && IsQuoteChar(s[0]) && IsQuoteChar(s[|s| - 1]))
    || s == ""
  }

  /** `s.replace(c, t)` for a single character `c`. */
  function ReplaceChar(s: string, c: char, t: string): (r: string)
    ensures c !in t ==> c !in r
  {
    if s == [] then []
    else (if s[0] == c then t else [s[0]]) + ReplaceChar(s[1..], c, t)
  }

  /** The backslash escape of one character. */
  function EscapeChar(c: char): string {
    if c == '\\' then "\\\\" else if c == '"' then "\\\"" else [c]
  }

  /** Every backslash doubled and every double quote preceded by a backslash, in one pass. */
  function EscapeBody(s: string): string {
    if s == [] then [] else EscapeChar(s[0]) + EscapeBody(s[1..])
  }

  /** `value.replace('\\', '\\\\').replace('"', '\\"')` is the one-pass escape. */
  lemma {:induction false} TwoPassIsOnePass(s: string)
    ensures ReplaceChar(ReplaceChar(s, '\\', "\\\\"), '"', "\\\"") == EscapeBody(s)
  {
    if s != [] {
      TwoPassIsOnePass(s[1..]);
      ReplaceConcat(if s[0] == '\\' then "\\\\" else [s[0]], ReplaceChar(s[1..], '\\', "\\\\"), '"', "\\\"");
    }
  }

  lemma {:induction false} ReplaceConcat(a: string, b: string, c: char, t: string)
    ensures ReplaceChar(a + b, c, t) == ReplaceChar(a, c, t) + ReplaceChar(b, c, t)
  {
    if a == [] {
      assert a + b == b;
    } else {
      assert (a + b)[0] == a[0] && (a + b)[1..] == a[1..] + b;
      ReplaceConcat(a[1..], b, c, t);
    }
  }

  /** `_escape_toon_string(value)`. */
  function EscapeValue(v: Value): (r: string)
    ensures v.VNone? ==> r == "null"
    ensures v.VBool? ==> r == (if v.b then "true" else "false")
    ensures v.VText? && !NeedsQuoting(v.text) ==> r == v.text
  {
    match v
    case VNone => "null"
    case VBool(b) => if b then "true" else "false"
    case VText(s) =>
      if NeedsQuoting(s) then
        var escaped := ReplaceChar(ReplaceChar(s, '\\', "\\\\"), '"', "\\\"");
        "\"" + escaped + "\""
      else s
  }

  /** Reading a string back: a value written in double quotes loses them and its backslash escapes. */
  function UnescapeBody(t: string): string
    decreases |t|
  {
    if t == [] then []
    else if t[0] == '\\' && |t| >= 2 then [t[1]] + UnescapeBody(t[2..])
    else [t[0]] + UnescapeBody(t[1..])
  }

  lemma {:induction false} UnescapeEscape(s: string)
    ensures UnescapeBody(EscapeBody(s)) == s
  {
    if s != [] {
      UnescapeEscape(s[1..]);
      var e := EscapeBody(s);
      assert e == EscapeChar(s[0]) + EscapeBody(s[1..]);
      if s[0] == '\\' || s[0] == '"' {
        assert e[2..] == EscapeBody(s[1..]);
      } else {
        assert e[1..] == EscapeBody(s[1..]);
      }
    }
  }

  /** The TOON reading of a cell holding a string: quoted text is unescaped, anything else is taken as it is. */
  function UnescapeValue(t: string): string {
    if |t| >= 2 && t[0] == '"' && t[|t| - 1] == '"' then UnescapeBody(t[1..|t| - 1]) else t
  }

  /** Round trip: the string form of any value is recovered from its escaped form. */
  lemma EscapeRoundTrip(s: string)
    ensures UnescapeValue(EscapeValue(VText(s))) == s
  {
    if NeedsQuoting(s) {
      TwoPassIsOnePass(s);
      var r := EscapeValue(VText(s));
      assert r[1..|r| - 1] == EscapeBody(s);
      UnescapeEscape(s);
    }
  }

  lemma {:induction false} EscapeBodyLonger(s: string)
    ensures |EscapeBody(s)| >= |s|
  {
    if s != [] {
      EscapeBodyLonger(s[1..]);
    }
  }

  /** A string is written in double quotes, escaped, exactly when it needs quoting; otherwise it is written as it is. */
  lemma QuotedIff(s: string)
    ensures EscapeValue(VText(s)) == "\"" + EscapeBody(s) + "\"" <==> NeedsQuoting(s)
    ensures EscapeValue(VText(s)) == s <==> !NeedsQuoting(s)
  {
    TwoPassIsOnePass(s);
    EscapeBodyLonger(s);
  }

  lemma NullIsPlain()
    ensures !NeedsQuoting("null")
  {
    StripOfStripped("null");
    assert !IsQuoteChar("null"[0]);
  }

  lemma TrueIsPlain()
    ensures !NeedsQuoting("true")
  {
    StripOfStripped("true");
    assert !IsQuoteChar("true"[0]);
  }

  lemma FalseIsPlain()
    ensures !NeedsQuoting("false")
  {
    StripOfStripped("false");
    assert !IsQuoteChar("false"[0]);
  }

  /** A comma, a line break or surrounding blanks only ever appear inside double quotes. */
  lemma UnquotedIsPlain(v: Value)
    ensures var r := EscapeValue(v);
      (',' in r || '\n' in r || '\r' in r || r == "" || Strip(r) != r) ==> (|r| >= 2 && r[0] == '"' && r[|r| - 1] == '"')
  {
    match v
    case VNone => NullIsPlain();
    case VBool(b) => TrueIsPlain(); FalseIsPlain();
    case VText(s) =>
      if NeedsQuoting(s) {
        var r := EscapeValue(v);
        assert r[0] == '"' && r[|r| - 1] == '"';
      }
  }

  /** `None` and the string `null` are written alike, and so are `True` and the string `true`. */
  lemma EscapeAmbiguous()
    ensures EscapeValue(VNone) == EscapeValue(VText("null"))
    ensures EscapeValue(VBool(true)) == EscapeValue(VText("true"))
  {
    NullLikeNone();
    TrueLikeTrue();
  }

  lemma NullLikeNone()
    ensures EscapeValue(VNone) == EscapeValue(VText("null"))
  {
    NullIsPlain();
  }

  lemma TrueLikeTrue()
    ensures EscapeValue(VBool(true)) == EscapeValue(VText("true"))
  {
    TrueIsPlain();
  }

  // ---------------------------------------------------------------------
  // The document
  // ---------------------------------------------------------------------

  /** `"  " + ",".join(_escape_toon_string(val) for val in row)`. */
  function RowLine(row: seq<Value>): string {
    "  " + Join(seq(|row|, i requires 0 <= i < |row| => EscapeValue(row[i])), ",")
  }

  function HeaderLine(count: nat, columns: seq<string>): string {
    "results[" + NatToString(count) + "]{" + Join(columns, ",") + "}:"
  }

  const EmptyResults := "results[0]:"

  /** The list `lines` that `encode_query_results` builds. */
  function ToonLines(sql: string, columns: seq<string>, rows: seq<seq<Value>>): (ls: seq<string>)
    ensures |ls| >= 2 && ls[0] == "query: " + EscapeValue(VText(sql))
    ensures columns != [] && rows != [] ==>
      |ls| == |rows| + 2 && ls[1] == HeaderLine(|rows|, columns) && forall k :: 0 <= k < |rows| ==> ls[k + 2] == RowLine(rows[k])
    ensures columns == [] || rows == [] ==> ls == [ls[0], EmptyResults]
  {
    var first := "query: " + EscapeValue(VText(sql));
    if columns != [] && rows != [] then
      var body := RowLines(rows, |rows|);
      var ls := [first, HeaderLine(|rows|, columns)] + body;
      assert forall k :: 0 <= k < |rows| ==> ls[k + 2] == body[k];
      ls
    else [first, EmptyResults]
  }

  /** `encode_query_results(sql, columns, rows)`. */
  method EncodeQueryResults(sql: string, columns: seq<string>, rows: seq<seq<Value>>) returns (out: string)
    ensures out == Join(ToonLines(sql, columns, rows), "\n")
  {
    var first := "query: " + EscapeValue(VText(sql));
    var lines := [first];
    if columns != [] && rows != [] {
      lines := [first, HeaderLine(|rows|, columns)];
      var i := 0;
      while i < |rows|
        invariant 0 <= i <= |rows|
        invariant lines == [first, HeaderLine(|rows|, columns)] + RowLines(rows, i)
      {
        RowLinesSnoc(rows, i);
        lines := lines + [RowLine(rows[i])];
        i := i + 1;
      }
      TabularLines(sql, columns, rows);
    } else {
      lines := lines + [EmptyResults];
    }
    out := Join(lines, "\n");
  }

  lemma TabularLines(sql: string, columns: seq<string>, rows: seq<seq<Value>>)
    requires columns != [] && rows != []
    ensures ToonLines(sql, columns, rows) == ["query: " + EscapeValue(VText(sql)), HeaderLine(|rows|, columns)] + RowLines(rows, |rows|)
  {
  }

  /** The lines of the first `n` rows. */
  function RowLines(rows: seq<seq<Value>>, n: nat): (r: seq<string>)
    requires n <= |rows|
    ensures |r| == n && forall k :: 0 <= k < n ==> r[k] == RowLine(rows[k])
  {
    seq(n, k requires 0 <= k < n => RowLine(rows[k]))
  }

  lemma RowLinesSnoc(rows: seq<seq<Value>>, n: nat)
    requires n < |rows|
    ensures RowLines(rows, n + 1) == RowLines(rows, n) + [RowLine(rows[n])]
  {
  }

  /** Every row line starts with two spaces and holds the escaped cells in column order. */
  lemma RowLineCells(row: seq<Value>)
    requires forall i :: 0 <= i < |row| ==> !(row[i].VText? && NeedsQuoting(row[i].text))
    requires row != []
    ensures RowLine(row)[..2] == "  "
    ensures Split(RowLine(row)[2..], ',') == seq(|row|, i requires 0 <= i < |row| => EscapeValue(row[i]))
  {
    var cells := seq(|row|, i requires 0 <= i < |row| => EscapeValue(row[i]));
    forall k | 0 <= k < |cells|
      ensures ',' !in cells[k]
    {
      UnquotedIsPlain(row[k]);
    }
    SplitJoin(cells, ',');
    assert RowLine(row)[2..] == Join(cells, ",");
  }

  /** With no line break in the query, the column names or the cells, the document splits back into its lines. */
  lemma DocumentSplitsIntoLines(sql: string, columns: seq<string>, rows: seq<seq<Value>>)
    requires forall k :: 0 <= k < |ToonLines(sql, columns, rows)| ==> '\n' !in ToonLines(sql, columns, rows)[k]
    ensures Split(Join(ToonLines(sql, columns, rows), "\n"), '\n') == ToonLines(sql, columns, rows)
  {
    SplitJoin(ToonLines(sql, columns, rows), '\n');
  }

  lemma {:induction false} EscapeKeepsLineBreak(s: string)
    requires '\n' in s
    ensures '\n' in EscapeBody(s)
  {
    if s[0] != '\n' {
      assert '\n' in s[1..];
      EscapeKeepsLineBreak(s[1..]);
    }
  }

  /** A line break inside a quoted cell is kept as it is, so the row spills over two physical lines. */
  lemma QuotedNewlineSpills(sql: string, column: string, s: string)
    requires '\n' in s
    ensures var lines := ToonLines(sql, [column], [[VText(s)]]);
      |lines| == 3 && '\n' in lines[2]
  {
    TwoPassIsOnePass(s);
    EscapeKeepsLineBreak(s);
    var cell := EscapeValue(VText(s));
    assert cell == "\"" + EscapeBody(s) + "\"";
    assert '\n' in cell;
    var line := ToonLines(sql, [column], [[VText(s)]])[2];
    assert line == "  " + Join([cell], ",");
  }
}
