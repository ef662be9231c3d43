/**
  The assistant reply both websocket managers build from a prompt result:
  the display lines (summary, csv notice, SQL block, preview block or the
  fallback line) and the text sent, their non-empty lines joined by "\n".
  The preview block is shared with the fallback summary of the prompt
  handler.
 */
module ReplyFormat {
  import opened Wrappers
  import opened PyStr

  /**
    The fields of the dictionary the prompt handler returns that the reply
    reads: `summary`, `csv_filename` and `sql` (`None` when missing),
    `columns` and `preview_rows` (`or []` already applied) and `truncated`
    (its truthiness).
   */
  datatype PromptResponse = PromptResponse(
    summary: Option<string>,
    csvFilename: Option<string>,
    sql: Option<string>,
    columns: seq<Value>,
    previewRows: seq<seq<Value>>,
    truncated: bool)

  /** What the prompt handler did: a result, or the text of the exception it raised. */
  datatype PromptOutcome = PromptOk(response: PromptResponse) | PromptFailed(description: string)

  /** Rows shown in a preview block. */
  const PreviewShown := 5

  const FallbackLine := "Query executed successfully."
  const TruncatedLine := "... (truncated)"

  function Min(a: int, b: int): int {
    if a <= b then a else b
  }

  /** `", ".join(str(value) for value in row)`. */
  function RowText(row: seq<Value>): string {
    JoinValues(row, ", ")
  }

  function RowLines(rows: seq<seq<Value>>): (r: seq<string>)
    ensures |r| == |rows|
    ensures forall k :: 0 <= k < |rows| ==> r[k] == RowText(rows[k])
  {
    seq(|rows|, k requires 0 <= k < |rows| => RowText(rows[k]))
  }

  /**
    The preview block: present only when there are both columns and rows;
    then a blank line, "Preview:", the column line, at most five rows and
    the truncation marker when `truncated`.
   */
  function PreviewBlock(columns: seq<Value>, rows: seq<seq<Value>>, truncated: bool): (b: seq<string>)
    ensures b == [] <==> columns == [] || rows == []
    ensures b != [] ==> |b| == 3 + Min(PreviewShown, |rows|) + (if truncated then 1 else 0)
    ensures b != [] ==> b[..3] == ["", "Preview:", JoinValues(columns, ", ")]
    ensures b != [] ==> forall k :: 0 <= k < Min(PreviewShown, |rows|) ==> b[3 + k] == RowText(rows[k])
    ensures b != [] && truncated ==> b[|b| - 1] == TruncatedLine
  {
    if columns == [] || rows == [] then []
    else
      ["", "Preview:", JoinValues(columns, ", ")]
      + RowLines(rows[..Min(PreviewShown, |rows|)])
      + (if truncated then [TruncatedLine] else [])
  }

  function SummaryText(r: PromptResponse): string {
    Strip(r.summary.GetOr(""))
  }

  predicate Truthy(s: Option<string>) {
    s.Some? && s.value != ""
  }

  /** The csv notice is shown when there is a file name the summary does not already mention. */
  predicate ShowsCsvNotice(r: PromptResponse) {
    Truthy(r.csvFilename) && (SummaryText(r) == "" || !Contains(SummaryText(r), r.csvFilename.value))
  }

  function CsvNotice(name: string): string {
    "Results saved to " + name + "."
  }

  /** The summary, csv notice and SQL blocks. */
  function HeadLines(r: PromptResponse): seq<string> {
    SummaryLines(r) + NoticeLines(r) + SqlLines(r)
  }

  function SummaryLines(r: PromptResponse): seq<string> {
    if SummaryText(r) != "" then [SummaryText(r)] else []
  }

  function NoticeLines(r: PromptResponse): seq<string> {
    if ShowsCsvNotice(r) then [CsvNotice(r.csvFilename.value)] else []
  }

  function SqlLines(r: PromptResponse): seq<string> {
    if Truthy(r.sql) then ["", "SQL:", r.sql.value] else []
  }

  /** The display lines before the fallback is considered. */
  function Blocks(r: PromptResponse): seq<string> {
    HeadLines(r) + PreviewBlock(r.columns, r.previewRows, r.truncated)
  }

  /** `display_lines`: the blocks, or the single fallback line when there are none. */
  function DisplayLines(r: PromptResponse): (d: seq<string>)
    ensures d != [] && HeadLines(r) <= d
  {
    if Blocks(r) == [] then [FallbackLine] else Blocks(r)
  }

  /** The text of the assistant reply. */
  function ReplyText(r: PromptResponse): (t: string)
    ensures t != ""
  {
    ReplyTextNonEmpty(r);
    Join(NonEmpty(DisplayLines(r)), "\n")
  }

  /** The row lines of the preview, one per loop step (`for row in preview_rows[:5]`). */
  method ShownRowLines(rows: seq<seq<Value>>) returns (out: seq<string>)
    ensures out == RowLines(rows[..Min(PreviewShown, |rows|)])
  {
    var shown := rows[..Min(PreviewShown, |rows|)];
    out := [];
    var i := 0;
    while i < |shown|
      invariant 0 <= i <= |shown|
      invariant out == RowLines(shown[..i])
    {
      assert RowLines(shown[..i + 1]) == RowLines(shown[..i]) + [RowText(shown[i])];
      out := out + [RowText(shown[i])];
      i := i + 1;
    }
    assert shown[..i] == shown;
  }

  /** Appends the preview block. */
  method AppendPreview(lines: seq<string>, columns: seq<Value>, rows: seq<seq<Value>>, truncated: bool) returns (out: seq<string>)
    ensures out == lines + PreviewBlock(columns, rows, truncated)
  {
    out := lines;
    if columns != [] && rows != [] {
      var rowLines := ShownRowLines(rows);
      var marker := if truncated then [TruncatedLine] else [];
      out := out + (["", "Preview:", JoinValues(columns, ", ")] + rowLines + marker);
    }
  }

  /** The summary, csv notice and SQL lines, appended as the managers do. */
  method AppendHead(r: PromptResponse) returns (lines: seq<string>)
    ensures lines == HeadLines(r)
  {
    lines := [];
    var summaryText := Strip(r.summary.GetOr(""));
    if summaryText != "" {
      lines := lines + [summaryText];
    }
    assert lines == SummaryLines(r);
    if r.csvFilename.Some? && r.csvFilename.value != "" && (summaryText == "" || !Contains(summaryText, r.csvFilename.value)) {
      lines := lines + [CsvNotice(r.csvFilename.value)];
    }
    assert lines == SummaryLines(r) + NoticeLines(r);
    if r.sql.Some? && r.sql.value != "" {
      lines := lines + ["", "SQL:", r.sql.value];
    }
  }

  /**
    The formatter as the managers run it: the lines are appended block by
    block, the fallback added when none was, and the non-empty ones joined.
   */
  method FormatReply(r: PromptResponse) returns (text: string)
    ensures text == ReplyText(r)
  {
    var lines := AppendHead(r);
    lines := AppendPreview(lines, r.columns, r.previewRows, r.truncated);
    if lines == [] {
      lines := lines + ["Query executed successfully."];
    }
    text := Join(NonEmpty(lines), "\n");
  }

  // ---------------------------------------------------------------------
  // What the reply promises
  // ---------------------------------------------------------------------

  /** The fallback line appears exactly when no block produced a line. */
  lemma FallbackOnlyWhenNothingElse(r: PromptResponse)
    ensures Blocks(r) == [] <==> SummaryText(r) == "" && !Truthy(r.csvFilename) && !Truthy(r.sql) && (r.columns == [] || r.previewRows == [])
    ensures Blocks(r) == [] ==> DisplayLines(r) == [FallbackLine]
  {
  }

  /** A non-empty stripped summary is the first line of the reply. */
  lemma SummaryComesFirst(r: PromptResponse)
    requires SummaryText(r) != ""
    ensures DisplayLines(r)[0] == SummaryText(r)
    ensures NonEmpty(DisplayLines(r))[0] == SummaryText(r)
  {
  }

  /** Some display line is non-empty. */
  lemma DisplayHasText(r: PromptResponse) returns (x: string)
    ensures x in DisplayLines(r) && x != ""
  {
    var head := HeadLines(r);
    var preview := PreviewBlock(r.columns, r.previewRows, r.truncated);
    if head != [] {
      if SummaryText(r) != "" {
        x := SummaryText(r);
      } else if ShowsCsvNotice(r) {
        x := CsvNotice(r.csvFilename.value);
      } else {
        x := "SQL:";
        assert head[1] == x;
      }
      assert x in head;
    } else if preview != [] {
      x := "Preview:";
      assert preview[..3][1] == x;
      assert x in preview;
    } else {
      x := FallbackLine;
    }
  }

  /** The non-empty display lines, joined, are never empty. */
  lemma ReplyTextNonEmpty(r: PromptResponse)
    ensures Join(NonEmpty(DisplayLines(r)), "\n") != ""
  {
    var x := DisplayHasText(r);
    JoinNonEmptyContains(DisplayLines(r), "\n", x);
  }

  /** A head line is a display line. */
  lemma HeadIsDisplayed(r: PromptResponse, x: string)
    requires x in HeadLines(r)
    ensures x in DisplayLines(r)
  {
    assert Blocks(r) == HeadLines(r) + PreviewBlock(r.columns, r.previewRows, r.truncated);
  }

  /** A non-empty display line is part of the reply text. */
  lemma LineInReply(r: PromptResponse, x: string)
    requires x in DisplayLines(r) && x != ""
    ensures Contains(ReplyText(r), x)
  {
    JoinNonEmptyContains(DisplayLines(r), "\n", x);
  }

  lemma NoticeNamesFile(name: string)
    ensures Contains(CsvNotice(name), name)
  {
    var notice := CsvNotice(name);
    assert notice[17..17 + |name|] == name;
    assert OccursAt(notice, name, 17);
  }

  /** Whenever the result names a csv file, the reply text mentions it: in the summary or in the notice. */
  lemma ReplyNamesCsvFile(r: PromptResponse)
    requires Truthy(r.csvFilename)
    ensures Contains(ReplyText(r), r.csvFilename.value)
  {
    var name := r.csvFilename.value;
    if ShowsCsvNotice(r) {
      var notice := CsvNotice(name);
      assert notice in HeadLines(r);
      HeadIsDisplayed(r, notice);
      LineInReply(r, notice);
      NoticeNamesFile(name);
      ContainsTransitive(ReplyText(r), notice, name);
    } else {
      var summary := SummaryText(r);
      assert summary in HeadLines(r);
      HeadIsDisplayed(r, summary);
      LineInReply(r, summary);
      ContainsTransitive(ReplyText(r), summary, name);
    }
  }

  /** A non-empty SQL text always appears in the reply, after its "SQL:" heading. */
  lemma ReplyShowsSql(r: PromptResponse)
    requires Truthy(r.sql)
    ensures Contains(ReplyText(r), r.sql.value)
    ensures "SQL:" in DisplayLines(r)
  {
    var sqlBlock := ["", "SQL:", r.sql.value];
    assert HeadLines(r)[|HeadLines(r)| - 3..] == sqlBlock;
    assert r.sql.value in HeadLines(r) && "SQL:" in HeadLines(r);
    HeadIsDisplayed(r, "SQL:");
    HeadIsDisplayed(r, r.sql.value);
    LineInReply(r, r.sql.value);
  }

  /** The preview never shows more than five rows, plus its three header lines and one marker. */
  lemma PreviewIsBounded(columns: seq<Value>, rows: seq<seq<Value>>, truncated: bool)
    ensures |PreviewBlock(columns, rows, truncated)| <= 3 + PreviewShown + 1
  {
  }
}
