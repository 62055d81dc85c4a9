/** The text summary `mcp_text_to_sql` attaches to a successful query
    result: three header lines, then either a "no match" line or up to five
    record lines and, past five rows, a line counting the rest. */
module Summary {
  import opened Wrappers
  import opened PyJson
  import Text

  /** At most this many records are listed. */
  const ShownRecords := 5
  const NotAvailable := JStr("N/A")

  const SampleResultsLine := "Sample results:\n"
  const NoMatchesLine := "No matching records found.\n"

  function Min(a: int, b: int): int {
    if a < b then a else b
  }

  function QueryLine(query: string): string {
    "Query: " + query + "\n"
  }

  function SqlLine(sql: string): string {
    "Generated SQL: " + sql + "\n"
  }

  function CountLine(rowCount: nat): string {
    "Results: " + Text.Decimal(rowCount) + " records found\n\n"
  }

  function MoreLine(rest: nat): string {
    "... and " + Text.Decimal(rest) + " more records\n"
  }

  /** A line of the summary: fixed text, or the listing of one record with
      the printed values its `get` calls return. */
  datatype Line =
    | Plain(s: string)
    | Listed(number: nat, medCode: string, slot: string, value: string)

  /** The text of a line. */
  function Render(line: Line): string {
    match line
    case Plain(s) => s
    case Listed(number, medCode, slot, value) =>
      "Record " + Text.Decimal(number) + ": MEDCode=" + medCode + ", " +
      "Slot=" + slot + ", " +
      "Value=" + value + "\n"
  }

  /** `record.get(key, 'N/A')` for a dict record, as an f-string prints it. */
  function Field(record: Json, key: string): string
    requires record.JObject?
  {
    Str(Get(record, key, NotAvailable).value)
  }

  /** The line for the record shown as number `number` (counted from 1), or
      the error its `get` raises when it is not a dict. */
  function RecordLine(number: nat, record: Json): Result<Line> {
    if record.JObject? then Ok(Listed(number, Field(record, "MEDCode"), Field(record, "Slot"), Field(record, "Value")))
    else Err(NoAttribute(record, "get"))
  }

  /** The lines for `records`, numbered from 1; the first record that is not
      a dict ends the summary with its error. */
  function RecordLines(records: seq<Json>): Result<seq<Line>> {
    if records == [] then Ok([])
    else
      match RecordLines(records[..|records| - 1])
      case Err(e) => Err(e)
      case Ok(lines) =>
        match RecordLine(|records|, records[|records| - 1])
        case Err(e) => Err(e)
        case Ok(line) => Ok(lines + [line])
  }

  function Header(query: string, sql: string, rowCount: nat): seq<Line> {
    [Plain(QueryLine(query)), Plain(SqlLine(sql)), Plain(CountLine(rowCount))]
  }

  /** The summary's lines for a result with this query, SQL and rows. */
  function SummaryLines(query: string, sql: string, items: seq<Json>): Result<seq<Line>> {
    var n := |items|;
    if n == 0 then Ok(Header(query, sql, n) + [Plain(NoMatchesLine)])
    else
      match RecordLines(items[..Min(ShownRecords, n)])
      case Err(e) => Err(e)
      case Ok(lines) =>
        Ok(Header(query, sql, n) + [Plain(SampleResultsLine)] + lines +
           (if n > ShownRecords then [Plain(MoreLine(n - ShownRecords))] else []))
  }

  function Concat(lines: seq<Line>): string {
    if lines == [] then "" else Concat(lines[..|lines| - 1]) + Render(lines[|lines| - 1])
  }

  /** The summary text, or the error building it raises. */
  function SummaryText(query: string, sql: string, items: seq<Json>): Result<string> {
    match SummaryLines(query, sql, items)
    case Err(e) => Err(e)
    case Ok(lines) => Ok(Concat(lines))
  }

  lemma ConcatAppend(lines: seq<Line>, last: Line)
    ensures Concat(lines + [last]) == Concat(lines) + Render(last)
  {
    assert (lines + [last])[..|lines|] == lines;
  }

  lemma ConcatHeader(query: string, sql: string, rowCount: nat)
    ensures Concat(Header(query, sql, rowCount)) == QueryLine(query) + SqlLine(sql) + CountLine(rowCount)
  {
    var head := Header(query, sql, rowCount);
    assert Concat(head[..1]) == QueryLine(query) by {
      assert head[..1][..0] == [];
    }
    assert Concat(head[..2]) == QueryLine(query) + SqlLine(sql) by {
      assert head[..2][..1] == head[..1];
    }
  }

  /** One more record line, when the records so far and the next one all give lines. */
  lemma RecordLinesStep(items: seq<Json>, i: nat)
    requires i < |items|
    requires RecordLines(items[..i]).Ok? && RecordLine(i + 1, items[i]).Ok?
    ensures RecordLines(items[..i + 1]) == Ok(RecordLines(items[..i]).value + [RecordLine(i + 1, items[i]).value])
  {
    assert items[..i + 1][..i] == items[..i];
  }

  /** The summary's lines before the record lines of a non-empty result. */
  function Top(query: string, sql: string, rowCount: nat): seq<Line> {
    Header(query, sql, rowCount) + [Plain(SampleResultsLine)]
  }

  lemma TopText(query: string, sql: string, rowCount: nat)
    ensures Concat(Top(query, sql, rowCount)) == QueryLine(query) + SqlLine(sql) + CountLine(rowCount) + SampleResultsLine
  {
    ConcatHeader(query, sql, rowCount);
    ConcatAppend(Header(query, sql, rowCount), Plain(SampleResultsLine));
  }

  lemma EmptySummaryText(query: string, sql: string)
    ensures SummaryText(query, sql, []) == Ok(QueryLine(query) + SqlLine(sql) + CountLine(0) + NoMatchesLine)
  {
    ConcatHeader(query, sql, 0);
    ConcatAppend(Header(query, sql, 0), Plain(NoMatchesLine));
  }

  /** The text of a non-empty result's summary, once its record lines exist. */
  lemma ListedSummaryText(query: string, sql: string, items: seq<Json>)
    requires items != []
    requires RecordLines(items[..Min(ShownRecords, |items|)]).Ok?
    ensures var n := |items|;
      SummaryText(query, sql, items) ==
        Ok(Concat(Top(query, sql, n) + RecordLines(items[..Min(ShownRecords, n)]).value) +
           (if n > ShownRecords then MoreLine(n - ShownRecords) else ""))
  {
    var n := |items|;
    var listed := Top(query, sql, n) + RecordLines(items[..Min(ShownRecords, n)]).value;
    if n > ShownRecords {
      ConcatAppend(listed, Plain(MoreLine(n - ShownRecords)));
      assert SummaryLines(query, sql, items) == Ok(listed + [Plain(MoreLine(n - ShownRecords))]);
    } else {
      assert listed + [] == listed;
      assert Concat(listed) + "" == Concat(listed);
      assert SummaryLines(query, sql, items) == Ok(listed);
    }
  }

  /** One loop step: the text of the lines so far, plus the next record's line. */
  lemma ListedStep(query: string, sql: string, items: seq<Json>, i: nat)
    requires i < |items|
    requires RecordLines(items[..i]).Ok? && RecordLine(i + 1, items[i]).Ok?
    ensures RecordLines(items[..i + 1]).Ok?
    ensures Concat(Top(query, sql, |items|) + RecordLines(items[..i + 1]).value) ==
      Concat(Top(query, sql, |items|) + RecordLines(items[..i]).value) + Render(RecordLine(i + 1, items[i]).value)
  {
    var before := Top(query, sql, |items|) + RecordLines(items[..i]).value;
    var line := RecordLine(i + 1, items[i]).value;
    RecordLinesStep(items, i);
    ConcatAppend(before, line);
    assert before + [line] == Top(query, sql, |items|) + RecordLines(items[..i + 1]).value;
  }

  /** The loop over the first rows: each record's line is appended to the
      text; the first record that is not a dict ends the loop with its error. */
  method AppendRecordLines(query: string, sql: string, items: seq<Json>, start: string) returns (r: Result<string>)
    requires start == Concat(Top(query, sql, |items|))
    ensures var shown := items[..Min(ShownRecords, |items|)];
      r == (if RecordLines(shown).Ok? then Ok(Concat(Top(query, sql, |items|) + RecordLines(shown).value))
            else Err(RecordLines(shown).error))
  {
    var text := start;
    var shown := Min(ShownRecords, |items|);
    assert items[..0] == [] && Top(query, sql, |items|) + [] == Top(query, sql, |items|);
    for i := 0 to shown
      invariant RecordLines(items[..i]).Ok?
      invariant text == Concat(Top(query, sql, |items|) + RecordLines(items[..i]).value)
    {
      var line := RecordLine(i + 1, items[i]);
      if line.Err? {
        assert items[..shown][..i] == items[..i];
        RecordLinesFirstError(items[..shown], i);
        return Err(line.error);
      }
      ListedStep(query, sql, items, i);
      text := text + Render(line.value);
    }
    r := Ok(text);
  }

  /** The summary built as `mcp_text_to_sql` builds it, by `+=` on a string. */
  method BuildSummary(query: string, sql: string, items: seq<Json>) returns (summary: Result<string>)
    ensures summary == SummaryText(query, sql, items)
  {
    var n := |items|;
    var text := QueryLine(query);
    text := text + SqlLine(sql);
    text := text + CountLine(n);
    if n == 0 {
      text := text + NoMatchesLine;
      EmptySummaryText(query, sql);
      return Ok(text);
    }
    text := text + SampleResultsLine;
    TopText(query, sql, n);
    var listed := AppendRecordLines(query, sql, items, text);
    if listed.Err? {
      return listed;
    }
    text := listed.value;
    ListedSummaryText(query, sql, items);
    if n > ShownRecords {
      text := text + MoreLine(n - ShownRecords);
    } else {
      assert text + "" == text;
    }
    summary := Ok(text);
  }

  /** The record lines exist exactly when every listed record is a dict. */
  lemma {:induction false} RecordLinesDefined(records: seq<Json>)
    ensures RecordLines(records).Ok? <==> forall k :: 0 <= k < |records| ==> records[k].JObject?
  {
    if records != [] {
      var init := records[..|records| - 1];
      RecordLinesDefined(init);
      assert forall k :: 0 <= k < |init| ==> init[k] == records[k];
    }
  }

  /** There is one record line per record, in order, each numbered from 1. */
  lemma {:induction false} RecordLinesExact(records: seq<Json>)
    requires RecordLines(records).Ok?
    ensures |RecordLines(records).value| == |records|
    ensures forall k :: 0 <= k < |records| ==> RecordLine(k + 1, records[k]) == Ok(RecordLines(records).value[k])
  {
    if records != [] {
      var init := records[..|records| - 1];
      RecordLinesExact(init);
      assert forall k :: 0 <= k < |init| ==> init[k] == records[k];
      assert RecordLines(records) == Ok(RecordLines(init).value + [RecordLine(|records|, records[|records| - 1]).value]);
    }
  }

  /** There is one record line per record, and every one is a listing. */
  lemma {:induction false} RecordLinesListed(records: seq<Json>)
    requires RecordLines(records).Ok?
    ensures |RecordLines(records).value| == |records|
    ensures forall k :: 0 <= k < |RecordLines(records).value| ==> RecordLines(records).value[k].Listed?
  {
    if records != [] {
      RecordLinesListed(records[..|records| - 1]);
    }
  }

  /** The error that ends the summary is the one raised by the first record that is not a dict. */
  lemma {:induction false} RecordLinesFirstError(records: seq<Json>, i: nat)
    requires i < |records|
    requires RecordLines(records[..i]).Ok?
    requires !records[i].JObject?
    ensures RecordLines(records) == Err(NoAttribute(records[i], "get"))
    decreases |records|
  {
    var init := records[..|records| - 1];
    if i < |init| {
      assert init[..i] == records[..i];
      RecordLinesFirstError(init, i);
    } else {
      assert init == records[..i];
    }
  }

  /** A summary can be built exactly when every record it lists is a dict. */
  lemma SummaryDefined(query: string, sql: string, items: seq<Json>)
    ensures SummaryLines(query, sql, items).Ok? <==>
      forall k :: 0 <= k < Min(ShownRecords, |items|) ==> items[k].JObject?
  {
    var shown := items[..Min(ShownRecords, |items|)];
    RecordLinesDefined(shown);
    assert forall k :: 0 <= k < |shown| ==> shown[k] == items[k];
  }

  /** The summary's layout: the header, then "no match" for an empty result;
      otherwise a "sample results" line, min(5, n) record lines numbered from
      1, and, only past five rows, a last line counting the rows not shown. */
  lemma SummaryLayout(query: string, sql: string, items: seq<Json>)
    requires SummaryLines(query, sql, items).Ok?
    ensures var ps := SummaryLines(query, sql, items).value;
      var n := |items|;
      && ps[..3] == Header(query, sql, n)
      && |ps| == (if n == 0 then 4 else 4 + Min(ShownRecords, n) + (if n > ShownRecords then 1 else 0))
      && ps[3] == Plain(if n == 0 then NoMatchesLine else SampleResultsLine)
      && (n > ShownRecords ==> ps[|ps| - 1] == Plain(MoreLine(n - ShownRecords)))
      && (forall k :: 4 <= k < 4 + Min(ShownRecords, n) && n > 0 ==> ps[k].Listed?)
  {
    var n := |items|;
    if n > 0 {
      var shown := items[..Min(ShownRecords, n)];
      RecordLinesListed(shown);
      var ps := SummaryLines(query, sql, items).value;
      var tail := if n > ShownRecords then [Plain(MoreLine(n - ShownRecords))] else [];
      assert ps == Top(query, sql, n) + RecordLines(shown).value + tail;
      forall k | 4 <= k < 4 + Min(ShownRecords, n)
        ensures ps[k].Listed?
      {
        assert ps[k] == RecordLines(shown).value[k - 4];
      }
    }
  }

  /** The record lines follow the "sample results" line, numbered from 1:
      the k-th is the line for row k. */
  lemma SummaryRecordLines(query: string, sql: string, items: seq<Json>)
    requires items != [] && SummaryLines(query, sql, items).Ok?
    ensures var ps := SummaryLines(query, sql, items).value;
      |ps| >= 4 + Min(ShownRecords, |items|) &&
      forall k :: 0 <= k < Min(ShownRecords, |items|) ==> RecordLine(k + 1, items[k]) == Ok(ps[4 + k])
  {
    var n := |items|;
    var shown := items[..Min(ShownRecords, n)];
    RecordLinesExact(shown);
    var ps := SummaryLines(query, sql, items).value;
    var lines := RecordLines(shown).value;
    var tail := if n > ShownRecords then [Plain(MoreLine(n - ShownRecords))] else [];
    var top := Top(query, sql, n);
    assert |top| == 4;
    assert ps == top + lines + tail;
    assert ps[4..4 + |lines|] == lines;
    forall k | 0 <= k < Min(ShownRecords, n)
      ensures RecordLine(k + 1, items[k]) == Ok(ps[4 + k])
    {
      assert ps[4 + k] == lines[k] && shown[k] == items[k];
    }
  }

  /** The line counting the rows not shown. */
  predicate IsMoreLine(line: Line) {
    line.Plain? && |line.s| > 0 && line.s[0] == '.'
  }

  /** In a listed summary, the lines after the "sample results" line are
      record lines, and no line before the last counts rows or reports no match. */
  lemma ListedLinesOrdinary(query: string, sql: string, items: seq<Json>)
    requires items != [] && SummaryLines(query, sql, items).Ok?
    ensures var ps := SummaryLines(query, sql, items).value;
      |ps| >= 4 + Min(ShownRecords, |items|) &&
      forall k :: 4 <= k < 4 + Min(ShownRecords, |items|) ==> ps[k].Listed?
    ensures var ps := SummaryLines(query, sql, items).value;
      forall k :: 0 <= k < |ps| - (if |items| > ShownRecords then 1 else 0) ==>
        !IsMoreLine(ps[k]) && ps[k] != Plain(NoMatchesLine)
  {
    var n := |items|;
    var ps := SummaryLines(query, sql, items).value;
    var shown := items[..Min(ShownRecords, n)];
    var lines := RecordLines(shown).value;
    var tail := if n > ShownRecords then [Plain(MoreLine(n - ShownRecords))] else [];
    assert ps == Top(query, sql, n) + lines + tail;
    RecordLinesListed(shown);
    assert ps[0].s[0] == 'Q' && ps[1].s[0] == 'G' && ps[2].s[0] == 'R';
    forall k | 4 <= k < 4 + Min(ShownRecords, n)
      ensures ps[k].Listed?
    {
      assert ps[k] == lines[k - 4];
    }
  }

  /** "No matching records found." appears exactly when the result is empty. */
  lemma NoMatchesExactlyWhenEmpty(query: string, sql: string, items: seq<Json>)
    requires SummaryLines(query, sql, items).Ok?
    ensures Plain(NoMatchesLine) in SummaryLines(query, sql, items).value <==> items == []
  {
    SummaryLayout(query, sql, items);
    if items != [] {
      ListedLinesOrdinary(query, sql, items);
      var ps := SummaryLines(query, sql, items).value;
      if |items| > ShownRecords {
        assert ps[|ps| - 1].s[0] == '.';
      }
    }
  }

  /** A line counting the rows not shown appears exactly past five rows. */
  lemma MoreLineExactlyPastFive(query: string, sql: string, items: seq<Json>)
    requires SummaryLines(query, sql, items).Ok?
    ensures var ps := SummaryLines(query, sql, items).value;
      (exists k :: 0 <= k < |ps| && IsMoreLine(ps[k])) <==> |items| > ShownRecords
    ensures var ps := SummaryLines(query, sql, items).value;
      && (IsMoreLine(ps[|ps| - 1]) <==> |items| > ShownRecords)
      && (|items| > ShownRecords ==> ps[|ps| - 1] == Plain(MoreLine(|items| - ShownRecords)))
  {
    SummaryLayout(query, sql, items);
    var ps := SummaryLines(query, sql, items).value;
    if items == [] {
      assert ps[0].s[0] == 'Q' && ps[1].s[0] == 'G' && ps[2].s[0] == 'R';
      assert forall k :: 0 <= k < |ps| ==> !IsMoreLine(ps[k]);
    } else {
      ListedLinesOrdinary(query, sql, items);
      if |items| > ShownRecords {
        assert IsMoreLine(ps[|ps| - 1]);
      }
    }
  }
}
