/** The CSV export, and an independent reader after section 2 of RFC 4180. */
module Csv {
  import opened Wrappers
  import opened SqlValues

  // ----- the writer -----

  const BASE_HEADERS: seq<string> := [
    "event_id", "journal_id", "journal_name", "rule_id", "tracker_id", "tracker_name", "place_id", "place_name",
    "event_type", "occurred_at", "confirmed_at", "source", "status", "note"]

  const COORDINATE_HEADERS: seq<string> := ["latitude", "longitude", "accuracy_m"]

  const BYTE_ORDER_MARK: char := '\U{FEFF}'

  predicate IsBlank(c: char)
  {
    c == ' ' || c == '\t' || c == '\r' || c == '\n'
  }

  function LeftTrimmed(text: string): (trimmed: string)
    ensures |trimmed| <= |text|
  {
    if text != "" && IsBlank(text[0]) then LeftTrimmed(text[1..]) else text
  }

  /** A spreadsheet would take this text for a formula. */
  predicate IsFormula(text: string)
  {
    var trimmed := LeftTrimmed(text);
    trimmed != "" && trimmed[0] in "=+-@"
  }

  predicate NeedsQuotes(text: string)
  {
    exists k :: 0 <= k < |text| && text[k] in ",\"\r\n"
  }

  function Doubled(text: string): string
  {
    if text == "" then "" else (if text[0] == '"' then "\"\"" else [text[0]]) + Doubled(text[1..])
  }

  /** What a cell shows: texts that look like formulas are neutralised, numbers are spelled. */
  function Shown(value: SqlValue, spell: SqlValue -> string): string
  {
    match value
    case Null => ""
    case Text(text) => if IsFormula(text) then "'" + text else text
    case _ => spell(value)
  }

  function Quoted(text: string): string
  {
    if NeedsQuotes(text) then "\"" + Doubled(text) + "\"" else text
  }

  function Cell(value: SqlValue, spell: SqlValue -> string): string
  {
    Quoted(Shown(value, spell))
  }

  /** The cells of a line, separated by commas. */
  function Cells(values: seq<SqlValue>, spell: SqlValue -> string): string
  {
    if values == [] then ""
    else if |values| == 1 then Cell(values[0], spell)
    else Cell(values[0], spell) + "," + Cells(values[1..], spell)
  }

  function Line(values: seq<SqlValue>, spell: SqlValue -> string): string
  {
    Cells(values, spell) + "\r\n"
  }

  function Lines(rows: seq<seq<SqlValue>>, spell: SqlValue -> string): string
  {
    if rows == [] then "" else Lines(rows[..|rows| - 1], spell) + Line(rows[|rows| - 1], spell)
  }

  function Texts(headers: seq<string>): (values: seq<SqlValue>)
    ensures |values| == |headers|
  {
    seq(|headers|, k requires 0 <= k < |headers| => Text(headers[k]))
  }

  function Headers(includeCoordinates: bool): seq<string>
  {
    if includeCoordinates then BASE_HEADERS + COORDINATE_HEADERS else BASE_HEADERS
  }

  /** Without coordinates only the columns of the base headers are written. */
  function Exported(rows: seq<seq<SqlValue>>, includeCoordinates: bool): (exported: seq<seq<SqlValue>>)
    requires forall k :: 0 <= k < |rows| ==> |rows[k]| == 17
    ensures |exported| == |rows|
    ensures forall k :: 0 <= k < |rows| ==> |exported[k]| == |Headers(includeCoordinates)|
  {
    if includeCoordinates then rows else seq(|rows|, k requires 0 <= k < |rows| => rows[k][..14])
  }

  /** The records are the names of the columns and, for each row, what its columns show, in this order: the
      identifiers and names of the event, its journal, its rule, its tracker and its place, its type and its
      times, its source, status and note; its coordinates and accuracy only if they are asked for. */
  predicate ShowsColumns(
    records: seq<seq<string>>, rows: seq<seq<SqlValue>>, includeCoordinates: bool, spell: SqlValue -> string)
    requires forall k :: 0 <= k < |rows| ==> |rows[k]| == 17
  {
    var columns := if includeCoordinates then 17 else 14;
    && |records| == |rows| + 1
    && |records[0]| == columns && records[0][..14] == [
      "event_id", "journal_id", "journal_name", "rule_id", "tracker_id", "tracker_name", "place_id", "place_name",
      "event_type", "occurred_at", "confirmed_at", "source", "status", "note"]
    && (includeCoordinates ==> records[0][14..] == ["latitude", "longitude", "accuracy_m"])
    && forall k :: 0 <= k < |rows| ==>
         |records[k + 1]| == columns && forall j :: 0 <= j < columns ==> records[k + 1][j] == Shown(rows[k][j], spell)
  }

  lemma ColumnsShown(rows: seq<seq<SqlValue>>, includeCoordinates: bool, spell: SqlValue -> string)
    requires forall k :: 0 <= k < |rows| ==> |rows[k]| == 17
    ensures ShowsColumns([Headers(includeCoordinates)] + AllShown(Exported(rows, includeCoordinates), spell),
                         rows, includeCoordinates, spell)
  {
  }

  /** The text of an export. */
  function ExportOf(rows: seq<seq<SqlValue>>, includeCoordinates: bool, spell: SqlValue -> string): string
    requires forall k :: 0 <= k < |rows| ==> |rows[k]| == 17
  {
    var header := Line(Texts(Headers(includeCoordinates)), spell);
    [BYTE_ORDER_MARK] + (header + Lines(Exported(rows, includeCoordinates), spell))
  }

  /** Without coordinates the export tells nothing of them: rows that differ only there give the same text. */
  lemma CoordinatesWithheld(a: seq<seq<SqlValue>>, b: seq<seq<SqlValue>>, spell: SqlValue -> string)
    requires |a| == |b| && forall k :: 0 <= k < |a| ==> |a[k]| == |b[k]| == 17 && a[k][..14] == b[k][..14]
    ensures ExportOf(a, false, spell) == ExportOf(b, false, spell)
  {
    assert Exported(a, false) == Exported(b, false);
  }

  /** Write the header and one line for each row, and report their number. */
  method ExportJournal(rows: seq<seq<SqlValue>>, includeCoordinates: bool, spell: SqlValue -> string)
    returns (output: string, count: nat)
    requires forall k :: 0 <= k < |rows| ==> |rows[k]| == 17
    ensures count == |rows|
    ensures Parse(output) ==
            Some([Headers(includeCoordinates)] + AllShown(Exported(rows, includeCoordinates), spell))
    ensures Parse(output).Some? && ShowsColumns(Parse(output).value, rows, includeCoordinates, spell)
    ensures output == ExportOf(rows, includeCoordinates, spell) && output[0] == '\U{FEFF}'
  {
    ColumnsShown(rows, includeCoordinates, spell);
    var exported := Exported(rows, includeCoordinates);
    var headers := Texts(Headers(includeCoordinates));
    output := WriteLines(headers, exported, spell);
    LinesRead(headers, exported, spell);
    HeadersArePlain(includeCoordinates);
    HeadersShown(Headers(includeCoordinates), spell);
    count := |rows|;
  }

  method WriteLines(headers: seq<SqlValue>, rows: seq<seq<SqlValue>>, spell: SqlValue -> string)
    returns (output: string)
    ensures output == [BYTE_ORDER_MARK] + (Line(headers, spell) + Lines(rows, spell))
  {
    output := [BYTE_ORDER_MARK] + Line(headers, spell);
    assert Line(headers, spell) + Lines(rows[..0], spell) == Line(headers, spell);
    var k := 0;
    while k < |rows|
      invariant 0 <= k <= |rows|
      invariant output == [BYTE_ORDER_MARK] + (Line(headers, spell) + Lines(rows[..k], spell))
    {
      LinesAppend(rows, k, spell);
      Regroup([BYTE_ORDER_MARK], Line(headers, spell), Lines(rows[..k], spell), Line(rows[k], spell));
      output := output + Line(rows[k], spell);
      k := k + 1;
    }
    assert rows[..k] == rows;
  }

  lemma Regroup(a: string, b: string, c: string, d: string)
    ensures a + (b + c) + d == a + (b + (c + d))
  {
  }

  lemma LinesAppend(rows: seq<seq<SqlValue>>, k: nat, spell: SqlValue -> string)
    requires k < |rows|
    ensures Lines(rows[..k + 1], spell) == Lines(rows[..k], spell) + Line(rows[k], spell)
  {
    assert rows[..k + 1][..k] == rows[..k];
  }

  // ----- the reader -----

  datatype Mode =
    | AtStart   // before the first character of a field
    | InPlain   // inside an unquoted field
    | InQuotes  // inside a quoted field
    | AfterQuote // a quote inside a quoted field: its end, or half of a doubled quote
    | AfterReturn // a carriage return outside quotes
    | Broken

  datatype Reader = Reader(records: seq<seq<string>>, record: seq<string>, field: string, mode: Mode)

  function Feed(r: Reader, c: char): Reader
  {
    match r.mode
    case AtStart =>
      if c == '"' then r.(mode := InQuotes)
      else if c == ',' then EndField(r)
      else if c == '\r' then r.(mode := AfterReturn)
      else if c == '\n' then r.(mode := Broken)
      else r.(field := r.field + [c], mode := InPlain)
    case InPlain =>
      if c == ',' then EndField(r)
      else if c == '\r' then r.(mode := AfterReturn)
      else if c == '"' || c == '\n' then r.(mode := Broken)
      else r.(field := r.field + [c])
    case InQuotes => if c == '"' then r.(mode := AfterQuote) else r.(field := r.field + [c])
    case AfterQuote =>
      if c == '"' then r.(field := r.field + [c], mode := InQuotes)
      else if c == ',' then EndField(r)
      else if c == '\r' then r.(mode := AfterReturn)
      else r.(mode := Broken)
    case AfterReturn => if c == '\n' then EndRecord(r) else r.(mode := Broken)
    case Broken => r
  }

  function EndField(r: Reader): Reader
  {
    r.(record := r.record + [r.field], field := "", mode := AtStart)
  }

  function EndRecord(r: Reader): Reader
  {
    Reader(r.records + [r.record + [r.field]], [], "", AtStart)
  }

  function FeedAll(r: Reader, text: string): Reader
    decreases |text|
  {
    if text == "" then r else FeedAll(Feed(r, text[0]), text[1..])
  }

  /** The records of a whole text. A byte order mark is skipped, and the last line break is optional. */
  function Parse(text: string): Option<seq<seq<string>>>
  {
    var start := Reader([], [], "", AtStart);
    var r := FeedAll(start, if text != "" && text[0] == BYTE_ORDER_MARK then text[1..] else text);
    match r.mode
    case AtStart => if r.record == [] then Some(r.records) else Some(EndRecord(r).records)
    case InPlain => Some(EndRecord(r).records)
    case AfterQuote => Some(EndRecord(r).records)
    case _ => None
  }

  // ----- reading what was written -----

  function AllShown(rows: seq<seq<SqlValue>>, spell: SqlValue -> string): (shown: seq<seq<string>>)
    ensures |shown| == |rows|
  {
    seq(|rows|, k requires 0 <= k < |rows| => RowShown(rows[k], spell))
  }

  function RowShown(values: seq<SqlValue>, spell: SqlValue -> string): (shown: seq<string>)
    ensures |shown| == |values|
  {
    seq(|values|, k requires 0 <= k < |values| => Shown(values[k], spell))
  }

  lemma {:induction false} FeedConcat(r: Reader, a: string, b: string)
    ensures FeedAll(r, a + b) == FeedAll(FeedAll(r, a), b)
    decreases |a|
  {
    if a == "" {
      assert a + b == b;
    } else {
      FeedConcat(Feed(r, a[0]), a[1..], b);
      assert (a + b)[1..] == a[1..] + b;
    }
  }

  lemma FeedOne(r: Reader, c: char)
    ensures FeedAll(r, [c]) == Feed(r, c)
  {
  }

  lemma FeedQuoted(r: Reader, c: char)
    requires r.mode.InQuotes?
    ensures FeedAll(r, if c == '"' then "\"\"" else [c]) == r.(field := r.field + [c])
  {
    if c == '"' {
      FeedConcat(r, "\"", "\"");
      assert "\"\"" == "\"" + "\"";
      FeedOne(r, '"');
      FeedOne(r.(mode := AfterQuote), '"');
    } else {
      FeedOne(r, c);
    }
  }

  lemma {:induction false} FeedDoubled(r: Reader, text: string)
    requires r.mode.InQuotes?
    ensures FeedAll(r, Doubled(text)) == r.(field := r.field + text)
    decreases |text|
  {
    if text == "" {
      assert r.field + text == r.field;
    } else {
      var head := if text[0] == '"' then "\"\"" else [text[0]];
      var r' := r.(field := r.field + [text[0]]);
      FeedConcat(r, head, Doubled(text[1..]));
      FeedQuoted(r, text[0]);
      FeedDoubled(r', text[1..]);
      assert r.field + text == r'.field + text[1..];
    }
  }

  lemma SuffixIsPlain(text: string)
    requires text != "" && !NeedsQuotes(text)
    ensures !NeedsQuotes(text[1..])
  {
  }

  lemma {:induction false} FeedPlain(r: Reader, text: string)
    requires !NeedsQuotes(text) && (r.mode.InPlain? || (r.mode.AtStart? && text != ""))
    ensures FeedAll(r, text) == r.(field := r.field + text, mode := InPlain)
    decreases |text|
  {
    if text == "" {
      assert r.field + text == r.field;
    } else {
      assert text[0] !in ",\"\r\n";
      var r' := Feed(r, text[0]);
      assert r' == r.(field := r.field + [text[0]], mode := InPlain);
      SuffixIsPlain(text);
      FeedPlain(r', text[1..]);
      assert r.field + text == r'.field + text[1..];
    }
  }

  /** The reader has taken in a whole field. */
  predicate Took(r: Reader, text: string, r': Reader)
  {
    r' == r.(field := text, mode := r'.mode) && (r'.mode.AtStart? || r'.mode.InPlain? || r'.mode.AfterQuote?)
  }

  predicate AtField(r: Reader)
  {
    r.mode.AtStart? && r.field == ""
  }

  lemma FeedCell(r: Reader, text: string)
    requires AtField(r)
    ensures Took(r, text, FeedAll(r, Quoted(text)))
  {
    if NeedsQuotes(text) {
      var inside := r.(mode := InQuotes);
      FeedConcat(r, "\"" + Doubled(text), "\"");
      FeedConcat(r, "\"", Doubled(text));
      FeedOne(r, '"');
      FeedDoubled(inside, text);
      assert "" + text == text;
      FeedOne(inside.(field := text), '"');
    } else if text != "" {
      FeedPlain(r, text);
      assert "" + text == text;
    }
  }

  lemma FeedComma(r: Reader, text: string, r': Reader)
    requires AtField(r) && Took(r, text, r')
    ensures FeedAll(r', ",") == r.(record := r.record + [text])
  {
  }

  lemma FeedBreak(r: Reader, text: string, r': Reader)
    requires AtField(r) && Took(r, text, r')
    ensures FeedAll(r', "\r\n") == Reader(r.records + [r.record + [text]], [], "", AtStart)
  {
  }

  lemma CellThenComma(r: Reader, text: string, rest: string)
    requires AtField(r)
    ensures FeedAll(r, Quoted(text) + ("," + rest)) == FeedAll(r.(record := r.record + [text]), rest)
  {
    FeedCell(r, text);
    FeedConcat(r, Quoted(text), "," + rest);
    FeedConcat(FeedAll(r, Quoted(text)), ",", rest);
    FeedComma(r, text, FeedAll(r, Quoted(text)));
  }

  lemma CellThenBreak(r: Reader, text: string)
    requires AtField(r)
    ensures FeedAll(r, Quoted(text) + "\r\n") == Reader(r.records + [r.record + [text]], [], "", AtStart)
  {
    FeedCell(r, text);
    FeedConcat(r, Quoted(text), "\r\n");
    FeedBreak(r, text, FeedAll(r, Quoted(text)));
  }

  lemma LineSplit(values: seq<SqlValue>, spell: SqlValue -> string)
    requires |values| > 1
    ensures Line(values, spell) == Quoted(Shown(values[0], spell)) + ("," + Line(values[1..], spell))
    ensures RowShown(values, spell) == [Shown(values[0], spell)] + RowShown(values[1..], spell)
  {
  }

  lemma {:induction false} LineRead(r: Reader, values: seq<SqlValue>, spell: SqlValue -> string)
    requires AtField(r) && values != []
    ensures FeedAll(r, Line(values, spell)) == Reader(r.records + [r.record + RowShown(values, spell)], [], "", AtStart)
    decreases |values|
  {
    var first := Shown(values[0], spell);
    if |values| == 1 {
      CellThenBreak(r, first);
      assert RowShown(values, spell) == [first];
    } else {
      LineSplit(values, spell);
      CellThenComma(r, first, Line(values[1..], spell));
      var next := r.(record := r.record + [first]);
      LineRead(next, values[1..], spell);
      assert r.record + RowShown(values, spell) == next.record + RowShown(values[1..], spell);
    }
  }

  lemma {:induction false} RowsRead(r: Reader, rows: seq<seq<SqlValue>>, spell: SqlValue -> string)
    requires AtField(r) && r.record == [] && forall k :: 0 <= k < |rows| ==> rows[k] != []
    ensures FeedAll(r, Lines(rows, spell)) == Reader(r.records + AllShown(rows, spell), [], "", AtStart)
    decreases |rows|
  {
    if rows == [] {
      assert r.records + AllShown(rows, spell) == r.records;
    } else {
      var (front, last) := (rows[..|rows| - 1], rows[|rows| - 1]);
      RowsRead(r, front, spell);
      FeedConcat(r, Lines(front, spell), Line(last, spell));
      var middle := Reader(r.records + AllShown(front, spell), [], "", AtStart);
      LineRead(middle, last, spell);
      assert [] + RowShown(last, spell) == RowShown(last, spell);
      AllShownLast(rows, spell);
    }
  }

  lemma AllShownLast(rows: seq<seq<SqlValue>>, spell: SqlValue -> string)
    requires rows != []
    ensures
      AllShown(rows, spell) == AllShown(rows[..|rows| - 1], spell) + [RowShown(rows[|rows| - 1], spell)]
  {
  }

  /** The whole output reads back as the header and one record for each row, in order. */
  lemma LinesRead(headers: seq<SqlValue>, rows: seq<seq<SqlValue>>, spell: SqlValue -> string)
    requires headers != [] && forall k :: 0 <= k < |rows| ==> rows[k] != []
    ensures
      Parse([BYTE_ORDER_MARK] + (Line(headers, spell) + Lines(rows, spell))) ==
      Some([RowShown(headers, spell)] + AllShown(rows, spell))
  {
    var start := Reader([], [], "", AtStart);
    var body := Line(headers, spell) + Lines(rows, spell);
    FeedConcat(start, Line(headers, spell), Lines(rows, spell));
    LineRead(start, headers, spell);
    assert [] + RowShown(headers, spell) == RowShown(headers, spell);
    var first := Reader([RowShown(headers, spell)], [], "", AtStart);
    assert [] + [RowShown(headers, spell)] == [RowShown(headers, spell)];
    RowsRead(first, rows, spell);
    var text := [BYTE_ORDER_MARK] + body;
    assert text[0] == BYTE_ORDER_MARK && text[1..] == body;
  }

  predicate StartsPlainly(text: string)
  {
    text != "" && 'a' <= text[0] <= 'z'
  }

  lemma HeadersArePlain(includeCoordinates: bool)
    ensures forall k :: 0 <= k < |Headers(includeCoordinates)| ==> StartsPlainly(Headers(includeCoordinates)[k])
  {
  }

  lemma HeadersShown(headers: seq<string>, spell: SqlValue -> string)
    requires forall k :: 0 <= k < |headers| ==> StartsPlainly(headers[k])
    ensures RowShown(Texts(headers), spell) == headers
  {
  }

  // ----- formulas -----

  /** What a cell shows: nothing for a null, a spelled number, and a text as it is, behind an apostrophe if its
      first character that is not blank is one of the four that begin a formula. */
  lemma ShownExactly(value: SqlValue, spell: SqlValue -> string)
    ensures
      match value
      case Null => Shown(value, spell) == ""
      case Text(text) =>
        Shown(value, spell) ==
        if exists k :: 0 <= k < |text| && text[k] in ['=', '+', '-', '@']
                       && forall j :: 0 <= j < k ==> text[j] in [' ', '\t', '\r', '\n']
        then ['\''] + text else text
      case _ => Shown(value, spell) == spell(value)
  {
    if value.Text? {
      FormulaExactly(value.text);
    }
  }

  lemma {:induction false} FormulaExactly(text: string)
    ensures
      IsFormula(text) <==>
      exists k :: 0 <= k < |text| && text[k] in ['=', '+', '-', '@']
                  && forall j :: 0 <= j < k ==> text[j] in [' ', '\t', '\r', '\n']
  {
    if text != "" && IsBlank(text[0]) {
      var rest := text[1..];
      FormulaExactly(rest);
      if k :| 0 <= k < |rest| && rest[k] in ['=', '+', '-', '@']
              && forall j :: 0 <= j < k ==> rest[j] in [' ', '\t', '\r', '\n'] {
        assert text[k + 1] == rest[k] && forall j :: 0 < j < k + 1 ==> text[j] == rest[j - 1];
      }
      if k :| 0 <= k < |text| && text[k] in ['=', '+', '-', '@']
              && forall j :: 0 <= j < k ==> text[j] in [' ', '\t', '\r', '\n'] {
        assert k > 0 && rest[k - 1] == text[k] && forall j :: 0 <= j < k - 1 ==> rest[j] == text[j + 1];
      }
    }
  }

  /** No text is read back as a formula. */
  lemma NeutralText(text: string, spell: SqlValue -> string)
    ensures !IsFormula(Shown(Text(text), spell))
    ensures Shown(Text(text), spell) == text || Shown(Text(text), spell) == "'" + text
  {
  }

  /** Neutralising loses the difference between two texts exactly when one is the other's
      neutralised form. */
  lemma NeutralCollision(a: string, b: string, spell: SqlValue -> string)
    ensures
      Shown(Text(a), spell) == Shown(Text(b), spell) <==>
      || a == b
      || (IsFormula(a) && b == "'" + a)
      || (IsFormula(b) && a == "'" + b)
  {
    NeutralText(a, spell);
    NeutralText(b, spell);
    if IsFormula(a) && IsFormula(b) && "'" + a == "'" + b {
      assert a == ("'" + a)[1..] && b == ("'" + b)[1..];
    }
    if IsFormula(a) && b == "'" + a {
      assert b[0] == '\'' && LeftTrimmed(b) == b;
    }
    if IsFormula(b) && a == "'" + b {
      assert a[0] == '\'' && LeftTrimmed(a) == a;
    }
  }
}
