/**
 * The CSV text the reports page downloads, and a reader for it. A report is a header row and
 * rows of cells in the header's order; a cell is written as its text, in double quotes when it
 * is a string that contains a comma, and nothing else is escaped. The reader splits lines at
 * '\n' and fields at commas outside double quotes; what it reads back states what the written
 * text means.
 */
module Csv {

  import opened Wrappers
  import opened Seqs
  import opened Text

  /** A cell value: a string or a number. */
  datatype Cell = Str(s: string) | Num(n: int)

  /** The headers (`Object.keys` of the first row) and the rows, each cell in header order. */
  datatype Report = Report(headers: seq<string>, rows: seq<seq<Cell>>)

  const NoDataMessage := "No data available for the selected criteria."

  /** The text of a cell as `join` writes it. */
  function Raw(c: Cell): string
  {
    match c
    case Str(s) => s
    case Num(n) => IntToString(n)
  }

  /** A cell as written into a row: a string containing a comma is wrapped in double quotes. */
  function FieldText(c: Cell): (r: string)
    ensures c.Str? && Includes(c.s, ",") ==> r == "\"" + c.s + "\""
    ensures !(c.Str? && Includes(c.s, ",")) ==> r == Raw(c)
  {
    if c.Str? && Includes(c.s, ",") then "\"" + c.s + "\"" else Raw(c)
  }

  /** One data row: the written cells joined by commas. */
  function RowLine(row: seq<Cell>): string
  {
    Join(Map(row, FieldText), ",")
  }

  /**
   * `createCSV`: the message when there is no row; otherwise the header line and one line per
   * row, joined by '\n'.
   */
  function CreateCsv(report: Report): (r: string)
    ensures report.rows == [] ==> r == NoDataMessage
    ensures report.rows != [] ==> r == Join([Join(report.headers, ",")] + Map(report.rows, RowLine), "\n")
  {
    if report.rows == [] then NoDataMessage
    else Join([Join(report.headers, ",")] + Map(report.rows, RowLine), "\n")
  }

  /** The first index of `c` in `s`, if any. */
  function IndexOf(s: string, c: char): (r: Option<nat>)
    ensures r.Some? ==> r.value < |s| && s[r.value] == c
    ensures r.Some? ==> forall j :: 0 <= j < r.value ==> s[j] != c
    ensures r.None? <==> c !in s
  {
    if s == [] then None
    else if s[0] == c then Some(0)
    else match IndexOf(s[1..], c)
      case None => None
      case Some(k) => Some(k + 1)
  }

  /** The first `c` after a stretch without `c` is at the end of that stretch. */
  lemma IndexOfAfter(a: string, c: char, b: string)
    requires c !in a
    ensures IndexOf(a + [c] + b, c) == Some(|a|)
  {
    var s := a + [c] + b;
    assert s[|a|] == c;
  }

  /** `s.split(c)`. */
  function Split(s: string, c: char): (r: seq<string>)
    ensures |r| >= 1
    decreases |s|
  {
    match IndexOf(s, c)
    case None => [s]
    case Some(k) => [s[..k]] + Split(s[k + 1..], c)
  }

  /**
   * The fields of one line: a field starting with a double quote runs to the next double
   * quote and must be followed by a comma or the end of the line; any other field runs to the
   * next comma. (Doubled quotes inside a quoted field are not read.)
   */
  function ParseFields(s: string): (r: seq<string>)
    ensures |r| >= 1
    decreases |s|
  {
    if s != [] && s[0] == '"' then
      match IndexOf(s[1..], '"')
      case None => [s[1..]]
      case Some(k) =>
        var after := s[k + 2..];
        if after != [] && after[0] == ',' then [s[1..k + 1]] + ParseFields(after[1..]) else [s[1..k + 1]]
    else
      match IndexOf(s, ',')
      case None => [s]
      case Some(k) => [s[..k]] + ParseFields(s[k + 1..])
  }

  /** A whole CSV text: its lines, each split into fields. */
  function ReadCsv(text: string): seq<seq<string>>
  {
    Map(Split(text, '\n'), ParseFields)
  }

  /** `s.includes(',')` for a one-character needle is membership. */
  lemma IncludesChar(s: string, c: char)
    ensures Includes(s, [c]) <==> c in s
  {
    IncludesAt(s, [c]);
    if c in s {
      var i :| 0 <= i < |s| && s[i] == c;
      assert OccursAt(s, [c], i);
    }
    if Includes(s, [c]) {
      var i :| OccursAt(s, [c], i);
      assert s[i] == s[i..i + 1][0];
    }
  }

  /** `f` is how the writer puts down `raw`: as it is without a comma, quoted with one; never with a quote. */
  predicate Encodes(f: string, raw: string)
  {
    '"' !in raw && (if ',' in raw then f == "\"" + raw + "\"" else f == raw)
  }

  /** A number's text has neither commas, quotes nor line breaks. */
  lemma NumberTextIsPlain(n: int)
    ensures ',' !in IntToString(n) && '"' !in IntToString(n) && '\n' !in IntToString(n)
  {
  }

  /** A cell whose text holds no double quote is written in a form the reader reads back. */
  lemma FieldTextEncodes(c: Cell)
    requires '"' !in Raw(c)
    ensures Encodes(FieldText(c), Raw(c))
  {
    match c
    case Str(s) => IncludesChar(s, ',');
    case Num(n) => NumberTextIsPlain(n);
  }

  /** A quoted field followed by a comma: the text between the quotes, then the rest. */
  lemma ReadQuotedField(raw: string, t: string)
    requires '"' !in raw
    ensures ParseFields("\"" + raw + "\"" + "," + t) == [raw] + ParseFields(t)
  {
    var s := "\"" + raw + "\"" + "," + t;
    var k := |raw|;
    QuotedFieldShape(raw, t);
    ParseQuotedThenComma(s, k);
  }

  /** How a quoted field followed by a comma lies in the text. */
  lemma QuotedFieldShape(raw: string, t: string)
    requires '"' !in raw
    ensures var s := "\"" + raw + "\"" + "," + t;
      && s != [] && s[0] == '"' && IndexOf(s[1..], '"') == Some(|raw|)
      && |raw| + 2 < |s| && s[|raw| + 2] == ',' && s[1..|raw| + 1] == raw && s[|raw| + 3..] == t
  {
    var s := "\"" + raw + "\"" + "," + t;
    assert s[1..] == raw + ['"'] + ("," + t);
    IndexOfAfter(raw, '"', "," + t);
  }

  /** One step of the reader on a quoted field that a comma follows. */
  lemma ParseQuotedThenComma(s: string, k: nat)
    requires s != [] && s[0] == '"' && IndexOf(s[1..], '"') == Some(k)
    requires k + 2 < |s| && s[k + 2] == ','
    ensures ParseFields(s) == [s[1..k + 1]] + ParseFields(s[k + 3..])
  {
    assert s[k + 2..][1..] == s[k + 3..];
  }

  /** A quoted field at the end of the line: the text between the quotes. */
  lemma ReadLastQuotedField(raw: string)
    requires '"' !in raw
    ensures ParseFields("\"" + raw + "\"") == [raw]
  {
    var s := "\"" + raw + "\"";
    assert s[1..] == raw + ['"'] + [];
    IndexOfAfter(raw, '"', []);
    assert s[|raw| + 2..] == [];
    assert s[1..|raw| + 1] == raw;
  }

  /** A field without quotes or commas followed by a comma: the field, then the rest. */
  lemma ReadPlainField(raw: string, t: string)
    requires '"' !in raw && ',' !in raw
    ensures ParseFields(raw + "," + t) == [raw] + ParseFields(t)
  {
    var s := raw + "," + t;
    assert s == raw + [','] + t;
    IndexOfAfter(raw, ',', t);
    assert s[..|raw|] == raw && s[|raw| + 1..] == t;
    if raw != [] {
      assert s[0] == raw[0];
    }
  }

  /** Reading one written field, followed by a comma and more, gives the raw text and the rest. */
  lemma ReadOneField(f: string, raw: string, t: string)
    requires Encodes(f, raw)
    ensures ParseFields(f + "," + t) == [raw] + ParseFields(t)
    ensures ParseFields(f) == [raw]
  {
    if ',' in raw {
      ReadQuotedField(raw, t);
      ReadLastQuotedField(raw);
    } else {
      ReadPlainField(raw, t);
      if raw != [] {
        assert raw[0] != '"';
      }
    }
  }

  /** A line of written fields reads back as the raw texts. */
  lemma {:induction false} ReadLine(fs: seq<string>, raws: seq<string>)
    requires |fs| == |raws| >= 1
    requires forall i :: 0 <= i < |fs| ==> Encodes(fs[i], raws[i])
    ensures ParseFields(Join(fs, ",")) == raws
  {
    if |fs| == 1 {
      ReadOneField(fs[0], raws[0], "");
    } else {
      var rest := Join(fs[1..], ",");
      assert Join(fs, ",") == fs[0] + "," + rest;
      ReadLine(fs[1..], raws[1..]);
      assert ParseFields(rest) == raws[1..];
      ReadOneField(fs[0], raws[0], rest);
      assert raws == [raws[0]] + raws[1..];
    }
  }

  /** Lines without line breaks, joined by '\n', split back into themselves. */
  lemma {:induction false} SplitJoin(lines: seq<string>)
    requires |lines| >= 1
    requires forall i :: 0 <= i < |lines| ==> '\n' !in lines[i]
    ensures Split(Join(lines, "\n"), '\n') == lines
  {
    if |lines| > 1 {
      var rest := lines[1..];
      var s := Join(lines, "\n");
      var k := |lines[0]|;
      assert Split(Join(rest, "\n"), '\n') == rest by {
        assert forall i :: 0 <= i < |rest| ==> rest[i] == lines[i + 1];
        SplitJoin(rest);
      }
      assert Split(s, '\n') == [lines[0]] + Split(Join(rest, "\n"), '\n') by {
        JoinedLineShape(lines);
        SplitAt(s, '\n', k);
      }
      assert lines == [lines[0]] + rest;
    }
  }

  /** How the first line and the rest lie in a text of joined lines. */
  lemma JoinedLineShape(lines: seq<string>)
    requires |lines| > 1 && '\n' !in lines[0]
    ensures var s := Join(lines, "\n");
      && IndexOf(s, '\n') == Some(|lines[0]|)
      && s[..|lines[0]|] == lines[0] && s[|lines[0]| + 1..] == Join(lines[1..], "\n")
  {
    var s := Join(lines, "\n");
    assert s == lines[0] + ['\n'] + Join(lines[1..], "\n");
    IndexOfAfter(lines[0], '\n', Join(lines[1..], "\n"));
  }

  /** One step of `split` at the first separator. */
  lemma SplitAt(s: string, c: char, k: nat)
    requires IndexOf(s, c) == Some(k)
    ensures Split(s, c) == [s[..k]] + Split(s[k + 1..], c)
  {
  }

  /** No character of a joined text is a character absent from every part and the separator. */
  lemma {:induction false} JoinAvoids(parts: seq<string>, sep: string, c: char)
    requires c !in sep
    requires forall i :: 0 <= i < |parts| ==> c !in parts[i]
    ensures c !in Join(parts, sep)
  {
    if |parts| > 1 {
      JoinAvoids(parts[1..], sep, c);
    }
  }

  /** The raw texts of a row. */
  function RawRow(row: seq<Cell>): seq<string>
  {
    Map(row, Raw)
  }

  /** No text of the report holds a double quote or a line break, and headers hold no comma. */
  predicate Plain(report: Report)
  {
    && (forall i :: 0 <= i < |report.headers| ==>
          ',' !in report.headers[i] && '"' !in report.headers[i] && '\n' !in report.headers[i])
    && (forall r, j :: 0 <= r < |report.rows| && 0 <= j < |report.rows[r]| ==>
          '"' !in Raw(report.rows[r][j]) && '\n' !in Raw(report.rows[r][j]))
  }

  /** A written row, when its texts are plain, holds no line break and reads back as its texts. */
  lemma RowReadsBack(row: seq<Cell>)
    requires |row| >= 1
    requires forall j :: 0 <= j < |row| ==> '"' !in Raw(row[j]) && '\n' !in Raw(row[j])
    ensures ParseFields(RowLine(row)) == RawRow(row)
    ensures '\n' !in RowLine(row)
  {
    var fs := Map(row, FieldText);
    forall j | 0 <= j < |row|
      ensures Encodes(fs[j], RawRow(row)[j]) && '\n' !in fs[j]
    {
      FieldTextEncodes(row[j]);
    }
    ReadLine(fs, RawRow(row));
    JoinAvoids(fs, ",", '\n');
  }

  /** The header line holds no line break and reads back as the headers. */
  lemma HeaderLineReadsBack(headers: seq<string>)
    requires |headers| >= 1
    requires forall i :: 0 <= i < |headers| ==> ',' !in headers[i] && '"' !in headers[i] && '\n' !in headers[i]
    ensures ParseFields(Join(headers, ",")) == headers
    ensures '\n' !in Join(headers, ",")
  {
    forall i | 0 <= i < |headers|
      ensures Encodes(headers[i], headers[i])
    {
    }
    ReadLine(headers, headers);
    JoinAvoids(headers, ",", '\n');
  }

  /** Each plain row's line holds no line break and reads back as the row's texts. */
  lemma RowLinesReadBack(rows: seq<seq<Cell>>)
    requires forall r :: 0 <= r < |rows| ==> |rows[r]| >= 1
    requires forall r, j :: 0 <= r < |rows| && 0 <= j < |rows[r]| ==> '"' !in Raw(rows[r][j]) && '\n' !in Raw(rows[r][j])
    ensures forall r :: 0 <= r < |rows| ==> ParseFields(RowLine(rows[r])) == RawRow(rows[r]) && '\n' !in RowLine(rows[r])
  {
    forall r | 0 <= r < |rows|
      ensures ParseFields(RowLine(rows[r])) == RawRow(rows[r]) && '\n' !in RowLine(rows[r])
    {
      RowReadsBack(rows[r]);
    }
  }

  /** Reading a header line and the row lines back line by line, given that each one reads back. */
  lemma ReadEachLine(header: string, headers: seq<string>, rows: seq<seq<Cell>>)
    requires '\n' !in header && ParseFields(header) == headers
    requires forall r :: 0 <= r < |rows| ==> '\n' !in RowLine(rows[r]) && ParseFields(RowLine(rows[r])) == RawRow(rows[r])
    ensures var lines := [header] + Map(rows, RowLine);
      && (forall i :: 0 <= i < |lines| ==> '\n' !in lines[i])
      && Map(lines, ParseFields) == [headers] + Map(rows, RawRow)
  {
    MapCons(header, Map(rows, RowLine), ParseFields);
    MapCompose(rows, RowLine, ParseFields, RawRow);
    var lines := [header] + Map(rows, RowLine);
    assert forall i :: 0 < i < |lines| ==> lines[i] == RowLine(rows[i - 1]);
  }

  /** Every written line holds no line break, and each reads back as the headers or a row's texts. */
  lemma LinesReadBack(report: Report)
    requires Plain(report)
    requires |report.headers| >= 1
    requires forall r :: 0 <= r < |report.rows| ==> |report.rows[r]| >= 1
    ensures var lines := [Join(report.headers, ",")] + Map(report.rows, RowLine);
      && (forall i :: 0 <= i < |lines| ==> '\n' !in lines[i])
      && Map(lines, ParseFields) == [report.headers] + Map(report.rows, RawRow)
  {
    RowLinesReadBack(report.rows);
    HeaderLineReadsBack(report.headers);
    ReadEachLine(Join(report.headers, ","), report.headers, report.rows);
  }

  /**
   * What the CSV text means: when there is a row, every row has a cell, there is a header and
   * no text holds a double quote or a line break, the reader gets back the headers and then
   * each row's texts, in order.
   */
  lemma CsvReadsBack(report: Report)
    requires Plain(report)
    requires report.rows != []
    requires |report.headers| >= 1
    requires forall r :: 0 <= r < |report.rows| ==> |report.rows[r]| >= 1
    ensures ReadCsv(CreateCsv(report)) == [report.headers] + Map(report.rows, RawRow)
  {
    var lines := [Join(report.headers, ",")] + Map(report.rows, RowLine);
    LinesReadBack(report);
    SplitJoin(lines);
  }
}
