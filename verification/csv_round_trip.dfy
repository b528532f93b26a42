/**
 The row printer of the logger and the reader of the analysis script. Numbers are printed
 and parsed by arbitrary functions; what matters is that the text has no separators in it.
 */
module CsvRoundTrip {
  import opened Basics
  import opened LogRing

  // ---- text ----

  /** The pieces of `text` between separators; always at least one. */
  function Split(text: string, sep: char): (parts: seq<string>)
    ensures |parts| >= 1
    decreases |text|
  {
    if text == "" then [""]
    else
      var n := |text| - 1;
      var parts := Split(text[..n], sep);
      if text[n] == sep then parts + [""]
      else parts[..|parts| - 1] + [parts[|parts| - 1] + [text[n]]]
  }

  /** The first `n` fields, separated by commas. */
  function JoinTo(fields: seq<string>, n: nat): string
    requires n <= |fields|
  {
    if n == 0 then "" else JoinTo(fields, n - 1) + (if n == 1 then "" else ",") + fields[n - 1]
  }

  /** The first `n` lines, each ended by a newline. */
  function LinesTo(lines: seq<string>, n: nat): string
    requires n <= |lines|
  {
    if n == 0 then "" else LinesTo(lines, n - 1) + lines[n - 1] + "\n"
  }

  lemma {:induction false} SplitTail(a: string, b: string, sep: char)
    requires sep !in b
    ensures var parts := Split(a, sep);
            Split(a + b, sep) == parts[..|parts| - 1] + [parts[|parts| - 1] + b]
    decreases |b|
  {
    var parts := Split(a, sep);
    if b == "" {
      assert a + b == a && parts[|parts| - 1] + b == parts[|parts| - 1];
    } else {
      var n := |b| - 1;
      assert (a + b)[..|a + b| - 1] == a + b[..n] && (a + b)[|a + b| - 1] == b[n];
      SplitTail(a, b[..n], sep);
      assert parts[|parts| - 1] + b[..n] + [b[n]] == parts[|parts| - 1] + b;
    }
  }

  lemma SplitOne(b: string, sep: char)
    requires sep !in b
    ensures Split(b, sep) == [b]
  {
    SplitTail("", b, sep);
    assert "" + b == b;
  }

  lemma SplitLast(a: string, b: string, sep: char)
    requires sep !in b
    ensures Split(a + [sep] + b, sep) == Split(a, sep) + [b]
  {
    assert (a + [sep])[..|a|] == a;
    SplitTail(a + [sep], b, sep);
    assert "" + b == b;
  }

  lemma {:induction false} SplitJoin(fields: seq<string>, n: nat)
    requires 1 <= n <= |fields| && forall i :: 0 <= i < n ==> ',' !in fields[i]
    ensures Split(JoinTo(fields, n), ',') == fields[..n]
  {
    if n == 1 {
      assert JoinTo(fields, 1) == fields[0];
      SplitOne(fields[0], ',');
    } else {
      SplitJoin(fields, n - 1);
      SplitLast(JoinTo(fields, n - 1), fields[n - 1], ',');
    }
  }

  /** Complete lines followed by `cut`, a last line without its newline. */
  lemma {:induction false} SplitLines(lines: seq<string>, n: nat, cut: string)
    requires n <= |lines| && '\n' !in cut && forall i :: 0 <= i < n ==> '\n' !in lines[i]
    ensures Split(LinesTo(lines, n) + cut, '\n') == lines[..n] + [cut]
    decreases n
  {
    if n == 0 {
      assert "" + cut == cut;
      SplitOne(cut, '\n');
    } else {
      SplitLines(lines, n - 1, lines[n - 1]);
      SplitLast(LinesTo(lines, n - 1) + lines[n - 1], cut, '\n');
    }
  }

  // ---- printing ----

  type Printer = real -> string
  type Parser = string -> Option<real>

  predicate Clean(text: string) {
    text != "" && text != "nan" && forall c :: c in text ==> c != ',' && c != '"' && c != '\n' && c != '\r'
  }

  /** Every number prints to clean text that parses. */
  ghost predicate Prints(printer: Printer, parse: Parser) {
    forall v :: Clean(printer(v)) && parse(printer(v)).Some?
  }

  function FieldText(c: Cell, printer: Printer): string {
    match c
    case Unset => ""
    case Value(v) => printer(v)
  }

  function FieldTexts(row: Row, printer: Printer): (fields: seq<string>)
    ensures |fields| == |row|
  {
    seq(|row|, i requires 0 <= i < |row| => FieldText(row[i], printer))
  }

  function Line(row: Row, printer: Printer): string {
    JoinTo(FieldTexts(row, printer), |row|)
  }

  /** `formatRow`: one row appended to the buffer. */
  method FormatRow(row: Row, printer: Printer, buffer: string) returns (out: string)
    ensures out == buffer + Line(row, printer) + "\n"
  {
    ghost var fields := FieldTexts(row, printer);
    out := buffer;
    for i := 0 to |row|
      invariant out == buffer + JoinTo(fields, i)
    {
      ghost var before := out;
      if i != 0 {
        out := out + ",";
      }
      match row[i] {
        case Unset =>
        case Value(v) => out := out + printer(v);
      }
      assert out == before + ((if i == 0 then "" else ",") + fields[i]);
      assert out == buffer + JoinTo(fields, i + 1);
    }
    out := out + "\n";
  }

  function RowLines(rows: seq<Row>, printer: Printer): seq<string> {
    seq(|rows|, i requires 0 <= i < |rows| => Line(rows[i], printer))
  }

  /** The lines of the file: the header and the rows. */
  function FileLines(columns: seq<string>, rows: seq<Row>, printer: Printer): seq<string> {
    [JoinTo(columns, |columns|)] + RowLines(rows, printer)
  }

  function FileText(columns: seq<string>, rows: seq<Row>, printer: Printer): string {
    var lines := FileLines(columns, rows, printer);
    LinesTo(lines, |lines|)
  }

  // ---- reading ----

  datatype Table = Table(columns: seq<string>, rows: seq<Row>)

  /** What iterating over the file yields: a last line only if it is not empty. */
  function Lines(text: string): seq<string> {
    var parts := Split(text, '\n');
    if parts[|parts| - 1] == "" then parts[..|parts| - 1] else parts
  }

  /** A line without quotes, as the csv reader splits it; an empty line has no fields. */
  function Fields(line: string): seq<string> {
    if line == "" then [] else Split(line, ',')
  }

  /** A short line is padded, a long one cut. */
  function Fit(fields: seq<string>, width: nat): (fitted: seq<string>)
    ensures |fitted| == width
  {
    if |fields| < width then fields + seq(width - |fields|, _ => "") else fields[..width]
  }

  /** Empty fields and "nan" are unset; anything else must parse. */
  function ParseField(text: string, parse: Parser): Option<Cell> {
    if text == "" || text == "nan" then Some(Unset)
    else match parse(text) case Some(v) => Some(Value(v)) case None => None
  }

  function ParseTo(fields: seq<string>, n: nat, parse: Parser): Option<Row>
    requires n <= |fields|
  {
    if n == 0 then Some([])
    else
      match (ParseTo(fields, n - 1, parse), ParseField(fields[n - 1], parse))
      case (Some(row), Some(c)) => Some(row + [c])
      case _ => None
  }

  /** What a line that is not empty reads as. */
  function RowOf(line: string, width: nat, parse: Parser): Option<Row> {
    ParseTo(Fit(Fields(line), width), width, parse)
  }

  /** The rows so far and one more line; an empty line adds nothing. */
  function Extended(rows: Option<seq<Row>>, line: string, width: nat, parse: Parser): Option<seq<Row>> {
    if Fields(line) == [] then rows
    else
      var row := RowOf(line, width, parse);
      if rows.Some? && row.Some? then Some(rows.value + [row.value]) else None
  }

  function ReadTo(lines: seq<string>, n: nat, width: nat, parse: Parser): Option<seq<Row>>
    requires n <= |lines|
  {
    if n == 0 then Some([]) else Extended(ReadTo(lines, n - 1, width, parse), lines[n - 1], width, parse)
  }

  /** `None` when some field does not parse. */
  function ReadText(text: string, parse: Parser): Option<Table> {
    var lines := Lines(text);
    if lines == [] then Some(Table([], []))
    else
      var columns := Fields(lines[0]);
      match ReadTo(lines[1..], |lines| - 1, |columns|, parse)
      case Some(rows) => Some(Table(columns, rows))
      case None => None
  }

  method ParseLine(fields: seq<string>, parse: Parser) returns (row: Option<Row>)
    ensures row == ParseTo(fields, |fields|, parse)
  {
    var cells: Row := [];
    var failed := false;
    for i := 0 to |fields|
      invariant ParseTo(fields, i, parse) == if failed then None else Some(cells)
    {
      var c := ParseField(fields[i], parse);
      match c {
        case Some(cell) => cells := cells + [cell];
        case None => failed := true;
      }
    }
    row := if failed then None else Some(cells);
  }

  /** The body of the loop of `Table.read`. */
  method ReadLine(rows: Option<seq<Row>>, line: string, width: nat, parse: Parser) returns (result: Option<seq<Row>>)
    ensures result == Extended(rows, line, width, parse)
  {
    var fields := Fields(line);
    if fields == [] {
      return rows;
    }
    if |fields| < width {
      fields := fields + seq(width - |fields|, _ => "");
    } else {
      fields := fields[..width];
    }
    var row := ParseLine(fields, parse);
    result := if rows.Some? && row.Some? then Some(rows.value + [row.value]) else None;
  }

  /** The loop of `Table.read` over the lines after the header. */
  method ReadBody(body: seq<string>, width: nat, parse: Parser) returns (result: Option<seq<Row>>)
    ensures result == ReadTo(body, |body|, width, parse)
  {
    result := Some([]);
    for i := 0 to |body|
      invariant result == ReadTo(body, i, width, parse)
    {
      result := ReadLine(result, body[i], width, parse);
    }
  }

  /** `Table.read`. */
  method Read(text: string, parse: Parser) returns (table: Option<Table>)
    ensures table == ReadText(text, parse)
  {
    var lines := Lines(text);
    if lines == [] {
      return Some(Table([], []));
    }
    var header := Fields(lines[0]);
    var rows := ReadBody(lines[1..], |header|, parse);
    table := match rows case Some(read) => Some(Table(header, read)) case None => None;
  }

  // ---- round trip ----

  /** A cell as printing and parsing leave it: the number may be rounded, unset stays unset. */
  function Reprinted(c: Cell, printer: Printer, parse: Parser): Cell {
    match c
    case Unset => Unset
    case Value(v) => match parse(printer(v)) case Some(w) => Value(w) case None => Unset
  }

  function ReprintedRow(row: Row, printer: Printer, parse: Parser): Row {
    seq(|row|, i requires 0 <= i < |row| => Reprinted(row[i], printer, parse))
  }

  /** The rows the reader keeps: a blank line, printed for a lone unset cell, is skipped. */
  function Kept(rows: seq<Row>, n: nat, printer: Printer, parse: Parser): seq<Row>
    requires n <= |rows|
  {
    if n == 0 then []
    else Kept(rows, n - 1, printer, parse) +
         if rows[n - 1] == [Unset] then [] else [ReprintedRow(rows[n - 1], printer, parse)]
  }

  predicate Tabular(columns: seq<string>, rows: seq<Row>) {
    && |columns| >= 1
    && (forall i :: 0 <= i < |columns| ==> Clean(columns[i]))
    && (forall i :: 0 <= i < |rows| ==> |rows[i]| == |columns|)
  }

  lemma FieldTextsClean(row: Row, printer: Printer, parse: Parser)
    requires Prints(printer, parse)
    ensures var fields := FieldTexts(row, printer);
            forall i :: 0 <= i < |row| ==>
              && ',' !in fields[i] && '\n' !in fields[i]
              && (fields[i] == "" <==> row[i] == Unset)
              && ParseField(fields[i], parse) == Some(Reprinted(row[i], printer, parse))
  {
    forall i | 0 <= i < |row|
      ensures var text := FieldText(row[i], printer);
              && ',' !in text && '\n' !in text && (text == "" <==> row[i] == Unset)
              && ParseField(text, parse) == Some(Reprinted(row[i], printer, parse))
    {
      match row[i] {
        case Unset =>
        case Value(v) => assert Clean(printer(v)) && parse(printer(v)).Some?;
      }
    }
  }

  lemma {:induction false} JoinHasNoNewline(fields: seq<string>, n: nat)
    requires n <= |fields| && forall i :: 0 <= i < n ==> '\n' !in fields[i]
    ensures '\n' !in JoinTo(fields, n)
    ensures n >= 2 ==> JoinTo(fields, n) != ""
  {
    if n > 0 {
      JoinHasNoNewline(fields, n - 1);
    }
  }

  lemma {:induction false} ParseBack(row: Row, n: nat, fields: seq<string>, printer: Printer, parse: Parser)
    requires n <= |row| && n <= |fields|
    requires forall i :: 0 <= i < n ==> ParseField(fields[i], parse) == Some(Reprinted(row[i], printer, parse))
    ensures ParseTo(fields, n, parse) == Some(ReprintedRow(row, printer, parse)[..n])
  {
    if n > 0 {
      ParseBack(row, n - 1, fields, printer, parse);
      var cells := ReprintedRow(row, printer, parse);
      assert cells[..n] == cells[..n - 1] + [cells[n - 1]];
    }
  }

  /** `line` reads back as `row`. */
  predicate ReadsAs(line: string, row: Row, printer: Printer, parse: Parser) {
    if row == [Unset] then line == ""
    else
      && Fields(line) != []
      && RowOf(line, |row|, parse) == Some(ReprintedRow(row, printer, parse))
  }

  /** One row's line reads back as the row; only a lone unset cell prints the blank line. */
  lemma LineReads(row: Row, printer: Printer, parse: Parser)
    requires Prints(printer, parse) && |row| >= 1
    ensures '\n' !in Line(row, printer)
    ensures Line(row, printer) == "" <==> row == [Unset]
    ensures ReadsAs(Line(row, printer), row, printer, parse)
  {
    var fields := FieldTexts(row, printer);
    FieldTextsClean(row, printer, parse);
    JoinHasNoNewline(fields, |row|);
    if |row| == 1 {
      assert JoinTo(fields, 1) == fields[0];
    }
    SplitJoin(fields, |row|);
    ParseBack(row, |row|, fields, printer, parse);
    assert fields[..|row|] == fields;
    var cells := ReprintedRow(row, printer, parse);
    assert cells[..|row|] == cells;
  }

  lemma {:induction false} RowsRead(rows: seq<Row>, lines: seq<string>, n: nat, width: nat, printer: Printer,
      parse: Parser)
    requires n <= |rows| && n <= |lines|
    requires forall i :: 0 <= i < n ==> |rows[i]| == width && ReadsAs(lines[i], rows[i], printer, parse)
    ensures ReadTo(lines, n, width, parse) == Some(Kept(rows, n, printer, parse))
  {
    if n > 0 {
      RowsRead(rows, lines, n - 1, width, printer, parse);
      assert ReadsAs(lines[n - 1], rows[n - 1], printer, parse);
      if rows[n - 1] == [Unset] {
        assert Kept(rows, n - 1, printer, parse) + [] == Kept(rows, n - 1, printer, parse);
      } else {
        assert RowOf(lines[n - 1], width, parse) == Some(ReprintedRow(rows[n - 1], printer, parse));
      }
    }
  }

  lemma HeaderReads(columns: seq<string>)
    requires Tabular(columns, [])
    ensures var header := JoinTo(columns, |columns|);
            header != "" && '\n' !in header && Fields(header) == columns
  {
    forall i | 0 <= i < |columns|
      ensures '\n' !in columns[i] && ',' !in columns[i] && columns[i] != ""
    {
      assert Clean(columns[i]);
    }
    JoinHasNoNewline(columns, |columns|);
    if |columns| == 1 {
      assert JoinTo(columns, 1) == columns[0];
    }
    SplitJoin(columns, |columns|);
    assert columns[..|columns|] == columns;
  }

  lemma RowLinesRead(columns: seq<string>, rows: seq<Row>, printer: Printer, parse: Parser)
    requires Tabular(columns, rows) && Prints(printer, parse)
    ensures var lines := RowLines(rows, printer);
            forall i :: 0 <= i < |rows| ==> '\n' !in lines[i] && ReadsAs(lines[i], rows[i], printer, parse)
  {
    forall i | 0 <= i < |rows|
      ensures var line := Line(rows[i], printer); '\n' !in line && ReadsAs(line, rows[i], printer, parse)
    {
      LineReads(rows[i], printer, parse);
    }
  }

  lemma LinesAreClean(columns: seq<string>, rows: seq<Row>, printer: Printer, parse: Parser)
    requires Tabular(columns, rows) && Prints(printer, parse)
    ensures var lines := FileLines(columns, rows, printer);
            && |lines| == |rows| + 1
            && (forall i :: 0 <= i < |lines| ==> '\n' !in lines[i])
            && Fields(lines[0]) == columns
            && (forall i :: 0 <= i < |rows| ==> ReadsAs(lines[1..][i], rows[i], printer, parse))
  {
    var lines := FileLines(columns, rows, printer);
    HeaderReads(columns);
    assert lines[1..] == RowLines(rows, printer);
    RowLinesRead(columns, rows, printer, parse);
    forall i | 0 <= i < |lines|
      ensures '\n' !in lines[i]
    {
      if i > 0 {
        assert lines[i] == lines[1..][i - 1];
      }
    }
  }

  /** The lines of some complete lines followed by `cut`. */
  lemma CutLines(lines: seq<string>, n: nat, cut: string)
    requires n <= |lines| && '\n' !in cut && forall i :: 0 <= i < |lines| ==> '\n' !in lines[i]
    ensures Lines(LinesTo(lines, n) + cut) == lines[..n] + if cut == "" then [] else [cut]
  {
    SplitLines(lines, n, cut);
  }

  lemma ReadTextOf(text: string, lines: seq<string>, columns: seq<string>, rows: Option<seq<Row>>, parse: Parser)
    requires Lines(text) == lines && lines != []
    requires Fields(lines[0]) == columns
    requires ReadTo(lines[1..], |lines| - 1, |columns|, parse) == rows
    ensures ReadText(text, parse) == if rows.Some? then Some(Table(columns, rows.value)) else None
  {
  }

  /** Reading what was printed gives the same columns and the kept rows. */
  lemma FileReads(columns: seq<string>, rows: seq<Row>, printer: Printer, parse: Parser)
    requires Tabular(columns, rows) && Prints(printer, parse)
    ensures ReadText(FileText(columns, rows, printer), parse)
         == Some(Table(columns, Kept(rows, |rows|, printer, parse)))
  {
    var lines := FileLines(columns, rows, printer);
    LinesAreClean(columns, rows, printer, parse);
    CutLines(lines, |lines|, "");
    var text := LinesTo(lines, |lines|);
    assert text + "" == text && lines[..|lines|] + [] == lines;
    RowsRead(rows, lines[1..], |rows|, |columns|, printer, parse);
    ReadTextOf(text, lines, columns, Some(Kept(rows, |rows|, printer, parse)), parse);
  }

  function AllReprinted(rows: seq<Row>, printer: Printer, parse: Parser): seq<Row> {
    seq(|rows|, i requires 0 <= i < |rows| => ReprintedRow(rows[i], printer, parse))
  }

  lemma {:induction false} KeptAll(rows: seq<Row>, n: nat, printer: Printer, parse: Parser)
    requires n <= |rows|
    ensures |Kept(rows, n, printer, parse)| <= n
    ensures (forall i :: 0 <= i < n ==> rows[i] != [Unset]) ==>
              Kept(rows, n, printer, parse) == AllReprinted(rows, printer, parse)[..n]
    ensures (exists i :: 0 <= i < n && rows[i] == [Unset]) ==> |Kept(rows, n, printer, parse)| < n
  {
    if n > 0 {
      KeptAll(rows, n - 1, printer, parse);
      var all := AllReprinted(rows, printer, parse);
      assert all[..n] == all[..n - 1] + [all[n - 1]];
    }
  }

  /**
   Every row is read back, unset exactly where it was unset, if and only if the table has at
   least two columns or no row is blank.
   */
  lemma RoundTripExactlyWhenNotBlank(columns: seq<string>, rows: seq<Row>, printer: Printer, parse: Parser)
    requires Tabular(columns, rows) && Prints(printer, parse)
    ensures (ReadText(FileText(columns, rows, printer), parse)
             == Some(Table(columns, AllReprinted(rows, printer, parse))))
            <==> (|columns| >= 2 || forall i :: 0 <= i < |rows| ==> rows[i] != [Unset])
    ensures forall i, k :: 0 <= i < |rows| && 0 <= k < |columns| ==>
              (AllReprinted(rows, printer, parse)[i][k] == Unset <==> rows[i][k] == Unset)
  {
    FileReads(columns, rows, printer, parse);
    KeptAll(rows, |rows|, printer, parse);
    var all := AllReprinted(rows, printer, parse);
    assert all[..|rows|] == all;
    forall i, k | 0 <= i < |rows| && 0 <= k < |columns|
      ensures all[i][k] == Unset <==> rows[i][k] == Unset
    {
      match rows[i][k] {
        case Unset =>
        case Value(v) => assert parse(printer(v)).Some?;
      }
    }
    if exists i :: 0 <= i < |rows| && rows[i] == [Unset] {
      assert |columns| == 1;
    }
  }

  // ---- a run that was killed ----

  /** The first `k` cells of a row, then `cell`, then unset cells up to the width. */
  function CutRow(row: Row, k: nat, cell: Cell): (cut: Row)
    requires k < |row|
    ensures |cut| == |row|
  {
    row[..k] + [cell] + UnsetRow(|row| - k - 1)
  }

  /** The text of the first `k` fields of a line and of `part`, all that was written of the next. */
  function CutLine(row: Row, k: nat, part: string, printer: Printer): string
    requires k < |row|
  {
    JoinTo(FieldTexts(row, printer)[..k] + [part], k + 1)
  }

  lemma {:induction false} ParsePadding(fields: seq<string>, n: nat, m: nat, parse: Parser)
    requires n <= m <= |fields| && forall i :: n <= i < m ==> fields[i] == ""
    ensures ParseTo(fields, m, parse) ==
            match ParseTo(fields, n, parse) case Some(row) => Some(row + UnsetRow(m - n)) case None => None
  {
    if n == m {
      var parsed := ParseTo(fields, n, parse);
      if parsed.Some? {
        assert parsed.value + UnsetRow(0) == parsed.value;
      }
    } else {
      ParsePadding(fields, n, m - 1, parse);
      var parsed := ParseTo(fields, n, parse);
      if parsed.Some? {
        assert parsed.value + UnsetRow(m - 1 - n) + [Unset] == parsed.value + UnsetRow(m - n);
      }
    }
  }

  /** The text of a cut line splits into the fields it was made of. */
  lemma CutLineSplits(fields: seq<string>, n: nat)
    requires 1 <= n == |fields| && forall i :: 0 <= i < n ==> ',' !in fields[i] && '\n' !in fields[i]
    requires n > 1 || fields[0] != ""
    ensures var line := JoinTo(fields, n);
            '\n' !in line && line != "" && Fields(line) == fields
  {
    JoinHasNoNewline(fields, n);
    if n == 1 {
      assert JoinTo(fields, 1) == fields[0];
    }
    SplitJoin(fields, n);
    assert fields[..n] == fields;
  }

  lemma ParseOneMore(fields: seq<string>, k: nat, row: Row, parse: Parser)
    requires k < |fields| && ParseTo(fields, k, parse) == Some(row)
    ensures ParseTo(fields, k + 1, parse) ==
            match ParseField(fields[k], parse) case Some(cell) => Some(row + [cell]) case None => None
  {
    match ParseField(fields[k], parse) { case Some(_) => case None => }
  }

  /** What the padded fields of a cut line parse to. */
  lemma CutFieldsParse(row: Row, k: nat, fields: seq<string>, printer: Printer, parse: Parser)
    requires k < |row| == |fields|
    requires forall i :: 0 <= i < k ==> ParseField(fields[i], parse) == Some(Reprinted(row[i], printer, parse))
    requires forall i :: k < i < |row| ==> fields[i] == ""
    ensures ParseTo(fields, |row|, parse) ==
            match ParseField(fields[k], parse)
            case Some(cell) => Some(CutRow(ReprintedRow(row, printer, parse), k, cell))
            case None => None
  {
    ParseBack(row, k, fields, printer, parse);
    ParseOneMore(fields, k, ReprintedRow(row, printer, parse)[..k], parse);
    ParsePadding(fields, k + 1, |row|, parse);
  }

  /** A line cut inside field `k` reads as its first `k` cells and whatever the part of the next parses to. */
  lemma CutLineReads(row: Row, k: nat, part: string, printer: Printer, parse: Parser)
    requires Prints(printer, parse) && k < |row| && ',' !in part && '\n' !in part
    requires k > 0 || part != ""
    ensures var line := CutLine(row, k, part, printer);
            && '\n' !in line && line != "" && Fields(line) != []
            && RowOf(line, |row|, parse) ==
               match ParseField(part, parse)
               case Some(cell) => Some(CutRow(ReprintedRow(row, printer, parse), k, cell))
               case None => None
  {
    FieldTextsClean(row, printer, parse);
    var fields := FieldTexts(row, printer)[..k] + [part];
    CutLineSplits(fields, k + 1);
    CutFieldsParse(row, k, Fit(fields, |row|), printer, parse);
  }

  /** The file as a killed run leaves it: complete rows, then part of row `n`, cut inside its field `k`. */
  function KilledText(columns: seq<string>, rows: seq<Row>, n: nat, k: nat, part: string, printer: Printer): string
    requires n < |rows| && k < |rows[n]|
  {
    LinesTo(FileLines(columns, rows, printer), n + 1) + CutLine(rows[n], k, part, printer)
  }

  lemma KilledBodyReads(rows: seq<Row>, body: seq<string>, n: nat, width: nat, last: Option<Row>,
                        printer: Printer, parse: Parser)
    requires n < |rows| && |body| == n + 1
    requires forall i :: 0 <= i < n ==> |rows[i]| == width && ReadsAs(body[i], rows[i], printer, parse)
    requires Fields(body[n]) != [] && RowOf(body[n], width, parse) == last
    ensures ReadTo(body, n + 1, width, parse) ==
            if last.Some? then Some(Kept(rows, n, printer, parse) + [last.value]) else None
  {
    RowsRead(rows, body, n, width, printer, parse);
  }

  lemma KilledTextLines(columns: seq<string>, rows: seq<Row>, n: nat, k: nat, part: string,
                        printer: Printer, parse: Parser)
    requires Tabular(columns, rows) && Prints(printer, parse)
    requires n < |rows| && k < |columns| && ',' !in part && '\n' !in part && (k > 0 || part != "")
    ensures Lines(KilledText(columns, rows, n, k, part, printer))
         == FileLines(columns, rows, printer)[..n + 1] + [CutLine(rows[n], k, part, printer)]
  {
    LinesAreClean(columns, rows, printer, parse);
    CutLineReads(rows[n], k, part, printer, parse);
    CutLines(FileLines(columns, rows, printer), n + 1, CutLine(rows[n], k, part, printer));
  }

  /** The header, the complete rows and the cut line. */
  lemma KilledLines(columns: seq<string>, rows: seq<Row>, n: nat, cut: string, printer: Printer, parse: Parser)
    requires Tabular(columns, rows) && Prints(printer, parse) && n < |rows|
    ensures var all := FileLines(columns, rows, printer)[..n + 1] + [cut];
            && |all| == n + 2 && Fields(all[0]) == columns && all[1..][n] == cut
            && (forall i :: 0 <= i < n ==> ReadsAs(all[1..][i], rows[i], printer, parse))
  {
    var lines := FileLines(columns, rows, printer);
    HeaderReads(columns);
    RowLinesRead(columns, rows, printer, parse);
    var all := lines[..n + 1] + [cut];
    forall i | 0 <= i < n
      ensures ReadsAs(all[1..][i], rows[i], printer, parse)
    {
      assert all[1..][i] == RowLines(rows, printer)[i];
    }
  }

  /**
   What the reader makes of it: the complete rows it keeps, then one padded row with the cells that
   were complete; unless the part of a number that was written does not parse, and then nothing at all.
   */
  lemma KilledRunReads(columns: seq<string>, rows: seq<Row>, n: nat, k: nat, part: string,
                       printer: Printer, parse: Parser)
    requires Tabular(columns, rows) && Prints(printer, parse)
    requires n < |rows| && k < |columns| && ',' !in part && '\n' !in part && (k > 0 || part != "")
    ensures ReadText(KilledText(columns, rows, n, k, part, printer), parse) ==
            match ParseField(part, parse)
            case Some(cell) =>
              Some(Table(columns, Kept(rows, n, printer, parse) +
                                  [CutRow(ReprintedRow(rows[n], printer, parse), k, cell)]))
            case None => None
  {
    var cut := CutLine(rows[n], k, part, printer);
    var text := KilledText(columns, rows, n, k, part, printer);
    var all := Lines(text);
    KilledTextLines(columns, rows, n, k, part, printer, parse);
    KilledLines(columns, rows, n, cut, printer, parse);
    CutLineReads(rows[n], k, part, printer, parse);
    KilledBodyReads(rows, all[1..], n, |columns|, RowOf(cut, |columns|, parse), printer, parse);
    ReadTextOf(text, all, columns, ReadTo(all[1..], n + 1, |columns|, parse), parse);
  }
}
