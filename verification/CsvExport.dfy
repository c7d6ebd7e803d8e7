/** CSV export: the in-memory formatter, the paged writer, and reading the text back. */
module CsvExport {
  import opened Common

  /** A database value: NULL, or its text. */
  type Cell = Option<string>
  type Row = seq<Cell>

  const DEFAULT_PAGE_SIZE := 10_000
  const BOM := "\U{FEFF}"

  // ---- The formatter ----

  function Doubled(s: string): string
  {
    if s == "" then "" else (if s[0] == '"' then "\"\"" else [s[0]]) + Doubled(s[1..])
  }

  /** escape_csv. */
  function Escape(s: string): string
  {
    "\"" + Doubled(s) + "\""
  }

  /** format_csv_value: NULL is an empty cell without quotes. */
  function CellText(c: Cell): string
  {
    if c.None? then "" else Escape(c.value)
  }

  function CellTexts(row: Row): seq<string>
  {
    seq(|row|, i requires 0 <= i < |row| => CellText(row[i]))
  }

  function Line(row: Row): string
  {
    Join(CellTexts(row), ",")
  }

  function Lines(rows: seq<Row>): seq<string>
  {
    seq(|rows|, i requires 0 <= i < |rows| => Line(rows[i]))
  }

  /** Column names as cells that are never NULL. */
  function Header(columns: seq<string>): Row
  {
    seq(|columns|, i requires 0 <= i < |columns| => Some(columns[i]))
  }

  /** format_csv. */
  function FormatCsv(columns: seq<string>, rows: seq<Row>): string
  {
    Line(Header(columns)) + "\n" + Join(Lines(rows), "\n")
  }

  // ---- The paged writer ----

  /** write_csv_value_row (and write_csv_text_row on a header): cells with commas between them. */
  method WriteRow(out: string, row: Row) returns (text: string)
    ensures text == out + Line(row)
  {
    text := out;
    var i := 0;
    assert CellTexts(row)[..0] == [];
    while i < |row|
      invariant 0 <= i <= |row| && text == out + Join(CellTexts(row)[..i], ",")
    {
      if i > 0 {
        text := text + ",";
        JoinSnoc(CellTexts(row)[..i], CellText(row[i]), ",");
      }
      assert CellTexts(row)[..i + 1] == CellTexts(row)[..i] + [CellText(row[i])];
      text := text + CellText(row[i]);
      i := i + 1;
    }
    assert CellTexts(row)[..i] == CellTexts(row);
  }

  /** Every row on a line of its own, each line opened by its line feed. */
  function Appended(rows: seq<Row>): string
  {
    if rows == [] then "" else Appended(rows[..|rows| - 1]) + "\n" + Line(rows[|rows| - 1])
  }

  lemma {:induction false} AppendedIs(rows: seq<Row>)
    ensures Appended(rows) == if rows == [] then "" else "\n" + Join(Lines(rows), "\n")
  {
    hide Line;
    if |rows| == 1 {
      assert rows[..0] == [] && Lines(rows) == [Line(rows[0])];
    } else if |rows| > 1 {
      var n := |rows| - 1;
      AppendedIs(rows[..n]);
      JoinSnoc(Lines(rows[..n]), Line(rows[n]), "\n");
      assert Lines(rows) == Lines(rows[..n]) + [Line(rows[n])];
    }
  }

  /** export_table_data_csv_core on a table that does not change meanwhile: the file is the byte order mark and format_csv, whatever the page size. */
  method ExportTable(columns: seq<string>, table: seq<Row>, pageSize: Option<nat>) returns (text: string, exported: nat)
    ensures text == "\U{FEFF}" + FormatCsv(columns, table) && exported == |table|
  {
    hide Line, Appended;
    var size := if pageSize.None? then DEFAULT_PAGE_SIZE else if pageSize.value < 1 then 1 else pageSize.value;
    text := BOM;
    var wroteHeader := false;
    var offset: nat := 0;
    exported := 0;
    AppendedIs([]);
    assert table[..0] == [];
    while true
      invariant offset == exported <= |table| && (!wroteHeader ==> exported == 0 && text == BOM)
      invariant wroteHeader ==> text == BOM + Line(Header(columns)) + Appended(table[..exported])
      decreases |table| - offset, !wroteHeader
    {
      var page := table[offset..if offset + size <= |table| then offset + size else |table|];
      if !wroteHeader {
        text := WriteRow(text, Header(columns));
        wroteHeader := true;
      }
      var fetched := |page|;
      if fetched == 0 {
        break;
      }
      text := WritePage(text, columns, table, offset, page);
      exported := exported + fetched;
      if fetched < size {
        break;
      }
      offset := offset + fetched;
    }
    assert table[..exported] == table;
    AppendedIs(table);
    if exported == 0 {
      text := text + "\n";
      assert Join(Lines(table), "\n") == "";
    }
  }

  /** The rows of one page behind what has been written. */
  method WritePage(out: string, columns: seq<string>, table: seq<Row>, offset: nat, page: seq<Row>) returns (text: string)
    requires offset + |page| <= |table| && page == table[offset..offset + |page|]
    requires out == BOM + Line(Header(columns)) + Appended(table[..offset])
    ensures text == BOM + Line(Header(columns)) + Appended(table[..offset + |page|])
  {
    hide Line;
    text := out;
    var i := 0;
    while i < |page|
      invariant 0 <= i <= |page| && text == BOM + Line(Header(columns)) + Appended(table[..offset + i])
    {
      assert table[..offset + i + 1][..offset + i] == table[..offset + i] && table[offset + i] == page[i];
      text := WriteRow(text + "\n", page[i]);
      i := i + 1;
    }
  }

  // ---- Reading back: section 2 of RFC 4180 with LF line ends ----

  datatype Field = Bare(text: string) | Quoted(text: string)

  /** The text of a quoted field behind its opening quote, and what follows the closing one. */
  function ReadQuoted(s: string): Option<(string, string)>
  {
    if s == "" then None
    else if s[0] != '"' then
      var r := ReadQuoted(s[1..]);
      if r.None? then None else Some(([s[0]] + r.value.0, r.value.1))
    else if |s| > 1 && s[1] == '"' then
      var r := ReadQuoted(s[2..]);
      if r.None? then None else Some(("\"" + r.value.0, r.value.1))
    else Some(("", s[1..]))
  }

  predicate EndsField(s: string)
  {
    s == "" || s[0] == ',' || s[0] == '\n'
  }

  function ReadBare(s: string): (string, string)
  {
    if EndsField(s) then ("", s) else ([s[0]] + ReadBare(s[1..]).0, ReadBare(s[1..]).1)
  }

  function ReadField(s: string): (r: Option<(Field, string)>)
    ensures r.Some? ==> EndsField(r.value.1) && |r.value.1| <= |s|
  {
    if s != "" && s[0] == '"' then
      var r := ReadQuoted(s[1..]);
      if r.Some? && EndsField(r.value.1) then QuotedShrinks(s[1..]); Some((Quoted(r.value.0), r.value.1)) else None
    else BareShrinks(s); Some((Bare(ReadBare(s).0), ReadBare(s).1))
  }

  lemma {:induction false} QuotedShrinks(s: string)
    ensures ReadQuoted(s).Some? ==> |ReadQuoted(s).value.1| <= |s|
  {
    if s != "" {
      QuotedShrinks(s[1..]);
      if |s| > 1 {
        QuotedShrinks(s[2..]);
      }
    }
  }

  lemma {:induction false} BareShrinks(s: string)
    ensures EndsField(ReadBare(s).1) && |ReadBare(s).1| <= |s|
  {
    if !EndsField(s) {
      BareShrinks(s[1..]);
    }
  }

  /** One record, and what follows it: nothing, or a line feed. */
  function ReadRecord(s: string): (r: Option<(seq<Field>, string)>)
    ensures r.Some? ==> |r.value.1| <= |s| && (r.value.1 == "" || r.value.1[0] == '\n')
    decreases |s|
  {
    var f := ReadField(s);
    if f.None? then None
    else
      var rest := f.value.1;
      if rest == "" || rest[0] == '\n' then Some(([f.value.0], rest))
      else
        var more := ReadRecord(rest[1..]);
        if more.None? then None else Some(([f.value.0] + more.value.0, more.value.1))
  }

  /** Records separated by line feeds. */
  function ReadRecords(s: string): Option<seq<seq<Field>>>
    decreases |s|
  {
    var r := ReadRecord(s);
    if r.None? then None
    else if r.value.1 == "" then Some([r.value.0])
    else
      var more := ReadRecords(r.value.1[1..]);
      if more.None? then None else Some([r.value.0] + more.value)
  }

  function FieldOf(c: Cell): Field
  {
    if c.None? then Bare("") else Quoted(c.value)
  }

  /** The fields a row is read as: a row without cells is an empty line, which reads as one empty field. */
  function FieldsOf(row: Row): seq<Field>
  {
    if row == [] then [Bare("")] else seq(|row|, i requires 0 <= i < |row| => FieldOf(row[i]))
  }

  lemma {:induction false} QuotedInverse(v: string, tail: string)
    requires tail == "" || tail[0] != '"'
    ensures ReadQuoted(Doubled(v) + "\"" + tail) == Some((v, tail))
  {
    var s := Doubled(v) + "\"" + tail;
    if v == "" {
      assert s == "\"" + tail && s[1..] == tail;
    } else {
      QuotedInverse(v[1..], tail);
      var rest := Doubled(v[1..]) + "\"" + tail;
      if v[0] == '"' {
        assert s == "\"\"" + rest && s[2..] == rest;
      } else {
        assert s == [v[0]] + rest && s[1..] == rest;
      }
      assert [v[0]] + v[1..] == v;
    }
  }

  lemma {:induction false} FieldInverse(c: Cell, tail: string)
    requires EndsField(tail)
    ensures ReadField(CellText(c) + tail) == Some((FieldOf(c), tail))
  {
    hide ReadQuoted, Doubled, ReadField;
    if c.Some? {
      QuotedInverse(c.value, tail);
      QuotedField(Doubled(c.value), c.value, tail);
    } else {
      assert CellText(c) + tail == tail;
      BareField(tail);
    }
  }

  lemma {:induction false} QuotedField(inner: string, v: string, tail: string)
    requires EndsField(tail) && ReadQuoted(inner + "\"" + tail) == Some((v, tail))
    ensures ReadField("\"" + inner + "\"" + tail) == Some((Quoted(v), tail))
  {
    hide ReadQuoted;
    var s := "\"" + inner + "\"" + tail;
    assert s[1..] == inner + "\"" + tail;
  }

  lemma {:induction false} BareField(tail: string)
    requires EndsField(tail)
    ensures ReadField(tail) == Some((Bare(""), tail))
  {
  }

  lemma {:induction false} RecordInverse(row: Row, tail: string)
    requires tail == "" || tail[0] == '\n'
    ensures ReadRecord(Line(row) + tail) == Some((FieldsOf(row), tail))
    decreases |row|
  {
    hide CellText, ReadField;
    if row == [] {
      EmptyLine(tail);
    } else if |row| == 1 {
      assert CellTexts(row) == [CellText(row[0])];
      FieldInverse(row[0], tail);
      assert FieldsOf(row) == [FieldOf(row[0])];
    } else {
      var more := Line(row[1..]) + tail;
      assert CellTexts(row)[1..] == CellTexts(row[1..]);
      assert Line(row) + tail == CellText(row[0]) + ("," + more);
      FieldInverse(row[0], "," + more);
      RecordInverse(row[1..], tail);
      assert ("," + more)[1..] == more;
      assert FieldsOf(row) == [FieldOf(row[0])] + FieldsOf(row[1..]);
    }
  }

  lemma {:induction false} EmptyLine(tail: string)
    requires tail == "" || tail[0] == '\n'
    ensures Line([]) == "" && ReadRecord("" + tail) == Some(([Bare("")], tail))
  {
    assert "" + tail == tail;
    assert CellTexts([]) == [];
  }

  function AllFields(rows: seq<Row>): seq<seq<Field>>
  {
    seq(|rows|, i requires 0 <= i < |rows| => FieldsOf(rows[i]))
  }

  lemma {:induction false} RecordsInverse(rows: seq<Row>)
    requires rows != []
    ensures ReadRecords(Join(Lines(rows), "\n")) == Some(AllFields(rows))
    decreases |rows|
  {
    hide Line, FieldsOf, ReadRecord;
    if |rows| == 1 {
      assert Lines(rows) == [Line(rows[0])] && Line(rows[0]) + "" == Line(rows[0]);
      RecordInverse(rows[0], "");
      assert AllFields(rows) == [FieldsOf(rows[0])];
    } else {
      var more := Join(Lines(rows[1..]), "\n");
      assert Lines(rows)[1..] == Lines(rows[1..]);
      assert Join(Lines(rows), "\n") == Line(rows[0]) + ("\n" + more);
      RecordInverse(rows[0], "\n" + more);
      RecordsInverse(rows[1..]);
      assert ("\n" + more)[1..] == more;
      assert AllFields(rows) == [FieldsOf(rows[0])] + AllFields(rows[1..]);
    }
  }

  // ---- A table read back from its text ----

  function CellOf(f: Field): Cell
  {
    if f.Quoted? then Some(f.text) else if f.text == "" then None else Some(f.text)
  }

  function CellsOf(fields: seq<Field>): Row
  {
    seq(|fields|, i requires 0 <= i < |fields| => CellOf(fields[i]))
  }

  /** A header without quotes means no columns, since names are always quoted. */
  function ColumnsOf(header: seq<Field>): seq<string>
  {
    if header == [Bare("")] then [] else seq(|header|, i requires 0 <= i < |header| => header[i].text)
  }

  /** Rows for the given number of columns; one empty field under several columns is no row at all. */
  function RowsOf(columns: nat, body: seq<seq<Field>>): seq<Row>
  {
    if columns >= 2 && body == [[Bare("")]] then []
    else seq(|body|, i requires 0 <= i < |body| => if columns == 0 && body[i] == [Bare("")] then [] else CellsOf(body[i]))
  }

  datatype Table = Table(columns: seq<string>, rows: seq<Row>)

  function ParseCsv(text: string): Option<Table>
  {
    var records := ReadRecords(text);
    if records.None? || records.value == [] then None
    else
      var columns := ColumnsOf(records.value[0]);
      Some(Table(columns, RowsOf(|columns|, records.value[1..])))
  }

  predicate Rectangular(t: Table)
  {
    forall i :: 0 <= i < |t.rows| ==> |t.rows[i]| == |t.columns|
  }

  /** The text of a table reads as its header and its rows, or as one empty field in place of no rows. */
  lemma {:induction false} TextReads(t: Table)
    ensures ReadRecords(FormatCsv(t.columns, t.rows)) == Some([FieldsOf(Header(t.columns))] + (if t.rows == [] then [[Bare("")]] else AllFields(t.rows)))
  {
    hide Line, FieldsOf, ReadRecord, Join;
    var body := Join(Lines(t.rows), "\n");
    assert FormatCsv(t.columns, t.rows) == Line(Header(t.columns)) + ("\n" + body);
    RecordInverse(Header(t.columns), "\n" + body);
    assert ("\n" + body)[1..] == body;
    if t.rows == [] {
      NoBody(t.rows);
    } else {
      RecordsInverse(t.rows);
    }
  }

  lemma {:induction false} NoBody(rows: seq<Row>)
    requires rows == []
    ensures Join(Lines(rows), "\n") == "" && ReadRecords("") == Some([[Bare("")]])
  {
    assert Lines(rows) == [];
    EmptyLine("");
    assert "" + "" == "";
  }

  lemma {:induction false} HeaderReads(columns: seq<string>)
    ensures ColumnsOf(FieldsOf(Header(columns))) == columns
  {
    if columns != [] {
      assert FieldsOf(Header(columns))[0] == Quoted(columns[0]);
    }
  }

  lemma {:induction false} RowReads(row: Row)
    requires row != []
    ensures CellsOf(FieldsOf(row)) == row && (FieldsOf(row) == [Bare("")] <==> row == [None])
  {
    assert |FieldsOf(row)| == |row| && FieldsOf(row)[0] == FieldOf(row[0]);
  }

  /**
   A rectangular table comes back from its text, NULL apart from the empty string, exactly when it has
   at least two columns or at least one row.
   */
  lemma {:induction false} CsvRoundTrip(t: Table)
    requires Rectangular(t)
    ensures ParseCsv(FormatCsv(t.columns, t.rows)) == Some(t) <==> |t.columns| >= 2 || |t.rows| >= 1
  {
    TextReads(t);
    HeaderReads(t.columns);
    var body := if t.rows == [] then [[Bare("")]] else AllFields(t.rows);
    var records := [FieldsOf(Header(t.columns))] + body;
    assert records[1..] == body;
    hide FormatCsv, ReadRecords, FieldsOf, ColumnsOf, Header;
    BodyReads(t);
  }

  lemma {:induction false} BodyReads(t: Table)
    requires Rectangular(t)
    ensures var body := if t.rows == [] then [[Bare("")]] else AllFields(t.rows);
            RowsOf(|t.columns|, body) == t.rows <==> |t.columns| >= 2 || |t.rows| >= 1
  {
    var n := |t.columns|;
    if t.rows == [] {
      assert n < 2 ==> |RowsOf(n, [[Bare("")]])| == 1;
    } else {
      var body := AllFields(t.rows);
      forall i | 0 <= i < |t.rows| ensures if n == 0 then body[i] == [Bare("")] && t.rows[i] == [] else CellsOf(body[i]) == t.rows[i] {
        if n > 0 {
          RowReads(t.rows[i]);
        }
      }
      if n >= 2 {
        assert body[0] != [Bare("")] by { RowReads(t.rows[0]); }
      }
      assert RowsOf(n, body) == t.rows;
    }
  }

  /** With at most one column, no row and one row of NULL have the same text, so no reader can tell them apart. */
  lemma {:induction false} EmptyLooksLikeNull(columns: seq<string>)
    requires |columns| <= 1
    ensures FormatCsv(columns, []) == FormatCsv(columns, [seq(|columns|, _ => None)])
  {
    var row: Row := seq(|columns|, _ => None);
    assert Lines([row]) == [Line(row)] && Lines([]) == [];
    if |columns| == 1 {
      assert CellTexts(row) == [""];
    } else {
      assert CellTexts(row) == [];
    }
  }
}
