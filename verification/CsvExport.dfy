/** The CSV printer of the admin exports, and the RFC 4180 reader that undoes it. */
module CsvExport {
  import opened Common

  // ---------------------------------------------------------------- printer

  /** A cell value as the printer tells values apart; `String(val)` and `toISOString()` are already applied. */
  datatype Value = Null | Undefined | Timestamp(iso: string) | Scalar(text: string)

  datatype Column<!T> = Column(header: string, key: T -> Value)

  predicate StartsFormula(s: string) {
    s != "" && s[0] in {'=', '+', '-', '@', '\t', '\r'}
  }

  /** A text that opens a formula gets one quote in front; any other text is left alone. */
  function Neutralise(s: string): (r: string)
    ensures r == "" || r[0] !in {'=', '+', '-', '@', '\t', '\r'}
    ensures r == s <==> (s == "" || s[0] !in {'=', '+', '-', '@', '\t', '\r'})
    ensures r == s || (r != "" && r[0] == '\'' && r[1..] == s)
  {
    if StartsFormula(s) then "'" + s else s
  }

  function DoubleQuotes(s: string): string {
    if s == "" then ""
    else (if s[0] == '"' then "\"\"" else [s[0]]) + DoubleQuotes(s[1..])
  }

  predicate NeedsQuotes(s: string) {
    '"' in s || ',' in s || '\n' in s || '\r' in s
  }

  function Escape(s: string): string {
    if NeedsQuotes(s) then "\"" + DoubleQuotes(s) + "\"" else s
  }

  /** The text a cell is meant to carry: absent values are empty, a leading formula character is neutralised. */
  function Carried(val: Value): string {
    match val
    case Null => ""
    case Undefined => ""
    case Timestamp(iso) => Neutralise(iso)
    case Scalar(text) => Neutralise(text)
  }

  function SanitizeCell(val: Value): string {
    if val.Null? || val.Undefined? then ""
    else
      var str := if val.Timestamp? then val.iso else val.text;
      Escape(Neutralise(str))
  }

  function Join(parts: seq<string>, separator: string): string {
    if parts == [] then ""
    else if |parts| == 1 then parts[0]
    else parts[0] + separator + Join(parts[1..], separator)
  }

  function HeaderCells<T>(columns: seq<Column<T>>): seq<string> {
    seq(|columns|, i requires 0 <= i < |columns| => SanitizeCell(Scalar(columns[i].header)))
  }

  function DataCells<T>(columns: seq<Column<T>>, row: T): seq<string> {
    seq(|columns|, i requires 0 <= i < |columns| => SanitizeCell(columns[i].key(row)))
  }

  function DataLines<T>(columns: seq<Column<T>>, rows: seq<T>): seq<string> {
    seq(|rows|, r requires 0 <= r < |rows| => Join(DataCells(columns, rows[r]), ","))
  }

  function FormatCsv<T>(columns: seq<Column<T>>, rows: seq<T>): string {
    Join([Join(HeaderCells(columns), ",")] + DataLines(columns, rows), "\r\n")
  }

  function CarriedHeader<T>(columns: seq<Column<T>>): seq<string> {
    seq(|columns|, i requires 0 <= i < |columns| => Carried(Scalar(columns[i].header)))
  }

  function CarriedRow<T>(columns: seq<Column<T>>, row: T): seq<string> {
    seq(|columns|, i requires 0 <= i < |columns| => Carried(columns[i].key(row)))
  }

  /** The header and the rows as carried values. */
  function Carries<T>(columns: seq<Column<T>>, rows: seq<T>): seq<seq<string>> {
    [CarriedHeader(columns)] + seq(|rows|, r requires 0 <= r < |rows| => CarriedRow(columns, rows[r]))
  }

  /** Absent values carry nothing; a timestamp carries what its text would. */
  lemma CarriedMeans(val: Value)
    ensures val in {Null, Undefined} ==> Carried(val) == ""
    ensures forall s :: val in {Timestamp(s), Scalar(s)} ==>
              Carried(val) == if s != "" && s[0] in {'=', '+', '-', '@', '\t', '\r'} then "'" + s else s
  {}

  lemma {:induction false} DoubledIsNoShorter(s: string)
    ensures |DoubleQuotes(s)| >= |s|
  {
    if s != "" {
      DoubledIsNoShorter(s[1..]);
    }
  }

  /** Quotes go around exactly the texts that hold a quote, a comma or a line end; any other is printed as it is. */
  lemma EscapedExactly(s: string)
    ensures Escape(s) == s <==> '"' !in s && ',' !in s && '\n' !in s && '\r' !in s
  {
    DoubledIsNoShorter(s);
  }

  // ---------------------------------------------------------------- reader, section 2 of RFC 4180

  predicate IsTextData(c: char) { c != '"' && c != ',' && c != '\r' && c != '\n' }

  /** escaped = DQUOTE *(TEXTDATA / COMMA / CR / LF / 2DQUOTE) DQUOTE, read after the opening quote. */
  function ReadEscaped(s: string): Option<(string, string)> {
    if s == "" then None
    else if s[0] != '"' then
      match ReadEscaped(s[1..])
      case None => None
      case Some((text, rest)) => Some(([s[0]] + text, rest))
    else if |s| > 1 && s[1] == '"' then
      match ReadEscaped(s[2..])
      case None => None
      case Some((text, rest)) => Some(("\"" + text, rest))
    else Some(("", s[1..]))
  }

  /** non-escaped = *TEXTDATA. */
  function ReadBare(s: string): (string, string) {
    if s != "" && IsTextData(s[0]) then
      var (text, rest) := ReadBare(s[1..]);
      ([s[0]] + text, rest)
    else ("", s)
  }

  /** field = (escaped / non-escaped). */
  function ReadField(s: string): Option<(string, string)> {
    if s != "" && s[0] == '"' then ReadEscaped(s[1..]) else Some(ReadBare(s))
  }

  lemma ReadFieldShrinks(s: string)
    ensures ReadField(s).Some? ==> |ReadField(s).value.1| <= |s|
  {
    if s != "" && s[0] == '"' { ReadEscapedShrinks(s[1..]); } else { ReadBareShrinks(s); }
  }

  lemma ReadEscapedShrinks(s: string)
    ensures ReadEscaped(s).Some? ==> |ReadEscaped(s).value.1| < |s|
  {}

  lemma ReadBareShrinks(s: string)
    ensures |ReadBare(s).1| <= |s|
  {}

  /** record = field *(COMMA field). */
  function ReadRecord(s: string): Option<(seq<string>, string)>
    decreases |s|
  {
    ReadFieldShrinks(s);
    match ReadField(s)
    case None => None
    case Some((field, rest)) =>
      if rest != "" && rest[0] == ',' then
        match ReadRecord(rest[1..])
        case None => None
        case Some((fields, after)) => Some(([field] + fields, after))
      else Some(([field], rest))
  }

  lemma ReadRecordShrinks(s: string)
    ensures ReadRecord(s).Some? ==> |ReadRecord(s).value.1| <= |s|
    decreases |s|
  {
    ReadFieldShrinks(s);
    if ReadField(s).Some? {
      var rest := ReadField(s).value.1;
      if rest != "" && rest[0] == ',' { ReadRecordShrinks(rest[1..]); }
    }
  }

  /** file = record *(CRLF record) [CRLF]; anything else is malformed. */
  function ReadFile(s: string): Option<seq<seq<string>>>
    decreases |s|
  {
    ReadRecordShrinks(s);
    match ReadRecord(s)
    case None => None
    case Some((fields, rest)) =>
      if rest == "" || rest == "\r\n" then Some([fields])
      else if |rest| >= 2 && rest[..2] == "\r\n" then
        match ReadFile(rest[2..])
        case None => None
        case Some(records) => Some([fields] + records)
      else None
  }

  // ---------------------------------------------------------------- one cell

  lemma {:induction false} EscapedIsReadBack(s: string, rest: string)
    requires rest == "" || rest[0] != '"'
    ensures ReadEscaped(DoubleQuotes(s) + "\"" + rest) == Some((s, rest))
  {
    var text := DoubleQuotes(s) + "\"" + rest;
    if s == "" {
      assert text == "\"" + rest && text[1..] == rest;
    } else {
      var tail := DoubleQuotes(s[1..]) + "\"" + rest;
      EscapedIsReadBack(s[1..], rest);
      if s[0] == '"' {
        assert text == "\"\"" + tail && text[2..] == tail;
      } else {
        assert text == [s[0]] + tail && text[1..] == tail;
      }
      assert s == [s[0]] + s[1..];
    }
  }

  lemma {:induction false} BareIsReadBack(s: string, rest: string)
    requires !NeedsQuotes(s) && (rest == "" || !IsTextData(rest[0]))
    ensures ReadBare(s + rest) == (s, rest)
  {
    if s == "" {
      assert s + rest == rest;
    } else {
      assert (s + rest)[1..] == s[1..] + rest;
      assert !NeedsQuotes(s[1..]) by { assert forall c :: c in s[1..] ==> c in s; }
      BareIsReadBack(s[1..], rest);
      assert s == [s[0]] + s[1..];
    }
  }

  lemma QuotedIsReadBack(s: string, rest: string)
    requires NeedsQuotes(s) && (rest == "" || rest[0] != '"')
    ensures ReadField(Escape(s) + rest) == Some((s, rest))
  {
    var text, quoted := Escape(s) + rest, DoubleQuotes(s) + "\"" + rest;
    assert text == ['"'] + quoted;
    assert text[1..] == quoted;
    EscapedIsReadBack(s, rest);
  }

  lemma UnquotedIsReadBack(s: string, rest: string)
    requires !NeedsQuotes(s) && (rest == "" || (rest[0] != '"' && !IsTextData(rest[0])))
    ensures ReadField(Escape(s) + rest) == Some((s, rest))
  {
    BareIsReadBack(s, rest);
    if s != "" {
      assert s[0] in s && (s + rest)[0] == s[0];
    } else {
      assert s + rest == rest;
    }
  }

  lemma CellIsReadBack(s: string, rest: string)
    requires rest == "" || rest[0] == ',' || rest[0] == '\r'
    ensures ReadField(Escape(s) + rest) == Some((s, rest))
  {
    if NeedsQuotes(s) {
      QuotedIsReadBack(s, rest);
    } else {
      UnquotedIsReadBack(s, rest);
    }
  }

  // ---------------------------------------------------------------- lines and files

  function Escaped(cells: seq<string>): seq<string> {
    seq(|cells|, i requires 0 <= i < |cells| => Escape(cells[i]))
  }

  function Line(cells: seq<string>): string { Join(Escaped(cells), ",") }

  lemma LineSplits(cells: seq<string>)
    requires |cells| > 1
    ensures Line(cells) == Escape(cells[0]) + "," + Line(cells[1..])
  {
    assert Escaped(cells)[1..] == Escaped(cells[1..]);
  }

  lemma RecordGoesOn(text: string, field: string, rest: string)
    requires ReadField(text) == Some((field, "," + rest)) && ReadRecord(rest).Some?
    ensures ReadRecord(text) == Some(([field] + ReadRecord(rest).value.0, ReadRecord(rest).value.1))
  {
    assert ("," + rest)[1..] == rest;
  }

  lemma {:induction false} LineIsReadBack(cells: seq<string>, rest: string)
    requires cells != [] && (rest == "" || rest[0] == '\r')
    ensures ReadRecord(Line(cells) + rest) == Some((cells, rest))
  {
    if |cells| == 1 {
      CellIsReadBack(cells[0], rest);
      assert cells == [cells[0]];
    } else {
      var tail := Line(cells[1..]) + rest;
      LineSplits(cells);
      assert Line(cells) + rest == Escape(cells[0]) + ("," + tail);
      CellIsReadBack(cells[0], "," + tail);
      LineIsReadBack(cells[1..], rest);
      RecordGoesOn(Line(cells) + rest, cells[0], tail);
      assert cells == [cells[0]] + cells[1..];
    }
  }

  function Lines(records: seq<seq<string>>): seq<string> {
    seq(|records|, i requires 0 <= i < |records| => Line(records[i]))
  }

  /** The one text the grammar cannot tell from a shorter file: a last record that prints as nothing. */
  predicate VanishingEnd(records: seq<seq<string>>) {
    |records| > 1 && records[|records| - 1] == [""]
  }

  lemma EmptyLine(cells: seq<string>)
    requires cells != []
    ensures Line(cells) == "" <==> cells == [""]
  {
    if |cells| > 1 {
      assert Line(cells) == Escaped(cells)[0] + "," + Join(Escaped(cells)[1..], ",");
    } else {
      assert cells == [cells[0]];
    }
  }

  lemma FileSplits(records: seq<seq<string>>)
    requires |records| > 1
    ensures Join(Lines(records), "\r\n") == Line(records[0]) + ("\r\n" + Join(Lines(records[1..]), "\r\n"))
  {
    assert Lines(records)[1..] == Lines(records[1..]);
    assert Lines(records)[0] == Line(records[0]);
  }

  lemma FileGoesOn(text: string, fields: seq<string>, rest: string)
    requires ReadRecord(text) == Some((fields, "\r\n" + rest))
    ensures ReadFile(text) == if rest == "" then Some([fields])
                              else if ReadFile(rest).Some? then Some([fields] + ReadFile(rest).value) else None
  {
    var after := "\r\n" + rest;
    assert after[2..] == rest && after[..2] == "\r\n";
    ReadRecordShrinks(text);
  }

  function File(records: seq<seq<string>>): string { Join(Lines(records), "\r\n") }

  /** The records the reader finds in a printed file. */
  function Found(records: seq<seq<string>>): seq<seq<string>> {
    if VanishingEnd(records) then records[..|records| - 1] else records
  }

  /** After the first record the reader goes on with the rest, unless the rest prints as nothing. */
  lemma FileUnfolds(records: seq<seq<string>>)
    requires |records| > 1 && records[0] != []
    ensures ReadFile(File(records))
         == if File(records[1..]) == "" then Some([records[0]])
            else if ReadFile(File(records[1..])).Some? then Some([records[0]] + ReadFile(File(records[1..])).value)
            else None
  {
    FileSplits(records);
    LineIsReadBack(records[0], "\r\n" + File(records[1..]));
    FileGoesOn(File(records), records[0], File(records[1..]));
  }

  lemma EmptyFile(records: seq<seq<string>>)
    requires records != [] && records[0] != []
    ensures File(records) == "" <==> records == [[""]]
  {
    if |records| == 1 {
      EmptyLine(records[0]);
      assert File(records) == Line(records[0]);
      assert records == [records[0]];
    } else {
      FileSplits(records);
    }
  }

  lemma FoundUnfolds(records: seq<seq<string>>)
    requires |records| > 1
    ensures Found(records) == if records[1..] == [[""]] then [records[0]] else [records[0]] + Found(records[1..])
  {
    if VanishingEnd(records) && |records| > 2 {
      assert records[..|records| - 1] == [records[0]] + records[1..][..|records| - 2];
    }
    assert records == [records[0]] + records[1..];
    assert |records| == 2 && VanishingEnd(records) ==> records[1..] == [[""]];
  }

  /** What the reader makes of a printed file, for every file of non-empty records. */
  lemma {:induction false} FileIsReadBack(records: seq<seq<string>>)
    requires records != [] && forall i :: 0 <= i < |records| ==> records[i] != []
    ensures ReadFile(File(records)) == Some(Found(records))
  {
    if |records| == 1 {
      LineIsReadBack(records[0], "");
      assert File(records) == Line(records[0]) + "";
      assert records == [records[0]];
    } else {
      FileUnfolds(records);
      FoundUnfolds(records);
      EmptyFile(records[1..]);
      FileIsReadBack(records[1..]);
    }
  }

  // ---------------------------------------------------------------- the printer's promise

  lemma CellIsEscaped(val: Value)
    ensures SanitizeCell(val) == Escape(Carried(val))
  {}

  lemma HeaderIsEscaped<T>(columns: seq<Column<T>>)
    ensures HeaderCells(columns) == Escaped(CarriedHeader(columns))
  {
    forall i | 0 <= i < |columns| ensures HeaderCells(columns)[i] == Escaped(CarriedHeader(columns))[i] {
      CellIsEscaped(Scalar(columns[i].header));
    }
  }

  lemma RowIsEscaped<T>(columns: seq<Column<T>>, row: T)
    ensures DataCells(columns, row) == Escaped(CarriedRow(columns, row))
  {
    forall i | 0 <= i < |columns| ensures DataCells(columns, row)[i] == Escaped(CarriedRow(columns, row))[i] {
      CellIsEscaped(columns[i].key(row));
    }
  }

  lemma FormatIsLines<T>(columns: seq<Column<T>>, rows: seq<T>)
    ensures FormatCsv(columns, rows) == File(Carries(columns, rows))
  {
    var records := Carries(columns, rows);
    HeaderIsEscaped(columns);
    forall r | 0 <= r < |rows| ensures DataLines(columns, rows)[r] == Line(records[r + 1]) {
      RowIsEscaped(columns, rows[r]);
    }
    assert [Join(HeaderCells(columns), ",")] + DataLines(columns, rows) == Lines(records);
  }

  /** The guard a caller can check: no columns, or one column whose last cell carries nothing. */
  predicate Unreadable<T>(columns: seq<Column<T>>, rows: seq<T>) {
    |columns| == 0 || (|columns| == 1 && rows != [] && Carried(columns[0].key(rows[|rows| - 1])) == "")
  }

  /**
   * Reading the printed text gives back exactly the header and the rows, in order and shape,
   * for every table but the two degenerate ones, and for those it does not.
   */
  lemma RoundTrip<T>(columns: seq<Column<T>>, rows: seq<T>)
    ensures ReadFile(FormatCsv(columns, rows)) == Some(Carries(columns, rows)) <==> !Unreadable(columns, rows)
  {
    var records := Carries(columns, rows);
    FormatIsLines(columns, rows);
    if |columns| == 0 {
      RecordIsNeverEmpty(FormatCsv(columns, rows));
      assert records[0] == [];
    } else {
      FileIsReadBack(records);
      var end := records[|records| - 1];
      assert rows != [] ==> end[0] == Carried(columns[0].key(rows[|rows| - 1]));
      assert end == [""] <==> |end| == 1 && end[0] == "";
    }
  }

  /** A table of at least two columns always survives. */
  lemma RoundTripOfWideTables<T>(columns: seq<Column<T>>, rows: seq<T>)
    requires |columns| >= 2
    ensures ReadFile(FormatCsv(columns, rows)) == Some(Carries(columns, rows))
  {
    RoundTrip(columns, rows);
  }

  lemma RecordIsNeverEmpty(s: string)
    ensures ReadFile(s).Some? ==> ReadFile(s).value != [] && ReadFile(s).value[0] != []
  {}

  predicate HasNoFormula(records: seq<seq<string>>) {
    forall r, i :: 0 <= r < |records| && 0 <= i < |records[r]| ==>
      records[r][i] == "" || records[r][i][0] !in {'=', '+', '-', '@', '\t', '\r'}
  }

  lemma CarriesNoFormula<T>(columns: seq<Column<T>>, rows: seq<T>)
    ensures HasNoFormula(Carries(columns, rows))
  {
    var records := Carries(columns, rows);
    forall r, i | 0 <= r < |records| && 0 <= i < |records[r]| ensures !StartsFormula(records[r][i]) {
      if r == 0 {
        assert records[r][i] == Carried(Scalar(columns[i].header));
      } else {
        assert records[r][i] == Carried(columns[i].key(rows[r - 1]));
      }
    }
  }

  /** Without columns every line is empty, as it is for records of one empty cell. */
  lemma BlankFile<T>(columns: seq<Column<T>>, rows: seq<T>)
    requires columns == []
    ensures ReadFile(FormatCsv(columns, rows)).Some? && HasNoFormula(ReadFile(FormatCsv(columns, rows)).value)
  {
    var records := Carries(columns, rows);
    var blank := seq(|records|, _ => [""]);
    FormatIsLines(columns, rows);
    forall k | 0 <= k < |records| ensures Line(records[k]) == Line(blank[k]) {
      EmptyLine(blank[k]);
    }
    assert Lines(records) == Lines(blank);
    FileIsReadBack(blank);
  }

  /** No cell a reader decodes starts with a formula character. */
  lemma NoFormulaCell<T>(columns: seq<Column<T>>, rows: seq<T>)
    ensures ReadFile(FormatCsv(columns, rows)).Some? && HasNoFormula(ReadFile(FormatCsv(columns, rows)).value)
  {
    if columns == [] {
      BlankFile(columns, rows);
    } else {
      FormatIsLines(columns, rows);
      FileIsReadBack(Carries(columns, rows));
      CarriesNoFormula(columns, rows);
    }
  }
}
