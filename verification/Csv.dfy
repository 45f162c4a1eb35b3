/** The payroll CSV scanner: one pass with an index that also skips ahead by hand. */
module Csv {
  import opened Prelude

  type Row = seq<string>

  datatype State = State(rows: seq<Row>, row: Row, field: string, quoted: bool)

  const START := State([], [], "", false)

  /** Close the field and the row, unless nothing has been read since the last row. */
  function Flush(st: State): State {
    if st.field != "" || st.row != [] then State(st.rows + [st.row + [st.field]], [], "", st.quoted) else st
  }

  /** How many characters the next step consumes: two for a doubled quote or a CRLF. */
  function Width(s: string, quoted: bool): nat
    requires s != ""
  {
    if |s| > 1 && ((quoted && s[0] == '"' && s[1] == '"') || (!quoted && s[0] == '\r' && s[1] == '\n')) then 2 else 1
  }

  function Next(s: string, st: State): State
    requires s != ""
  {
    var c := s[0];
    if st.quoted then
      if c != '"' then st.(field := st.field + [c])
      else if |s| > 1 && s[1] == '"' then st.(field := st.field + "\"")
      else st.(quoted := false)
    else if c == '"' then st.(quoted := true)
    else if c == ',' then st.(row := st.row + [st.field], field := "")
    else if c == '\n' || c == '\r' then Flush(st)
    else st.(field := st.field + [c])
  }

  function Scan(s: string, st: State): State
    decreases |s|
  {
    if s == "" then st else Scan(s[Width(s, st.quoted)..], Next(s, st))
  }

  predicate Blank(cell: string) {
    forall i :: 0 <= i < |cell| ==> IsSpace(cell[i])
  }

  predicate HasContent(row: Row) {
    exists i :: 0 <= i < |row| && !Blank(row[i])
  }

  /** The rows with some non-blank cell. */
  function Kept(rows: seq<Row>): seq<Row> {
    if rows == [] then []
    else Kept(rows[..|rows| - 1]) + if HasContent(rows[|rows| - 1]) then [rows[|rows| - 1]] else []
  }

  function Parsed(text: string): seq<Row> {
    Kept(Flush(Scan(text, START)).rows)
  }

  method ParseCsv(text: string) returns (table: seq<Row>)
    ensures table == Parsed(text)
  {
    var rows: seq<Row>, row: Row, field, quoted := [], [], "", false;
    var i := 0;
    while i < |text|
      invariant 0 <= i <= |text|
      invariant Scan(text, START) == Scan(text[i..], State(rows, row, field, quoted))
    {
      var c := text[i];
      ghost var s, st := text[i..], State(rows, row, field, quoted);
      assert s[0] == c && (i + 1 < |text| ==> s[1] == text[i + 1]);
      assert |s| > 1 <==> i + 1 < |text|;
      if quoted {
        if c == '"' {
          if i + 1 < |text| && text[i + 1] == '"' {
            field := field + "\"";
            i := i + 1;
          } else {
            quoted := false;
          }
        } else {
          field := field + [c];
        }
      } else if c == '"' {
        quoted := true;
      } else if c == ',' {
        row, field := row + [field], "";
      } else if c == '\n' || c == '\r' {
        if field != "" || |row| > 0 {
          rows, row, field := rows + [row + [field]], [], "";
        }
        if c == '\r' && i + 1 < |text| && text[i + 1] == '\n' { i := i + 1; }
      } else {
        field := field + [c];
      }
      i := i + 1;
      assert State(rows, row, field, quoted) == Next(s, st);
      assert text[i..] == s[Width(s, st.quoted)..];
    }
    assert text[i..] == "";
    if field != "" || |row| > 0 { rows := rows + [row + [field]]; }
    assert Flush(Scan(text, START)).rows == rows;
    table := KeepRows(rows);
  }

  method KeepRows(rows: seq<Row>) returns (kept: seq<Row>)
    ensures kept == Kept(rows)
  {
    kept := [];
    var i := 0;
    while i < |rows|
      invariant 0 <= i <= |rows| && kept == Kept(rows[..i])
    {
      assert rows[..i + 1][..i] == rows[..i];
      if HasContent(rows[i]) { kept := kept + [rows[i]]; }
      i := i + 1;
    }
    assert rows[..i] == rows;
  }

  // ----- writing -----

  /** Part of a cell as it can be written: plain characters, or anything between quotes. */
  datatype Piece = Bare(text: string) | Quote(text: string)

  /** A cell may be written in several pieces, or none at all. */
  type Cell = seq<Piece>

  predicate Plain(c: char) {
    c != ',' && c != '"' && c != '\n' && c != '\r'
  }

  /** Plain pieces are plain and not empty, and two quoted ones do not touch: that would read as one with a quote inside. */
  predicate Writable(cell: Cell) {
    && (forall i :: 0 <= i < |cell| && cell[i].Bare? ==> cell[i].text != "" && forall k :: 0 <= k < |cell[i].text| ==> Plain(cell[i].text[k]))
    && (forall i :: 0 < i < |cell| && cell[i].Quote? ==> cell[i - 1].Bare?)
  }

  function Value(cell: Cell): string {
    if cell == [] then "" else cell[0].text + Value(cell[1..])
  }

  function Values(cells: seq<Cell>): (row: Row)
    ensures |row| == |cells|
  {
    seq(|cells|, i requires 0 <= i < |cells| => Value(cells[i]))
  }

  function Table(written: seq<seq<Cell>>): (table: seq<Row>)
    ensures |table| == |written|
  {
    seq(|written|, i requires 0 <= i < |written| => Values(written[i]))
  }

  predicate WritableTable(written: seq<seq<Cell>>) {
    forall i :: 0 <= i < |written| ==> written[i] != [] && forall k :: 0 <= k < |written[i]| ==> Writable(written[i][k])
  }

  function Doubled(field: string): string {
    if field == "" then "" else (if field[0] == '"' then "\"\"" else [field[0]]) + Doubled(field[1..])
  }

  /** A piece as text: quoted, with its quotes doubled, or as it is. */
  function PieceText(p: Piece): string {
    if p.Quote? then "\"" + Doubled(p.text) + "\"" else p.text
  }

  function CellText(cell: Cell): string {
    if cell == [] then "" else PieceText(cell[0]) + CellText(cell[1..])
  }

  function RowText(cells: seq<Cell>): string
    requires cells != []
  {
    if |cells| == 1 then CellText(cells[0]) else CellText(cells[0]) + "," + RowText(cells[1..])
  }

  datatype LineEnd = LF | CRLF | CR

  function EndText(e: LineEnd): string {
    match e
    case LF => "\n"
    case CRLF => "\r\n"
    case CR => "\r"
  }

  /** A table of non-empty rows, each ended in its own way; the end of the last row may be left out. */
  function TableText(written: seq<seq<Cell>>, ends: seq<LineEnd>, lastEnd: bool): string
    requires |ends| == |written| && WritableTable(written)
  {
    if written == [] then ""
    else
      RowText(written[0])
      + (if |written| > 1 || lastEnd then EndText(ends[0]) else "")
      + TableText(written[1..], ends[1..], lastEnd)
  }

  // ----- scanning inverts writing -----

  /** One character inside quotes, as it is written. */
  lemma ScanChar(c: char, rest: string, st: State)
    requires st.quoted
    ensures Scan((if c == '"' then "\"\"" else [c]) + rest, st) == Scan(rest, st.(field := st.field + [c]))
  {
    var head := if c == '"' then "\"\"" else [c];
    var s := head + rest;
    assert s[|head|..] == rest && Width(s, true) == |head|;
  }

  lemma CloseQuote(rest: string, st: State)
    requires st.quoted && (rest == "" || rest[0] != '"')
    ensures Scan("\"" + rest, st) == Scan(rest, st.(quoted := false))
  {
    var s := "\"" + rest;
    assert s[1..] == rest && Width(s, true) == 1;
  }

  lemma NothingDoubled(rest: string)
    ensures Doubled("") + "\"" + rest == "\"" + rest
  {
  }

  lemma FirstDoubled(field: string, rest: string)
    requires field != ""
    ensures Doubled(field) + "\"" + rest == (if field[0] == '"' then "\"\"" else [field[0]]) + (Doubled(field[1..]) + "\"" + rest)
  {
  }

  lemma {:induction false} ScanDoubled(field: string, rest: string, st: State)
    requires st.quoted && (rest == "" || rest[0] != '"')
    ensures Scan(Doubled(field) + "\"" + rest, st) == Scan(rest, st.(field := st.field + field, quoted := false))
    decreases |field|
  {
    hide Scan, Doubled;
    if field == "" {
      CloseQuote(rest, st);
      NothingDoubled(rest);
      assert st.field + field == st.field;
    } else {
      var tail := Doubled(field[1..]) + "\"" + rest;
      FirstDoubled(field, rest);
      ScanChar(field[0], tail, st);
      var next := st.(field := st.field + [field[0]]);
      ScanDoubled(field[1..], rest, next);
      assert next.field + field[1..] == st.field + field;
    }
  }

  lemma ScanPlainChar(c: char, rest: string, st: State)
    requires Plain(c) && !st.quoted
    ensures Scan([c] + rest, st) == Scan(rest, st.(field := st.field + [c]))
  {
    var s := [c] + rest;
    assert s[1..] == rest && Width(s, false) == 1;
  }

  lemma {:induction false} ScanPlain(text: string, rest: string, st: State)
    requires !st.quoted && forall k :: 0 <= k < |text| ==> Plain(text[k])
    ensures Scan(text + rest, st) == Scan(rest, st.(field := st.field + text))
    decreases |text|
  {
    hide Scan, Plain;
    if text == "" {
      assert text + rest == rest && st.field + text == st.field;
    } else {
      var next := st.(field := st.field + [text[0]]);
      assert text + rest == [text[0]] + (text[1..] + rest);
      ScanPlainChar(text[0], text[1..] + rest, st);
      ScanPlain(text[1..], rest, next);
      assert next.field + text[1..] == st.field + text;
    }
  }

  lemma OpenQuote(rest: string, st: State)
    requires !st.quoted
    ensures Scan("\"" + rest, st) == Scan(rest, st.(quoted := true))
  {
    var s := "\"" + rest;
    assert s[1..] == rest && Width(s, false) == 1;
  }

  /** One piece adds its text to the field. */
  lemma ScanPiece(p: Piece, rest: string, st: State)
    requires !st.quoted
    requires if p.Quote? then rest == "" || rest[0] != '"' else forall k :: 0 <= k < |p.text| ==> Plain(p.text[k])
    ensures Scan(PieceText(p) + rest, st) == Scan(rest, st.(field := st.field + p.text))
  {
    hide Scan, Doubled, Plain;
    if p.Quote? {
      var tail := Doubled(p.text) + "\"" + rest;
      assert PieceText(p) + rest == "\"" + tail;
      OpenQuote(tail, st);
      ScanDoubled(p.text, rest, st.(quoted := true));
    } else {
      ScanPlain(p.text, rest, st);
    }
  }

  /** What follows a cell: nothing, a comma or the end of the row. */
  predicate Follows(rest: string) {
    rest == "" || rest[0] == ',' || rest[0] == '\n' || rest[0] == '\r'
  }

  lemma AfterPiece(cell: Cell, rest: string)
    requires cell != [] && Writable(cell) && Follows(rest)
    ensures Writable(cell[1..])
    ensures cell[0].Quote? ==> var more := CellText(cell[1..]) + rest; more == "" || more[0] != '"'
  {
    var tail := cell[1..];
    if cell[0].Quote? && tail != [] {
      assert cell[1] == tail[0];
      assert tail[0].Bare? && Plain(tail[0].text[0]);
      assert CellText(tail)[0] == tail[0].text[0];
    }
  }

  lemma {:induction false} ScanPieces(cell: Cell, rest: string, st: State)
    requires !st.quoted && Writable(cell) && Follows(rest)
    ensures Scan(CellText(cell) + rest, st) == Scan(rest, st.(field := st.field + Value(cell)))
    decreases |cell|
  {
    hide Scan, PieceText, Plain;
    if cell == [] {
      assert CellText(cell) + rest == rest && st.field + "" == st.field;
    } else {
      var more := CellText(cell[1..]) + rest;
      assert CellText(cell) + rest == PieceText(cell[0]) + more;
      AfterPiece(cell, rest);
      ScanPiece(cell[0], more, st);
      var next := st.(field := st.field + cell[0].text);
      ScanPieces(cell[1..], rest, next);
      assert next.field + Value(cell[1..]) == st.field + Value(cell);
    }
  }

  lemma Comma(rest: string, st: State)
    requires !st.quoted
    ensures Scan("," + rest, st) == Scan(rest, st.(row := st.row + [st.field], field := ""))
  {
    var s := "," + rest;
    assert s[1..] == rest && Width(s, false) == 1;
  }

  /** A cell and the comma after it. */
  lemma ScanCell(cell: Cell, rest: string, st: State)
    requires !st.quoted && st.field == "" && Writable(cell)
    ensures Scan(CellText(cell) + "," + rest, st) == Scan(rest, st.(row := st.row + [Value(cell)], field := ""))
  {
    hide Scan, CellText, Value, Writable;
    var tail := "," + rest;
    ScanPieces(cell, tail, st);
    assert CellText(cell) + "," + rest == CellText(cell) + tail;
    assert "" + Value(cell) == Value(cell);
    Comma(rest, st.(field := Value(cell)));
  }

  lemma FirstCell(cells: seq<Cell>, rest: string)
    requires |cells| > 1
    ensures RowText(cells) + rest == CellText(cells[0]) + "," + (RowText(cells[1..]) + rest)
  {
    hide CellText;
  }

  lemma OnlyCell(cells: seq<Cell>)
    requires |cells| == 1
    ensures RowText(cells) == CellText(cells[0])
  {
  }

  lemma {:induction false} ScanRow(cells: seq<Cell>, rest: string, st: State)
    requires cells != [] && (forall k :: 0 <= k < |cells| ==> Writable(cells[k])) && !st.quoted && st.field == "" && Follows(rest)
    ensures
      var row := Values(cells);
      Scan(RowText(cells) + rest, st) == Scan(rest, st.(row := st.row + row[..|row| - 1], field := row[|row| - 1]))
    decreases |cells|
  {
    hide Scan, CellText, RowText, Writable, Value, Follows;
    var row := Values(cells);
    if |cells| == 1 {
      OnlyCell(cells);
      ScanPieces(cells[0], rest, st);
      assert st.row + row[..0] == st.row && "" + Value(cells[0]) == Value(cells[0]);
    } else {
      var more := RowText(cells[1..]) + rest;
      FirstCell(cells, rest);
      ScanCell(cells[0], more, st);
      var after := st.(row := st.row + [row[0]], field := "");
      ScanRow(cells[1..], rest, after);
      assert Values(cells[1..]) == row[1..];
      assert after.row + row[1..][..|row| - 2] == st.row + row[..|row| - 1];
    }
  }

  /** A line feed at the start of a line leaves no trace, so it does not matter which row a CRLF is counted to. */
  lemma IdleLineFeed(rest: string, st: State)
    requires !st.quoted && st.row == [] && st.field == ""
    ensures Scan("\n" + rest, st) == Scan(rest, st)
  {
    var s := "\n" + rest;
    assert s[1..] == rest && Width(s, false) == 1;
  }

  lemma ScanEnd(e: LineEnd, rest: string, st: State)
    requires !st.quoted
    ensures Scan(EndText(e) + rest, st) == Scan(rest, Flush(st))
  {
    var s := EndText(e) + rest;
    if e == CR && rest != "" && rest[0] == '\n' {
      assert s[0] == '\r' && s[1] == '\n' && s[2..] == rest[1..];
      assert rest == "\n" + rest[1..];
      IdleLineFeed(rest[1..], Flush(st));
    } else {
      assert s[|EndText(e)|..] == rest && Width(s, false) == |EndText(e)|;
    }
  }

  /** What a row leaves once closed: itself appended, except a row of one empty field, which leaves no trace. */
  lemma RowCloses(rows: seq<Row>, row: Row)
    requires row != []
    ensures
      var closed := Flush(State(rows, row[..|row| - 1], row[|row| - 1], false));
      && closed == State(if row == [""] then rows else rows + [row], [], "", false)
      && Kept(closed.rows) == Kept(rows + [row])
  {
    assert row[..|row| - 1] + [row[|row| - 1]] == row;
    assert (rows + [row])[..|rows|] == rows;
    if row == [""] {
      assert Blank(row[0]) && !HasContent(row);
    }
  }

  lemma {:induction false} KeptConcat(a: seq<Row>, b: seq<Row>)
    ensures Kept(a + b) == Kept(a) + Kept(b)
  {
    if b == [] {
      assert a + b == a;
    } else {
      var n := |b| - 1;
      KeptConcat(a, b[..n]);
      assert (a + b)[..|a + b| - 1] == a + b[..n];
    }
  }

  /** A written row, ended or last in the text, scanned from the start of a line. */
  lemma ScanWrittenRow(cells: seq<Cell>, ended: bool, e: LineEnd, more: string, rows: seq<Row>)
    requires cells != [] && (forall k :: 0 <= k < |cells| ==> Writable(cells[k])) && (ended || more == "")
    ensures
      var row := Values(cells);
      var closed := Flush(State(rows, row[..|row| - 1], row[|row| - 1], false));
      Flush(Scan(RowText(cells) + (if ended then EndText(e) else "") + more, State(rows, [], "", false)))
      == if ended then Flush(Scan(more, closed)) else closed
  {
    hide Next, RowText, Width, Writable, Values;
    var row, st, rest := Values(cells), State(rows, [], "", false), (if ended then EndText(e) else "") + more;
    var read := State(rows, row[..|row| - 1], row[|row| - 1], false);
    assert RowText(cells) + (if ended then EndText(e) else "") + more == RowText(cells) + rest;
    ScanRow(cells, rest, st);
    assert st.(row := [] + row[..|row| - 1], field := row[|row| - 1]) == read;
    if ended {
      ScanEnd(e, more, read);
    } else {
      assert rest == "" && Scan("", read) == read;
    }
  }

  lemma {:induction false} ScanTable(written: seq<seq<Cell>>, ends: seq<LineEnd>, lastEnd: bool, rows: seq<Row>)
    requires |ends| == |written| && WritableTable(written)
    ensures
      Kept(Flush(Scan(TableText(written, ends, lastEnd), State(rows, [], "", false))).rows) == Kept(rows) + Kept(Table(written))
    decreases |written|
  {
    hide Kept, Next, RowText, Width, Writable, Values;
    if written == [] {
      KeptNone();
      assert Table(written) == [] && Kept(rows) + [] == Kept(rows);
    } else {
      var row, more := Values(written[0]), TableText(written[1..], ends[1..], lastEnd);
      var ended := |written| > 1 || lastEnd;
      ScanWrittenRow(written[0], ended, ends[0], more, rows);
      RowCloses(rows, row);
      KeptConcat(rows, [row]);
      KeptConcat([row], Table(written[1..]));
      assert Table(written) == [row] + Table(written[1..]);
      var closed := Flush(State(rows, row[..|row| - 1], row[|row| - 1], false));
      if ended {
        ScanTable(written[1..], ends[1..], lastEnd, closed.rows);
      } else {
        KeptNone();
        assert Table(written[1..]) == [];
      }
      hide Scan, TableText, Flush, Table;
      assert Kept(rows) + Kept([row]) + Kept(Table(written[1..])) == Kept(rows) + (Kept([row]) + Kept(Table(written[1..])));
    }
  }

  lemma KeptNone()
    ensures Kept([]) == []
  {
  }

  /**
   * The scanner inverts writing: of any table of non-empty rows, each cell written bare, quoted or in pieces of both, each
   * row ended by LF, CRLF or CR, it returns exactly the rows with a non-blank cell, each cell as it was.
   */
  lemma ScanInvertsWriting(written: seq<seq<Cell>>, ends: seq<LineEnd>, lastEnd: bool)
    requires |ends| == |written| && WritableTable(written)
    ensures Parsed(TableText(written, ends, lastEnd)) == Kept(Table(written))
  {
    ScanTable(written, ends, lastEnd, []);
    hide Scan, TableText, Table;
    assert Kept([]) + Kept(Table(written)) == Kept(Table(written));
  }

  /** Any table can be written, bare where each cell is plain and quoted where not. */
  lemma EveryTableIsWritten(table: seq<Row>, quotePlain: bool) returns (written: seq<seq<Cell>>)
    requires forall i :: 0 <= i < |table| ==> table[i] != []
    ensures WritableTable(written) && Table(written) == table
    ensures forall i, k :: 0 <= i < |table| && 0 <= k < |table[i]| ==> written[i][k] == AsCell(table[i][k], quotePlain)
  {
    written := seq(|table|, i requires 0 <= i < |table| => seq(|table[i]|, k requires 0 <= k < |table[i]| => AsCell(table[i][k], quotePlain)));
    forall i | 0 <= i < |table| ensures Values(written[i]) == table[i] && forall k :: 0 <= k < |table[i]| ==> Writable(written[i][k]) {
      forall k | 0 <= k < |table[i]| ensures Writable(written[i][k]) && Value(written[i][k]) == table[i][k] {
        AsCellReads(table[i][k], quotePlain);
      }
    }
  }

  function AsCell(field: string, quotePlain: bool): Cell {
    if quotePlain || exists k :: 0 <= k < |field| && !Plain(field[k]) then [Quote(field)]
    else if field == "" then []
    else [Bare(field)]
  }

  lemma AsCellReads(field: string, quotePlain: bool)
    ensures Writable(AsCell(field, quotePlain)) && Value(AsCell(field, quotePlain)) == field
  {
    var cell := AsCell(field, quotePlain);
    if cell != [] {
      assert cell[1..] == [] && field + "" == field;
    }
  }

  lemma {:induction false} KeptLength(table: seq<Row>)
    ensures |Kept(table)| <= |table|
    ensures |Kept(table)| == |table| <==> forall i :: 0 <= i < |table| ==> HasContent(table[i])
    ensures |Kept(table)| == |table| ==> Kept(table) == table
  {
    if table != [] {
      KeptLength(table[..|table| - 1]);
      assert table == table[..|table| - 1] + [table[|table| - 1]];
    }
  }

  const SPACES: set<char> := {' ', '\t', '\n', '\r'}

  /** Some cell of the row holds a character that is not white space. */
  predicate SaysSomething(row: Row) {
    exists k, j :: 0 <= k < |row| && 0 <= j < |row[k]| && row[k][j] !in SPACES
  }

  lemma ContentIsVisible(row: Row)
    ensures HasContent(row) <==> SaysSomething(row)
  {
    if HasContent(row) {
      var k :| 0 <= k < |row| && !Blank(row[k]);
      var j :| 0 <= j < |row[k]| && !IsSpace(row[k][j]);
      assert row[k][j] !in SPACES;
    }
    if SaysSomething(row) {
      var k, j :| 0 <= k < |row| && 0 <= j < |row[k]| && row[k][j] !in SPACES;
      assert !Blank(row[k]);
    }
  }

  /** So the same table comes back exactly when every row has a character that is not white space. */
  lemma SameTableExactly(written: seq<seq<Cell>>, ends: seq<LineEnd>, lastEnd: bool)
    requires |ends| == |written| && WritableTable(written)
    ensures
      Parsed(TableText(written, ends, lastEnd)) == Table(written)
      <==> forall i :: 0 <= i < |written| ==> SaysSomething(Values(written[i]))
  {
    ScanInvertsWriting(written, ends, lastEnd);
    var table := Table(written);
    KeptLength(table);
    hide Parsed, TableText, Kept, Values, WritableTable, HasContent, SaysSomething;
    forall i | 0 <= i < |written| ensures HasContent(table[i]) == SaysSomething(Values(written[i])) {
      ContentIsVisible(table[i]);
    }
  }
}
