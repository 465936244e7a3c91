/** The CSV preview: a character loop with quotes, against the quoted encoding of
    section 2 of RFC 4180. */
module Csv {
  import opened Options
  import opened Sequences

  // String.prototype.trim: white space and line terminators of ECMAScript.
  predicate IsTrimmed(c: char) {
    var n := c as int;
    9 <= n <= 13 || n == 0x20 || n == 0xA0 || n == 0xFEFF || n == 0x1680 || 0x2000 <= n <= 0x200A ||
    n == 0x2028 || n == 0x2029 || n == 0x202F || n == 0x205F || n == 0x3000
  }

  predicate BlankField(field: string) {
    forall k :: 0 <= k < |field| ==> IsTrimmed(field[k])
  }

  predicate BlankRow(row: seq<string>) {
    forall k :: 0 <= k < |row| ==> BlankField(row[k])
  }

  function NonBlank(rows: seq<seq<string>>): seq<seq<string>> {
    if rows == [] then []
    else
      var n := |rows| - 1;
      if BlankRow(rows[n]) then NonBlank(rows[..n]) else NonBlank(rows[..n]) + [rows[n]]
  }

  // ---- the automaton ----

  datatype Scanner = Scanner(rows: seq<seq<string>>, row: seq<string>, field: string, inQuotes: bool)

  const START := Scanner([], [], "", false)

  function EndField(c: Scanner): Scanner {
    c.(row := c.row + [c.field], field := "")
  }

  function EndRow(c: Scanner): Scanner {
    c.(rows := c.rows + [c.row + [c.field]], row := [], field := "")
  }

  function Scan(s: string, c: Scanner): Scanner
    decreases |s|
  {
    if s == "" then c
    else if c.inQuotes then
      if s[0] != '"' then Scan(s[1..], c.(field := c.field + [s[0]]))
      else if |s| > 1 && s[1] == '"' then Scan(s[2..], c.(field := c.field + "\""))
      else Scan(s[1..], c.(inQuotes := false))
    else match s[0]
      case '"' => Scan(s[1..], c.(inQuotes := true))
      case ',' => Scan(s[1..], EndField(c))
      case '\n' => Scan(s[1..], EndRow(c))
      case '\r' => Scan(s[1..], c)
      case ch => Scan(s[1..], c.(field := c.field + [ch]))
  }

  // A last row without line end counts if it holds anything.
  function Close(c: Scanner): seq<seq<string>> {
    if c.field != "" || c.row != [] then c.rows + [c.row + [c.field]] else c.rows
  }

  function AllRows(text: string): seq<seq<string>> {
    Close(Scan(text, START))
  }

  // Reading stops after `maxRows` rows, blank ones counted, but never before the first.
  function Limited(rows: seq<seq<string>>, maxRows: Option<int>): seq<seq<string>> {
    match maxRows
    case None => rows
    case Some(n) =>
      var limit := if n < 1 then 1 else n;
      if |rows| > limit then rows[..limit] else rows
  }

  lemma {:induction false} ScanKeepsRows(s: string, c: Scanner)
    ensures c.rows <= Scan(s, c).rows
    decreases |s|
  {
    if s != "" {
      if c.inQuotes {
        if s[0] != '"' {
          ScanKeepsRows(s[1..], c.(field := c.field + [s[0]]));
        } else if |s| > 1 && s[1] == '"' {
          ScanKeepsRows(s[2..], c.(field := c.field + "\""));
        } else {
          ScanKeepsRows(s[1..], c.(inQuotes := false));
        }
      } else {
        match s[0] {
          case '"' => ScanKeepsRows(s[1..], c.(inQuotes := true));
          case ',' => ScanKeepsRows(s[1..], EndField(c));
          case '\n' => ScanKeepsRows(s[1..], EndRow(c));
          case '\r' => ScanKeepsRows(s[1..], c);
          case ch => ScanKeepsRows(s[1..], c.(field := c.field + [ch]));
        }
      }
    }
  }

  method KeepNonBlank(rows: seq<seq<string>>) returns (kept: seq<seq<string>>)
    ensures kept == NonBlank(rows)
  {
    kept := [];
    for i := 0 to |rows|
      invariant kept == NonBlank(rows[..i])
    {
      assert rows[..i + 1][..i] == rows[..i];
      if !BlankRow(rows[i]) {
        kept := kept + [rows[i]];
      }
    }
    assert rows[..|rows|] == rows;
  }

  lemma {:induction false} LimitReached(rows: seq<seq<string>>, c: Scanner, n: int)
    requires rows <= c.rows && |rows| == if n < 1 then 1 else n
    ensures Limited(Close(c), Some(n)) == rows
  {
    assert rows <= Close(c);
  }

  method ParseCSV(input: string, maxRows: Option<int>) returns (out: seq<seq<string>>)
    ensures out == NonBlank(Limited(AllRows(input), maxRows))
  {
    var rows: seq<seq<string>>, row: seq<string>, field, inQuotes := [], [], "", false;
    var i := 0;
    while i < |input|
      invariant 0 <= i <= |input|
      invariant Scan(input[i..], Scanner(rows, row, field, inQuotes)) == Scan(input, START)
      invariant maxRows.Some? ==> |rows| == 0 || |rows| < maxRows.value
    {
      var ch := input[i];
      ghost var c, rest := Scanner(rows, row, field, inQuotes), input[i..];
      assert rest[0] == ch && rest[1..] == input[i + 1..];
      if inQuotes {
        if ch == '"' {
          if i + 1 < |input| && input[i + 1] == '"' {
            assert rest[1] == '"' && rest[2..] == input[i + 2..];
            field := field + "\"";
            i := i + 1;
          } else {
            assert !(|rest| > 1 && rest[1] == '"');
            inQuotes := false;
          }
        } else {
          field := field + [ch];
        }
      } else if ch == '"' {
        inQuotes := true;
      } else if ch == ',' {
        row := row + [field];
        field := "";
      } else if ch == '\n' {
        row := row + [field];
        rows := rows + [row];
        if maxRows.Some? && |rows| >= maxRows.value {
          assert Scan(rest, c) == Scan(input[i + 1..], EndRow(c));
          ScanKeepsRows(input[i + 1..], EndRow(c));
          LimitReached(rows, Scan(input, START), maxRows.value);
          out := KeepNonBlank(rows);
          return;
        }
        row := [];
        field := "";
      } else if ch != '\r' {
        field := field + [ch];
      }
      i := i + 1;
    }
    if field != "" || |row| != 0 {
      row := row + [field];
      rows := rows + [row];
    }
    out := KeepNonBlank(rows);
  }

  lemma {:induction false} NonBlankAppend(a: seq<seq<string>>, b: seq<seq<string>>)
    ensures NonBlank(a + b) == NonBlank(a) + NonBlank(b)
  {
    if b == [] {
      assert a + b == a;
    } else {
      var n := |b| - 1;
      NonBlankAppend(a, b[..n]);
      DropLast(a, b);
    }
  }

  lemma {:induction false} NonBlankIsShort(rows: seq<seq<string>>)
    ensures |NonBlank(rows)| <= |rows|
  {
    if rows != [] {
      NonBlankIsShort(rows[..|rows| - 1]);
    }
  }

  // A limited preview is a beginning of the whole table, and keeps to the limit.
  lemma {:induction false} PreviewIsPrefix(text: string, n: int)
    ensures NonBlank(Limited(AllRows(text), Some(n))) <= NonBlank(AllRows(text))
    ensures |NonBlank(Limited(AllRows(text), Some(n)))| <= if n < 1 then 1 else n
  {
    var rows := AllRows(text);
    var first := Limited(rows, Some(n));
    NonBlankAppend(first, rows[|first|..]);
    assert first + rows[|first|..] == rows;
    NonBlankIsShort(first);
  }

  // ---- the encoding ----

  function Escape(field: string): string {
    if field == "" then ""
    else (if field[0] == '"' then "\"\"" else [field[0]]) + Escape(field[1..])
  }

  function Quote(field: string): string {
    "\"" + Escape(field) + "\""
  }

  // A field may be quoted, and must be if it holds a comma, a quote or a line end.
  datatype Cell = Quoted(text: string) | Plain(text: string)

  predicate MayBePlain(field: string) {
    forall k :: 0 <= k < |field| ==> field[k] !in {',', '"', '\r', '\n'}
  }

  predicate Correct(cell: Cell) {
    cell.Plain? ==> MayBePlain(cell.text)
  }

  ghost predicate CorrectRow(row: seq<Cell>) {
    forall k :: 0 <= k < |row| ==> Correct(row[k])
  }

  ghost predicate CorrectTable(table: seq<seq<Cell>>) {
    forall k :: 0 <= k < |table| ==> CorrectRow(table[k])
  }

  function EncodeCell(cell: Cell): string {
    if cell.Quoted? then Quote(cell.text) else cell.text
  }

  function EncodeRow(row: seq<Cell>): string {
    if row == [] then ""
    else if |row| == 1 then EncodeCell(row[0])
    else EncodeCell(row[0]) + "," + EncodeRow(row[1..])
  }

  // What the cells say.
  function Texts(row: seq<Cell>): seq<string> {
    seq(|row|, k requires 0 <= k < |row| => row[k].text)
  }

  function AllTexts(table: seq<seq<Cell>>): seq<seq<string>> {
    seq(|table|, k requires 0 <= k < |table| => Texts(table[k]))
  }

  datatype LineEnd = CRLF | LF

  function Eol(e: LineEnd): string {
    if e == CRLF then "\r\n" else "\n"
  }

  // The line end of the last row may be left out.
  function Encode(table: seq<seq<Cell>>, e: LineEnd, closed: bool): string {
    if table == [] then ""
    else EncodeRow(table[0]) + (if |table| == 1 && !closed then "" else Eol(e)) + Encode(table[1..], e, closed)
  }

  // ---- parsing undoes encoding ----

  predicate NoQuoteFirst(rest: string) {
    rest != "" ==> rest[0] != '"'
  }

  lemma {:induction false} ScanEscaped(field: string, rest: string, c: Scanner)
    requires c.inQuotes && NoQuoteFirst(rest)
    ensures Scan(Escape(field) + "\"" + rest, c) == Scan(rest, c.(field := c.field + field, inQuotes := false))
    decreases |field|
  {
    var s := Escape(field) + "\"" + rest;
    if field == "" {
      assert s[1..] == rest;
      assert c.field + field == c.field;
    } else {
      var tail := Escape(field[1..]) + "\"" + rest;
      var c1 := c.(field := c.field + [field[0]]);
      ScanEscaped(field[1..], rest, c1);
      assert c.field + field == c1.field + field[1..];
      if field[0] == '"' {
        assert s == "\"\"" + tail;
        assert s[2..] == tail;
      } else {
        assert s == [field[0]] + tail;
        assert s[1..] == tail;
      }
    }
  }

  lemma {:induction false} ScanQuoted(field: string, rest: string, c: Scanner)
    requires !c.inQuotes && c.field == "" && NoQuoteFirst(rest)
    ensures Scan(Quote(field) + rest, c) == Scan(rest, c.(field := field))
  {
    var inside := Escape(field) + "\"" + rest;
    assert Quote(field) + rest == "\"" + inside;
    assert ("\"" + inside)[1..] == inside;
    ScanEscaped(field, rest, c.(inQuotes := true));
    assert c.field + field == field;
  }

  lemma {:induction false} ScanPlain(field: string, rest: string, c: Scanner)
    requires !c.inQuotes && MayBePlain(field)
    ensures Scan(field + rest, c) == Scan(rest, c.(field := c.field + field))
    decreases |field|
  {
    if field == "" {
      assert field + rest == rest && c.field + field == c.field;
    } else {
      var c1 := c.(field := c.field + [field[0]]);
      assert (field + rest)[1..] == field[1..] + rest;
      ScanPlain(field[1..], rest, c1);
      assert c1.field + field[1..] == c.field + field;
    }
  }

  lemma {:induction false} ScanCell(cell: Cell, rest: string, c: Scanner)
    requires !c.inQuotes && c.field == "" && NoQuoteFirst(rest) && Correct(cell)
    ensures Scan(EncodeCell(cell) + rest, c) == Scan(rest, c.(field := cell.text))
  {
    if cell.Quoted? {
      ScanQuoted(cell.text, rest, c);
    } else {
      ScanPlain(cell.text, rest, c);
      assert "" + cell.text == cell.text;
    }
  }

  lemma {:induction false} ScanComma(rest: string, c: Scanner)
    requires !c.inQuotes
    ensures Scan("," + rest, c) == Scan(rest, EndField(c))
  {
    assert ("," + rest)[1..] == rest;
  }

  lemma {:induction false} ScanRow(row: seq<Cell>, rest: string, c: Scanner)
    requires row != [] && !c.inQuotes && c.field == "" && NoQuoteFirst(rest) && CorrectRow(row)
    ensures var n := |row| - 1;
      Scan(EncodeRow(row) + rest, c) == Scan(rest, c.(row := c.row + Texts(row)[..n], field := row[n].text))
    decreases |row|
  {
    if |row| == 1 {
      ScanCell(row[0], rest, c);
      assert c.row + Texts(row)[..0] == c.row;
    } else {
      ScanFirst(row, rest, c);
      ScanRow(row[1..], rest, EndField(c.(field := row[0].text)));
      FirstText(row, c.row);
    }
  }

  lemma {:induction false} FirstText(row: seq<Cell>, before: seq<string>)
    requires |row| > 1
    ensures before + [row[0].text] + Texts(row[1..])[..|row| - 2] == before + Texts(row)[..|row| - 1]
    ensures row[1..][|row| - 2] == row[|row| - 1]
  {
  }

  // The first of several cells, and the comma.
  lemma {:induction false} ScanFirst(row: seq<Cell>, rest: string, c: Scanner)
    requires |row| > 1 && !c.inQuotes && c.field == "" && CorrectRow(row)
    ensures Scan(EncodeRow(row) + rest, c) ==
      Scan(EncodeRow(row[1..]) + rest, EndField(c.(field := row[0].text)))
  {
    var tail := EncodeRow(row[1..]) + rest;
    assert EncodeRow(row) + rest == EncodeCell(row[0]) + ("," + tail);
    ScanCell(row[0], "," + tail, c);
    ScanComma(tail, c.(field := row[0].text));
  }

  lemma {:induction false} ScanEol(e: LineEnd, rest: string, c: Scanner)
    requires !c.inQuotes
    ensures Scan(Eol(e) + rest, c) == Scan(rest, EndRow(c))
  {
    var s := Eol(e) + rest;
    if e == CRLF {
      assert s[1..] == "\n" + rest;
      assert s[1..][1..] == rest;
    } else {
      assert s[1..] == rest;
    }
  }

  function AsParsed(row: seq<string>): seq<string> {
    if row == [] then [""] else row
  }

  lemma {:induction false} ScanLine(row: seq<Cell>, e: LineEnd, rest: string, c: Scanner)
    requires !c.inQuotes && c.field == "" && c.row == [] && CorrectRow(row)
    ensures Scan(EncodeRow(row) + Eol(e) + rest, c) == Scan(rest, c.(rows := c.rows + [AsParsed(Texts(row))]))
  {
    var tail := Eol(e) + rest;
    assert EncodeRow(row) + Eol(e) + rest == EncodeRow(row) + tail;
    if row == [] {
      assert EncodeRow(row) + tail == tail;
      ScanEol(e, rest, c);
      assert c.row + [c.field] == [""];
    } else {
      var n := |row| - 1;
      ScanRow(row, tail, c);
      ScanEol(e, rest, c.(row := c.row + Texts(row)[..n], field := row[n].text));
      assert c.row + Texts(row)[..n] + [row[n].text] == Texts(row);
    }
  }

  // A last row without line end is lost if there is nothing in it.
  function LastParsed(row: seq<string>): seq<seq<string>> {
    if row == [] || row == [""] then [] else [row]
  }

  lemma {:induction false} CloseTexts(texts: seq<string>, c: Scanner)
    requires texts != [] && c.row == texts[..|texts| - 1] && c.field == texts[|texts| - 1]
    ensures Close(c) == c.rows + LastParsed(texts)
  {
    assert c.row + [c.field] == texts;
    if c.row == [] && c.field == "" {
      assert texts == [""];
    } else {
      assert texts != [""];
    }
  }

  lemma {:induction false} CloseOpenRow(row: seq<Cell>, c: Scanner)
    requires !c.inQuotes && c.field == "" && c.row == [] && CorrectRow(row)
    ensures Close(Scan(EncodeRow(row), c)) == c.rows + LastParsed(Texts(row))
  {
    if row == [] {
      assert Texts(row) == [] && c.rows + [] == c.rows;
    } else {
      var texts, n := Texts(row), |row| - 1;
      assert EncodeRow(row) + "" == EncodeRow(row);
      ScanRow(row, "", c);
      assert c.row + texts[..n] == texts[..n];
      CloseTexts(texts, c.(row := texts[..n], field := texts[n]));
    }
  }

  // All rows that are read from an encoded table, blank ones included.
  function Parsed(table: seq<seq<string>>, closed: bool): seq<seq<string>> {
    if table == [] then []
    else if |table| == 1 && !closed then LastParsed(table[0])
    else [AsParsed(table[0])] + Parsed(table[1..], closed)
  }

  lemma {:induction false} ScanTable(table: seq<seq<Cell>>, e: LineEnd, closed: bool, c: Scanner)
    requires !c.inQuotes && c.field == "" && c.row == [] && CorrectTable(table)
    ensures Close(Scan(Encode(table, e, closed), c)) == c.rows + Parsed(AllTexts(table), closed)
    decreases |table|
  {
    if |table| == 1 && !closed {
      CloseOpenRow(table[0], c);
      assert EncodeRow(table[0]) + "" + "" == EncodeRow(table[0]);
    } else if table != [] {
      var row, rest := table[0], table[1..];
      var c1 := c.(rows := c.rows + [AsParsed(Texts(row))]);
      ScanLine(row, e, Encode(rest, e, closed), c);
      ScanTable(rest, e, closed, c1);
      assert AllTexts(table)[1..] == AllTexts(rest);
      Regroup(c.rows, [AsParsed(Texts(row))], Parsed(AllTexts(rest), closed));
    }
  }

  // ---- what is left of a table ----

  // A row with something to see.
  predicate Shows(row: seq<string>) {
    exists j :: 0 <= j < |row| && exists k :: 0 <= k < |row[j]| && !IsTrimmed(row[j][k])
  }

  // The rows with something to see, in order.
  function Visible(rows: seq<seq<string>>): seq<seq<string>> {
    if rows == [] then [] else (if Shows(rows[0]) then [rows[0]] else []) + Visible(rows[1..])
  }

  // The first n rows, and the first rows, at least one.
  function Kept(rows: seq<seq<string>>, n: nat): seq<seq<string>> {
    if n < |rows| then rows[..n] else rows
  }

  function First(rows: seq<seq<string>>, limit: int): seq<seq<string>> {
    Kept(rows, if limit < 1 then 1 else limit)
  }

  lemma {:induction false} KeptCons(row: seq<string>, rows: seq<seq<string>>, n: nat)
    requires n > 0
    ensures Kept([row] + rows, n) == [row] + Kept(rows, n - 1)
  {
  }

  lemma {:induction false} NonBlankCons(row: seq<string>, rows: seq<seq<string>>)
    ensures NonBlank([row] + rows) == (if BlankRow(row) then [] else [row]) + NonBlank(rows)
  {
    NonBlankAppend([row], rows);
    assert [row][..0] == [];
  }

  lemma {:induction false} ShowsUnlessBlank(row: seq<string>)
    ensures Shows(row) <==> !BlankRow(row)
    ensures Shows(AsParsed(row)) <==> Shows(row)
    ensures Shows(row) ==> AsParsed(row) == row && LastParsed(row) == [row]
  {
    if !BlankRow(row) {
      var j :| 0 <= j < |row| && !BlankField(row[j]);
      var k :| 0 <= k < |row[j]| && !IsTrimmed(row[j][k]);
      assert Shows(row);
    }
  }

  lemma {:induction false} NonBlankIsVisible(rows: seq<seq<string>>)
    ensures NonBlank(rows) == Visible(rows)
    decreases |rows|
  {
    if rows != [] {
      NonBlankIsVisible(rows[1..]);
      NonBlankCons(rows[0], rows[1..]);
      ShowsUnlessBlank(rows[0]);
      assert rows == [rows[0]] + rows[1..];
    }
  }

  lemma {:induction false} VisibleCons(row: seq<string>, rows: seq<seq<string>>)
    ensures Visible([row] + rows) == (if Shows(row) then [row] else []) + Visible(rows)
  {
    assert ([row] + rows)[1..] == rows;
  }

  // A first row that differs at most in being [] or [""] shows as much.
  lemma {:induction false} FirstShows(row: seq<string>, parsed: seq<seq<string>>, rest: seq<seq<string>>, n: nat)
    requires n > 0 && Visible(Kept(parsed, n - 1)) == Visible(Kept(rest, n - 1))
    ensures Visible(Kept([AsParsed(row)] + parsed, n)) == Visible(Kept([row] + rest, n))
  {
    KeptCons(AsParsed(row), parsed, n);
    KeptCons(row, rest, n);
    VisibleCons(AsParsed(row), Kept(parsed, n - 1));
    VisibleCons(row, Kept(rest, n - 1));
    ShowsUnlessBlank(row);
  }

  lemma {:induction false} LastShows(row: seq<string>, n: nat)
    ensures Visible(Kept(LastParsed(row), n)) == Visible(Kept([row], n))
  {
    ShowsUnlessBlank(row);
    VisibleCons(row, []);
    assert [row] + [] == [row];
  }

  // Of the first rows read, those with something to see are those of the table.
  lemma {:induction false} ParsedShows(table: seq<seq<string>>, closed: bool, n: nat)
    ensures Visible(Kept(Parsed(table, closed), n)) == Visible(Kept(table, n))
    decreases |table|
  {
    if |table| == 1 && !closed {
      LastShows(table[0], n);
      assert table == [table[0]];
    } else if table != [] && n > 0 {
      ParsedShows(table[1..], closed, n - 1);
      FirstShows(table[0], Parsed(table[1..], closed), table[1..], n);
      assert table == [table[0]] + table[1..];
    }
  }

  // Parsing an encoded table gives its rows that have something to see, for any
  // fields and any choice of quotes.
  lemma {:induction false} CsvRoundTrip(table: seq<seq<Cell>>, e: LineEnd, closed: bool)
    requires CorrectTable(table)
    ensures NonBlank(AllRows(Encode(table, e, closed))) == Visible(AllTexts(table))
    ensures NonBlank(AllRows(Encode(table, e, closed))) == AllTexts(table) <==> AllShow(AllTexts(table))
  {
    EncodedRows(table, e, closed);
    VisibleOfParsed(AllTexts(table), closed);
    VisibleIsAll(AllTexts(table));
  }

  predicate AllShow(rows: seq<seq<string>>) {
    forall k :: 0 <= k < |rows| ==> Shows(rows[k])
  }

  lemma {:induction false} EncodedRows(table: seq<seq<Cell>>, e: LineEnd, closed: bool)
    requires CorrectTable(table)
    ensures AllRows(Encode(table, e, closed)) == Parsed(AllTexts(table), closed)
  {
    ScanTable(table, e, closed, START);
    assert [] + Parsed(AllTexts(table), closed) == Parsed(AllTexts(table), closed);
  }

  lemma {:induction false} VisibleOfParsed(rows: seq<seq<string>>, closed: bool)
    ensures NonBlank(Parsed(rows, closed)) == Visible(rows)
  {
    ParsedShows(rows, closed, |rows| + |Parsed(rows, closed)|);
    NonBlankIsVisible(Parsed(rows, closed));
  }

  // With a limit, those of its first rows.
  lemma {:induction false} LimitedRoundTrip(table: seq<seq<Cell>>, e: LineEnd, closed: bool, limit: int)
    requires CorrectTable(table)
    ensures NonBlank(Limited(AllRows(Encode(table, e, closed)), Some(limit))) == Visible(First(AllTexts(table), limit))
  {
    var rows := AllTexts(table);
    var n := if limit < 1 then 1 else limit;
    EncodedRows(table, e, closed);
    ParsedShows(rows, closed, n);
    NonBlankIsVisible(Limited(Parsed(rows, closed), Some(limit)));
  }

  lemma {:induction false} VisibleIsShort(rows: seq<seq<string>>)
    ensures |Visible(rows)| <= |rows|
    decreases |rows|
  {
    if rows != [] {
      VisibleIsShort(rows[1..]);
    }
  }

  lemma {:induction false} VisibleIsAll(rows: seq<seq<string>>)
    ensures Visible(rows) == rows <==> AllShow(rows)
    decreases |rows|
  {
    if rows != [] {
      VisibleIsAll(rows[1..]);
      VisibleIsShort(rows[1..]);
      assert rows == [rows[0]] + rows[1..];
    }
  }
}
