/** The browser's "export to Excel": the text of every cell of a table is
    cleaned and quoted, the cells of a row are joined with commas and the rows
    with line feeds. A reader of double-quoted fields with a line feed
    between records (the quoting rules of section 2 of RFC 4180, with LF in
    place of CRLF) gives back the cleaned cells, row by row. */
module CsvExport {
  import opened Http

  /** The characters of JavaScript's `\s` class. */
  predicate IsSpace(c: char)
  {
    || c == ' ' || c == '\t' || c == '\n' || c == '\r' || c == '\U{0B}' || c == '\U{0C}'
    || c == '\U{A0}' || c == '\U{1680}' || '\U{2000}' <= c <= '\U{200A}'
    || c == '\U{2028}' || c == '\U{2029}' || c == '\U{202F}' || c == '\U{205F}' || c == '\U{3000}' || c == '\U{FEFF}'
  }

  predicate IsLineBreak(c: char) { c == '\r' || c == '\n' }

  /** `.replace(/(\r\n|\n|\r)/gm, "")`: every carriage return and line feed
      is dropped and every other character kept, in order. */
  function StripLineBreaks(s: string): (r: string)
    ensures forall k :: 0 <= k < |r| ==> !IsLineBreak(r[k])
    ensures forall c :: c in r <==> c in s && !IsLineBreak(c)
    ensures (forall k :: 0 <= k < |s| ==> !IsLineBreak(s[k])) ==> r == s
  {
    if s == [] then []
    else if IsLineBreak(s[0]) then StripLineBreaks(s[1..])
    else [s[0]] + StripLineBreaks(s[1..])
  }

  /** `.replace(/(\s\s)/gm, " ")`: scanning from the left, each pair of
      whitespace characters becomes one space; pairs do not overlap. */
  function SqueezeSpaces(s: string): (r: string)
    ensures |r| <= |s|
    ensures forall c :: c in r ==> c in s || c == ' '
  {
    if |s| >= 2 && IsSpace(s[0]) && IsSpace(s[1]) then " " + SqueezeSpaces(s[2..])
    else if s == [] then []
    else [s[0]] + SqueezeSpaces(s[1..])
  }

  /** A text without two whitespace characters in a row is left as it is. */
  lemma {:induction false} SqueezeKeepsSingleSpaces(s: string)
    requires forall k :: 0 <= k < |s| - 1 ==> !(IsSpace(s[k]) && IsSpace(s[k + 1]))
    ensures SqueezeSpaces(s) == s
  {
    if s != [] {
      SqueezeKeepsSingleSpaces(s[1..]);
    }
  }

  /** A run of whitespace is halved, not collapsed: three spaces stay two
      and four stay two. */
  lemma SqueezeHalvesRuns()
    ensures SqueezeSpaces("   ") == "  "
    ensures SqueezeSpaces("    ") == "  "
  {
    assert "   "[2..] == " ";
    assert "    "[2..] == "  ";
    assert "  "[2..] == "";
  }

  /** `.replace(/"/g, '""')`. */
  function DoubleQuotes(s: string): (r: string)
    ensures |r| >= |s|
    ensures forall c :: c in r <==> c in s
  {
    if s == [] then []
    else if s[0] == '"' then "\"\"" + DoubleQuotes(s[1..])
    else [s[0]] + DoubleQuotes(s[1..])
  }

  /** The text a cell is written as, before quoting. */
  function Clean(text: string): (r: string)
    ensures forall k :: 0 <= k < |r| ==> !IsLineBreak(r[k])
  {
    var r := SqueezeSpaces(StripLineBreaks(text));
    assert forall c :: c in r ==> !IsLineBreak(c);
    r
  }

  /** One written cell: the cleaned text with its quotes doubled, in quotes. */
  function Cell(text: string): (r: string)
    ensures |r| >= 2 && r[0] == '"' && r[|r| - 1] == '"'
    ensures forall k :: 0 <= k < |r| ==> !IsLineBreak(r[k])
  {
    var d := DoubleQuotes(Clean(text));
    assert forall c :: c in d ==> !IsLineBreak(c);
    "\"" + d + "\""
  }

  /** `Array.prototype.join`. */
  function Join(parts: seq<string>, sep: string): string
  {
    if parts == [] then ""
    else if |parts| == 1 then parts[0]
    else parts[0] + sep + Join(parts[1..], sep)
  }

  function Cells(row: seq<string>): (r: seq<string>)
    ensures |r| == |row|
    ensures forall k :: 0 <= k < |row| ==> r[k] == Cell(row[k])
  {
    if row == [] then [] else [Cell(row[0])] + Cells(row[1..])
  }

  /** One line of the file: the row's written cells joined by commas. */
  function Line(row: seq<string>): string
  {
    Join(Cells(row), ",")
  }

  function Lines(table: seq<seq<string>>): (r: seq<string>)
    ensures |r| == |table|
    ensures forall i :: 0 <= i < |table| ==> r[i] == Line(table[i])
  {
    if table == [] then [] else [Line(table[0])] + Lines(table[1..])
  }

  /** The file for a table given as the text of its cells, row by row. */
  function Document(table: seq<seq<string>>): string
  {
    Join(Lines(table), "\n")
  }

  /** `exportToExcel`'s loops: for each row, each cell is cleaned and quoted
      and pushed onto the row, the row is joined and pushed onto the file,
      and the file's lines are joined at the end. A page without the table
      exports nothing. The download is left out. */
  method ExportToExcel(found: Option<seq<seq<string>>>) returns (csvStr: Option<string>)
    ensures found.None? ==> csvStr.None?
    ensures found.Some? ==> csvStr == Some(Document(found.value))
  {
    if found.None? {
      return None;
    }
    var table := found.value;
    var csv: seq<string> := [];
    var i := 0;
    while i < |table|
      invariant 0 <= i <= |table|
      invariant |csv| == i
      invariant forall k :: 0 <= k < i ==> csv[k] == Line(table[k])
    {
      var row := QuoteCells(table[i]);
      csv := csv + [Join(row, ",")];
      i := i + 1;
    }
    assert csv == Lines(table);
    csvStr := Some(Join(csv, "\n"));
  }

  /** The inner loop of `exportToExcel`: each cell of one row cleaned,
      quoted and pushed. */
  method QuoteCells(cols: seq<string>) returns (row: seq<string>)
    ensures row == Cells(cols)
  {
    row := [];
    var j := 0;
    while j < |cols|
      invariant 0 <= j <= |cols|
      invariant |row| == j
      invariant forall k :: 0 <= k < j ==> row[k] == Cell(cols[k])
    {
      var data := DoubleQuotes(SqueezeSpaces(StripLineBreaks(cols[j])));
      data := "\"" + data + "\"";
      row := row + [data];
      j := j + 1;
    }
  }

  // ---------------------------------------------------------------------
  // reading the file back: double-quoted fields as in section 2 of RFC 4180,
  // with LF rather than CRLF between records

  /** Reads the inside of a quoted field, just after its opening quote: a
      doubled quote stands for one quote and a single quote closes the field.
      Gives the field's text and what follows the closing quote. */
  function ReadQuoted(s: string): (r: Option<(string, string)>)
    ensures r.Some? ==> |r.value.1| < |s|
    decreases |s|
  {
    if s == [] then None
    else if s[0] == '"' then
      if |s| >= 2 && s[1] == '"' then
        match ReadQuoted(s[2..])
        case None => None
        case Some((v, rest)) => Some(("\"" + v, rest))
      else Some(("", s[1..]))
    else
      match ReadQuoted(s[1..])
      case None => None
      case Some((v, rest)) => Some(([s[0]] + v, rest))
  }

  /** Reads comma-separated quoted fields up to the end of a record. */
  function ReadFields(s: string): (r: Option<(seq<string>, string)>)
    ensures r.Some? ==> |r.value.1| < |s|
    decreases |s|
  {
    if s == [] || s[0] != '"' then None
    else
      match ReadQuoted(s[1..])
      case None => None
      case Some((v, rest)) =>
        if rest != [] && rest[0] == ',' then
          match ReadFields(rest[1..])
          case None => None
          case Some((vs, after)) => Some(([v] + vs, after))
        else Some(([v], rest))
  }

  /** A record: no field at all when it does not open with a quote. */
  function ReadRecord(s: string): (r: Option<(seq<string>, string)>)
    ensures r.Some? ==> |r.value.1| <= |s|
  {
    if s != [] && s[0] == '"' then ReadFields(s) else Some(([], s))
  }

  /** Records separated by line feeds, to the end of the text. */
  function ReadDocument(s: string): Option<seq<seq<string>>>
    decreases |s|
  {
    match ReadRecord(s)
    case None => None
    case Some((fields, rest)) =>
      if rest == [] then Some([fields])
      else if rest[0] == '\n' then
        match ReadDocument(rest[1..])
        case None => None
        case Some(records) => Some([fields] + records)
      else None
  }

  /** The cells of a row as they are written, before quoting. */
  function CleanRow(row: seq<string>): (r: seq<string>)
    ensures |r| == |row|
    ensures forall j :: 0 <= j < |row| ==> r[j] == Clean(row[j])
  {
    if row == [] then [] else [Clean(row[0])] + CleanRow(row[1..])
  }

  function Cleaned(table: seq<seq<string>>): (r: seq<seq<string>>)
    ensures |r| == |table|
    ensures forall i :: 0 <= i < |table| ==> r[i] == CleanRow(table[i])
  {
    if table == [] then [] else [CleanRow(table[0])] + Cleaned(table[1..])
  }

  /** A doubled-quote text followed by the closing quote reads back as the
      text, when what follows cannot be taken for another doubled quote. */
  lemma {:induction false} QuotedRoundTrip(x: string, rest: string)
    requires rest == [] || rest[0] != '"'
    ensures ReadQuoted(DoubleQuotes(x) + "\"" + rest) == Some((x, rest))
  {
    var s := DoubleQuotes(x) + "\"" + rest;
    if x == [] {
      assert s == "\"" + rest;
      assert s[1..] == rest;
    } else {
      QuotedRoundTrip(x[1..], rest);
      var tail := DoubleQuotes(x[1..]) + "\"" + rest;
      if x[0] == '"' {
        assert s == "\"\"" + tail;
        assert s[2..] == tail;
        assert "\"" + x[1..] == x;
      } else {
        assert s == [x[0]] + tail;
        assert s[1..] == tail;
        assert [x[0]] + x[1..] == x;
      }
    }
  }

  /** A written cell, followed by anything but a quote, opens with a quote
      and reads back as the cleaned text. */
  lemma CellRoundTrip(text: string, rest: string)
    requires rest == [] || rest[0] != '"'
    ensures var s := Cell(text) + rest; s != [] && s[0] == '"' && ReadQuoted(s[1..]) == Some((Clean(text), rest))
  {
    var d := DoubleQuotes(Clean(text));
    assert (Cell(text) + rest)[1..] == d + "\"" + rest;
    QuotedRoundTrip(Clean(text), rest);
  }

  /** The last cell of a record reads back alone. */
  lemma LastFieldRoundTrip(text: string, rest: string)
    requires rest == [] || rest[0] == '\n'
    ensures ReadFields(Cell(text) + rest) == Some(([Clean(text)], rest))
  {
    CellRoundTrip(text, rest);
  }

  /** A cell followed by a comma reads back in front of the fields after it. */
  lemma FieldThenMore(text: string, line: string, rest: string, fields: seq<string>, after: string)
    requires ReadFields(line + rest) == Some((fields, after))
    ensures ReadFields(Cell(text) + "," + line + rest) == Some(([Clean(text)] + fields, after))
  {
    var more := "," + (line + rest);
    assert Cell(text) + "," + line + rest == Cell(text) + more;
    CellRoundTrip(text, more);
    assert more[1..] == line + rest;
  }

  /** A row's written cells, followed by the end of the text or a line feed,
      read back as the row's cleaned cells. */
  lemma {:induction false} FieldsRoundTrip(row: seq<string>, rest: string)
    requires row != []
    requires rest == [] || rest[0] == '\n'
    ensures ReadFields(Line(row) + rest) == Some((CleanRow(row), rest))
  {
    if |row| == 1 {
      LineCons(row);
      LastFieldRoundTrip(row[0], rest);
    } else {
      FieldsRoundTrip(row[1..], rest);
      FieldsCons(row, rest);
    }
  }

  /** The step of FieldsRoundTrip: when the other cells read back, so does
      the whole row. */
  lemma FieldsCons(row: seq<string>, rest: string)
    requires |row| > 1
    requires ReadFields(Line(row[1..]) + rest) == Some((CleanRow(row[1..]), rest))
    ensures ReadFields(Line(row) + rest) == Some((CleanRow(row), rest))
  {
    LineCons(row);
    FieldThenMore(row[0], Line(row[1..]), rest, CleanRow(row[1..]), rest);
  }

  /** A line is its first cell, then a comma and the line of the other cells
      when there are any. */
  lemma LineCons(row: seq<string>)
    requires row != []
    ensures |row| == 1 ==> Line(row) == Cell(row[0]) && CleanRow(row) == [Clean(row[0])]
    ensures |row| > 1 ==> Line(row) == Cell(row[0]) + "," + Line(row[1..])
    ensures CleanRow(row) == [Clean(row[0])] + CleanRow(row[1..])
    ensures Line(row) != [] && Line(row)[0] == '"'
  {
    assert Cells(row) == [Cell(row[0])] + Cells(row[1..]);
    if |row| > 1 {
      assert Cells(row)[1..] == Cells(row[1..]);
    }
  }

  /** A row's line, followed by the end of the text or a line feed, reads
      back as the row's cleaned cells; an empty row is an empty line. */
  lemma RecordRoundTrip(row: seq<string>, rest: string)
    requires rest == [] || rest[0] == '\n'
    ensures ReadRecord(Line(row) + rest) == Some((CleanRow(row), rest))
  {
    if row == [] {
      assert Line(row) + rest == rest;
    } else {
      FieldsRoundTrip(row, rest);
      assert (Line(row) + rest)[0] == Cell(row[0])[0];
    }
  }

  /** Reading the exported file gives back every row's cleaned cells, in
      order: one record per row. (An empty table and a table of one empty
      row are both written as the empty text, so a table of at least one
      row is required.) */
  lemma {:induction false} DocumentRoundTrip(table: seq<seq<string>>)
    requires table != []
    ensures ReadDocument(Document(table)) == Some(Cleaned(table))
  {
    var first := Line(table[0]);
    var tail := table[1..];
    assert Lines(table) == [first] + Lines(tail);
    assert Cleaned(table) == [CleanRow(table[0])] + Cleaned(tail);
    if tail == [] {
      assert Document(table) == first;
      assert Cleaned(table) == [CleanRow(table[0])];
      RecordRoundTrip(table[0], "");
      assert first + "" == first;
    } else {
      var after := Document(tail);
      assert Document(table) == first + ("\n" + after);
      RecordRoundTrip(table[0], "\n" + after);
      assert ("\n" + after)[1..] == after;
      DocumentRoundTrip(tail);
    }
  }

  /** No line of the file holds a line feed of its own, so the file has
      exactly one line per row of the table. */
  lemma {:induction false} LineHasNoLineBreak(row: seq<string>)
    ensures forall k :: 0 <= k < |Line(row)| ==> !IsLineBreak(Line(row)[k])
  {
    JoinKeepsOut(Cells(row), ",", '\n');
    JoinKeepsOut(Cells(row), ",", '\r');
  }

  /** Joining parts that avoid a character, with a separator that avoids it,
      gives a text that avoids it. */
  lemma {:induction false} JoinKeepsOut(parts: seq<string>, sep: string, c: char)
    requires forall i :: 0 <= i < |parts| ==> c !in parts[i]
    requires c !in sep
    ensures c !in Join(parts, sep)
  {
    if |parts| > 1 {
      JoinKeepsOut(parts[1..], sep, c);
    }
  }
}
