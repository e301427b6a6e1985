/**
 * The CSV printer of src/backtest/csvWriter.js and a parser for the format of RFC 4180, section 2, with LF
 * instead of CRLF at the end of a record.
 */
module Csv {
  import opened Common

  /** A cell value: `null` or `undefined`, a value printed by its text, or an object printed by its JSON text. */
  datatype Value = Null | Text(text: string) | Object(json: string)

  /** A row object: its own keys in order, with their values. A missing row has no keys. */
  type Row = seq<(string, Value)>

  // ---------- printing ----------

  predicate Special(c: char) {
    c == '"' || c == ',' || c == '\n' || c == '\r'
  }

  function Doubled(t: string): string {
    if t == "" then ""
    else (if t[0] == '"' then "\"\"" else [t[0]]) + Doubled(t[1..])
  }

  predicate NeedsQuotes(t: string) {
    exists i :: 0 <= i < |t| && Special(t[i])
  }

  function EscapeCell(v: Value): string
    decreases if v.Object? then 1 else 0
  {
    match v
    case Null => ""
    case Object(json) => EscapeCell(Text(json))
    case Text(t) => if NeedsQuotes(t) then "\"" + Doubled(t) + "\"" else t
  }

  /** The string a cell stands for. */
  function CellText(v: Value): string {
    match v
    case Null => ""
    case Text(t) => t
    case Object(json) => json
  }

  function At(row: Row, column: string): Value {
    if row == [] then Null
    else if row[0].0 == column then row[0].1
    else At(row[1..], column)
  }

  function RowCells(row: Row, columns: seq<string>): (cells: seq<string>)
    ensures |cells| == |columns|
  {
    seq(|columns|, i requires 0 <= i < |columns| => CellText(At(row, columns[i])))
  }

  /** The table of strings behind a CSV file: the header, then one record per row. */
  function Table(rows: seq<Row>, columns: seq<string>): seq<seq<string>> {
    [columns] + seq(|rows|, i requires 0 <= i < |rows| => RowCells(rows[i], columns))
  }

  function PrintRecord(cells: seq<string>): string {
    if cells == [] then ""
    else if |cells| == 1 then EscapeCell(Text(cells[0]))
    else EscapeCell(Text(cells[0])) + "," + PrintRecord(cells[1..])
  }

  function Print(table: seq<seq<string>>): string {
    if table == [] then "" else PrintRecord(table[0]) + "\n" + Print(table[1..])
  }

  // ---------- the methods of the source ----------

  function AllKeys(rows: seq<Row>): seq<string> {
    if rows == [] then [] else AllKeys(rows[..|rows| - 1]) + RowKeys(rows[|rows| - 1])
  }

  function RowKeys(row: Row): (k: seq<string>)
    ensures |k| == |row|
  {
    seq(|row|, i requires 0 <= i < |row| => row[i].0)
  }

  /** Each string once, at its first appearance. */
  function Dedup(s: seq<string>): seq<string> {
    if s == [] then []
    else
      var init, last := s[..|s| - 1], s[|s| - 1];
      Dedup(init) + if last in init then [] else [last]
  }

  ghost predicate FirstAt(s: seq<string>, x: string, i: int) {
    0 <= i < |s| && s[i] == x && x !in s[..i]
  }

  lemma FirstInPrefix(init: seq<string>, last: string, x: string, i: int)
    requires x in init && FirstAt(init + [last], x, i)
    ensures FirstAt(init, x, i)
  {
    var s := init + [last];
    forall q | 0 <= q < i
      ensures s[q] != x
    {
      assert s[..i][q] == s[q];
    }
    var k :| 0 <= k < |init| && init[k] == x;
    assert s[k] == x;
    assert s[..i] == init[..i];
  }

  /** Deduplication loses no string, repeats none, and keeps the order of first appearance. */
  lemma {:induction false} DedupKeepsFirsts(s: seq<string>)
    ensures forall x :: x in s <==> x in Dedup(s)
    ensures forall a, b :: 0 <= a < b < |Dedup(s)| ==> Dedup(s)[a] != Dedup(s)[b]
    ensures forall a, b, i, j ::
              0 <= a < b < |Dedup(s)| && FirstAt(s, Dedup(s)[a], i) && FirstAt(s, Dedup(s)[b], j) ==> i < j
  {
    if s != [] {
      var init, last := s[..|s| - 1], s[|s| - 1];
      DedupKeepsFirsts(init);
      assert s == init + [last];
      var d := Dedup(s);
      forall a, b, i, j | 0 <= a < b < |d| && FirstAt(s, d[a], i) && FirstAt(s, d[b], j)
        ensures i < j
      {
        assert d[a] == Dedup(init)[a];
        assert d[a] in init;
        FirstInPrefix(init, last, d[a], i);
        if b < |Dedup(init)| {
          assert d[b] in init;
          FirstInPrefix(init, last, d[b], j);
        } else {
          assert d[b] == last;
        }
      }
    }
  }

  lemma DedupSnoc(s: seq<string>, x: string)
    ensures Dedup(s + [x]) == Dedup(s) + if x in s then [] else [x]
  {
    assert (s + [x])[..|s|] == s;
  }

  /** The inner loop: the keys of one more row. */
  method AddKeys(keys: seq<string>, ghost before: seq<string>, soFar: seq<string>, known: set<string>)
    returns (columns: seq<string>, seen: set<string>)
    requires soFar == Dedup(before) && forall x :: x in known <==> x in before
    ensures columns == Dedup(before + keys)
    ensures forall x :: x in seen <==> x in before + keys
  {
    hide Dedup;
    columns, seen := soFar, known;
    assert before + keys[..0] == before;
    for k := 0 to |keys|
      invariant columns == Dedup(before + keys[..k])
      invariant forall x :: x in seen <==> x in before + keys[..k]
    {
      DedupSnoc(before + keys[..k], keys[k]);
      assert before + keys[..k + 1] == before + keys[..k] + [keys[k]];
      if keys[k] !in seen {
        seen := seen + {keys[k]};
        columns := columns + [keys[k]];
      }
    }
    assert keys[..|keys|] == keys;
  }

  /** The columns are the keys of all rows, each once, in order of first appearance. */
  method InferColumns(rows: seq<Row>) returns (columns: seq<string>)
    ensures columns == Dedup(AllKeys(rows))
  {
    columns := [];
    var seen: set<string> := {};
    assert AllKeys(rows[..0]) == [] && Dedup([]) == [];
    hide Dedup;
    for r := 0 to |rows|
      invariant columns == Dedup(AllKeys(rows[..r]))
      invariant forall x :: x in seen <==> x in AllKeys(rows[..r])
    {
      columns, seen := AddKeys(RowKeys(rows[r]), AllKeys(rows[..r]), columns, seen);
      assert rows[..r + 1][..r] == rows[..r];
    }
    assert rows[..|rows|] == rows;
  }

  /** The columns in force: the caller's when it names any, else the inferred ones. */
  function ResolvedColumns(rows: seq<Row>, columns: Option<seq<string>>): seq<string> {
    if columns.Some? && columns.value != [] then columns.value else Dedup(AllKeys(rows))
  }

  /** Joins cells with commas, as `map(escapeCell).join(",")` does. */
  method JoinCells(values: seq<Value>, ghost cells: seq<string>) returns (line: string)
    requires |cells| == |values| && forall i :: 0 <= i < |values| ==> cells[i] == CellText(values[i])
    ensures line == PrintRecord(cells)
  {
    line := "";
    var i := |values|;
    assert cells[|values|..] == [];
    while i > 0
      invariant 0 <= i <= |values|
      invariant line == PrintRecord(cells[i..])
    {
      i := i - 1;
      assert cells[i..][1..] == cells[i + 1..];
      EscapeByText(values[i]);
      line := EscapeCell(values[i]) + if i + 1 < |values| then "," + line else "";
    }
    assert cells[0..] == cells;
  }

  /** One record: the cells of a row in column order. */
  method RowLine(row: Row, columns: seq<string>) returns (line: string)
    ensures line == PrintRecord(RowCells(row, columns))
  {
    hide PrintRecord;
    line := JoinCells(seq(|columns|, i requires 0 <= i < |columns| => At(row, columns[i])), RowCells(row, columns));
  }

  lemma EscapeByText(v: Value)
    ensures EscapeCell(v) == EscapeCell(Text(CellText(v)))
  {
  }

  lemma TableRows(rows: seq<Row>, columns: seq<string>)
    ensures var t := Table(rows, columns);
            && |t| == |rows| + 1 && t[0] == columns
            && forall r :: 0 <= r < |rows| ==> t[r + 1] == RowCells(rows[r], columns)
  {
    hide RowCells;
  }

  lemma PrintOne(record: seq<string>)
    ensures Print([record]) == PrintRecord(record) + "\n"
  {
    hide PrintRecord;
    assert [record][1..] == [];
    assert Print([]) == "";
  }

  lemma PrintSnoc(table: seq<seq<string>>, record: seq<string>)
    ensures Print(table + [record]) == Print(table) + PrintRecord(record) + "\n"
  {
    hide PrintRecord;
    if table == [] {
      assert table + [record] == [record];
      assert [record][1..] == [];
    } else {
      PrintSnoc(table[1..], record);
      assert (table + [record])[1..] == table[1..] + [record];
    }
  }

  /** The header record. */
  method HeaderLine(columns: seq<string>) returns (line: string)
    ensures line == PrintRecord(columns)
  {
    hide PrintRecord;
    line := JoinCells(seq(|columns|, i requires 0 <= i < |columns| => Text(columns[i])), columns);
  }

  /** The rows after the header, one record a line. */
  method AddRows(rows: seq<Row>, columns: seq<string>, header: string) returns (text: string)
    requires header == Print([columns])
    ensures text == Print(Table(rows, columns))
  {
    ghost var table := Table(rows, columns);
    TableRows(rows, columns);
    hide Print, PrintRecord, RowCells, Table;
    text := header;
    assert table[..1] == [columns];
    for r := 0 to |rows|
      invariant text == Print(table[..r + 1])
    {
      var line := RowLine(rows[r], columns);
      PrintSnoc(table[..r + 1], table[r + 1]);
      assert table[..r + 2] == table[..r + 1] + [table[r + 1]];
      text := text + line + "\n";
    }
    assert table[..|rows| + 1] == table;
  }

  /** The file text prints the header and one record per row. */
  method ToCsv(rows: seq<Row>, columns: Option<seq<string>>) returns (text: string)
    ensures text == Print(Table(rows, ResolvedColumns(rows, columns)))
  {
    hide Print, PrintRecord, Table;
    var resolved: seq<string>;
    if columns.Some? && columns.value != [] {
      resolved := columns.value;
    } else {
      resolved := InferColumns(rows);
    }
    var line := HeaderLine(resolved);
    PrintOne(resolved);
    text := AddRows(rows, resolved, line + "\n");
  }

  // ---------- parsing ----------

  datatype Parsed<T> = Parsed(value: T, rest: string)

  /** The inside of a quoted field, up to its closing quote. */
  function ParseQuoted(s: string): (p: Option<Parsed<string>>)
    ensures p.Some? ==> |p.value.rest| < |s|
  {
    if s == "" then None
    else if s[0] == '"' && !(|s| > 1 && s[1] == '"') then Some(Parsed("", s[1..]))
    else
      var q := ParseQuoted(if s[0] == '"' then s[2..] else s[1..]);
      if q.None? then None else Some(Parsed([s[0]] + q.value.value, q.value.rest))
  }

  /** An unquoted field: everything up to the next comma, quote or line end. */
  function ParsePlain(s: string): (p: Parsed<string>)
    ensures |p.rest| <= |s|
  {
    if s == "" || Special(s[0]) then Parsed("", s)
    else
      var p := ParsePlain(s[1..]);
      Parsed([s[0]] + p.value, p.rest)
  }

  function ParseField(s: string): (p: Option<Parsed<string>>)
    ensures p.Some? ==> |p.value.rest| <= |s|
  {
    if s != "" && s[0] == '"' then ParseQuoted(s[1..]) else Some(ParsePlain(s))
  }

  /** One or more fields separated by commas. */
  function ParseRecord(s: string): (p: Option<Parsed<seq<string>>>)
    ensures p.Some? ==> |p.value.rest| <= |s|
    decreases |s|
  {
    var f := ParseField(s);
    if f.None? then None
    else if f.value.rest != "" && f.value.rest[0] == ',' then
      var more := ParseRecord(f.value.rest[1..]);
      if more.None? then None else Some(Parsed([f.value.value] + more.value.value, more.value.rest))
    else Some(Parsed([f.value.value], f.value.rest))
  }

  /** Records, each closed by a line feed that only the last may lack. */
  function Parse(s: string): Option<seq<seq<string>>>
    decreases |s|
  {
    if s == "" then Some([])
    else
      var r := ParseRecord(s);
      if r.None? then None
      else if r.value.rest == "" then Some([r.value.value])
      else if r.value.rest[0] != '\n' then None
      else
        var more := Parse(r.value.rest[1..]);
        if more.None? then None else Some([r.value.value] + more.value)
  }

  // ---------- round trip ----------

  lemma {:induction false} QuotedParsesBack(t: string, rest: string)
    requires rest == "" || rest[0] != '"'
    ensures ParseQuoted(Doubled(t) + "\"" + rest) == Some(Parsed(t, rest))
  {
    var s := Doubled(t) + "\"" + rest;
    if t == "" {
      assert s == "\"" + rest;
    } else {
      QuotedParsesBack(t[1..], rest);
      var tail := Doubled(t[1..]) + "\"" + rest;
      if t[0] == '"' {
        assert s == "\"\"" + tail;
        assert s[2..] == tail;
      } else {
        assert s == [t[0]] + tail;
        assert s[1..] == tail;
      }
      assert [t[0]] + t[1..] == t;
    }
  }

  lemma {:induction false} PlainParsesBack(t: string, rest: string)
    requires !NeedsQuotes(t)
    requires rest == "" || Special(rest[0])
    ensures ParsePlain(t + rest) == Parsed(t, rest)
  {
    if t == "" {
      assert t + rest == rest;
    } else {
      assert (t + rest)[1..] == t[1..] + rest;
      assert !NeedsQuotes(t[1..]) by {
        forall i | 0 <= i < |t[1..]|
          ensures !Special(t[1..][i])
        {
          assert t[1..][i] == t[i + 1];
        }
      }
      PlainParsesBack(t[1..], rest);
      assert [t[0]] + t[1..] == t;
    }
  }

  lemma FieldParsesBack(t: string, rest: string)
    requires rest == "" || rest[0] == ',' || rest[0] == '\n'
    ensures ParseField(EscapeCell(Text(t)) + rest) == Some(Parsed(t, rest))
  {
    if NeedsQuotes(t) {
      QuotedParsesBack(t, rest);
      assert EscapeCell(Text(t)) + rest == "\"" + (Doubled(t) + "\"" + rest);
    } else {
      PlainParsesBack(t, rest);
      assert t != "" ==> t[0] != '"';
    }
  }

  lemma {:induction false} RecordParsesBack(cells: seq<string>, rest: string)
    requires cells != [] && (rest == "" || rest[0] == '\n')
    ensures ParseRecord(PrintRecord(cells) + rest) == Some(Parsed(cells, rest))
  {
    hide EscapeCell, ParseField;
    if |cells| == 1 {
      FieldParsesBack(cells[0], rest);
      assert cells == [cells[0]];
    } else {
      var tail := "," + (PrintRecord(cells[1..]) + rest);
      assert PrintRecord(cells) + rest == EscapeCell(Text(cells[0])) + tail;
      FieldParsesBack(cells[0], tail);
      assert tail[1..] == PrintRecord(cells[1..]) + rest;
      RecordParsesBack(cells[1..], rest);
      assert [cells[0]] + cells[1..] == cells;
    }
  }

  ghost predicate AllFilled(table: seq<seq<string>>) {
    forall i :: 0 <= i < |table| ==> table[i] != []
  }

  /** A printed table parses back to itself when every record has a field. */
  lemma {:induction false} PrintParsesBack(table: seq<seq<string>>)
    requires AllFilled(table)
    ensures Parse(Print(table)) == Some(table)
  {
    hide ParseRecord, PrintRecord;
    if table != [] {
      var rest := "\n" + Print(table[1..]);
      assert Print(table) == PrintRecord(table[0]) + rest;
      RecordParsesBack(table[0], rest);
      assert rest[1..] == Print(table[1..]);
      assert AllFilled(table[1..]);
      PrintParsesBack(table[1..]);
      assert [table[0]] + table[1..] == table;
    }
  }

  lemma {:induction false} ParsedRecordsAreFilled(s: string)
    ensures Parse(s).Some? ==> AllFilled(Parse(s).value)
    decreases |s|
  {
    if s != "" && ParseRecord(s).Some? {
      var r := ParseRecord(s).value;
      if r.rest != "" && r.rest[0] == '\n' {
        ParsedRecordsAreFilled(r.rest[1..]);
      }
    }
  }

  /**
   * The file parses back to its header and cells exactly when there is a column; with none, a lone line end reads as
   * one empty field.
   */
  lemma CsvRoundTrip(rows: seq<Row>, columns: Option<seq<string>>)
    ensures var resolved := ResolvedColumns(rows, columns);
            Parse(Print(Table(rows, resolved))) == Some(Table(rows, resolved)) <==> resolved != []
  {
    var resolved := ResolvedColumns(rows, columns);
    var table := Table(rows, resolved);
    if resolved != [] {
      assert AllFilled(table);
      PrintParsesBack(table);
    } else {
      ParsedRecordsAreFilled(Print(table));
      assert table[0] == [];
    }
  }

  /** Two tables with a field in every record print alike only if they are the same table. */
  lemma PrintIsInjective(a: seq<seq<string>>, b: seq<seq<string>>)
    requires AllFilled(a) && AllFilled(b)
    ensures Print(a) == Print(b) ==> a == b
  {
    PrintParsesBack(a);
    PrintParsesBack(b);
  }

  // ---------- the format, piece by piece ----------

  ghost predicate Bare(t: string) {
    forall i :: 0 <= i < |t| ==> t[i] != '"' && t[i] != ',' && t[i] != '\n' && t[i] != '\r'
  }

  /** A cell free of quotes, commas and line ends prints as it is; any other between quotes, its own quotes doubled. */
  lemma CellPrints(t: string)
    ensures EscapeCell(Text(t)) == if Bare(t) then t else "\"" + Doubled(t) + "\""
    ensures EscapeCell(Null) == "" && EscapeCell(Object(t)) == EscapeCell(Text(t))
    ensures CellText(Null) == "" && CellText(Text(t)) == t && CellText(Object(t)) == t
  {
  }

  lemma {:induction false} DoublingJoins(a: string, b: string, c: char)
    ensures Doubled(a + b) == Doubled(a) + Doubled(b) && Doubled("") == ""
    ensures Doubled([c]) == if c == '"' then "\"\"" else [c]
  {
    assert [c][1..] == "";
    if a == "" {
      assert a + b == b;
    } else {
      DoublingJoins(a[1..], b, c);
      assert (a + b)[1..] == a[1..] + b;
    }
  }

  /** Cells stand between commas; every record, the last one too, ends with a line feed. */
  lemma {:induction false} RecordsJoin(a: seq<string>, b: seq<string>, x: string)
    ensures PrintRecord([]) == "" && PrintRecord([x]) == EscapeCell(Text(x))
    ensures a != [] && b != [] ==> PrintRecord(a + b) == PrintRecord(a) + "," + PrintRecord(b)
  {
    hide EscapeCell;
    if a != [] && b != [] {
      assert (a + b)[1..] == a[1..] + b;
      if |a| == 1 {
        assert (a + b)[1..] == b;
      } else {
        RecordsJoin(a[1..], b, x);
      }
    }
  }

  lemma {:induction false} TablesJoin(a: seq<seq<string>>, b: seq<seq<string>>, record: seq<string>)
    ensures Print([]) == "" && Print([record]) == PrintRecord(record) + "\n"
    ensures Print(a + b) == Print(a) + Print(b)
  {
    hide PrintRecord;
    PrintOne(record);
    if a == [] {
      assert a + b == b;
    } else {
      TablesJoin(a[1..], b, record);
      assert (a + b)[1..] == a[1..] + b;
    }
  }

  /** The cell of a row under a column: the value of the first key of that name, and nothing where there is none. */
  lemma {:induction false} AtInNumbers(row: Row, column: string, i: nat)
    requires i <= |row| && (forall j :: 0 <= j < i ==> row[j].0 != column) && (i < |row| ==> row[i].0 == column)
    ensures At(row, column) == if i < |row| then row[i].1 else Null
  {
    if i > 0 {
      assert row[0].0 != column;
      assert forall j :: 0 <= j < i - 1 ==> row[1..][j] == row[j + 1];
      AtInNumbers(row[1..], column, i - 1);
    }
  }

  lemma TableInNumbers(rows: seq<Row>, columns: seq<string>, r: nat, c: nat)
    requires r < |rows| && c < |columns|
    ensures var t := Table(rows, columns);
            && |t| == |rows| + 1 && t[0] == columns && |t[r + 1]| == |columns|
            && t[r + 1][c] == CellText(At(rows[r], columns[c]))
  {
  }

  /** The keys of the rows, one row after the other, each in its own order. */
  lemma {:induction false} KeysJoin(a: seq<Row>, b: seq<Row>, row: Row)
    ensures AllKeys([]) == [] && AllKeys([row]) == seq(|row|, i requires 0 <= i < |row| => row[i].0)
    ensures AllKeys(a + b) == AllKeys(a) + AllKeys(b)
    decreases |b|
  {
    assert [row][..0] == [];
    if b == [] {
      assert a + b == a;
    } else {
      KeysJoin(a, b[..|b| - 1], row);
      assert (a + b)[..|a + b| - 1] == a + b[..|b| - 1];
    }
  }

  /** The caller's columns count when there are any. */
  lemma ColumnsInNumbers(rows: seq<Row>, columns: seq<string>)
    ensures ResolvedColumns(rows, None) == ResolvedColumns(rows, Some([])) == Dedup(AllKeys(rows))
    ensures |columns| > 0 ==> ResolvedColumns(rows, Some(columns)) == columns
  {
  }
}
