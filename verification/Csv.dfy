/** The SQL editor's CSV export against an independent parser of section 2 of RFC 4180,
    with CRLF read as the separator between records. */
module Csv {
  import opened Options
  import opened Strings

  /** A result cell as JavaScript has it: null, undefined, an object (given by its JSON text),
      or anything else (given by its String(..) text). */
  datatype Cell = Null | Undefined | Obj(json: string) | Prim(text: string)

  function CellText(c: Cell): string {
    match c
    case Null => ""
    case Undefined => ""
    case Obj(json) => json
    case Prim(text) => text
  }

  function RowTexts(row: seq<Cell>): seq<string> {
    seq(|row|, i requires 0 <= i < |row| => CellText(row[i]))
  }

  predicate Special(c: char) { c == '"' || c == ',' || c == '\r' || c == '\n' }

  predicate NeedsQuotes(field: string) { exists i :: 0 <= i < |field| && Special(field[i]) }

  function Doubled(field: string): string {
    if field == "" then "" else (if field[0] == '"' then "\"\"" else [field[0]]) + Doubled(field[1..])
  }

  function EscapeField(field: string): string {
    if NeedsQuotes(field) then "\"" + Doubled(field) + "\"" else field
  }

  function Escaped(fields: seq<string>): seq<string> {
    seq(|fields|, i requires 0 <= i < |fields| => EscapeField(fields[i]))
  }

  function Line(fields: seq<string>): string { Join(Escaped(fields), ",") }

  function Lines(records: seq<seq<string>>): seq<string> {
    seq(|records|, i requires 0 <= i < |records| => Line(records[i]))
  }

  /** The text of a whole export: header record, then one record per row. */
  function CsvText(records: seq<seq<string>>): string { Join(Lines(records), "\r\n") }

  function Records(columns: seq<string>, rows: seq<seq<Cell>>): seq<seq<string>> {
    [columns] + seq(|rows|, i requires 0 <= i < |rows| => RowTexts(rows[i]))
  }

  /** buildCsv: pushes one joined line per record. */
  method BuildCsv(columns: seq<string>, rows: seq<seq<Cell>>) returns (text: string)
    ensures text == CsvText(Records(columns, rows))
  {
    var lines := [Join(Escaped(columns), ",")];
    for k := 0 to |rows|
      invariant |lines| == k + 1
      invariant forall i :: 0 <= i <= k ==> lines[i] == Line(Records(columns, rows)[i])
    {
      lines := lines + [Join(Escaped(RowTexts(rows[k])), ",")];
    }
    assert lines == Lines(Records(columns, rows));
    text := Join(lines, "\r\n");
  }

  // ---- the reference parser ----

  /** Where the parser is: at the start of a field, inside a bare or a quoted one, or just
      after a quote that may close it. */
  datatype Mode = AtStart | InBare | InQuoted | AfterQuote

  /** Records of a text, or None if it breaks the grammar: a quote may only open a field,
      and a closing quote must be followed by a comma, CRLF or the end. */
  function ParseFrom(s: string, mode: Mode, field: string, record: seq<string>,
      records: seq<seq<string>>): Option<seq<seq<string>>>
    decreases |s|
  {
    if s == "" then
      if mode.InQuoted? then None else Some(records + [record + [field]])
    else if mode.InQuoted? then
      if s[0] == '"' then ParseFrom(s[1..], AfterQuote, field, record, records)
      else ParseFrom(s[1..], InQuoted, field + [s[0]], record, records)
    else if s[0] == '"' then
      if mode.AtStart? then ParseFrom(s[1..], InQuoted, field, record, records)
      else if mode.AfterQuote? then ParseFrom(s[1..], InQuoted, field + ['"'], record, records)
      else None
    else if s[0] == ',' then ParseFrom(s[1..], AtStart, "", record + [field], records)
    else if s[0] == '\r' && |s| > 1 && s[1] == '\n' then
      ParseFrom(s[2..], AtStart, "", [], records + [record + [field]])
    else if mode.AfterQuote? || s[0] == '\r' || s[0] == '\n' then None
    else ParseFrom(s[1..], InBare, field + [s[0]], record, records)
  }

  function ParseCsv(s: string): Option<seq<seq<string>>> { ParseFrom(s, AtStart, "", [], []) }

  // ---- round trip ----

  lemma {:induction false} ParseBare(f: string, rest: string, mode: Mode, field: string, record: seq<string>,
      records: seq<seq<string>>)
    requires !NeedsQuotes(f) && (mode.InBare? || mode.AtStart?)
    ensures ParseFrom(f + rest, mode, field, record, records)
         == ParseFrom(rest, if f == "" then mode else InBare, field + f, record, records)
  {
    if f == "" {
      assert f + rest == rest && field + f == field;
    } else {
      assert (f + rest)[0] == f[0] && (f + rest)[1..] == f[1..] + rest;
      assert !Special(f[0]);
      assert forall i :: 0 <= i < |f[1..]| ==> f[1..][i] == f[i + 1];
      ParseBare(f[1..], rest, InBare, field + [f[0]], record, records);
      assert field + [f[0]] + f[1..] == field + f;
    }
  }

  lemma {:induction false} ParseQuoted(f: string, rest: string, field: string, record: seq<string>,
      records: seq<seq<string>>)
    ensures ParseFrom(Doubled(f) + "\"" + rest, InQuoted, field, record, records)
         == ParseFrom(rest, AfterQuote, field + f, record, records)
  {
    if f == "" {
      assert Doubled(f) + "\"" + rest == "\"" + rest && field + f == field;
    } else {
      var tail := Doubled(f[1..]) + "\"" + rest;
      ParseQuoted(f[1..], rest, field + [f[0]], record, records);
      assert field + [f[0]] + f[1..] == field + f;
      DoubledCons(f, rest);
      if f[0] == '"' {
        ParseDoubleQuote(tail, field, record, records);
      } else {
        assert ([f[0]] + tail)[1..] == tail;
      }
    }
  }

  lemma {:induction false} DoubledCons(f: string, rest: string)
    requires f != ""
    ensures Doubled(f) + "\"" + rest
      == (if f[0] == '"' then "\"" + ("\"" + (Doubled(f[1..]) + "\"" + rest))
        else [f[0]] + (Doubled(f[1..]) + "\"" + rest))
  {}

  /** Inside quotes, a doubled quote reads as one quote of content. */
  lemma {:induction false} ParseDoubleQuote(tail: string, field: string, record: seq<string>, records: seq<seq<string>>)
    ensures ParseFrom("\"" + ("\"" + tail), InQuoted, field, record, records)
      == ParseFrom(tail, InQuoted, field + ['"'], record, records)
  {
    assert ("\"" + ("\"" + tail))[1..] == "\"" + tail && ("\"" + tail)[1..] == tail;
  }

  /** A quote at the start of a field opens it. */
  lemma {:induction false} ParseOpened(f: string, rest: string, record: seq<string>, records: seq<seq<string>>)
    ensures ParseFrom("\"" + (Doubled(f) + "\"" + rest), AtStart, "", record, records)
         == ParseFrom(rest, AfterQuote, f, record, records)
  {
    var body := Doubled(f) + "\"" + rest;
    assert ("\"" + body)[1..] == body;
    ParseQuoted(f, rest, "", record, records);
    assert "" + f == f;
  }

  /** After an escaped field the parser stands where its content was read, ready for a
      separator or the end. */
  lemma {:induction false} ParseField(f: string, rest: string, record: seq<string>, records: seq<seq<string>>)
    returns (mode: Mode)
    ensures ParseFrom(EscapeField(f) + rest, AtStart, "", record, records) == ParseFrom(rest, mode, f, record, records)
    ensures !mode.InQuoted?
  {
    if NeedsQuotes(f) {
      assert EscapeField(f) + rest == "\"" + (Doubled(f) + "\"" + rest);
      ParseOpened(f, rest, record, records);
      mode := AfterQuote;
    } else {
      ParseBare(f, rest, AtStart, "", record, records);
      assert "" + f == f;
      mode := if f == "" then AtStart else InBare;
    }
  }

  lemma {:induction false} LineCons(fields: seq<string>, rest: string)
    requires |fields| > 1
    ensures Line(fields) + rest == EscapeField(fields[0]) + ("," + (Line(fields[1..]) + rest))
  {
    assert Escaped(fields)[1..] == Escaped(fields[1..]);
  }

  lemma {:induction false} LineOne(f: string)
    ensures Line([f]) == EscapeField(f)
  {
    assert Escaped([f]) == [EscapeField(f)];
  }

  /** A comma, or a line break, ends the field being read. */
  lemma {:induction false} AtComma(more: string, mode: Mode, f: string, record: seq<string>, records: seq<seq<string>>)
    requires !mode.InQuoted?
    ensures ParseFrom("," + more, mode, f, record, records) == ParseFrom(more, AtStart, "", record + [f], records)
  {
    assert ("," + more)[1..] == more;
  }

  lemma {:induction false} AtEnd(rest: string, mode: Mode, f: string, record: seq<string>, records: seq<seq<string>>)
    requires !mode.InQuoted? && (rest == "" || (|rest| >= 2 && rest[..2] == "\r\n"))
    ensures ParseFrom(rest, mode, f, record, records)
         == if rest == "" then Some(records + [record + [f]])
           else ParseFrom(rest[2..], AtStart, "", [], records + [record + [f]])
  {
    if rest != "" {
      assert rest[0] == rest[..2][0] == '\r' && rest[1] == rest[..2][1] == '\n';
    }
  }

  /** A record's line, followed by nothing or by CRLF. */
  lemma {:induction false} ParseLine(fields: seq<string>, rest: string, record: seq<string>, records: seq<seq<string>>)
    requires fields != [] && (rest == "" || (|rest| >= 2 && rest[..2] == "\r\n"))
    ensures ParseFrom(Line(fields) + rest, AtStart, "", record, records)
         == if rest == "" then Some(records + [record + fields])
            else ParseFrom(rest[2..], AtStart, "", [], records + [record + fields])
  {
    var f := fields[0];
    if |fields| == 1 {
      LineOne(f);
      assert fields == [f];
      var mode := ParseField(f, rest, record, records);
      AtEnd(rest, mode, f, record, records);
    } else {
      var more := Line(fields[1..]) + rest;
      LineCons(fields, rest);
      var mode := ParseField(f, "," + more, record, records);
      AtComma(more, mode, f, record, records);
      ParseLine(fields[1..], rest, record + [f], records);
      assert record + [f] + fields[1..] == record + fields;
    }
  }

  lemma {:induction false} CsvTextCons(rs: seq<seq<string>>)
    requires |rs| > 1
    ensures CsvText(rs) == Line(rs[0]) + ("\r\n" + CsvText(rs[1..]))
  {
    assert Lines(rs)[1..] == Lines(rs[1..]);
  }

  lemma {:induction false} AfterBreak(text: string)
    ensures ("\r\n" + text)[..2] == "\r\n" && ("\r\n" + text)[2..] == text
  {}

  lemma {:induction false} ParseLines(rs: seq<seq<string>>, records: seq<seq<string>>)
    requires rs != [] && forall i :: 0 <= i < |rs| ==> rs[i] != []
    ensures ParseFrom(CsvText(rs), AtStart, "", [], records) == Some(records + rs)
  {
    assert [] + rs[0] == rs[0];
    if |rs| == 1 {
      assert CsvText(rs) == Line(rs[0]) + "";
      ParseLine(rs[0], "", [], records);
      assert records + [rs[0]] == records + rs;
    } else {
      var rest := "\r\n" + CsvText(rs[1..]);
      CsvTextCons(rs);
      AfterBreak(CsvText(rs[1..]));
      ParseLine(rs[0], rest, [], records);
      ParseLines(rs[1..], records + [rs[0]]);
      assert records + [rs[0]] + rs[1..] == records + rs;
    }
  }

  /** What the parser reads back never has an empty record. */
  lemma {:induction false} ParsedRecordsNonEmpty(s: string, mode: Mode, field: string, record: seq<string>,
      records: seq<seq<string>>)
    requires forall i :: 0 <= i < |records| ==> records[i] != []
    ensures var p := ParseFrom(s, mode, field, record, records);
      p.Some? ==> |p.value| > 0 && forall i :: 0 <= i < |p.value| ==> p.value[i] != []
    decreases |s|
  {
    if s != "" {
      var p := ParseFrom(s, mode, field, record, records);
      if mode.InQuoted? {
        if s[0] == '"' { ParsedRecordsNonEmpty(s[1..], AfterQuote, field, record, records); }
        else { ParsedRecordsNonEmpty(s[1..], InQuoted, field + [s[0]], record, records); }
      } else if s[0] == '"' {
        ParsedRecordsNonEmpty(s[1..], InQuoted, field, record, records);
        ParsedRecordsNonEmpty(s[1..], InQuoted, field + ['"'], record, records);
      } else if s[0] == ',' {
        ParsedRecordsNonEmpty(s[1..], AtStart, "", record + [field], records);
      } else if s[0] == '\r' && |s| > 1 && s[1] == '\n' {
        ParsedRecordsNonEmpty(s[2..], AtStart, "", [], records + [record + [field]]);
      } else if !(mode.AfterQuote? || s[0] == '\r' || s[0] == '\n') {
        ParsedRecordsNonEmpty(s[1..], InBare, field + [s[0]], record, records);
      }
    }
  }

  /** A row's cells, as texts: null and undefined are empty, an object is its JSON, anything else its own text. */
  ghost predicate CellsRead(row: seq<Cell>, texts: seq<string>) {
    |texts| == |row| && forall j :: 0 <= j < |row| ==>
      && (row[j] == Null || row[j] == Undefined ==> texts[j] == "")
      && (row[j].Obj? ==> texts[j] == row[j].json) && (row[j].Prim? ==> texts[j] == row[j].text)
  }

  /** The records of an export are its header and its rows' cells. */
  lemma {:induction false} RecordsAre(columns: seq<string>, rows: seq<seq<Cell>>)
    ensures |Records(columns, rows)| == |rows| + 1 && Records(columns, rows)[0] == columns
    ensures forall i :: 0 <= i < |rows| ==> CellsRead(rows[i], Records(columns, rows)[i + 1])
  {}

  /** Only fields that hold a quote, a comma or a line break character are changed. */
  lemma {:induction false} EscapedOnlyIfNeeded(field: string)
    ensures EscapeField(field) == field
      <==> forall i :: 0 <= i < |field| ==>
             field[i] != '"' && field[i] != ',' && field[i] != '\r' && field[i] != '\n'
  {
    DoubledGrows(field);
  }

  lemma {:induction false} DoubledGrows(field: string)
    ensures |Doubled(field)| >= |field|
  {
    if field != "" {
      DoubledGrows(field[1..]);
    }
  }

  /** Export then parse gives back exactly the header and every row's cell texts, if and only
      if the header and every row have at least one field. */
  lemma {:induction false} ExportRoundTrips(columns: seq<string>, rows: seq<seq<Cell>>)
    ensures ParseCsv(CsvText(Records(columns, rows))) == Some(Records(columns, rows))
      <==> columns != [] && forall i :: 0 <= i < |rows| ==> rows[i] != []
  {
    var rs := Records(columns, rows);
    assert rs[0] == columns && forall i :: 0 <= i < |rows| ==> rs[i + 1] == RowTexts(rows[i]);
    if columns != [] && forall i :: 0 <= i < |rows| ==> rows[i] != [] {
      forall i | 0 <= i < |rs| ensures rs[i] != [] {
        if i > 0 { assert |rs[i]| == |rows[i - 1]|; }
      }
      ParseLines(rs, []);
      assert [] + rs == rs;
    } else {
      ParsedRecordsNonEmpty(CsvText(rs), AtStart, "", [], []);
      if columns != [] {
        var i :| 0 <= i < |rows| && rows[i] == [];
        assert |rs[i + 1]| == 0;
      }
    }
  }

  /** So two exports with the same text hold the same cell texts. */
  lemma {:induction false} ExportInjective(columns: seq<string>, rows: seq<seq<Cell>>, columns': seq<string>,
      rows': seq<seq<Cell>>)
    requires columns != [] && forall i :: 0 <= i < |rows| ==> rows[i] != []
    requires columns' != [] && forall i :: 0 <= i < |rows'| ==> rows'[i] != []
    requires CsvText(Records(columns, rows)) == CsvText(Records(columns', rows'))
    ensures columns == columns' && |rows| == |rows'|
    ensures forall i :: 0 <= i < |rows| ==> RowTexts(rows[i]) == RowTexts(rows'[i])
  {
    ExportRoundTrips(columns, rows);
    ExportRoundTrips(columns', rows');
    assert Records(columns, rows) == Records(columns', rows');
    assert Records(columns, rows)[0] == Records(columns', rows')[0];
    forall i | 0 <= i < |rows| ensures i < |rows'| && RowTexts(rows[i]) == RowTexts(rows'[i]) {
      assert Records(columns, rows)[i + 1] == Records(columns', rows')[i + 1];
    }
  }
}
