/**
 The CSV export of the audit log: app/api/routes/audit.py, read back by the rules of section 2
 of RFC 4180 with a line feed as the end of a row.
 */
module Csv {
  import opened Records

  // ---------------------------------------------------------------------------- the writer

  /** A cell must never run as a formula. */
  predicate Formula(text: string) {
    text != "" && text[0] in {'=', '+', '-', '@', '\t', '\r'}
  }

  function Neutral(value: Option<string>): (text: string)
    ensures !Formula(text)
    ensures value.None? ==> text == ""
    ensures value.Some? ==> text == value.value || (Formula(value.value) && text == "'" + value.value)
  {
    if value.None? then "" else if Formula(value.value) then "'" + value.value else value.value
  }

  function Doubled(text: string): string {
    if text == "" then "" else (if text[0] == '"' then "\"\"" else [text[0]]) + Doubled(text[1..])
  }

  function Cell(value: Option<string>): string {
    "\"" + Doubled(Neutral(value)) + "\""
  }

  function Join(cells: seq<string>): string
    requires cells != []
  {
    if |cells| == 1 then cells[0] else cells[0] + "," + Join(cells[1..])
  }

  function Cells(values: seq<Option<string>>): seq<string> {
    seq(|values|, i requires 0 <= i < |values| => Cell(values[i]))
  }

  function Texts(values: seq<Option<string>>): seq<string> {
    seq(|values|, i requires 0 <= i < |values| => Neutral(values[i]))
  }

  function Line(values: seq<Option<string>>): string
    requires values != []
  {
    Join(Cells(values)) + "\n"
  }

  const COLUMNS: seq<string> :=
    ["id", "timestamp", "username", "action", "source_queue", "target_queue", "target_exchange", "result", "error"]

  /** The loop of `csv_stream`: the header, then a line for every event. */
  method Export(events: seq<seq<Option<string>>>) returns (document: string)
    requires forall e | e in events :: |e| == |COLUMNS|
    ensures document == Join(COLUMNS) + "\n" + Lines(events)
  {
    hide Join, Line;
    document := Join(COLUMNS) + "\n";
    for i := 0 to |events|
      invariant document == Join(COLUMNS) + "\n" + Lines(events[..i])
    {
      assert Front(events[..i + 1]) == events[..i];
      Appended(Join(COLUMNS) + "\n", Lines(events[..i]), Line(events[i]));
      document := document + Line(events[i]);
    }
    assert events[..|events|] == events;
  }

  function Lines(events: seq<seq<Option<string>>>): string
    requires forall e | e in events :: |e| == |COLUMNS|
  {
    if events == [] then "" else
      assert events == Front(events) + [Last(events)];
      Lines(Front(events)) + Line(Last(events))
  }

  lemma Appended(a: string, b: string, c: string)
    ensures a + b + c == a + (b + c)
  {
  }

  // ---------------------------------------------------------------------------- the reader

  datatype Mode = AtField | Plain | Quoted | QuoteSeen | Bad

  datatype Reader = Reader(mode: Mode, field: string, row: seq<string>, rows: seq<seq<string>>)
  {
    function EndField(): Reader { Reader(AtField, "", row + [field], rows) }

    function EndRow(): Reader { Reader(AtField, "", [], rows + [row + [field]]) }

    function Take(mode: Mode, c: char): Reader { this.(mode := mode, field := field + [c]) }
  }

  function Read(r: Reader, c: char): Reader {
    match r.mode
    case AtField =>
      if c == '"' then r.(mode := Quoted)
      else if c == ',' then r.EndField()
      else if c == '\n' then r.EndRow()
      else if c == '\r' then r.(mode := Bad)
      else r.Take(Plain, c)
    case Plain =>
      if c == ',' then r.EndField()
      else if c == '\n' then r.EndRow()
      else if c == '"' || c == '\r' then r.(mode := Bad)
      else r.Take(Plain, c)
    case Quoted => if c == '"' then r.(mode := QuoteSeen) else r.Take(Quoted, c)
    case QuoteSeen =>
      if c == '"' then r.Take(Quoted, c)
      else if c == ',' then r.EndField()
      else if c == '\n' then r.EndRow()
      else r.(mode := Bad)
    case Bad => r
  }

  function ReadAll(r: Reader, s: string): Reader
    decreases |s|
  {
    if s == "" then r else ReadAll(Read(r, s[0]), s[1..])
  }

  const BLANK := Reader(AtField, "", [], [])

  /** The rows of a document; the last one may lack its line feed. */
  function Parse(s: string): Option<seq<seq<string>>> {
    var r := ReadAll(BLANK, s);
    if r.mode.Bad? || r.mode.Quoted? then None
    else if r.mode.AtField? && r.row == [] then Some(r.rows)
    else Some(r.EndRow().rows)
  }

  // ------------------------------------------------------------------------ the round trip

  lemma {:induction false} ReadConcat(r: Reader, a: string, b: string)
    ensures ReadAll(r, a + b) == ReadAll(ReadAll(r, a), b)
    decreases |a|
  {
    if a == "" {
      assert a + b == b;
    } else {
      assert (a + b)[0] == a[0] && (a + b)[1..] == a[1..] + b;
      ReadConcat(Read(r, a[0]), a[1..], b);
    }
  }

  lemma {:induction false} ReadDoubled(r: Reader, text: string)
    requires r.mode.Quoted?
    ensures ReadAll(r, Doubled(text)) == r.(field := r.field + text)
    decreases |text|
  {
    if text == "" {
      assert r.field + text == r.field;
    } else {
      var c, rest := text[0], text[1..];
      var first := if c == '"' then "\"\"" else [c];
      ReadConcat(r, first, Doubled(rest));
      if c == '"' {
        assert first == ['"'] + ['"'];
        ReadConcat(r, ['"'], ['"']);
        ReadOne(r, '"');
        ReadOne(r.(mode := QuoteSeen), '"');
      } else {
        ReadOne(r, c);
      }
      assert ReadAll(r, first) == r.(field := r.field + [c]);
      ReadDoubled(r.(field := r.field + [c]), rest);
      assert r.field + [c] + rest == r.field + text by {
        assert text == [c] + rest;
      }
    }
  }

  lemma ReadOne(r: Reader, c: char)
    ensures ReadAll(r, [c]) == Read(r, c)
  {
    assert [c][1..] == "";
  }

  /** What ends a field, and a row. */
  lemma ReadEnds(r: Reader)
    requires r.mode.Plain? || r.mode.QuoteSeen?
    ensures ReadAll(r, ",") == r.EndField() && ReadAll(r, "\n") == r.EndRow()
  {
    ReadOne(r, ',');
    ReadOne(r, '\n');
  }

  /** A field that was read to its end, and what follows it. */
  lemma ReadOn(r: Reader, first: string, seen: Reader, rest: string)
    requires ReadAll(r, first) == seen && (seen.mode.Plain? || seen.mode.QuoteSeen?)
    ensures ReadAll(r, first + "\n") == seen.EndRow()
    ensures ReadAll(r, first + ("," + rest)) == ReadAll(seen.EndField(), rest)
  {
    hide ReadAll, Read;
    ReadEnds(seen);
    ReadConcat(r, first, "\n");
    ReadConcat(r, first, "," + rest);
    ReadConcat(seen, ",", rest);
  }

  lemma Joined(cells: seq<string>)
    requires cells != []
    ensures |cells| == 1 ==> Join(cells) == cells[0]
    ensures |cells| > 1 ==> Join(cells) + "\n" == cells[0] + ("," + (Join(cells[1..]) + "\n"))
  {
    if |cells| > 1 {
      Regrouped(cells[0], ",", Join(cells[1..]), "\n");
    }
  }

  lemma Regrouped(a: string, b: string, c: string, d: string)
    ensures a + b + c + d == a + (b + (c + d))
  {
  }

  lemma ReadCell(r: Reader, value: Option<string>)
    requires r.mode.AtField? && r.field == ""
    ensures ReadAll(r, Cell(value)) == r.(mode := QuoteSeen, field := Neutral(value))
  {
    var doubled := Doubled(Neutral(value));
    assert Cell(value) == ['"'] + (doubled + ['"']);
    ReadConcat(r, ['"'], doubled + ['"']);
    ReadOne(r, '"');
    var quoted := r.(mode := Quoted);
    ReadConcat(quoted, doubled, ['"']);
    ReadDoubled(quoted, Neutral(value));
    assert "" + Neutral(value) == Neutral(value);
    ReadOne(quoted.(field := Neutral(value)), '"');
  }

  /** A line of cells reads as one row with as many fields. */
  lemma {:induction false} ReadLine(r: Reader, values: seq<Option<string>>)
    requires values != [] && r.mode.AtField? && r.field == ""
    ensures ReadAll(r, Line(values)) == Reader(AtField, "", [], r.rows + [r.row + Texts(values)])
    decreases |values|
  {
    hide ReadAll, Read, Join;
    var cells := Cells(values);
    var seen := r.(mode := QuoteSeen, field := Neutral(values[0]));
    ReadCell(r, values[0]);
    Joined(cells);
    if |values| == 1 {
      ReadOn(r, cells[0], seen, "");
      assert Texts(values) == [Neutral(values[0])];
    } else {
      assert cells[1..] == Cells(values[1..]);
      ReadOn(r, cells[0], seen, Join(cells[1..]) + "\n");
      ReadLine(seen.EndField(), values[1..]);
      OneMoreText(r.row, values);
    }
  }

  lemma OneMoreText(row: seq<string>, values: seq<Option<string>>)
    requires values != []
    ensures row + [Neutral(values[0])] + Texts(values[1..]) == row + Texts(values)
  {
    assert Texts(values) == [Neutral(values[0])] + Texts(values[1..]);
  }

  predicate PlainText(s: string) { s != "" && forall c | c in s :: c !in {',', '"', '\n', '\r'} }

  lemma {:induction false} ReadPlain(r: Reader, s: string)
    requires PlainText(s) && (r.mode.Plain? || r.mode.AtField?)
    ensures ReadAll(r, s) == r.(mode := Plain, field := r.field + s)
    decreases |s|
  {
    assert s[0] in s && s == [s[0]] + s[1..] && forall c | c in s[1..] :: c in s;
    if |s| == 1 {
      ReadOne(r, s[0]);
    } else {
      assert Read(r, s[0]) == r.Take(Plain, s[0]);
      ReadPlain(r.Take(Plain, s[0]), s[1..]);
      assert r.field + [s[0]] + s[1..] == r.field + s;
    }
  }

  lemma {:induction false} ReadHeader(r: Reader, names: seq<string>)
    requires names != [] && r.mode.AtField? && r.field == "" && forall name | name in names :: PlainText(name)
    ensures ReadAll(r, Join(names) + "\n") == Reader(AtField, "", [], r.rows + [r.row + names])
    decreases |names|
  {
    hide ReadAll, Read, Join;
    var seen := r.(mode := Plain, field := names[0]);
    assert names[0] in names && "" + names[0] == names[0];
    ReadPlain(r, names[0]);
    hide PlainText;
    Joined(names);
    if |names| == 1 {
      ReadOn(r, names[0], seen, "");
      assert names == [names[0]];
    } else {
      assert forall name | name in names[1..] :: name in names;
      ReadOn(r, names[0], seen, Join(names[1..]) + "\n");
      ReadHeader(seen.EndField(), names[1..]);
      assert r.row + [names[0]] + names[1..] == r.row + names;
    }
  }

  function Rows(events: seq<seq<Option<string>>>): seq<seq<string>> {
    seq(|events|, i requires 0 <= i < |events| => Texts(events[i]))
  }

  lemma RowsSnoc(rows: seq<seq<string>>, events: seq<seq<Option<string>>>)
    requires events != []
    ensures rows + Rows(Front(events)) + [Texts(Last(events))] == rows + Rows(events)
  {
  }

  lemma {:induction false} ReadLines(r: Reader, events: seq<seq<Option<string>>>)
    requires r.mode.AtField? && r.field == "" && r.row == [] && forall e | e in events :: |e| == |COLUMNS|
    ensures ReadAll(r, Lines(events)) == r.(rows := r.rows + Rows(events))
  {
    hide Line, Read, Texts;
    if events == [] {
      assert r.rows + Rows(events) == r.rows;
    } else {
      hide ReadAll, Rows;
      var front, event := Front(events), Last(events);
      assert events == front + [event];
      ReadLines(r, front);
      ReadConcat(r, Lines(front), Line(event));
      ReadLine(r.(rows := r.rows + Rows(front)), event);
      assert [] + Texts(event) == Texts(event);
      RowsSnoc(r.rows, events);
    }
  }

  lemma ColumnsArePlain()
    ensures forall name | name in COLUMNS :: PlainText(name)
  {
  }

  /** The whole export reads back as its header and every event's texts, field for field, whatever they hold. */
  lemma ExportRoundTrips(events: seq<seq<Option<string>>>)
    requires forall e | e in events :: |e| == |COLUMNS|
    ensures Parse(Join(COLUMNS) + "\n" + Lines(events)) == Some([COLUMNS] + Rows(events))
  {
    var header := Join(COLUMNS) + "\n";
    ColumnsArePlain();
    ReadConcat(BLANK, header, Lines(events));
    ReadHeader(BLANK, COLUMNS);
    assert [] + COLUMNS == COLUMNS && [] + [COLUMNS] == [COLUMNS];
    ReadLines(Reader(AtField, "", [], [COLUMNS]), events);
  }
}
