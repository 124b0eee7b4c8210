// clients/cli/src/remote.js: reading the CSV export of another instance. A line parser with one flag,
// against the printers of section 2 of RFC 4180.
module CsvLine {
  import opened Options
  import opened Seqs

  // ---- parseCsvLine ---------------------------------------------------------------------------------------

  // The fields of the text that is left, `cur` being what the current field has so far.
  function Scan(s: string, cur: string, inQuotes: bool): (fields: seq<string>)
    ensures fields != []
    decreases |s|
  {
    if s == [] then [cur]
    else if inQuotes then
      if s[0] != '"' then Scan(s[1..], cur + [s[0]], true)
      else if |s| > 1 && s[1] == '"' then Scan(s[2..], cur + ['"'], true)
      else Scan(s[1..], cur, false)
    else if s[0] == '"' then Scan(s[1..], cur, true)
    else if s[0] == ',' then [cur] + Scan(s[1..], "", false)
    else Scan(s[1..], cur + [s[0]], false)
  }

  function Parsed(line: string): seq<string> {
    Scan(line, "", false)
  }

  method ParseCsvLine(line: string) returns (fields: seq<string>)
    ensures fields == Parsed(line)
  {
    fields := [];
    var cur, inQuotes, i := "", false, 0;
    while i < |line|
      invariant 0 <= i <= |line|
      invariant fields + Scan(line[i..], cur, inQuotes) == Parsed(line)
    {
      var c := line[i];
      assert line[i..][1..] == line[i + 1..];
      if inQuotes {
        if c == '"' {
          if i + 1 < |line| && line[i + 1] == '"' {
            assert line[i..][2..] == line[i + 2..];
            cur := cur + ['"'];
            i := i + 1;
          } else {
            inQuotes := false;
          }
        } else {
          cur := cur + [c];
        }
      } else if c == '"' {
        inQuotes := true;
      } else if c == ',' {
        Associative(fields, [cur], Scan(line[i + 1..], "", false));
        fields := fields + [cur];
        cur := "";
      } else {
        cur := cur + [c];
      }
      i := i + 1;
    }
    fields := fields + [cur];
  }

  // ---- The printers ------------------------------------------------------------------------------------------

  function Escape(field: string): string {
    if field == [] then "" else (if field[0] == '"' then "\"\"" else [field[0]]) + Escape(field[1..])
  }

  // A field that means the same without quotes around it.
  predicate Plain(field: string) {
    '"' !in field && ',' !in field
  }

  // Each field between quotes with its own quotes doubled, or as it is.
  function PrintField(field: string, quoted: bool): string {
    if quoted then "\"" + Escape(field) + "\"" else field
  }

  function Print(fields: seq<string>, quoted: seq<bool>): string
    requires fields != [] && |quoted| == |fields|
  {
    if |fields| == 1 then PrintField(fields[0], quoted[0])
    else PrintField(fields[0], quoted[0]) + ("," + Print(fields[1..], quoted[1..]))
  }

  // A field may go without quotes only where it needs none.
  ghost predicate Quotes(fields: seq<string>, quoted: seq<bool>) {
    |quoted| == |fields| && forall i :: 0 <= i < |fields| ==> quoted[i] || Plain(fields[i])
  }

  lemma {:induction false} ScanPlain(field: string, rest: string, cur: string)
    requires Plain(field)
    ensures Scan(field + rest, cur, false) == Scan(rest, cur + field, false)
    decreases |field|
  {
    if field == [] {
      assert field + rest == rest && cur + field == cur;
    } else {
      assert (field + rest)[1..] == field[1..] + rest;
      assert field[0] in field;
      ScanPlain(field[1..], rest, cur + [field[0]]);
      assert cur + [field[0]] + field[1..] == cur + field;
    }
  }

  lemma {:induction false} ScanEscaped(field: string, rest: string, cur: string)
    requires rest == [] || rest[0] != '"'
    ensures Scan(Escape(field) + ("\"" + rest), cur, true) == Scan(rest, cur + field, false)
    decreases |field|
  {
    var tail := "\"" + rest;
    if field == [] {
      assert Escape(field) + tail == tail && tail[1..] == rest && cur + field == cur;
    } else {
      var head := if field[0] == '"' then "\"\"" else [field[0]];
      assert Escape(field) + tail == head + (Escape(field[1..]) + tail);
      assert (head + (Escape(field[1..]) + tail))[|head|..] == Escape(field[1..]) + tail;
      ScanEscaped(field[1..], rest, cur + [field[0]]);
      assert cur + [field[0]] + field[1..] == cur + field;
    }
  }

  // A quoted field that is never closed runs to the end of the line, commas included.
  lemma {:induction false} OpenFieldRunsOut(field: string, cur: string)
    ensures Scan(Escape(field), cur, true) == [cur + field]
    decreases |field|
  {
    if field == [] {
      assert cur + field == cur;
    } else {
      var head := if field[0] == '"' then "\"\"" else [field[0]];
      assert Escape(field) == head + Escape(field[1..]);
      assert (head + Escape(field[1..]))[|head|..] == Escape(field[1..]);
      OpenFieldRunsOut(field[1..], cur + [field[0]]);
      assert cur + [field[0]] + field[1..] == cur + field;
    }
  }

  lemma ScanField(field: string, quoted: bool, rest: string)
    requires quoted || Plain(field)
    requires rest == [] || rest[0] != '"'
    ensures Scan(PrintField(field, quoted) + rest, "", false) == Scan(rest, field, false)
  {
    if quoted {
      var all := PrintField(field, quoted) + rest;
      assert all == "\"" + (Escape(field) + ("\"" + rest));
      assert all[1..] == Escape(field) + ("\"" + rest);
      ScanEscaped(field, rest, "");
      assert "" + field == field;
    } else {
      ScanPlain(field, rest, "");
      assert "" + field == field;
    }
  }

  // The parser inverts every way of quoting the fields, whichever of them go without quotes.
  lemma {:induction false} ParseInvertsPrint(fields: seq<string>, quoted: seq<bool>)
    requires fields != [] && Quotes(fields, quoted)
    ensures Parsed(Print(fields, quoted)) == fields
  {
    if |fields| == 1 {
      assert PrintField(fields[0], quoted[0]) + "" == PrintField(fields[0], quoted[0]);
      ScanField(fields[0], quoted[0], "");
    } else {
      var rest := "," + Print(fields[1..], quoted[1..]);
      ScanField(fields[0], quoted[0], rest);
      assert rest[1..] == Print(fields[1..], quoted[1..]);
      ParseInvertsPrint(fields[1..], quoted[1..]);
      assert fields == [fields[0]] + fields[1..];
    }
  }

  function Always(fields: seq<string>): (q: seq<bool>)
    ensures |q| == |fields| && forall i :: 0 <= i < |q| ==> q[i]
  {
    if fields == [] then [] else [true] + Always(fields[1..])
  }

  function WhenNeeded(fields: seq<string>): (q: seq<bool>)
    ensures |q| == |fields| && forall i :: 0 <= i < |q| ==> q[i] == !Plain(fields[i])
  {
    if fields == [] then [] else [!Plain(fields[0])] + WhenNeeded(fields[1..])
  }

  // Both customary printers, on every non-empty list of fields.
  lemma ParseInvertsBothPrinters(fields: seq<string>)
    requires fields != []
    ensures Parsed(Print(fields, Always(fields))) == fields
    ensures Parsed(Print(fields, WhenNeeded(fields))) == fields
  {
    ParseInvertsPrint(fields, Always(fields));
    ParseInvertsPrint(fields, WhenNeeded(fields));
  }

  // ---- parseCsv ------------------------------------------------------------------------------------------------

  // text.split(/\r\n|\n/)
  function Lines(s: string, cur: string): (lines: seq<string>)
    ensures lines != []
    decreases |s|
  {
    if s == [] then [cur]
    else if s[0] == '\n' then [cur] + Lines(s[1..], "")
    else if s[0] == '\r' && |s| > 1 && s[1] == '\n' then [cur] + Lines(s[2..], "")
    else Lines(s[1..], cur + [s[0]])
  }

  // Lines put back together, each but the last with its break.
  function Rejoined(lines: seq<string>, breaks: seq<string>): string
    requires |lines| == |breaks| + 1
  {
    if breaks == [] then lines[0] else lines[0] + breaks[0] + Rejoined(lines[1..], breaks[1..])
  }

  ghost predicate EndsInReturn(s: string) {
    s != [] && s[|s| - 1] == '\r'
  }

  // The breaks are a line feed, or the return before it as well wherever there is one.
  ghost predicate Cut(lines: seq<string>, breaks: seq<string>) {
    && |lines| == |breaks| + 1
    && (forall k :: 0 <= k < |lines| ==> '\n' !in lines[k])
    && (forall k :: 0 <= k < |breaks| ==>
          breaks[k] == "\r\n" || (breaks[k] == "\n" && !EndsInReturn(lines[k])))
  }

  // Splitting loses nothing but the breaks, and splits at every line feed.
  lemma {:induction false} LinesRejoin(s: string, cur: string) returns (breaks: seq<string>)
    requires '\n' !in cur && (EndsInReturn(cur) && s != [] ==> s[0] != '\n')
    ensures Cut(Lines(s, cur), breaks) && Rejoined(Lines(s, cur), breaks) == cur + s
    decreases |s|
  {
    if s == [] {
      breaks := [];
    } else if s[0] == '\n' {
      var rest := LinesRejoin(s[1..], "");
      breaks := ["\n"] + rest;
      CutCons(cur, "\n", Lines(s[1..], ""), rest);
      assert cur + s == cur + "\n" + s[1..];
    } else if s[0] == '\r' && |s| > 1 && s[1] == '\n' {
      var rest := LinesRejoin(s[2..], "");
      breaks := ["\r\n"] + rest;
      CutCons(cur, "\r\n", Lines(s[2..], ""), rest);
      assert cur + s == cur + "\r\n" + s[2..];
    } else {
      breaks := LinesRejoin(s[1..], cur + [s[0]]);
      assert cur + [s[0]] + s[1..] == cur + s;
    }
  }

  lemma CutCons(line: string, b: string, lines: seq<string>, breaks: seq<string>)
    requires Cut(lines, breaks) && '\n' !in line && (b == "\r\n" || (b == "\n" && !EndsInReturn(line)))
    ensures Cut([line] + lines, [b] + breaks)
    ensures Rejoined([line] + lines, [b] + breaks) == line + b + Rejoined(lines, breaks)
  {
    assert ([line] + lines)[1..] == lines && ([b] + breaks)[1..] == breaks;
  }

  function NonEmpty(): string -> bool {
    (line: string) => line != ""
  }

  // What a header maps to: None for a value the line does not have; of equal headers the last counts.
  type Row = map<string, Option<string>>

  function RowOf(header: seq<string>, values: seq<string>): Row {
    if header == [] then map[]
    else
      var k := |header| - 1;
      RowOf(header[..k], values)[header[k] := if k < |values| then Some(values[k]) else None]
  }

  function RowsOf(header: seq<string>, lines: seq<string>): (rows: seq<Row>)
    ensures |rows| == |lines| && forall i :: 0 <= i < |rows| ==> rows[i] == RowOf(header, Parsed(lines[i]))
  {
    if lines == [] then [] else RowsOf(header, lines[..|lines| - 1]) + [RowOf(header, Parsed(lines[|lines| - 1]))]
  }

  function Table(text: string): seq<Row> {
    var lines := Filter(Lines(text, ""), NonEmpty());
    if lines == [] then [] else RowsOf(Parsed(lines[0]), lines[1..])
  }

  method ParseCsv(text: string) returns (rows: seq<Row>)
    ensures rows == Table(text)
  {
    hide Filter, Lines;
    var lines := Filter(Lines(text, ""), NonEmpty());
    rows := [];
    if lines == [] {
      return;
    }
    var header := ParseCsvLine(lines[0]);
    for k := 1 to |lines|
      invariant rows == RowsOf(header, lines[1..k])
    {
      var values := ParseCsvLine(lines[k]);
      assert lines[1..k + 1][..|lines[1..k + 1]| - 1] == lines[1..k];
      var row: Row := map[];
      for i := 0 to |header|
        invariant row == RowOf(header[..i], values)
      {
        assert header[..i + 1][..i] == header[..i];
        row := row[header[i] := if i < |values| then Some(values[i]) else None];
      }
      assert header[..|header|] == header;
      rows := rows + [row];
    }
    assert lines[1..|lines|] == lines[1..];
  }

  predicate OneLine(s: string) {
    '\n' !in s && '\r' !in s
  }

  lemma {:induction false} LinesPass(line: string, rest: string, cur: string)
    requires OneLine(line)
    ensures Lines(line + rest, cur) == Lines(rest, cur + line)
    decreases |line|
  {
    if line == [] {
      assert line + rest == rest && cur + line == cur;
    } else {
      assert (line + rest)[1..] == line[1..] + rest;
      assert line[0] in line;
      LinesPass(line[1..], rest, cur + [line[0]]);
      assert cur + [line[0]] + line[1..] == cur + line;
    }
  }

  // Lines ended by CR LF or by LF alone.
  function Text(lines: seq<string>, crlf: seq<bool>): string
    requires |crlf| == |lines|
  {
    if lines == [] then "" else lines[0] + ((if crlf[0] then "\r\n" else "\n") + Text(lines[1..], crlf[1..]))
  }

  lemma {:induction false} LinesInvertText(lines: seq<string>, crlf: seq<bool>)
    requires |crlf| == |lines| && forall line :: line in lines ==> OneLine(line)
    ensures Lines(Text(lines, crlf), "") == lines + [""]
    decreases |lines|
  {
    if lines != [] {
      var rest := Text(lines[1..], crlf[1..]);
      var end := if crlf[0] then "\r\n" else "\n";
      LinesPass(lines[0], end + rest, "");
      assert "" + lines[0] == lines[0];
      assert (end + rest)[|end|..] == rest;
      LinesInvertText(lines[1..], crlf[1..]);
      assert lines + [""] == [lines[0]] + (lines[1..] + [""]);
    }
  }

  lemma {:induction false} EscapeOneLine(field: string)
    requires OneLine(field)
    ensures OneLine(Escape(field))
  {
    if field != [] {
      EscapeOneLine(field[1..]);
      assert field[0] in field;
    }
  }

  lemma {:induction false} PrintOneLine(fields: seq<string>, quoted: seq<bool>)
    requires fields != [] && |quoted| == |fields| && forall f :: f in fields ==> OneLine(f)
    ensures OneLine(Print(fields, quoted))
    decreases |fields|
  {
    assert fields[0] in fields;
    EscapeOneLine(fields[0]);
    if |fields| > 1 {
      PrintOneLine(fields[1..], quoted[1..]);
    }
  }

  // A record of the export: its fields and which of them the printer put between quotes.
  datatype Record = Record(fields: seq<string>, quoted: seq<bool>)

  predicate Printable(r: Record) {
    r.fields != [] && |r.quoted| == |r.fields|
  }

  function Line(r: Record): string
    requires Printable(r)
  {
    Print(r.fields, r.quoted)
  }

  ghost predicate Good(r: Record) {
    Printable(r) && Quotes(r.fields, r.quoted) && forall f :: f in r.fields ==> OneLine(f)
  }

  function PrintAll(records: seq<Record>): (lines: seq<string>)
    requires forall k :: 0 <= k < |records| ==> Printable(records[k])
    ensures |lines| == |records| && forall i :: 0 <= i < |lines| ==> lines[i] == Line(records[i])
  {
    if records == [] then []
    else
      var k := |records| - 1;
      PrintAll(records[..k]) + [Line(records[k])]
  }

  // The one record that prints as an empty line.
  predicate Vanishes(r: Record) {
    r.fields == [""] && r.quoted == [false]
  }

  lemma PrintsNothingIff(r: Record)
    requires Good(r)
    ensures Print(r.fields, r.quoted) == "" <==> Vanishes(r)
  {
  }

  // The export read back, whatever ends its lines: the header, then one row per record with its values
  // under their headers.
  lemma TableInvertsExport(records: seq<Record>, crlf: seq<bool>, k: nat, i: nat)
    requires records != [] && |crlf| == |records|
    requires forall k :: 0 <= k < |records| ==> Printable(records[k]) && Good(records[k]) && !Vanishes(records[k])
    requires Distinct(records[0].fields)
    requires 0 < k < |records| && i < |records[0].fields| && |records[k].fields| == |records[0].fields|
    ensures var table := Table(Text(PrintAll(records), crlf));
      && |table| == |records| - 1
      && records[0].fields[i] in table[k - 1]
      && table[k - 1][records[0].fields[i]] == Some(records[k].fields[i])
  {
    hide Print, Lines, Filter, Text, Parsed, Good, Vanishes;
    var lines := PrintAll(records);
    AllPrinted(records);
    LinesInvertText(lines, crlf);
    KeepsAll(lines);
    Reads(records[0]);
    Reads(records[k]);
    ValueUnderHeader(records[0].fields, records[k].fields, i);
  }

  lemma Reads(r: Record)
    requires Good(r)
    ensures Parsed(Print(r.fields, r.quoted)) == r.fields
  {
    ParseInvertsPrint(r.fields, r.quoted);
  }

  lemma AllPrinted(records: seq<Record>)
    requires forall k :: 0 <= k < |records| ==> Printable(records[k]) && Good(records[k]) && !Vanishes(records[k])
    ensures forall line :: line in PrintAll(records) ==> OneLine(line) && NonEmpty()(line)
  {
    hide Print;
    var lines := PrintAll(records);
    forall k | 0 <= k < |lines| ensures OneLine(lines[k]) && lines[k] != "" {
      var r := records[k];
      PrintOneLine(r.fields, r.quoted);
      PrintsNothingIff(r);
    }
  }

  lemma KeepsAll(lines: seq<string>)
    requires forall line :: line in lines ==> NonEmpty()(line)
    ensures Filter(lines + [""], NonEmpty()) == lines
  {
    FilterEvery(lines, NonEmpty());
    FilterAppend(lines, [""], NonEmpty());
    FilterNone([""], NonEmpty());
  }

  lemma {:induction false} ValueUnderHeader(header: seq<string>, values: seq<string>, i: nat)
    requires Distinct(header) && i < |header| <= |values|
    ensures header[i] in RowOf(header, values) && RowOf(header, values)[header[i]] == Some(values[i])
    decreases |header|
  {
    if i < |header| - 1 {
      ValueUnderHeader(header[..|header| - 1], values, i);
    }
  }

  lemma {:induction false} FilterDrops(lines: seq<string>, k: nat)
    requires k < |lines| && !NonEmpty()(lines[k])
    ensures |Filter(lines, NonEmpty())| < |lines|
  {
    if k > 0 {
      FilterDrops(lines[1..], k - 1);
    }
  }

  lemma AllOneLine(records: seq<Record>)
    requires forall k :: 0 <= k < |records| ==> Printable(records[k]) && Good(records[k])
    ensures forall line :: line in PrintAll(records) ==> OneLine(line)
  {
    hide Print;
    var lines := PrintAll(records);
    forall k | 0 <= k < |lines| ensures OneLine(lines[k]) {
      PrintOneLine(records[k].fields, records[k].quoted);
    }
  }

  // An export of a header and at least one record reads back with one row per record exactly when none of
  // its lines prints as empty, which only a single empty field without quotes does.
  lemma OneRowPerRecordIff(records: seq<Record>, crlf: seq<bool>)
    requires |records| > 1 && |crlf| == |records|
    requires forall k :: 0 <= k < |records| ==> Printable(records[k]) && Good(records[k])
    ensures |Table(Text(PrintAll(records), crlf))| == |records| - 1 <==>
      forall k :: 0 <= k < |records| ==> !Vanishes(records[k])
  {
    hide Print, Lines, Filter, Text, Parsed, Good, Vanishes;
    var lines := PrintAll(records);
    AllOneLine(records);
    LinesInvertText(lines, crlf);
    if k :| 0 <= k < |records| && Vanishes(records[k]) {
      PrintsNothingIff(records[k]);
      FilterDrops(lines, k);
      FilterAppend(lines, [""], NonEmpty());
      FilterNone([""], NonEmpty());
    } else {
      AllPrinted(records);
      KeepsAll(lines);
    }
  }

  // A record of one empty field printed without quotes is read as no record at all.
  lemma VanishingRecordIsLost(header: string, after: seq<string>, crlf: seq<bool>)
    requires |crlf| == |after| + 2 && OneLine(header) && header != ""
    requires forall line :: line in after ==> OneLine(line) && line != ""
    ensures Print([""], [false]) == ""
    ensures |Table(Text([header, ""] + after, crlf))| == |after|
  {
    hide Filter, Lines, Text;
    var lines := [header, ""] + after;
    LinesInvertText(lines, crlf);
    FilterAppend([header, ""], after + [""], NonEmpty());
    assert lines + [""] == [header, ""] + (after + [""]);
    KeepsAll([header]);
    KeepsAll(after);
    assert [header] + [""] == [header, ""];
  }
}
