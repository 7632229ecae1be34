/** The CSV printer of the export, and the format it must obey: section 2 of RFC 4180. */
module CsvExport {
  import opened Prelude

  // ------------------------------------------------------------------ printer

  datatype Cell = Text(text: string) | Number(value: int) | Missing

  /** The columns of an exported prompt; a prompt without analysis has no score, and one
      without an improved version has none. */
  datatype Exported = Exported(
    id: string,
    project: string,
    platform: string,
    model: string,
    occurredAt: string,
    score: Option<int>,
    prompt: string,
    improved: Option<string>)

  const COLUMNS: seq<string> := ["id", "project", "platform", "model", "occurredAt", "score", "prompt", "improvedPrompt"]

  function Cells(item: Exported): seq<Cell> {
    [Text(item.id), Text(item.project), Text(item.platform), Text(item.model), Text(item.occurredAt),
     if item.score.Some? then Number(item.score.value) else Missing,
     Text(item.prompt),
     if item.improved.Some? then Text(item.improved.value) else Missing]
  }

  function Digits(n: nat): string {
    if n < 10 then [DigitChar(n)] else Digits(n / 10) + [DigitChar(n % 10)]
  }

  function DigitChar(d: nat): char
    requires d < 10
  {
    "0123456789"[d]
  }

  function Shown(cell: Cell): string {
    match cell
    case Text(text) => text
    case Number(value) => if value < 0 then "-" + Digits(-value) else Digits(value)
    case Missing => ""
  }

  /** A spreadsheet would take such a text for a formula. */
  predicate LooksLikeFormula(text: string) {
    text != [] && (text[0] == '=' || text[0] == '+' || text[0] == '-' || text[0] == '@')
  }

  function Neutral(cell: Cell): string {
    var text := Shown(cell);
    if LooksLikeFormula(text) then "'" + text else text
  }

  function DoubleQuotes(text: string): string {
    if text == [] then [] else (if text[0] == '"' then "\"\"" else [text[0]]) + DoubleQuotes(text[1..])
  }

  function Escape(cell: Cell): string {
    "\"" + DoubleQuotes(Neutral(cell)) + "\""
  }

  function Join(parts: seq<string>, separator: string): string {
    if parts == [] then []
    else if |parts| == 1 then parts[0]
    else parts[0] + separator + Join(parts[1..], separator)
  }

  function Escaped(cells: seq<Cell>): seq<string> {
    seq(|cells|, i requires 0 <= i < |cells| => Escape(cells[i]))
  }

  function PrintRow(item: Exported): string {
    Join(Escaped(Cells(item)), ",")
  }

  function Lines(items: seq<Exported>): seq<string> {
    [Join(COLUMNS, ",")] + seq(|items|, i requires 0 <= i < |items| => PrintRow(items[i]))
  }

  function Body(items: seq<Exported>): string {
    Join(Lines(items), "\r\n")
  }

  // ------------------------------------------------------------------- parser

  /** Where the reader stands: at the start of a field, inside a plain or a quoted one,
      after a quote inside a quoted one, or between the two characters of a line break. */
  datatype Mode = FieldStart | Plain | Quoted | QuoteSeen | CrSeen

  datatype Reader = Reader(mode: Mode, field: string, record: seq<string>, records: seq<seq<string>>)

  function EndField(r: Reader): Reader {
    Reader(FieldStart, [], r.record + [r.field], r.records)
  }

  function Read(r: Reader, c: char): Option<Reader> {
    match r.mode
    case FieldStart =>
      if c == '"' then Some(r.(mode := Quoted))
      else if c == ',' then Some(EndField(r))
      else if c == '\r' then Some(r.(mode := CrSeen))
      else if c == '\n' then None
      else Some(r.(mode := Plain, field := r.field + [c]))
    case Plain =>
      if c == ',' then Some(EndField(r))
      else if c == '\r' then Some(r.(mode := CrSeen))
      else if c == '\n' || c == '"' then None
      else Some(r.(field := r.field + [c]))
    case Quoted =>
      if c == '"' then Some(r.(mode := QuoteSeen)) else Some(r.(field := r.field + [c]))
    case QuoteSeen =>
      if c == '"' then Some(r.(mode := Quoted, field := r.field + [c]))
      else if c == ',' then Some(EndField(r))
      else if c == '\r' then Some(r.(mode := CrSeen))
      else None
    case CrSeen =>
      if c == '\n' then Some(Reader(FieldStart, [], [], r.records + [r.record + [r.field]])) else None
  }

  function ReadAll(r: Reader, text: string): Option<Reader>
    decreases text
  {
    if text == [] then Some(r)
    else match Read(r, text[0])
         case None => None
         case Some(next) => ReadAll(next, text[1..])
  }

  const Fresh := Reader(FieldStart, [], [], [])

  /** The records of a text; a line break at the very end does not begin another record. */
  function Parse(text: string): Option<seq<seq<string>>> {
    match ReadAll(Fresh, text)
    case None => None
    case Some(r) =>
      if r.mode == Quoted || r.mode == CrSeen then None
      else if r.mode == FieldStart && r.record == [] && r.records != [] then Some(r.records)
      else Some(r.records + [r.record + [r.field]])
  }

  // --------------------------------------------------------------- round trip

  lemma {:induction false} ReadConcat(r: Reader, a: string, b: string)
    ensures ReadAll(r, a + b) == (match ReadAll(r, a) case None => None case Some(next) => ReadAll(next, b))
    decreases a
  {
    if a == [] {
      assert a + b == b;
    } else {
      assert (a + b)[0] == a[0] && (a + b)[1..] == a[1..] + b;
      if Read(r, a[0]).Some? { ReadConcat(Read(r, a[0]).value, a[1..], b); }
    }
  }

  /** Inside quotes, doubled text is read as the text, whatever characters it has. */
  lemma {:induction false} ReadDoubled(r: Reader, text: string)
    requires r.mode == Quoted
    ensures ReadAll(r, DoubleQuotes(text)) == Some(r.(field := r.field + text))
    decreases text
  {
    if text == [] {
      assert r.field + text == r.field;
    } else {
      var head := if text[0] == '"' then "\"\"" else [text[0]];
      ReadConcat(r, head, DoubleQuotes(text[1..]));
      var next := r.(field := r.field + [text[0]]);
      assert ReadAll(r, head) == Some(next) by {
        assert head[1..] == if text[0] == '"' then "\"" else [];
        assert ReadAll(next, []) == Some(next);
      }
      ReadDoubled(next, text[1..]);
      assert r.field + [text[0]] + text[1..] == r.field + text;
    }
  }

  lemma ReadOne(r: Reader, c: char)
    ensures ReadAll(r, [c]) == Read(r, c)
  {
    assert [c][1..] == [];
  }

  lemma ReadEscaped(r: Reader, cell: Cell)
    requires r.mode == FieldStart && r.field == []
    ensures ReadAll(r, Escape(cell)) == Some(r.(mode := QuoteSeen, field := Neutral(cell)))
  {
    var text := DoubleQuotes(Neutral(cell));
    var open := r.(mode := Quoted);
    var read := open.(field := Neutral(cell));
    assert Escape(cell) == ['"'] + (text + ['"']);
    ReadConcat(r, ['"'], text + ['"']);
    ReadOne(r, '"');
    ReadConcat(open, text, ['"']);
    ReadDoubled(open, Neutral(cell));
    assert [] + Neutral(cell) == Neutral(cell);
    ReadOne(read, '"');
  }

  /** A plain field holds none of the four special characters. */
  predicate IsPlain(text: string) {
    forall c :: c in text ==> c != '"' && c != ',' && c != '\r' && c != '\n'
  }

  lemma {:induction false} ReadPlain(r: Reader, text: string)
    requires r.mode == Plain || (r.mode == FieldStart && text != [])
    requires IsPlain(text)
    ensures ReadAll(r, text) == Some(r.(mode := Plain, field := r.field + text))
    decreases text
  {
    if text == [] {
      assert r.field + text == r.field;
    } else {
      var next := r.(mode := Plain, field := r.field + [text[0]]);
      assert text[0] in text;
      assert forall c :: c in text[1..] ==> c in text;
      assert Read(r, text[0]) == Some(next);
      ReadPlain(next, text[1..]);
      assert r.field + [text[0]] + text[1..] == r.field + text;
    }
  }

  /** The printed form `parts[i]` of a field is read, from the start of a field, as
      `values[i]`, and ends in a mode in which the field may end. */
  ghost predicate ReadAs(part: string, value: string) {
    forall r: Reader :: r.mode == FieldStart && r.field == [] ==>
      exists mode :: (mode == Plain || mode == QuoteSeen) && ReadAll(r, part) == Some(r.(mode := mode, field := value))
  }

  ghost predicate AllReadAs(parts: seq<string>, values: seq<string>) {
    |parts| == |values| && forall i :: 0 <= i < |parts| ==> ReadAs(parts[i], values[i])
  }

  lemma ReadPart(r: Reader, part: string, value: string) returns (mode: Mode)
    requires r.mode == FieldStart && r.field == [] && ReadAs(part, value)
    ensures (mode == Plain || mode == QuoteSeen) && ReadAll(r, part) == Some(r.(mode := mode, field := value))
  {
    mode :| (mode == Plain || mode == QuoteSeen) && ReadAll(r, part) == Some(r.(mode := mode, field := value));
  }

  /** A field and the comma after it. */
  lemma ReadPartAndComma(r: Reader, part: string, value: string, rest: string)
    requires r.mode == FieldStart && r.field == [] && ReadAs(part, value)
    ensures ReadAll(r, part + "," + rest) == ReadAll(Reader(FieldStart, [], r.record + [value], r.records), rest)
  {
    var mode := ReadPart(r, part, value);
    var read := r.(mode := mode, field := value);
    assert part + "," + rest == part + ([','] + rest);
    ReadConcat(r, part, [','] + rest);
    ReadConcat(read, [','], rest);
    ReadOne(read, ',');
  }

  /** A record, up to its last field, which is still open. */
  lemma {:induction false} ReadRecord(r: Reader, parts: seq<string>, values: seq<string>) returns (mode: Mode)
    requires r.mode == FieldStart && r.field == [] && parts != [] && AllReadAs(parts, values)
    ensures mode == Plain || mode == QuoteSeen
    ensures ReadAll(r, Join(parts, ","))
            == Some(Reader(mode, values[|values| - 1], r.record + values[..|values| - 1], r.records))
    decreases parts
  {
    hide ReadAs, ReadAll;
    if |parts| == 1 {
      mode := ReadPart(r, parts[0], values[0]);
      assert r.record + values[..0] == r.record;
    } else {
      ReadPartAndComma(r, parts[0], values[0], Join(parts[1..], ","));
      mode := ReadRecord(Reader(FieldStart, [], r.record + [values[0]], r.records), parts[1..], values[1..]);
      assert r.record + [values[0]] + values[1..][..|values| - 2] == r.record + values[..|values| - 1];
    }
  }

  /** The lines of a body are read as records. */
  ghost predicate LinesReadAs(lines: seq<string>, records: seq<seq<string>>) {
    |lines| == |records| && forall i :: 0 <= i < |lines| ==> LineReadsAs(lines[i], records[i])
  }

  ghost predicate LineReadsAs(line: string, record: seq<string>) {
    exists parts :: parts != [] && line == Join(parts, ",") && AllReadAs(parts, record)
  }

  /** A line, up to its last field, which is still open. */
  lemma ReadLine(r: Reader, line: string, record: seq<string>) returns (read: Reader)
    requires r == Reader(FieldStart, [], [], r.records) && LineReadsAs(line, record)
    ensures ReadAll(r, line) == Some(read) && (read.mode == Plain || read.mode == QuoteSeen)
    ensures read.records == r.records && read.record + [read.field] == record
  {
    var parts :| parts != [] && line == Join(parts, ",") && AllReadAs(parts, record);
    hide ReadAll, ReadAs, Join;
    var mode := ReadRecord(r, parts, record);
    read := Reader(mode, record[|record| - 1], record[..|record| - 1], r.records);
    assert [] + record[..|record| - 1] == record[..|record| - 1];
  }

  lemma ReadBreak(read: Reader)
    requires read.mode == Plain || read.mode == QuoteSeen
    ensures ReadAll(read, "\r\n") == Some(Reader(FieldStart, [], [], read.records + [read.record + [read.field]]))
  {
    assert "\r\n" == ['\r'] + ['\n'];
    ReadConcat(read, ['\r'], ['\n']);
    ReadOne(read, '\r');
    ReadOne(read.(mode := CrSeen), '\n');
  }

  ghost predicate EndsWith(read: Option<Reader>, records: seq<seq<string>>) {
    && read.Some? && (read.value.mode == Plain || read.value.mode == QuoteSeen)
    && read.value.records + [read.value.record + [read.value.field]] == records
  }

  lemma {:induction false} ReadLines(r: Reader, lines: seq<string>, records: seq<seq<string>>)
    requires r == Reader(FieldStart, [], [], r.records) && lines != [] && LinesReadAs(lines, records)
    ensures EndsWith(ReadAll(r, Join(lines, "\r\n")), r.records + records)
    decreases lines
  {
    hide LineReadsAs, ReadAll;
    if |lines| == 1 {
      var read := ReadLine(r, lines[0], records[0]);
      assert [records[0]] == records;
    } else {
      ReadLineAndBreak(r, lines[0], records[0], Join(lines[1..], "\r\n"));
      ReadLines(Reader(FieldStart, [], [], r.records + [records[0]]), lines[1..], records[1..]);
      assert r.records + [records[0]] + records[1..] == r.records + records;
    }
  }

  /** A line and the break after it are read as one record. */
  lemma ReadLineAndBreak(r: Reader, line: string, record: seq<string>, rest: string)
    requires r == Reader(FieldStart, [], [], r.records) && LineReadsAs(line, record)
    ensures ReadAll(r, line + "\r\n" + rest) == ReadAll(Reader(FieldStart, [], [], r.records + [record]), rest)
  {
    hide LineReadsAs, ReadAll;
    var read := ReadLine(r, line, record);
    assert line + "\r\n" + rest == line + ("\r\n" + rest);
    ReadConcat(r, line, "\r\n" + rest);
    ReadConcat(read, "\r\n", rest);
    ReadBreak(read);
  }

  function Record(item: Exported): seq<string> {
    var cells := Cells(item);
    seq(|cells|, i requires 0 <= i < |cells| => Neutral(cells[i]))
  }

  /** What a reader of the export should see: the column names and, for each prompt, its
      neutralised cells. */
  function Records(items: seq<Exported>): seq<seq<string>> {
    [COLUMNS] + seq(|items|, i requires 0 <= i < |items| => Record(items[i]))
  }

  lemma HeaderReads()
    ensures LineReadsAs(Join(COLUMNS, ","), COLUMNS)
  {
    forall i | 0 <= i < |COLUMNS| ensures ReadAs(COLUMNS[i], COLUMNS[i]) {
      assert IsPlain(COLUMNS[i]) && COLUMNS[i] != [];
      PlainReads(COLUMNS[i]);
    }
    assert AllReadAs(COLUMNS, COLUMNS);
  }

  lemma PlainReads(text: string)
    requires IsPlain(text) && text != []
    ensures ReadAs(text, text)
  {
    forall r: Reader | r.mode == FieldStart && r.field == []
      ensures exists mode :: (mode == Plain || mode == QuoteSeen) && ReadAll(r, text) == Some(r.(mode := mode, field := text))
    {
      ReadPlain(r, text);
      assert r.field + text == text;
    }
  }

  lemma EscapedReads(cell: Cell)
    ensures ReadAs(Escape(cell), Neutral(cell))
  {
    forall r: Reader | r.mode == FieldStart && r.field == []
      ensures exists mode :: (mode == Plain || mode == QuoteSeen) && ReadAll(r, Escape(cell)) == Some(r.(mode := mode, field := Neutral(cell)))
    {
      ReadEscaped(r, cell);
    }
  }

  lemma RowReads(item: Exported)
    ensures LineReadsAs(PrintRow(item), Record(item))
  {
    var cells := Cells(item);
    hide ReadAs, Escape, Neutral, Cells;
    forall i | 0 <= i < |cells| ensures ReadAs(Escaped(cells)[i], Record(item)[i]) {
      EscapedReads(cells[i]);
    }
    assert |cells| == 8 by { CellCount(item); }
    assert AllReadAs(Escaped(cells), Record(item));
  }

  lemma CellCount(item: Exported)
    ensures |Cells(item)| == |COLUMNS|
  {
  }

  lemma LinesRead(items: seq<Exported>)
    ensures LinesReadAs(Lines(items), Records(items))
  {
    HeaderReads();
    hide LineReadsAs, PrintRow, Record, Join;
    forall i | 0 <= i < |Lines(items)| ensures LineReadsAs(Lines(items)[i], Records(items)[i]) {
      if i > 0 { RowReads(items[i - 1]); }
    }
  }

  /** Whatever the texts contain, the body is well formed and a reader gets back the header
      and exactly the neutralised cells. */
  lemma ParseUndoesPrint(items: seq<Exported>)
    ensures Parse(Body(items)) == Some(Records(items))
  {
    LinesRead(items);
    assert Lines(items) != [];
    hide LinesReadAs, ReadAll, Join, Lines, Records;
    ReadLines(Fresh, Lines(items), Records(items));
    assert [] + Records(items) == Records(items);
  }

  /** No cell of the export, header included, can be taken for a formula. */
  lemma NoCellLooksLikeFormula(items: seq<Exported>, i: nat, j: nat)
    requires i < |Records(items)| && j < |Records(items)[i]|
    ensures !LooksLikeFormula(Records(items)[i][j])
  {
    if i > 0 {
      var cell := Cells(items[i - 1])[j];
      assert Records(items)[i][j] == Neutral(cell);
    }
  }

  /** A cell is exported unchanged exactly if it does not look like a formula, and a changed
      one only gains an apostrophe in front. */
  lemma NeutralIsFaithful(cell: Cell)
    ensures Neutral(cell) == Shown(cell) <==> !LooksLikeFormula(Shown(cell))
    ensures LooksLikeFormula(Shown(cell)) ==> Neutral(cell)[0] == '\'' && Neutral(cell)[1..] == Shown(cell)
  {
    if LooksLikeFormula(Shown(cell)) {
      assert |Neutral(cell)| == |Shown(cell)| + 1;
    }
  }

  /** A text as it may stand in a spreadsheet. */
  function Safe(text: string): string {
    if |text| > 0 && text[0] in ['=', '+', '-', '@'] then ['\''] + text else text
  }

  /** What the reader finds in each column. */
  lemma ColumnsAre(items: seq<Exported>, i: nat)
    requires i < |items|
    ensures var records, item := Records(items), items[i];
            && |records| == |items| + 1
            && records[0] == ["id", "project", "platform", "model", "occurredAt", "score", "prompt", "improvedPrompt"]
            && |records[i + 1]| == 8
            && records[i + 1][0] == Safe(item.id) && records[i + 1][1] == Safe(item.project)
            && records[i + 1][2] == Safe(item.platform) && records[i + 1][3] == Safe(item.model)
            && records[i + 1][4] == Safe(item.occurredAt)
            && records[i + 1][5] == (if item.score.Some? then Safe(Shown(Number(item.score.value))) else "")
            && records[i + 1][6] == Safe(item.prompt)
            && records[i + 1][7] == (if item.improved.Some? then Safe(item.improved.value) else "")
  {
    hide Record, Safe, Shown, Neutral, Digits;
    assert Records(items)[i + 1] == Record(items[i]);
    RecordIs(items[i]);
    hide Records;
  }

  lemma RecordIs(item: Exported)
    ensures Record(item) == [Safe(item.id), Safe(item.project), Safe(item.platform), Safe(item.model), Safe(item.occurredAt),
                             if item.score.Some? then Safe(Shown(Number(item.score.value))) else "",
                             Safe(item.prompt),
                             if item.improved.Some? then Safe(item.improved.value) else ""]
  {
    forall cell ensures Neutral(cell) == Safe(Shown(cell)) {
      hide Digits, Shown;
    }
    assert Safe("") == "";
    hide Neutral, Safe, Digits;
  }

  /** The number that decimal digits stand for. */
  function ValueOf(digits: string): int {
    if digits == [] then 0 else 10 * ValueOf(digits[..|digits| - 1]) + (digits[|digits| - 1] as int - '0' as int)
  }

  lemma {:induction false} DigitsReadBack(n: nat)
    ensures ValueOf(Digits(n)) == n && |Digits(n)| > 0
    ensures Digits(n)[0] != '-' && (n > 0 ==> Digits(n)[0] != '0')
  {
    if n < 10 {
      assert Digits(n)[..0] == [];
      assert ValueOf([]) == 0;
    } else {
      DigitsReadBack(n / 10);
      assert Digits(n)[..|Digits(n)| - 1] == Digits(n / 10);
    }
  }

  /** Numbers are shown in decimal, without leading zeros, with a sign if negative. */
  lemma NumberReadsBack(value: int)
    ensures var text := Shown(Number(value));
            && |text| > 0 && (text[0] == '-' <==> value < 0)
            && value == if value < 0 then -ValueOf(text[1..]) else ValueOf(text)
  {
    DigitsReadBack(if value < 0 then -value else value);
    hide Digits, ValueOf;
  }
}
