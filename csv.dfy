/** The CSV helpers of `services/utils.ts`: the text parser behind
    `importFromCSV` and the text `exportToCSV` builds. Reading the file and
    triggering the download are not part of this model. */
module Csv {
  import opened Types
  import Text

  // ---------------------------------------------------------------- import

  /** A parsed cell: text that reads as a number becomes that number. */
  datatype Cell = Str(s: string) | Num(n: real)

  /** A parsed record: one cell per header column. */
  type Record = map<string, Cell>

  const TooShort := "CSV must have a header and at least one data row."

  /** One outer pair of double quotes removed (a lone `"` becomes empty). */
  function StripQuotes(v: string): string {
    if |v| >= 1 && v[0] == '"' && v[|v| - 1] == '"' then (if |v| >= 2 then v[1..|v| - 1] else "")
    else v
  }

  /** The text of column `index` of a line cut at commas: trimmed, empty when
      the line has no such cell, then unquoted. */
  function CellText(values: seq<string>, index: nat): (t: string)
    ensures index >= |values| ==> t == ""
  {
    StripQuotes(if index < |values| then Text.Trim(values[index]) else "")
  }

  /** `!isNaN(value) && value.trim() !== ''`: non-blank text that reads as a
      number in full becomes a number; anything else stays text. */
  function Coerce(t: string): (c: Cell)
    ensures c.Num? ==> Text.Trim(t) != ""
    ensures c.Str? ==> c.s == t
  {
    if Text.Trim(t) != "" && Text.ParseNumber(t).Some? then Num(Text.ParseNumber(t).value) else Str(t)
  }

  /** The header: the first line cut at commas, each name trimmed. */
  function Header(line: string): (h: seq<string>)
    ensures |h| == |Text.Split(line, ',')|
  {
    var cells := Text.Split(line, ',');
    seq(|cells|, i requires 0 <= i < |cells| => Text.Trim(cells[i]))
  }

  /** The object a `header.reduce` builds when it writes `cell(k)` under the
      k-th column name in turn: a later column of the same name overwrites an
      earlier one. */
  function Assemble<V>(header: seq<string>, cell: nat -> V): map<string, V>
    decreases |header|
  {
    if header == [] then map[]
    else Assemble(header[..|header| - 1], cell)[header[|header| - 1] := cell(|header| - 1)]
  }

  /** One more column writes one more entry. */
  lemma AssembleStep<V>(header: seq<string>, cell: nat -> V, i: int)
    requires 0 <= i < |header|
    ensures Assemble(header[..i + 1], cell) == Assemble(header[..i], cell)[header[i] := cell(i)]
  {
    assert header[..i + 1][..i] == header[..i];
  }

  /** The assembled object has exactly the header's columns. */
  lemma {:induction false} AssembleColumns<V>(header: seq<string>, cell: nat -> V, c: string)
    ensures c in Assemble(header, cell) <==> c in header
    decreases |header|
  {
    if header != [] {
      var p := header[..|header| - 1];
      AssembleColumns(p, cell, c);
      assert header == p + [header[|header| - 1]];
    }
  }

  /** A column holds the cell at its last position in the header. */
  lemma {:induction false} AssembleCell<V>(header: seq<string>, cell: nat -> V, k: int)
    requires 0 <= k < |header|
    requires forall j :: k < j < |header| ==> header[j] != header[k]
    ensures header[k] in Assemble(header, cell) && Assemble(header, cell)[header[k]] == cell(k)
    decreases |header|
  {
    if k < |header| - 1 {
      AssembleCell(header[..|header| - 1], cell, k);
    }
  }

  /** The object depends only on the cells under the header's columns. */
  lemma {:induction false} AssembleReadsHeaderCells<V>(header: seq<string>, f: nat -> V, g: nat -> V)
    requires forall k :: 0 <= k < |header| ==> f(k) == g(k)
    ensures Assemble(header, f) == Assemble(header, g)
    decreases |header|
  {
    if header != [] {
      AssembleReadsHeaderCells(header[..|header| - 1], f, g);
    }
  }

  /** Assembling transformed cells transforms the assembled object. */
  lemma {:induction false} AssembleMap<V, W>(header: seq<string>, f: nat -> V, g: V -> W, fg: nat -> W)
    requires forall k :: 0 <= k < |header| ==> fg(k) == g(f(k))
    ensures Assemble(header, fg) == map c | c in Assemble(header, f) :: g(Assemble(header, f)[c])
    decreases |header|
  {
    if header != [] {
      AssembleMap(header[..|header| - 1], f, g, fg);
    }
  }

  /** The cell text of each column of a line cut at commas. */
  function TextsOf(values: seq<string>): nat -> string {
    (k: nat) => CellText(values, k)
  }

  /** The parsed cell of each column of a line cut at commas. */
  function CellsOf(values: seq<string>): nat -> Cell {
    (k: nat) => Coerce(CellText(values, k))
  }

  /** The cell texts of a data line, by column. */
  function RawRow(header: seq<string>, values: seq<string>): map<string, string> {
    Assemble(header, TextsOf(values))
  }

  /** The record the `header.reduce` builds for a data line. */
  function RowRecord(header: seq<string>, values: seq<string>): Record {
    Assemble(header, CellsOf(values))
  }

  /** The record is the coerced cell text, column by column. */
  lemma RecordCoercesText(header: seq<string>, values: seq<string>)
    ensures RowRecord(header, values) == map c | c in RawRow(header, values) :: Coerce(RawRow(header, values)[c])
  {
    AssembleMap(header, TextsOf(values), Coerce, CellsOf(values));
  }

  /** Every record has exactly the header's columns, and a column holds the
      cell at its last position. */
  lemma RecordColumns(header: seq<string>, values: seq<string>, k: int)
    requires 0 <= k < |header|
    requires forall j :: k < j < |header| ==> header[j] != header[k]
    ensures forall c :: c in RowRecord(header, values) <==> c in header
    ensures RowRecord(header, values)[header[k]] == Coerce(CellText(values, k))
  {
    forall c
      ensures c in RowRecord(header, values) <==> c in header
    {
      AssembleColumns(header, CellsOf(values), c);
    }
    AssembleCell(header, CellsOf(values), k);
  }

  /** Cells past the header's columns are ignored; missing cells read as
      empty text. */
  lemma ExtraAndMissingCells(header: seq<string>, values: seq<string>)
    ensures |values| >= |header| ==> RowRecord(header, values) == RowRecord(header, values[..|header|])
    ensures forall k :: |values| <= k < |header| ==> Coerce(CellText(values, k)) == Str("")
  {
    if |values| >= |header| {
      AssembleReadsHeaderCells(header, CellsOf(values), CellsOf(values[..|header|]));
    }
    forall k | |values| <= k < |header|
      ensures Coerce(CellText(values, k)) == Str("")
    {
      assert Text.Trim("") == "";
    }
  }

  /** A quoted cell loses its outer quotes only; commas are never protected,
      so `"a,b"` is cut into `"a` and `b"`, which keep their quote. */
  lemma QuotesStripped(s: string)
    ensures StripQuotes("\"" + s + "\"") == s
    ensures StripQuotes("\"a") == "\"a" && StripQuotes("b\"") == "b\""
  {
    var q := "\"" + s + "\"";
    assert q[1..|q| - 1] == s;
  }

  /** What `importFromCSV` resolves with, or the message it rejects with. */
  function ParsedRecords(text: string): (r: Result<seq<Record>>)
    ensures r.Err? <==> |Text.Lines(text)| < 2
    ensures r.Ok? ==> |r.value| == |Text.Lines(text)| - 1
  {
    var lines := Text.Lines(text);
    if |lines| < 2 then Err(TooShort)
    else
      Ok(Records(Header(lines[0]), lines[1..]))
  }

  /** One record per data line, in order. */
  function Records(header: seq<string>, lines: seq<string>): (r: seq<Record>)
    ensures |r| == |lines|
    decreases |lines|
  {
    if lines == [] then []
    else Records(header, lines[..|lines| - 1]) + [RowRecord(header, Text.Split(lines[|lines| - 1], ','))]
  }

  /** The record of a data line is the one its own text makes. */
  lemma {:induction false} RecordsAt(header: seq<string>, lines: seq<string>, k: int)
    requires 0 <= k < |lines|
    ensures Records(header, lines)[k] == RowRecord(header, Text.Split(lines[k], ','))
    decreases |lines|
  {
    if k < |lines| - 1 {
      var init := lines[..|lines| - 1];
      RecordsAt(header, init, k);
      assert init[k] == lines[k];
    }
  }

  /** One more data line adds its record at the end. */
  lemma RecordsStep(header: seq<string>, lines: seq<string>, line: string)
    ensures Records(header, lines + [line]) == Records(header, lines) + [RowRecord(header, Text.Split(line, ','))]
  {
    assert (lines + [line])[..|lines|] == lines;
  }

  /** The cell texts of every data line, before numbers are read. */
  function RawRows(text: string): (r: Result<seq<map<string, string>>>)
    ensures r.Err? <==> ParsedRecords(text).Err?
    ensures r.Ok? ==> |r.value| == |ParsedRecords(text).value|
  {
    var lines := Text.Lines(text);
    if |lines| < 2 then Err(TooShort)
    else
      var header := Header(lines[0]);
      Ok(seq(|lines| - 1, i requires 0 <= i < |lines| - 1 => RawRow(header, Text.Split(lines[i + 1], ','))))
  }

  /** The parsed records are the raw rows with numbers read. */
  lemma RawRowsCoerce(text: string, i: int)
    requires RawRows(text).Ok? && 0 <= i < |RawRows(text).value|
    ensures ParsedRecords(text).value[i] == map c | c in RawRows(text).value[i] :: Coerce(RawRows(text).value[i][c])
  {
    var lines := Text.Lines(text);
    var header := Header(lines[0]);
    var values := Text.Split(lines[i + 1], ',');
    assert RawRows(text).value[i] == RawRow(header, values);
    assert ParsedRecords(text).value[i] == RowRecord(header, values) by {
      RecordsAt(header, lines[1..], i);
      assert lines[1..][i] == lines[i + 1];
    }
    RecordCoercesText(header, values);
  }

  /** The accumulating `reduce` over the header for one data line. */
  method BuildRecord(header: seq<string>, line: string) returns (obj: Record)
    ensures obj == RowRecord(header, Text.Split(line, ','))
  {
    var values := Text.Split(line, ',');
    ghost var f := CellsOf(values);
    obj := map[];
    var index := 0;
    while index < |header|
      invariant 0 <= index <= |header|
      invariant obj == Assemble(header[..index], f)
    {
      var value := if index < |values| then Text.Trim(values[index]) else "";
      value := StripQuotes(value);
      assert value == CellText(values, index);
      var cell;
      if Text.Trim(value) != "" && Text.ParseNumber(value).Some? {
        cell := Num(Text.ParseNumber(value).value);
      } else {
        cell := Str(value);
      }
      assert cell == f(index);
      AssembleStep(header, f, index);
      obj := obj[header[index] := cell];
      index := index + 1;
    }
    assert header[..index] == header;
  }

  /** `lines.slice(1).map(...)`: one record per data line, in order. */
  method BuildRecords(header: seq<string>, rest: seq<string>) returns (data: seq<Record>)
    ensures data == Records(header, rest)
  {
    data := [];
    var j := 0;
    while j < |rest|
      invariant 0 <= j <= |rest|
      invariant data == Records(header, rest[..j])
    {
      assert rest[..j + 1] == rest[..j] + [rest[j]];
      RecordsStep(header, rest[..j], rest[j]);
      var obj := BuildRecord(header, rest[j]);
      data := data + [obj];
      j := j + 1;
    }
    assert rest[..j] == rest;
  }

  /** `importFromCSV` on the text of the file. */
  method ImportFromCsv(text: string) returns (r: Result<seq<Record>>)
    ensures r == ParsedRecords(text)
  {
    var lines := Text.Lines(text);
    if |lines| < 2 {
      return Err(TooShort);
    }
    var header := Header(lines[0]);
    var data := BuildRecords(header, lines[1..]);
    r := Ok(data);
  }

  // ---------------------------------------------------------------- export

  /** A field value as `exportToCSV` meets it. */
  datatype Value = JNull | JUndefined | JString(s: string) | JNumber(n: real) | JBool(b: bool)

  /** A row: its fields in key order. */
  type Row = seq<(string, Value)>

  function Keys(row: Row): (keys: seq<string>)
    ensures |keys| == |row|
  {
    seq(|row|, i requires 0 <= i < |row| => row[i].0)
  }

  /** `row[key]`: the value under the key, undefined when there is none. */
  function Lookup(row: Row, key: string): Value
    decreases |row|
  {
    if row == [] then JUndefined
    else if row[0].0 == key then row[0].1
    else Lookup(row[1..], key)
  }

  /** The JSON two-character escape of a character, if it has one. */
  function ShortEscape(c: char): Option<char> {
    if c == '"' then Some('"')
    else if c == '\\' then Some('\\')
    else if c == '\U{8}' then Some('b')
    else if c == '\t' then Some('t')
    else if c == '\n' then Some('n')
    else if c == '\U{C}' then Some('f')
    else if c == '\r' then Some('r')
    else None
  }

  /** The character a two-character escape stands for. */
  function ShortUnescape(e: char): Option<char> {
    if e == '"' then Some('"')
    else if e == '\\' then Some('\\')
    else if e == 'b' then Some('\U{8}')
    else if e == 't' then Some('\t')
    else if e == 'n' then Some('\n')
    else if e == 'f' then Some('\U{C}')
    else if e == 'r' then Some('\r')
    else None
  }

  function HexDigit(d: int): char
    requires 0 <= d < 16
  {
    if d < 10 then ('0' as int + d) as char else ('a' as int + d - 10) as char
  }

  function HexValue(c: char): Option<nat> {
    if '0' <= c <= '9' then Some(c as int - '0' as int)
    else if 'a' <= c <= 'f' then Some(c as int - 'a' as int + 10)
    else if 'A' <= c <= 'F' then Some(c as int - 'A' as int + 10)
    else None
  }

  /** A character as JSON writes it inside a string. */
  /** A character the writer copies as it is. */
  predicate Plain(c: char) {
    ' ' <= c && ShortEscape(c).None?
  }

  function EscapeChar(c: char): string {
    match ShortEscape(c)
    case Some(e) => ['\\', e]
    case None =>
      if c < ' ' then ['\\', 'u', '0', '0', HexDigit(c as int / 16), HexDigit(c as int % 16)] else [c]
  }

  function Escape(s: string): (r: string)
    ensures |r| >= |s|
    ensures (forall i :: 0 <= i < |s| ==> Plain(s[i])) ==> r == s
    decreases |s|
  {
    if s == [] then "" else EscapeChar(s[0]) + Escape(s[1..])
  }

  /** `JSON.stringify` of a string. */
  function Quote(s: string): string {
    "\"" + Escape(s) + "\""
  }

  function Prepend(c: char, rest: Option<string>): Option<string> {
    match rest
    case None => None
    case Some(t) => Some([c] + t)
  }

  /** The value of four hexadecimal digits, if they are. */
  function Hex4(s: string): Option<nat>
    requires |s| == 4
  {
    match (HexValue(s[0]), HexValue(s[1]), HexValue(s[2]), HexValue(s[3]))
    case (Some(a), Some(b), Some(c), Some(d)) => Some(((a * 16 + b) * 16 + c) * 16 + d)
    case _ => None
  }

  /** Reading the body of a JSON string back. */
  function Unescape(s: string): Option<string>
    decreases |s|
  {
    if s == [] then Some([])
    else if s[0] != '\\' then Prepend(s[0], Unescape(s[1..]))
    else if |s| >= 2 && ShortUnescape(s[1]).Some? then Prepend(ShortUnescape(s[1]).value, Unescape(s[2..]))
    else if |s| >= 6 && s[1] == 'u' && Hex4(s[2..6]).Some? && (Hex4(s[2..6]).value < 0xD800 || 0xE000 <= Hex4(s[2..6]).value < 0x11_0000)
    then Prepend(Hex4(s[2..6]).value as char, Unescape(s[6..]))
    else None
  }

  lemma UnescapeShortEscape(c: char, t: string)
    requires ShortEscape(c).Some?
    ensures Unescape(EscapeChar(c) + t) == Prepend(c, Unescape(t))
  {
    var e := EscapeChar(c) + t;
    assert e[0] == '\\' && e[1] == ShortEscape(c).value;
    assert ShortUnescape(ShortEscape(c).value) == Some(c);
    assert e[2..] == t;
  }

  lemma UnescapeControl(c: char, t: string)
    requires ShortEscape(c).None? && c < ' '
    ensures Unescape(EscapeChar(c) + t) == Prepend(c, Unescape(t))
  {
    var e := EscapeChar(c) + t;
    var hi, lo := c as int / 16, c as int % 16;
    assert e[0] == '\\' && e[1] == 'u';
    assert ShortUnescape('u').None?;
    assert e[2..6] == ['0', '0', HexDigit(hi), HexDigit(lo)];
    assert HexValue(HexDigit(hi)) == Some(hi) && HexValue(HexDigit(lo)) == Some(lo);
    assert Hex4(e[2..6]) == Some(c as int);
    assert e[6..] == t;
  }

  lemma UnescapeEscapeChar(c: char, t: string)
    ensures Unescape(EscapeChar(c) + t) == Prepend(c, Unescape(t))
  {
    if ShortEscape(c).Some? {
      UnescapeShortEscape(c, t);
    } else if c < ' ' {
      UnescapeControl(c, t);
    } else {
      var e := EscapeChar(c) + t;
      assert e[0] == c && e[1..] == t;
    }
  }

  /** A JSON-escaped string reads back as the original. */
  lemma {:induction false} EscapeRoundTrip(s: string)
    ensures Unescape(Escape(s)) == Some(s)
    decreases |s|
  {
    if s != [] {
      EscapeRoundTrip(s[1..]);
      UnescapeEscapeChar(s[0], Escape(s[1..]));
      assert [s[0]] + s[1..] == s;
    }
  }

  /** An escaped string holds no line break, so a field never splits a line. */
  lemma {:induction false} EscapeHasNoLineBreak(s: string)
    ensures forall i :: 0 <= i < |Escape(s)| ==> !Text.IsLineBreak(Escape(s)[i])
    decreases |s|
  {
    if s != [] {
      EscapeHasNoLineBreak(s[1..]);
      var e := EscapeChar(s[0]);
      assert forall i :: 0 <= i < |e| ==> !Text.IsLineBreak(e[i]);
      assert forall i :: |e| <= i < |Escape(s)| ==> Escape(s)[i] == Escape(s[1..])[i - |e|];
    }
  }

  /** `JSON.stringify(value, replacer)`: null is replaced by the empty string,
      undefined writes nothing, numbers are written by `show`. */
  function Stringify(v: Value, show: real -> string): string {
    match v
    case JNull => Quote("")
    case JUndefined => ""
    case JString(s) => Quote(s)
    case JNumber(n) => show(n)
    case JBool(b) => if b then "true" else "false"
  }

  /** The line of one row: its values under the header, comma-separated. */
  function RowLine(header: seq<string>, row: Row, show: real -> string): string {
    Text.Join(seq(|header|, j requires 0 <= j < |header| => Stringify(Lookup(row, header[j]), show)), ",")
  }

  /** The text `exportToCSV` writes: nothing for no rows; else the first row's
      keys, then one line per row, joined by CRLF. */
  function ExportText(data: seq<Row>, show: real -> string): (r: Option<string>)
    ensures r.None? <==> data == []
  {
    if data == [] then None
    else
      var header := Keys(data[0]);
      Some(Text.Join([Text.Join(header, ",")] + seq(|data|, i requires 0 <= i < |data| => RowLine(header, data[i], show)), "\r\n"))
  }

  /** Every part after the first, each led by the separator. */
  function Led(parts: seq<string>, sep: string): string
    decreases |parts|
  {
    if parts == [] then "" else sep + parts[0] + Led(parts[1..], sep)
  }

  lemma {:induction false} JoinIsLed(parts: seq<string>, sep: string)
    requires parts != []
    ensures Text.Join(parts, sep) == parts[0] + Led(parts[1..], sep)
    decreases |parts|
  {
    if |parts| > 1 {
      JoinIsLed(parts[1..], sep);
      assert parts[1..][1..] == parts[2..];
    }
  }

  /** The export is the header line followed by each row's line, each row's
      line led by CRLF. */
  lemma ExportLayout(data: seq<Row>, show: real -> string)
    requires data != []
    ensures ExportText(data, show) == Some(Text.Join(Keys(data[0]), ",")
      + Led(seq(|data|, i requires 0 <= i < |data| => RowLine(Keys(data[0]), data[i], show)), "\r\n"))
  {
    var header := Keys(data[0]);
    var rows := seq(|data|, i requires 0 <= i < |data| => RowLine(header, data[i], show));
    JoinIsLed([Text.Join(header, ",")] + rows, "\r\n");
    assert ([Text.Join(header, ",")] + rows)[1..] == rows;
  }

  /** A missing key and a null value are written differently: nothing, and an
      empty quoted string. */
  lemma NullAndMissing(show: real -> string)
    ensures Stringify(JUndefined, show) == "" && Stringify(JNull, show) == "\"\""
  {
  }
}
