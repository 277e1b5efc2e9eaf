/** The settings page (`pages/settings/SettingsPage.tsx`): staging a catalog
    import from CSV, confirming it, and restoring a backup. */
module Settings {
  import opened Types
  import opened Collections
  import opened Api
  import opened DataContext
  import Csv
  import Text

  // ---------------------------------------------------------------- rows as written

  /** A field of a parsed record as the page reads it: absent, text, or a
      number the parser made of numeric-looking text. */
  datatype JsValue = Undefined | JsText(s: string) | JsNumber(n: real)

  function Field(rec: Csv.Record, column: string): JsValue {
    if column !in rec then Undefined
    else match rec[column]
      case Str(s) => JsText(s)
      case Num(n) => JsNumber(n)
  }

  predicate Truthy(v: JsValue) {
    match v
    case Undefined => false
    case JsText(s) => s != ""
    case JsNumber(n) => n != 0.0
  }

  /** `parseFloat(v)`, none standing for NaN. */
  function ParseFloatOf(v: JsValue): Option<real> {
    match v
    case Undefined => None
    case JsText(s) => Text.ParseFloat(s)
    case JsNumber(n) => Some(n)
  }

  /** A staged row as the page builds it: the fields keep whatever the parser
      made of them. */
  datatype StagedRow = StagedRow(code: JsValue, desc: JsValue, color: JsValue, price: Option<real>)

  function StagedRowOf(rec: Csv.Record): StagedRow {
    StagedRow(Field(rec, "code"), Field(rec, "desc"), Field(rec, "color"), ParseFloatOf(Field(rec, "price")))
  }

  predicate Kept(row: StagedRow) {
    Truthy(row.code) && Truthy(row.desc) && Truthy(row.color) && row.price.Some?
  }

  /** The staged row of a record, if the page's filter keeps it. */
  function StagedOf(rec: Csv.Record): Option<StagedRow> {
    var row := StagedRowOf(rec);
    if Kept(row) then Some(row) else None
  }

  /** The rows `handlePreviewImport` stages, as written. */
  function StagedAsWritten(records: seq<Csv.Record>): seq<StagedRow> {
    FilterMap(records, StagedOf)
  }

  /** `v.toLowerCase()`, which throws on anything but text. */
  function LowerAsWritten(v: JsValue): Result<string> {
    match v
    case JsText(s) => Ok(Text.Lower(s))
    case JsNumber(_) => Err("TypeError: toLowerCase is not a function")
    case Undefined => Err("TypeError: Cannot read properties of undefined")
  }

  /** `catalog.some(c => c.code.toLowerCase() === item.code.toLowerCase())`,
      evaluated entry by entry. */
  function SomeCodeAsWritten(catalog: seq<StagedRow>, item: StagedRow): Result<bool>
    decreases |catalog|
  {
    if catalog == [] then Ok(false)
    else match LowerAsWritten(catalog[0].code)
      case Err(e) => Err(e)
      case Ok(a) =>
        match LowerAsWritten(item.code)
        case Err(e) => Err(e)
        case Ok(b) => if a == b then Ok(true) else SomeCodeAsWritten(catalog[1..], item)
  }

  /** The store's `addToCatalog` on staged rows as written: it throws at the
      first comparison that meets a code that is not text. */
  function AddStagedAsWritten(catalog: seq<StagedRow>, items: seq<StagedRow>): Result<seq<StagedRow>>
    decreases |items|
  {
    if items == [] then Ok(catalog)
    else match SomeCodeAsWritten(catalog, items[0])
      case Err(e) => Err(e)
      case Ok(exists_) => AddStagedAsWritten(if exists_ then catalog else catalog + [items[0]], items[1..])
  }

  /** The record the parser makes of the line `<code>,Casement,White,<price>`
      under the header `code,desc,color,price`, once both cells have been
      read as numbers. */
  function ExampleRecord(code: real, price: real): Csv.Record {
    map["code" := Csv.Num(code), "desc" := Csv.Str("Casement"), "color" := Csv.Str("White"), "price" := Csv.Num(price)]
  }

  /** Digits-only text is parsed to a number. */
  lemma DigitsBecomeNumbers(s: string)
    requires s != [] && Text.AllDigits(s)
    ensures Csv.Coerce(s) == Csv.Num(Text.DigitsValue(s) as real)
  {
    Text.TrimOfNoSpaceEnds(s);
    Text.DecimalPrefixOfDigits(s);
  }

  /** The row the page stages from such a record: every field is kept as
      the parser made it. */
  lemma ExampleRecordStaged(code: real, price: real)
    requires code != 0.0
    ensures StagedOf(ExampleRecord(code, price)) == Some(StagedRow(JsNumber(code), JsText("Casement"), JsText("White"), Some(price)))
  {
    var rec := ExampleRecord(code, price);
    assert "code"[0] != "desc"[0] && "code"[0] != "color"[1] && "code"[0] != "price"[0];
    assert rec["code"] == Csv.Num(code);
    assert rec["desc"] == Csv.Str("Casement");
    assert rec["color"] == Csv.Str("White");
    assert rec["price"] == Csv.Num(price);
  }

  /** As written, a code cell reading as zero (`0`, `0.0`, `-0`) becomes the
      falsy number 0, and the page's filter drops the row. */
  lemma ZeroCodeDroppedAsWritten(price: real)
    ensures StagedOf(ExampleRecord(0.0, price)) == None
  {
    var rec := ExampleRecord(0.0, price);
    assert rec["code"] == Csv.Num(0.0);
  }

  /** Two staged rows with numeric codes make `addToCatalog` throw, even on
      an empty catalog: the second row's check lowers the first row's code. */
  lemma NumericCodesThrow(a: real, b: real, price: real)
    ensures var s1 := StagedRow(JsNumber(a), JsText("Casement"), JsText("White"), Some(price));
      var s2 := StagedRow(JsNumber(b), JsText("Casement"), JsText("White"), Some(price));
      AddStagedAsWritten([], [s1, s2]).Err?
  {
    var s1 := StagedRow(JsNumber(a), JsText("Casement"), JsText("White"), Some(price));
    var s2 := StagedRow(JsNumber(b), JsText("Casement"), JsText("White"), Some(price));
    assert SomeCodeAsWritten([], s1) == Ok(false);
    assert [s1, s2][1..] == [s2];
    assert AddStagedAsWritten([], [s1, s2]) == AddStagedAsWritten([s1], [s2]);
    assert SomeCodeAsWritten([s1], s2).Err?;
  }

  /** As written, a CSV whose code cells are digits only (such as `101` and
      `102`) is staged with numeric codes, and confirming it throws inside
      `addToCatalog`. */
  lemma NumericCodesBreakImportAsWritten(a: string, b: string, price: string)
    requires a != [] && Text.AllDigits(a) && Text.DigitsValue(a) != 0
    requires b != [] && Text.AllDigits(b) && Text.DigitsValue(b) != 0
    requires price != [] && Text.AllDigits(price)
    ensures Csv.Coerce(a) == Csv.Num(Text.DigitsValue(a) as real) && Csv.Coerce(b) == Csv.Num(Text.DigitsValue(b) as real)
    ensures Csv.Coerce(price) == Csv.Num(Text.DigitsValue(price) as real)
    ensures var va, vb, vp := Text.DigitsValue(a) as real, Text.DigitsValue(b) as real, Text.DigitsValue(price) as real;
      StagedAsWritten([ExampleRecord(va, vp), ExampleRecord(vb, vp)])
      == [StagedRow(JsNumber(va), JsText("Casement"), JsText("White"), Some(vp)),
          StagedRow(JsNumber(vb), JsText("Casement"), JsText("White"), Some(vp))]
      && AddStagedAsWritten([], StagedAsWritten([ExampleRecord(va, vp), ExampleRecord(vb, vp)])).Err?
  {
    DigitsBecomeNumbers(a);
    DigitsBecomeNumbers(b);
    DigitsBecomeNumbers(price);
    var va, vb, vp := Text.DigitsValue(a) as real, Text.DigitsValue(b) as real, Text.DigitsValue(price) as real;
    var recs := [ExampleRecord(va, vp), ExampleRecord(vb, vp)];
    var s1 := StagedRow(JsNumber(va), JsText("Casement"), JsText("White"), Some(vp));
    var s2 := StagedRow(JsNumber(vb), JsText("Casement"), JsText("White"), Some(vp));
    ExampleRecordStaged(va, vp);
    ExampleRecordStaged(vb, vp);
    FilterMapPair(recs[0], recs[1], StagedOf);
    NumericCodesThrow(va, vb, vp);
  }

  // ---------------------------------------------------------------- rows as intended

  /** The text of a column of a raw row, empty when the column is absent. */
  function Column(row: map<string, string>, column: string): string {
    if column in row then row[column] else ""
  }

  /** A catalog entry read from a row's cell texts: code, description and
      colour must be non-empty and the price must read as a number. */
  function CatalogRow(row: map<string, string>): (r: Option<CatalogItem>)
    ensures r.Some? ==> r.value.code != "" && r.value.desc != "" && r.value.color != ""
    ensures r.Some? <==> Column(row, "code") != "" && Column(row, "desc") != "" && Column(row, "color") != ""
                         && Text.ParseFloat(Column(row, "price")).Some?
  {
    var code, desc, color := Column(row, "code"), Column(row, "desc"), Column(row, "color");
    match Text.ParseFloat(Column(row, "price"))
    case None => None
    case Some(price) => if code != "" && desc != "" && color != "" then Some(CatalogItem(code, desc, color, price)) else None
  }

  /** The entries staged from the rows, in order. */
  function CatalogRows(rows: seq<map<string, string>>): seq<CatalogItem> {
    FilterMap(rows, CatalogRow)
  }

  /** An entry is staged exactly when some row reads as it. */
  lemma CatalogRowsMembership(rows: seq<map<string, string>>, x: CatalogItem)
    ensures x in CatalogRows(rows) <==> exists i :: 0 <= i < |rows| && CatalogRow(rows[i]) == Some(x)
  {
    FilterMapMembership(rows, CatalogRow, x);
  }

  /** The raw row of the line `<code>,Casement,White,<price>` under the
      header `code,desc,color,price`. */
  function ExampleRow(code: string, price: string): map<string, string> {
    map["code" := code, "desc" := "Casement", "color" := "White", "price" := price]
  }

  /** An illustration of `CatalogRow` on one row shape, and the step
      `TwoRowsRead` builds on: such a row is read as the entry it spells,
      whatever its code looks like. */
  lemma ExampleRowRead(code: string, price: string)
    requires code != ""
    requires price != [] && Text.AllDigits(price)
    ensures CatalogRow(ExampleRow(code, price)) == Some(CatalogItem(code, "Casement", "White", Text.DigitsValue(price) as real))
  {
    var row := ExampleRow(code, price);
    assert "code"[0] != "desc"[0] && "code"[0] != "color"[1] && "code"[0] != "price"[0];
    assert "desc"[0] != "color"[0] && "desc"[0] != "price"[0] && "color"[0] != "price"[0];
    assert Column(row, "code") == code && Column(row, "desc") == "Casement" && Column(row, "color") == "White";
    assert Column(row, "price") == price;
    Text.ParseFloatOfDigits(price);
  }

  /** Two rows read as their two entries, in order. */
  lemma TwoRowsRead(a: string, b: string, price: string)
    requires a != "" && b != ""
    requires price != [] && Text.AllDigits(price)
    ensures var p := Text.DigitsValue(price) as real;
      CatalogRows([ExampleRow(a, price), ExampleRow(b, price)])
      == [CatalogItem(a, "Casement", "White", p), CatalogItem(b, "Casement", "White", p)]
  {
    ExampleRowRead(a, price);
    ExampleRowRead(b, price);
    FilterMapPair(ExampleRow(a, price), ExampleRow(b, price), CatalogRow);
  }

  /** Two entries whose codes differ ignoring case are both added to an
      empty catalog. */
  lemma TwoDistinctMerged(e1: CatalogItem, e2: CatalogItem)
    requires Text.Lower(e1.code) != Text.Lower(e2.code)
    ensures CatalogMerge([], [e1, e2]) == [e1, e2]
  {
    assert !HasCode([], e1.code);
    assert !HasCode([e1], e2.code);
    assert [e1, e2][..1] == [e1] && [e1, e2][..1][..0] == [];
  }

  /** With the corrected reading, two rows whose codes differ ignoring case
      (digit-only codes such as `101` and `102` included) are staged as text
      and both are imported into an empty catalog. */
  lemma NumericCodesImported(a: string, b: string, price: string)
    requires a != "" && b != "" && Text.Lower(a) != Text.Lower(b)
    requires price != [] && Text.AllDigits(price)
    ensures var p := Text.DigitsValue(price) as real;
      CatalogRows([ExampleRow(a, price), ExampleRow(b, price)])
      == [CatalogItem(a, "Casement", "White", p), CatalogItem(b, "Casement", "White", p)]
    ensures CatalogMerge([], CatalogRows([ExampleRow(a, price), ExampleRow(b, price)]))
      == CatalogRows([ExampleRow(a, price), ExampleRow(b, price)])
  {
    var p := Text.DigitsValue(price) as real;
    TwoRowsRead(a, b, price);
    TwoDistinctMerged(CatalogItem(a, "Casement", "White", p), CatalogItem(b, "Casement", "White", p));
  }

  // ---------------------------------------------------------------- the page

  const ReadFailed := "Failed to read CSV file."
  const NothingValid := "No valid catalog items found in the CSV."
  const RestoreFailed := "Failed to restore data. Invalid file."

  /** The staged import of the settings page. */
  class ImportStaging {
    var staged: seq<CatalogItem>
    var fileName: string

    constructor ()
      ensures staged == [] && fileName == ""
    {
      staged, fileName := [], "";
    }

    /** `handlePreviewImport` on a file's text: stage the valid rows, or keep
        the staging as it was and report why. */
    method Preview(text: string, name: string) returns (notice: Notice)
      modifies this
      ensures Csv.RawRows(text).Err? ==> notice == Notice(ReadFailed, Error) && staged == old(staged) && fileName == old(fileName)
      ensures Csv.RawRows(text).Ok? ==>
        var rows := CatalogRows(Csv.RawRows(text).value);
        if rows == [] then notice == Notice(NothingValid, Error) && staged == old(staged) && fileName == old(fileName)
        else notice.kind == Info && staged == rows && fileName == name
    {
      var parsed := Csv.RawRows(text);
      if parsed.Err? {
        return Notice(ReadFailed, Error);
      }
      var rows := CatalogRows(parsed.value);
      if |rows| > 0 {
        staged, fileName := rows, name;
        notice := Notice("Previewing " + Text.NatText(|rows|) + " items from " + name, Info);
      } else {
        notice := Notice(NothingValid, Error);
      }
    }

    /** `handleConfirmImport`: import the staged entries once and clear the
        staging; with nothing staged, do nothing. */
    method Confirm(ctx: Context, env: Env) returns (notice: Option<Notice>)
      modifies this, ctx.db
      ensures old(staged) == [] ==> notice.None? && ctx.db.Data() == old(ctx.db.Data()) && staged == [] && fileName == old(fileName)
      ensures old(staged) != [] ==> (notice.Some? && notice.value.kind == Success
        && ctx.db.Data() == AddToCatalogEffect(old(ctx.db.Data()), ctx.user, old(staged), env)
        && staged == [] && fileName == "")
    {
      if |staged| > 0 {
        ctx.AddToCatalog(staged, env);
        notice := Some(Notice(Text.NatText(|staged|) + " items imported to catalog.", Success));
        staged, fileName := [], "";
      } else {
        notice := None;
      }
    }
  }

  /** `handleRestore` once the file's text has been read as JSON (`parsed`
      is none when it is not JSON): invalid text changes nothing; valid text,
      once confirmed, replaces the whole store. */
  method Restore(ctx: Context, parsed: Option<AppData>, confirmed: bool, env: Env) returns (notice: Option<Notice>)
    modifies ctx.db
    ensures parsed.None? ==> notice == Some(Notice(RestoreFailed, Error)) && ctx.db.Data() == old(ctx.db.Data())
    ensures parsed.Some? && !confirmed ==> notice.None? && ctx.db.Data() == old(ctx.db.Data())
    ensures parsed.Some? && confirmed ==> (notice.Some? && notice.value.kind == Success
      && ctx.db.Data() == LoadBackupEffect(parsed.value, ctx.user, env))
  {
    if parsed.None? {
      return Some(Notice(RestoreFailed, Error));
    }
    if confirmed {
      ctx.LoadBackup(parsed.value, env);
      notice := Some(Notice("Data restored successfully!", Success));
    } else {
      notice := None;
    }
  }

  /** A confirmed restore keeps the backup's collections and adds exactly one
      `Data Restore` entry to its log. */
  lemma RestoreReplacesStore(backup: AppData, user: Option<User>, env: Env)
    ensures var r := LoadBackupEffect(backup, user, env);
      r.(history := backup.history, activityLog := backup.activityLog) == backup
      && r.activityLog == backup.activityLog + [LogEntry(user, "Data Restore", "Application data restored from backup.", env)]
  {
  }
}
