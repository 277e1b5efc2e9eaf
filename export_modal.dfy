/** The export dialog (`components/common/ExportModal.tsx`): its options,
    the quoted CSV it writes per inventory category, and how the enabled
    categories are combined into one file or kept as separate files. */
module ExportModal {
  import opened Types
  import Text

  // ---------------------------------------------------------------- quoting

  /** Every `"` doubled (`replace(/"/g, '""')`). */
  function Doubled(s: string): (r: string)
    ensures |r| >= |s|
    decreases |s|
  {
    if s == [] then []
    else (if s[0] == '"' then "\"\"" else [s[0]]) + Doubled(s[1..])
  }

  /** A field wrapped in quotes with its own quotes doubled, as rules 5-7 of
      section 2 of RFC 4180 describe. */
  function Quoted(s: string): (r: string)
    ensures |r| >= 2 && r[0] == '"' && r[|r| - 1] == '"'
  {
    "\"" + Doubled(s) + "\""
  }

  /** The reading of the inside of a quoted field: `""` is one quote, a lone
      quote is malformed. */
  function Undoubled(s: string): Option<string>
    decreases |s|
  {
    if s == [] then Some([])
    else if s[0] != '"' then
      match Undoubled(s[1..])
      case None => None
      case Some(t) => Some([s[0]] + t)
    else if |s| >= 2 && s[1] == '"' then
      match Undoubled(s[2..])
      case None => None
      case Some(t) => Some("\"" + t)
    else None
  }

  /** The reading of a whole quoted field. */
  function Unquoted(s: string): Option<string> {
    if |s| >= 2 && s[0] == '"' && s[|s| - 1] == '"' then Undoubled(s[1..|s| - 1]) else None
  }

  lemma {:induction false} UndoubleDoubled(s: string)
    ensures Undoubled(Doubled(s)) == Some(s)
    decreases |s|
  {
    if s != [] {
      UndoubleDoubled(s[1..]);
      var rest := Doubled(s[1..]);
      if s[0] == '"' {
        assert s == "\"" + s[1..];
        assert Doubled(s) == "\"\"" + rest;
        assert Doubled(s)[2..] == rest;
      } else {
        assert s == [s[0]] + s[1..];
        assert Doubled(s) == [s[0]] + rest;
        assert Doubled(s)[1..] == rest;
      }
    }
  }

  /** A quoted field reads back as the text it quotes. */
  lemma QuotedRoundTrip(s: string)
    ensures Unquoted(Quoted(s)) == Some(s)
  {
    var q := Quoted(s);
    assert q[1..|q| - 1] == Doubled(s);
    UndoubleDoubled(s);
  }

  // ---------------------------------------------------------------- rows

  function UnitLabel(u: Unit): string {
    match u
    case Meters => "meters"
    case Pieces => "pieces"
    case Sqm => "sqm"
    case Liters => "liters"
    case Kg => "kg"
  }

  /** `String(row[header] || '')` for an inventory item: a missing or falsy
      value (empty text, absent option, the number 0) is empty; `show`
      stands for the number's printed form. */
  function CellText(item: InventoryItem, header: string, show: real -> string): (t: string)
    ensures header == "quantity" && item.quantity == 0.0 ==> t == ""
    ensures header == "cost" && item.cost == 0.0 ==> t == ""
    ensures header == "reorderLevel" && item.reorderLevel == 0.0 ==> t == ""
    ensures header == "color" && item.color.None? ==> t == ""
    ensures header == "dimensions" && item.dimensions.None? ==> t == ""
    ensures header == "sku" ==> t == item.sku
    ensures header == "name" ==> t == item.name
  {
    match header
    case "id" => item.id
    case "sku" => item.sku
    case "name" => item.name
    case "category" => item.category.Label()
    case "quantity" => if item.quantity == 0.0 then "" else show(item.quantity)
    case "unit" => UnitLabel(item.unit)
    case "cost" => if item.cost == 0.0 then "" else show(item.cost)
    case "supplierId" => item.supplierId
    case "reorderLevel" => if item.reorderLevel == 0.0 then "" else show(item.reorderLevel)
    case "color" => (match item.color case None => "" case Some(c) => c)
    case "dimensions" => (match item.dimensions case None => "" case Some(d) => d)
    case _ => ""
  }

  /** The quoted cells of a row under `headers`. */
  function QuotedCells(item: InventoryItem, headers: seq<string>, show: real -> string): (r: seq<string>)
    ensures |r| == |headers|
  {
    seq(|headers|, k requires 0 <= k < |headers| => Quoted(CellText(item, headers[k], show)))
  }

  /** One `\n`-terminated line of the CSV. */
  function RowLine(item: InventoryItem, headers: seq<string>, show: real -> string): string {
    Text.Join(QuotedCells(item, headers, show), ",") + "\n"
  }

  /** The text `getCSV` builds: the header line, then one line per row. */
  function CsvText(rows: seq<InventoryItem>, headers: seq<string>, show: real -> string): string
    decreases |rows|
  {
    if rows == [] then Text.Join(headers, ",") + "\n"
    else CsvText(rows[..|rows| - 1], headers, show) + RowLine(rows[|rows| - 1], headers, show)
  }

  /** `getCSV`: write the header line, then append each row's line. */
  method GetCsv(rows: seq<InventoryItem>, headers: seq<string>, show: real -> string) returns (csv: string)
    ensures csv == CsvText(rows, headers, show)
    ensures csv == Text.Join(headers, ",") + "\n" + RowsText(rows, headers, show)
  {
    csv := Text.Join(headers, ",") + "\n";
    var i := 0;
    while i < |rows|
      invariant 0 <= i <= |rows|
      invariant csv == CsvText(rows[..i], headers, show)
    {
      assert rows[..i + 1][..i] == rows[..i];
      csv := csv + RowLine(rows[i], headers, show);
      i := i + 1;
    }
    assert rows[..i] == rows;
    CsvTextLayout(rows, headers, show);
  }

  /** The row lines, in row order. */
  function RowsText(rows: seq<InventoryItem>, headers: seq<string>, show: real -> string): string
    decreases |rows|
  {
    if rows == [] then "" else RowLine(rows[0], headers, show) + RowsText(rows[1..], headers, show)
  }

  lemma {:induction false} RowsTextAppend(rows: seq<InventoryItem>, x: InventoryItem, headers: seq<string>, show: real -> string)
    ensures RowsText(rows + [x], headers, show) == RowsText(rows, headers, show) + RowLine(x, headers, show)
    decreases |rows|
  {
    if rows == [] {
      assert RowsText([x], headers, show) == RowLine(x, headers, show) + RowsText([], headers, show);
    } else {
      assert (rows + [x])[1..] == rows[1..] + [x];
      RowsTextAppend(rows[1..], x, headers, show);
    }
  }

  /** The CSV is the header line followed by every row's line, first row
      first. */
  lemma {:induction false} CsvTextLayout(rows: seq<InventoryItem>, headers: seq<string>, show: real -> string)
    ensures CsvText(rows, headers, show) == Text.Join(headers, ",") + "\n" + RowsText(rows, headers, show)
    decreases |rows|
  {
    if rows != [] {
      var p, x := rows[..|rows| - 1], rows[|rows| - 1];
      CsvTextLayout(p, headers, show);
      assert p + [x] == rows;
      RowsTextAppend(p, x, headers, show);
      assert CsvText(rows, headers, show) == CsvText(p, headers, show) + RowLine(x, headers, show);
      ConcatAssoc(Text.Join(headers, ",") + "\n", RowsText(p, headers, show), RowLine(x, headers, show));
    }
  }

  lemma ConcatAssoc(a: string, b: string, c: string)
    ensures (a + b) + c == a + (b + c)
  {
  }

  // ---------------------------------------------------------------- sections

  /** The options of the dialog, all on when it opens. */
  datatype Options = Options(analytics: bool, profiles: bool, hardware: bool, glass: bool, consumables: bool)

  datatype OptionName = Analytics | Profiles | HardwareOption | GlassOption | Consumables

  datatype Mode = Combined | Separate

  datatype Format = Pdf | CsvFormat

  /** One row of the export table: the category it exports, the file name and
      the columns. */
  datatype Section = Section(category: InventoryCategory, fileName: string, headers: seq<string>)

  /** The four CSV sections, in the order they are considered. */
  const Sections: seq<Section> := [
    Section(Profile, "Profiles", ["sku", "name", "color", "quantity", "cost", "reorderLevel"]),
    Section(Hardware, "Hardware", ["sku", "name", "quantity", "cost", "reorderLevel"]),
    Section(Glass, "Glass", ["sku", "name", "dimensions", "quantity", "cost", "reorderLevel"]),
    Section(Consumable, "Consumables", ["sku", "name", "quantity", "cost", "reorderLevel"])
  ]

  /** The option that switches a category's section on. */
  function Enabled(options: Options, category: InventoryCategory): bool {
    match category
    case Profile => options.profiles
    case Hardware => options.hardware
    case Glass => options.glass
    case Consumable => options.consumables
  }

  predicate NoneSelected(options: Options) {
    !options.analytics && !options.profiles && !options.hardware && !options.glass && !options.consumables
  }

  /** The items of one category, in inventory order. */
  function OfCategory(inventory: seq<InventoryItem>, category: InventoryCategory): (r: seq<InventoryItem>)
    ensures forall x :: x in r <==> x in inventory && x.category == category
    decreases |inventory|
  {
    if inventory == [] then []
    else
      var p := inventory[..|inventory| - 1];
      var x := inventory[|inventory| - 1];
      assert inventory == p + [x];
      OfCategory(p, category) + (if x.category == category then [x] else [])
  }

  /** Whether a section is written: it is enabled and its category has items. */
  predicate Emits(options: Options, inventory: seq<InventoryItem>, sec: Section) {
    Enabled(options, sec.category) && OfCategory(inventory, sec.category) != []
  }

  /** The sections that are written, in table order. */
  function Emitted(secs: seq<Section>, options: Options, inventory: seq<InventoryItem>): (r: seq<Section>)
    ensures forall s :: s in r <==> s in secs && Emits(options, inventory, s)
    decreases |secs|
  {
    if secs == [] then []
    else
      var p := secs[..|secs| - 1];
      var s := secs[|secs| - 1];
      assert secs == p + [s];
      Emitted(p, options, inventory) + (if Emits(options, inventory, s) then [s] else [])
  }

  /** Sections that are all written come out unchanged. */
  lemma {:induction false} EmittedAll(secs: seq<Section>, options: Options, inventory: seq<InventoryItem>)
    requires forall k :: 0 <= k < |secs| ==> Emits(options, inventory, secs[k])
    ensures Emitted(secs, options, inventory) == secs
    decreases |secs|
  {
    if secs != [] {
      var p := secs[..|secs| - 1];
      EmittedAll(p, options, inventory);
      assert p + [secs[|secs| - 1]] == secs;
    }
  }

  /** With every category enabled and stocked, all four sections are written
      in table order. */
  lemma AllSectionsEmitted(options: Options, inventory: seq<InventoryItem>)
    requires options.profiles && options.hardware && options.glass && options.consumables
    requires forall c: InventoryCategory :: OfCategory(inventory, c) != []
    ensures Emitted(Sections, options, inventory) == Sections
  {
    forall k | 0 <= k < |Sections|
      ensures Emits(options, inventory, Sections[k])
    {
      assert Enabled(options, Sections[k].category);
    }
    EmittedAll(Sections, options, inventory);
  }

  /** The CSV of one section. */
  function SectionCsv(sec: Section, inventory: seq<InventoryItem>, show: real -> string): string {
    CsvText(OfCategory(inventory, sec.category), sec.headers, show)
  }

  /** A section of the combined file: a `--- NAME ---` line, then its CSV. */
  function Part(sec: Section, inventory: seq<InventoryItem>, show: real -> string): string {
    "--- " + Text.Upper(sec.fileName) + " ---\n" + SectionCsv(sec, inventory, show)
  }

  function Parts(secs: seq<Section>, inventory: seq<InventoryItem>, show: real -> string): (r: seq<string>)
    ensures |r| == |secs|
  {
    seq(|secs|, k requires 0 <= k < |secs| => Part(secs[k], inventory, show))
  }

  lemma PartsAppend(secs: seq<Section>, sec: Section, inventory: seq<InventoryItem>, show: real -> string)
    ensures Parts(secs + [sec], inventory, show) == Parts(secs, inventory, show) + [Part(sec, inventory, show)]
  {
  }

  /** A file of the separate export: `<name>_<date>.csv` and its CSV. */
  function FileOf(sec: Section, inventory: seq<InventoryItem>, today: string, show: real -> string): (string, string) {
    (sec.fileName + "_" + today + ".csv", SectionCsv(sec, inventory, show))
  }

  function Files(secs: seq<Section>, inventory: seq<InventoryItem>, today: string, show: real -> string): (r: seq<(string, string)>)
    ensures |r| == |secs|
  {
    seq(|secs|, k requires 0 <= k < |secs| => FileOf(secs[k], inventory, today, show))
  }

  lemma FilesAppend(secs: seq<Section>, sec: Section, inventory: seq<InventoryItem>, today: string, show: real -> string)
    ensures Files(secs + [sec], inventory, today, show) == Files(secs, inventory, today, show) + [FileOf(sec, inventory, today, show)]
  {
  }

  /** What is saved: nothing, one combined CSV, a zip of CSVs, or the PDF
      report (whose layout is not part of this model). */
  datatype Export =
    | NoExport
    | CombinedFile(name: string, content: string)
    | Archive(name: string, files: seq<(string, string)>)
    | PdfReport(name: string)

  const NothingSelected := "Please select at least one section to export."
  const NoData := "No data to export for selected sections."

  /** The export dialog's state. */
  class ExportDialog {
    var options: Options
    var mode: Mode

    constructor ()
      ensures options == Options(true, true, true, true, true) && mode == Combined
    {
      options, mode := Options(true, true, true, true, true), Combined;
    }

    /** `handleCheckboxChange`: set the named option only. */
    method SetOption(name: OptionName, checked: bool)
      modifies this
      ensures mode == old(mode)
      ensures options == match name
        case Analytics => old(options).(analytics := checked)
        case Profiles => old(options).(profiles := checked)
        case HardwareOption => old(options).(hardware := checked)
        case GlassOption => old(options).(glass := checked)
        case Consumables => old(options).(consumables := checked)
    {
      match name {
        case Analytics => options := options.(analytics := checked);
        case Profiles => options := options.(profiles := checked);
        case HardwareOption => options := options.(hardware := checked);
        case GlassOption => options := options.(glass := checked);
        case Consumables => options := options.(consumables := checked);
      }
    }

    method SetMode(m: Mode)
      modifies this
      ensures mode == m && options == old(options)
    {
      mode := m;
    }

    /** The CSV branch's walk over the four sections: each enabled section
        with items is written, as a part of the combined file or as a file
        of its own depending on the mode. */
    method WriteSections(secs: seq<Section>, inventory: seq<InventoryItem>, today: string, show: real -> string)
      returns (hasFiles: bool, parts: seq<string>, files: seq<(string, string)>)
      ensures hasFiles <==> Emitted(secs, options, inventory) != []
      ensures mode == Combined ==> parts == Parts(Emitted(secs, options, inventory), inventory, show)
      ensures mode == Separate ==> files == Files(Emitted(secs, options, inventory), inventory, today, show)
    {
      hasFiles, parts, files := false, [], [];
      ghost var emitted: seq<Section> := [];
      var i := 0;
      while i < |secs|
        invariant 0 <= i <= |secs|
        invariant emitted == Emitted(secs[..i], options, inventory)
        invariant hasFiles <==> emitted != []
        invariant mode == Combined ==> parts == Parts(emitted, inventory, show)
        invariant mode == Separate ==> files == Files(emitted, inventory, today, show)
      {
        var sec := secs[i];
        assert secs[..i + 1] == secs[..i] + [sec];
        if Enabled(options, sec.category) {
          var items := OfCategory(inventory, sec.category);
          if |items| > 0 {
            hasFiles := true;
            var csv := GetCsv(items, sec.headers, show);
            if mode == Separate {
              files := files + [(sec.fileName + "_" + today + ".csv", csv)];
            } else {
              parts := parts + ["--- " + Text.Upper(sec.fileName) + " ---\n" + csv];
            }
            PartsAppend(emitted, sec, inventory, show);
            FilesAppend(emitted, sec, inventory, today, show);
            emitted := emitted + [sec];
          }
        }
        i := i + 1;
      }
      assert secs[..i] == secs;
    }

    /** `handleGenerate`: the toasts it shows, what it saves, and whether it
        closes the dialog. With nothing selected it refuses and stays open;
        a CSV export walks the four sections, writes the enabled ones that
        have items, and saves nothing when none does. */
    method Generate(format: Format, inventory: seq<InventoryItem>, today: string, show: real -> string)
      returns (notices: seq<Notice>, saved: Export, closes: bool)
      ensures NoneSelected(options) ==> notices == [Notice(NothingSelected, Error)] && saved == NoExport && !closes
      ensures !NoneSelected(options) ==> closes && |notices| == 2 && notices[0] == Notice("Generating export...", Info)
      ensures !NoneSelected(options) && format == Pdf ==>
        saved == PdfReport("UPVC-Pro-Report-" + today + ".pdf") && notices[1] == Notice("Export generated successfully!", Success)
      ensures (!NoneSelected(options) && format == CsvFormat
        && Emitted(Sections, options, inventory) == []) ==>
        saved == NoExport && notices[1] == Notice(NoData, Info)
      ensures (!NoneSelected(options) && format == CsvFormat && mode == Combined
        && Emitted(Sections, options, inventory) != []) ==>
        notices[1] == Notice("Export generated successfully!", Success)
        && saved == CombinedFile("UPVC_Pro_Combined_Data_" + today + ".csv",
                                  Text.Join(Parts(Emitted(Sections, options, inventory), inventory, show), "\n"))
      ensures (!NoneSelected(options) && format == CsvFormat && mode == Separate
        && Emitted(Sections, options, inventory) != []) ==>
        notices[1] == Notice("Export generated successfully!", Success)
        && saved == Archive("UPVC_Pro_CSV_Export_" + today + ".zip",
                             Files(Emitted(Sections, options, inventory), inventory, today, show))
    {
      if NoneSelected(options) {
        return [Notice(NothingSelected, Error)], NoExport, false;
      }
      notices := [Notice("Generating export...", Info)];
      closes := true;
      if format == Pdf {
        saved := PdfReport("UPVC-Pro-Report-" + today + ".pdf");
        notices := notices + [Notice("Export generated successfully!", Success)];
        return;
      }
      var hasFiles, parts, files := WriteSections(Sections, inventory, today, show);
      if !hasFiles {
        saved := NoExport;
        notices := notices + [Notice(NoData, Info)];
        return;
      }
      if mode == Separate {
        saved := Archive("UPVC_Pro_CSV_Export_" + today + ".zip", files);
      } else {
        saved := CombinedFile("UPVC_Pro_Combined_Data_" + today + ".csv", Text.Join(parts, "\n"));
      }
      notices := notices + [Notice("Export generated successfully!", Success)];
    }
  }
}
