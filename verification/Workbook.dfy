// The workbook around a worksheet: the XML text the generator writes, the archive it goes into, and the importer's limits
// on both.
module Workbook {
  import opened Wrappers
  import opened PyStrings
  import opened Spreadsheet

  const MAX_SOURCE_BYTES := 20 * 1024 * 1024
  const MAX_XLSX_UNCOMPRESSED_BYTES := 50 * 1024 * 1024

  // ---------------------------------------------------------------- the worksheet's text

  function EscapedChar(c: char): string {
    match c
    case '&' => "&amp;"
    case '<' => "&lt;"
    case '>' => "&gt;"
    case '"' => "&quot;"
    case _ => [c]
  }

  /** `escape(text, {'"': "&quot;"})`. */
  function Escaped(s: string): string {
    if s == "" then "" else Escaped(s[..|s| - 1]) + EscapedChar(s[|s| - 1])
  }

  function CellXml(row: nat, column: nat, value: string): string {
    "<c r=\"" + NameOf(column + 1) + DecimalText(row + 1) + "\" t=\"inlineStr\"" + (if row == 0 then " s=\"1\"" else "")
    + "><is><t xml:space=\"preserve\">" + Escaped(Written(value)) + "</t></is></c>"
  }

  /** The first `n` cells of a row. */
  function CellsXml(row: nat, values: seq<string>, n: nat): string
    requires n <= |values|
  {
    if n == 0 then "" else CellsXml(row, values, n - 1) + CellXml(row, n - 1, values[n - 1])
  }

  function RowXml(row: nat, values: seq<string>): string {
    "<row r=\"" + DecimalText(row + 1) + "\">" + CellsXml(row, values, |values|) + "</row>"
  }

  function RowsXml(table: Table, n: nat): string
    requires n <= |table|
  {
    if n == 0 then "" else RowsXml(table, n - 1) + RowXml(n - 1, table[n - 1])
  }

  function Width(header: string): nat {
    if |header| + 2 < 14 then 14 else if |header| + 2 > 42 then 42 else |header| + 2
  }

  function ColXml(index: nat, header: string): string {
    "<col min=\"" + DecimalText(index) + "\" max=\"" + DecimalText(index) + "\" width=\"" + DecimalText(Width(header))
    + "\" customWidth=\"1\"/>"
  }

  function ColsXml(headers: seq<string>, n: nat): string
    requires n <= |headers|
  {
    if n == 0 then "" else ColsXml(headers, n - 1) + ColXml(n, headers[n - 1])
  }

  const SHEET_HEAD :=
    "<?xml version=\"1.0\" encoding=\"UTF-8\" standalone=\"yes\"?>"
    + "<worksheet xmlns=\"http://schemas.openxmlformats.org/spreadsheetml/2006/main\">"
    + "<sheetViews><sheetView workbookViewId=\"0\">"
    + "<pane ySplit=\"1\" topLeftCell=\"A2\" activePane=\"bottomLeft\" state=\"frozen\"/>"
    + "</sheetView></sheetViews><sheetFormatPr defaultRowHeight=\"15\"/><cols>"

  /** The text of the worksheet for a header row and its data rows. */
  function SheetText(headers: seq<string>, rows: Table): string {
    var all := [headers] + rows;
    SHEET_HEAD + ColsXml(headers, |headers|) + "</cols><sheetData>" + RowsXml(all, |all|)
    + "</sheetData><autoFilter ref=\"A1:" + NameOf(|headers|) + DecimalText(|all|) + "\"/></worksheet>"
  }

  method Escape(text: string) returns (rendered: string)
    ensures rendered == Escaped(text)
  {
    rendered := "";
    assert text[..0] == "";
    for k := 0 to |text|
      invariant rendered == Escaped(text[..k])
    {
      assert text[..k + 1][..k] == text[..k];
      rendered := rendered + EscapedChar(text[k]);
    }
    assert text[..|text|] == text;
  }

  /** `_sheet_xml`: the text, and the cells a parser finds in it before it normalizes line ends. */
  method SheetXml(headers: seq<string>, rows: Table) returns (text: string, sheet: seq<seq<Cell>>)
    ensures text == SheetText(headers, rows)
    ensures sheet == WrittenSheet([headers] + rows)
  {
    hide NameOf, DecimalText, Written, Escaped, CellXml, RowXml, ColXml, SheetText, WrittenCell;
    var allRows := [headers] + rows;
    sheet := [];
    var rowXml := "";
    for rowIndex := 0 to |allRows|
      invariant sheet == WrittenSheet(allRows)[..rowIndex]
      invariant rowXml == RowsXml(allRows, rowIndex)
    {
      var row := allRows[rowIndex];
      var cellsXml, cells := SheetRow(rowIndex, row);
      rowXml := rowXml + ("<row r=\"" + DecimalText(rowIndex + 1) + "\">" + cellsXml + "</row>");
      RowIs(rowIndex, row);
      sheet := sheet + [cells];
    }
    var widths := "";
    for index := 0 to |headers|
      invariant widths == ColsXml(headers, index)
    {
      widths := widths + ColXml(index + 1, headers[index]);
    }
    var finalColumn := ColumnName(|headers|);
    text := SHEET_HEAD + widths + "</cols><sheetData>" + rowXml + "</sheetData><autoFilter ref=\"A1:" + finalColumn
            + DecimalText(|allRows|) + "\"/></worksheet>";
    SheetTextIs(headers, rows);
  }

  lemma RowIs(row: nat, values: seq<string>)
    ensures RowXml(row, values) == "<row r=\"" + DecimalText(row + 1) + "\">" + CellsXml(row, values, |values|) + "</row>"
  {
  }

  lemma SheetTextIs(headers: seq<string>, rows: Table)
    ensures var all := [headers] + rows;
            SheetText(headers, rows)
            == SHEET_HEAD + ColsXml(headers, |headers|) + "</cols><sheetData>" + RowsXml(all, |all|)
               + "</sheetData><autoFilter ref=\"A1:" + NameOf(|headers|) + DecimalText(|all|) + "\"/></worksheet>"
  {
  }

  /** The loop over the cells of one row. */
  method SheetRow(rowIndex: nat, row: seq<string>) returns (text: string, cells: seq<Cell>)
    ensures text == CellsXml(rowIndex, row, |row|)
    ensures cells == WrittenRow(rowIndex, row)
  {
    hide NameOf, DecimalText, Written, Escaped, CellXml;
    text, cells := "", [];
    for columnIndex := 0 to |row|
      invariant text == CellsXml(rowIndex, row, columnIndex)
      invariant cells == WrittenRow(rowIndex, row)[..columnIndex]
    {
      var name := ColumnName(columnIndex + 1);
      var kept := KeptCharacters(row[columnIndex]);
      var rendered := Escape(kept);
      CellIs(rowIndex, columnIndex, row[columnIndex]);
      text := text + ("<c r=\"" + name + DecimalText(rowIndex + 1) + "\" t=\"inlineStr\""
                      + (if rowIndex == 0 then " s=\"1\"" else "") + "><is><t xml:space=\"preserve\">" + rendered
                      + "</t></is></c>");
      cells := cells + [Cell(Some(name + DecimalText(rowIndex + 1)), false, InlineString(kept))];
    }
  }

  lemma CellIs(row: nat, column: nat, value: string)
    ensures CellXml(row, column, value)
         == "<c r=\"" + NameOf(column + 1) + DecimalText(row + 1) + "\" t=\"inlineStr\""
            + (if row == 0 then " s=\"1\"" else "") + "><is><t xml:space=\"preserve\">" + Escaped(Written(value))
            + "</t></is></c>"
  {
  }

  // ---------------------------------------------------------------- the archive

  /** Bytes of a character in UTF-8 (section 3 of RFC 3629). */
  function CharBytes(c: char): nat {
    if c < '\U{80}' then 1 else if c < '\U{800}' then 2 else if c < '\U{10000}' then 3 else 4
  }

  function Bytes(s: string): nat {
    if s == "" then 0 else Bytes(s[..|s| - 1]) + CharBytes(s[|s| - 1])
  }

  /** An entry of a zip directory. */
  datatype Member = Member(name: string, size: nat)

  /** `lower`, as far as the two tests can tell: the Kelvin sign is the only other character that becomes one of theirs. */
  function Lowered(s: string): string {
    seq(|s|, i requires 0 <= i < |s| =>
      if 'A' <= s[i] <= 'Z' then (s[i] as int + 32) as char else if s[i] == '\U{212a}' then 'k' else s[i])
  }

  predicate Occurs(part: string, s: string) {
    exists i :: 0 <= i <= |s| && part <= s[i..]
  }

  /** A path component that leads upwards. */
  predicate Climbs(name: string) {
    exists i :: 0 <= i <= |name| - 2 && name[i] == '.' && name[i + 1] == '.'
                && (i == 0 || name[i - 1] == '/') && (i + 2 == |name| || name[i + 2] == '/')
  }

  predicate SafeName(name: string) {
    && !(name != "" && name[0] == '/') && !Climbs(name)
    && !Occurs("vbaproject", Lowered(name)) && !StartsWith(Lowered(name), "xl/externallinks/")
  }

  function Total(members: seq<Member>): nat {
    if members == [] then 0 else Total(members[..|members| - 1]) + members[|members| - 1].size
  }

  /** `_safe_zip_members`: names as they come, the size at the end. */
  function ArchiveProblem(members: seq<Member>): Option<ImportError> {
    if exists i :: 0 <= i < |members| && !SafeName(members[i].name) then Some(UnsafeArchive)
    else if Total(members) > MAX_XLSX_UNCOMPRESSED_BYTES then Some(TooLarge)
    else None
  }

  method SafeZipMembers(members: seq<Member>) returns (r: Option<ImportError>)
    ensures r == ArchiveProblem(members)
  {
    hide SafeName;
    var total := 0;
    assert members[..0] == [];
    for i := 0 to |members|
      invariant forall k :: 0 <= k < i ==> SafeName(members[k].name)
      invariant total == Total(members[..i])
    {
      assert members[..i + 1][..i] == members[..i];
      if !SafeName(members[i].name) {
        return Some(UnsafeArchive);
      }
      total := total + members[i].size;
    }
    assert members[..|members|] == members;
    return if total > MAX_XLSX_UNCOMPRESSED_BYTES then Some(TooLarge) else None;
  }

  /** A workbook file as the importer meets it: its size, its directory, and the parsed cells of the selected worksheet. */
  datatype File = File(bytes: nat, members: seq<Member>, sheet: Option<seq<seq<Cell>>>, shared: seq<string>)

  function TableIn(file: File): Result<Table, ImportError> {
    if ArchiveProblem(file.members).Some? then Err(ArchiveProblem(file.members).value)
    else if file.sheet.None? then Err(MalformedXml)
    else ReadTable(file.sheet.value, file.shared)
  }

  /** `_read_xlsx_table`. */
  method ReadXlsxTable(file: File) returns (r: Result<Table, ImportError>)
    ensures r == TableIn(file)
  {
    hide ArchiveProblem, ReadTable;
    var problem := SafeZipMembers(file.members);
    if problem.Some? {
      return Err(problem.value);
    }
    if file.sheet.None? {
      return Err(MalformedXml);
    }
    r := ReadSheet(file.sheet.value, file.shared);
  }

  /** Reading the file, with the limit on its own size. */
  function Imported(file: File): Result<Table, ImportError> {
    if 0 < file.bytes <= MAX_SOURCE_BYTES then TableIn(file) else Err(TooLarge)
  }

  // ---------------------------------------------------------------- what the writer puts into it

  const FIXED_NAMES := [
    "[Content_Types].xml", "_rels/.rels", "xl/workbook.xml", "xl/_rels/workbook.xml.rels", "xl/styles.xml"]

  datatype Sheet = Sheet(headers: seq<string>, rows: Table)

  function TableOf(s: Sheet): Table { [s.headers] + s.rows }

  function SheetName(index: nat): string { "xl/worksheets/sheet" + DecimalText(index) + ".xml" }

  function FixedMembers(sizes: seq<nat>): seq<Member>
    requires |sizes| == |FIXED_NAMES|
  {
    seq(|sizes|, i requires 0 <= i < |sizes| => Member(FIXED_NAMES[i], sizes[i]))
  }

  function SheetMembers(sheets: seq<Sheet>): seq<Member> {
    seq(|sheets|, i requires 0 <= i < |sheets| =>
      Member(SheetName(i + 1), Bytes(SheetText(sheets[i].headers, sheets[i].rows))))
  }

  function Members(fixed: seq<nat>, sheets: seq<Sheet>): seq<Member>
    requires |fixed| == |FIXED_NAMES|
  {
    FixedMembers(fixed) + SheetMembers(sheets)
  }

  /**
   * The file that `write_xlsx` leaves for some sheets, with sheet `k` selected: `fixed` are the sizes of the five parts
   * around the sheets, `bytes` is what compression makes of it all.
   */
  ghost function WrittenFile(bytes: nat, fixed: seq<nat>, sheets: seq<Sheet>, k: nat): File
    requires |fixed| == |FIXED_NAMES| && k < |sheets|
  {
    File(bytes, Members(fixed, sheets), Parsed(WrittenSheet(TableOf(sheets[k]))), [])
  }

  predicate HasNoV(name: string) { forall i :: 0 <= i < |name| ==> name[i] != 'v' && name[i] != 'V' }

  predicate DotsApart(name: string) {
    forall i :: 0 <= i < |name| - 1 ==> name[i] != '.' || name[i + 1] != '.'
  }

  lemma PlainNameIsSafe(name: string)
    requires HasNoV(name) && DotsApart(name) && |name| > 3
    requires name[0] != '/' && name[3] != 'e' && name[3] != 'E'
    ensures SafeName(name)
  {
    assert "vbaproject"[0] == 'v' && "xl/externallinks/"[3] == 'e';
  }

  lemma FixedNameIsPlain(i: nat)
    requires i < |FIXED_NAMES|
    ensures SafeName(FIXED_NAMES[i])
  {
    hide SafeName;
    RelationshipsAreSafe();
    PartsAreSafe();
  }

  lemma RelationshipsAreSafe()
    ensures SafeName("_rels/.rels") && SafeName("xl/_rels/workbook.xml.rels")
  {
    hide SafeName;
    PlainNameIsSafe("_rels/.rels");
    PlainNameIsSafe("xl/_rels/workbook.xml.rels");
  }

  lemma PartsAreSafe()
    ensures SafeName("[Content_Types].xml") && SafeName("xl/workbook.xml") && SafeName("xl/styles.xml")
  {
    hide SafeName;
    PlainNameIsSafe("[Content_Types].xml");
    PlainNameIsSafe("xl/workbook.xml");
    PlainNameIsSafe("xl/styles.xml");
  }

  lemma SheetNameIsPlain(index: nat)
    ensures SafeName(SheetName(index))
  {
    hide SafeName, DecimalText;
    var name, digits := SheetName(index), DecimalText(index);
    assert forall i :: 0 <= i < |digits| ==> Digit(digits[i]);
    PlainNameIsSafe(name);
  }

  lemma WriterNamesAreSafe(fixed: seq<nat>, sheets: seq<Sheet>)
    requires |fixed| == |FIXED_NAMES|
    ensures forall i :: 0 <= i < |Members(fixed, sheets)| ==> SafeName(Members(fixed, sheets)[i].name)
  {
    hide SafeName, SheetName, SheetText, Bytes;
    var members := Members(fixed, sheets);
    forall i | 0 <= i < |members| ensures SafeName(members[i].name) {
      if i < |fixed| {
        FixedNameIsPlain(i);
      } else {
        SheetNameIsPlain(i - |fixed| + 1);
      }
    }
  }

  // ---------------------------------------------------------------- the round trip

  /**
   * Writing a workbook and importing one of its sheets returns the sheet's table if and only if the table is
   * representable, the compressed file is within the limit on sources, and all parts together are within the limit on
   * uncompressed content.
   */
  lemma WorkbookRoundTrip(bytes: nat, fixed: seq<nat>, sheets: seq<Sheet>, k: nat)
    requires |fixed| == |FIXED_NAMES| && k < |sheets|
    ensures Imported(WrittenFile(bytes, fixed, sheets, k)) == Ok(TableOf(sheets[k]))
            <==> && Representable(TableOf(sheets[k]))
                 && 0 < bytes <= MAX_SOURCE_BYTES
                 && Total(Members(fixed, sheets)) <= MAX_XLSX_UNCOMPRESSED_BYTES
  {
    hide SafeName, Total, Members, Parsed, ReadTable, Representable, WrittenSheet;
    WriterNamesAreSafe(fixed, sheets);
    SheetRoundTrip(TableOf(sheets[k]));
  }

  /** A carriage return is kept by the writer and lost by the XML parser. */
  lemma CarriageReturnIsLost(bytes: nat, fixed: seq<nat>)
    requires |fixed| == |FIXED_NAMES|
    ensures Imported(WrittenFile(bytes, fixed, [Sheet(["h"], [["a\rb"]])], 0)) != Ok([["h"], ["a\rb"]])
  {
    hide Imported, WrittenFile, Members, Total;
    var sheet := Sheet(["h"], [["a\rb"]]);
    var table := TableOf(sheet);
    assert table == [["h"], ["a\rb"]];
    assert table[1][0][1] == '\r' && '\r' in table[1][0];
    assert !CleanText(table[1][0]);
    WorkbookRoundTrip(bytes, fixed, [sheet], 0);
  }

  // ---------------------------------------------------------------- tables that are too large

  lemma {:induction false} BytesCover(s: string)
    ensures Bytes(s) >= |s|
  {
    if s != "" {
      BytesCover(s[..|s| - 1]);
    }
  }

  lemma {:induction false} EscapedCovers(s: string)
    ensures |Escaped(s)| >= |s|
  {
    if s != "" {
      EscapedCovers(s[..|s| - 1]);
    }
  }

  lemma CellCovers(row: nat, column: nat, value: string)
    ensures |CellXml(row, column, value)| >= 40 + |Written(value)|
  {
    hide NameOf, DecimalText, Written, Escaped;
    EscapedCovers(Written(value));
    var text := Escaped(Written(value));
    assert |"><is><t xml:space=\"preserve\">"| == 29 && |"</t></is></c>"| == 13;
  }

  /** Characters of the first `n` cells as they are written. */
  function Kept(values: seq<string>, n: nat): nat
    requires n <= |values|
  {
    if n == 0 then 0 else Kept(values, n - 1) + 40 + |Written(values[n - 1])|
  }

  lemma {:induction false} CellsCover(row: nat, values: seq<string>, n: nat)
    requires n <= |values|
    ensures |CellsXml(row, values, n)| >= Kept(values, n) >= 40 * n
    ensures n > 0 ==> Kept(values, n) >= |Written(values[n - 1])|
  {
    hide CellXml, Written;
    if n > 0 {
      CellsCover(row, values, n - 1);
      CellCovers(row, n - 1, values[n - 1]);
    }
  }

  /** Cells of the first `n` rows. */
  function Cells(table: Table, n: nat): nat
    requires n <= |table|
  {
    if n == 0 then 0 else Cells(table, n - 1) + |table[n - 1]|
  }

  lemma {:induction false} RowsCover(table: Table, n: nat)
    requires n <= |table|
    ensures |RowsXml(table, n)| >= 40 * Cells(table, n)
    ensures n > 0 && table[n - 1] != [] ==> |RowsXml(table, n)| >= |Written(table[n - 1][|table[n - 1]| - 1])|
  {
    hide CellsXml, Written, DecimalText;
    if n > 0 {
      RowsCover(table, n - 1);
      CellsCover(n - 1, table[n - 1], |table[n - 1]|);
      RowCovers(n - 1, table[n - 1]);
    }
  }

  lemma RowCovers(row: nat, values: seq<string>)
    ensures |RowXml(row, values)| >= |CellsXml(row, values, |values|)|
  {
    hide CellsXml, DecimalText;
  }

  lemma SheetCovers(headers: seq<string>, rows: Table)
    ensures var all := [headers] + rows; Bytes(SheetText(headers, rows)) >= |RowsXml(all, |all|)|
  {
    hide RowsXml, ColsXml, NameOf, DecimalText;
    BytesCover(SheetText(headers, rows));
  }

  lemma OnlySheetTotal(fixed: seq<nat>, sheet: Sheet)
    requires |fixed| == |FIXED_NAMES|
    ensures Total(Members(fixed, [sheet])) >= Bytes(SheetText(sheet.headers, sheet.rows))
  {
    hide SheetText, Bytes, SheetName;
    var members := Members(fixed, [sheet]);
    assert members[|members| - 1] == Member(SheetName(1), Bytes(SheetText(sheet.headers, sheet.rows)));
  }

  lemma OneTextIsRepresentable(text: string)
    requires CleanText(text) && !FormulaLike(text)
    ensures Representable(TableOf(Sheet(["h"], [[text]])))
  {
    hide CleanText, FormulaLike;
    var table := TableOf(Sheet(["h"], [[text]]));
    assert table[0] == ["h"] && table[1] == [text] && |table| == 2;
    LettersAreClean("h");
  }

  /** One column and one data row: a text longer than fifty MiB is within every limit of the table, but not of the archive. */
  lemma LongTextIsRefused(text: string, bytes: nat, fixed: seq<nat>)
    requires |fixed| == |FIXED_NAMES|
    requires CleanText(text) && !FormulaLike(text) && |text| > MAX_XLSX_UNCOMPRESSED_BYTES
    ensures var sheet := Sheet(["h"], [[text]]);
            Representable(TableOf(sheet)) && Imported(WrittenFile(bytes, fixed, [sheet], 0)) != Ok(TableOf(sheet))
  {
    hide Imported, WrittenFile, Members, Total, Bytes, SheetText, RowsXml, Representable, FormulaLike, Written;
    var sheet := Sheet(["h"], [[text]]);
    var table := TableOf(sheet);
    assert table[1] == [text] && |table| == 2;
    OneTextIsRepresentable(text);
    CleanIsKept(text);
    RowsCover(table, 2);
    SheetCovers(sheet.headers, sheet.rows);
    OnlySheetTotal(fixed, sheet);
    WorkbookRoundTrip(bytes, fixed, [sheet], 0);
  }

  lemma CleanIsKept(text: string)
    requires CleanText(text)
    ensures Written(text) == text
  {
    WrittenFacts(text);
  }

  lemma LettersAreClean(s: string)
    requires s != "" && forall c :: c in s ==> 'a' <= c <= 'z'
    ensures CleanText(s) && !FormulaLike(s)
  {
    assert s[0] in s;
    assert LStrip(s) == s;
  }

  /** The largest table of empty cells that the row and column limits allow. */
  lemma ManyCellsAreRefused(bytes: nat, fixed: seq<nat>)
    requires |fixed| == |FIXED_NAMES|
    ensures var row := seq(MAX_COLUMNS, i => "");
            var sheet := Sheet(row, seq(MAX_ROWS, i => row));
            Representable(TableOf(sheet)) && Imported(WrittenFile(bytes, fixed, [sheet], 0)) != Ok(TableOf(sheet))
  {
    hide Imported, WrittenFile, Members, Total, Bytes, SheetText, RowsXml;
    var row := seq(MAX_COLUMNS, i => "");
    var sheet := Sheet(row, seq(MAX_ROWS, i => row));
    var table := TableOf(sheet);
    assert forall r :: 0 <= r < |table| ==> table[r] == row;
    CellCount(table, MAX_COLUMNS, |table|);
    RowsCover(table, |table|);
    SheetCovers(sheet.headers, sheet.rows);
    OnlySheetTotal(fixed, sheet);
    WorkbookRoundTrip(bytes, fixed, [sheet], 0);
  }

  lemma {:induction false} CellCount(table: Table, width: nat, n: nat)
    requires n <= |table| && forall r :: 0 <= r < |table| ==> |table[r]| == width
    ensures Cells(table, n) == n * width
  {
    if n > 0 {
      CellCount(table, width, n - 1);
      assert n * width == (n - 1) * width + width;
    }
  }
}
