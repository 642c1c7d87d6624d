// The workbook writer of the checklist generator against the workbook reader of the importer,
// at the level of cells: column names, cell references, cell text and rectangular tables.
module Spreadsheet {
  import opened Wrappers
  import opened PyStrings

  const MAX_ROWS := 10000
  const MAX_COLUMNS := 200

  // ---------------------------------------------------------------- column names

  function Letter(k: nat): char
    requires k < 26
  {
    (65 + k) as char
  }

  /** Bijective base 26, as in ST_CellRef (section 18.18.7 of ECMA-376 Part 1). */
  function NameOf(index: nat): string {
    if index == 0 then "" else NameOf((index - 1) / 26) + [Letter((index - 1) % 26)]
  }

  predicate Upper(s: string) {
    forall i :: 0 <= i < |s| ==> 'A' <= s[i] <= 'Z'
  }

  function IndexOf(name: string): nat
    requires Upper(name)
  {
    if name == "" then 0 else IndexOf(name[..|name| - 1]) * 26 + (name[|name| - 1] as int - 64)
  }

  method ColumnName(n: nat) returns (result: string)
    ensures result == NameOf(n)
  {
    var index := n;
    result := "";
    while index != 0
      invariant NameOf(index) + result == NameOf(n)
    {
      var remainder := (index - 1) % 26;
      index := (index - 1) / 26;
      assert NameOf(index) + ([Letter(remainder)] + result) == (NameOf(index) + [Letter(remainder)]) + result;
      result := [Letter(remainder)] + result;
    }
  }

  lemma {:induction false} NameThenIndex(index: nat)
    ensures Upper(NameOf(index)) && IndexOf(NameOf(index)) == index
    ensures NameOf(index) == "" <==> index == 0
  {
    if index != 0 {
      var quotient, remainder := (index - 1) / 26, (index - 1) % 26;
      NameThenIndex(quotient);
      IndexOfSnoc(NameOf(quotient), remainder);
      assert quotient * 26 + remainder == index - 1;
    }
  }

  lemma IndexOfSnoc(name: string, remainder: nat)
    requires Upper(name) && remainder < 26
    ensures Upper(name + [Letter(remainder)]) && IndexOf(name + [Letter(remainder)]) == IndexOf(name) * 26 + remainder + 1
  {
    var longer := name + [Letter(remainder)];
    assert longer[..|longer| - 1] == name;
  }

  lemma {:induction false} IndexThenName(name: string)
    requires Upper(name)
    ensures NameOf(IndexOf(name)) == name
  {
    if name != "" {
      var prefix, last := name[..|name| - 1], name[|name| - 1];
      IndexThenName(prefix);
      assert (IndexOf(name) - 1) / 26 == IndexOf(prefix);
      assert name == prefix + [last];
    }
  }

  // ---------------------------------------------------------------- cell references

  function LettersBefore(s: string): (n: nat)
    ensures n <= |s| && Upper(s[..n])
    ensures n < |s| ==> !('A' <= s[n] <= 'Z')
  {
    if s != [] && 'A' <= s[0] <= 'Z' then
      var n := LettersBefore(s[1..]);
      assert s[..n + 1] == [s[0]] + s[1..][..n];
      n + 1
    else 0
  }

  /** The letters of a reference accepted by the pattern ^([A-Z]+)[0-9]+$. */
  function ReferenceLetters(reference: string): (letters: Option<string>)
    ensures letters.Some? ==> Upper(letters.value) && letters.value != ""
  {
    // The dollar sign also matches just before a final line feed.
    var s := if EndsWith(reference, "\n") then reference[..|reference| - 1] else reference;
    var n := LettersBefore(s);
    if n > 0 && Digits(s[n..]) then Some(s[..n]) else None
  }

  datatype ImportError =
    | InvalidReference
    | TooManyColumns
    | TooManyRows
    | FormulaCell
    | FormulaLikeCell
    | MissingReference
    | InvalidSharedString
    | MalformedXml
    | NoDataRows
    | InconsistentColumns
    | UnsafeArchive
    | TooLarge

  function ColumnIndex(reference: string): Result<nat, ImportError> {
    match ReferenceLetters(reference)
    case None => Err(InvalidReference)
    case Some(letters) => if IndexOf(letters) > MAX_COLUMNS then Err(TooManyColumns) else Ok(IndexOf(letters))
  }

  method XlsxColumnIndex(reference: string) returns (r: Result<nat, ImportError>)
    ensures r == ColumnIndex(reference)
  {
    var letters := ReferenceLetters(reference);
    if letters == None {
      return Err(InvalidReference);
    }
    var name := letters.value;
    var result := 0;
    for i := 0 to |name|
      invariant result == IndexOf(name[..i])
    {
      assert name[..i + 1][..i] == name[..i];
      result := result * 26 + name[i] as int - 64;
    }
    assert name[..|name|] == name;
    if result > MAX_COLUMNS {
      return Err(TooManyColumns);
    }
    return Ok(result);
  }

  lemma {:induction false} LettersOf(letters: string, digits: string)
    requires Upper(letters) && Digits(digits)
    ensures LettersBefore(letters + digits) == |letters|
  {
    if letters == [] {
      assert letters + digits == digits;
      assert digits[0] in digits;
    } else {
      assert (letters + digits)[1..] == letters[1..] + digits;
      LettersOf(letters[1..], digits);
    }
  }

  /** The reader finds the writer's column in a reference; the cap applies afterwards. */
  lemma ReferenceRoundTrip(column: nat, row: nat)
    requires column > 0
    ensures ColumnIndex(NameOf(column) + DecimalText(row))
         == if column > MAX_COLUMNS then Err(TooManyColumns) else Ok(column)
  {
    var letters, digits := NameOf(column), DecimalText(row);
    var reference := letters + digits;
    NameThenIndex(column);
    LettersOf(letters, digits);
    assert digits[|digits| - 1] in digits;
    assert reference[|reference| - 1] == digits[|digits| - 1];
    assert reference[|reference| - 1..] == [digits[|digits| - 1]];
    assert !EndsWith(reference, "\n");
    assert reference[..|letters|] == letters && reference[|letters|..] == digits;
  }

  // ---------------------------------------------------------------- cell text

  datatype Content =
    | InlineString(text: string)
    | SharedString(index: Option<int>)  // None: the index text is not an integer
    | CellValue(node: Option<string>)

  datatype Cell = Cell(reference: Option<string>, formula: bool, content: Content)

  /** What the writer keeps of a cell value. */
  function Written(s: string): string {
    if s == [] then []
    else (if s[0] in "\t\n\r" || s[0] as int >= 32 then [s[0]] else []) + Written(s[1..])
  }

  /** The Char production of XML 1.0, section 2.2. */
  predicate XmlChar(c: char) {
    c in "\t\n\r" || (' ' <= c && c != '\U{fffe}' && c != '\U{ffff}')
  }

  /** End-of-line handling of XML 1.0, section 2.11. */
  function XmlLines(s: string): string {
    if s == [] then []
    else if s[0] == '\r' then
      ['\n'] + XmlLines(if |s| > 1 && s[1] == '\n' then s[2..] else s[1..])
    else [s[0]] + XmlLines(s[1..])
  }

  predicate FormulaLike(value: string) {
    var v := LStrip(value);
    v != [] && v[0] in "=+-@"
  }

  /** Text that survives being written to XML and parsed back. */
  predicate CleanText(s: string) {
    forall c :: c in s ==> XmlChar(c) && c != '\r'
  }

  lemma {:induction false} WrittenFacts(s: string)
    ensures |Written(s)| <= |s|
    ensures forall c :: c in Written(s) ==> c in s && (c in "\t\n\r" || c as int >= 32)
    ensures (forall c :: c in s ==> c in "\t\n\r" || c as int >= 32) ==> Written(s) == s
  {
    if s != [] {
      WrittenFacts(s[1..]);
      assert s == [s[0]] + s[1..];
    }
  }

  lemma {:induction false} XmlLinesFacts(s: string)
    ensures |XmlLines(s)| <= |s|
    ensures '\r' !in XmlLines(s)
    ensures '\r' !in s ==> XmlLines(s) == s
    ensures forall c :: c in XmlLines(s) ==> c in s || c == '\n'
    decreases |s|
  {
    if s != [] {
      XmlLinesFacts(s[1..]);
      assert s == [s[0]] + s[1..];
      if |s| > 1 {
        XmlLinesFacts(s[2..]);
      }
    }
  }

  lemma TextRoundTrip(s: string)
    ensures (forall c :: c in Written(s) ==> XmlChar(c)) && XmlLines(Written(s)) == s <==> CleanText(s)
  {
    WrittenFacts(s);
    XmlLinesFacts(Written(s));
  }

  // ---------------------------------------------------------------- writer

  type Table = seq<seq<string>>

  function WrittenCell(row: nat, column: nat, value: string): Cell {
    Cell(Some(NameOf(column + 1) + DecimalText(row + 1)), false, InlineString(Written(value)))
  }

  function WrittenRow(row: nat, values: seq<string>): seq<Cell> {
    seq(|values|, c requires 0 <= c < |values| => WrittenCell(row, c, values[c]))
  }

  function WrittenSheet(table: Table): seq<seq<Cell>> {
    seq(|table|, r requires 0 <= r < |table| => WrittenRow(r, table[r]))
  }

  method KeptCharacters(value: string) returns (text: string)
    ensures text == Written(value)
  {
    text := "";
    for k := 0 to |value|
      invariant text + Written(value[k..]) == Written(value)
    {
      var character := value[k];
      assert value[k..][1..] == value[k + 1..];
      if character in "\t\n\r" || character as int >= 32 {
        text := text + [character];
      }
    }
  }

  predicate LegalCell(cell: Cell) {
    cell.content.InlineString? ==> forall x :: x in cell.content.text ==> XmlChar(x)
  }

  /** The worksheet an XML parser reports: an illegal character makes the whole part malformed. */
  ghost function Parsed(sheet: seq<seq<Cell>>): Option<seq<seq<Cell>>> {
    if forall r, c :: 0 <= r < |sheet| && 0 <= c < |sheet[r]| ==> LegalCell(sheet[r][c])
    then Some(seq(|sheet|, r requires 0 <= r < |sheet| =>
                seq(|sheet[r]|, c requires 0 <= c < |sheet[r]| => ParsedCell(sheet[r][c]))))
    else None
  }

  function ParsedCell(cell: Cell): Cell {
    if cell.content.InlineString? then cell.(content := InlineString(XmlLines(cell.content.text))) else cell
  }

  // ---------------------------------------------------------------- reader

  /** `shared[int(value)]`, where Python also accepts an index counted from the end. */
  function Lookup(shared: seq<string>, index: int): Option<string> {
    if 0 <= index < |shared| then Some(shared[index])
    else if -|shared| <= index < 0 then Some(shared[|shared| + index])
    else None
  }

  function CellText(cell: Cell, shared: seq<string>): Result<string, ImportError> {
    match cell.content
    case InlineString(text) => Ok(text)
    case CellValue(node) => Ok(if node.Some? then node.value else "")
    case SharedString(index) =>
      if index.None? || Lookup(shared, index.value).None? then Err(InvalidSharedString)
      else Ok(Lookup(shared, index.value).value)
  }

  datatype Row = Row(values: map<nat, string>, width: nat)

  /** One pass of the cell loop: the row with this cell stored. */
  function StoreCell(row: Row, cell: Cell, shared: seq<string>): Result<Row, ImportError> {
    if cell.formula then Err(FormulaCell)
    else if cell.reference.None? || cell.reference.value == "" then Err(MissingReference)
    else match ColumnIndex(cell.reference.value)
      case Err(e) => Err(e)
      case Ok(index) =>
        match CellText(cell, shared)
        case Err(e) => Err(e)
        case Ok(value) =>
          if FormulaLike(value) then Err(FormulaLikeCell)
          else Ok(Row(row.values[index := value], if index > row.width then index else row.width))
  }

  function StoreCells(row: Row, cells: seq<Cell>, shared: seq<string>): Result<Row, ImportError>
    decreases cells
  {
    if cells == [] then Ok(row)
    else match StoreCell(row, cells[0], shared)
      case Err(e) => Err(e)
      case Ok(next) => StoreCells(next, cells[1..], shared)
  }

  function RowValues(row: Row): seq<string> {
    seq(row.width, i requires 0 <= i < row.width => if i + 1 in row.values then row.values[i + 1] else "")
  }

  function ReadRows(sheet: seq<seq<Cell>>, shared: seq<string>, rows: Table): Result<Table, ImportError>
    decreases sheet
  {
    if sheet == [] then Ok(rows)
    else if |rows| > MAX_ROWS then Err(TooManyRows)
    else match StoreCells(Row(map[], 0), sheet[0], shared)
      case Err(e) => Err(e)
      case Ok(row) =>
        ReadRows(sheet[1..], shared, if row.values == map[] then rows else rows + [RowValues(row)])
  }

  function Padded(row: seq<string>, width: nat): (p: seq<string>)
    ensures |p| == if |row| < width then width else |row|
  {
    if |row| < width then row + seq(width - |row|, i => "") else row
  }

  function PadRows(rows: Table, width: nat): Result<Table, ImportError> {
    if rows == [] then Ok([])
    else if |Padded(rows[0], width)| != width then Err(InconsistentColumns)
    else match PadRows(rows[1..], width)
      case Err(e) => Err(e)
      case Ok(rest) => Ok([Padded(rows[0], width)] + rest)
  }

  function ReadTable(sheet: seq<seq<Cell>>, shared: seq<string>): Result<Table, ImportError> {
    match ReadRows(sheet, shared, [])
    case Err(e) => Err(e)
    case Ok(rows) => if |rows| <= 1 then Err(NoDataRows) else PadRows(rows, |rows[0]|)
  }

  method ReadCells(cells: seq<Cell>, shared: seq<string>) returns (r: Result<Row, ImportError>)
    ensures r == StoreCells(Row(map[], 0), cells, shared)
  {
    var row := Row(map[], 0);
    for j := 0 to |cells|
      invariant StoreCells(row, cells[j..], shared) == StoreCells(Row(map[], 0), cells, shared)
    {
      assert cells[j..][0] == cells[j] && cells[j..][1..] == cells[j + 1..];
      var stored := StoreCell(row, cells[j], shared);
      if stored.Err? {
        return Err(stored.error);
      }
      row := stored.value;
    }
    return Ok(row);
  }

  method PadTable(rows: Table, width: nat) returns (r: Result<Table, ImportError>)
    ensures r == PadRows(rows, width)
  {
    var padded: Table := [];
    assert rows[0..] == rows;
    assert PadRows(rows, width).Ok? ==> padded + PadRows(rows, width).value == PadRows(rows, width).value;
    for k := 0 to |rows|
      invariant PadRows(rows[k..], width).Ok? ==> PadRows(rows, width) == Ok(padded + PadRows(rows[k..], width).value)
      invariant PadRows(rows[k..], width).Err? ==> PadRows(rows, width) == PadRows(rows[k..], width)
    {
      assert rows[k..][0] == rows[k] && rows[k..][1..] == rows[k + 1..];
      if |Padded(rows[k], width)| != width {
        return Err(InconsistentColumns);
      }
      assert PadRows(rows[k + 1..], width).Ok? ==>
          padded + PadRows(rows[k..], width).value == (padded + [Padded(rows[k], width)]) + PadRows(rows[k + 1..], width).value;
      padded := padded + [Padded(rows[k], width)];
    }
    assert rows[|rows|..] == [] && padded + [] == padded;
    return Ok(padded);
  }

  method ReadSheet(sheet: seq<seq<Cell>>, shared: seq<string>) returns (r: Result<Table, ImportError>)
    ensures r == ReadTable(sheet, shared)
  {
    var rows: Table := [];
    for i := 0 to |sheet|
      invariant ReadRows(sheet[i..], shared, rows) == ReadRows(sheet, shared, [])
    {
      assert sheet[i..][0] == sheet[i] && sheet[i..][1..] == sheet[i + 1..];
      if |rows| > MAX_ROWS {
        return Err(TooManyRows);
      }
      var row := ReadCells(sheet[i], shared);
      if row.Err? {
        return Err(row.error);
      }
      if row.value.values != map[] {
        rows := rows + [RowValues(row.value)];
      }
    }
    if |rows| <= 1 {
      return Err(NoDataRows);
    }
    r := PadTable(rows, |rows[0]|);
  }

  // ---------------------------------------------------------------- round trip

  /** What a written cell reads back as. */
  function Back(value: string): string {
    XmlLines(Written(value))
  }

  function BackRow(values: seq<string>): seq<string> {
    seq(|values|, c requires 0 <= c < |values| => Back(values[c]))
  }

  predicate RowAccepted(values: seq<string>) {
    |values| <= MAX_COLUMNS && forall c :: 0 < c <= |values| ==> !FormulaLike(BackAt(values, c))
  }

  function ParsedRow(row: nat, values: seq<string>): seq<Cell> {
    seq(|values|, c requires 0 <= c < |values| => ParsedCell(WrittenCell(row, c, values[c])))
  }

  function FirstColumns(values: seq<string>, k: nat): Row
    requires k <= |values|
  {
    Row(map c: nat | 1 <= c <= k :: BackAt(values, c), k)
  }

  /** The value the reader stores under column number c. */
  function BackAt(values: seq<string>, c: nat): string {
    if 1 <= c <= |values| then Back(values[c - 1]) else ""
  }

  lemma StoreInlineCell(row: Row, reference: string, text: string, column: nat)
    requires reference != ""
    requires ColumnIndex(reference) == if column > MAX_COLUMNS then Err(TooManyColumns) else Ok(column)
    ensures StoreCell(row, Cell(Some(reference), false, InlineString(text)), [])
         == if column > MAX_COLUMNS then Err(TooManyColumns)
            else if FormulaLike(text) then Err(FormulaLikeCell)
            else Ok(Row(row.values[column := text], if column > row.width then column else row.width))
  {
    hide ColumnIndex, FormulaLike;
  }

  lemma NextColumn(values: seq<string>, k: nat)
    requires k < |values|
    ensures FirstColumns(values, k).values[k + 1 := BackAt(values, k + 1)] == FirstColumns(values, k + 1).values
  {
  }

  lemma StoresWrittenCell(row: nat, values: seq<string>, k: nat)
    requires k < |values|
    ensures StoreCell(FirstColumns(values, k), ParsedCell(WrittenCell(row, k, values[k])), [])
         == if k >= MAX_COLUMNS then Err(TooManyColumns)
            else if FormulaLike(BackAt(values, k + 1)) then Err(FormulaLikeCell)
            else Ok(FirstColumns(values, k + 1))
  {
    hide NameOf, DecimalText, Written, XmlLines, FormulaLike, StoreCell, ColumnIndex;
    var reference := NameOf(k + 1) + DecimalText(row + 1);
    assert ParsedCell(WrittenCell(row, k, values[k])) == Cell(Some(reference), false, InlineString(BackAt(values, k + 1)));
    assert reference[|reference| - 1] == DecimalText(row + 1)[|DecimalText(row + 1)| - 1];
    ReferenceRoundTrip(k + 1, row + 1);
    StoreInlineCell(FirstColumns(values, k), reference, BackAt(values, k + 1), k + 1);
    NextColumn(values, k);
  }

  lemma {:induction false} ReadsWrittenCells(row: nat, values: seq<string>, k: nat)
    requires k <= |values| && k <= MAX_COLUMNS
    ensures var r := StoreCells(FirstColumns(values, k), ParsedRow(row, values)[k..], []);
            && r.Ok? == (|values| <= MAX_COLUMNS && forall c :: k < c <= |values| ==> !FormulaLike(BackAt(values, c)))
            && (r.Ok? ==> r.value == FirstColumns(values, |values|))
    decreases |values| - k
  {
    hide StoreCell, BackAt, FirstColumns, FormulaLike, ParsedCell, WrittenCell;
    var cells := ParsedRow(row, values);
    if k == |values| {
      assert cells[k..] == [];
    } else {
      assert cells[k..][0] == ParsedCell(WrittenCell(row, k, values[k]));
      assert cells[k..][1..] == cells[k + 1..];
      StoresWrittenCell(row, values, k);
      if k < MAX_COLUMNS {
        ReadsWrittenCells(row, values, k + 1);
      }
    }
  }

  lemma ReadsWrittenRow(row: nat, values: seq<string>)
    ensures var r := StoreCells(Row(map[], 0), ParsedRow(row, values), []);
            && r.Ok? == RowAccepted(values)
            && (r.Ok? ==> RowValues(r.value) == BackRow(values) && (r.value.values == map[] <==> values == []))
  {
    hide StoreCells, Back, FormulaLike, ParsedCell, WrittenCell;
    ReadsWrittenCells(row, values, 0);
    assert FirstColumns(values, 0) == Row(map[], 0);
    assert ParsedRow(row, values)[0..] == ParsedRow(row, values);
    var all := FirstColumns(values, |values|);
    if values != [] {
      assert 1 in all.values;
    }
  }

  function ParsedTable(table: Table, from: nat): seq<seq<Cell>> {
    seq(|table|, r requires 0 <= r < |table| => ParsedRow(from + r, table[r]))
  }

  /** The rows the reader keeps: those with at least one cell. */
  function Kept(table: Table): Table {
    if table == [] then []
    else (if table[0] == [] then [] else [BackRow(table[0])]) + Kept(table[1..])
  }

  predicate RowsAccepted(table: Table) {
    forall i :: 0 <= i < |table| ==> RowAccepted(table[i])
  }

  function KeepRow(rows: Table, values: seq<string>): Table {
    if values == [] then rows else rows + [BackRow(values)]
  }

  lemma StepsOverRow(table: Table, from: nat, rows: Table)
    requires table != []
    ensures |rows| > MAX_ROWS || !RowAccepted(table[0]) ==> ReadRows(ParsedTable(table, from), [], rows).Err?
    ensures |rows| <= MAX_ROWS && RowAccepted(table[0]) ==>
              ReadRows(ParsedTable(table, from), [], rows)
              == ReadRows(ParsedTable(table[1..], from + 1), [], KeepRow(rows, table[0]))
  {
    hide StoreCells, RowAccepted, BackRow, RowValues, ParsedRow, ReadRows, ParsedTable;
    ParsedTableSplit(table, from);
    ReadsWrittenRow(from, table[0]);
    ReadRowsStep(ParsedTable(table, from), rows);
  }

  lemma ParsedTableSplit(table: Table, from: nat)
    requires table != []
    ensures var sheet := ParsedTable(table, from);
            sheet != [] && sheet[0] == ParsedRow(from, table[0]) && sheet[1..] == ParsedTable(table[1..], from + 1)
  {
    hide ParsedRow;
  }

  lemma ReadRowsStep(sheet: seq<seq<Cell>>, rows: Table)
    requires sheet != []
    ensures ReadRows(sheet, [], rows)
         == if |rows| > MAX_ROWS then Err(TooManyRows)
            else match StoreCells(Row(map[], 0), sheet[0], [])
              case Err(e) => Err(e)
              case Ok(row) => ReadRows(sheet[1..], [], if row.values == map[] then rows else rows + [RowValues(row)])
  {
    hide StoreCells, RowValues;
  }

  lemma {:induction false} ReadsWrittenRows(table: Table, from: nat, rows: Table)
    ensures var r := ReadRows(ParsedTable(table, from), [], rows);
            && (r.Ok? ==> r.value == rows + Kept(table) && RowsAccepted(table))
            && (r.Ok? && table != [] ==> |r.value| <= MAX_ROWS + 1)
            && (RowsAccepted(table) && |rows| + |table| <= MAX_ROWS + 1 ==> r.Ok?)
    decreases |table|
  {
    hide StoreCells, RowAccepted, BackRow, ParsedRow;
    if table == [] {
      assert rows + Kept(table) == rows;
    } else {
      assert table == [table[0]] + table[1..];
      StepsOverRow(table, from, rows);
      var kept := KeepRow(rows, table[0]);
      ReadsWrittenRows(table[1..], from + 1, kept);
      assert rows + Kept(table) == kept + Kept(table[1..]);
      if |table| == 1 {
        assert Kept(table[1..]) == [];
      }
    }
  }

  lemma {:induction false} KeptFacts(table: Table)
    ensures |Kept(table)| <= |table|
    ensures |Kept(table)| == |table| ==>
              forall i :: 0 <= i < |table| ==> table[i] != [] && Kept(table)[i] == BackRow(table[i])
    ensures (forall i :: 0 <= i < |table| ==> table[i] != []) ==> |Kept(table)| == |table|
    ensures forall row :: row in Kept(table) ==> row != []
  {
    if table != [] {
      KeptFacts(table[1..]);
    }
  }

  lemma {:induction false} PadFacts(rows: Table, width: nat)
    ensures PadRows(rows, width).Ok? ==>
              && |PadRows(rows, width).value| == |rows|
              && forall i :: 0 <= i < |rows| ==>
                   |rows[i]| <= width && PadRows(rows, width).value[i] == Padded(rows[i], width)
    ensures (forall i :: 0 <= i < |rows| ==> |rows[i]| == width) ==> PadRows(rows, width) == Ok(rows)
  {
    if rows != [] {
      PadFacts(rows[1..], width);
      assert rows == [rows[0]] + rows[1..];
    }
  }

  /** What can be written and read back unchanged. */
  predicate Representable(table: Table) {
    && 2 <= |table| <= MAX_ROWS + 1
    && 1 <= |table[0]| <= MAX_COLUMNS
    && (forall r :: 0 <= r < |table| ==> |table[r]| == |table[0]|)
    && forall r, c :: 0 <= r < |table| && 0 <= c < |table[r]| ==>
         CleanText(table[r][c]) && !FormulaLike(table[r][c])
  }

  /** Writing a worksheet, parsing its XML and reading it, whatever its size. */
  ghost function ThroughSheet(table: Table): Result<Table, ImportError> {
    match Parsed(WrittenSheet(table))
    case None => Err(MalformedXml)
    case Some(sheet) => ReadTable(sheet, [])
  }

  predicate Legal(table: Table) {
    forall r, c :: 0 <= r < |table| && 0 <= c < |table[r]| ==> LegalCell(WrittenCell(r, c, table[r][c]))
  }

  lemma ParsedWritten(table: Table)
    ensures Parsed(WrittenSheet(table)) == if Legal(table) then Some(ParsedTable(table, 0)) else None
  {
    var sheet := WrittenSheet(table);
    if Legal(table) {
      assert Parsed(sheet).value == ParsedTable(table, 0) by {
        forall r | 0 <= r < |table| ensures Parsed(sheet).value[r] == ParsedTable(table, 0)[r] {
          assert sheet[r] == WrittenRow(r, table[r]);
        }
      }
    } else {
      var r, c :| 0 <= r < |table| && 0 <= c < |table[r]| && !LegalCell(WrittenCell(r, c, table[r][c]));
      assert sheet[r] == WrittenRow(r, table[r]);
      assert !LegalCell(sheet[r][c]);
    }
  }

  lemma BackOfRepresentable(table: Table)
    requires forall r, c :: 0 <= r < |table| && 0 <= c < |table[r]| ==> CleanText(table[r][c])
    ensures Legal(table)
    ensures forall r :: 0 <= r < |table| ==> BackRow(table[r]) == table[r]
  {
    forall r, c | 0 <= r < |table| && 0 <= c < |table[r]|
      ensures (forall x :: x in Written(table[r][c]) ==> XmlChar(x)) && Back(table[r][c]) == table[r][c]
    {
      TextRoundTrip(table[r][c]);
    }
  }

  /** A representable table comes back unchanged. */
  lemma RepresentableReturns(table: Table)
    requires Representable(table)
    ensures ThroughSheet(table) == Ok(table)
  {
    hide StoreCells, ReadRows, Written, XmlLines, FormulaLike, Back, ParsedRow, CleanText, Parsed, Legal;
    ParsedWritten(table);
    BackOfRepresentable(table);
    forall i | 0 <= i < |table| ensures RowAccepted(table[i]) {
      forall c | 0 < c <= |table[i]| ensures !FormulaLike(BackAt(table[i], c)) {
        assert BackRow(table[i])[c - 1] == table[i][c - 1];
      }
    }
    ReadsWrittenRows(table, 0, []);
    KeptFacts(table);
    assert RowsAccepted(table);
    assert Kept(table) == table;
    assert [] + Kept(table) == table;
    PadFacts(table, |table[0]|);
  }

  lemma ReadsBack(table: Table)
    requires ThroughSheet(table).Ok?
    ensures RowsAccepted(table) && 2 <= |Kept(table)| <= MAX_ROWS + 1
    ensures PadRows(Kept(table), |Kept(table)[0]|) == ThroughSheet(table)
  {
    ParsedWritten(table);
    ReadsWrittenRows(table, 0, []);
    assert [] + Kept(table) == Kept(table);
  }

  /** A returned table lost no row and no padding was needed. */
  lemma ReturnsItsRows(table: Table)
    requires |Kept(table)| > 0 && PadRows(Kept(table), |Kept(table)[0]|) == Ok(table)
    ensures Kept(table) == table
    ensures forall r :: 0 <= r < |table| ==> table[r] == BackRow(table[r]) && |table[r]| == |table[0]| > 0
  {
    var rows := Kept(table);
    KeptFacts(table);
    PadFacts(rows, |rows[0]|);
    assert rows[0] in rows;
    forall r | 0 <= r < |table|
      ensures table[r] == rows[r] && rows[r] == BackRow(table[r]) && |table[r]| == |rows[0]|
    {
      assert table[r] == Padded(rows[r], |rows[0]|);
    }
  }

  /** Nothing else does: a table that comes back unchanged is representable. */
  lemma OnlyRepresentableReturns(table: Table)
    requires ThroughSheet(table) == Ok(table)
    ensures Representable(table)
  {
    ParsedWritten(table);
    ReadsBack(table);
    ReturnsItsRows(table);
    forall r, c | 0 <= r < |table| && 0 <= c < |table[r]|
      ensures CleanText(table[r][c]) && !FormulaLike(table[r][c])
    {
      assert BackRow(table[r])[c] == Back(table[r][c]);
      assert LegalCell(WrittenCell(r, c, table[r][c]));
      TextRoundTrip(table[r][c]);
      assert RowAccepted(table[r]);
      assert BackAt(table[r], c + 1) == table[r][c];
    }
    assert RowAccepted(table[0]);
  }

  /** Sizes aside, a worksheet comes back for exactly the representable tables. */
  lemma SheetRoundTrip(table: Table)
    ensures ThroughSheet(table) == Ok(table) <==> Representable(table)
  {
    if Representable(table) {
      RepresentableReturns(table);
    }
    if ThroughSheet(table) == Ok(table) {
      OnlyRepresentableReturns(table);
    }
  }
}
