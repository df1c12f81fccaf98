/**
 * The workbook parser (utils/excelParser.ts): every sheet but the reserved
 * one becomes a list of groups read column by column from a fixed row
 * template; the reserved sheet becomes a name-to-weight map instead.
 *
 * Each loop of the source is a method proved equal to a specification
 * function; the properties are lemmas about those functions.
 */
module ExcelParser {
  import opened Wrappers
  import opened Text
  import opened Cells
  import opened Types

  /** The sheet that carries imported weights rather than groups. */
  const ReservedSheet: string := "匹配值"

  /** Row template of a normal sheet: rows 0-3 hold a group's name, tag,
    * status and note, row 4 is blank, rows 5-19 hold its 15 member slots. */
  const NameRow: nat := 0
  const TagRow: nat := 1
  const StatusRow: nat := 2
  const NoteRow: nat := 3
  const MinRows: nat := 5
  const FirstMemberRow: nat := 5
  const MemberSlots: nat := 15

  /** One sheet of the workbook, as the spreadsheet library delivers it. */
  datatype Sheet = Sheet(name: string, grid: Grid)

  /** The sheets in workbook order. */
  type Workbook = seq<Sheet>

  datatype ParseError = NoValidData

  datatype WeightEntry = WeightEntry(name: string, value: real)

  // ---------------------------------------------------------------------
  // The reserved sheet

  /** The weight one row of the reserved sheet contributes: the trimmed text
    * of column 0 must be non-empty, column 1 must be present and not '',
    * and its text must parse as a number. */
  function RowEntry(row: Row, host: Host): Option<WeightEntry>
  {
    if Field(CellIn(row, 0), host) != "" && CellIn(row, 1) != Empty && CellIn(row, 1) != Str("") then
      match host.parseFloat(ToStr(CellIn(row, 1), host))
      case Some(v) => Some(WeightEntry(Field(CellIn(row, 0), host), v))
      case None => None
    else
      None
  }

  /** Row `row` contributes a weight for the name `k`. */
  predicate NamesRow(row: Row, host: Host, k: string)
  {
    Names(RowEntry(row, host), k)
  }

  predicate Names(e: Option<WeightEntry>, k: string)
  {
    e.Some? && e.value.name == k
  }

  /** What each row of a sheet contributes, in row order. */
  function RowEntries(rows: Grid, host: Host): seq<Option<WeightEntry>>
  {
    seq(|rows|, j requires 0 <= j < |rows| => RowEntry(rows[j], host))
  }

  /** The map `w` after the entries are applied in order, each entry
    * overwriting the one for its name. */
  function ApplyEntries(w: MemberWeight, es: seq<Option<WeightEntry>>): MemberWeight
  {
    if es == [] then w
    else
      match es[|es| - 1]
      case Some(e) => ApplyEntries(w, es[..|es| - 1])[e.name := e.value]
      case None => ApplyEntries(w, es[..|es| - 1])
  }

  /** The map `w` after the rows of the reserved sheet are applied. */
  function ImportRows(w: MemberWeight, rows: Grid, host: Host): MemberWeight
  {
    ApplyEntries(w, RowEntries(rows, host))
  }

  lemma {:induction false} ApplyEntriesKeys(w: MemberWeight, es: seq<Option<WeightEntry>>, k: string)
    ensures k in ApplyEntries(w, es) <==> k in w || exists j :: 0 <= j < |es| && Names(es[j], k)
  {
    if es != [] {
      var init := es[..|es| - 1];
      ApplyEntriesKeys(w, init, k);
      assert forall j :: 0 <= j < |init| ==> init[j] == es[j];
      if exists j :: 0 <= j < |es| && Names(es[j], k) {
        var j :| 0 <= j < |es| && Names(es[j], k);
        if j < |init| {
          assert Names(init[j], k);
        }
      }
    }
  }

  lemma {:induction false} ApplyEntriesLastWins(w: MemberWeight, es: seq<Option<WeightEntry>>, i: nat)
    requires i < |es| && es[i].Some?
    requires forall j :: i < j < |es| ==> !Names(es[j], es[i].value.name)
    ensures es[i].value.name in ApplyEntries(w, es) && ApplyEntries(w, es)[es[i].value.name] == es[i].value.value
  {
    var init := es[..|es| - 1];
    if i < |init| {
      assert forall j :: i < j < |init| ==> init[j] == es[j];
      ApplyEntriesLastWins(w, init, i);
    }
  }

  lemma {:induction false} ApplyEntriesUntouched(w: MemberWeight, es: seq<Option<WeightEntry>>, k: string)
    requires forall j :: 0 <= j < |es| ==> !Names(es[j], k)
    ensures k in ApplyEntries(w, es) <==> k in w
    ensures k in w ==> ApplyEntries(w, es)[k] == w[k]
  {
    if es != [] {
      var init := es[..|es| - 1];
      assert forall j :: 0 <= j < |init| ==> init[j] == es[j];
      ApplyEntriesUntouched(w, init, k);
      assert !Names(es[|es| - 1], k);
    }
  }

  /** A name has an entry afterwards exactly when it had one before or some
    * row contributes a weight for it. */
  lemma ImportRowsKeys(w: MemberWeight, rows: Grid, host: Host, k: string)
    ensures k in ImportRows(w, rows, host) <==>
            k in w || exists j :: 0 <= j < |rows| && NamesRow(rows[j], host, k)
  {
    var es := RowEntries(rows, host);
    ApplyEntriesKeys(w, es, k);
    assert forall j :: 0 <= j < |rows| ==> (NamesRow(rows[j], host, k) <==> Names(es[j], k));
  }

  /** The last row that contributes a weight for a name decides its value. */
  lemma ImportRowsLastWins(w: MemberWeight, rows: Grid, host: Host, i: nat)
    requires i < |rows| && RowEntry(rows[i], host).Some?
    requires forall j :: i < j < |rows| ==> !NamesRow(rows[j], host, RowEntry(rows[i], host).value.name)
    ensures var e := RowEntry(rows[i], host).value;
            e.name in ImportRows(w, rows, host) && ImportRows(w, rows, host)[e.name] == e.value
  {
    var es := RowEntries(rows, host);
    assert forall j :: 0 <= j < |rows| ==> es[j] == RowEntry(rows[j], host);
    ApplyEntriesLastWins(w, es, i);
  }

  /** A name no row contributes keeps exactly what it had. */
  lemma ImportRowsUntouched(w: MemberWeight, rows: Grid, host: Host, k: string)
    requires forall j :: 0 <= j < |rows| ==> !NamesRow(rows[j], host, k)
    ensures k in ImportRows(w, rows, host) <==> k in w
    ensures k in w ==> ImportRows(w, rows, host)[k] == w[k]
  {
    var es := RowEntries(rows, host);
    assert forall j :: 0 <= j < |rows| ==> es[j] == RowEntry(rows[j], host);
    ApplyEntriesUntouched(w, es, k);
  }

  /** The row loop over the reserved sheet, updating the map in place. */
  method ImportWeights(rows: Grid, host: Host, w0: MemberWeight) returns (w: MemberWeight)
    ensures w == ImportRows(w0, rows, host)
  {
    w := w0;
    ghost var es := RowEntries(rows, host);
    for i := 0 to |rows|
      invariant w == ApplyEntries(w0, es[..i])
    {
      var row := rows[i];
      assert es[i] == RowEntry(row, host);
      var name := Field(CellIn(row, 0), host);
      var rawValue := CellIn(row, 1);
      if name != "" && rawValue != Empty && rawValue != Str("") {
        var value := host.parseFloat(ToStr(rawValue, host));
        if value.Some? {
          w := w[name := value.value];
        }
      }
      assert es[..i + 1][..i] == es[..i];
    }
    assert es[..|rows|] == es;
  }

  // ---------------------------------------------------------------------
  // Normal sheets

  /** The sheet name with each run of white space replaced by '-', then
    * "-group-" and the column number. */
  function GroupId(sheetName: string, col: nat): string
  {
    CollapseSpaces(sheetName) + "-group-" + NatToDecimal(col)
  }

  /** Two columns of one sheet never share an id. */
  lemma GroupIdInjective(sheetName: string, c1: nat, c2: nat)
    requires c1 != c2
    ensures GroupId(sheetName, c1) != GroupId(sheetName, c2)
  {
    var p := CollapseSpaces(sheetName) + "-group-";
    DecimalInjective(c1, c2);
    assert GroupId(sheetName, c1)[|p|..] == NatToDecimal(c1);
    assert GroupId(sheetName, c2)[|p|..] == NatToDecimal(c2);
  }

  /** The 15 member slots of column `col`, one per row 5-19, in row order. */
  function MemberSlotsAt(grid: Grid, col: nat, host: Host): seq<string>
  {
    seq(MemberSlots, i => Field(At(grid, FirstMemberRow + i, col), host))
  }

  lemma MemberSlotsAtIndex(grid: Grid, col: nat, host: Host)
    ensures |MemberSlotsAt(grid, col, host)| == MemberSlots
    ensures forall i :: 0 <= i < MemberSlots ==>
              MemberSlotsAt(grid, col, host)[i]
              == if Truthy(At(grid, FirstMemberRow + i, col)) then Trim(ToStr(At(grid, FirstMemberRow + i, col), host)) else ""
  {
    forall i | 0 <= i < MemberSlots
      ensures MemberSlotsAt(grid, col, host)[i]
              == if Truthy(At(grid, FirstMemberRow + i, col)) then Trim(ToStr(At(grid, FirstMemberRow + i, col), host)) else ""
    {
      var cell := At(grid, FirstMemberRow + i, col);
      assert MemberSlotsAt(grid, col, host)[i] == Field(cell, host);
    }
  }

  /** The group column `col` of a normal sheet describes. */
  function MakeGroup(sheetName: string, grid: Grid, col: nat, host: Host): ClanGroup
  {
    ClanGroup(
      GroupId(sheetName, col),
      Field(At(grid, NameRow, col), host),
      Field(At(grid, TagRow, col), host),
      Field(At(grid, StatusRow, col), host),
      Field(At(grid, NoteRow, col), host),
      MemberSlotsAt(grid, col, host))
  }

  /** The columns below `n` whose row-0 cell is truthy, column 0 excluded. */
  function HeaderColumns(grid: Grid, n: nat): seq<nat>
  {
    if n <= 1 then []
    else HeaderColumns(grid, n - 1) + (if Truthy(At(grid, NameRow, n - 1)) then [n - 1] else [])
  }

  /** Column 0 never holds a group, nor does a column whose row-0 cell is
    * falsy; every other column below `n` does. */
  lemma {:induction false} HeaderColumnsMembers(grid: Grid, n: nat)
    ensures forall c :: c in HeaderColumns(grid, n) <==> 1 <= c < n && Truthy(At(grid, NameRow, c))
  {
    if n > 1 {
      HeaderColumnsMembers(grid, n - 1);
    }
  }

  lemma {:induction false} HeaderColumnsBelow(grid: Grid, n: nat)
    ensures forall i :: 0 <= i < |HeaderColumns(grid, n)| ==> 1 <= HeaderColumns(grid, n)[i] < n
  {
    if n > 1 {
      HeaderColumnsBelow(grid, n - 1);
      var before := HeaderColumns(grid, n - 1);
      var tail: seq<nat> := if Truthy(At(grid, NameRow, n - 1)) then [n - 1] else [];
      var cols := HeaderColumns(grid, n);
      assert cols == before + tail;
      forall i | 0 <= i < |cols| ensures 1 <= cols[i] < n {
        if i < |before| {
          assert cols[i] == before[i];
        } else {
          assert cols[i] == tail[i - |before|];
        }
      }
    }
  }

  /** The header columns come in strictly increasing order, so none twice. */
  lemma {:induction false} HeaderColumnsIncreasing(grid: Grid, n: nat)
    ensures forall i, j :: 0 <= i < j < |HeaderColumns(grid, n)| ==> HeaderColumns(grid, n)[i] < HeaderColumns(grid, n)[j]
  {
    if n > 1 {
      HeaderColumnsIncreasing(grid, n - 1);
      HeaderColumnsBelow(grid, n - 1);
      var before := HeaderColumns(grid, n - 1);
      var tail: seq<nat> := if Truthy(At(grid, NameRow, n - 1)) then [n - 1] else [];
      var cols := HeaderColumns(grid, n);
      assert cols == before + tail;
      forall i, j | 0 <= i < j < |cols| ensures cols[i] < cols[j] {
        if j < |before| {
          assert cols[i] == before[i] && cols[j] == before[j];
        } else {
          assert cols[i] == before[i] && cols[j] == tail[j - |before|];
        }
      }
    }
  }

  /** The groups of the given columns, in the same order. */
  function GroupsFor(sheetName: string, grid: Grid, cols: seq<nat>, host: Host): seq<ClanGroup>
  {
    seq(|cols|, i requires 0 <= i < |cols| => MakeGroup(sheetName, grid, cols[i], host))
  }

  lemma GroupsForSnoc(sheetName: string, grid: Grid, cols: seq<nat>, c: nat, host: Host)
    ensures GroupsFor(sheetName, grid, cols + [c], host)
         == GroupsFor(sheetName, grid, cols, host) + [MakeGroup(sheetName, grid, c, host)]
  {
  }

  /** The groups of a normal sheet; none when it has fewer than 5 rows. */
  function GroupsOf(sheetName: string, grid: Grid, host: Host): seq<ClanGroup>
  {
    if |grid| < MinRows then []
    else GroupsFor(sheetName, grid, HeaderColumns(grid, |grid[0]|), host)
  }

  function ParseSheet(sheet: Sheet, host: Host): SheetData
  {
    SheetData(sheet.name, GroupsOf(sheet.name, sheet.grid, host))
  }

  /** Every text field of a group, member slots included, is trimmed. */
  lemma MakeGroupTrimmed(sheetName: string, grid: Grid, col: nat, host: Host)
    ensures var g := MakeGroup(sheetName, grid, col, host);
            && Trimmed(g.name) && Trimmed(g.tag) && Trimmed(g.status) && Trimmed(g.note)
            && |g.members| == MemberSlots
            && forall k :: 0 <= k < |g.members| ==> Trimmed(g.members[k])
  {
    var g := MakeGroup(sheetName, grid, col, host);
    FieldTrimmed(At(grid, NameRow, col), host);
    FieldTrimmed(At(grid, TagRow, col), host);
    FieldTrimmed(At(grid, StatusRow, col), host);
    FieldTrimmed(At(grid, NoteRow, col), host);
    forall k | 0 <= k < MemberSlots ensures Trimmed(g.members[k]) {
      assert g.members[k] == Field(At(grid, FirstMemberRow + k, col), host);
      FieldTrimmed(At(grid, FirstMemberRow + k, col), host);
    }
  }

  /** Each group comes from one header column of the sheet and carries that
    * column's trimmed fields and its 15 member slots. */
  lemma GroupsShape(sheetName: string, grid: Grid, host: Host, i: nat)
    requires |grid| >= MinRows && i < |GroupsOf(sheetName, grid, host)|
    ensures var g := GroupsOf(sheetName, grid, host)[i];
            exists c :: 1 <= c < |grid[0]| && Truthy(At(grid, NameRow, c)) && g.id == GroupId(sheetName, c)
                        && g == MakeGroup(sheetName, grid, c, host)
    ensures var g := GroupsOf(sheetName, grid, host)[i];
            && Trimmed(g.name) && Trimmed(g.tag) && Trimmed(g.status) && Trimmed(g.note)
            && |g.members| == MemberSlots
            && forall k :: 0 <= k < |g.members| ==> Trimmed(g.members[k])
  {
    HeaderColumnsMembers(grid, |grid[0]|);
    var c := HeaderColumns(grid, |grid[0]|)[i];
    assert c in HeaderColumns(grid, |grid[0]|);
    MakeGroupTrimmed(sheetName, grid, c, host);
  }

  /** Conversely, every header column of a sheet with at least 5 rows
    * yields a group. */
  lemma HeaderColumnGivesGroup(sheetName: string, grid: Grid, host: Host, c: nat)
    requires |grid| >= MinRows && 1 <= c < |grid[0]| && Truthy(At(grid, NameRow, c))
    ensures exists i :: 0 <= i < |GroupsOf(sheetName, grid, host)|
                        && GroupsOf(sheetName, grid, host)[i] == MakeGroup(sheetName, grid, c, host)
  {
    HeaderColumnsMembers(grid, |grid[0]|);
    var cols := HeaderColumns(grid, |grid[0]|);
    var i :| 0 <= i < |cols| && cols[i] == c;
    assert GroupsOf(sheetName, grid, host) == GroupsFor(sheetName, grid, cols, host);
    assert GroupsOf(sheetName, grid, host)[i] == MakeGroup(sheetName, grid, c, host);
  }

  /** Group ids are distinct within a sheet. */
  lemma GroupIdsDistinct(sheetName: string, grid: Grid, host: Host)
    ensures var gs := GroupsOf(sheetName, grid, host);
            forall i, j :: 0 <= i < j < |gs| ==> gs[i].id != gs[j].id
  {
    if |grid| >= MinRows {
      var cols := HeaderColumns(grid, |grid[0]|);
      HeaderColumnsIncreasing(grid, |grid[0]|);
      HeaderColumnsBelow(grid, |grid[0]|);
      forall i, j | 0 <= i < j < |cols|
        ensures GroupId(sheetName, cols[i]) != GroupId(sheetName, cols[j])
      {
        GroupIdInjective(sheetName, cols[i], cols[j]);
      }
    }
  }

  /** The inner loop over rows 5-19 of one column. */
  method ReadMembers(grid: Grid, col: nat, host: Host) returns (members: seq<string>)
    ensures members == MemberSlotsAt(grid, col, host)
    ensures |members| == MemberSlots
    ensures forall i :: 0 <= i < MemberSlots ==>
              members[i] == if Truthy(At(grid, FirstMemberRow + i, col))
                            then Trim(ToStr(At(grid, FirstMemberRow + i, col), host)) else ""
  {
    members := [];
    for r := FirstMemberRow to FirstMemberRow + MemberSlots
      invariant |members| == r - FirstMemberRow
      invariant forall i :: 0 <= i < r - FirstMemberRow ==>
                  members[i] == if Truthy(At(grid, FirstMemberRow + i, col))
                                then Trim(ToStr(At(grid, FirstMemberRow + i, col), host)) else ""
    {
      if r < |grid| && col < |grid[r]| && Truthy(grid[r][col]) {
        members := members + [Trim(ToStr(grid[r][col], host))];
      } else {
        members := members + [""];
      }
    }
    MemberSlotsAtIndex(grid, col, host);
  }

  /** The body of the column loop for a column with a truthy header. */
  method ReadGroup(sheetName: string, json: Grid, col: nat, host: Host) returns (group: ClanGroup)
    requires |json| >= MinRows && col < |json[0]| && Truthy(json[0][col])
    ensures group == MakeGroup(sheetName, json, col, host)
  {
    var members := ReadMembers(json, col, host);
    group := ClanGroup(
      GroupId(sheetName, col),
      Trim(ToStr(json[0][col], host)),
      Field(At(json, TagRow, col), host),
      Field(At(json, StatusRow, col), host),
      Field(At(json, NoteRow, col), host),
      members);
  }

  /** A normal sheet: the column loop, building one group per header column. */
  method ParseNormalSheet(sheet: Sheet, host: Host) returns (data: SheetData)
    ensures data == ParseSheet(sheet, host)
  {
    var json := sheet.grid;
    if |json| < MinRows {
      return SheetData(sheet.name, []);
    }
    var groups: seq<ClanGroup> := [];
    var numColumns := |json[0]|;
    var col := 1;
    while col < numColumns
      invariant 1 <= col && (col <= numColumns || col == 1)
      invariant groups == GroupsFor(sheet.name, json, HeaderColumns(json, col), host)
    {
      ghost var before := HeaderColumns(json, col);
      var name := json[0][col];
      if Truthy(name) {
        var group := ReadGroup(sheet.name, json, col, host);
        assert HeaderColumns(json, col + 1) == before + [col];
        GroupsForSnoc(sheet.name, json, before, col, host);
        groups := groups + [group];
      } else {
        assert HeaderColumns(json, col + 1) == before;
      }
      col := col + 1;
    }
    data := SheetData(sheet.name, groups);
  }

  // ---------------------------------------------------------------------
  // The workbook

  /** The visual sheets: the non-reserved sheets in workbook order. */
  function SheetsOf(book: Workbook, host: Host): seq<SheetData>
  {
    if book == [] then []
    else
      var last := book[|book| - 1];
      SheetsOf(book[..|book| - 1], host) + (if last.name == ReservedSheet then [] else [ParseSheet(last, host)])
  }

  /** The weights of every reserved sheet, rows applied in workbook order. */
  function ImportedOf(book: Workbook, host: Host): MemberWeight
  {
    if book == [] then map[]
    else
      var last := book[|book| - 1];
      var before := ImportedOf(book[..|book| - 1], host);
      if last.name == ReservedSheet then ImportRows(before, last.grid, host) else before
  }

  /** The number of sheets that are not the reserved one. */
  function CountNormal(book: Workbook): nat
  {
    if book == [] then 0
    else CountNormal(book[..|book| - 1]) + (if book[|book| - 1].name == ReservedSheet then 0 else 1)
  }

  /** The parse fails only when it found neither a sheet nor a weight. */
  function Parse(book: Workbook, host: Host): Result<ParseResult, ParseError>
  {
    var sheets := SheetsOf(book, host);
    var weights := ImportedOf(book, host);
    if sheets == [] && weights == map[] then Err(NoValidData) else Ok(ParseResult(sheets, weights))
  }

  /** `parseExcelFile` after the library has read the workbook: the loop
    * over the sheet names. */
  method ParseWorkbook(book: Workbook, host: Host) returns (r: Result<ParseResult, ParseError>)
    ensures r == Parse(book, host)
  {
    var resultSheets: seq<SheetData> := [];
    var importedWeights: MemberWeight := map[];
    for i := 0 to |book|
      invariant resultSheets == SheetsOf(book[..i], host)
      invariant importedWeights == ImportedOf(book[..i], host)
    {
      var sheet := book[i];
      assert book[..i + 1][..i] == book[..i];
      if sheet.name == ReservedSheet {
        if |sheet.grid| > 0 {
          importedWeights := ImportWeights(sheet.grid, host, importedWeights);
        }
      } else {
        var data := ParseNormalSheet(sheet, host);
        resultSheets := resultSheets + [data];
      }
    }
    assert book[..|book|] == book;
    if resultSheets == [] && importedWeights == map[] {
      r := Err(NoValidData);
    } else {
      r := Ok(ParseResult(resultSheets, importedWeights));
    }
  }

  // ---------------------------------------------------------------------
  // Properties of the whole parse

  /** The reserved sheet never appears among the visual sheets. */
  lemma {:induction false} ReservedSheetNeverListed(book: Workbook, host: Host)
    ensures forall s :: s in SheetsOf(book, host) ==> s.name != ReservedSheet
  {
    if book != [] {
      ReservedSheetNeverListed(book[..|book| - 1], host);
    }
  }

  lemma {:induction false} CountNormalPrefix(book: Workbook, i: nat)
    requires i <= |book|
    ensures CountNormal(book[..i]) <= CountNormal(book)
    ensures i < |book| && book[i].name != ReservedSheet ==> CountNormal(book[..i]) < CountNormal(book)
    decreases |book| - i
  {
    if i < |book| {
      CountNormalPrefix(book, i + 1);
      assert book[..i + 1][..i] == book[..i];
    } else {
      assert book[..i] == book;
    }
  }

  /** One visual sheet per non-reserved sheet, in workbook order: the
    * non-reserved sheet at index i is the visual sheet at the position of
    * the number of non-reserved sheets before it; one with fewer than 5
    * rows is listed with no groups. */
  lemma {:induction false} SheetsInWorkbookOrder(book: Workbook, host: Host)
    ensures |SheetsOf(book, host)| == CountNormal(book)
    ensures forall i :: 0 <= i < |book| && book[i].name != ReservedSheet ==>
              CountNormal(book[..i]) < |SheetsOf(book, host)|
              && SheetsOf(book, host)[CountNormal(book[..i])] == ParseSheet(book[i], host)
              && SheetsOf(book, host)[CountNormal(book[..i])].name == book[i].name
              && (|book[i].grid| < MinRows ==> SheetsOf(book, host)[CountNormal(book[..i])].groups == [])
  {
    if book != [] {
      var init := book[..|book| - 1];
      SheetsInWorkbookOrder(init, host);
      forall i | 0 <= i < |book| && book[i].name != ReservedSheet
        ensures CountNormal(book[..i]) < |SheetsOf(book, host)|
        ensures SheetsOf(book, host)[CountNormal(book[..i])] == ParseSheet(book[i], host)
      {
        CountNormalPrefix(book, i);
        if i < |init| {
          assert init[..i] == book[..i];
          assert init[i] == book[i];
        } else {
          assert book[..i] == init;
        }
      }
    }
  }

  /** There is no visual sheet exactly when every sheet is the reserved one
    * (in particular when the workbook has no sheets). */
  lemma {:induction false} NoSheetsIffAllReserved(book: Workbook, host: Host)
    ensures SheetsOf(book, host) == [] <==> forall i :: 0 <= i < |book| ==> book[i].name == ReservedSheet
  {
    if book != [] {
      var init := book[..|book| - 1];
      NoSheetsIffAllReserved(init, host);
      assert forall i :: 0 <= i < |init| ==> init[i] == book[i];
    }
  }

  /** Some row of `sheet`, a reserved sheet, contributes a weight for `k`. */
  predicate SuppliesWeight(sheet: Sheet, host: Host, k: string)
  {
    sheet.name == ReservedSheet && exists j :: 0 <= j < |sheet.grid| && NamesRow(sheet.grid[j], host, k)
  }

  /** A row of a reserved sheet that names `k` with a parsable value puts a
    * weight for `k` among the imported ones. */
  lemma {:induction false} ImportedOfComplete(book: Workbook, host: Host, k: string, i: nat)
    requires i < |book| && SuppliesWeight(book[i], host, k)
    ensures k in ImportedOf(book, host)
  {
    var init := book[..|book| - 1];
    var last := book[|book| - 1];
    if i < |init| {
      assert init[i] == book[i];
      ImportedOfComplete(init, host, k, i);
    }
    if last.name == ReservedSheet {
      ImportRowsKeys(ImportedOf(init, host), last.grid, host, k);
    }
  }

  /** Every imported weight comes from a row of some reserved sheet. */
  lemma {:induction false} ImportedOfSound(book: Workbook, host: Host, k: string)
    requires k in ImportedOf(book, host)
    ensures exists i :: 0 <= i < |book| && SuppliesWeight(book[i], host, k)
  {
    var init := book[..|book| - 1];
    var last := book[|book| - 1];
    if last.name == ReservedSheet {
      ImportRowsKeys(ImportedOf(init, host), last.grid, host, k);
    }
    if k in ImportedOf(init, host) {
      ImportedOfSound(init, host, k);
      var i :| 0 <= i < |init| && SuppliesWeight(init[i], host, k);
      assert init[i] == book[i];
    } else {
      assert SuppliesWeight(book[|book| - 1], host, k);
    }
  }

  /** A weight is imported for `k` exactly when some row of a reserved sheet
    * contributes one. */
  lemma ImportedOfKeys(book: Workbook, host: Host, k: string)
    ensures k in ImportedOf(book, host) <==> exists i :: 0 <= i < |book| && SuppliesWeight(book[i], host, k)
  {
    if k in ImportedOf(book, host) {
      ImportedOfSound(book, host, k);
    }
    if exists i :: 0 <= i < |book| && SuppliesWeight(book[i], host, k) {
      var i :| 0 <= i < |book| && SuppliesWeight(book[i], host, k);
      ImportedOfComplete(book, host, k, i);
    }
  }

  /** Without a reserved sheet nothing is imported. */
  lemma {:induction false} NoReservedNoImport(book: Workbook, host: Host)
    requires forall j :: 0 <= j < |book| ==> book[j].name != ReservedSheet
    ensures ImportedOf(book, host) == map[]
  {
    if book != [] {
      var init := book[..|book| - 1];
      assert forall j :: 0 <= j < |init| ==> init[j] == book[j];
      NoReservedNoImport(init, host);
    }
  }

  /** With a single reserved sheet, the imported weights are exactly that
    * sheet's rows applied to an empty map. */
  lemma {:induction false} SingleReservedImport(book: Workbook, host: Host, i: nat)
    requires i < |book| && book[i].name == ReservedSheet
    requires forall j :: 0 <= j < |book| && j != i ==> book[j].name != ReservedSheet
    ensures ImportedOf(book, host) == ImportRows(map[], book[i].grid, host)
  {
    var init := book[..|book| - 1];
    assert forall j :: 0 <= j < |init| ==> init[j] == book[j];
    if i == |book| - 1 {
      NoReservedNoImport(init, host);
    } else {
      SingleReservedImport(init, host, i);
    }
  }

  /** A row of the single reserved sheet that names a member with a parsable
    * value, and is not followed by another row for that name, gives the
    * member that value in the result of the parse. */
  lemma ParsedWeightValue(book: Workbook, host: Host, i: nat, r: nat)
    requires i < |book| && book[i].name == ReservedSheet
    requires forall j :: 0 <= j < |book| && j != i ==> book[j].name != ReservedSheet
    requires r < |book[i].grid| && RowEntry(book[i].grid[r], host).Some?
    requires forall j :: r < j < |book[i].grid| ==>
               !NamesRow(book[i].grid[j], host, RowEntry(book[i].grid[r], host).value.name)
    ensures Parse(book, host).Ok?
    ensures RowEntry(book[i].grid[r], host).value.name in Parse(book, host).value.importedWeights
    ensures Parse(book, host).value.importedWeights[RowEntry(book[i].grid[r], host).value.name]
            == RowEntry(book[i].grid[r], host).value.value
  {
    SingleReservedImport(book, host, i);
    ImportRowsLastWins(map[], book[i].grid, host, r);
  }

  /** The parse fails if and only if every sheet is the reserved one and no
    * weight was imported; otherwise it returns both lists. */
  lemma ParseFailsIff(book: Workbook, host: Host)
    ensures Parse(book, host).Err? <==>
            (forall i :: 0 <= i < |book| ==> book[i].name == ReservedSheet) && ImportedOf(book, host) == map[]
    ensures Parse(book, host).Ok? ==>
            Parse(book, host).value == ParseResult(SheetsOf(book, host), ImportedOf(book, host))
  {
    NoSheetsIffAllReserved(book, host);
  }
}
