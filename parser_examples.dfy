/** Concrete workbooks and what the parser's specification gives for them. */
module ParserExamples {
  import opened Wrappers
  import opened Types
  import opened Cells
  import opened Text
  import opened ExcelParser

  /** A row that is blank in every column. */
  const BlankRow: Row := []

  /** A workbook whose only sheet is a normal one without rows is recorded
    * with no groups; it is not a failure. */
  lemma EmptyNormalSheetIsRecorded(host: Host)
    ensures Parse([Sheet("Sheet1", [])], host) == Ok(ParseResult([SheetData("Sheet1", [])], map[]))
  {
    var book := [Sheet("Sheet1", [])];
    assert book[..0] == [];
    assert "Sheet1" != ReservedSheet;
    assert SheetsOf(book, host) == [SheetData("Sheet1", [])];
    assert ImportedOf(book, host) == map[];
  }

  /** A workbook without sheets yields nothing and fails. */
  lemma EmptyWorkbookFails(host: Host)
    ensures Parse([], host) == Err(NoValidData)
  {
  }

  const MixedGrid: Grid := [[Str("Clan"), Str("A"), Str("")], BlankRow, BlankRow, BlankRow, BlankRow]

  /** Fifteen empty member slots. */
  const NoMembers: seq<string> := seq(MemberSlots, _ => "")

  const MixedGroup: ClanGroup := ClanGroup("S-1-group-1", "A", "", "", "", NoMembers)

  const MixedWeights: Grid := [[Str("Alice"), Str("16")], [Str("Bob"), Str("x")]]

  lemma MixedHeaders()
    ensures HeaderColumns(MixedGrid, 3) == [1]
  {
    assert HeaderColumns(MixedGrid, 1) == [];
    assert HeaderColumns(MixedGrid, 2) == [1];
  }

  lemma MixedMembers(host: Host)
    ensures MemberSlotsAt(MixedGrid, 1, host) == NoMembers
  {
    MemberSlotsAtIndex(MixedGrid, 1, host);
  }

  lemma MixedId()
    ensures GroupId("S 1", 1) == "S-1-group-1"
  {
    assert TrimStart(" 1") == "1";
    assert CollapseSpaces("1") == "1";
    assert CollapseSpaces(" 1") == "-1";
    assert CollapseSpaces("S 1") == "S-1";
  }

  lemma MixedName(host: Host)
    ensures Field(At(MixedGrid, NameRow, 1), host) == "A"
  {
    assert TrimStart("A") == "A";
    assert TrimEnd("A") == "A";
  }

  /** The normal sheet: only column 1 has a header. */
  lemma MixedGridGroups(host: Host)
    ensures ParseSheet(Sheet("S 1", MixedGrid), host) == SheetData("S 1", [MixedGroup])
  {
    MixedHeaders();
    MixedMembers(host);
    MixedId();
    MixedName(host);
    assert MakeGroup("S 1", MixedGrid, 1, host) == MixedGroup;
  }

  lemma AliceRow(host: Host)
    requires host.parseFloat("16") == Some(16.0)
    ensures RowEntry(MixedWeights[0], host) == Some(WeightEntry("Alice", 16.0))
  {
    assert TrimStart("Alice") == "Alice";
    assert TrimEnd("Alice") == "Alice";
    assert Field(Str("Alice"), host) == "Alice";
  }

  lemma BobRow(host: Host)
    requires host.parseFloat("x") == None
    ensures RowEntry(MixedWeights[1], host) == None
  {
  }

  /** The reserved sheet: "Bob" has no parsable value. */
  lemma MixedWeightsImported(host: Host)
    requires host.parseFloat("16") == Some(16.0) && host.parseFloat("x") == None
    ensures ImportRows(map[], MixedWeights, host) == map["Alice" := 16.0]
  {
    AliceRow(host);
    BobRow(host);
    var es := RowEntries(MixedWeights, host);
    assert es == [Some(WeightEntry("Alice", 16.0)), None];
    assert es[..1][..0] == [];
    assert ApplyEntries(map[], es[..1]) == map["Alice" := 16.0];
  }

  /** A normal sheet with one named and one blank group column, and the
    * reserved sheet with one parsable and one unparsable weight: one
    * group, one imported weight. */
  lemma MixedWorkbook(host: Host)
    requires host.parseFloat("16") == Some(16.0) && host.parseFloat("x") == None
    ensures Parse([Sheet("S 1", MixedGrid), Sheet(ReservedSheet, MixedWeights)], host)
         == Ok(ParseResult(
              [SheetData("S 1", [MixedGroup])],
              map["Alice" := 16.0]))
  {
    var book := [Sheet("S 1", MixedGrid), Sheet(ReservedSheet, MixedWeights)];
    MixedGridGroups(host);
    MixedWeightsImported(host);
    assert "S 1" != ReservedSheet;
    assert book[..1][..0] == [];
    assert book[..2][..1] == book[..1];
    assert book[..2] == book;
    assert SheetsOf(book[..1], host) == [ParseSheet(book[0], host)];
    assert ImportedOf(book[..1], host) == map[];
    assert book[..|book| - 1] == book[..1];
    assert SheetsOf(book, host) == [SheetData("S 1", [MixedGroup])];
    assert ImportedOf(book, host) == ImportRows(map[], MixedWeights, host);
  }

  /** A header cell of white space only is truthy: its column becomes a
    * group whose trimmed name is empty. */
  lemma BlankHeaderMakesNamelessGroup(host: Host)
    ensures var grid := [[Empty, Str("  ")], BlankRow, BlankRow, BlankRow, BlankRow];
            |GroupsOf("S", grid, host)| == 1 && GroupsOf("S", grid, host)[0].name == ""
  {
    var grid := [[Empty, Str("  ")], BlankRow, BlankRow, BlankRow, BlankRow];
    assert HeaderColumns(grid, 1) == [];
    assert HeaderColumns(grid, 2) == [1];
  }
}
