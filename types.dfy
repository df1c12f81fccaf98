/** The records the parser produces and the views consume (types.ts). */
module Types {
  /** One clan column of a sheet. */
  datatype ClanGroup = ClanGroup(
    id: string,
    name: string,           // row 0
    tag: string,            // row 1
    status: string,         // row 2
    note: string,           // row 3
    members: seq<string>)   // rows 5 to 19, one slot per row

  /** A sheet of the workbook with the groups found in it, in column order. */
  datatype SheetData = SheetData(name: string, groups: seq<ClanGroup>)

  /** The weight store: member name to weight. */
  type MemberWeight = map<string, real>

  /** What a successful parse delivers: the visual sheets and the weights
    * read from the reserved sheet, kept apart until the caller merges them. */
  datatype ParseResult = ParseResult(sheets: seq<SheetData>, importedWeights: MemberWeight)
}
