/**
 * The cell grid of one worksheet as the spreadsheet library hands it over
 * (an array of rows, each an array of cells), and the JavaScript coercions
 * the parser applies to a cell.
 */
module Cells {
  import opened Wrappers
  import opened Text

  /** A cell: text, a number, or nothing at all (`undefined`). */
  datatype Cell = Str(text: string) | Num(value: real) | Empty

  type Row = seq<Cell>

  type Grid = seq<Row>

  /** JavaScript behaviour the parser relies on but that is not modelled:
    * `String(x)` of a number, and `parseFloat` (`None` stands for NaN). */
  datatype Host = Host(numberText: real -> string, parseFloat: string -> Option<real>)

  /** `row[c]`, reading `undefined` past the end of the row. */
  function CellIn(row: Row, c: int): Cell
  {
    if 0 <= c < |row| then row[c] else Empty
  }

  /** `grid[r][c]`, reading `undefined` past the end of the grid or of the row. */
  function At(grid: Grid, r: int, c: int): (cell: Cell)
    ensures Truthy(cell) <==> 0 <= r < |grid| && 0 <= c < |grid[r]| && Truthy(grid[r][c])
  {
    if 0 <= r < |grid| then CellIn(grid[r], c) else Empty
  }

  /** JavaScript truthiness of a cell value: the empty string, the number 0
    * and `undefined` are falsy. */
  predicate Truthy(cell: Cell)
  {
    match cell
    case Str(s) => s != ""
    case Num(x) => x != 0.0
    case Empty => false
  }

  /** `String(cell)` for a cell that is not `undefined`. */
  function ToStr(cell: Cell, host: Host): string
  {
    match cell
    case Str(s) => s
    case Num(x) => host.numberText(x)
    case Empty => ""
  }

  /** `String(cell || '').trim()`: the trimmed text of a truthy cell, "" otherwise. */
  function Field(cell: Cell, host: Host): (t: string)
    ensures !Truthy(cell) ==> t == ""
  {
    Trim(if Truthy(cell) then ToStr(cell, host) else "")
  }

  /** A field never starts or ends with white space. */
  lemma FieldTrimmed(cell: Cell, host: Host)
    ensures Trimmed(Field(cell, host))
  {
    TrimSpec(if Truthy(cell) then ToStr(cell, host) else "");
  }
}
