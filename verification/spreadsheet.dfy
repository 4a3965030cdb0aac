/**
 * Spreadsheet cells as the XLSX reader hands them to the import code: empty (null or
 * undefined), text, a number together with its JavaScript text form `String(n)`, or a
 * boolean.
 */
module Spreadsheet {
  datatype Cell = Blank | Text(s: string) | Numeric(n: real, shown: string) | Flag(b: bool)

  /** JavaScript truthiness of a cell: empty cells, "", 0 and false are falsy. */
  predicate Filled(c: Cell) {
    match c
    case Blank => false
    case Text(s) => s != []
    case Numeric(n, _) => n != 0.0
    case Flag(b) => b
  }

  /** `String(c)` for a cell that is present. */
  function CellText(c: Cell): (s: string)
    requires !c.Blank?
    ensures c.Text? ==> s == c.s
  {
    match c
    case Text(s) => s
    case Numeric(_, shown) => shown
    case Flag(b) => if b then "true" else "false"
  }

  /** `row[k]`: the cell at k, or an empty cell past the end of the row. */
  function CellAt(row: seq<Cell>, k: nat): (c: Cell)
    ensures k >= |row| ==> c == Blank
    ensures k < |row| ==> c == row[k]
  {
    if k < |row| then row[k] else Blank
  }

  /** `a || b` on cells: the first one when it is truthy. */
  function Or(a: Cell, b: Cell): (c: Cell)
    ensures Filled(a) ==> c == a
    ensures !Filled(a) ==> c == b
  {
    if Filled(a) then a else b
  }
}
