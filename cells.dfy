/** Cell values as the spreadsheet library hands them to the program. */
module Cells {
  import opened Text
  import opened Dates
  import opened Wrappers

  /**
   * `None`, a string, an integer, a `datetime`, or any other value (a float, a bool,
   * a time, ...), which the model knows only by its `str()` text.
   */
  datatype Cell = Empty | Str(s: string) | Int(i: int) | Date(d: DateTime) | Other(text: string)

  /** `str(value)`. */
  function PyStr(c: Cell): string {
    match c
    case Empty => "None"
    case Str(s) => s
    case Int(i) => IntToString(i)
    case Date(d) => DateText(d)
    case Other(t) => t
  }

  /** Python truthiness of the value (other values count as truthy). */
  predicate Truthy(c: Cell) {
    match c
    case Empty => false
    case Str(s) => s != ""
    case Int(i) => i != 0
    case Date(_) => true
    case Other(_) => true
  }

  /** `cell.value if cell.value is not None else ''`. */
  function BlankToText(c: Cell): Cell {
    if c.Empty? then Str("") else c
  }

  /** The 1-based entry j of a row tuple; positions past its end read as `None`. */
  function Nth(row: seq<Cell>, j: int): Cell {
    if 1 <= j <= |row| then row[j - 1] else Empty
  }

  /** pandas `to_datetime(value, errors='coerce')`, left abstract; `None` stands for `NaT`. */
  type ToDatetime = Cell -> Option<DateTime>
}
