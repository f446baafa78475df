/**
 * The in-memory workbook: a sheet is a grid of cells addressed by 1-based row and
 * column, with `max_row` rows and `max_column` columns; a workbook is an ordered
 * sequence of sheets with distinct titles.
 */
module Sheets {
  import opened Text
  import opened Cells
  import opened Wrappers

  type Row = seq<Cell>

  /** Every row holds exactly `width` cells. */
  predicate Rectangular(rows: seq<Row>, width: nat) {
    forall i | 0 <= i < |rows| :: |rows[i]| == width
  }

  /** The value of cell (r, c); a cell outside the grid reads as `None`. */
  function At(rows: seq<Row>, r: int, c: int): Cell {
    if 1 <= r <= |rows| then Nth(rows[r - 1], c) else Empty
  }

  /** Row r over columns 1..width, as `iter_rows(min_row=r, max_row=r, max_col=width)` yields it. */
  function RowValues(rows: seq<Row>, width: nat, r: int): (vals: Row)
    ensures |vals| == width
  {
    seq(width, j requires 0 <= j < width => At(rows, r, j + 1))
  }

  /** `iter_rows(min_row=headerRow + 1, max_row=max_row, max_col=width)`: rows below the header row through the last row, each `width` cells wide. */
  function DataRows(rows: seq<Row>, width: nat, headerRow: nat): (data: seq<Row>)
    ensures |data| == Max(|rows| - headerRow, 0)
    ensures forall i | 0 <= i < |data| :: data[i] == RowValues(rows, width, headerRow + 1 + i)
  {
    seq(Max(|rows| - headerRow, 0), i requires 0 <= i => RowValues(rows, width, headerRow + 1 + i))
  }

  /** The same grid padded with empty cells to h rows of w columns. */
  function Grown(rows: seq<Row>, width: nat, h: nat, w: nat): (g: seq<Row>)
    requires Rectangular(rows, width) && |rows| <= h && width <= w
    ensures Rectangular(g, w) && |g| == h
    ensures forall i, j :: At(g, i, j) == At(rows, i, j)
  {
    seq(h, i requires 0 <= i < h => seq(w, j requires 0 <= j < w => At(rows, i + 1, j + 1)))
  }

  /** A worksheet whose cells the pipeline rewrites in place. */
  class Sheet {
    const title: string
    var rows: seq<Row>
    var width: nat

    ghost predicate Valid()
      reads this
    {
      Rectangular(rows, width)
    }

    constructor (title: string)
      ensures this.title == title && rows == [] && width == 0 && Valid()
    {
      this.title := title;
      rows := [];
      width := 0;
    }

    /** `cell.value = v`: writes one cell, growing the grid to reach it. */
    method SetCell(r: nat, c: nat, v: Cell)
      requires Valid() && 1 <= r && 1 <= c
      modifies this
      ensures Valid()
      ensures |rows| == Max(old(|rows|), r) && width == Max(old(width), c)
      ensures forall i, j :: At(rows, i, j) == if i == r && j == c then v else At(old(rows), i, j)
    {
      var w := Max(width, c);
      var g := Grown(rows, width, Max(|rows|, r), w);
      rows := g[r - 1 := g[r - 1][c - 1 := v]];
      width := w;
    }

    /**
     * `sheet.cell(row=r, column=c, value=v)`: the cell is created, growing the grid
     * to reach it, but `v` is stored only when it is not `None`; a `None` leaves the
     * cell's value as it was.
     */
    method WriteCell(r: nat, c: nat, v: Cell)
      requires Valid() && 1 <= r && 1 <= c
      modifies this
      ensures Valid()
      ensures |rows| == Max(old(|rows|), r) && width == Max(old(width), c)
      ensures forall i, j :: At(rows, i, j) == if i == r && j == c && !v.Empty? then v else At(old(rows), i, j)
    {
      SetCell(r, c, if v.Empty? then At(rows, r, c) else v);
    }

    /** `sheet.append(vals)`: adds the values as a new last row. */
    method AppendRow(vals: Row)
      requires Valid()
      modifies this
      ensures Valid()
      ensures |rows| == old(|rows|) + 1 && width == Max(old(width), |vals|)
      ensures forall i, j :: At(rows, i, j) == if i == old(|rows|) + 1 then Nth(vals, j) else At(old(rows), i, j)
    {
      var g, w := rows, Max(width, |vals|);
      rows := seq(|g| + 1, i requires 0 <= i <= |g| =>
        seq(w, j requires 0 <= j < w => if i == |g| then Nth(vals, j + 1) else At(g, i + 1, j + 1)));
      width := w;
    }

    /** `sheet.delete_rows(idx, amount)`: removes rows idx..idx+amount-1; the rows below move up. */
    method DeleteRows(idx: nat, amount: nat)
      requires Valid() && 1 <= idx
      modifies this
      ensures Valid() && width == old(width)
      ensures |rows| == if idx > old(|rows|) then old(|rows|) else idx - 1 + Max(old(|rows|) - (idx - 1 + amount), 0)
      ensures forall i, j {:trigger At(rows, i, j)} :: At(rows, i, j) == if i < idx then At(old(rows), i, j) else At(old(rows), i + amount, j)
    {
      if idx <= |rows| {
        var cut := if idx - 1 + amount <= |rows| then idx - 1 + amount else |rows|;
        var g := rows;
        rows := g[..idx - 1] + g[cut..];
        forall i, j
          ensures At(rows, i, j) == if i < idx then At(old(rows), i, j) else At(old(rows), i + amount, j)
        {
          if 1 <= i < idx {
            assert rows[i - 1] == g[i - 1];
          } else if idx <= i <= |rows| {
            assert rows[i - 1] == g[i - 1 + amount];
          } else if i > |rows| {
            assert i + amount > |g|;
          }
        }

      }
    }
  }

  /** The value of one sheet at one moment: its title, its cells, its column count. */
  datatype SheetState = SheetState(title: string, rows: seq<Row>, width: nat)

  /** The value of every sheet, in workbook order. */
  function Snapshot(sheets: seq<Sheet>): (ss: seq<SheetState>)
    reads sheets
    ensures |ss| == |sheets|
    ensures forall i | 0 <= i < |sheets| :: ss[i] == SheetState(sheets[i].title, sheets[i].rows, sheets[i].width)
  {
    seq(|sheets|, i reads sheets requires 0 <= i < |sheets| => SheetState(sheets[i].title, sheets[i].rows, sheets[i].width))
  }

  function StateTitles(ss: seq<SheetState>): (ts: seq<string>)
    ensures |ts| == |ss| && forall i | 0 <= i < |ss| :: ts[i] == ss[i].title
  {
    seq(|ss|, i requires 0 <= i < |ss| => ss[i].title)
  }

  /** The titles of a snapshot are the workbook's titles. */
  lemma SnapshotTitles(sheets: seq<Sheet>)
    ensures StateTitles(Snapshot(sheets)) == Titles(sheets)
  {
  }

  /** The sheet holds exactly the cells of the grid, and as many rows. */
  ghost predicate SameCells(rows: seq<Row>, grid: seq<Row>) {
    |rows| == |grid| && forall i, j :: At(rows, i, j) == At(grid, i, j)
  }

  /** `workbook.sheetnames`. */
  function Titles(sheets: seq<Sheet>): (ts: seq<string>)
    ensures |ts| == |sheets| && forall i | 0 <= i < |sheets| :: ts[i] == sheets[i].title
  {
    seq(|sheets|, i requires 0 <= i < |sheets| => sheets[i].title)
  }

  predicate UniqueTitles(titles: seq<string>) {
    forall i, j | 0 <= i < j < |titles| :: titles[i] != titles[j]
  }

  /** The position of the sheet called `name`, as `workbook[name]` finds it. */
  function IndexOfTitle(titles: seq<string>, name: string): (k: Option<nat>)
    ensures k.None? <==> name !in titles
    ensures k.Some? ==> k.value < |titles| && titles[k.value] == name
  {
    if titles == [] then None
    else if titles[|titles| - 1] == name then Some(|titles| - 1)
    else IndexOfTitle(titles[..|titles| - 1], name)
  }

  /** With distinct titles, a title found at position k is found at no other position. */
  lemma UniqueIndex(titles: seq<string>, k: nat, name: string)
    requires UniqueTitles(titles) && k < |titles| && titles[k] == name
    ensures IndexOfTitle(titles, name) == Some(k)
  {
  }

  /** A workbook: at least one sheet, titles pairwise distinct, every sheet rectangular. */
  class Workbook {
    var sheets: seq<Sheet>

    ghost predicate Valid()
      reads this, sheets
    {
      |sheets| > 0 && UniqueTitles(Titles(sheets)) && forall i | 0 <= i < |sheets| :: sheets[i].Valid()
    }

    /** The value of the whole workbook. */
    function State(): seq<SheetState>
      reads this, sheets
    {
      Snapshot(sheets)
    }

    constructor (sheets: seq<Sheet>)
      ensures this.sheets == sheets
    {
      this.sheets := sheets;
    }

    /** `workbook.create_sheet(title=title)`: a new empty sheet at the end of the workbook. */
    method CreateSheet(title: string) returns (s: Sheet)
      requires Valid() && title !in Titles(sheets)
      modifies this
      ensures Valid() && fresh(s)
      ensures sheets == old(sheets) + [s] && s.title == title && s.rows == [] && s.width == 0
    {
      s := new Sheet(title);
      sheets := sheets + [s];
      assert Titles(sheets) == Titles(old(sheets)) + [title];
    }
  }
}
