/** A sheet as the ordered list of cell writes the export performs
    (`SetCellValue`), plus the coloured fills it applies (`SetCellStyle` with
    a pattern fill). A later write to the same cell overwrites an earlier
    one, so the value a cell ends up holding is that of its last write.
    Columns and rows are 1-based numbers (column 1 is "A"). */
module Cells {
  import opened Results
  import opened Dates

  /** Cell contents. Formatting is kept symbolic: `IsoDate(d)` is the
      "2006-01-02" layout of day d, `ShortDate(d)` the "01/02" layout, and
      `Percent(p)` is p printed with one decimal followed by "%". */
  datatype CellValue =
    | Text(s: string)
    | Int(n: int)
    | Percent(p: real)
    | IsoDate(d: Day)
    | ShortDate(d: Day)

  datatype Write = Write(col: int, row: int, value: CellValue)

  /** A pattern fill of `color` over columns fromCol..toCol of one row. */
  datatype Fill = Fill(fromCol: int, toCol: int, row: int, color: string)

  /** The cells of one sheet row as (column, value), in write order. */
  type Cells = seq<(int, CellValue)>

  /** The value a cell holds after all writes: the last write to it wins. */
  function Lookup(ws: seq<Write>, col: int, row: int): Option<CellValue>
  {
    if ws == [] then None
    else if ws[|ws| - 1].col == col && ws[|ws| - 1].row == row then Some(ws[|ws| - 1].value)
    else Lookup(ws[..|ws| - 1], col, row)
  }

  /** The value one row's cell list gives column `col`, last one winning. */
  function RowLookup(cells: Cells, col: int): Option<CellValue>
  {
    if cells == [] then None
    else if cells[|cells| - 1].0 == col then Some(cells[|cells| - 1].1)
    else RowLookup(cells[..|cells| - 1], col)
  }

  /** Values written into consecutive columns starting at `col0`. */
  function RowFrom(col0: int, values: seq<CellValue>): (cells: Cells)
    ensures |cells| == |values|
    ensures forall k :: 0 <= k < |values| ==> cells[k] == (col0 + k, values[k])
    decreases |values|
  {
    if values == [] then [] else [(col0, values[0])] + RowFrom(col0 + 1, values[1..])
  }

  /** Reading a row built from two parts: the second part wins where it has
      the column. */
  lemma {:induction false} RowLookupConcat(a: Cells, b: Cells, col: int)
    ensures RowLookup(a + b, col) == if RowLookup(b, col).Some? then RowLookup(b, col) else RowLookup(a, col)
    decreases |b|
  {
    if b != [] {
      assert (a + b)[..|a + b| - 1] == a + b[..|b| - 1];
      RowLookupConcat(a, b[..|b| - 1], col);
    } else {
      assert a + b == a;
    }
  }

  /** Consecutive columns read back their own values and nothing else. */
  lemma RowFromLookup(col0: int, values: seq<CellValue>, col: int)
    ensures RowLookup(RowFrom(col0, values), col) ==
      if col0 <= col < col0 + |values| then Some(values[col - col0]) else None
  {
    var cells := RowFrom(col0, values);
    if col0 <= col < col0 + |values| {
      RowLookupUnique(cells, col, col - col0);
    } else {
      RowLookupAbsent(cells, col);
    }
  }

  /** Writes one row's cells at row `row`, in order. */
  function EmitRow(cells: Cells, row: int): (ws: seq<Write>)
    ensures |ws| == |cells|
    ensures forall k :: 0 <= k < |cells| ==> ws[k] == Write(cells[k].0, row, cells[k].1)
  {
    if cells == [] then []
    else [Write(cells[0].0, row, cells[0].1)] + EmitRow(cells[1..], row)
  }

  /** Writes consecutive rows, the first at `row0`, as the source's
      `row++` loops do. */
  function EmitRows(rows: seq<Cells>, row0: int): (ws: seq<Write>)
    ensures forall k :: 0 <= k < |ws| ==> row0 <= ws[k].row < row0 + |rows|
  {
    if rows == [] then []
    else EmitRow(rows[0], row0) + EmitRows(rows[1..], row0 + 1)
  }

  /** Reading a cell after two batches of writes: the second batch wins
      where it wrote the cell. */
  lemma {:induction false} LookupConcat(a: seq<Write>, b: seq<Write>, col: int, row: int)
    ensures Lookup(a + b, col, row) == if Lookup(b, col, row).Some? then Lookup(b, col, row) else Lookup(a, col, row)
    decreases |b|
  {
    if b != [] {
      assert (a + b)[..|a + b| - 1] == a + b[..|b| - 1];
      LookupConcat(a, b[..|b| - 1], col, row);
    } else {
      assert a + b == a;
    }
  }

  /** A cell nobody wrote holds nothing. */
  lemma {:induction false} LookupUnwritten(ws: seq<Write>, col: int, row: int)
    requires forall k :: 0 <= k < |ws| ==> ws[k].col != col || ws[k].row != row
    ensures Lookup(ws, col, row) == None
    decreases |ws|
  {
    if ws != [] {
      LookupUnwritten(ws[..|ws| - 1], col, row);
    }
  }

  /** A cell written exactly once holds that write's value. */
  lemma {:induction false} LookupUnique(ws: seq<Write>, col: int, row: int, k: nat)
    requires k < |ws| && ws[k].col == col && ws[k].row == row
    requires forall j :: 0 <= j < |ws| && j != k ==> ws[j].col != col || ws[j].row != row
    ensures Lookup(ws, col, row) == Some(ws[k].value)
    decreases |ws|
  {
    if k != |ws| - 1 {
      LookupUnique(ws[..|ws| - 1], col, row, k);
    }
  }

  /** A column that appears once in a row's cells yields that cell's value. */
  lemma {:induction false} RowLookupUnique(cells: Cells, col: int, k: nat)
    requires k < |cells| && cells[k].0 == col
    requires forall j :: 0 <= j < |cells| && j != k ==> cells[j].0 != col
    ensures RowLookup(cells, col) == Some(cells[k].1)
    decreases |cells|
  {
    if k != |cells| - 1 {
      RowLookupUnique(cells[..|cells| - 1], col, k);
    }
  }

  /** A column that appears nowhere in a row's cells yields nothing. */
  lemma {:induction false} RowLookupAbsent(cells: Cells, col: int)
    requires forall j :: 0 <= j < |cells| ==> cells[j].0 != col
    ensures RowLookup(cells, col) == None
    decreases |cells|
  {
    if cells != [] {
      RowLookupAbsent(cells[..|cells| - 1], col);
    }
  }

  /** Reading a cell of `ws == a + b` from what each part gives it on its
      own: the value `b` writes there, else the one `a` writes, else none. */
  lemma LookupOverlay(ws: seq<Write>, a: seq<Write>, b: seq<Write>, col: int, row: int,
                      inB: bool, vb: CellValue, inA: bool, va: CellValue)
    requires ws == a + b
    requires Lookup(b, col, row) == if inB then Some(vb) else None
    requires Lookup(a, col, row) == if inA then Some(va) else None
    ensures Lookup(ws, col, row) == if inB then Some(vb) else if inA then Some(va) else None
  {
    LookupConcat(a, b, col, row);
  }

  /** Reading back one emitted row. */
  lemma {:induction false} EmitRowLookup(cells: Cells, row: int, col: int, r: int)
    ensures Lookup(EmitRow(cells, row), col, r) == if r == row then RowLookup(cells, col) else None
    decreases |cells|
  {
    if cells != [] {
      var ws := EmitRow(cells, row);
      assert ws[..|ws| - 1] == EmitRow(cells[..|cells| - 1], row);
      EmitRowLookup(cells[..|cells| - 1], row, col, r);
    }
  }

  /** Reading back emitted rows: row `row0 + k` holds exactly what
      `rows[k]` wrote, and rows outside the block hold nothing. */
  lemma {:induction false} EmitRowsLookup(rows: seq<Cells>, row0: int, col: int, r: int)
    ensures Lookup(EmitRows(rows, row0), col, r) ==
      if row0 <= r < row0 + |rows| then RowLookup(rows[r - row0], col) else None
    decreases |rows|
  {
    if rows != [] {
      EmitRowsLookup(rows[1..], row0 + 1, col, r);
      LookupConcat(EmitRow(rows[0], row0), EmitRows(rows[1..], row0 + 1), col, r);
      EmitRowLookup(rows[0], row0, col, r);
    }
  }

  /** Writes confined to rows below `r` do not affect row `r` or any row
      after it. */
  lemma LookupAfterPrefix(prefix: seq<Write>, body: seq<Write>, col: int, r: int)
    requires forall k :: 0 <= k < |prefix| ==> prefix[k].row < r
    ensures Lookup(prefix + body, col, r) == Lookup(body, col, r)
  {
    LookupConcat(prefix, body, col, r);
    LookupUnwritten(prefix, col, r);
  }

  /** Writes confined to rows from `row0` on do not affect rows before it. */
  lemma LookupBeforeSuffix(prefix: seq<Write>, body: seq<Write>, col: int, r: int, row0: int)
    requires r < row0
    requires forall k :: 0 <= k < |body| ==> body[k].row >= row0
    ensures Lookup(prefix + body, col, r) == Lookup(prefix, col, r)
  {
    LookupConcat(prefix, body, col, r);
    LookupUnwritten(body, col, r);
  }

  /** A sheet body of consecutive rows from `row0`, after writes confined to
      earlier rows: row `row0 + k` holds what `rows[k]` wrote, and rows past
      the body hold nothing. */
  lemma BodyLookup(prefix: seq<Write>, rows: seq<Cells>, row0: int, col: int, r: int)
    requires forall k :: 0 <= k < |prefix| ==> prefix[k].row < row0
    requires row0 <= r
    ensures Lookup(prefix + EmitRows(rows, row0), col, r) ==
      if r < row0 + |rows| then RowLookup(rows[r - row0], col) else None
  {
    LookupAfterPrefix(prefix, EmitRows(rows, row0), col, r);
    EmitRowsLookup(rows, row0, col, r);
  }

  /** `BodyLookup` for a sheet whose writes are given by an equation. */
  lemma SheetBodyLookup(ws: seq<Write>, prefix: seq<Write>, rows: seq<Cells>, row0: int, col: int, r: int)
    requires ws == prefix + EmitRows(rows, row0)
    requires forall k :: 0 <= k < |prefix| ==> prefix[k].row < row0
    requires row0 <= r
    ensures Lookup(ws, col, r) == if r < row0 + |rows| then RowLookup(rows[r - row0], col) else None
  {
    BodyLookup(prefix, rows, row0, col, r);
  }

  /** One whole body row read back: row `row0 + n` holds what `rows[n]` wrote. */
  lemma SheetRowAt(ws: seq<Write>, prefix: seq<Write>, rows: seq<Cells>, row0: int, n: nat, row: Cells)
    requires ws == prefix + EmitRows(rows, row0)
    requires forall k :: 0 <= k < |prefix| ==> prefix[k].row < row0
    requires n < |rows| && rows[n] == row
    ensures forall col :: Lookup(ws, col, row0 + n) == RowLookup(row, col)
  {
    forall col
      ensures Lookup(ws, col, row0 + n) == RowLookup(row, col)
    {
      SheetBodyLookup(ws, prefix, rows, row0, col, row0 + n);
    }
  }

  /** Rows above a sheet body hold what the writes before the body put there. */
  lemma SheetPrefixLookup(ws: seq<Write>, prefix: seq<Write>, rows: seq<Cells>, row0: int, col: int, r: int)
    requires ws == prefix + EmitRows(rows, row0)
    requires r < row0
    ensures Lookup(ws, col, r) == Lookup(prefix, col, r)
  {
    LookupBeforeSuffix(prefix, EmitRows(rows, row0), col, r, row0);
  }
}
