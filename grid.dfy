/** The in-memory spreadsheet: a workbook is an ordered list of named sheets;
    a sheet is a sparse grid (row index -> row, column index -> cell) in which
    rows and cells may be absent. */
module Grid {
  import opened Text

  /** A cell is blank or holds a value; formats and styles are not modelled. */
  datatype Cell = Blank | TextValue(text: string) | NumberValue(number: int) | DateValue(date: Date)

  type Row = map<nat, Cell>
  type Rows = map<nat, Row>

  /** The row with the cell at col set (created if absent). */
  function Put(row: Row, col: nat, cell: Cell): (r: Row)
    ensures r.Keys == row.Keys + {col} && r[col] == cell
    ensures forall c :: c in row && c != col ==> r[c] == row[c]
  {
    row[col := cell]
  }

  /** Some existing cell of the row, in columns startCol..endCol, is non-blank. */
  predicate HasDataIn(row: Row, startCol: nat, endCol: nat) {
    exists c :: c in row && startCol <= c <= endCol && row[c] != Blank
  }

  /** Some existing cell of the row is non-blank. */
  predicate HasData(row: Row) {
    exists c :: c in row && row[c] != Blank
  }

  /** The greatest element of a non-empty set of indices. */
  ghost function MaxOf(s: set<nat>): (m: nat)
    requires s != {}
    ensures m in s && forall k :: k in s ==> k <= m
    decreases s
  {
    var x :| x in s;
    var rest := s - {x};
    if rest == {} then
      assert forall k :: k in s ==> k == x by {
        forall k | k in s ensures k == x { assert k !in rest; }
      }
      x
    else
      var m := MaxOf(rest);
      assert forall k :: k in s ==> k == x || k in rest;
      if x > m then x else m
  }

  /** The sheet's last physical row index (`getLastRowNum`): the greatest
      existing row index, or -1 when the sheet has no row at all. */
  function LastRowNum(rows: Rows): (last: int)
    ensures -1 <= last
    ensures last == -1 <==> rows == map[]
    ensures last >= 0 ==> last in rows
    ensures forall r :: r in rows ==> r <= last
  {
    if rows == map[] then -1
    else
      var top := MaxOf(rows.Keys);
      assert top in rows && forall k :: k in rows ==> k <= top;
      var m :| m in rows && forall k :: k in rows ==> k <= m;
      m
  }

  // ---------------------------------------------------------------------
  // Range clear (the effect of `clearSheetDataRange`)
  // ---------------------------------------------------------------------

  /** The row with its existing cells in startCol..endCol set blank. */
  function BlankWindow(row: Row, startCol: nat, endCol: nat): Row {
    map c | c in row :: if startCol <= c <= endCol then Blank else row[c]
  }

  /** The grid after clearing columns startCol..endCol of every row from
      startRow on: only rows holding data in the window are touched. */
  function ClearedRange(rows: Rows, startRow: nat, startCol: nat, endCol: nat): (after: Rows)
    ensures after.Keys == rows.Keys
    ensures forall r :: r in rows ==> after[r].Keys == rows[r].Keys
    ensures forall r :: r in rows && r < startRow ==> after[r] == rows[r]
    ensures forall r, c :: r in rows && c in rows[r] && !(startCol <= c <= endCol) ==> after[r][c] == rows[r][c]
    ensures forall r, c :: r in after && startRow <= r && c in after[r] && startCol <= c <= endCol ==> after[r][c] == Blank
  {
    map r | r in rows ::
      if startRow <= r && HasDataIn(rows[r], startCol, endCol) then BlankWindow(rows[r], startCol, endCol) else rows[r]
  }

  /** The number of existing rows r with from <= r < to holding data in the window. */
  function CountIn(rows: Rows, from: nat, to: int, startCol: nat, endCol: nat): nat
    decreases if to <= from then 0 else to - from
  {
    if to <= from then 0
    else CountIn(rows, from, to - 1, startCol, endCol)
         + (if to - 1 in rows && HasDataIn(rows[to - 1], startCol, endCol) then 1 else 0)
  }

  /** The count `clearSheetDataRange` returns: rows startRow..getLastRowNum with data in the window. */
  function ClearedCount(rows: Rows, startRow: nat, startCol: nat, endCol: nat): nat {
    CountIn(rows, startRow, LastRowNum(rows) + 1, startCol, endCol)
  }

  /** The existing rows in from..to-1 that hold data in the window. */
  ghost function DataRows(rows: Rows, from: nat, to: int, startCol: nat, endCol: nat): set<nat> {
    set r | r in rows && from <= r < to && HasDataIn(rows[r], startCol, endCol)
  }

  /** The counter counts exactly the rows that hold data in the window. */
  lemma {:induction false} CountInIsCardinality(rows: Rows, from: nat, to: int, startCol: nat, endCol: nat)
    ensures CountIn(rows, from, to, startCol, endCol) == |DataRows(rows, from, to, startCol, endCol)|
    decreases if to <= from then 0 else to - from
  {
    if to <= from {
      assert DataRows(rows, from, to, startCol, endCol) == {};
    } else {
      CountInIsCardinality(rows, from, to - 1, startCol, endCol);
      var prev := DataRows(rows, from, to - 1, startCol, endCol);
      if to - 1 in rows && HasDataIn(rows[to - 1], startCol, endCol) {
        assert DataRows(rows, from, to, startCol, endCol) == prev + {to - 1};
        assert to - 1 !in prev;
      } else {
        assert DataRows(rows, from, to, startCol, endCol) == prev;
      }
    }
  }

  /** The counter never exceeds the number of row indices scanned. */
  lemma {:induction false} CountInBound(rows: Rows, from: nat, to: int, startCol: nat, endCol: nat)
    ensures CountIn(rows, from, to, startCol, endCol) <= (if to <= from then 0 else to - from)
    decreases if to <= from then 0 else to - from
  {
    if to > from {
      CountInBound(rows, from, to - 1, startCol, endCol);
    }
  }

  /** 0 <= count <= max(0, lastRowNum - startRow + 1), and the count is the
      cardinality of the set of existing rows from startRow on with data in the window. */
  lemma ClearedCountMeaning(rows: Rows, startRow: nat, startCol: nat, endCol: nat)
    ensures ClearedCount(rows, startRow, startCol, endCol) == |DataRows(rows, startRow, LastRowNum(rows) + 1, startCol, endCol)|
    ensures ClearedCount(rows, startRow, startCol, endCol)
            <= (if LastRowNum(rows) < startRow then 0 else LastRowNum(rows) - startRow + 1)
    ensures ClearedCount(rows, startRow, startCol, endCol) == 0
            <==> forall r :: r in rows && startRow <= r ==> !HasDataIn(rows[r], startCol, endCol)
  {
    var last := LastRowNum(rows);
    CountInIsCardinality(rows, startRow, last + 1, startCol, endCol);
    CountInBound(rows, startRow, last + 1, startCol, endCol);
    var d := DataRows(rows, startRow, last + 1, startCol, endCol);
    if d == {} {
      forall r | r in rows && startRow <= r
        ensures !HasDataIn(rows[r], startCol, endCol)
      {
        assert r !in d;
      }
    } else {
      var r :| r in d;
    }
  }

  /** Clearing twice: the second pass finds nothing to clear and changes nothing;
      the last physical row is unchanged. */
  lemma ClearTwice(rows: Rows, startRow: nat, startCol: nat, endCol: nat)
    ensures var after := ClearedRange(rows, startRow, startCol, endCol);
            && ClearedRange(after, startRow, startCol, endCol) == after
            && ClearedCount(after, startRow, startCol, endCol) == 0
            && LastRowNum(after) == LastRowNum(rows)
  {
    var after := ClearedRange(rows, startRow, startCol, endCol);
    forall r | r in after && startRow <= r
      ensures !HasDataIn(after[r], startCol, endCol)
    {
    }
    ClearedCountMeaning(after, startRow, startCol, endCol);
    assert after.Keys == rows.Keys;
  }

  // ---------------------------------------------------------------------
  // Last data row (the result of `findLastDataRow`)
  // ---------------------------------------------------------------------

  /** The downward scan from row i: the first row met that holds data, else 0. */
  function LastDataRowFrom(rows: Rows, i: int): (r: nat)
    ensures r == 0 || (r in rows && r <= i && HasData(rows[r]))
    ensures forall k :: k in rows && r < k <= i ==> !HasData(rows[k])
    ensures (exists k :: k in rows && k <= i && HasData(rows[k])) ==> r in rows && HasData(rows[r])
    decreases i + 1
  {
    if i < 0 then 0
    else if i in rows && HasData(rows[i]) then i
    else LastDataRowFrom(rows, i - 1)
  }

  /** The greatest existing row index holding a non-blank cell, or 0 when there is none. */
  function LastDataRow(rows: Rows): (r: nat)
    ensures (exists k :: k in rows && HasData(rows[k])) ==>
              r in rows && HasData(rows[r]) && forall k :: k in rows && HasData(rows[k]) ==> k <= r
    ensures (forall k :: k in rows ==> !HasData(rows[k])) ==> r == 0
  {
    LastDataRowFrom(rows, LastRowNum(rows))
  }

  /** The grid after `createRow(n)` and a date written into column 0 of it,
      where n is one past the last data row. `createRow` is taken to install
      a fresh, empty row even when row n already exists. */
  function WithDateRow(rows: Rows, date: Date): Rows {
    var n := LastDataRow(rows) + 1;
    var created := rows[n := map[]];
    created[n := Put(created[n], 0, DateValue(date))]
  }

  /** Appending a date row moves the last data row exactly one down, and an
      empty sheet gets its date at row 1, below the header row 0. */
  lemma DateRowAdvancesLastDataRow(rows: Rows, date: Date)
    ensures LastDataRow(WithDateRow(rows, date)) == LastDataRow(rows) + 1
    ensures (forall k :: k in rows ==> !HasData(rows[k])) ==> LastDataRow(WithDateRow(rows, date)) == 1
    ensures forall k :: k in rows && k != LastDataRow(rows) + 1 ==> WithDateRow(rows, date)[k] == rows[k]
  {
    var n := LastDataRow(rows) + 1;
    var after := WithDateRow(rows, date);
    assert after[n][0] != Blank;
    assert HasData(after[n]);
    forall k | k in after && HasData(after[k])
      ensures k <= n
    {
      if k != n {
        assert after[k] == rows[k];
      }
    }
  }

  // ---------------------------------------------------------------------
  // Sheets and workbooks as in-memory objects
  // ---------------------------------------------------------------------

  /** A sheet as stored in a file. */
  datatype SheetValue = SheetValue(name: string, rows: Rows)

  /** A workbook as stored in a file: its sheets in order. */
  type Book = seq<SheetValue>

  /** The index of the first occurrence of name, or -1 (`getSheetIndex`). */
  function FirstIndex(names: seq<string>, name: string): (i: int)
    ensures -1 <= i < |names|
    ensures i == -1 <==> name !in names
    ensures i >= 0 ==> names[i] == name && name !in names[..i]
  {
    if names == [] then -1
    else if names[0] == name then 0
    else
      var k := FirstIndex(names[1..], name);
      assert names == [names[0]] + names[1..];
      if k < 0 then -1
      else
        assert names[..k + 1] == [names[0]] + names[1..][..k];
        k + 1
  }

  function NamesOf(book: Book): (names: seq<string>)
    ensures |names| == |book| && forall i :: 0 <= i < |book| ==> names[i] == book[i].name
  {
    seq(|book|, i requires 0 <= i < |book| => book[i].name)
  }

  /** The index of the sheet called name in a stored workbook, or -1. */
  function IndexOfSheet(book: Book, name: string): (i: int)
    ensures -1 <= i < |book|
    ensures i == -1 <==> forall j :: 0 <= j < |book| ==> book[j].name != name
    ensures i >= 0 ==> book[i].name == name && forall j :: 0 <= j < i ==> book[j].name != name
  {
    var names := NamesOf(book);
    var i := FirstIndex(names, name);
    assert i >= 0 ==> forall j :: 0 <= j < i ==> names[..i][j] == names[j];
    assert i == -1 ==> forall j :: 0 <= j < |book| ==> names[j] != name;
    i
  }

  /** The workbook with the rows of sheet i replaced. */
  function WithRows(book: Book, i: nat, rows: Rows): (b: Book)
    requires i < |book|
    ensures |b| == |book| && b[i] == SheetValue(book[i].name, rows)
    ensures forall j :: 0 <= j < |book| && j != i ==> b[j] == book[j]
  {
    book[i := book[i].(rows := rows)]
  }

  /** Replacing the rows of a sheet twice keeps only the second. */
  lemma WithRowsTwice(book: Book, i: nat, first: Rows, second: Rows)
    requires i < |book|
    ensures WithRows(WithRows(book, i, first), i, second) == WithRows(book, i, second)
  {
  }

  /** Replacing the rows of a sheet by its own rows changes nothing. */
  lemma WithRowsSame(book: Book, i: nat)
    requires i < |book|
    ensures WithRows(book, i, book[i].rows) == book
  {
  }

  /** An open workbook (`XSSFWorkbook`): its sheets in order, edited in place.
      A sheet handle (`Sheet`) is modelled by the sheet's position. */
  class Workbook {
    var book: Book

    /** `new XSSFWorkbook(stream)`: the stored content, open for editing. */
    constructor Open(stored: Book)
      ensures book == stored
    {
      book := stored;
    }

    function GetNumberOfSheets(): nat
      reads this
    {
      |book|
    }

    /** `getSheetIndex(name)`; `getSheet(name)` is null exactly when this is negative. */
    function GetSheetIndex(name: string): int
      reads this
    {
      IndexOfSheet(book, name)
    }

    /** `getLastRowNum()` of sheet i. */
    function GetLastRowNum(i: nat): int
      requires i < |book|
      reads this
    {
      LastRowNum(book[i].rows)
    }

    /** `createRow(index)` on sheet i: a fresh empty row at index. */
    method CreateRow(i: nat, index: nat)
      requires i < |book|
      modifies this
      ensures book == WithRows(old(book), i, old(book)[i].rows[index := map[]])
    {
      book := WithRows(book, i, book[i].rows[index := map[]]);
    }

    /** `row.createCell(col)` followed by `setCellValue`, on sheet i. */
    method SetCell(i: nat, row: nat, col: nat, cell: Cell)
      requires i < |book| && row in book[i].rows
      modifies this
      ensures book == WithRows(old(book), i, old(book)[i].rows[row := Put(old(book)[i].rows[row], col, cell)])
    {
      book := WithRows(book, i, book[i].rows[row := Put(book[i].rows[row], col, cell)]);
    }

    /** `cell.setBlank()` on an existing cell of sheet i: the cell stays, its value goes. */
    method SetBlank(i: nat, row: nat, col: nat)
      requires i < |book| && row in book[i].rows && col in book[i].rows[row]
      modifies this
      ensures book == WithRows(old(book), i, old(book)[i].rows[row := Put(old(book)[i].rows[row], col, Blank)])
    {
      book := WithRows(book, i, book[i].rows[row := Put(book[i].rows[row], col, Blank)]);
    }

    /** `removeRow(row)` on sheet i: the row disappears. */
    method RemoveRow(i: nat, index: nat)
      requires i < |book| && index in book[i].rows
      modifies this
      ensures book == WithRows(old(book), i, old(book)[i].rows - {index})
    {
      book := WithRows(book, i, book[i].rows - {index});
    }
  }
}
