/** The workbook pipeline service: each step opens the stored workbook,
    edits its sheets in place, saves it back and reports a TaskResult. Every
    method is proved to do what the matching function of Steps says. */
module Excel {
  import opened Text
  import opened Grid
  import opened Files
  import opened FileNames
  import opened Config
  import opened Tasks
  import opened Steps

  /** Rows with data in `startCol..endCol` and index in `startRow..upTo-1` blanked in that window. */
  ghost function ClearedUpTo(rows: Rows, startRow: nat, upTo: int, startCol: nat, endCol: nat): Rows {
    map r | r in rows ::
      if startRow <= r < upTo && HasDataIn(rows[r], startCol, endCol) then BlankWindow(rows[r], startCol, endCol) else rows[r]
  }

  /** One more row index scanned: that row is blanked when it holds data in the window. */
  lemma ClearedUpToStep(rows: Rows, startRow: nat, r: nat, startCol: nat, endCol: nat)
    requires startRow <= r
    ensures ClearedUpTo(rows, startRow, r + 1, startCol, endCol)
         == if r in rows && HasDataIn(rows[r], startCol, endCol)
            then ClearedUpTo(rows, startRow, r, startCol, endCol)[r := BlankWindow(rows[r], startCol, endCol)]
            else ClearedUpTo(rows, startRow, r, startCol, endCol)
  {
  }

  /** Before the scan nothing is blanked; past the last row the scan has done the whole range. */
  lemma ClearedUpToEnds(rows: Rows, startRow: nat, upTo: int, startCol: nat, endCol: nat)
    ensures upTo <= startRow ==> ClearedUpTo(rows, startRow, upTo, startCol, endCol) == rows
    ensures upTo > LastRowNum(rows) ==> ClearedUpTo(rows, startRow, upTo, startCol, endCol) == ClearedRange(rows, startRow, startCol, endCol)
  {
  }

  /** The row with its existing cells in `startCol..upTo-1` blanked. */
  ghost function BlankedUpTo(row: Row, startCol: nat, upTo: int): Row {
    map c | c in row :: if startCol <= c < upTo then Blank else row[c]
  }

  /** The `hasData` scan of `clearSheetDataRange`: columns startCol..endCol,
      stopping at the first existing non-blank cell. */
  method RowHasData(row: Row, startCol: nat, endCol: nat) returns (hasData: bool)
    ensures hasData == HasDataIn(row, startCol, endCol)
  {
    hasData := false;
    var colIdx: int := startCol;
    while colIdx <= endCol
      invariant startCol <= colIdx && (colIdx <= endCol + 1 || colIdx == startCol)
      invariant !hasData
      invariant forall c :: c in row && startCol <= c < colIdx ==> row[c] == Blank
      decreases endCol - colIdx
    {
      if colIdx in row && row[colIdx] != Blank {
        hasData := true;
        return;
      }
      colIdx := colIdx + 1;
    }
  }

  /** The blanking loop of `clearSheetDataRange`: every existing cell of row
      rowIdx of sheet i in columns startCol..endCol is set blank. */
  method BlankRowWindow(workbook: Workbook, i: nat, rowIdx: nat, startCol: nat, endCol: nat)
    requires i < |workbook.book| && rowIdx in workbook.book[i].rows
    modifies workbook
    ensures var rows := old(workbook.book)[i].rows;
            workbook.book == WithRows(old(workbook.book), i, rows[rowIdx := BlankWindow(rows[rowIdx], startCol, endCol)])
  {
    ghost var book := workbook.book;
    ghost var row := book[i].rows[rowIdx];
    var colIdx: int := startCol;
    assert BlankedUpTo(row, startCol, colIdx) == row;
    assert book[i].rows[rowIdx := row] == book[i].rows;
    WithRowsSame(book, i);
    while colIdx <= endCol
      invariant startCol <= colIdx && (colIdx <= endCol + 1 || colIdx == startCol)
      invariant workbook.book == WithRows(book, i, book[i].rows[rowIdx := BlankedUpTo(row, startCol, colIdx)])
      decreases endCol - colIdx
    {
      if colIdx in workbook.book[i].rows[rowIdx] {
        ghost var current := workbook.book[i].rows;
        ghost var blanked := Put(current[rowIdx], colIdx, Blank);
        workbook.SetBlank(i, rowIdx, colIdx);
        WithRowsTwice(book, i, current, current[rowIdx := blanked]);
        assert current[rowIdx := blanked] == book[i].rows[rowIdx := blanked];
        assert BlankedUpTo(row, startCol, colIdx + 1) == blanked;
      } else {
        assert BlankedUpTo(row, startCol, colIdx + 1) == BlankedUpTo(row, startCol, colIdx);
      }
      colIdx := colIdx + 1;
    }
    assert BlankedUpTo(row, startCol, colIdx) == BlankWindow(row, startCol, endCol);
  }

  /** `clearSheetDataRange` on sheet i: blank the window in every row from
      startRow to the last physical row that has data in it, and count those rows. */
  method ClearSheetDataRange(workbook: Workbook, i: nat, startRow: nat, startCol: nat, endCol: nat) returns (clearedCount: nat)
    requires i < |workbook.book|
    modifies workbook
    ensures var rows := old(workbook.book)[i].rows;
            && workbook.book == WithRows(old(workbook.book), i, ClearedRange(rows, startRow, startCol, endCol))
            && clearedCount == ClearedCount(rows, startRow, startCol, endCol)
  {
    ghost var book := workbook.book;
    ghost var rows0 := book[i].rows;
    clearedCount := 0;
    var lastRow := workbook.GetLastRowNum(i);
    var rowIdx: int := startRow;
    ClearedUpToEnds(rows0, startRow, rowIdx, startCol, endCol);
    while rowIdx <= lastRow
      invariant startRow <= rowIdx && (rowIdx <= lastRow + 1 || rowIdx == startRow)
      invariant workbook.book == WithRows(book, i, ClearedUpTo(rows0, startRow, rowIdx, startCol, endCol))
      invariant clearedCount == CountIn(rows0, startRow, rowIdx, startCol, endCol)
      decreases lastRow - rowIdx
    {
      ClearedUpToStep(rows0, startRow, rowIdx, startCol, endCol);
      if rowIdx in workbook.book[i].rows {
        var hasData := RowHasData(workbook.book[i].rows[rowIdx], startCol, endCol);
        if hasData {
          BlankRowWindow(workbook, i, rowIdx, startCol, endCol);
          clearedCount := clearedCount + 1;
        }
      }
      rowIdx := rowIdx + 1;
    }
    ClearedUpToEnds(rows0, startRow, rowIdx, startCol, endCol);
  }

  /** The cell loop of `findLastDataRow`: some existing cell of the row is non-blank. */
  method RowHasAnyData(row: Row) returns (found: bool)
    ensures found == HasData(row)
  {
    var cells := row.Keys;
    while cells != {}
      invariant cells <= row.Keys
      invariant forall c :: c in row && c !in cells ==> row[c] == Blank
      decreases |cells|
    {
      var c :| c in cells;
      if row[c] != Blank {
        return true;
      }
      cells := cells - {c};
    }
    return false;
  }

  /** `findLastDataRow` on sheet i: scan down from the last physical row for
      a row holding a non-blank cell; 0 when there is none. */
  method FindLastDataRow(workbook: Workbook, i: nat) returns (r: nat)
    requires i < |workbook.book|
    ensures r == LastDataRow(workbook.book[i].rows)
  {
    var rows := workbook.book[i].rows;
    var lastRow := workbook.GetLastRowNum(i);
    var k := lastRow;
    while k >= 0
      invariant -1 <= k <= lastRow
      invariant LastDataRowFrom(rows, k) == LastDataRow(rows)
      decreases k + 1
    {
      if k in rows {
        var found := RowHasAnyData(rows[k]);
        if found {
          return k;
        }
      }
      k := k - 1;
    }
    return 0;
  }

  /** The downward `removeRow` loop of step 4: every row of sheet i goes. */
  method RemoveAllRows(workbook: Workbook, i: nat)
    requires i < |workbook.book|
    modifies workbook
    ensures workbook.book == WithRows(old(workbook.book), i, map[])
  {
    ghost var book := workbook.book;
    ghost var rows0 := book[i].rows;
    var lastRow := workbook.GetLastRowNum(i);
    var rowIdx := lastRow;
    WithRowsSame(book, i);
    while rowIdx >= 0
      invariant -1 <= rowIdx <= lastRow
      invariant i < |workbook.book|
      invariant workbook.book == WithRows(book, i, workbook.book[i].rows)
      invariant workbook.book[i].rows.Keys == set r | r in rows0 && r <= rowIdx
      decreases rowIdx + 1
    {
      if rowIdx in workbook.book[i].rows {
        ghost var current := workbook.book[i].rows;
        workbook.RemoveRow(i, rowIdx);
        WithRowsTwice(book, i, current, current - {rowIdx});
      }
      rowIdx := rowIdx - 1;
    }
    assert workbook.book[i].rows == map[];
  }

  /** The edit of step 2 on sheet i: a new row below the last data row, with
      today's date in its first cell. Returns the new row's index. */
  method AppendDateRow(workbook: Workbook, i: nat, today: Date) returns (newRowIndex: nat)
    requires i < |workbook.book|
    modifies workbook
    ensures var rows := old(workbook.book)[i].rows;
            && newRowIndex == LastDataRow(rows) + 1
            && workbook.book == WithRows(old(workbook.book), i, WithDateRow(rows, today))
  {
    ghost var book := workbook.book;
    ghost var rows0 := book[i].rows;
    var lastRowNum := FindLastDataRow(workbook, i);
    newRowIndex := lastRowNum + 1;
    ghost var created := rows0[newRowIndex := map[]];
    workbook.CreateRow(i, newRowIndex);
    workbook.SetCell(i, newRowIndex, 0, DateValue(today));
    WithRowsTwice(book, i, created, WithDateRow(rows0, today));
  }

  class ExcelService {
    const config: NautilConfig
    const fs: FileSystem

    constructor (config: NautilConfig, fs: FileSystem)
      ensures this.config == config && this.fs == fs
    {
      this.config := config;
      this.fs := fs;
    }

    /** `saveWorkbook`: the workbook's content replaces the file at path. */
    method SaveWorkbook(workbook: Workbook, path: string)
      modifies fs
      ensures fs.files == old(fs.files)[path := Spreadsheet(workbook.book)]
    {
      fs.Store(path, workbook.book);
    }

    /** Step 1, `renameVerificationFile`. */
    method RenameVerificationFile(today: Date, renameSucceeds: bool) returns (result: TaskResult)
      modifies config, fs
      ensures fresh(result)
      ensures var s := Rename(old(config.Snapshot()), old(fs.files), today, renameSucceeds);
              result.Snapshot() == s.out && fs.files == s.files && config.Snapshot() == s.settings
    {
      result := new TaskResult();
      var currentPath := config.verificationFilePath;
      if !fs.Exists(currentPath) {
        result.SetSuccess(false);
        result.SetMessage(MissingFile(currentPath));
        return;
      }
      var dateStr := today.Iso();
      var newFileName := ReplaceDates(FileName(currentPath), dateStr);
      var newPath := Child(Parent(currentPath), newFileName);
      var renamed := fs.RenameTo(currentPath, newPath, renameSucceeds);
      if renamed {
        config.SetVerificationFilePath(newPath);
        result.SetSuccess(true);
        result.SetMessage(RenamedMessage(newFileName));
        result.AddLog(RenameLog(FileName(currentPath), newFileName));
      } else {
        result.SetSuccess(false);
        result.SetMessage(RenameFailed);
      }
    }

    /** Step 2, `addDateRowInVueGlobale`. */
    method AddDateRowInVueGlobale(today: Date) returns (result: TaskResult)
      modifies fs
      ensures fresh(result)
      ensures var s := AddDateRow(config.Snapshot(), old(fs.files), today);
              result.Snapshot() == s.out && fs.files == s.files
    {
      result := new TaskResult();
      var path := config.verificationFilePath;
      if !fs.Exists(path) {
        result.SetSuccess(false);
        result.SetMessage(MissingFile(path));
        return;
      }
      var stored := fs.files[path];
      if stored.Unreadable? {
        result.SetSuccess(false);
        result.SetMessage(ReadError(stored.reason));
        return;
      }
      var workbook := new Workbook.Open(stored.book);
      AddDateRowIn(result, workbook, path, today);
    }

    /** Step 2 on the open workbook: find the global sheet, append the date row, save. */
    method AddDateRowIn(result: TaskResult, workbook: Workbook, path: string, today: Date)
      requires result.Snapshot() == Outcome(false, "", [])
      modifies result, workbook, fs
      ensures var s := AddDateRowOn(config.Snapshot(), old(fs.files), path, old(workbook.book), today);
              result.Snapshot() == s.out && fs.files == s.files
    {
      var sheetName := config.sheetGlobal;
      var i := workbook.GetSheetIndex(sheetName);
      if i < 0 {
        result.SetSuccess(false);
        result.SetMessage(MissingGlobalSheet(sheetName));
        return;
      }
      var newRowIndex := AppendDateRow(workbook, i, today);
      result.AddLog(AddedRowLog(sheetName, newRowIndex));
      result.AddLog(DateLog(today));
      SaveWorkbook(workbook, path);
      result.SetSuccess(true);
      result.SetMessage(DateRowAdded);
    }

    /** Step 3, `clearTxSheets`. */
    method ClearTxSheets() returns (result: TaskResult)
      modifies fs
      ensures fresh(result)
      ensures var s := ClearTx(config.Snapshot(), old(fs.files));
              result.Snapshot() == s.out && fs.files == s.files
    {
      result := new TaskResult();
      var txSheets := [config.sheetTx1, config.sheetTx2, config.sheetTx3];
      var path := config.verificationFilePath;
      if !fs.Exists(path) {
        result.SetSuccess(false);
        result.SetMessage(MissingFile(path));
        return;
      }
      var stored := fs.files[path];
      if stored.Unreadable? {
        result.SetSuccess(false);
        result.SetMessage(ReadError(stored.reason));
        return;
      }
      var workbook := new Workbook.Open(stored.book);
      ClearTxIn(result, workbook, path, txSheets);
    }

    /** Step 3 on the open workbook: clear B4:G(last) of each named sheet present, then save. */
    method ClearTxIn(result: TaskResult, workbook: Workbook, path: string, txSheets: seq<string>)
      requires txSheets == TxSheetNames(config.Snapshot())
      requires result.Snapshot() == Outcome(false, "", [])
      modifies result, workbook, fs
      ensures var s := ClearTxOn(config.Snapshot(), old(fs.files), path, old(workbook.book));
              result.Snapshot() == s.out && fs.files == s.files
    {
      ClearNamedSheets(result, workbook, txSheets);
      SaveWorkbook(workbook, path);
      result.SetSuccess(true);
      result.SetMessage(TxCleared);
    }

    /** The loop of `clearTxSheets` over the sheet names: clear each sheet found, log each name. */
    method ClearNamedSheets(result: TaskResult, workbook: Workbook, names: seq<string>)
      requires result.Snapshot() == Outcome(false, "", [])
      modifies result, workbook
      ensures var r := ClearTxLoop(old(workbook.book), names);
              workbook.book == r.0 && result.Snapshot() == Outcome(false, "", r.1)
    {
      ghost var book := workbook.book;
      var k := 0;
      while k < |names|
        invariant 0 <= k <= |names|
        invariant workbook.book == ClearTxLoop(book, names[..k]).0
        invariant result.Snapshot() == Outcome(false, "", ClearTxLoop(book, names[..k]).1)
      {
        assert names[..k + 1][..k] == names[..k];
        ClearNamedSheet(result, workbook, names[k]);
        k := k + 1;
      }
      assert names[..k] == names;
    }

    /** One turn of that loop: a warning for a missing sheet, else clear B4:G(last) and log the count. */
    method ClearNamedSheet(result: TaskResult, workbook: Workbook, sheetName: string)
      modifies result, workbook
      ensures var r := ClearTxSheet(old(workbook.book), sheetName);
              workbook.book == r.0 && result.Snapshot() == old(result.Snapshot()).(logs := old(result.logs) + [r.1])
    {
      var i := workbook.GetSheetIndex(sheetName);
      if i < 0 {
        result.AddLog(MissingSheetLog(sheetName));
      } else {
        var clearedRows := ClearSheetDataRange(workbook, i, DataStartRow, ColB, ColG);
        result.AddLog(ClearedTxLog(sheetName, clearedRows));
      }
    }

    /** Step 4, `clearSheetsAfterTx3`. */
    method ClearSheetsAfterTx3() returns (result: TaskResult)
      modifies fs
      ensures fresh(result)
      ensures var s := ClearAfterTx3(config.Snapshot(), old(fs.files));
              result.Snapshot() == s.out && fs.files == s.files
    {
      result := new TaskResult();
      var path := config.verificationFilePath;
      if !fs.Exists(path) {
        result.SetSuccess(false);
        result.SetMessage(MissingFile(path));
        return;
      }
      var stored := fs.files[path];
      if stored.Unreadable? {
        result.SetSuccess(false);
        result.SetMessage(ReadError(stored.reason));
        return;
      }
      var workbook := new Workbook.Open(stored.book);
      ClearAfterTx3In(result, workbook, path);
    }

    /** Step 4 on the open workbook: find TX3, empty every later sheet, save. */
    method ClearAfterTx3In(result: TaskResult, workbook: Workbook, path: string)
      requires result.Snapshot() == Outcome(false, "", [])
      modifies result, workbook, fs
      ensures var s := ClearAfterTx3On(config.Snapshot(), old(fs.files), path, old(workbook.book));
              result.Snapshot() == s.out && fs.files == s.files
    {
      ghost var book := workbook.book;
      var tx3Index := workbook.GetSheetIndex(config.sheetTx3);
      if tx3Index < 0 {
        result.SetSuccess(false);
        result.SetMessage(Tx3Missing);
        return;
      }
      ghost var emptied := EmptiedLogs(book, tx3Index + 1, |book|);
      var cleared := EmptySheetsAfter(result, workbook, tx3Index);
      SaveWorkbook(workbook, path);
      assert fs.files == old(fs.files)[path := Spreadsheet(EmptiedAfter(book, tx3Index))];
      result.SetSuccess(true);
      result.SetMessage(AfterTx3Message(cleared));
      if cleared == 0 {
        result.AddLog(NoSheetAfterTx3Log);
        assert result.logs == emptied + [NoSheetAfterTx3Log];
      } else {
        assert result.logs == emptied + [];
      }
    }

    /** The loop of `clearSheetsAfterTx3`: remove every row of each sheet after TX3, logging each. */
    method EmptySheetsAfter(result: TaskResult, workbook: Workbook, tx3Index: nat) returns (cleared: nat)
      requires tx3Index < |workbook.book|
      requires result.Snapshot() == Outcome(false, "", [])
      modifies result, workbook
      ensures var book := old(workbook.book);
              && cleared == |book| - tx3Index - 1
              && workbook.book == EmptiedAfter(book, tx3Index)
              && result.Snapshot() == Outcome(false, "", EmptiedLogs(book, tx3Index + 1, |book|))
    {
      ghost var book := workbook.book;
      var totalSheets := workbook.GetNumberOfSheets();
      cleared := 0;
      var i := tx3Index + 1;
      while i < totalSheets
        invariant tx3Index + 1 <= i <= totalSheets == |book| == |workbook.book|
        invariant cleared == i - tx3Index - 1
        invariant forall j :: 0 <= j < |book| ==> workbook.book[j] == if tx3Index < j < i then book[j].(rows := map[]) else book[j]
        invariant result.Snapshot() == Outcome(false, "", EmptiedLogs(book, tx3Index + 1, i))
      {
        var sheetName := workbook.book[i].name;
        RemoveAllRows(workbook, i);
        cleared := cleared + 1;
        result.AddLog(EmptiedLog(sheetName));
        i := i + 1;
      }
      assert workbook.book == EmptiedAfter(book, tx3Index);
    }

    /** Step 5, `clearTemplateFile`. */
    method ClearTemplateFile() returns (result: TaskResult)
      modifies fs
      ensures fresh(result)
      ensures var s := ClearTemplate(config.Snapshot(), old(fs.files));
              result.Snapshot() == s.out && fs.files == s.files
    {
      result := new TaskResult();
      var path := config.templateFilePath;
      if !fs.Exists(path) {
        result.SetSuccess(false);
        result.SetMessage(MissingTemplate(path));
        return;
      }
      var stored := fs.files[path];
      if stored.Unreadable? {
        result.SetSuccess(false);
        result.SetMessage(ReadError(stored.reason));
        return;
      }
      var workbook := new Workbook.Open(stored.book);
      ClearTemplateIn(result, workbook, path);
    }

    /** Step 5 on the open template: clear A4:F(last) of the first sheet, save. */
    method ClearTemplateIn(result: TaskResult, workbook: Workbook, path: string)
      requires result.Snapshot() == Outcome(false, "", [])
      modifies result, workbook, fs
      ensures var s := ClearTemplateOn(config.Snapshot(), old(fs.files), path, old(workbook.book));
              result.Snapshot() == s.out && fs.files == s.files
    {
      if workbook.GetNumberOfSheets() == 0 {
        // `getSheetAt(0)` throws on a workbook without sheets.
        result.SetSuccess(false);
        result.SetMessage(ReadError(NoSheetError));
        return;
      }
      var sheetName := workbook.book[0].name;
      var clearedRows := ClearSheetDataRange(workbook, 0, DataStartRow, ColA, ColF);
      result.AddLog(TemplateLog(sheetName, clearedRows));
      SaveWorkbook(workbook, path);
      result.SetSuccess(true);
      result.SetMessage(TemplateMessage(clearedRows));
    }

    /** `runAllExcelTasks`: the five steps in order, stopping after a failing
        step 2 or 3, every step's log under its banner. */
    method RunAllExcelTasks(today: Date, renameSucceeds: bool) returns (finalResult: TaskResult)
      modifies config, fs
      ensures fresh(finalResult)
      ensures var s := RunAll(old(config.Snapshot()), old(fs.files), today, renameSucceeds);
              finalResult.Snapshot() == s.out && fs.files == s.files && config.Snapshot() == s.settings
    {
      ghost var st := config.Snapshot();
      ghost var s1 := Rename(st, fs.files, today, renameSucceeds);
      ghost var log1 := [Header1] + s1.out.logs + Warning(s1.out, true);
      finalResult := new TaskResult();
      finalResult.SetSuccess(true);

      var step1 := RenameVerificationFile(today, renameSucceeds);
      LogStep(finalResult, Header1, step1);
      if !step1.success {
        finalResult.AddLog(ContinuedWarning(step1.message));
      }
      assert finalResult.logs == log1;

      ghost var s2 := AddDateRow(s1.settings, s1.files, today);
      ghost var log2 := log1 + [Header2] + s2.out.logs;
      var step2 := AddDateRowInVueGlobale(today);
      LogStep(finalResult, Header2, step2);
      assert finalResult.success && finalResult.logs == log2;
      if !step2.success {
        finalResult.SetSuccess(false);
        finalResult.AddLog(ErrorLine(step2.message));
        finalResult.SetMessage(Step2Error(step2.message));
        return;
      }
      RunCleanupSteps(finalResult);
    }

    /** Logging one step's result into the run's result: its banner, then its lines. */
    static method LogStep(finalResult: TaskResult, header: string, step: TaskResult)
      requires finalResult != step
      modifies finalResult
      ensures finalResult.Snapshot() == old(finalResult.Snapshot()).(logs := old(finalResult.logs) + [header] + step.logs)
    {
      finalResult.AddLog(header);
      finalResult.AddAllLogs(step.logs);
    }

    /** The rest of `runAllExcelTasks` once step 2 has succeeded: steps 3 to 5. */
    method RunCleanupSteps(finalResult: TaskResult)
      requires finalResult.success
      modifies finalResult, fs
      ensures var s := RunCleanup(config.Snapshot(), old(fs.files), old(finalResult.logs));
              finalResult.Snapshot() == s.out && fs.files == s.files
    {
      ghost var st := config.Snapshot();
      ghost var s3 := ClearTx(st, fs.files);
      ghost var log3 := finalResult.logs + [Header3] + s3.out.logs;
      var step3 := ClearTxSheets();
      LogStep(finalResult, Header3, step3);
      if !step3.success {
        finalResult.SetSuccess(false);
        finalResult.SetMessage(Step3Error(step3.message));
        return;
      }
      assert finalResult.success && finalResult.logs == log3;

      ghost var s4 := ClearAfterTx3(st, s3.files);
      ghost var log4 := log3 + [Header4] + s4.out.logs + Warning(s4.out, false);
      var step4 := ClearSheetsAfterTx3();
      LogStep(finalResult, Header4, step4);
      if !step4.success {
        finalResult.AddLog(WarningLine(step4.message));
      }
      assert finalResult.logs == log4;

      ghost var s5 := ClearTemplate(st, s4.files);
      ghost var log5 := log4 + [Header5] + s5.out.logs + Warning(s5.out, false);
      var step5 := ClearTemplateFile();
      LogStep(finalResult, Header5, step5);
      if !step5.success {
        finalResult.AddLog(WarningLine(step5.message));
      }
      assert finalResult.logs == log5;
      finalResult.SetMessage(SuccessMessage);
    }
  }
}
