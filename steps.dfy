/** What each of the five workbook steps, and the run of all five, does to
    the configuration and the stored files, and which result it reports:
    the reference the ExcelService methods are proved against. */
module Steps {
  import opened Text
  import opened Grid
  import opened Files
  import opened FileNames
  import opened Config
  import opened Tasks

  /** Row index 3 (spreadsheet row 4) is the first data row. */
  const DataStartRow: nat := 3
  const ColA: nat := 0
  const ColB: nat := 1
  const ColF: nat := 5
  const ColG: nat := 6

  /** Stands for the text of the exception `getSheetAt(0)` raises on a
      workbook without sheets. */
  const NoSheetError := "Sheet index (0) is out of range (no sheets)"

  /** A step's reported result, with the files and settings it leaves behind. */
  datatype StepResult = StepResult(out: Outcome, files: FileMap, settings: Settings)

  function Fail(st: Settings, files: FileMap, message: string): StepResult {
    StepResult(Outcome(false, message, []), files, st)
  }

  // ---------------------------------------------------------------------
  // Messages and log lines
  // ---------------------------------------------------------------------

  function MissingFile(path: string): string { "Fichier introuvable : " + path }
  /** The failure message of an exception. */
  function ReadError(reason: string): string { "Erreur : " + reason }
  function RenamedMessage(newName: string): string { "Fichier renommé : " + newName }
  const RenameFailed := "Impossible de renommer le fichier"
  function MissingGlobalSheet(name: string): string { "Onglet introuvable : " + name }
  /** The log line for a date row written at row index newRow (spreadsheet row newRow + 1). */
  function AddedRowLog(sheetName: string, newRow: nat): string {
    "✅ Ligne ajoutée dans '" + sheetName + "' à la ligne " + NatToString(newRow + 1)
  }
  function DateLog(today: Date): string { "   Date : " + today.Dmy() }
  const DateRowAdded := "Ligne de date ajoutée dans Vue Globale"
  const TxCleared := "Données TX1/TX2/TX3 supprimées"
  const Tx3Missing := "Onglet TX3 non trouvé"
  function AfterTx3Message(cleared: nat): string { NatToString(cleared) + " onglet(s) après TX3 vidé(s)" }
  function MissingTemplate(path: string): string { "Template introuvable : " + path }
  /** The cleared range A4:F(3 + count) as the template step reports it. */
  function TemplateRange(count: nat): string { "(A4:F" + NatToString(DataStartRow + count) + ")" }
  function TemplateLog(name: string, count: nat): string {
    "✅ Template '" + name + "' : " + NatToString(count) + " ligne(s) vidée(s) " + TemplateRange(count)
  }
  function TemplateMessage(count: nat): string { "Template vidé " + TemplateRange(count) }
  function ContinuedWarning(message: string): string { "⚠️ " + message + " (traitement continué)" }
  function WarningLine(message: string): string { "⚠️ " + message }
  function ErrorLine(message: string): string { "❌ " + message }
  function Step2Error(message: string): string { "Erreur étape 2 : " + message }
  function Step3Error(message: string): string { "Erreur étape 3 : " + message }

  // ---------------------------------------------------------------------
  // Step 1: rename the verification file with today's date
  // ---------------------------------------------------------------------

  function RenameLog(oldName: string, newName: string): string {
    "✅ Renommage : " + oldName + " → " + newName
  }

  function Rename(st: Settings, files: FileMap, today: Date, renameSucceeds: bool): (s: StepResult)
    ensures !s.out.success ==> s.files == files && s.settings == st && s.out.logs == []
  {
    var path := st.verificationFile;
    if path !in files then Fail(st, files, MissingFile(path))
    else
      var newName := ReplaceDates(FileName(path), today.Iso());
      var newPath := Child(Parent(path), newName);
      if renameSucceeds then
        StepResult(Outcome(true, RenamedMessage(newName), [RenameLog(FileName(path), newName)]),
                   Moved(files, path, newPath), st.(verificationFile := newPath))
      else Fail(st, files, RenameFailed)
  }

  /** The configured path changes exactly when the rename succeeds, and then
      to the renamed path: the file is moved there and no other file changes,
      and the message and the log line name the new file. A missing file or a
      refused move leaves everything as it was and logs nothing. */
  lemma RenameMeaning(st: Settings, files: FileMap, today: Date, renameSucceeds: bool)
    requires today.Valid()
    ensures var s := Rename(st, files, today, renameSucceeds);
            && s.out.success == (st.verificationFile in files && renameSucceeds)
            && (s.out.success ==>
                  var newName := ReplaceDates(FileName(st.verificationFile), today.Iso());
                  && s.files == Moved(files, st.verificationFile, s.settings.verificationFile)
                  && s.out.message == RenamedMessage(newName)
                  && s.out.logs == [RenameLog(FileName(st.verificationFile), newName)])
            && (st.verificationFile in files && !renameSucceeds ==> s.out.message == RenameFailed)
            && s.settings == (if s.out.success then st.(verificationFile := RenamedPath(st.verificationFile, today.Iso())) else st)
            && (s.out.success ==> Parent(s.settings.verificationFile) == Parent(st.verificationFile))
            && (s.out.success ==> s.settings.verificationFile in s.files
                                  && s.files[s.settings.verificationFile] == files[st.verificationFile])
            && (st.verificationFile !in files ==> s.out.message == MissingFile(st.verificationFile))
  {
    if st.verificationFile in files {
      RenamedPathMeaning(st.verificationFile, today);
    }
  }

  // ---------------------------------------------------------------------
  // Step 2: append a row with today's date to the global sheet
  // ---------------------------------------------------------------------

  function DateRowLogs(sheetName: string, newRow: nat, today: Date): seq<string> {
    [AddedRowLog(sheetName, newRow)] + [DateLog(today)]
  }

  /** Step 2 once the verification workbook at path is open. */
  function AddDateRowOn(st: Settings, files: FileMap, path: string, book: Book, today: Date): (s: StepResult)
    ensures s.settings == st
    ensures !s.out.success ==> s.files == files && s.out.logs == []
  {
    var i := IndexOfSheet(book, st.sheetGlobal);
    if i < 0 then Fail(st, files, MissingGlobalSheet(st.sheetGlobal))
    else
      var rows := book[i].rows;
      var after := WithRows(book, i, WithDateRow(rows, today));
      StepResult(Outcome(true, DateRowAdded,
                         DateRowLogs(st.sheetGlobal, LastDataRow(rows) + 1, today)),
                 files[path := Spreadsheet(after)], st)
  }

  function AddDateRow(st: Settings, files: FileMap, today: Date): (s: StepResult)
    ensures s.settings == st
    ensures !s.out.success ==> s.files == files && s.out.logs == []
  {
    var path := st.verificationFile;
    if path !in files then Fail(st, files, MissingFile(path))
    else match files[path]
      case Unreadable(reason) => Fail(st, files, ReadError(reason))
      case Spreadsheet(book) => AddDateRowOn(st, files, path, book, today)
  }

  /** A missing or unreadable file or a missing global sheet fails with nothing
      saved; otherwise only the verification file is rewritten, only its global
      sheet changes, by the date row, and its last data row moves one down. */
  lemma AddDateRowMeaning(st: Settings, files: FileMap, today: Date)
    ensures var s := AddDateRow(st, files, today);
            && (st.verificationFile !in files ==> !s.out.success && s.out.message == MissingFile(st.verificationFile))
            && (st.verificationFile in files && files[st.verificationFile].Unreadable? ==>
                  !s.out.success && s.out.message == ReadError(files[st.verificationFile].reason))
            && (st.verificationFile in files && files[st.verificationFile].Spreadsheet? ==>
                  var book := files[st.verificationFile].book;
                  var i := IndexOfSheet(book, st.sheetGlobal);
                  && (i < 0 <==> !s.out.success)
                  && (i < 0 ==> s.out.message == MissingGlobalSheet(st.sheetGlobal))
                  && (i >= 0 ==>
                        var after := s.files[st.verificationFile].book;
                        && s.files == files[st.verificationFile := Spreadsheet(after)]
                        && |after| == |book|
                        && NamesOf(after) == NamesOf(book)
                        && (forall j :: 0 <= j < |book| && j != i ==> after[j] == book[j])
                        && after[i].rows == WithDateRow(book[i].rows, today)
                        && s.out.message == DateRowAdded
                        && s.out.logs == DateRowLogs(st.sheetGlobal, LastDataRow(book[i].rows) + 1, today)
                        && LastDataRow(after[i].rows) == LastDataRow(book[i].rows) + 1
                        && after[i].rows[LastDataRow(book[i].rows) + 1] == map[0 := DateValue(today)]))
  {
    var path := st.verificationFile;
    if path in files && files[path].Spreadsheet? {
      var book := files[path].book;
      var i := IndexOfSheet(book, st.sheetGlobal);
      if i >= 0 {
        DateRowAdvancesLastDataRow(book[i].rows, today);
        var after := AddDateRow(st, files, today).files[path].book;
        assert NamesOf(after) == NamesOf(book);
      }
    }
  }

  // ---------------------------------------------------------------------
  // Step 3: clear B4:G(last) in TX1, TX2 and TX3
  // ---------------------------------------------------------------------

  function TxSheetNames(st: Settings): seq<string> {
    [st.sheetTx1, st.sheetTx2, st.sheetTx3]
  }

  function MissingSheetLog(name: string): string {
    "⚠️ Onglet non trouvé : " + name
  }

  function ClearedTxLog(name: string, count: nat): string {
    "✅ Onglet '" + name + "' : " + NatToString(count) + " ligne(s) vidée(s) (B4:G" + NatToString(DataStartRow + count) + ")"
  }

  /** One turn of the loop over the TX sheet names: the workbook and the log line. */
  function ClearTxSheet(b: Book, name: string): (r: (Book, string))
    ensures NamesOf(r.0) == NamesOf(b)
  {
    var i := IndexOfSheet(b, name);
    if i < 0 then (b, MissingSheetLog(name))
    else
      var rows := b[i].rows;
      var b' := WithRows(b, i, ClearedRange(rows, DataStartRow, ColB, ColG));
      assert NamesOf(b') == NamesOf(b);
      (b', ClearedTxLog(name, ClearedCount(rows, DataStartRow, ColB, ColG)))
  }

  /** The workbook and log after clearing the named sheets in order. */
  function ClearTxLoop(book: Book, names: seq<string>): (r: (Book, seq<string>))
    ensures NamesOf(r.0) == NamesOf(book) && |r.1| == |names|
    decreases |names|
  {
    if names == [] then (book, [])
    else
      var prev := ClearTxLoop(book, names[..|names| - 1]);
      var s := ClearTxSheet(prev.0, names[|names| - 1]);
      (s.0, prev.1 + [s.1])
  }

  /** Step 3 once the verification workbook at path is open. */
  function ClearTxOn(st: Settings, files: FileMap, path: string, book: Book): (s: StepResult)
    ensures s.settings == st && s.out.success
  {
    var r := ClearTxLoop(book, TxSheetNames(st));
    StepResult(Outcome(true, TxCleared, r.1), files[path := Spreadsheet(r.0)], st)
  }

  function ClearTx(st: Settings, files: FileMap): (s: StepResult)
    ensures s.settings == st
    ensures !s.out.success ==> s.files == files && s.out.logs == []
  {
    var path := st.verificationFile;
    if path !in files then Fail(st, files, MissingFile(path))
    else match files[path]
      case Unreadable(reason) => Fail(st, files, ReadError(reason))
      case Spreadsheet(book) => ClearTxOn(st, files, path, book)
  }

  /** Reference for the rows of sheet j after the loop: cleared exactly when
      j is the first sheet carrying one of the names. */
  function ExpectedTxRows(book: Book, names: seq<string>, j: nat): Rows
    requires j < |book|
  {
    if book[j].name in names && IndexOfSheet(book, book[j].name) == j
    then ClearedRange(book[j].rows, DataStartRow, ColB, ColG)
    else book[j].rows
  }

  /** Reference for the log line of a name, given the names handled before it:
      a warning when no sheet has the name, else the count of data rows it had
      (none if an earlier name already cleared the same sheet). */
  function ExpectedTxLog(book: Book, name: string, earlier: seq<string>): string {
    var i := IndexOfSheet(book, name);
    if i < 0 then MissingSheetLog(name)
    else ClearedTxLog(name, if name in earlier then 0 else ClearedCount(book[i].rows, DataStartRow, ColB, ColG))
  }

  /** Workbooks with the same sheet names find every name at the same place. */
  lemma SameNames(a: Book, b: Book)
    requires NamesOf(a) == NamesOf(b)
    ensures |a| == |b|
    ensures forall j :: 0 <= j < |a| ==> a[j].name == b[j].name
    ensures forall name :: IndexOfSheet(a, name) == IndexOfSheet(b, name)
  {
    assert |a| == |NamesOf(a)|;
    forall j | 0 <= j < |a|
      ensures a[j].name == b[j].name
    {
      assert NamesOf(a)[j] == NamesOf(b)[j];
    }
  }

  lemma {:induction false} ClearTxLoopRows(book: Book, names: seq<string>)
    ensures var r := ClearTxLoop(book, names);
            |r.0| == |book| && forall j :: 0 <= j < |book| ==> r.0[j].rows == ExpectedTxRows(book, names, j)
    decreases |names|
  {
    var r := ClearTxLoop(book, names);
    SameNames(r.0, book);
    if names != [] {
      var init := names[..|names| - 1];
      var name := names[|names| - 1];
      assert names == init + [name];
      ClearTxLoopRows(book, init);
      var b := ClearTxLoop(book, init).0;
      SameNames(b, book);
      forall j | 0 <= j < |book|
        ensures r.0[j].rows == ExpectedTxRows(book, names, j)
      {
        ClearTxRowsStep(book, init, name, b, j);
      }
    }
  }

  /** One more name in the loop clears the sheet it finds first, unless it was cleared already. */
  lemma ClearTxRowsStep(book: Book, init: seq<string>, name: string, b: Book, j: nat)
    requires NamesOf(b) == NamesOf(book) && j < |book|
    requires b[j].rows == ExpectedTxRows(book, init, j)
    ensures ClearTxSheet(b, name).0[j].rows == ExpectedTxRows(book, init + [name], j)
  {
    SameNames(b, book);
    var i := IndexOfSheet(b, name);
    assert book[j].name in init + [name] <==> book[j].name in init || book[j].name == name;
    if j == i {
      ClearTwice(book[j].rows, DataStartRow, ColB, ColG);
    }
  }

  lemma {:induction false} ClearTxLoopLogs(book: Book, names: seq<string>)
    ensures var r := ClearTxLoop(book, names);
            forall k :: 0 <= k < |names| ==> r.1[k] == ExpectedTxLog(book, names[k], names[..k])
    decreases |names|
  {
    if names != [] {
      var init := names[..|names| - 1];
      var name := names[|names| - 1];
      ClearTxLoopLogs(book, init);
      var prev := ClearTxLoop(book, init);
      var r := ClearTxLoop(book, names);
      ClearTxLastLog(book, init, name);
      forall k | 0 <= k < |names|
        ensures r.1[k] == ExpectedTxLog(book, names[k], names[..k])
      {
        if k < |init| {
          assert names[k] == init[k] && names[..k] == init[..k];
          assert r.1[k] == prev.1[k];
        } else {
          assert names[..k] == init;
        }
      }
    }
  }

  /** The line logged for one more name, in terms of the original workbook. */
  lemma ClearTxLastLog(book: Book, init: seq<string>, name: string)
    ensures ClearTxSheet(ClearTxLoop(book, init).0, name).1 == ExpectedTxLog(book, name, init)
  {
    ClearTxLoopRows(book, init);
    var b := ClearTxLoop(book, init).0;
    SameNames(b, book);
    var i := IndexOfSheet(book, name);
    if i >= 0 {
      assert b[i].rows == ExpectedTxRows(book, init, i);
      ClearTwice(book[i].rows, DataStartRow, ColB, ColG);
    }
  }

  /** A missing warning is logged exactly for the names no sheet carries. */
  lemma WarningIffMissing(book: Book, name: string, earlier: seq<string>)
    ensures ExpectedTxLog(book, name, earlier) == MissingSheetLog(name) <==> IndexOfSheet(book, name) < 0
  {
    var line := ExpectedTxLog(book, name, earlier);
    if IndexOfSheet(book, name) >= 0 {
      assert line[0] == '✅';
      assert MissingSheetLog(name)[0] == '⚠';
    }
  }

  /** Running the loop again on its own result changes no sheet, and reports
      zero cleared rows for every name a sheet carries. */
  lemma ClearTxLoopTwice(book: Book, names: seq<string>)
    ensures var once := ClearTxLoop(book, names);
            var twice := ClearTxLoop(once.0, names);
            && twice.0 == once.0
            && forall k :: 0 <= k < |names| && IndexOfSheet(book, names[k]) >= 0 ==>
                 twice.1[k] == ClearedTxLog(names[k], 0)
  {
    var once := ClearTxLoop(book, names);
    var twice := ClearTxLoop(once.0, names);
    ClearTxLoopRows(book, names);
    ClearTxLoopRows(once.0, names);
    ClearTxLoopLogs(once.0, names);
    SameNames(once.0, book);
    SameNames(twice.0, once.0);
    forall j | 0 <= j < |book|
      ensures twice.0[j] == once.0[j]
    {
      if book[j].name in names && IndexOfSheet(book, book[j].name) == j {
        ClearTwice(book[j].rows, DataStartRow, ColB, ColG);
      }
    }
    forall k | 0 <= k < |names| && IndexOfSheet(book, names[k]) >= 0
      ensures twice.1[k] == ClearedTxLog(names[k], 0)
    {
      var i := IndexOfSheet(book, names[k]);
      ClearTwice(book[i].rows, DataStartRow, ColB, ColG);
      assert book[i].name in names;
    }
  }

  /** Step 3 on a readable file: the TX sheets are cleared, the others are
      untouched, and the log has one line per TX name, as the reference says;
      on a missing or unreadable file it fails and changes nothing. */
  lemma ClearTxMeaning(st: Settings, files: FileMap)
    ensures var s := ClearTx(st, files);
            && (s.out.success <==> st.verificationFile in files && files[st.verificationFile].Spreadsheet?)
            && (st.verificationFile !in files ==> s.out.message == MissingFile(st.verificationFile))
            && (st.verificationFile in files && files[st.verificationFile].Unreadable? ==>
                  s.out.message == ReadError(files[st.verificationFile].reason))
            && (s.out.success ==> s.out.message == TxCleared)
            && (s.out.success ==>
                  var book := files[st.verificationFile].book;
                  var after := s.files[st.verificationFile].book;
                  var names := TxSheetNames(st);
                  && s.files == files[st.verificationFile := Spreadsheet(after)]
                  && NamesOf(after) == NamesOf(book)
                  && (forall j :: 0 <= j < |book| ==> after[j].rows == ExpectedTxRows(book, names, j))
                  && |s.out.logs| == 3
                  && (forall k :: 0 <= k < 3 ==> s.out.logs[k] == ExpectedTxLog(book, names[k], names[..k]))
                  && ClearTx(st, s.files).files == s.files)
  {
    var path := st.verificationFile;
    if path in files && files[path].Spreadsheet? {
      var book := files[path].book;
      ClearTxLoopRows(book, TxSheetNames(st));
      ClearTxLoopLogs(book, TxSheetNames(st));
      ClearTxLoopTwice(book, TxSheetNames(st));
    }
  }

  // ---------------------------------------------------------------------
  // Step 4: empty every sheet positioned after TX3
  // ---------------------------------------------------------------------

  /** The workbook with every sheet after position k reduced to no rows. */
  function EmptiedAfter(book: Book, k: int): (r: Book)
    ensures |r| == |book|
    ensures forall i :: 0 <= i < |book| ==> r[i].name == book[i].name
    ensures forall i :: 0 <= i < |book| && i <= k ==> r[i] == book[i]
    ensures forall i :: 0 <= i < |book| && i > k ==> r[i].rows == map[]
  {
    seq(|book|, i requires 0 <= i < |book| => if i > k then book[i].(rows := map[]) else book[i])
  }

  function EmptiedLog(name: string): string {
    "✅ Onglet '" + name + "' complètement vidé"
  }

  /** One log line per sheet in positions lo..hi-1, in order. */
  function EmptiedLogs(book: Book, lo: nat, hi: nat): (logs: seq<string>)
    requires lo <= hi <= |book|
    ensures |logs| == hi - lo
    ensures forall i :: lo <= i < hi ==> logs[i - lo] == EmptiedLog(book[i].name)
    decreases hi - lo
  {
    if hi == lo then [] else EmptiedLogs(book, lo, hi - 1) + [EmptiedLog(book[hi - 1].name)]
  }

  const NoSheetAfterTx3Log := "ℹ️ Aucun onglet après TX3"

  /** Step 4 once the verification workbook at path is open. */
  function ClearAfterTx3On(st: Settings, files: FileMap, path: string, book: Book): (s: StepResult)
    ensures s.settings == st
    ensures !s.out.success ==> s.files == files && s.out.logs == []
  {
    var k := IndexOfSheet(book, st.sheetTx3);
    if k < 0 then Fail(st, files, Tx3Missing)
    else
      var cleared := |book| - k - 1;
      StepResult(Outcome(true, AfterTx3Message(cleared),
                         EmptiedLogs(book, k + 1, |book|) + (if cleared == 0 then [NoSheetAfterTx3Log] else [])),
                 files[path := Spreadsheet(EmptiedAfter(book, k))], st)
  }

  function ClearAfterTx3(st: Settings, files: FileMap): (s: StepResult)
    ensures s.settings == st
    ensures !s.out.success ==> s.files == files && s.out.logs == []
  {
    var path := st.verificationFile;
    if path !in files then Fail(st, files, MissingFile(path))
    else match files[path]
      case Unreadable(reason) => Fail(st, files, ReadError(reason))
      case Spreadsheet(book) => ClearAfterTx3On(st, files, path, book)
  }

  /** A missing TX3 fails without touching the file; otherwise the sheets after TX3 are
      emptied, the others are unchanged, the sheet list keeps its length and order, and
      there is one log line per emptied sheet (or the note that there is none). */
  lemma ClearAfterTx3Meaning(st: Settings, files: FileMap)
    ensures var s := ClearAfterTx3(st, files);
            && (st.verificationFile !in files ==> !s.out.success && s.out.message == MissingFile(st.verificationFile))
            && (st.verificationFile in files && files[st.verificationFile].Unreadable? ==>
                  !s.out.success && s.out.message == ReadError(files[st.verificationFile].reason))
            && (st.verificationFile in files && files[st.verificationFile].Spreadsheet? ==>
                  var book := files[st.verificationFile].book;
                  var k := IndexOfSheet(book, st.sheetTx3);
                  && (k < 0 <==> !s.out.success)
                  && (k < 0 ==> s.out.message == Tx3Missing)
                  && (k >= 0 ==>
                        var after := s.files[st.verificationFile].book;
                        var cleared := |book| - k - 1;
                        && s.files == files[st.verificationFile := Spreadsheet(after)]
                        && s.out.message == AfterTx3Message(cleared)
                        && NamesOf(after) == NamesOf(book)
                        && (forall i :: 0 <= i <= k ==> after[i] == book[i])
                        && (forall i :: k < i < |book| ==> after[i].rows == map[])
                        && |s.out.logs| == (if cleared == 0 then 1 else cleared)
                        && (forall j :: 0 <= j < cleared ==> s.out.logs[j] == EmptiedLog(book[k + 1 + j].name))
                        && (cleared == 0 ==> s.out.logs == [NoSheetAfterTx3Log])))
  {
    var path := st.verificationFile;
    if path in files && files[path].Spreadsheet? {
      var book := files[path].book;
      var k := IndexOfSheet(book, st.sheetTx3);
      if k >= 0 {
        var after := EmptiedAfter(book, k);
        assert NamesOf(after) == NamesOf(book);
        var logs := ClearAfterTx3(st, files).out.logs;
        forall j | 0 <= j < |book| - k - 1
          ensures logs[j] == EmptiedLog(book[k + 1 + j].name)
        {
          assert logs[j] == EmptiedLogs(book, k + 1, |book|)[(k + 1 + j) - (k + 1)];
        }
      }
    }
  }

  // ---------------------------------------------------------------------
  // Step 5: clear A4:F(last) in the first sheet of the template file
  // ---------------------------------------------------------------------

  /** Step 5 once the template workbook at path is open. */
  function ClearTemplateOn(st: Settings, files: FileMap, path: string, book: Book): (s: StepResult)
    ensures s.settings == st
    ensures !s.out.success ==> s.files == files && s.out.logs == []
  {
    if |book| == 0 then Fail(st, files, ReadError(NoSheetError))
    else
      var rows := book[0].rows;
      var count := ClearedCount(rows, DataStartRow, ColA, ColF);
      StepResult(Outcome(true, TemplateMessage(count), [TemplateLog(book[0].name, count)]),
                 files[path := Spreadsheet(WithRows(book, 0, ClearedRange(rows, DataStartRow, ColA, ColF)))], st)
  }

  function ClearTemplate(st: Settings, files: FileMap): (s: StepResult)
    ensures s.settings == st
    ensures !s.out.success ==> s.files == files && s.out.logs == []
  {
    var path := st.templateFile;
    if path !in files then Fail(st, files, MissingTemplate(path))
    else match files[path]
      case Unreadable(reason) => Fail(st, files, ReadError(reason))
      case Spreadsheet(book) => ClearTemplateOn(st, files, path, book)
  }

  /** Step 5 succeeds exactly when the template exists, can be read and has a
      sheet. Then only the template is rewritten and only its first sheet
      changes: columns A-F from row 4 on are blank, the rest of it is as before,
      the message and the log line give the cleared range; a second run finds
      nothing to clear. */
  lemma ClearTemplateMeaning(st: Settings, files: FileMap)
    ensures var s := ClearTemplate(st, files);
            && (s.out.success <==> st.templateFile in files && files[st.templateFile].Spreadsheet?
                                   && |files[st.templateFile].book| > 0)
            && (st.templateFile !in files ==> s.out.message == MissingTemplate(st.templateFile))
            && (st.templateFile in files && files[st.templateFile].Unreadable? ==>
                  s.out.message == ReadError(files[st.templateFile].reason))
            && (st.templateFile in files && files[st.templateFile].Spreadsheet? && |files[st.templateFile].book| == 0 ==>
                  s.out.message == ReadError(NoSheetError))
            && (s.out.success ==>
                  var before := files[st.templateFile].book;
                  var after := s.files[st.templateFile].book;
                  var count := ClearedCount(before[0].rows, DataStartRow, ColA, ColF);
                  && s.files == files[st.templateFile := Spreadsheet(after)]
                  && s.out.message == TemplateMessage(count)
                  && s.out.logs == [TemplateLog(before[0].name, count)]
                  && |before| > 0 && |after| == |before| && after[1..] == before[1..] && after[0].name == before[0].name
                  && after[0].rows == ClearedRange(before[0].rows, DataStartRow, ColA, ColF)
                  && ClearedCount(after[0].rows, DataStartRow, ColA, ColF) == 0
                  && (var again := ClearTemplate(s.settings, s.files);
                      again.out.success && again.files == s.files))
  {
    var s := ClearTemplate(st, files);
    if s.out.success {
      var before := files[st.templateFile].book;
      ClearTwice(before[0].rows, DataStartRow, ColA, ColF);
      var after := s.files[st.templateFile].book;
      assert WithRows(after, 0, ClearedRange(after[0].rows, DataStartRow, ColA, ColF)) == after;
    }
  }

  // ---------------------------------------------------------------------
  // The whole run: steps 1 to 5 with their failure policy
  // ---------------------------------------------------------------------

  /** The banner logged before each step. */
  function Banner(title: string): string {
    "=== " + title + " ==="
  }

  const Header1 := Banner("ÉTAPE 1 : Renommage fichier")
  const Header2 := Banner("ÉTAPE 2 : Ajout ligne Vue Globale")
  const Header3 := Banner("ÉTAPE 3 : Nettoyage TX1/TX2/TX3")
  const Header4 := Banner("ÉTAPE 4 : Nettoyage onglets après TX3")
  const Header5 := Banner("ÉTAPE 5 : Nettoyage template.xlsx")
  const SuccessMessage := "Traitement Excel terminé avec succès"

  /** The warning a continuable failure adds to the run's log. */
  function Warning(o: Outcome, continued: bool): seq<string> {
    if o.success then [] else [if continued then ContinuedWarning(o.message) else WarningLine(o.message)]
  }

  /** Steps 3 to 5, run once step 2 has succeeded, appending to the log so far. */
  function RunCleanup(st: Settings, files: FileMap, log: seq<string>): StepResult {
    var s3 := ClearTx(st, files);
    var log3 := log + [Header3] + s3.out.logs;
    if !s3.out.success then
      StepResult(Outcome(false, Step3Error(s3.out.message), log3), s3.files, s3.settings)
    else
      var s4 := ClearAfterTx3(s3.settings, s3.files);
      var log4 := log3 + [Header4] + s4.out.logs + Warning(s4.out, false);
      var s5 := ClearTemplate(s4.settings, s4.files);
      var log5 := log4 + [Header5] + s5.out.logs + Warning(s5.out, false);
      StepResult(Outcome(true, SuccessMessage, log5), s5.files, s5.settings)
  }

  function RunAll(st: Settings, files: FileMap, today: Date, renameSucceeds: bool): StepResult {
    var s1 := Rename(st, files, today, renameSucceeds);
    var log1 := [Header1] + s1.out.logs + Warning(s1.out, true);
    var s2 := AddDateRow(s1.settings, s1.files, today);
    var log2 := log1 + [Header2] + s2.out.logs;
    if !s2.out.success then
      StepResult(Outcome(false, Step2Error(s2.out.message), log2 + [ErrorLine(s2.out.message)]), s2.files, s2.settings)
    else
      RunCleanup(s2.settings, s2.files, log2)
  }

  // ---------------------------------------------------------------------
  // Properties of the whole run
  // ---------------------------------------------------------------------

  /** The step banners are the only log lines that start with '='. */
  predicate IsHeader(line: string) {
    |line| > 0 && line[0] == '='
  }

  /** No line of the log is a step banner. */
  predicate Plain(logs: seq<string>) {
    forall k :: 0 <= k < |logs| ==> !IsHeader(logs[k])
  }

  lemma PlainAppend(a: seq<string>, b: seq<string>)
    requires Plain(a) && Plain(b)
    ensures Plain(a + b)
  {
    forall k | 0 <= k < |a + b|
      ensures !IsHeader((a + b)[k])
    {
      if k >= |a| {
        assert (a + b)[k] == b[k - |a|];
      }
    }
  }

  lemma WarningPlain(o: Outcome, continued: bool)
    ensures Plain(Warning(o, continued))
  {
    if !o.success {
      assert Warning(o, continued)[0][0] == '⚠';
    }
  }

  lemma RenamePlain(st: Settings, files: FileMap, today: Date, renameSucceeds: bool)
    ensures Plain(Rename(st, files, today, renameSucceeds).out.logs)
  {
    var s := Rename(st, files, today, renameSucceeds);
    if s.out.logs != [] {
      assert s.out.logs[0][0] == '✅';
    }
  }

  lemma AddDateRowPlain(st: Settings, files: FileMap, today: Date)
    ensures Plain(AddDateRow(st, files, today).out.logs)
  {
    var s := AddDateRow(st, files, today);
    if s.out.logs != [] {
      assert |s.out.logs| == 2;
      assert s.out.logs[0][0] == '✅';
      assert s.out.logs[1][0] == ' ';
    }
  }

  lemma ClearTxPlain(st: Settings, files: FileMap)
    ensures Plain(ClearTx(st, files).out.logs)
  {
    var path := st.verificationFile;
    if path in files && files[path].Spreadsheet? {
      var book := files[path].book;
      var names := TxSheetNames(st);
      ClearTxLoopLogs(book, names);
      var logs := ClearTx(st, files).out.logs;
      forall k | 0 <= k < |logs|
        ensures !IsHeader(logs[k])
      {
        var line := ExpectedTxLog(book, names[k], names[..k]);
        assert line[0] == '⚠' || line[0] == '✅';
      }
    }
  }

  lemma ClearAfterTx3Plain(st: Settings, files: FileMap)
    ensures Plain(ClearAfterTx3(st, files).out.logs)
  {
    ClearAfterTx3Meaning(st, files);
    var s := ClearAfterTx3(st, files);
    forall k | 0 <= k < |s.out.logs|
      ensures !IsHeader(s.out.logs[k])
    {
      var path := st.verificationFile;
      var book := files[path].book;
      var i := IndexOfSheet(book, st.sheetTx3);
      if k < |book| - i - 1 {
        assert s.out.logs[k][0] == '✅';
      } else {
        assert s.out.logs[k][0] == 'ℹ';
      }
    }
  }

  lemma ClearTemplatePlain(st: Settings, files: FileMap)
    ensures Plain(ClearTemplate(st, files).out.logs)
  {
    var s := ClearTemplate(st, files);
    if s.out.logs != [] {
      assert s.out.logs[0][0] == '✅';
    }
  }

  /** The run succeeds exactly when step 2 does: steps 1, 4 and 5 only add
      warnings, and step 3 cannot fail once step 2 has saved the file. Only
      step 1 can change the settings, and a failing step 2 ends the run with
      the files as step 1 left them. */
  lemma RunAllOutcome(st: Settings, files: FileMap, today: Date, renameSucceeds: bool)
    ensures var r := RunAll(st, files, today, renameSucceeds);
            var s1 := Rename(st, files, today, renameSucceeds);
            var s2 := AddDateRow(s1.settings, s1.files, today);
            && (r.out.success <==> s2.out.success)
            && r.settings == s1.settings
            && (!s2.out.success ==> r.out.message == Step2Error(s2.out.message) && r.files == s1.files)
            && (r.out.success ==> r.out.message == SuccessMessage)
  {
    var s1 := Rename(st, files, today, renameSucceeds);
    if AddDateRow(s1.settings, s1.files, today).out.success {
      Step3FollowsStep2(s1.settings, s1.files, today);
    }
  }

  lemma BannersAreHeaders()
    ensures IsHeader(Header1) && IsHeader(Header2) && IsHeader(Header3)
    ensures IsHeader(Header4) && IsHeader(Header5)
  {
  }

  /** Once step 2 has succeeded the file is there and readable, so step 3 succeeds too. */
  lemma Step3FollowsStep2(st: Settings, files: FileMap, today: Date)
    requires AddDateRow(st, files, today).out.success
    ensures var s2 := AddDateRow(st, files, today);
            ClearTx(s2.settings, s2.files).out.success
  {
  }

  // ---------------------------------------------------------------------
  // The run's log, step by step
  // ---------------------------------------------------------------------

  /** A banner and the plain lines logged under it. */
  datatype Section = Section(banner: string, lines: seq<string>)

  /** The log split at its banners: one section per banner, holding the lines
      up to the next banner. Lines before the first banner belong to no section. */
  function Sections(logs: seq<string>): (r: seq<Section>)
    ensures forall k :: 0 <= k < |r| ==> IsHeader(r[k].banner) && Plain(r[k].lines)
    decreases |logs|
  {
    if logs == [] then []
    else
      var init := Sections(logs[..|logs| - 1]);
      var last := logs[|logs| - 1];
      if IsHeader(last) then init + [Section(last, [])]
      else if init == [] then []
      else
        var open := init[|init| - 1];
        assert Plain(open.lines + [last]) by {
          forall k | 0 <= k < |open.lines + [last]|
            ensures !IsHeader((open.lines + [last])[k])
          {
            if k < |open.lines| {
              assert (open.lines + [last])[k] == open.lines[k];
            }
          }
        }
        init[..|init| - 1] + [Section(open.banner, open.lines + [last])]
  }

  /** Plain lines appended to a log that has a section go to its last section. */
  lemma {:induction false} SectionsAddPlain(log: seq<string>, lines: seq<string>)
    requires Plain(lines) && Sections(log) != []
    ensures var s := Sections(log);
            Sections(log + lines) == s[..|s| - 1] + [Section(s[|s| - 1].banner, s[|s| - 1].lines + lines)]
    decreases |lines|
  {
    var s := Sections(log);
    var n := |s|;
    if lines == [] {
      assert log + lines == log;
      assert s[n - 1].lines + lines == s[n - 1].lines;
      assert s[..n - 1] + [s[n - 1]] == s;
    } else {
      var init := lines[..|lines| - 1];
      var x := lines[|lines| - 1];
      assert Plain(init);
      SectionsAddPlain(log, init);
      var t := Sections(log + init);
      assert t[..n - 1] == s[..n - 1];
      assert (log + lines)[..|log + lines| - 1] == log + init;
      assert (log + lines)[|log + lines| - 1] == x;
      assert !IsHeader(x);
      assert s[n - 1].lines + init + [x] == s[n - 1].lines + lines;
    }
  }

  /** A banner followed by plain lines opens a new section holding exactly those lines. */
  lemma AddSection(log: seq<string>, h: string, lines: seq<string>)
    requires IsHeader(h) && Plain(lines)
    ensures Sections(log + [h] + lines) == Sections(log) + [Section(h, lines)]
  {
    var log' := log + [h];
    assert log'[..|log'| - 1] == log;
    assert Sections(log') == Sections(log) + [Section(h, [])];
    SectionsAddPlain(log', lines);
    assert [] + lines == lines;
    assert (Sections(log) + [Section(h, [])])[..|Sections(log)|] == Sections(log);
  }

  /** As AddSection, for a step's lines followed by its warning. */
  lemma AddStepSection(log: seq<string>, h: string, lines: seq<string>, warning: seq<string>)
    requires IsHeader(h) && Plain(lines) && Plain(warning)
    ensures Sections(log + [h] + lines + warning) == Sections(log) + [Section(h, lines + warning)]
  {
    PlainAppend(lines, warning);
    assert log + [h] + lines + warning == log + [h] + (lines + warning);
    AddSection(log, h, lines + warning);
  }

  /** Steps 3 to 5 add one section each to the log so far: step 3's lines; then,
      unless step 3 failed, step 4's and step 5's lines, each followed by its
      warning when that step failed. The files and settings are those the last
      step run leaves, and a failing step 3 ends the run with its message. */
  lemma RunCleanupSections(st: Settings, files: FileMap, log: seq<string>)
    ensures var r := RunCleanup(st, files, log);
            var s3 := ClearTx(st, files);
            var s4 := ClearAfterTx3(s3.settings, s3.files);
            var s5 := ClearTemplate(s4.settings, s4.files);
            if !s3.out.success then
              && Sections(r.out.logs) == Sections(log) + [Section(Header3, s3.out.logs)]
              && !r.out.success && r.out.message == Step3Error(s3.out.message)
              && r.files == s3.files && r.settings == s3.settings
            else
              && Sections(r.out.logs) == Sections(log) + [Section(Header3, s3.out.logs),
                   Section(Header4, s4.out.logs + Warning(s4.out, false)),
                   Section(Header5, s5.out.logs + Warning(s5.out, false))]
              && r.out.success && r.out.message == SuccessMessage
              && r.files == s5.files && r.settings == s5.settings
  {
    var s3 := ClearTx(st, files);
    BannersAreHeaders();
    ClearTxPlain(st, files);
    AddSection(log, Header3, s3.out.logs);
    if s3.out.success {
      var s4 := ClearAfterTx3(s3.settings, s3.files);
      var s5 := ClearTemplate(s4.settings, s4.files);
      ClearAfterTx3Plain(s3.settings, s3.files);
      ClearTemplatePlain(s4.settings, s4.files);
      WarningPlain(s4.out, false);
      WarningPlain(s5.out, false);
      var log3 := log + [Header3] + s3.out.logs;
      AddStepSection(log3, Header4, s4.out.logs, Warning(s4.out, false));
      var log4 := log3 + [Header4] + s4.out.logs + Warning(s4.out, false);
      AddStepSection(log4, Header5, s5.out.logs, Warning(s5.out, false));
      JoinThree(Sections(log), Section(Header3, s3.out.logs),
        Section(Header4, s4.out.logs + Warning(s4.out, false)),
        Section(Header5, s5.out.logs + Warning(s5.out, false)));
    }
  }

  lemma JoinThree<T>(s: seq<T>, a: T, b: T, c: T)
    ensures s + [a] + [b] + [c] == s + [a, b, c]
  {
  }

  /** The log of steps 1 and 2 is their two sections: step 1's lines with its
      warning when it failed, then step 2's lines. */
  lemma SectionsThrough2(st: Settings, files: FileMap, today: Date, renameSucceeds: bool, s1: StepResult, s2: StepResult)
    requires s1 == Rename(st, files, today, renameSucceeds)
    requires s2 == AddDateRow(s1.settings, s1.files, today)
    ensures Sections([Header1] + s1.out.logs + Warning(s1.out, true) + [Header2] + s2.out.logs)
            == [Section(Header1, s1.out.logs + Warning(s1.out, true)), Section(Header2, s2.out.logs)]
  {
    BannersAreHeaders();
    RenamePlain(st, files, today, renameSucceeds);
    WarningPlain(s1.out, true);
    AddDateRowPlain(s1.settings, s1.files, today);
    assert [Header1] == [] + [Header1];
    AddStepSection([], Header1, s1.out.logs, Warning(s1.out, true));
    var log1 := [Header1] + s1.out.logs + Warning(s1.out, true);
    AddSection(log1, Header2, s2.out.logs);
  }

  /** With a failing step 2 the log ends under step 2's banner with the "❌ " line. */
  lemma RunAllSectionsStop(st: Settings, files: FileMap, today: Date, renameSucceeds: bool, s1: StepResult, s2: StepResult)
    requires s1 == Rename(st, files, today, renameSucceeds)
    requires s2 == AddDateRow(s1.settings, s1.files, today)
    requires !s2.out.success
    ensures var r := RunAll(st, files, today, renameSucceeds);
            && Sections(r.out.logs) == [Section(Header1, s1.out.logs + Warning(s1.out, true)),
                                        Section(Header2, s2.out.logs + [ErrorLine(s2.out.message)])]
            && r.files == s2.files
  {
    var e := [ErrorLine(s2.out.message)];
    assert Plain(e) by { assert e[0][0] == '❌'; }
    RenamePlain(st, files, today, renameSucceeds);
    WarningPlain(s1.out, true);
    AddDateRowPlain(s1.settings, s1.files, today);
    TwoSections(s1.out.logs, Warning(s1.out, true), s2.out.logs, e);
  }

  /** Steps 1 and 2 logged as the run does, with a closing line under step 2. */
  lemma TwoSections(l1: seq<string>, w1: seq<string>, l2: seq<string>, e: seq<string>)
    requires Plain(l1) && Plain(w1) && Plain(l2) && Plain(e)
    ensures Sections([Header1] + l1 + w1 + [Header2] + l2 + e) == [Section(Header1, l1 + w1), Section(Header2, l2 + e)]
  {
    BannersAreHeaders();
    var log1 := [Header1] + l1 + w1;
    AddStepSection(log1, Header2, l2, e);
    assert [Header1] == [] + [Header1];
    AddStepSection([], Header1, l1, w1);
  }

  /** With a successful step 2 the cleanup steps' sections follow. */
  lemma RunAllSectionsGo(st: Settings, files: FileMap, today: Date, renameSucceeds: bool, s1: StepResult, s2: StepResult)
    requires s1 == Rename(st, files, today, renameSucceeds)
    requires s2 == AddDateRow(s1.settings, s1.files, today)
    requires s2.out.success
    ensures var r := RunAll(st, files, today, renameSucceeds);
            var s3 := ClearTx(s2.settings, s2.files);
            var s4 := ClearAfterTx3(s3.settings, s3.files);
            var s5 := ClearTemplate(s4.settings, s4.files);
            && Sections(r.out.logs) == [Section(Header1, s1.out.logs + Warning(s1.out, true)),
                 Section(Header2, s2.out.logs), Section(Header3, s3.out.logs),
                 Section(Header4, s4.out.logs + Warning(s4.out, false)),
                 Section(Header5, s5.out.logs + Warning(s5.out, false))]
            && r.files == s5.files
  {
    var log2 := [Header1] + s1.out.logs + Warning(s1.out, true) + [Header2] + s2.out.logs;
    assert RunAll(st, files, today, renameSucceeds) == RunCleanup(s2.settings, s2.files, log2);
    Step3FollowsStep2(s1.settings, s1.files, today);
    SectionsThrough2(st, files, today, renameSucceeds, s1, s2);
    RunCleanupSections(s2.settings, s2.files, log2);
    var s3 := ClearTx(s2.settings, s2.files);
    var s4 := ClearAfterTx3(s3.settings, s3.files);
    var s5 := ClearTemplate(s4.settings, s4.files);
    JoinTwoThree(Section(Header1, s1.out.logs + Warning(s1.out, true)), Section(Header2, s2.out.logs),
      Section(Header3, s3.out.logs), Section(Header4, s4.out.logs + Warning(s4.out, false)),
      Section(Header5, s5.out.logs + Warning(s5.out, false)));
  }

  lemma JoinTwoThree<T>(a: T, b: T, c: T, d: T, e: T)
    ensures [a, b] + [c, d, e] == [a, b, c, d, e]
  {
  }

  /** Steps 3 to 5 only append to the log so far. */
  lemma RunCleanupExtends(st: Settings, files: FileMap, log: seq<string>)
    ensures log <= RunCleanup(st, files, log).out.logs
  {
    var s3 := ClearTx(st, files);
    var log3 := log + [Header3] + s3.out.logs;
    assert log <= log3;
    if s3.out.success {
      var s4 := ClearAfterTx3(s3.settings, s3.files);
      var log4 := log3 + [Header4] + s4.out.logs + Warning(s4.out, false);
      var s5 := ClearTemplate(s4.settings, s4.files);
      assert log3 <= log4;
      assert log4 <= log4 + [Header5] + s5.out.logs + Warning(s5.out, false);
    }
  }

  /** The run's log opens with step 1's banner: nothing is logged before it. */
  lemma RunAllOpensWithBanner(st: Settings, files: FileMap, today: Date, renameSucceeds: bool)
    ensures var r := RunAll(st, files, today, renameSucceeds);
            |r.out.logs| > 0 && r.out.logs[0] == Header1
  {
    var s1 := Rename(st, files, today, renameSucceeds);
    var s2 := AddDateRow(s1.settings, s1.files, today);
    var log2 := [Header1] + s1.out.logs + Warning(s1.out, true) + [Header2] + s2.out.logs;
    assert log2[0] == Header1;
    if s2.out.success {
      RunCleanupExtends(s2.settings, s2.files, log2);
    } else {
      assert (log2 + [ErrorLine(s2.out.message)])[0] == log2[0];
    }
  }

  /** The run's log, section by section. Step 1's lines are followed by its
      "(traitement continué)" warning when it failed, and nothing comes before
      step 1's banner. A failing step 2 ends the
      log with the "❌ " line under its banner; otherwise steps 3 to 5 follow,
      step 4 and 5 each with its warning when it failed. The files are those
      the last step run leaves behind. */
  lemma RunAllSections(st: Settings, files: FileMap, today: Date, renameSucceeds: bool)
    ensures var r := RunAll(st, files, today, renameSucceeds);
            var s1 := Rename(st, files, today, renameSucceeds);
            var s2 := AddDateRow(s1.settings, s1.files, today);
            var s3 := ClearTx(s2.settings, s2.files);
            var s4 := ClearAfterTx3(s3.settings, s3.files);
            var s5 := ClearTemplate(s4.settings, s4.files);
            var first := Section(Header1, s1.out.logs + Warning(s1.out, true));
            && |r.out.logs| > 0 && r.out.logs[0] == Header1
            && (if !s2.out.success then
                  && Sections(r.out.logs) == [first, Section(Header2, s2.out.logs + [ErrorLine(s2.out.message)])]
                  && r.files == s2.files
                else
                  && Sections(r.out.logs) == [first, Section(Header2, s2.out.logs), Section(Header3, s3.out.logs),
                       Section(Header4, s4.out.logs + Warning(s4.out, false)),
                       Section(Header5, s5.out.logs + Warning(s5.out, false))]
                  && r.files == s5.files)
  {
    var s1 := Rename(st, files, today, renameSucceeds);
    var s2 := AddDateRow(s1.settings, s1.files, today);
    if !s2.out.success {
      RunAllSectionsStop(st, files, today, renameSucceeds, s1, s2);
    } else {
      RunAllSectionsGo(st, files, today, renameSucceeds, s1, s2);
    }
    RunAllOpensWithBanner(st, files, today, renameSucceeds);
  }
}
