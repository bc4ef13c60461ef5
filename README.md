# NAUTIL admin: the daily workbook pipeline, modelled in Dafny

The NAUTIL admin application prepares a daily verification workbook. It has
five steps:

1. rename the verification file with today's date;
2. append a date row to the global summary sheet;
3. clear columns B to G from row 4 of the sheets TX1, TX2 and TX3;
4. empty every sheet placed after TX3;
5. clear columns A to F from row 4 of the first sheet of a template workbook.

`runAllExcelTasks` runs the five steps in order. It continues after a failing
step 1, 4 or 5 with a warning, and stops after a failing step 2 or 3. The
web controller exposes each step, the whole run, a "complete" workflow that
mails the workbook only when the run succeeded, and an update of the three
configurable file locations.

The project models these parts:

- `ExcelService`, with its private helpers `clearSheetDataRange` and
  `findLastDataRow`;
- `TaskResult`;
- the handlers of `AdminController`;
- the `NautilConfig` record.

The modules follow the program's structure:

- `Text`: decimal counts and the two date renderings.
- `Config` (NautilConfig), as a class. Only the three file locations have
  setters.
- `Tasks` (TaskResult), as a class with fields updated in place.
- `Grid`: the spreadsheet.
  - Cells, sparse rows and named sheets are values.
  - The range clear, `getLastRowNum` and `findLastDataRow` are
    specification functions.
  - The open workbook is a class, `Workbook`, edited in place by
    `createRow`, `setCellValue`, `setBlank` and `removeRow`.
- `Files`: the file system as a map from path to stored content.
- `FileNames`: the date-pattern rewrite of the file name, and the path split
  and join.
- `Steps`: what each step and the whole run do to the stored files and to
  the settings, and what they report. Each is written as a function of the
  old state, with the lemmas that state the steps' properties.
- `Excel` (ExcelService): the imperative steps, with the source's loops.
  Every method's `ensures` ties its result and its new state to the matching
  `Steps` function.
- `Admin` (AdminController): the handlers, the mail service as a recorder of
  send requests, the complete workflow and the configuration patch.

The inputs from outside the program are parameters:

- the date of the clock: `today`, in `Date`;
- whether the operating system lets `renameTo` move the file:
  `renameSucceeds`;
- what the mail server answers: `reply`;
- the stored files: the initial `FileSystem`.

## Model

| member | source | states |
|---|---|---|
| Text.NatToString | src/main/java/com/nautil/nautil_admin/ExcelService.java:151 | the count in a log line is a non-empty string of decimal digits without a leading zero |
| Text.NatToStringValue | src/main/java/com/nautil/nautil_admin/ExcelService.java:151 | reading the rendered count back as a decimal number gives the count |
| Text.PaddedValue | src/main/java/com/nautil/nautil_admin/ExcelService.java:46 | a number below 10^width reads back from its zero-padded digits |
| Text.Date.Iso | src/main/java/com/nautil/nautil_admin/ExcelService.java:46 | today as `yyyy-MM-dd`: ten characters, dashes at positions 4 and 7, digits elsewhere; the first four digits read as the year, the next two as the month, the last two as the day |
| Text.Date.Dmy | src/main/java/com/nautil/nautil_admin/ExcelService.java:108 | today as `dd/MM/yyyy`: ten characters, slashes at positions 2 and 5, digits elsewhere; the first two digits read as the day, the next two as the month, the last four as the year |
| Text.SameDigits | src/main/java/com/nautil/nautil_admin/ExcelService.java:46 | both renderings of a date carry the same year, month and day digits |
| FileNames.ReplacePreservesShape | src/main/java/com/nautil/nautil_admin/ExcelService.java:47 | replacing every date-shaped substring by a date keeps the name's length, and only digits are replaced, by digits |
| FileNames.NoDateUnchanged | src/main/java/com/nautil/nautil_admin/ExcelService.java:47 | a file name with no `\d{4}-\d{2}-\d{2}` substring is left unchanged |
| FileNames.DateIsInserted | src/main/java/com/nautil/nautil_admin/ExcelService.java:47 | a file name holding a date-shaped substring gets today's date in it |
| FileNames.MatchOffsetAt | src/main/java/com/nautil/nautil_admin/ExcelService.java:47 | the matches of the left-to-right scan are whole, non-overlapping, date-shaped windows of the name: offsets 0 to 9 in a row, starting on a date-shaped window |
| FileNames.EveryDateMatched | src/main/java/com/nautil/nautil_admin/ExcelService.java:47 | every date-shaped window of the name starts inside a match of the scan: none is skipped |
| FileNames.ReplaceDatesAt | src/main/java/com/nautil/nautil_admin/ExcelService.java:47 | for a ten-character date, the result holds the date's character at each matched position and the original character everywhere else |
| FileNames.EveryDateReplaced | src/main/java/com/nautil/nautil_admin/ExcelService.java:47 | every date-shaped window of the name, not only the first, is overwritten by the date from its first character on |
| FileNames.TwoDatesReplaced | src/main/java/com/nautil/nautil_admin/ExcelService.java:47 | a name made of two dates around a non-digit has both replaced |
| FileNames.TwoDatesExample | src/main/java/com/nautil/nautil_admin/ExcelService.java:46-47 | "2024-01-01_2023-02-02" renamed on 2024-06-15 becomes "2024-06-15_2024-06-15" |
| FileNames.ReplaceIdempotent | src/main/java/com/nautil/nautil_admin/ExcelService.java:47 | renaming twice on the same day gives the same name as renaming once |
| FileNames.LastSlash | src/main/java/com/nautil/nautil_admin/ExcelService.java:47-48 | the position of the last separator: a '/' with no '/' after it, or -1 |
| FileNames.SplitJoin | src/main/java/com/nautil/nautil_admin/ExcelService.java:47-48 | `new File(getParent(), getName())` gives back the original path |
| FileNames.ChildOfParent | src/main/java/com/nautil/nautil_admin/ExcelService.java:48 | a separator-free name put in p's directory keeps that directory and is found under that name |
| FileNames.RenamedPathMeaning | src/main/java/com/nautil/nautil_admin/ExcelService.java:46-48 | the renamed file stays in its directory, its name is the rewritten old name, and a name without a date keeps its whole path |
| FileNames.RenameExample | src/main/java/com/nautil/nautil_admin/ExcelService.java:46-47 | "verif-2024-01-01.xlsx" renamed on 2024-06-15 becomes "verif-2024-06-15.xlsx" |
| Files.Moved | src/main/java/com/nautil/nautil_admin/ExcelService.java:50 | after a move the target holds the source's content, the source is gone and every other path is untouched |
| Files.FileSystem.Store | src/main/java/com/nautil/nautil_admin/ExcelService.java:381-383 | writing a workbook replaces the content at that path and nothing else |
| Files.FileSystem.RenameTo | src/main/java/com/nautil/nautil_admin/ExcelService.java:50 | the move happens exactly when the system allows it and the source exists; otherwise no file changes |
| Grid.Put | src/main/java/com/nautil/nautil_admin/ExcelService.java:97 | setting a cell adds that column to the row and keeps every other cell |
| Grid.LastRowNum | src/main/java/com/nautil/nautil_admin/ExcelService.java:323 | `getLastRowNum`: the greatest existing row index, and -1 exactly for a sheet with no row |
| Grid.ClearedRange | src/main/java/com/nautil/nautil_admin/ExcelService.java:325-346 | after the range clear no existing cell at or below startRow in columns startCol..endCol is non-blank; rows and cells are neither added nor removed; rows before startRow and cells outside the window are unchanged |
| Grid.CountInIsCardinality | src/main/java/com/nautil/nautil_admin/ExcelService.java:325-347 | the row counter equals the number of existing rows in the scanned range that hold data in the window |
| Grid.CountInBound | src/main/java/com/nautil/nautil_admin/ExcelService.java:325-347 | the row counter never exceeds the length of the scanned range |
| Grid.ClearedCountMeaning | src/main/java/com/nautil/nautil_admin/ExcelService.java:321-349 | the returned count is the number of rows from startRow to the last row with data in the window, is at most max(0, last - startRow + 1), and is 0 exactly when no such row exists |
| Grid.ClearTwice | src/main/java/com/nautil/nautil_admin/ExcelService.java:321-349 | clearing the same range again changes nothing and returns 0; the last row is unchanged |
| Grid.LastDataRowFrom | src/main/java/com/nautil/nautil_admin/ExcelService.java:358-368 | the downward scan from row i returns the first row at or above i that exists and holds a non-blank cell, or 0 |
| Grid.LastDataRow | src/main/java/com/nautil/nautil_admin/ExcelService.java:355-369 | `findLastDataRow`: the greatest existing row holding a non-blank cell, or 0 when there is none; never negative |
| Grid.DateRowAdvancesLastDataRow | src/main/java/com/nautil/nautil_admin/ExcelService.java:93-97 | after writing the date row the last data row is exactly one further down (row 1 for a sheet without data); every other row is unchanged |
| Grid.FirstIndex | src/main/java/com/nautil/nautil_admin/ExcelService.java:84 | the position of the first sheet with that name, or -1 exactly when none has it |
| Grid.IndexOfSheet | src/main/java/com/nautil/nautil_admin/ExcelService.java:183 | `getSheetIndex`: the first sheet with that name, or -1 exactly when no sheet has it |
| Grid.Workbook.Open | src/main/java/com/nautil/nautil_admin/ExcelService.java:80-81 | the opened workbook is the stored content |
| Grid.Workbook.CreateRow | src/main/java/com/nautil/nautil_admin/ExcelService.java:96 | `createRow`: in the given sheet the row becomes an empty row; nothing else changes |
| Grid.Workbook.SetCell | src/main/java/com/nautil/nautil_admin/ExcelService.java:97-105 | setting one cell of an existing row changes that cell only |
| Grid.Workbook.SetBlank | src/main/java/com/nautil/nautil_admin/ExcelService.java:342 | `setBlank` on an existing cell makes it blank and changes nothing else |
| Grid.Workbook.RemoveRow | src/main/java/com/nautil/nautil_admin/ExcelService.java:202 | `removeRow` drops that row only |
| Config.NautilConfig.constructor | src/main/java/com/nautil/nautil_admin/NautilConfig.java:9-34 | the nine settings hold their start-up values |
| Config.NautilConfig.SetVerificationFilePath | src/main/java/com/nautil/nautil_admin/NautilConfig.java:46 | only the verification file path changes |
| Config.NautilConfig.SetTemplateFilePath | src/main/java/com/nautil/nautil_admin/NautilConfig.java:47 | only the template path changes |
| Config.NautilConfig.SetOutputDir | src/main/java/com/nautil/nautil_admin/NautilConfig.java:48 | only the output directory changes |
| Tasks.TaskResult.constructor | src/main/java/com/nautil/nautil_admin/TaskResult.java:12 | a new result is unsuccessful, with empty message and no log |
| Tasks.TaskResult.WithStatus | src/main/java/com/nautil/nautil_admin/TaskResult.java:14-17 | a result with the given status and message and no log |
| Tasks.TaskResult.AddLog | src/main/java/com/nautil/nautil_admin/TaskResult.java:19-21 | one line is appended to the log; status and message unchanged |
| Tasks.TaskResult.AddAllLogs | src/main/java/com/nautil/nautil_admin/ExcelService.java:270 | `getLogs().addAll`: the lines are appended in order; status and message unchanged |
| Tasks.TaskResult.SetSuccess | src/main/java/com/nautil/nautil_admin/TaskResult.java:24 | only the status changes |
| Tasks.TaskResult.SetMessage | src/main/java/com/nautil/nautil_admin/TaskResult.java:27 | only the message changes |
| Tasks.TaskResult.SetLogs | src/main/java/com/nautil/nautil_admin/TaskResult.java:30 | only the log changes |
| Steps.Rename | src/main/java/com/nautil/nautil_admin/ExcelService.java:34-65 | a failing step 1 leaves the files and the settings as they were and logs nothing (its success case is stated by `Steps.RenameMeaning`) |
| Steps.RenameMeaning | src/main/java/com/nautil/nautil_admin/ExcelService.java:34-65 | step 1 succeeds exactly when the file exists and the move is allowed; it then moves that file to the renamed path, in the same directory, leaves every other file alone, points the configuration at the new path, and reports "Fichier renommé : " + new name with the "✅ Renommage : old → new" line; a missing file gives "Fichier introuvable : " + path and a refused move "Impossible de renommer le fichier" |
| Steps.AddDateRow | src/main/java/com/nautil/nautil_admin/ExcelService.java:70-120 | step 2 never changes the settings; a failure saves nothing and logs nothing |
| Steps.AddDateRowMeaning | src/main/java/com/nautil/nautil_admin/ExcelService.java:70-120 | a missing file gives "Fichier introuvable : " + path and an unreadable one "Erreur : " + reason; on a readable file step 2 fails exactly when the global sheet is missing, with "Onglet introuvable : " + name; otherwise only the verification file is rewritten and only its global sheet changes, to the rows with the date row appended after the last data row; it reports "Ligne de date ajoutée dans Vue Globale" with the row and date lines |
| Steps.ClearTxSheet | src/main/java/com/nautil/nautil_admin/ExcelService.java:144-151 | clearing one TX sheet keeps the sheet names |
| Steps.ClearTxLoop | src/main/java/com/nautil/nautil_admin/ExcelService.java:143-152 | the loop keeps the sheet names and logs one line per configured name |
| Steps.ClearTx | src/main/java/com/nautil/nautil_admin/ExcelService.java:125-164 | step 3 never changes the settings; a failure saves nothing and logs nothing |
| Steps.ClearTxLoopRows | src/main/java/com/nautil/nautil_admin/ExcelService.java:143-152 | after the loop each sheet is range-cleared (B4:G) when some configured name finds it first, and untouched otherwise |
| Steps.ClearTxLoopLogs | src/main/java/com/nautil/nautil_admin/ExcelService.java:143-152 | the k-th log line is the warning for a missing sheet or the count of that sheet's cleared rows (0 when an earlier name already cleared it) |
| Steps.WarningIffMissing | src/main/java/com/nautil/nautil_admin/ExcelService.java:145-151 | a name's line is the missing-sheet warning exactly when no sheet has that name |
| Steps.ClearTxLoopTwice | src/main/java/com/nautil/nautil_admin/ExcelService.java:143-152 | running the loop again changes nothing and logs 0 rows for every sheet found |
| Steps.ClearTxMeaning | src/main/java/com/nautil/nautil_admin/ExcelService.java:125-164 | step 3 succeeds exactly when the file exists and is readable, answering "Données TX1/TX2/TX3 supprimées", and otherwise "Fichier introuvable : " + path or "Erreur : " + reason; it saves the cleared workbook with the same sheet names, logs three lines, and a second run leaves the files as they are |
| Steps.EmptiedAfter | src/main/java/com/nautil/nautil_admin/ExcelService.java:193-204 | every sheet after TX3 has no rows left; TX3 and the sheets before it are unchanged; names are kept |
| Steps.EmptiedLogs | src/main/java/com/nautil/nautil_admin/ExcelService.java:206 | one line per emptied sheet, in sheet order |
| Steps.ClearAfterTx3 | src/main/java/com/nautil/nautil_admin/ExcelService.java:169-223 | step 4 never changes the settings; a failure saves nothing and logs nothing |
| Steps.ClearAfterTx3Meaning | src/main/java/com/nautil/nautil_admin/ExcelService.java:169-223 | a missing file gives "Fichier introuvable : " + path and an unreadable one "Erreur : " + reason; on a readable file step 4 fails exactly when TX3 is missing; otherwise only the verification file is rewritten: it empties every later sheet, keeps the rest, reports the number of emptied sheets, and logs one line per emptied sheet or "ℹ️ Aucun onglet après TX3" when there is none |
| Steps.ClearTemplate | src/main/java/com/nautil/nautil_admin/ExcelService.java:228-258 | step 5 never changes the settings; a failure saves nothing and logs nothing |
| Steps.ClearTemplateMeaning | src/main/java/com/nautil/nautil_admin/ExcelService.java:228-258 | step 5 succeeds exactly when the template exists, is readable and has a sheet, and otherwise answers "Template introuvable : " + path or "Erreur : " + reason; on success only the template file is rewritten, its first sheet is range-cleared (A4:F), the other sheets are unchanged, the message and the log line give the cleared range and count, and a second run succeeds and changes nothing |
| Steps.RunAllOutcome | src/main/java/com/nautil/nautil_admin/ExcelService.java:263-314 | the run succeeds exactly when step 2 does, with "Traitement Excel terminé avec succès"; a failing step 2 gives "Erreur étape 2 : " + message and leaves the files as step 1 left them; only step 1 changes the settings |
| Steps.Step3FollowsStep2 | src/main/java/com/nautil/nautil_admin/ExcelService.java:286-294 | once step 2 has saved the file, step 3 cannot fail |
| Steps.Sections | src/main/java/com/nautil/nautil_admin/ExcelService.java:263-314 | splitting a log at its banners gives sections whose banners are banner lines and whose lines are not |
| Steps.SectionsAddPlain | src/main/java/com/nautil/nautil_admin/ExcelService.java:269-270 | plain lines logged after a banner join that banner's section |
| Steps.AddSection | src/main/java/com/nautil/nautil_admin/ExcelService.java:269-270 | a banner followed by plain lines opens one new section holding exactly those lines |
| Steps.AddStepSection | src/main/java/com/nautil/nautil_admin/ExcelService.java:269-273 | a banner, a step's lines and its warning make one section: the lines followed by the warning |
| Steps.RunCleanupSections | src/main/java/com/nautil/nautil_admin/ExcelService.java:286-313 | steps 3 to 5 add one section each; a failing step 3 adds only its own and ends with "Erreur étape 3 : " + message; otherwise steps 4 and 5 follow, each with its warning when it failed, and the files are those step 5 leaves |
| Steps.SectionsThrough2 | src/main/java/com/nautil/nautil_admin/ExcelService.java:267-278 | the log of steps 1 and 2 is two sections: step 1's lines with its "(traitement continué)" warning when it failed, then step 2's lines |
| Steps.RunAllSectionsStop | src/main/java/com/nautil/nautil_admin/ExcelService.java:276-284 | with a failing step 2 the log is the two sections of steps 1 and 2, the second ending with "❌ " + message, and the files are as step 2 left them |
| Steps.RunAllSectionsGo | src/main/java/com/nautil/nautil_admin/ExcelService.java:263-314 | with a successful step 2 the log is the five sections of the steps, each with its lines and warning, and the files are those step 5 leaves |
| Steps.RunCleanupExtends | src/main/java/com/nautil/nautil_admin/ExcelService.java:286-313 | steps 3 to 5 only append to the log they are given |
| Steps.RunAllOpensWithBanner | src/main/java/com/nautil/nautil_admin/ExcelService.java:264-269 | nothing is logged before step 1's banner, which is the log's first line |
| Steps.RunAllSections | src/main/java/com/nautil/nautil_admin/ExcelService.java:263-314 | the run's log opens with step 1's banner and is, section by section, each step's own lines in order, with the warnings, the "❌ " line and the early stop of the source; the files are those of the last step run |
| Excel.RowHasData | src/main/java/com/nautil/nautil_admin/ExcelService.java:329-336 | the `hasData` scan is true exactly when an existing cell in columns startCol..endCol is non-blank |
| Excel.BlankRowWindow | src/main/java/com/nautil/nautil_admin/ExcelService.java:339-344 | the row's existing cells in the window become blank; nothing else in the workbook changes |
| Excel.ClearSheetDataRange | src/main/java/com/nautil/nautil_admin/ExcelService.java:321-350 | the sheet becomes the range-cleared grid and the result is the number of rows cleared; no other sheet changes |
| Excel.RowHasAnyData | src/main/java/com/nautil/nautil_admin/ExcelService.java:361-365 | the cell iteration finds a non-blank cell exactly when the row holds one |
| Excel.FindLastDataRow | src/main/java/com/nautil/nautil_admin/ExcelService.java:355-369 | the result is the last row with data, or 0 |
| Excel.RemoveAllRows | src/main/java/com/nautil/nautil_admin/ExcelService.java:198-204 | the sheet ends with no rows; no other sheet changes |
| Excel.AppendDateRow | src/main/java/com/nautil/nautil_admin/ExcelService.java:93-105 | the new row is the row after the last data row and holds today's date in column 0; no other sheet changes |
| Excel.ExcelService.constructor | src/main/java/com/nautil/nautil_admin/ExcelService.java:22-23 | the service works on the shared configuration and file system |
| Excel.ExcelService.SaveWorkbook | src/main/java/com/nautil/nautil_admin/ExcelService.java:374-384 | the workbook is stored at its path; no other file changes |
| Excel.ExcelService.RenameVerificationFile | src/main/java/com/nautil/nautil_admin/ExcelService.java:34-65 | result, files and configuration are those of `Steps.Rename` |
| Excel.ExcelService.AddDateRowInVueGlobale | src/main/java/com/nautil/nautil_admin/ExcelService.java:70-120 | result and files are those of `Steps.AddDateRow`; the configuration is unchanged |
| Excel.ExcelService.AddDateRowIn | src/main/java/com/nautil/nautil_admin/ExcelService.java:83-112 | on the open workbook: the missing-sheet failure, or the date row, the two log lines and the save |
| Excel.ExcelService.ClearTxSheets | src/main/java/com/nautil/nautil_admin/ExcelService.java:125-164 | result and files are those of `Steps.ClearTx` |
| Excel.ExcelService.ClearTxIn | src/main/java/com/nautil/nautil_admin/ExcelService.java:143-156 | on the open workbook: the loop over TX1-TX3, the save and the success message |
| Excel.ExcelService.ClearNamedSheets | src/main/java/com/nautil/nautil_admin/ExcelService.java:143-152 | the workbook and log are those of `Steps.ClearTxLoop` |
| Excel.ExcelService.ClearNamedSheet | src/main/java/com/nautil/nautil_admin/ExcelService.java:144-151 | one name: a warning if the sheet is missing, else the range clear and its count |
| Excel.ExcelService.ClearSheetsAfterTx3 | src/main/java/com/nautil/nautil_admin/ExcelService.java:169-223 | result and files are those of `Steps.ClearAfterTx3` |
| Excel.ExcelService.ClearAfterTx3In | src/main/java/com/nautil/nautil_admin/ExcelService.java:183-215 | on the open workbook: the TX3 failure, or the emptying, the save, the count message and the note for no later sheet |
| Excel.ExcelService.EmptySheetsAfter | src/main/java/com/nautil/nautil_admin/ExcelService.java:190-207 | every sheet after TX3 is emptied, one log line each, and the count is the number of those sheets |
| Excel.ExcelService.ClearTemplateFile | src/main/java/com/nautil/nautil_admin/ExcelService.java:228-258 | result and files are those of `Steps.ClearTemplate` |
| Excel.ExcelService.ClearTemplateIn | src/main/java/com/nautil/nautil_admin/ExcelService.java:243-250 | on the open template: the A4:F clear of the first sheet, its log line, the save and the message |
| Excel.ExcelService.RunAllExcelTasks | src/main/java/com/nautil/nautil_admin/ExcelService.java:263-314 | result, files and configuration are those of `Steps.RunAll` |
| Excel.ExcelService.LogStep | src/main/java/com/nautil/nautil_admin/ExcelService.java:269-270 | a step's banner and then its log lines are appended; status and message unchanged |
| Excel.ExcelService.RunCleanupSteps | src/main/java/com/nautil/nautil_admin/ExcelService.java:286-313 | steps 3 to 5 with their banners and warnings give the result and files of `Steps.RunCleanup` |
| Admin.ToResponse | src/main/java/com/nautil/nautil_admin/AdminController.java:184-190 | the answer carries the result's status, message and log |
| Admin.FromResponse | src/main/java/com/nautil/nautil_admin/AdminController.java:184-190 | the result an answer carrying logs came from |
| Admin.ToResponseRoundTrip | src/main/java/com/nautil/nautil_admin/AdminController.java:184-190 | the task result can be read back from its answer: nothing is lost |
| Admin.ToResponseInjective | src/main/java/com/nautil/nautil_admin/AdminController.java:184-190 | different task results give different answers |
| Admin.OrElse | src/main/java/com/nautil/nautil_admin/AdminController.java:139-141 | the parameter when it is non-null and non-empty, else the fallback |
| Admin.Mailer.SendVerificationEmail | src/main/java/com/nautil/nautil_admin/AdminController.java:143 | each send call is recorded once and returns the mail service's result |
| Admin.CompletionEmailMeaning | src/main/java/com/nautil/nautil_admin/AdminController.java:138-143 | the mail goes to the given recipient with no body; its subject is the given one when non-null and non-empty, else "Vérification Quotidienne NAUTIL - " followed by dd/MM/yyyy; it is never empty |
| Admin.CompleteMeaning | src/main/java/com/nautil/nautil_admin/AdminController.java:128-155 | the mail is requested exactly once when Excel succeeds and never otherwise; the answer succeeds exactly when both parts do, with "Erreur traitement Excel : ", "Excel OK, mais erreur email : " or "Workflow complet terminé avec succès !"; the Excel log comes first unchanged, followed after a successful Excel run by the step 6 banner and the mail log |
| Admin.RunCompleteOutcome | src/main/java/com/nautil/nautil_admin/AdminController.java:128-153 | over the whole workflow the mail goes out exactly when step 2 succeeds, and the answer succeeds exactly when step 2 and the send both do |
| Admin.PatchedMeaning | src/main/java/com/nautil/nautil_admin/AdminController.java:169-177 | each of the three locations changes only when its parameter is non-null and non-empty, and then to it; the six other settings never change |
| Admin.PatchedNothing | src/main/java/com/nautil/nautil_admin/AdminController.java:169-177 | absent or empty parameters leave the configuration as it was |
| Admin.PatchedIdempotent | src/main/java/com/nautil/nautil_admin/AdminController.java:169-177 | repeating an update has no further effect |
| Admin.PatchedTwice | src/main/java/com/nautil/nautil_admin/AdminController.java:169-177 | two updates act as one in which each location takes the later given parameter |
| Admin.AdminController.constructor | src/main/java/com/nautil/nautil_admin/AdminController.java:21-28 | the controller holds the Excel service and the mail service |
| Admin.AdminController.RunAll | src/main/java/com/nautil/nautil_admin/AdminController.java:45-59 | the answer is `toResponse` of the `Steps.RunAll` result, with its files and configuration |
| Admin.AdminController.StepRename | src/main/java/com/nautil/nautil_admin/AdminController.java:64-68 | the answer, files and configuration of step 1 |
| Admin.AdminController.StepVueGlobale | src/main/java/com/nautil/nautil_admin/AdminController.java:73-77 | the answer and files of step 2 |
| Admin.AdminController.StepClearTx | src/main/java/com/nautil/nautil_admin/AdminController.java:82-86 | the answer and files of step 3 |
| Admin.AdminController.StepClearAfterTx3 | src/main/java/com/nautil/nautil_admin/AdminController.java:91-95 | the answer and files of step 4 |
| Admin.AdminController.StepClearTemplate | src/main/java/com/nautil/nautil_admin/AdminController.java:100-104 | the answer and files of step 5 |
| Admin.AdminController.StepSendEmail | src/main/java/com/nautil/nautil_admin/AdminController.java:109-116 | the parameters go to the mail service unchanged, once, and its result is the answer |
| Admin.AdminController.RunComplete | src/main/java/com/nautil/nautil_admin/AdminController.java:121-156 | answer, mails sent, files and configuration are those of `Admin.Complete` over `Steps.RunAll` |
| Admin.AdminController.UpdateConfig | src/main/java/com/nautil/nautil_admin/AdminController.java:161-181 | the configuration becomes `Admin.Patched` of the old one and the answer is always success with "Configuration mise à jour" and no log |

## Left out

- Reading and writing the Office Open XML container through Apache POI:
  - opening is reading a workbook value from the file map;
  - saving is storing it back at the same path;
  - an unreadable file is a stored value carrying the reader's error text.
- Cell styles and the `dd/MM/yyyy` display format of the date cell. The cell
  holds the date value only.
- The `mkdirs` of the output directory in `saveWorkbook`. It only creates
  directories, and the file map has none.
- I/O exceptions while writing:
  - saving is taken to succeed;
  - the `catch` blocks are modelled only for a file the reader cannot parse,
    and for `getSheetAt(0)` on a workbook without sheets, which gives a fixed
    error text;
  - `createRow` above the format's last row index (1048575) throws in the
    library, so step 2 would answer "Erreur : Invalid row number …"; the
    model's row indices are unbounded and the date row is always created.
- Because writes cannot fail in the model, step 3 cannot fail once step 2 has
  saved the file (`Steps.Step3FollowsStep2`). The "Erreur étape 3" branch is
  modelled but unreachable.
- `getSheet` and `getSheetIndex` in the library match sheet names ignoring
  case; the model's lookups (`Grid.FirstIndex`, `Grid.IndexOfSheet`) match
  them exactly.
- Sheet handles are modelled by the sheet's position, so two handles to one
  sheet cannot be told apart from one handle.
- `createRow` on an existing row replaces it with an empty row. The model
  does the same. The source only ever creates the row after the last data
  row, and that row may already exist without data.
- `getAbsolutePath` is taken to return the path as built: the configured path
  is assumed to be absolute.
- `java.io.File` normalises a path (doubled and trailing separators are
  dropped) before `getName` and `getParent`; `FileNames.LastSlash`, `Parent`
  and `Child` split on '/' only and take the configured path as already
  normalised.
- `LocalDate.now()` is read separately for the new file name, the date row,
  its log line and the mail subject; the model reads the clock once, as
  `today`, so a run that crosses midnight is not modelled.
- A `TaskResult` created without a message has Java's `null` message; the
  model uses the empty string.
- Numeric cells are unbounded integers. The pipeline never reads the number
  in a cell, only whether the cell is blank.
- `EmailService` as a whole is not part of this model:
  - MIME building;
  - the default recipient and body;
  - the attachment and the mail server.
  
  A send is recorded as the request it received. Its result is supplied by
  the caller.
- The `catch` in `runAll` that answers "Erreur inattendue : ". No modelled
  operation throws.
- The `index` page handler. It only renders the view with three configuration
  values (the verification file, the template file and the default
  recipient) and the date.
- `getCurrentVerificationFilePath`: a plain getter with no logic.
- Spring wiring, logging and concurrent requests on the shared configuration.
