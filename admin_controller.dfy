/** The web controller: each handler runs pipeline steps through the Excel
    service and answers with a JSON map of success, message and (usually)
    logs. The mail service is seen only through the requests it receives and
    the result the outside world gives back for each. */
module Admin {
  import opened Text
  import opened Wrappers
  import opened Config
  import opened Tasks
  import opened Steps
  import opened Excel

  /** The JSON map a handler answers with; `logs` is absent from some answers. */
  datatype Response = Response(success: bool, message: string, logs: Option<seq<string>>)

  /** `toResponse`: a task result as an answer, field by field. */
  function ToResponse(o: Outcome): (r: Response)
    ensures r.success == o.success && r.message == o.message && r.logs == Some(o.logs)
  {
    Response(o.success, o.message, Some(o.logs))
  }

  /** The task result an answer carrying logs was made from. */
  function FromResponse(r: Response): (o: Option<Outcome>)
    ensures o.Some? <==> r.logs.Some?
  {
    match r.logs
    case None => None
    case Some(logs) => Some(Outcome(r.success, r.message, logs))
  }

  /** `toResponse` loses nothing: the task result can be read back from the answer. */
  lemma ToResponseRoundTrip(o: Outcome)
    ensures FromResponse(ToResponse(o)) == Some(o)
  {
  }

  /** Different task results give different answers. */
  lemma ToResponseInjective(a: Outcome, b: Outcome)
    requires ToResponse(a) == ToResponse(b)
    ensures a == b
  {
    ToResponseRoundTrip(a);
    ToResponseRoundTrip(b);
  }

  // ---------------------------------------------------------------------
  // Optional request parameters
  // ---------------------------------------------------------------------

  /** An optional request parameter counts when it is present and non-empty. */
  predicate Given(p: Option<string>) {
    p.Some? && p.value != []
  }

  /** The parameter when it counts, else the fallback. */
  function OrElse(p: Option<string>, fallback: string): (s: string)
    ensures Given(p) ==> s == p.value
    ensures !Given(p) ==> s == fallback
  {
    if Given(p) then p.value else fallback
  }

  // ---------------------------------------------------------------------
  // The mail service
  // ---------------------------------------------------------------------

  /** A request to `sendVerificationEmail(to, subject, body)`; an absent
      part stands for Java's null. */
  datatype Email = Email(recipient: Option<string>, subject: Option<string>, body: Option<string>)

  /** The mail service: the requests it has received, in order. What a send
      achieves depends on the mail server and is supplied by the caller. */
  class Mailer {
    var sent: seq<Email>

    constructor ()
      ensures sent == []
    {
      sent := [];
    }

    /** One send request; `reply` is the result it produced. */
    method SendVerificationEmail(email: Email, reply: Outcome) returns (result: TaskResult)
      modifies this
      ensures fresh(result) && result.Snapshot() == reply
      ensures sent == old(sent) + [email]
    {
      sent := sent + [email];
      result := new TaskResult.WithStatus(reply.success, reply.message);
      result.SetLogs(reply.logs);
    }
  }

  // ---------------------------------------------------------------------
  // The complete workflow: Excel steps, then the mail
  // ---------------------------------------------------------------------

  const SubjectPrefix := "Vérification Quotidienne NAUTIL - "
  const ExcelErrorPrefix := "Erreur traitement Excel : "
  const EmailErrorPrefix := "Excel OK, mais erreur email : "
  const WorkflowDone := "Workflow complet terminé avec succès !"
  const Header6 := Banner("ÉTAPE 6 : Envoi Email")

  /** The subject used when none is given: the fixed title and today's date as dd/MM/yyyy. */
  function DefaultSubject(today: Date): string {
    SubjectPrefix + today.Dmy()
  }

  /** The mail the complete workflow requests: the given recipient (or none),
      the chosen subject and no body, so that the service uses its own. */
  function CompletionEmail(emailTo: Option<string>, emailSubject: Option<string>, today: Date): Email {
    Email(emailTo, Some(OrElse(emailSubject, DefaultSubject(today))), None)
  }

  /** The subject is the caller's when given, else the title followed by
      today's date; either way it is never empty. */
  lemma CompletionEmailMeaning(emailTo: Option<string>, emailSubject: Option<string>, today: Date)
    ensures var e := CompletionEmail(emailTo, emailSubject, today);
            && e.recipient == emailTo && e.body == None && e.subject.Some?
            && (Given(emailSubject) ==> e.subject.value == emailSubject.value)
            && (!Given(emailSubject) ==> e.subject.value[..|SubjectPrefix|] == SubjectPrefix
                                         && e.subject.value[|SubjectPrefix|..] == today.Dmy())
            && e.subject.value != []
  {
    var e := CompletionEmail(emailTo, emailSubject, today);
    if !Given(emailSubject) {
      assert e.subject.value == SubjectPrefix + today.Dmy();
      assert |SubjectPrefix| > 0;
    }
  }

  /** The answer of `runComplete` and the mails it requests, given the
      result of the Excel run and the result of the send. */
  function Complete(excel: Outcome, reply: Outcome, emailTo: Option<string>, emailSubject: Option<string>, today: Date): (Response, seq<Email>) {
    if !excel.success then
      (Response(false, ExcelErrorPrefix + excel.message, Some(excel.logs)), [])
    else
      (Response(reply.success,
                if reply.success then WorkflowDone else EmailErrorPrefix + reply.message,
                Some(excel.logs + [Header6] + reply.logs)),
       [CompletionEmail(emailTo, emailSubject, today)])
  }

  /** The mail is requested exactly once when the Excel run succeeds and
      never otherwise; the answer succeeds exactly when both parts do, and
      its message says which part failed. The Excel log comes first,
      unchanged; after a successful Excel run it is followed by the step 6
      banner and the mail log. */
  lemma CompleteMeaning(excel: Outcome, reply: Outcome, emailTo: Option<string>, emailSubject: Option<string>, today: Date)
    ensures var c := Complete(excel, reply, emailTo, emailSubject, today);
            var r := c.0;
            && (|c.1| == 1 <==> excel.success)
            && (c.1 == [] <==> !excel.success)
            && (excel.success ==> c.1[0] == CompletionEmail(emailTo, emailSubject, today))
            && (r.success <==> excel.success && reply.success)
            && (r.message == WorkflowDone <==> r.success)
            && (!excel.success ==> r.message == ExcelErrorPrefix + excel.message)
            && (excel.success && !reply.success ==> r.message == EmailErrorPrefix + reply.message)
            && r.logs.Some?
            && |excel.logs| <= |r.logs.value| && r.logs.value[..|excel.logs|] == excel.logs
            && (!excel.success ==> r.logs.value == excel.logs)
            && (excel.success ==> r.logs.value[|excel.logs|..] == [Header6] + reply.logs)
  {
    var r := Complete(excel, reply, emailTo, emailSubject, today).0;
    if !excel.success {
      assert r.message[0] == 'E' && WorkflowDone[0] == 'W';
      assert r.logs.value[..|excel.logs|] == excel.logs;
    } else {
      var logs := excel.logs + [Header6] + reply.logs;
      assert logs[..|excel.logs|] == excel.logs;
      assert logs[|excel.logs|..] == [Header6] + reply.logs;
      if !reply.success {
        assert r.message[0] == 'E' && WorkflowDone[0] == 'W';
      }
    }
  }

  /** Over the whole workflow: the mail goes out exactly when step 2 of the
      Excel run succeeds, and the answer succeeds exactly when step 2 and
      the send both do. */
  lemma RunCompleteOutcome(st: Settings, files: Files.FileMap, today: Date, renameSucceeds: bool,
                           reply: Outcome, emailTo: Option<string>, emailSubject: Option<string>)
    ensures var excel := RunAll(st, files, today, renameSucceeds).out;
            var s1 := Rename(st, files, today, renameSucceeds);
            var step2 := AddDateRow(s1.settings, s1.files, today).out;
            var c := Complete(excel, reply, emailTo, emailSubject, today);
            && (|c.1| == 1 <==> step2.success)
            && (c.0.success <==> step2.success && reply.success)
  {
    RunAllOutcome(st, files, today, renameSucceeds);
    CompleteMeaning(RunAll(st, files, today, renameSucceeds).out, reply, emailTo, emailSubject, today);
  }

  // ---------------------------------------------------------------------
  // Configuration updates
  // ---------------------------------------------------------------------

  const ConfigUpdated := "Configuration mise à jour"

  /** The settings after `updateConfig`: each of the three file locations
      takes its parameter when that is given. */
  function Patched(st: Settings, verificationFile: Option<string>, templateFile: Option<string>, outputDir: Option<string>): Settings {
    st.(verificationFile := OrElse(verificationFile, st.verificationFile),
        templateFile := OrElse(templateFile, st.templateFile),
        outputDir := OrElse(outputDir, st.outputDir))
  }

  /** A location changes only when its parameter is given, and then to that
      parameter; the six other settings never change. */
  lemma PatchedMeaning(st: Settings, verificationFile: Option<string>, templateFile: Option<string>, outputDir: Option<string>)
    ensures var p := Patched(st, verificationFile, templateFile, outputDir);
            && (p.verificationFile == if Given(verificationFile) then verificationFile.value else st.verificationFile)
            && (p.templateFile == if Given(templateFile) then templateFile.value else st.templateFile)
            && (p.outputDir == if Given(outputDir) then outputDir.value else st.outputDir)
            && p.sheetGlobal == st.sheetGlobal && p.sheetTx1 == st.sheetTx1
            && p.sheetTx2 == st.sheetTx2 && p.sheetTx3 == st.sheetTx3
            && p.defaultEmailTo == st.defaultEmailTo && p.emailFrom == st.emailFrom
  {
  }

  /** Absent or empty parameters leave the configuration as it was. */
  lemma PatchedNothing(st: Settings, verificationFile: Option<string>, templateFile: Option<string>, outputDir: Option<string>)
    requires !Given(verificationFile) && !Given(templateFile) && !Given(outputDir)
    ensures Patched(st, verificationFile, templateFile, outputDir) == st
  {
  }

  /** Sending the same update twice has the effect of sending it once. */
  lemma PatchedIdempotent(st: Settings, verificationFile: Option<string>, templateFile: Option<string>, outputDir: Option<string>)
    ensures var once := Patched(st, verificationFile, templateFile, outputDir);
            Patched(once, verificationFile, templateFile, outputDir) == once
  {
  }

  /** The later of two parameters, when given, wins. */
  function Later(first: Option<string>, second: Option<string>): Option<string> {
    if Given(second) then second else first
  }

  /** Two updates in a row act as one update in which each location takes
      the later given parameter. */
  lemma PatchedTwice(st: Settings, v1: Option<string>, t1: Option<string>, o1: Option<string>,
                     v2: Option<string>, t2: Option<string>, o2: Option<string>)
    ensures Patched(Patched(st, v1, t1, o1), v2, t2, o2) == Patched(st, Later(v1, v2), Later(t1, t2), Later(o1, o2))
  {
  }

  // ---------------------------------------------------------------------
  // The controller
  // ---------------------------------------------------------------------

  /** `AdminController`: the Excel service (and through it the shared
      configuration) and the mail service. */
  class AdminController {
    const excel: ExcelService
    const mailer: Mailer

    constructor (excel: ExcelService, mailer: Mailer)
      ensures this.excel == excel && this.mailer == mailer
    {
      this.excel := excel;
      this.mailer := mailer;
    }

    /** `POST /api/run-all`: the five Excel steps, answered with their result. */
    method RunAll(today: Date, renameSucceeds: bool) returns (r: Response)
      modifies excel.config, excel.fs
      ensures var s := Steps.RunAll(old(excel.config.Snapshot()), old(excel.fs.files), today, renameSucceeds);
              r == ToResponse(s.out) && excel.fs.files == s.files && excel.config.Snapshot() == s.settings
    {
      var result := excel.RunAllExcelTasks(today, renameSucceeds);
      r := ToResponse(result.Snapshot());
    }

    /** `POST /api/step/rename`. */
    method StepRename(today: Date, renameSucceeds: bool) returns (r: Response)
      modifies excel.config, excel.fs
      ensures var s := Rename(old(excel.config.Snapshot()), old(excel.fs.files), today, renameSucceeds);
              r == ToResponse(s.out) && excel.fs.files == s.files && excel.config.Snapshot() == s.settings
    {
      var result := excel.RenameVerificationFile(today, renameSucceeds);
      r := ToResponse(result.Snapshot());
    }

    /** `POST /api/step/vue-globale`. */
    method StepVueGlobale(today: Date) returns (r: Response)
      modifies excel.fs
      ensures var s := AddDateRow(excel.config.Snapshot(), old(excel.fs.files), today);
              r == ToResponse(s.out) && excel.fs.files == s.files
    {
      var result := excel.AddDateRowInVueGlobale(today);
      r := ToResponse(result.Snapshot());
    }

    /** `POST /api/step/clear-tx`. */
    method StepClearTx() returns (r: Response)
      modifies excel.fs
      ensures var s := ClearTx(excel.config.Snapshot(), old(excel.fs.files));
              r == ToResponse(s.out) && excel.fs.files == s.files
    {
      var result := excel.ClearTxSheets();
      r := ToResponse(result.Snapshot());
    }

    /** `POST /api/step/clear-after-tx3`. */
    method StepClearAfterTx3() returns (r: Response)
      modifies excel.fs
      ensures var s := ClearAfterTx3(excel.config.Snapshot(), old(excel.fs.files));
              r == ToResponse(s.out) && excel.fs.files == s.files
    {
      var result := excel.ClearSheetsAfterTx3();
      r := ToResponse(result.Snapshot());
    }

    /** `POST /api/step/clear-template`. */
    method StepClearTemplate() returns (r: Response)
      modifies excel.fs
      ensures var s := ClearTemplate(excel.config.Snapshot(), old(excel.fs.files));
              r == ToResponse(s.out) && excel.fs.files == s.files
    {
      var result := excel.ClearTemplateFile();
      r := ToResponse(result.Snapshot());
    }

    /** `POST /api/step/send-email`: the parameters go to the mail service as they came. */
    method StepSendEmail(emailTo: Option<string>, subject: Option<string>, body: Option<string>, reply: Outcome) returns (r: Response)
      modifies mailer
      ensures r == ToResponse(reply)
      ensures mailer.sent == old(mailer.sent) + [Email(emailTo, subject, body)]
    {
      var result := mailer.SendVerificationEmail(Email(emailTo, subject, body), reply);
      r := ToResponse(result.Snapshot());
    }

    /** `POST /api/run-complete`: the Excel run, then, only if it succeeded,
        the mail, whose log is appended to the Excel result's own log. */
    method RunComplete(today: Date, renameSucceeds: bool, emailTo: Option<string>, emailSubject: Option<string>, reply: Outcome)
      returns (r: Response)
      modifies excel.config, excel.fs, mailer
      ensures var s := Steps.RunAll(old(excel.config.Snapshot()), old(excel.fs.files), today, renameSucceeds);
              var c := Complete(s.out, reply, emailTo, emailSubject, today);
              && r == c.0 && mailer.sent == old(mailer.sent) + c.1
              && excel.fs.files == s.files && excel.config.Snapshot() == s.settings
    {
      var excelResult := excel.RunAllExcelTasks(today, renameSucceeds);
      if !excelResult.success {
        r := Response(false, ExcelErrorPrefix + excelResult.message, Some(excelResult.logs));
        return;
      }
      var subject := OrElse(emailSubject, DefaultSubject(today));
      var emailResult := mailer.SendVerificationEmail(Email(emailTo, Some(subject), None), reply);
      excelResult.AddLog(Header6);
      excelResult.AddAllLogs(emailResult.logs);
      r := Response(emailResult.success,
                    if emailResult.success then WorkflowDone else EmailErrorPrefix + emailResult.message,
                    Some(excelResult.logs));
    }

    /** `POST /api/config/update`: each file location is replaced only by a
        given parameter; the answer is always the same. */
    method UpdateConfig(verificationFile: Option<string>, templateFile: Option<string>, outputDir: Option<string>)
      returns (r: Response)
      modifies excel.config
      ensures excel.config.Snapshot() == Patched(old(excel.config.Snapshot()), verificationFile, templateFile, outputDir)
      ensures r == Response(true, ConfigUpdated, None)
    {
      var config := excel.config;
      if Given(verificationFile) {
        config.SetVerificationFilePath(verificationFile.value);
      }
      if Given(templateFile) {
        config.SetTemplateFilePath(templateFile.value);
      }
      if Given(outputDir) {
        config.SetOutputDir(outputDir.value);
      }
      r := Response(true, ConfigUpdated, None);
    }
  }
}
