/** The process-wide configuration record: nine string settings injected at
    start-up, of which only the three file locations can be changed later. */
module Config {

  /** A snapshot of every setting, as the pipeline steps read them. */
  datatype Settings = Settings(
    verificationFile: string,
    templateFile: string,
    outputDir: string,
    sheetGlobal: string,
    sheetTx1: string,
    sheetTx2: string,
    sheetTx3: string,
    defaultEmailTo: string,
    emailFrom: string)

  class NautilConfig {
    var verificationFilePath: string
    var templateFilePath: string
    var outputDir: string
    // No setter exists for the remaining six settings.
    const sheetGlobal: string
    const sheetTx1: string
    const sheetTx2: string
    const sheetTx3: string
    const defaultEmailTo: string
    const emailFrom: string

    function Snapshot(): (s: Settings)
      reads this
      ensures s.verificationFile == verificationFilePath && s.templateFile == templateFilePath
      ensures s.outputDir == outputDir && s.sheetGlobal == sheetGlobal
      ensures s.sheetTx1 == sheetTx1 && s.sheetTx2 == sheetTx2 && s.sheetTx3 == sheetTx3
      ensures s.defaultEmailTo == defaultEmailTo && s.emailFrom == emailFrom
    {
      Settings(verificationFilePath, templateFilePath, outputDir,
               sheetGlobal, sheetTx1, sheetTx2, sheetTx3, defaultEmailTo, emailFrom)
    }

    /** The injected start-up values. */
    constructor (initial: Settings)
      ensures Snapshot() == initial
    {
      verificationFilePath := initial.verificationFile;
      templateFilePath := initial.templateFile;
      outputDir := initial.outputDir;
      sheetGlobal := initial.sheetGlobal;
      sheetTx1 := initial.sheetTx1;
      sheetTx2 := initial.sheetTx2;
      sheetTx3 := initial.sheetTx3;
      defaultEmailTo := initial.defaultEmailTo;
      emailFrom := initial.emailFrom;
    }

    method SetVerificationFilePath(path: string)
      modifies this
      ensures Snapshot() == old(Snapshot()).(verificationFile := path)
    {
      verificationFilePath := path;
    }

    method SetTemplateFilePath(path: string)
      modifies this
      ensures Snapshot() == old(Snapshot()).(templateFile := path)
    {
      templateFilePath := path;
    }

    method SetOutputDir(dir: string)
      modifies this
      ensures Snapshot() == old(Snapshot()).(outputDir := dir)
    {
      outputDir := dir;
    }
  }
}
