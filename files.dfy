/** The file system as the pipeline sees it: a map from path to stored
    content. Whether a rename succeeds is outside the program's control and
    is supplied by the caller. */
module Files {
  import opened Grid

  /** A stored file: a readable workbook, or content the spreadsheet reader
      rejects (with the reader's error text). */
  datatype StoredFile = Spreadsheet(book: Book) | Unreadable(reason: string)

  type FileMap = map<string, StoredFile>

  /** The file map after moving the file at `from` to `to` (an existing file
      at `to` is replaced). */
  function Moved(files: FileMap, from: string, to: string): (r: FileMap)
    requires from in files
    ensures to in r && r[to] == files[from]
    ensures from != to ==> from !in r
    ensures forall p :: p != from && p != to ==> (p in r <==> p in files) && (p in r ==> r[p] == files[p])
  {
    (files - {from})[to := files[from]]
  }

  class FileSystem {
    var files: FileMap

    constructor (files: FileMap)
      ensures this.files == files
    {
      this.files := files;
    }

    /** `new File(path).exists()`. */
    function Exists(path: string): bool
      reads this
    {
      path in files
    }

    /** Writing a workbook back to its path (`workbook.write`). */
    method Store(path: string, book: Book)
      modifies this
      ensures files == old(files)[path := Spreadsheet(book)]
    {
      files := files[path := Spreadsheet(book)];
    }

    /** `File.renameTo`: `succeeds` is the operating system's answer; a
        missing source file never moves. */
    method RenameTo(from: string, to: string, succeeds: bool) returns (ok: bool)
      modifies this
      ensures ok == (succeeds && from in old(files))
      ensures files == if ok then Moved(old(files), from, to) else old(files)
    {
      ok := succeeds && from in files;
      if ok {
        files := Moved(files, from, to);
      }
    }
  }
}
