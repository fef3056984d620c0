/** The file validator of src/core/file_validator.py: infer the type from the
    extension when none is given, then hand the file to the PDF, EPUB or
    text check. The file system and the PyPDF2, ebooklib and chardet
    libraries are oracles: for the one path being validated, whether it is
    a file and what each library call gives, an error text standing for the
    exception it raises. */
module FileValidator {
  import opened Wrappers
  import opened Strings
  import DS = DirectoryScanner

  /** The document information PyPDF2 gives; a missing entry is None. */
  datatype DocInfo = DocInfo(title: Option<string>, author: Option<string>, subject: Option<string>,
                             creator: Option<string>, producer: Option<string>)

  /** The page count and the document information of a parsed PDF. */
  datatype PdfInfo = PdfInfo(numPages: nat, info: Option<DocInfo>)

  /** The first elements of the Dublin Core title, creator and language entries. */
  datatype EpubInfo = EpubInfo(titles: seq<string>, creators: seq<string>, languages: seq<string>)

  /** What chardet detects in the first 1024 bytes, and the file size. */
  datatype TextInfo = TextInfo(encoding: Option<string>, confidence: real, size: int)

  datatype Metadata =
    | NoMetadata
    | PdfMetadata(numPages: nat, title: Option<string>, author: Option<string>, subject: Option<string>,
                  creator: Option<string>, producer: Option<string>)
    | EpubMetadata(title: Option<string>, author: Option<string>, language: Option<string>)
    | TextMetadata(encoding: Option<string>, confidence: real, size: int)
    | MarkdownMetadata(title: Option<string>, headerCount: nat, size: int)

  /** The result dictionary with its five keys. */
  datatype Verdict = Verdict(valid: bool, filePath: string, fileType: Option<string>, error: Option<string>,
                             metadata: Metadata)

  /** Which optional libraries imported. */
  datatype Libraries = Libraries(pypdf2: bool, ebooklib: bool, chardet: bool)

  /** The oracles for one path. `text` is the open, the 1 KiB read, the
      detection and `getsize`, the first that raises giving the error. */
  datatype Disk = Disk(isFile: bool, pdf: Result<PdfInfo>, epub: Result<EpubInfo>, text: Result<TextInfo>)

  /** Every validator starts from this record. */
  function Blank(path: string, fileType: Option<string>): Verdict {
    Verdict(false, path, fileType, None, NoMetadata)
  }

  function First(s: seq<string>): Option<string> {
    if |s| > 0 then Some(s[0]) else None
  }

  /** `_validate_pdf`: valid whenever the reader parses the file, whatever
      the page count. */
  function ValidatePdf(path: string, libs: Libraries, disk: Disk): (r: Verdict)
    ensures r.filePath == path && r.fileType == Some("pdf")
    ensures r.valid <==> libs.pypdf2 && disk.pdf.Ok?
    ensures r.valid <==> r.error.None?
    ensures !libs.pypdf2 ==> r.error == Some("PyPDF2 library not available")
    ensures r.valid ==> r.metadata.PdfMetadata? && r.metadata.numPages == disk.pdf.value.numPages
    ensures !r.valid ==> r.metadata == NoMetadata
  {
    if !libs.pypdf2 then Blank(path, Some("pdf")).(error := Some("PyPDF2 library not available"))
    else
      match disk.pdf
      case Err(m) => Blank(path, Some("pdf")).(error := Some(m))
      case Ok(p) =>
        var i := p.info;
        Blank(path, Some("pdf")).(valid := true, metadata := PdfMetadata(
          p.numPages,
          if i.Some? then i.value.title else None,
          if i.Some? then i.value.author else None,
          if i.Some? then i.value.subject else None,
          if i.Some? then i.value.creator else None,
          if i.Some? then i.value.producer else None))
  }

  /** `_validate_epub`: valid whenever ebooklib reads the book; each entry is
      the first value given, or None. */
  function ValidateEpub(path: string, libs: Libraries, disk: Disk): (r: Verdict)
    ensures r.filePath == path && r.fileType == Some("epub")
    ensures r.valid <==> libs.ebooklib && disk.epub.Ok?
    ensures r.valid <==> r.error.None?
    ensures !libs.ebooklib ==> r.error == Some("ebooklib library not available")
    ensures r.valid ==> r.metadata.EpubMetadata? && (r.metadata.title.Some? <==> |disk.epub.value.titles| > 0)
    ensures !r.valid ==> r.metadata == NoMetadata
  {
    if !libs.ebooklib then Blank(path, Some("epub")).(error := Some("ebooklib library not available"))
    else
      match disk.epub
      case Err(m) => Blank(path, Some("epub")).(error := Some(m))
      case Ok(b) =>
        Blank(path, Some("epub")).(valid := true,
                                   metadata := EpubMetadata(First(b.titles), First(b.creators), First(b.languages)))
  }

  /** `_validate_text`: valid whenever the file opens and its first 1 KiB
      reads, an empty file included; without chardet the encoding is
      "utf-8" with confidence 0. */
  function ValidateText(path: string, libs: Libraries, disk: Disk): (r: Verdict)
    ensures r.filePath == path && r.fileType == Some("txt")
    ensures r.valid <==> disk.text.Ok?
    ensures r.valid <==> r.error.None?
    ensures r.valid ==> r.metadata.TextMetadata? && r.metadata.size == disk.text.value.size
    ensures r.valid && !libs.chardet ==> r.metadata.encoding == Some("utf-8") && r.metadata.confidence == 0.0
    ensures !r.valid ==> r.metadata == NoMetadata
  {
    match disk.text
    case Err(m) => Blank(path, Some("txt")).(error := Some(m))
    case Ok(t) =>
      var meta := if libs.chardet then TextMetadata(t.encoding, t.confidence, t.size)
                  else TextMetadata(Some("utf-8"), 0.0, t.size);
      Blank(path, Some("txt")).(valid := true, metadata := meta)
  }

  /** The type name for a lowercased extension, from the same table as the
      directory scan: ".pdf", ".epub", ".txt" and ".text". */
  function InferType(ext: string): (t: Option<string>)
    ensures ext == ".pdf" ==> t == Some("pdf")
    ensures ext == ".epub" ==> t == Some("epub")
    ensures ext == ".txt" || ext == ".text" ==> t == Some("txt")
    ensures t.None? <==> ext != ".pdf" && ext != ".epub" && ext != ".txt" && ext != ".text"
  {
    match DS.SupportedType(ext)
    case None => None
    case Some(k) => Some(k.Name())
  }

  /** `validate_file`. It is total: every exception of the checks is caught
      inside them and turned into an error text. */
  function ValidateFile(path: string, fileType: Option<string>, libs: Libraries, disk: Disk): (r: Verdict)
    ensures r.filePath == path && (r.valid <==> r.error.None?) && (r.valid ==> r.fileType.Some?)
    ensures !disk.isFile ==> !r.valid && r.error == Some("File does not exist") && r.fileType == fileType
  {
    if !disk.isFile then Blank(path, fileType).(error := Some("File does not exist"))
    else
      var ext := Lower(SplitExt(path));
      Dispatch(path, if fileType.Some? then fileType else InferType(ext), ext, libs, disk)
  }

  /** The existing file `path` with the type given or inferred from `ext`. */
  function Dispatch(path: string, ft: Option<string>, ext: string, libs: Libraries, disk: Disk): (r: Verdict)
    ensures r.filePath == path && (r.valid <==> r.error.None?) && (r.valid ==> r.fileType.Some?)
  {
    if ft.None? then Blank(path, None).(error := Some("Unsupported file extension: " + ext))
    else if ft.value == "pdf" then ValidatePdf(path, libs, disk)
    else if ft.value == "epub" then ValidateEpub(path, libs, disk)
    else if ft.value == "txt" then ValidateText(path, libs, disk)
    else Blank(path, ft).(error := Some("Unsupported file type: " + ft.value))
  }

  /** A missing file is invalid with "File does not exist", whatever type is
      passed. */
  lemma MissingFile(path: string, fileType: Option<string>, libs: Libraries, disk: Disk)
    requires !disk.isFile
    ensures var r := ValidateFile(path, fileType, libs, disk);
      !r.valid && r.error == Some("File does not exist") && r.fileType == fileType
  {
  }

  /** Without a type, a supported extension is the same as passing the type
      it maps to, and any other extension is refused with its text. */
  lemma InferenceMatchesExplicit(path: string, libs: Libraries, disk: Disk)
    requires disk.isFile
    ensures var ext := Lower(SplitExt(path));
      && (InferType(ext).Some? ==>
            ValidateFile(path, None, libs, disk) == ValidateFile(path, InferType(ext), libs, disk))
      && (InferType(ext).None? ==>
            ValidateFile(path, None, libs, disk)
              == Verdict(false, path, None, Some("Unsupported file extension: " + ext), NoMetadata))
  {
  }

  /** An explicit type decides the check; a type other than pdf, epub and
      txt is refused with no fallback. */
  lemma ExplicitTypeDispatch(path: string, t: string, libs: Libraries, disk: Disk)
    requires disk.isFile
    ensures t == "pdf" ==> ValidateFile(path, Some(t), libs, disk) == ValidatePdf(path, libs, disk)
    ensures t == "epub" ==> ValidateFile(path, Some(t), libs, disk) == ValidateEpub(path, libs, disk)
    ensures t == "txt" ==> ValidateFile(path, Some(t), libs, disk) == ValidateText(path, libs, disk)
    ensures t != "pdf" && t != "epub" && t != "txt" ==>
      ValidateFile(path, Some(t), libs, disk)
        == Verdict(false, path, Some(t), Some("Unsupported file type: " + t), NoMetadata)
  {
  }

  /** Every verdict describes the given path, and it is valid exactly when
      it carries no error. */
  lemma VerdictShape(path: string, fileType: Option<string>, libs: Libraries, disk: Disk)
    ensures var r := ValidateFile(path, fileType, libs, disk);
      && r.filePath == path
      && (r.valid <==> r.error.None?)
      && (r.valid ==> disk.isFile && r.fileType.Some?)
  {
  }
}
