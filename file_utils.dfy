/** The file helpers of src/utils/file_utils.py: the metadata of one path, the
    PDF check, and the recursive scan of a directory. A path is a `pathlib`
    path, the sequence of its parts. The file system is an oracle `fs` (what
    `Path.stat()` reports of a path that exists), `os.walk` is the list of
    the directories it visits, and `mimetypes.guess_type` is an oracle too. */
module FileUtils {
  import opened Wrappers
  import opened Strings

  /** A `pathlib` path: its parts, as `PurePath.parts` lists them. */
  type Path = seq<string>

  /** A part below the anchor: non-empty, without "/", and not ".". */
  predicate PlainPart(s: string) {
    s != [] && '/' !in s && s != "."
  }

  predicate PlainPath(p: Path) {
    forall i :: 0 <= i < |p| ==> PlainPart(p[i])
  }

  /** `path.name`: the last part, "" for the empty path. */
  function Name(p: Path): string {
    if p == [] then "" else p[|p| - 1]
  }

  /** `path.suffix`. */
  function PathSuffix(p: Path): string {
    NameSuffix(Name(p))
  }

  /** `str(path)`: the parts joined by "/", "." for the empty path. */
  function Str(p: Path): string
    decreases |p|
  {
    if p == [] then "." else if |p| == 1 then p[0] else Join(Str(p[..|p| - 1]), p[|p| - 1])
  }

  /** `path.parent`: all parts but the last. */
  function Parent(p: Path): Path {
    if p == [] then [] else p[..|p| - 1]
  }

  /** What `Path.stat()` tells of an existing path. */
  datatype Stat = Stat(isDir: bool, size: int, mtime: int)

  /** The dictionary of `get_file_metadata`. */
  datatype Metadata = Metadata(name: string, path: string, size: int, modified: int, extension: string,
                               mimeType: string)

  const OctetStream := "application/octet-stream"

  /** `get_file_metadata`: a path that does not exist has size and
      modification time 0; the extension is the lowercased suffix; an
      unknown (or empty) MIME type becomes "application/octet-stream". */
  function GetFileMetadata(p: Path, fs: Path -> Option<Stat>, guessType: string -> Option<string>): Metadata {
    var st := fs(p);
    var mime := guessType(Str(p));
    Metadata(Name(p), Str(p),
             if st.Some? then st.value.size else 0,
             if st.Some? then st.value.mtime else 0,
             Lower(PathSuffix(p)),
             if mime.Some? && mime.value != [] then mime.value else OctetStream)
  }

  /** Empty, or a dot and at least one more character, with no upper-case
      letter. */
  predicate ExtensionShape(ext: string) {
    && (ext == [] || (|ext| >= 2 && ext[0] == '.'))
    && forall i :: 0 <= i < |ext| ==> !('A' <= ext[i] <= 'Z')
  }

  /** The lowercased suffix of a name is empty or a proper, lowered tail of it. */
  lemma ExtensionFacts(name: string)
    ensures ExtensionShape(Lower(NameSuffix(name)))
    ensures EndsWith(Lower(name), Lower(NameSuffix(name)))
    ensures NameSuffix(name) == [] || |NameSuffix(name)| < |name|
  {
    var ext := NameSuffix(name);
    LowerHasNoUpper(ext);
    if ext != [] {
      LowerAt(ext, 0);
    }
    LowerEndsWith(name, ext);
  }

  /** The name is the last part; the extension is empty or a dot and more,
      holds no upper-case letter and ends the lowered name; the MIME type is
      never empty; a missing path reports size and time 0. */
  lemma MetadataFacts(p: Path, fs: Path -> Option<Stat>, guessType: string -> Option<string>)
    ensures p != [] ==> GetFileMetadata(p, fs, guessType).name == p[|p| - 1]
    ensures ExtensionShape(GetFileMetadata(p, fs, guessType).extension)
    ensures EndsWith(Lower(Name(p)), GetFileMetadata(p, fs, guessType).extension)
    ensures GetFileMetadata(p, fs, guessType).mimeType != []
    ensures fs(p).None? ==> GetFileMetadata(p, fs, guessType).size == 0 && GetFileMetadata(p, fs, guessType).modified == 0
  {
    ExtensionFacts(Name(p));
  }

  /** `is_valid_pdf`: the path exists and its lowercased suffix is ".pdf". */
  predicate IsValidPdf(p: Path, fs: Path -> Option<Stat>) {
    fs(p).Some? && Lower(PathSuffix(p)) == ".pdf"
  }

  /** A valid PDF is an existing path whose metadata reports the extension
      ".pdf"; its name has something before the ".pdf" and, lowered, ends
      with ".pdf". */
  lemma IsValidPdfFacts(p: Path, fs: Path -> Option<Stat>, guessType: string -> Option<string>)
    ensures IsValidPdf(p, fs) <==> fs(p).Some? && GetFileMetadata(p, fs, guessType).extension == ".pdf"
    ensures IsValidPdf(p, fs) ==> |Name(p)| > 4 && EndsWith(Lower(Name(p)), ".pdf")
  {
    ExtensionFacts(Name(p));
  }

  // ------------------------------------------------------------ scanning

  /** One directory `os.walk` visits: its path relative to the scanned
      directory (no parts for that directory itself) and the names of its
      files. */
  datatype Folder = Folder(rel: Path, fileNames: seq<string>)

  /** A dictionary of `scan_directory`: the metadata of the file, its path
      relative to the scanned directory, and its category. */
  datatype Entry = Entry(meta: Metadata, relativePath: string, category: string)

  /** `os.walk` reports plain directory and file names. */
  predicate WellFormedWalk(walk: seq<Folder>) {
    forall i :: 0 <= i < |walk| ==> PlainPath(walk[i].rel)
  }

  /** The category: `str` of the parent of the relative path, "" when that is ".". */
  function CategoryOf(relPath: Path): string {
    var parent := Str(Parent(relPath));
    if parent == "." then "" else parent
  }

  /** The entry recorded for file `name` of folder `rel`: the file is
      `Path(root) / filename`, `root` being the scanned directory `dir`
      joined to `rel`. */
  function EntryOf(dir: Path, rel: Path, name: string, fs: Path -> Option<Stat>,
                   guessType: string -> Option<string>): Entry
  {
    var relPath := rel + [name];
    Entry(GetFileMetadata(dir + rel + [name], fs, guessType), Str(relPath), CategoryOf(relPath))
  }

  /** `if extensions and ext not in extensions: continue`: no list, or an
      empty one, lets every file through; otherwise the lowercased suffix
      must be one of the listed strings as they are written. */
  predicate Included(ext: string, extensions: Option<seq<string>>) {
    extensions.None? || extensions.value == [] || ext in extensions.value
  }

  /** The entry maker of a scan of `dir`: folder and file name to entry. */
  function EntryMaker(dir: Path, fs: Path -> Option<Stat>, guessType: string -> Option<string>)
    : (Path, string) -> Entry
  {
    (rel, name) => EntryOf(dir, rel, name, fs, guessType)
  }

  /** The entries of the files of one folder, in name order. */
  function FolderEntries(rel: Path, names: seq<string>, mk: (Path, string) -> Entry): (r: seq<Entry>)
    ensures |r| == |names|
    decreases |names|
  {
    if names == [] then [] else FolderEntries(rel, names[..|names| - 1], mk) + [mk(rel, names[|names| - 1])]
  }

  /** The entries of every file of the walk, in walk order. */
  function WalkEntries(walk: seq<Folder>, mk: (Path, string) -> Entry): seq<Entry>
    decreases |walk|
  {
    if walk == [] then []
    else
      var f := walk[|walk| - 1];
      WalkEntries(walk[..|walk| - 1], mk) + FolderEntries(f.rel, f.fileNames, mk)
  }

  /** The entries whose extension passes the filter, in their order. */
  function Filter(es: seq<Entry>, extensions: Option<seq<string>>): seq<Entry>
    decreases |es|
  {
    if es == [] then []
    else
      var e := es[|es| - 1];
      Filter(es[..|es| - 1], extensions) + (if Included(e.meta.extension, extensions) then [e] else [])
  }

  /** `scan_directory`: nothing for a directory that does not exist or is
      not a directory; otherwise the entries of the walk that pass the
      filter. */
  function Scan(dir: Path, extensions: Option<seq<string>>, fs: Path -> Option<Stat>, walk: seq<Folder>,
                guessType: string -> Option<string>): seq<Entry>
  {
    if fs(dir).None? || !fs(dir).value.isDir then []
    else Filter(WalkEntries(walk, EntryMaker(dir, fs, guessType)), extensions)
  }

  lemma {:induction false} FilterAppend(a: seq<Entry>, b: seq<Entry>, extensions: Option<seq<string>>)
    ensures Filter(a + b, extensions) == Filter(a, extensions) + Filter(b, extensions)
    decreases |b|
  {
    if b == [] {
      assert a + b == a;
    } else {
      assert (a + b)[..|a + b| - 1] == a + b[..|b| - 1];
      FilterAppend(a, b[..|b| - 1], extensions);
    }
  }

  lemma FilterSnoc(es: seq<Entry>, e: Entry, extensions: Option<seq<string>>)
    ensures Filter(es + [e], extensions) == Filter(es, extensions) + (if Included(e.meta.extension, extensions) then [e] else [])
  {
    assert (es + [e])[..|es|] == es;
  }

  /** Filtering keeps exactly the entries that pass. */
  lemma {:induction false} FilterMembers(es: seq<Entry>, extensions: Option<seq<string>>, e: Entry)
    ensures e in Filter(es, extensions) <==> e in es && Included(e.meta.extension, extensions)
    decreases |es|
  {
    if es != [] {
      FilterMembers(es[..|es| - 1], extensions, e);
      assert es == es[..|es| - 1] + [es[|es| - 1]];
    }
  }

  /** Without a filter (no list, or an empty one) nothing is dropped. */
  lemma {:induction false} FilterAll(es: seq<Entry>, extensions: Option<seq<string>>)
    requires extensions.None? || extensions.value == []
    ensures Filter(es, extensions) == es
    decreases |es|
  {
    if es != [] {
      FilterAll(es[..|es| - 1], extensions);
    }
  }

  /** The `j`-th entry of a folder is that of its `j`-th file. */
  lemma {:induction false} FolderEntriesAt(rel: Path, names: seq<string>, mk: (Path, string) -> Entry, j: nat)
    requires j < |names|
    ensures FolderEntries(rel, names, mk)[j] == mk(rel, names[j])
    decreases |names|
  {
    if j < |names| - 1 {
      FolderEntriesAt(rel, names[..|names| - 1], mk, j);
    }
  }

  /** `e` is the entry of some file of the walk. */
  ghost predicate FromWalk(e: Entry, walk: seq<Folder>, mk: (Path, string) -> Entry) {
    exists i, j :: 0 <= i < |walk| && 0 <= j < |walk[i].fileNames| && e == mk(walk[i].rel, walk[i].fileNames[j])
  }

  lemma {:induction false} WalkEntriesMembers(walk: seq<Folder>, mk: (Path, string) -> Entry, e: Entry)
    ensures e in WalkEntries(walk, mk) <==> FromWalk(e, walk, mk)
    decreases |walk|
  {
    if walk != [] {
      var init := walk[..|walk| - 1];
      var f := walk[|walk| - 1];
      var here := FolderEntries(f.rel, f.fileNames, mk);
      WalkEntriesMembers(init, mk, e);
      if e in here {
        var j :| 0 <= j < |here| && here[j] == e;
        FolderEntriesAt(f.rel, f.fileNames, mk, j);
        assert e == mk(walk[|walk| - 1].rel, walk[|walk| - 1].fileNames[j]);
      }
      if FromWalk(e, walk, mk) {
        var i, j :| 0 <= i < |walk| && 0 <= j < |walk[i].fileNames| && e == mk(walk[i].rel, walk[i].fileNames[j]);
        if i < |init| {
          assert init[i] == walk[i];
          assert FromWalk(e, init, mk);
        } else {
          FolderEntriesAt(f.rel, f.fileNames, mk, j);
          assert here[j] == e;
        }
      }
    }
  }

  /** An entry is in the scan exactly when the directory exists and is a
      directory, the entry is that of some file of the walk, and its
      extension passes the filter. */
  lemma ScanMembers(dir: Path, extensions: Option<seq<string>>, fs: Path -> Option<Stat>, walk: seq<Folder>,
                    guessType: string -> Option<string>, e: Entry)
    ensures e in Scan(dir, extensions, fs, walk, guessType) <==>
              && fs(dir).Some? && fs(dir).value.isDir
              && Included(e.meta.extension, extensions)
              && exists i, j :: 0 <= i < |walk| && 0 <= j < |walk[i].fileNames|
                                && e == EntryOf(dir, walk[i].rel, walk[i].fileNames[j], fs, guessType)
  {
    var mk := EntryMaker(dir, fs, guessType);
    FilterMembers(WalkEntries(walk, mk), extensions, e);
    WalkEntriesMembers(walk, mk, e);
  }

  /** The number of files the walk reports. */
  function FileCount(walk: seq<Folder>): nat
    decreases |walk|
  {
    if walk == [] then 0 else FileCount(walk[..|walk| - 1]) + |walk[|walk| - 1].fileNames|
  }

  lemma {:induction false} WalkEntriesCount(walk: seq<Folder>, mk: (Path, string) -> Entry)
    ensures |WalkEntries(walk, mk)| == FileCount(walk)
    decreases |walk|
  {
    if walk != [] {
      WalkEntriesCount(walk[..|walk| - 1], mk);
    }
  }

  /** Without a filter (no list, or an empty one) every file of the walk
      gives one entry. */
  lemma ScanWithoutFilter(dir: Path, extensions: Option<seq<string>>, fs: Path -> Option<Stat>,
                          walk: seq<Folder>, guessType: string -> Option<string>)
    requires extensions.None? || extensions.value == []
    requires fs(dir).Some? && fs(dir).value.isDir
    ensures |Scan(dir, extensions, fs, walk, guessType)| == FileCount(walk)
  {
    var mk := EntryMaker(dir, fs, guessType);
    FilterAll(WalkEntries(walk, mk), extensions);
    WalkEntriesCount(walk, mk);
  }

  /** `str` of a path of plain parts is neither empty nor ".". */
  lemma {:induction false} StrOfPlain(p: Path)
    requires p != [] && PlainPath(p)
    ensures Str(p) != [] && Str(p) != "."
    decreases |p|
  {
    if |p| > 1 {
      var init := p[..|p| - 1];
      assert PlainPath(init) by {
        assert forall i :: 0 <= i < |init| ==> init[i] == p[i];
      }
      StrOfPlain(init);
      var last := p[|p| - 1];
      assert PlainPart(last);
      assert !StartsWith(last, "/") by {
        assert last[0] != '/';
      }
    }
  }

  /** The category of a file is the folder it was found in, "" at the top. */
  lemma CategoryIsFolder(rel: Path, name: string)
    requires PlainPath(rel)
    ensures CategoryOf(rel + [name]) == if rel == [] then "" else Str(rel)
  {
    assert Parent(rel + [name]) == rel;
    if rel != [] {
      StrOfPlain(rel);
    }
  }

  /** Every entry of a well-formed walk carries its file's name and the
      folder it was found in as its category, and its relative path is the
      folder's joined to the name. */
  lemma ScanEntryShape(dir: Path, fs: Path -> Option<Stat>, walk: seq<Folder>,
                       guessType: string -> Option<string>, i: nat, j: nat)
    requires WellFormedWalk(walk)
    requires i < |walk| && j < |walk[i].fileNames|
    ensures var e := EntryOf(dir, walk[i].rel, walk[i].fileNames[j], fs, guessType);
      && e.meta.name == walk[i].fileNames[j]
      && e.category == (if walk[i].rel == [] then "" else Str(walk[i].rel))
      && e.relativePath == (if walk[i].rel == [] then walk[i].fileNames[j] else Join(Str(walk[i].rel), walk[i].fileNames[j]))
  {
    var f := walk[i];
    CategoryIsFolder(f.rel, f.fileNames[j]);
    assert (f.rel + [f.fileNames[j]])[..|f.rel|] == f.rel;
  }

  /** An entry is named after its file and typed by the file's lowercased
      suffix, and its category is that of its relative path. */
  lemma EntryMakerFacts(dir: Path, fs: Path -> Option<Stat>, guessType: string -> Option<string>, rel: Path,
                        name: string)
    ensures var e := EntryMaker(dir, fs, guessType)(rel, name);
      e.meta.name == name && e.meta.extension == Lower(NameSuffix(name)) && e.category == CategoryOf(rel + [name])
  {
    assert EntryMaker(dir, fs, guessType)(rel, name) == EntryOf(dir, rel, name, fs, guessType);
  }

  lemma FolderEntriesSnoc(rel: Path, names: seq<string>, mk: (Path, string) -> Entry, j: nat)
    requires j < |names|
    ensures FolderEntries(rel, names[..j + 1], mk) == FolderEntries(rel, names[..j], mk) + [mk(rel, names[j])]
  {
    assert names[..j + 1][..j] == names[..j];
  }

  lemma WalkEntriesSnoc(walk: seq<Folder>, mk: (Path, string) -> Entry, i: nat)
    requires i < |walk|
    ensures WalkEntries(walk[..i + 1], mk) == WalkEntries(walk[..i], mk) + FolderEntries(walk[i].rel, walk[i].fileNames, mk)
  {
    assert walk[..i + 1][..i] == walk[..i];
  }

  /** The outer loop of `scan_directory`, over the directories of the walk. */
  method ScanDirectory(directory: Path, extensions: Option<seq<string>>, fs: Path -> Option<Stat>,
                       walk: seq<Folder>, guessType: string -> Option<string>) returns (results: seq<Entry>)
    ensures results == Scan(directory, extensions, fs, walk, guessType)
  {
    results := [];
    var st := fs(directory);
    if st.None? || !st.value.isDir {
      return;
    }
    var mk := EntryMaker(directory, fs, guessType);
    EntryMakerRecordsSuffix(directory, fs, guessType);
    ghost var seen: seq<Entry> := [];
    for i := 0 to |walk|
      invariant seen == WalkEntries(walk[..i], mk)
      invariant results == Filter(seen, extensions)
    {
      WalkEntriesSnoc(walk, mk, i);
      FilterAppend(seen, FolderEntries(walk[i].rel, walk[i].fileNames, mk), extensions);
      KeptInFolderIsFilter(walk[i].rel, walk[i].fileNames, mk, extensions);
      seen := seen + FolderEntries(walk[i].rel, walk[i].fileNames, mk);
      results := ScanFolder(directory, walk[i], extensions, mk, results);
    }
    assert walk[..|walk|] == walk;
  }

  /** The kept entries of one folder, built as the inner loop builds them. */
  function KeptInFolder(rel: Path, names: seq<string>, mk: (Path, string) -> Entry, extensions: Option<seq<string>>)
    : seq<Entry>
    decreases |names|
  {
    if names == [] then []
    else
      var e := mk(rel, names[|names| - 1]);
      KeptInFolder(rel, names[..|names| - 1], mk, extensions) + (if Included(e.meta.extension, extensions) then [e] else [])
  }

  lemma {:induction false} KeptInFolderIsFilter(rel: Path, names: seq<string>, mk: (Path, string) -> Entry,
                                                extensions: Option<seq<string>>)
    ensures KeptInFolder(rel, names, mk, extensions) == Filter(FolderEntries(rel, names, mk), extensions)
    decreases |names|
  {
    if names != [] {
      var init := names[..|names| - 1];
      KeptInFolderIsFilter(rel, init, mk, extensions);
      FilterSnoc(FolderEntries(rel, init, mk), mk(rel, names[|names| - 1]), extensions);
    }
  }

  lemma KeptInFolderSnoc(rel: Path, names: seq<string>, mk: (Path, string) -> Entry,
                         extensions: Option<seq<string>>, j: nat)
    requires j < |names|
    ensures var e := mk(rel, names[j]);
      KeptInFolder(rel, names[..j + 1], mk, extensions)
      == KeptInFolder(rel, names[..j], mk, extensions) + (if Included(e.meta.extension, extensions) then [e] else [])
  {
    assert names[..j + 1][..j] == names[..j];
  }

  lemma AppendAssoc(a: seq<Entry>, b: seq<Entry>, c: seq<Entry>)
    ensures a + b + c == a + (b + c)
  {
  }

  /** An entry maker for a scan of `dir` records, as the extension of a
      file's entry, the lowercased suffix of the file's path. */
  ghost predicate RecordsSuffix(dir: Path, mk: (Path, string) -> Entry) {
    forall rel: Path, name: string :: mk(rel, name).meta.extension == Lower(PathSuffix(dir + rel + [name]))
  }

  lemma EntryMakerRecordsSuffix(dir: Path, fs: Path -> Option<Stat>, guessType: string -> Option<string>)
    ensures RecordsSuffix(dir, EntryMaker(dir, fs, guessType))
  {
    forall rel: Path, name: string
      ensures EntryMaker(dir, fs, guessType)(rel, name).meta.extension == Lower(PathSuffix(dir + rel + [name]))
    {
      assert EntryMaker(dir, fs, guessType)(rel, name) == EntryOf(dir, rel, name, fs, guessType);
    }
  }

  /** The inner loop, over the files of one directory: the entries of the
      files that pass the filter are appended to `results`. */
  method ScanFolder(directory: Path, root: Folder, extensions: Option<seq<string>>, mk: (Path, string) -> Entry,
                    results0: seq<Entry>) returns (results: seq<Entry>)
    requires RecordsSuffix(directory, mk)
    ensures results == results0 + KeptInFolder(root.rel, root.fileNames, mk, extensions)
  {
    results := results0;
    for j := 0 to |root.fileNames|
      invariant results == results0 + KeptInFolder(root.rel, root.fileNames[..j], mk, extensions)
    {
      KeptInFolderSnoc(root.rel, root.fileNames, mk, extensions, j);
      var kept := ScanFile(directory, root.rel, root.fileNames[j], extensions, mk);
      AppendAssoc(results0, KeptInFolder(root.rel, root.fileNames[..j], mk, extensions), kept);
      results := results + kept;
    }
    assert root.fileNames[..|root.fileNames|] == root.fileNames;
  }

  /** The body of the inner loop: the file is skipped unless its lowercased
      suffix passes the filter, and otherwise recorded by the entry maker
      (metadata, relative path and category). */
  method ScanFile(directory: Path, rel: Path, filename: string, extensions: Option<seq<string>>,
                  mk: (Path, string) -> Entry) returns (kept: seq<Entry>)
    requires RecordsSuffix(directory, mk)
    ensures var e := mk(rel, filename);
      kept == if Included(e.meta.extension, extensions) then [e] else []
  {
    var filePath := directory + rel + [filename];
    if !Included(Lower(PathSuffix(filePath)), extensions) {
      return [];
    }
    kept := [mk(rel, filename)];
  }
  /** The shape of the tests' tree: a text file at the top, and a PDF and
      a text file in one sub-folder. */
  function TreeWalk(sub: string, pdfName: string, txtName: string): seq<Folder> {
    [Folder([], [txtName]), Folder([sub], [pdfName, txtName])]
  }

}
