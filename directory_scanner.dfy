/** The local scan of src/core/directory_scanner.py: collect the files with a
    supported extension from a directory walk, then validate, store and
    count them one by one, watching for a cancel request. The walk, the
    file sizes, the validator and the moment a cancel request arrives are
    oracles; the local-file table is a map keyed by path. */
module DirectoryScanner {
  import opened Wrappers
  import opened Strings

  /** The three type names "pdf", "epub" and "txt". */
  datatype FileKind = Pdf | Epub | Txt {
    function Name(): string {
      match this
      case Pdf => "pdf"
      case Epub => "epub"
      case Txt => "txt"
    }
  }

  /** `SUPPORTED_EXTENSIONS`: lowercased extension to file type. */
  function SupportedType(ext: string): Option<FileKind> {
    if ext == ".pdf" then Some(Pdf)
    else if ext == ".epub" then Some(Epub)
    else if ext == ".txt" || ext == ".text" then Some(Txt)
    else None
  }

  /** `SUPPORTED_EXTENSIONS.get(ext.lower())` for the extension of `path`. */
  function KindOf(path: string): Option<FileKind> {
    SupportedType(Lower(SplitExt(path)))
  }

  /** A plain file name joined to a directory keeps its type. */
  lemma KindOfJoin(dir: string, name: string)
    requires name != [] && '/' !in name
    ensures KindOf(Join(dir, name)) == KindOf(name)
  {
    SplitExtOfJoin(dir, name);
  }

  /** One directory of `os.walk`: its path and the names of its files. */
  datatype WalkDir = WalkDir(dirPath: string, fileNames: seq<string>)

  /** The walk yields plain, non-empty file names. */
  predicate WellFormedWalk(walk: seq<WalkDir>) {
    forall i, j :: 0 <= i < |walk| && 0 <= j < |walk[i].fileNames| ==>
      walk[i].fileNames[j] != [] && '/' !in walk[i].fileNames[j]
  }

  predicate PlainNames(names: seq<string>) {
    forall j :: 0 <= j < |names| ==> names[j] != [] && '/' !in names[j]
  }

  /** The supported files of one directory, joined to its path. */
  function InDir(dir: string, names: seq<string>): (r: seq<string>)
    requires PlainNames(names)
    ensures |r| <= |names|
    decreases |names|
  {
    if names == [] then []
    else
      var name := names[|names| - 1];
      InDir(dir, names[..|names| - 1]) + (if KindOf(name).Some? then [Join(dir, name)] else [])
  }

  /** `all_files`: the supported files of the walk, in walk order. */
  function Candidates(walk: seq<WalkDir>): seq<string>
    requires WellFormedWalk(walk)
    decreases |walk|
  {
    if walk == [] then []
    else
      var d := walk[|walk| - 1];
      assert PlainNames(d.fileNames) by {
        forall j | 0 <= j < |d.fileNames| ensures d.fileNames[j] != [] && '/' !in d.fileNames[j] {
          assert d == walk[|walk| - 1];
        }
      }
      Candidates(walk[..|walk| - 1]) + InDir(d.dirPath, d.fileNames)
  }

  /** Every path in `files` has a supported extension. */
  predicate AllSupported(files: seq<string>) {
    forall i :: 0 <= i < |files| ==> KindOf(files[i]).Some?
  }

  lemma AllSupportedSnoc(files: seq<string>, path: string)
    requires AllSupported(files) && KindOf(path).Some?
    ensures AllSupported(files + [path])
  {
    assert forall i :: 0 <= i < |files| ==> (files + [path])[i] == files[i];
  }

  lemma {:induction false} InDirSupported(dir: string, names: seq<string>)
    requires PlainNames(names)
    ensures AllSupported(InDir(dir, names))
    decreases |names|
  {
    if names != [] {
      var name := names[|names| - 1];
      var front := InDir(dir, names[..|names| - 1]);
      InDirSupported(dir, names[..|names| - 1]);
      if KindOf(name).Some? {
        KindOfJoin(dir, name);
        AllSupportedSnoc(front, Join(dir, name));
      }
    }
  }

  /** Only files with a supported extension are collected. */
  lemma {:induction false} CandidatesSupported(walk: seq<WalkDir>)
    requires WellFormedWalk(walk)
    ensures AllSupported(Candidates(walk))
    decreases |walk|
  {
    if walk != [] {
      var d := walk[|walk| - 1];
      assert PlainNames(d.fileNames) by {
        forall j | 0 <= j < |d.fileNames| ensures d.fileNames[j] != [] && '/' !in d.fileNames[j] {
          assert d == walk[|walk| - 1];
        }
      }
      CandidatesSupported(walk[..|walk| - 1]);
      InDirSupported(d.dirPath, d.fileNames);
    }
  }

  lemma InDirSnoc(dir: string, names: seq<string>, j: nat)
    requires PlainNames(names) && j < |names|
    ensures InDir(dir, names[..j + 1])
         == InDir(dir, names[..j]) + (if KindOf(names[j]).Some? then [Join(dir, names[j])] else [])
  {
    assert names[..j + 1][..j] == names[..j];
  }

  lemma CandidatesSnoc(walk: seq<WalkDir>, i: nat)
    requires WellFormedWalk(walk) && i < |walk|
    ensures PlainNames(walk[i].fileNames)
    ensures Candidates(walk[..i + 1]) == Candidates(walk[..i]) + InDir(walk[i].dirPath, walk[i].fileNames)
  {
    assert walk[..i + 1][..i] == walk[..i];
  }

  /** The inner loop over the file names of one directory. */
  method CollectDir(dir: string, names: seq<string>) returns (found: seq<string>)
    requires PlainNames(names)
    ensures found == InDir(dir, names)
  {
    found := [];
    for j := 0 to |names|
      invariant found == InDir(dir, names[..j])
    {
      InDirSnoc(dir, names, j);
      var name := names[j];
      if KindOf(name).Some? {
        found := found + [Join(dir, name)];
      }
    }
    assert names[..|names|] == names;
  }

  method CollectFiles(walk: seq<WalkDir>) returns (files: seq<string>)
    requires WellFormedWalk(walk)
    ensures files == Candidates(walk)
  {
    files := [];
    for i := 0 to |walk|
      invariant files == Candidates(walk[..i])
    {
      CandidatesSnoc(walk, i);
      var found := CollectDir(walk[i].dirPath, walk[i].fileNames);
      files := files + found;
    }
    assert walk[..|walk|] == walk;
  }

  // ------------------------------------------------------ processing

  /** A row of the local-file table. */
  datatype LocalRec = LocalRec(id: int, size: int, fileType: FileKind, remoteFileId: Option<int>)

  /** A progress call `(files_processed, total_files, current_file)`. */
  datatype Report = Report(done: nat, total: nat, current: string)

  /** The counters and the table while files are processed. */
  datatype Tally = Tally(added: nat, updated: nat, byType: map<FileKind, nat>,
                         store: map<string, LocalRec>, nextId: int)

  const InitialCounts: map<FileKind, nat> := map[Pdf := 0, Epub := 0, Txt := 0]

  function Bump(m: map<FileKind, nat>, k: FileKind): (r: map<FileKind, nat>)
    ensures r.Keys == m.Keys + {k}
    ensures r[k] == (if k in m then m[k] else 0) + 1
    ensures forall x :: x in m && x != k ==> r[x] == m[x]
  {
    m[k := (if k in m then m[k] else 0) + 1]
  }

  /** A file is counted and stored only when it has a type, its size can be
      read and the validator accepts it. */
  predicate Accepted(path: string, kind: Option<FileKind>, size: string -> Option<int>,
                     valid: (string, FileKind) -> bool) {
    kind.Some? && size(path).Some? && valid(path, kind.value)
  }

  /** One file: a size that cannot be read or an invalid file is skipped;
      a valid file is added, or updated keeping its id and remote id. Every
      collected path has a supported type (`CandidatesSupported`), so the
      `None` case, where the source would call `validate_file` with no type,
      never arises. */
  function Step(t: Tally, path: string, kind: Option<FileKind>, size: string -> Option<int>,
                valid: (string, FileKind) -> bool): Tally {
    match kind
    case None => t
    case Some(ft) =>
      match size(path)
      case None => t
      case Some(sz) =>
        if !valid(path, ft) then t
        else if path !in t.store then
          t.(added := t.added + 1, byType := Bump(t.byType, ft),
             store := t.store[path := LocalRec(t.nextId, sz, ft, None)], nextId := t.nextId + 1)
        else
          var e := t.store[path];
          t.(updated := t.updated + 1, byType := Bump(t.byType, ft),
             store := t.store[path := LocalRec(e.id, sz, ft, e.remoteFileId)])
  }

  datatype Loop = Loop(tally: Tally, reports: seq<Report>, cancelled: bool)

  /** The processing loop from file `i` on; `cancelAt == Some(k)` means the
      cancel flag is first seen set before file `k`. The loop is stated for
      any type lookup `kindOf`; the scan uses `KindOf`. */
  function Process(files: seq<string>, i: nat, t: Tally, reports: seq<Report>, cancelAt: Option<nat>,
                   kindOf: string -> Option<FileKind>, size: string -> Option<int>,
                   valid: (string, FileKind) -> bool): Loop
    requires i <= |files|
    decreases |files| - i
  {
    if i == |files| then Loop(t, reports, false)
    else if cancelAt == Some(i) then Loop(t, reports, true)
    else
      Process(files, i + 1, Step(t, files[i], kindOf(files[i]), size, valid), reports + [Report(i, |files|, files[i])],
              cancelAt, kindOf, size, valid)
  }

  /** The result dictionary. */
  datatype ScanResult = ScanResult(success: bool, rootDir: string, filesFound: nat, filesAdded: nat,
                                   filesUpdated: nat, filesByType: map<FileKind, nat>,
                                   error: Option<string>, cancelled: bool)

  /** A whole scan: the result, the progress calls and the table afterwards. */
  datatype ScanOut = ScanOut(result: ScanResult, reports: seq<Report>, store: map<string, LocalRec>, nextId: int)

  function ScanSpec(rootDir: string, isDir: bool, walk: seq<WalkDir>, size: string -> Option<int>,
                    valid: (string, FileKind) -> bool, cancelAt: Option<nat>,
                    store: map<string, LocalRec>, nextId: int): ScanOut
    requires WellFormedWalk(walk)
  {
    if !isDir then
      ScanOut(ScanResult(false, rootDir, 0, 0, 0, map[], Some("Directory " + rootDir + " does not exist"), false),
              [], store, nextId)
    else
      var files := Candidates(walk);
      var l := Process(files, 0, Tally(0, 0, InitialCounts, store, nextId), [], cancelAt, KindOf, size, valid);
      var last := if l.cancelled then [] else [Report(|files|, |files|, "")];
      ScanOut(ScanResult(true, rootDir, |files|, l.tally.added, l.tally.updated, l.tally.byType, None, l.cancelled),
              l.reports + last, l.tally.store, l.tally.nextId)
  }

  // ------------------------------------------------------ properties

  /** Every row of `a` is still in `b` with its id and remote id. */
  predicate Keeps(a: map<string, LocalRec>, b: map<string, LocalRec>) {
    forall p :: p in a ==> p in b && b[p].id == a[p].id && b[p].remoteFileId == a[p].remoteFileId
  }

  predicate Counted(t: Tally, i: nat) {
    && t.byType.Keys == {Pdf, Epub, Txt}
    && t.added + t.updated == t.byType[Pdf] + t.byType[Epub] + t.byType[Txt]
    && t.added + t.updated <= i
  }

  function ProgressCalls(files: seq<string>, i: nat, k: nat): (r: seq<Report>)
    requires i <= k <= |files|
    ensures |r| == k - i
  {
    seq(k - i, j requires 0 <= j < k - i => Report(i + j, |files|, files[i + j]))
  }

  /** One file changes the counts only when it is accepted, and then
      `added + updated` rises by exactly one; the type counts stay
      consistent with that sum. */
  lemma StepCounts(t: Tally, i: nat, path: string, kind: Option<FileKind>, size: string -> Option<int>,
                    valid: (string, FileKind) -> bool)
    requires Counted(t, i)
    ensures Counted(Step(t, path, kind, size, valid), i + 1)
    ensures !Accepted(path, kind, size, valid) ==> Step(t, path, kind, size, valid) == t
    ensures Accepted(path, kind, size, valid) ==>
      var t' := Step(t, path, kind, size, valid);
      t'.added + t'.updated == t.added + t.updated + 1
  {
  }

  /** One file leaves the table alone unless it is accepted; an accepted
      file's row afterwards holds its size and type, keeping the id and
      remote id of an existing row; no other row changes. */
  lemma StepStore(t: Tally, path: string, kind: Option<FileKind>, size: string -> Option<int>,
                  valid: (string, FileKind) -> bool)
    ensures var t' := Step(t, path, kind, size, valid);
      && Keeps(t.store, t'.store)
      && (forall p :: p in t'.store && p !in t.store ==> p == path && Accepted(path, kind, size, valid))
      && (forall p :: p != path ==> (p in t'.store <==> p in t.store) && (p in t.store ==> t'.store[p] == t.store[p]))
      && (!Accepted(path, kind, size, valid) ==> t'.store == t.store)
      && (Accepted(path, kind, size, valid) ==>
            path in t'.store && t'.store[path].size == size(path).value && t'.store[path].fileType == kind.value)
  {
  }

  /** The counts stay consistent, a cancel request stops the loop, and one
      progress call is made per processed file. */
  lemma {:induction false} ProcessCounts(files: seq<string>, i: nat, t: Tally, reports: seq<Report>, cancelAt: Option<nat>,
                                         kindOf: string -> Option<FileKind>, size: string -> Option<int>, valid: (string, FileKind) -> bool)
    requires i <= |files|
    requires Counted(t, i)
    requires cancelAt.None? || cancelAt.value >= i
    ensures var l := Process(files, i, t, reports, cancelAt, kindOf, size, valid);
      && Counted(l.tally, |files|)
      && (l.cancelled <==> cancelAt.Some? && cancelAt.value < |files|)
      && l.reports == reports + ProgressCalls(files, i, if l.cancelled then cancelAt.value else |files|)
    decreases |files| - i
  {
    if i == |files| || cancelAt == Some(i) {
      assert ProgressCalls(files, i, i) == [];
    } else {
      var t' := Step(t, files[i], kindOf(files[i]), size, valid);
      StepCounts(t, i, files[i], kindOf(files[i]), size, valid);
      var reports' := reports + [Report(i, |files|, files[i])];
      ProcessCounts(files, i + 1, t', reports', cancelAt, kindOf, size, valid);
      var l := Process(files, i + 1, t', reports', cancelAt, kindOf, size, valid);
      var k := if l.cancelled then cancelAt.value else |files|;
      assert [Report(i, |files|, files[i])] + ProgressCalls(files, i + 1, k) == ProgressCalls(files, i, k);
    }
  }

  /** Where the loop stops: before the file at which a cancel request is
      seen, or at the end. */
  function StopAt(files: seq<string>, cancelAt: Option<nat>): (e: nat)
    ensures e <= |files|
    ensures e < |files| <==> cancelAt.Some? && cancelAt.value < |files|
  {
    if cancelAt.Some? && cancelAt.value < |files| then cancelAt.value else |files|
  }

  /** The number of accepted files in `s`. */
  function CountAccepted(s: seq<string>, kindOf: string -> Option<FileKind>, size: string -> Option<int>,
                         valid: (string, FileKind) -> bool): (n: nat)
    ensures n <= |s|
    decreases |s|
  {
    if s == [] then 0
    else (if Accepted(s[0], kindOf(s[0]), size, valid) then 1 else 0) + CountAccepted(s[1..], kindOf, size, valid)
  }

  /** `p` is among the files of `s` that are accepted. */
  predicate AcceptedIn(p: string, s: seq<string>, kindOf: string -> Option<FileKind>, size: string -> Option<int>,
                       valid: (string, FileKind) -> bool) {
    p in s && Accepted(p, kindOf(p), size, valid)
  }

  /** Exactly the accepted files of the processed part are counted, each
      accepted file's row holds its size and type, and every other row is
      as it was. */
  lemma {:induction false} ProcessAccepted(files: seq<string>, i: nat, t: Tally, reports: seq<Report>, cancelAt: Option<nat>,
                                           kindOf: string -> Option<FileKind>, size: string -> Option<int>, valid: (string, FileKind) -> bool)
    requires i <= |files|
    requires cancelAt.None? || cancelAt.value >= i
    ensures var l := Process(files, i, t, reports, cancelAt, kindOf, size, valid);
      var e := StopAt(files, cancelAt);
      && i <= e
      && l.tally.added + l.tally.updated == t.added + t.updated + CountAccepted(files[i..e], kindOf, size, valid)
      && (forall p :: !AcceptedIn(p, files[i..e], kindOf, size, valid) ==>
            (p in l.tally.store <==> p in t.store) && (p in t.store ==> l.tally.store[p] == t.store[p]))
      && (forall p :: AcceptedIn(p, files[i..e], kindOf, size, valid) ==>
            p in l.tally.store && l.tally.store[p].size == size(p).value && l.tally.store[p].fileType == kindOf(p).value)
    decreases |files| - i
  {
    var e := StopAt(files, cancelAt);
    if i == |files| || cancelAt == Some(i) {
      assert files[i..e] == [];
    } else {
      var path := files[i];
      var t' := Step(t, path, kindOf(path), size, valid);
      StepStore(t, path, kindOf(path), size, valid);
      var reports' := reports + [Report(i, |files|, path)];
      ProcessAccepted(files, i + 1, t', reports', cancelAt, kindOf, size, valid);
      assert files[i..e] == [path] + files[i + 1..e];
      assert files[i..e][1..] == files[i + 1..e];
      forall p | AcceptedIn(p, files[i..e], kindOf, size, valid) && !AcceptedIn(p, files[i + 1..e], kindOf, size, valid)
        ensures p == path
      {
      }
    }
  }

  /** A stored row keeps its id and remote id; a new row belongs to a file
      of the list with a supported type, a readable size and a validator's
      approval. */
  lemma {:induction false} ProcessStore(files: seq<string>, i: nat, t: Tally, reports: seq<Report>, cancelAt: Option<nat>,
                                        kindOf: string -> Option<FileKind>, size: string -> Option<int>, valid: (string, FileKind) -> bool)
    requires i <= |files|
    ensures var l := Process(files, i, t, reports, cancelAt, kindOf, size, valid);
      && Keeps(t.store, l.tally.store)
      && (forall p :: p in l.tally.store && p !in t.store ==>
            p in files[i..] && kindOf(p).Some? && size(p).Some? && valid(p, kindOf(p).value))
    decreases |files| - i
  {
    if i < |files| && cancelAt != Some(i) {
      var kind := kindOf(files[i]);
      var t' := Step(t, files[i], kind, size, valid);
      StepStore(t, files[i], kind, size, valid);
      var reports' := reports + [Report(i, |files|, files[i])];
      ProcessStore(files, i + 1, t', reports', cancelAt, kindOf, size, valid);
      assert files[i..] == [files[i]] + files[i + 1..];
    }
  }

  /** What a scan promises. A missing root: failure with the error text, all
      counts 0, no type counts, the table untouched, no progress calls.
      Otherwise success even when cancelled; the type counts always hold
      pdf, epub and txt; added plus updated is their sum and at most the
      number found; every found file has a supported extension; the
      progress calls are `(i, n, path)` for each processed file and a final
      `(n, n, "")` unless cancelled; a cancel request stops the loop; a
      stored row keeps its id and remote id; a new row belongs to a found
      file whose size could be read and which the validator accepted.
      Added plus updated is exactly the number of processed files that were
      accepted; each of those has a row with its size and type, and every
      other row is exactly as before. */
  lemma ScanFacts(rootDir: string, isDir: bool, walk: seq<WalkDir>, size: string -> Option<int>,
                  valid: (string, FileKind) -> bool, cancelAt: Option<nat>, store: map<string, LocalRec>, nextId: int)
    requires WellFormedWalk(walk)
    ensures var o := ScanSpec(rootDir, isDir, walk, size, valid, cancelAt, store, nextId);
      var r := o.result;
      var files := Candidates(walk);
      && (!isDir ==>
            && !r.success && r.error == Some("Directory " + rootDir + " does not exist")
            && r.filesFound == r.filesAdded == r.filesUpdated == 0 && r.filesByType == map[]
            && o.store == store && o.reports == [] && !r.cancelled)
      && (isDir ==>
            && r.success && r.error.None?
            && r.filesFound == |files|
            && AllSupported(files)
            && r.filesByType.Keys == {Pdf, Epub, Txt}
            && r.filesAdded + r.filesUpdated
               == r.filesByType[Pdf] + r.filesByType[Epub] + r.filesByType[Txt]
            && r.filesAdded + r.filesUpdated <= r.filesFound
            && (r.cancelled <==> cancelAt.Some? && cancelAt.value < |files|)
            && o.reports == ProgressCalls(files, 0, if r.cancelled then cancelAt.value else |files|)
                            + (if r.cancelled then [] else [Report(|files|, |files|, "")])
            && Keeps(store, o.store)
            && (forall p :: p in o.store && p !in store ==>
                  p in files && KindOf(p).Some? && size(p).Some? && valid(p, KindOf(p).value))
            && var done := files[..StopAt(files, cancelAt)];
               && r.filesAdded + r.filesUpdated == CountAccepted(done, KindOf, size, valid)
               && (forall p :: !AcceptedIn(p, done, KindOf, size, valid) ==>
                     (p in o.store <==> p in store) && (p in store ==> o.store[p] == store[p]))
               && (forall p :: AcceptedIn(p, done, KindOf, size, valid) ==>
                     p in o.store && o.store[p].size == size(p).value && o.store[p].fileType == KindOf(p).value))
  {
    if isDir {
      var files := Candidates(walk);
      var t := Tally(0, 0, InitialCounts, store, nextId);
      CandidatesSupported(walk);
      ProcessCounts(files, 0, t, [], cancelAt, KindOf, size, valid);
      ProcessStore(files, 0, t, [], cancelAt, KindOf, size, valid);
      assert files[0..] == files;
      ScanAccepted(walk, size, valid, cancelAt, store, nextId);
    }
  }

  /** The accepted files of a scan of an existing root: they are exactly
      what is counted, each has a row with its size and type, and every
      other row is as before. */
  lemma ScanAccepted(walk: seq<WalkDir>, size: string -> Option<int>, valid: (string, FileKind) -> bool,
                     cancelAt: Option<nat>, store: map<string, LocalRec>, nextId: int)
    requires WellFormedWalk(walk)
    ensures var files := Candidates(walk);
      var l := Process(files, 0, Tally(0, 0, InitialCounts, store, nextId), [], cancelAt, KindOf, size, valid);
      var done := files[..StopAt(files, cancelAt)];
      && l.tally.added + l.tally.updated == CountAccepted(done, KindOf, size, valid)
      && (forall p :: !AcceptedIn(p, done, KindOf, size, valid) ==>
            (p in l.tally.store <==> p in store) && (p in store ==> l.tally.store[p] == store[p]))
      && (forall p :: AcceptedIn(p, done, KindOf, size, valid) ==>
            p in l.tally.store && l.tally.store[p].size == size(p).value && l.tally.store[p].fileType == KindOf(p).value)
  {
    var files := Candidates(walk);
    ProcessAccepted(files, 0, Tally(0, 0, InitialCounts, store, nextId), [], cancelAt, KindOf, size, valid);
    assert files[0..StopAt(files, cancelAt)] == files[..StopAt(files, cancelAt)];
  }

  /** The scanner, whose cancel flag another thread may set. */
  class Scanner {
    var cancelRequested: bool
    var store: map<string, LocalRec>
    var nextId: int

    constructor(store: map<string, LocalRec>, nextId: int)
      ensures !cancelRequested && this.store == store && this.nextId == nextId
    {
      cancelRequested := false;
      this.store := store;
      this.nextId := nextId;
    }

    method CancelScan()
      modifies this
      ensures cancelRequested && store == old(store) && nextId == old(nextId)
    {
      cancelRequested := true;
    }

    /** The body of the loop for one file: the type lookup, the size, the
        validator, then an added or an updated row and the counts. */
    method ProcessFile(path: string, added: nat, updated: nat, byType: map<FileKind, nat>,
                       kindOf: string -> Option<FileKind>, size: string -> Option<int>,
                       valid: (string, FileKind) -> bool)
      returns (added': nat, updated': nat, byType': map<FileKind, nat>)
      modifies this
      ensures Tally(added', updated', byType', store, nextId)
           == Step(Tally(added, updated, byType, old(store), old(nextId)), path, kindOf(path), size, valid)
      ensures cancelRequested == old(cancelRequested)
    {
      added', updated', byType' := added, updated, byType;
      var fileType := kindOf(path);
      if fileType.None? {
        return;
      }
      var ft := fileType.value;
      var fileSize := size(path);
      if fileSize.None? || !valid(path, ft) {
        return;
      }
      if path !in store {
        store := store[path := LocalRec(nextId, fileSize.value, ft, None)];
        nextId := nextId + 1;
        added' := added + 1;
      } else {
        var existing := store[path];
        store := store[path := LocalRec(existing.id, fileSize.value, ft, existing.remoteFileId)];
        updated' := updated + 1;
      }
      byType' := byType[ft := (if ft in byType then byType[ft] else 0) + 1];
    }

    method ScanDirectory(rootDir: string, isDir: bool, walk: seq<WalkDir>, size: string -> Option<int>,
                         valid: (string, FileKind) -> bool, cancelAt: Option<nat>)
      returns (result: ScanResult, reports: seq<Report>)
      requires WellFormedWalk(walk)
      modifies this
      ensures ScanOut(result, reports, store, nextId)
           == ScanSpec(rootDir, isDir, walk, size, valid, cancelAt, old(store), old(nextId))
      ensures cancelRequested == result.cancelled
    {
      cancelRequested := false;
      if !isDir {
        result := ScanResult(false, rootDir, 0, 0, 0, map[], Some("Directory " + rootDir + " does not exist"), false);
        return result, [];
      }
      var files := CollectFiles(walk);
      var added: nat, updated: nat, byType := 0, 0, InitialCounts;
      reports := [];
      var cancelled := false;
      ghost var spec := Process(files, 0, Tally(0, 0, InitialCounts, store, nextId), [], cancelAt, KindOf, size, valid);
      var i := 0;
      while i < |files|
        invariant 0 <= i <= |files|
        invariant !cancelRequested
        invariant spec == Process(files, i, Tally(added, updated, byType, store, nextId), reports, cancelAt, KindOf, size, valid)
      {
        if cancelAt == Some(i) {
          cancelRequested := true;  // `cancel_scan` from another thread
        }
        if cancelRequested {
          cancelled := true;
          break;
        }
        reports := reports + [Report(i, |files|, files[i])];
        added, updated, byType := ProcessFile(files[i], added, updated, byType, KindOf, size, valid);
        i := i + 1;
      }
      if !cancelled {
        reports := reports + [Report(|files|, |files|, "")];
      }
      result := ScanResult(true, rootDir, |files|, added, updated, byType, None, cancelled);
    }
  }
}
