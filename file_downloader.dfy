/** The transfer of src/core/file_downloader.py (`FileDownloader.download_file`):
    destination path, a bounded retry loop over `requests.get`, the chunk loop
    that counts bytes and reports progress, and removal of a partial file.
    The network and the file system are oracles: one `Attempt` value per
    pass of the retry loop, and a few flags in `Env`. */
module FileDownloader {
  import opened Wrappers
  import opened Strings

  /** What the downloader reads from the configuration at construction. */
  datatype Config = Config(downloadDir: string, retryCount: nat, timeout: int,
                           userAgent: string, proxy: Option<string>)

  /** One item of `response.iter_content(chunk_size=8192)` as the loop sees it. */
  datatype Chunk =
    | Data(len: nat)            // `len` bytes, written to the file when `len > 0`
    | StreamBroke(msg: string)  // the stream raised a requests exception
    | WriteBroke(msg: string)   // `f.write` raised something else (an OSError)

  /** What one pass of the retry loop meets. */
  datatype Attempt =
    | RequestFailed(msg: string)                   // connection error, timeout, or non-2xx status from `raise_for_status`
    | BadLength(msg: string)                       // `int(Content-Length)` raised ValueError
    | OpenFailed(contentLength: int, msg: string)  // `open(file_path, "wb")` raised
    | Streamed(contentLength: int, chunks: seq<Chunk>)

  /** The oracles: `urlPath` is `urlparse(url).path`, `timestamp` the
      `'%Y%m%d_%H%M%S'` text of the clock, `mkdirError` what
      `os.makedirs` of the category directory raised, `existedBefore`
      whether a file was already at the destination, `removeFails` whether
      `os.remove` raises. */
  datatype Env = Env(urlPath: string -> string, timestamp: string,
                     mkdirError: Option<string>, attempts: seq<Attempt>,
                     existedBefore: bool, removeFails: bool)

  /** A progress report: the callback receives `done / total`. */
  datatype Report = Report(done: nat, total: int)

  /** The `result` dictionary. */
  datatype DownloadResult = DownloadResult(success: bool, url: string, filePath: Option<string>,
                                           fileSize: Option<int>, error: Option<string>)

  /** A whole call: the result, every progress report in order, how many
      attempts were made, and whether a file is left at `filePath`. */
  datatype Transfer = Transfer(result: DownloadResult, progress: seq<Report>, tries: nat, fileOnDisk: bool)

  // ------------------------------------------------------ the chunk loop

  datatype ChunkEnd = Finished | Broke(msg: string) | WriteFailed(msg: string)
  datatype ChunkRun = ChunkRun(end: ChunkEnd, downloaded: nat, reports: seq<Report>)

  /** The chunk loop from chunk `i` and `downloaded` bytes on; the callback
      is called only for non-empty chunks and only when `Content-Length > 0`. */
  function Chunks(chunks: seq<Chunk>, i: nat, total: int, downloaded: nat): ChunkRun
    requires i <= |chunks|
    decreases |chunks| - i
  {
    if i == |chunks| then ChunkRun(Finished, downloaded, [])
    else match chunks[i]
      case Data(n) =>
        if n == 0 then Chunks(chunks, i + 1, total, downloaded)
        else
          var rest := Chunks(chunks, i + 1, total, downloaded + n);
          rest.(reports := (if total > 0 then [Report(downloaded + n, total)] else []) + rest.reports)
      case StreamBroke(m) => ChunkRun(Broke(m), downloaded, [])
      case WriteBroke(m) => ChunkRun(WriteFailed(m), downloaded, [])
  }

  function Prefixed(reports: seq<Report>, run: ChunkRun): ChunkRun {
    run.(reports := reports + run.reports)
  }

  lemma PrefixedEmpty(run: ChunkRun)
    ensures Prefixed([], run) == run
  {
    assert [] + run.reports == run.reports;
  }

  /** Within one attempt the reported byte counts rise strictly, stay within
      the bytes written, carry the Content-Length, and there are none when
      Content-Length is not positive. */
  lemma {:induction false} ChunkProgressRises(chunks: seq<Chunk>, i: nat, total: int, downloaded: nat)
    requires i <= |chunks|
    ensures var r := Chunks(chunks, i, total, downloaded);
      && downloaded <= r.downloaded
      && (total <= 0 ==> r.reports == [])
      && (forall k :: 0 <= k < |r.reports| ==>
            downloaded < r.reports[k].done <= r.downloaded && r.reports[k].total == total)
      && (forall k, l :: 0 <= k < l < |r.reports| ==> r.reports[k].done < r.reports[l].done)
    decreases |chunks| - i
  {
    if i < |chunks| && chunks[i].Data? {
      var n := chunks[i].len;
      if n == 0 {
        ChunkProgressRises(chunks, i + 1, total, downloaded);
      } else {
        ChunkProgressRises(chunks, i + 1, total, downloaded + n);
      }
    }
  }

  /** A data chunk moves its report, if any, from the loop's rest to the
      reports already made. */
  lemma DataStep(reports: seq<Report>, cs: seq<Chunk>, i: nat, total: int, downloaded: nat)
    requires i < |cs| && cs[i].Data?
    ensures var n := cs[i].len;
      n > 0 && total > 0 ==>
        Prefixed(reports, Chunks(cs, i, total, downloaded))
        == Prefixed(reports + [Report(downloaded + n, total)], Chunks(cs, i + 1, total, downloaded + n))
    ensures var n := cs[i].len;
      !(n > 0 && total > 0) ==>
        Prefixed(reports, Chunks(cs, i, total, downloaded)) == Prefixed(reports, Chunks(cs, i + 1, total, downloaded + n))
  {
    var n := cs[i].len;
    var rest := Chunks(cs, i + 1, total, downloaded + n);
    if n > 0 {
      var head := if total > 0 then [Report(downloaded + n, total)] else [];
      assert reports + (head + rest.reports) == (reports + head) + rest.reports;
    } else {
      assert reports + [] == reports;
    }
  }

  /** A chunk that raises ends the loop with the reports already made. */
  lemma BrokeStep(reports: seq<Report>, cs: seq<Chunk>, i: nat, total: int, downloaded: nat)
    requires i < |cs| && !cs[i].Data?
    ensures Prefixed(reports, Chunks(cs, i, total, downloaded))
            == ChunkRun(if cs[i].StreamBroke? then Broke(cs[i].msg) else WriteFailed(cs[i].msg), downloaded, reports)
  {
    assert reports + [] == reports;
  }

  method WriteChunks(chunks: seq<Chunk>, total: int) returns (run: ChunkRun)
    ensures run == Chunks(chunks, 0, total, 0)
  {
    var downloaded: nat := 0;
    var reports: seq<Report> := [];
    var i := 0;
    ghost var spec := Chunks(chunks, i, total, downloaded);
    PrefixedEmpty(spec);
    while i < |chunks|
      invariant 0 <= i <= |chunks|
      invariant spec == Prefixed(reports, Chunks(chunks, i, total, downloaded))
    {
      match chunks[i] {
        case Data(n) =>
          DataStep(reports, chunks, i, total, downloaded);
          if n > 0 {
            downloaded := downloaded + n;
            if total > 0 {
              reports := reports + [Report(downloaded, total)];
            }
          }
        case StreamBroke(m) =>
          BrokeStep(reports, chunks, i, total, downloaded);
          return ChunkRun(Broke(m), downloaded, reports);
        case WriteBroke(m) =>
          BrokeStep(reports, chunks, i, total, downloaded);
          return ChunkRun(WriteFailed(m), downloaded, reports);
      }
      i := i + 1;
    }
    run := ChunkRun(Finished, downloaded, reports);
  }

  // ------------------------------------------------------ one attempt

  /** `Retry` is a requests exception, `Abort` any other exception. */
  datatype AttemptEnd = Done | Retry(msg: string) | Abort(msg: string)

  /** `size` is what the attempt stored in `result["file_size"]`, `created`
      whether it created the destination file. */
  datatype AttemptRun = AttemptRun(end: AttemptEnd, size: Option<int>, created: bool, reports: seq<Report>)

  function RunAttempt(a: Attempt): AttemptRun {
    match a
    case RequestFailed(m) => AttemptRun(Retry(m), None, false, [])
    case BadLength(m) => AttemptRun(Abort(m), None, false, [])
    case OpenFailed(n, m) => AttemptRun(Abort(m), Some(n), false, [])
    case Streamed(n, cs) =>
      var c := Chunks(cs, 0, n, 0);
      var end := match c.end
        case Finished => Done
        case Broke(m) => Retry(m)
        case WriteFailed(m) => Abort(m);
      AttemptRun(end, Some(n), true, c.reports)
  }

  method PerformAttempt(a: Attempt) returns (run: AttemptRun)
    ensures run == RunAttempt(a)
  {
    match a
    case RequestFailed(m) => run := AttemptRun(Retry(m), None, false, []);
    case BadLength(m) => run := AttemptRun(Abort(m), None, false, []);
    case OpenFailed(n, m) => run := AttemptRun(Abort(m), Some(n), false, []);
    case Streamed(n, cs) =>
      var c := WriteChunks(cs, n);
      var end := match c.end
        case Finished => Done
        case Broke(m) => Retry(m)
        case WriteFailed(m) => Abort(m);
      run := AttemptRun(end, Some(n), true, c.reports);
  }

  // ------------------------------------------------------ the retry loop

  /** `error` is `None` when an attempt succeeded, otherwise the text of the
      exception that ended the loop; `tries` counts the attempts made. */
  datatype LoopRun = LoopRun(error: Option<string>, tries: nat, size: Option<int>,
                             created: bool, reports: seq<Report>)

  /** `for attempt in range(retry_count + 1)` from attempt `k` on, with what
      the earlier attempts left behind. */
  function Attempts(att: seq<Attempt>, retryCount: nat, k: nat, size: Option<int>,
                    created: bool, reports: seq<Report>): LoopRun
    requires k <= retryCount < |att|
    decreases retryCount - k
  {
    var a := RunAttempt(att[k]);
    var size' := if a.size.Some? then a.size else size;
    var created' := created || a.created;
    var reports' := reports + a.reports;
    match a.end
    case Done => LoopRun(None, k + 1, size', created', reports')
    case Abort(m) => LoopRun(Some(m), k + 1, size', created', reports')
    case Retry(m) =>
      if k < retryCount then Attempts(att, retryCount, k + 1, size', created', reports')
      else LoopRun(Some(m), k + 1, size', created', reports')
  }

  /** The shape of every run of the retry loop: every attempt before the last
      one raised a requests exception; the last one succeeded (and then there
      is no error), or raised something else (that text is the error), or was
      attempt `retryCount` and raised a requests exception (that text is the
      error). */
  lemma {:induction false} AttemptsShape(att: seq<Attempt>, retryCount: nat, k: nat, size: Option<int>,
                                         created: bool, reports: seq<Report>)
    requires k <= retryCount < |att|
    ensures var r := Attempts(att, retryCount, k, size, created, reports);
      && k + 1 <= r.tries <= retryCount + 1
      && (forall j :: k <= j < r.tries - 1 ==> RunAttempt(att[j]).end.Retry?)
      && var last := RunAttempt(att[r.tries - 1]).end;
         && (r.error.None? <==> last.Done?)
         && (last.Abort? ==> r.error == Some(last.msg))
         && (last.Retry? ==> r.tries == retryCount + 1 && r.error == Some(last.msg))
    decreases retryCount - k
  {
    var a := RunAttempt(att[k]);
    if a.end.Retry? && k < retryCount {
      var size', created', reports' := if a.size.Some? then a.size else size, created || a.created, reports + a.reports;
      assert Attempts(att, retryCount, k, size, created, reports) == Attempts(att, retryCount, k + 1, size', created', reports');
      AttemptsShape(att, retryCount, k + 1, size', created', reports');
    }
  }

  // ------------------------------------------------------ a whole call

  /** `os.path.basename(urlparse(url).path)`, or a timestamped name when that
      is empty, that is when the path is empty or ends with "/"; a name given
      by the caller is kept as it is. The base name is the longest end of the
      path without a "/". */
  function FileName(fileName: Option<string>, urlPath: string, timestamp: string): (name: string)
    ensures fileName.Some? ==> name == fileName.value
    ensures fileName.None? && (urlPath == [] || urlPath[|urlPath| - 1] == '/') ==>
      name == "download_" + timestamp + ".pdf"
    ensures fileName.None? && urlPath != [] && urlPath[|urlPath| - 1] != '/' ==>
      && name != [] && '/' !in name && EndsWith(urlPath, name)
      && (|name| < |urlPath| ==> urlPath[|urlPath| - |name| - 1] == '/')
  {
    if fileName.Some? then fileName.value
    else
      var base := Basename(urlPath);
      if base != [] then base else "download_" + timestamp + ".pdf"
  }

  /** `if category:` — a category counts only when it is present and non-empty. */
  predicate HasCategory(category: Option<string>) {
    category.Some? && category.value != []
  }

  function SaveDir(cfg: Config, category: Option<string>): string {
    if HasCategory(category) then Join(cfg.downloadDir, category.value) else cfg.downloadDir
  }

  function Download(cfg: Config, url: string, fileName: Option<string>, category: Option<string>, env: Env): Transfer
    requires |env.attempts| > cfg.retryCount
  {
    var name := FileName(fileName, env.urlPath(url), env.timestamp);
    if HasCategory(category) && env.mkdirError.Some? then
      Transfer(DownloadResult(false, url, None, None, env.mkdirError), [], 0, false)
    else
      var path := Join(SaveDir(cfg, category), name);
      var run := Attempts(env.attempts, cfg.retryCount, 0, None, false, []);
      if run.error.None? then
        Transfer(DownloadResult(true, url, Some(path), run.size, None), run.reports, run.tries, true)
      else
        var present := env.existedBefore || run.created;
        var left := present && (path == [] || env.removeFails);
        Transfer(DownloadResult(false, url, Some(path), run.size, run.error), run.reports, run.tries, left)
  }

  method DownloadFile(cfg: Config, url: string, fileName: Option<string>, category: Option<string>, env: Env)
    returns (t: Transfer)
    requires |env.attempts| > cfg.retryCount
    ensures t == Download(cfg, url, fileName, category, env)
  {
    var name := FileName(fileName, env.urlPath(url), env.timestamp);
    var saveDir := cfg.downloadDir;
    if HasCategory(category) {
      saveDir := Join(saveDir, category.value);
      if env.mkdirError.Some? {
        return Transfer(DownloadResult(false, url, None, None, env.mkdirError), [], 0, false);
      }
    }
    var path := Join(saveDir, name);

    var run := RetryLoop(env.attempts, cfg.retryCount);
    if run.error.None? {
      t := Transfer(DownloadResult(true, url, Some(path), run.size, None), run.reports, run.tries, true);
    } else {
      var present := env.existedBefore || run.created;
      var left := present;
      if path != [] && present {
        left := env.removeFails;
      }
      t := Transfer(DownloadResult(false, url, Some(path), run.size, run.error), run.reports, run.tries, left);
    }
  }

  /** The retry loop: `attempt` runs from 0 and the loop stops at the first
      success, the first exception that is not a requests exception, or
      after attempt `retryCount`. */
  method RetryLoop(attempts: seq<Attempt>, retryCount: nat) returns (run: LoopRun)
    requires |attempts| > retryCount
    ensures run == Attempts(attempts, retryCount, 0, None, false, [])
  {
    ghost var spec := Attempts(attempts, retryCount, 0, None, false, []);
    var attempt := 0;
    var size: Option<int> := None;
    var created := false;
    var reports: seq<Report> := [];
    var error: Option<string> := None;
    var done := false;
    while !done
      invariant attempt <= retryCount + 1
      invariant !done ==> attempt <= retryCount
      invariant !done ==> spec == Attempts(attempts, retryCount, attempt, size, created, reports)
      invariant !done ==> error.None?
      invariant done ==> spec == LoopRun(error, attempt, size, created, reports)
      decreases retryCount + 1 - attempt, !done
    {
      var a := PerformAttempt(attempts[attempt]);
      if a.size.Some? {
        size := a.size;
      }
      created := created || a.created;
      reports := reports + a.reports;
      match a.end {
        case Done =>
          done := true;
        case Abort(m) =>
          done, error := true, Some(m);
        case Retry(m) =>
          if attempt == retryCount {
            done, error := true, Some(m);
          }
      }
      attempt := attempt + 1;
    }
    run := LoopRun(error, attempt, size, created, reports);
  }

  // ------------------------------------------------------ properties

  /** The destination is the download directory, then the category directory
      when the category is non-empty, then the file name (for relative names
      and directories without a trailing separator). */
  lemma DestinationLayout(cfg: Config, category: Option<string>, name: string)
    requires cfg.downloadDir != [] && cfg.downloadDir[|cfg.downloadDir| - 1] != '/'
    requires !StartsWith(name, "/")
    requires HasCategory(category) ==>
      !StartsWith(category.value, "/") && category.value[|category.value| - 1] != '/'
    ensures HasCategory(category) ==>
      Join(SaveDir(cfg, category), name) == cfg.downloadDir + "/" + category.value + "/" + name
    ensures !HasCategory(category) ==> Join(SaveDir(cfg, category), name) == cfg.downloadDir + "/" + name
  {
  }

  /** At most `retryCount + 1` attempts are made; a successful call stops at
      the first attempt that succeeded, after attempts that each raised a
      requests exception. */
  lemma AttemptsBounded(cfg: Config, url: string, fileName: Option<string>, category: Option<string>, env: Env)
    requires |env.attempts| > cfg.retryCount
    ensures var t := Download(cfg, url, fileName, category, env);
      && t.tries <= cfg.retryCount + 1
      && (t.result.success ==>
            && t.tries >= 1
            && RunAttempt(env.attempts[t.tries - 1]).end.Done?
            && forall j :: 0 <= j < t.tries - 1 ==> RunAttempt(env.attempts[j]).end.Retry?)
  {
    var t := Download(cfg, url, fileName, category, env);
    var run := Attempts(env.attempts, cfg.retryCount, 0, None, false, []);
    DownloadRun(cfg, url, fileName, category, env);
    RunBounded(env.attempts, cfg.retryCount);
    assert t.tries <= run.tries;
    if t.result.success {
      assert t.tries == run.tries && run.error.None?;
      forall j | 0 <= j < t.tries - 1
        ensures RunAttempt(env.attempts[j]).end.Retry?
      {
      }
    }
  }

  /** The retry loop from the first attempt makes at most `retryCount + 1`
      attempts, and succeeds only at an attempt after which nothing more is
      tried and before which every attempt was retried. */
  lemma RunBounded(att: seq<Attempt>, retryCount: nat)
    requires retryCount < |att|
    ensures var r := Attempts(att, retryCount, 0, None, false, []);
      && r.tries <= retryCount + 1
      && (r.error.None? ==>
            && r.tries >= 1
            && RunAttempt(att[r.tries - 1]).end.Done?
            && forall j :: 0 <= j < r.tries - 1 ==> RunAttempt(att[j]).end.Retry?)
  {
    AttemptsShape(att, retryCount, 0, None, false, []);
  }

  /** What a call reports of its retry loop: nothing when the category
      folder cannot be made, else the loop's attempt count and error. */
  lemma DownloadRun(cfg: Config, url: string, fileName: Option<string>, category: Option<string>, env: Env)
    requires |env.attempts| > cfg.retryCount
    ensures var t := Download(cfg, url, fileName, category, env);
      var run := Attempts(env.attempts, cfg.retryCount, 0, None, false, []);
      if HasCategory(category) && env.mkdirError.Some? then t.tries == 0 && !t.result.success
      else t.tries == run.tries && (t.result.success <==> run.error.None?) && t.result.error == run.error
  {
  }

  /** When every attempt raises a requests exception (a network error or a
      non-2xx status), exactly `retryCount + 1` attempts are made and the
      error is the text of the last one. */
  lemma RetryExhaustion(cfg: Config, url: string, fileName: Option<string>, category: Option<string>, env: Env)
    requires |env.attempts| > cfg.retryCount
    requires !(HasCategory(category) && env.mkdirError.Some?)
    requires forall j :: 0 <= j <= cfg.retryCount ==> env.attempts[j].RequestFailed?
    ensures var t := Download(cfg, url, fileName, category, env);
      && t.tries == cfg.retryCount + 1
      && !t.result.success
      && t.result.error == Some(env.attempts[cfg.retryCount].msg)
  {
    RetriesRunOut(env.attempts, cfg.retryCount);
  }

  lemma RetriesRunOut(att: seq<Attempt>, retryCount: nat)
    requires retryCount < |att|
    requires forall j :: 0 <= j <= retryCount ==> att[j].RequestFailed?
    ensures var r := Attempts(att, retryCount, 0, None, false, []);
      r.tries == retryCount + 1 && r.error == Some(att[retryCount].msg)
  {
    AttemptsShape(att, retryCount, 0, None, false, []);
  }

  /** An exception that is not a requests exception ends the call at once:
      when attempt `j` raises one after attempts that only raised requests
      exceptions, exactly `j + 1` attempts are made. */
  lemma OtherErrorsAreNotRetried(cfg: Config, url: string, fileName: Option<string>, category: Option<string>,
                                 env: Env, j: nat)
    requires j <= cfg.retryCount < |env.attempts|
    requires !(HasCategory(category) && env.mkdirError.Some?)
    requires forall i :: 0 <= i < j ==> RunAttempt(env.attempts[i]).end.Retry?
    requires RunAttempt(env.attempts[j]).end.Abort?
    ensures var t := Download(cfg, url, fileName, category, env);
      && t.tries == j + 1
      && !t.result.success
      && t.result.error == Some(RunAttempt(env.attempts[j]).end.msg)
  {
    AbortStops(env.attempts, cfg.retryCount, j);
  }

  lemma AbortStops(att: seq<Attempt>, retryCount: nat, j: nat)
    requires j <= retryCount < |att|
    requires forall i :: 0 <= i < j ==> RunAttempt(att[i]).end.Retry?
    requires RunAttempt(att[j]).end.Abort?
    ensures var r := Attempts(att, retryCount, 0, None, false, []);
      r.tries == j + 1 && r.error == Some(RunAttempt(att[j]).end.msg)
  {
    AttemptsShape(att, retryCount, 0, None, false, []);
  }

  /** After a failed transfer `file_path` stays set and a file is left there
      only when there was one and removing it raised. */
  lemma FailureCleansUp(cfg: Config, url: string, fileName: Option<string>, category: Option<string>, env: Env)
    requires |env.attempts| > cfg.retryCount
    requires cfg.downloadDir != []
    ensures var t := Download(cfg, url, fileName, category, env);
      !t.result.success ==>
        && (t.result.filePath.None? <==> HasCategory(category) && env.mkdirError.Some?)
        && (t.fileOnDisk ==> t.result.filePath.Some? && env.removeFails)
        && t.result.error.Some?
  {
    var name := FileName(fileName, env.urlPath(url), env.timestamp);
    var dir := SaveDir(cfg, category);
    assert dir != [];
    assert Join(dir, name) != [];
  }
}
