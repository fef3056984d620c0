/** The single-shot downloader of src/core/downloader.py: one request, the
    body written chunk by chunk, and the exception mapped to an error text.
    The request, the directory creation and the file writes are oracles. */
module Downloader {
  import opened Wrappers
  import opened Strings
  import FD = FileDownloader

  /** What `requests.get(...)` and `raise_for_status()` give: an exception,
      or a response whose body the loop then writes (`open` may raise). */
  datatype Response =
    | RequestRaised(msg: string)
    | OpenRaised(msg: string)
    | Body(chunks: seq<FD.Chunk>)

  /** The oracles: what `mkdir` of the category directory raised, and the response. */
  datatype Outcome = Outcome(mkdirError: Option<string>, response: Response)

  /** The returned dictionary. */
  datatype SaveResult = SaveResult(success: bool, path: Option<string>, error: Option<string>)

  /** A call: the result and the number of requests made. */
  datatype Run = Run(result: SaveResult, requests: nat)

  /** `Path(a) / b` where `b` is relative; an empty `b` leaves `a`. */
  function PathDiv(a: string, b: string): (r: string)
    ensures EndsWith(r, b)
  {
    if b == [] then a else Join(a, b)
  }

  /** `url.split("/")[-1]` unless a name is given. */
  function FileNameFor(url: string, filename: Option<string>): (name: string)
    ensures filename.None? ==> '/' !in name && EndsWith(url, name)
    ensures filename.None? && name != url ==> url[|url| - |name| - 1] == '/'
    ensures filename.Some? ==> name == filename.value
  {
    if filename.None? then AfterLast(url, '/') else filename.value
  }

  /** The save path: the download directory, the category directory when a
      category is given (even an empty one), then the file name. */
  function SavePath(downloadDir: string, url: string, filename: Option<string>, category: Option<string>): (path: string)
    ensures EndsWith(path, FileNameFor(url, filename))
    ensures category.None? && !StartsWith(FileNameFor(url, filename), "/") && FileNameFor(url, filename) != [] ==>
      StartsWith(path, downloadDir)
  {
    var dir := if category.Some? then PathDiv(downloadDir, category.value) else downloadDir;
    PathDiv(dir, FileNameFor(url, filename))
  }

  /** The layout of the save path: for a download directory without a
      trailing separator, a relative file name and a category without
      separators at either end, the file is saved as
      download_dir/category/filename, and as download_dir/filename without a
      category. An empty file name leaves the directory itself. */
  lemma SavePathLayout(downloadDir: string, url: string, filename: Option<string>, category: Option<string>)
    requires downloadDir != [] && downloadDir[|downloadDir| - 1] != '/'
    requires !StartsWith(FileNameFor(url, filename), "/")
    requires category.Some? ==>
      && category.value != [] && !StartsWith(category.value, "/")
      && category.value[|category.value| - 1] != '/'
    ensures var name := FileNameFor(url, filename);
      var path := SavePath(downloadDir, url, filename, category);
      && (category.Some? && name != [] ==> path == downloadDir + "/" + category.value + "/" + name)
      && (category.Some? && name == [] ==> path == downloadDir + "/" + category.value)
      && (category.None? && name != [] ==> path == downloadDir + "/" + name)
      && (category.None? && name == [] ==> path == downloadDir)
  {
    var name := FileNameFor(url, filename);
    if category.Some? {
      JoinPlain(downloadDir, category.value);
      if name != [] {
        JoinPlain(PathDiv(downloadDir, category.value), name);
      }
    } else if name != [] {
      JoinPlain(downloadDir, name);
    }
  }

  /** `Path(a) / b` for a non-empty `a` without a trailing separator and a
      relative, non-empty `b` puts one separator between them. */
  lemma JoinPlain(a: string, b: string)
    requires a != [] && a[|a| - 1] != '/'
    requires b != [] && !StartsWith(b, "/")
    ensures PathDiv(a, b) == a + "/" + b
    ensures PathDiv(a, b)[|PathDiv(a, b)| - 1] == b[|b| - 1]
  {
  }

  function RequestError(msg: string): string { "Download error: " + msg }
  function OtherError(msg: string): string { "Unexpected error: " + msg }

  /** The first chunk that raises, if any: every chunk before it is data. */
  function FirstFailure(chunks: seq<FD.Chunk>): (c: Option<FD.Chunk>)
    ensures c.Some? ==> !c.value.Data? && c.value in chunks
    ensures c.Some? ==> exists i :: 0 <= i < |chunks| && chunks[i] == c.value &&
                          forall j :: 0 <= j < i ==> chunks[j].Data?
    ensures c.None? <==> forall i :: 0 <= i < |chunks| ==> chunks[i].Data?
  {
    if chunks == [] then None
    else if !chunks[0].Data? then Some(chunks[0])
    else FirstFailure(chunks[1..])
  }

  function Download(downloadDir: string, url: string, filename: Option<string>, category: Option<string>,
                    out: Outcome): Run
  {
    if category.Some? && out.mkdirError.Some? then
      Run(SaveResult(false, None, Some(OtherError(out.mkdirError.value))), 0)
    else
      var path := SavePath(downloadDir, url, filename, category);
      match out.response
      case RequestRaised(m) => Run(SaveResult(false, None, Some(RequestError(m))), 1)
      case OpenRaised(m) => Run(SaveResult(false, None, Some(OtherError(m))), 1)
      case Body(cs) =>
        match FirstFailure(cs)
        case None => Run(SaveResult(true, Some(path), None), 1)
        case Some(c) =>
          if c.StreamBroke? then Run(SaveResult(false, None, Some(RequestError(c.msg))), 1)
          else Run(SaveResult(false, None, Some(OtherError(c.msg))), 1)
  }

  method DownloadFile(downloadDir: string, url: string, filename: Option<string>, category: Option<string>,
                      out: Outcome) returns (run: Run)
    ensures run == Download(downloadDir, url, filename, category, out)
  {
    var name := FileNameFor(url, filename);
    var saveDir := downloadDir;
    if category.Some? {
      saveDir := PathDiv(saveDir, category.value);
      if out.mkdirError.Some? {
        return Run(SaveResult(false, None, Some(OtherError(out.mkdirError.value))), 0);
      }
    }
    var savePath := PathDiv(saveDir, name);
    match out.response {
      case RequestRaised(m) =>
        return Run(SaveResult(false, None, Some(RequestError(m))), 1);
      case OpenRaised(m) =>
        return Run(SaveResult(false, None, Some(OtherError(m))), 1);
      case Body(cs) =>
        var failure := WriteBody(cs);
        match failure {
          case None =>
            return Run(SaveResult(true, Some(savePath), None), 1);
          case Some(c) =>
            if c.StreamBroke? {
              return Run(SaveResult(false, None, Some(RequestError(c.msg))), 1);
            }
            return Run(SaveResult(false, None, Some(OtherError(c.msg))), 1);
        }
    }
  }

  /** The chunk loop: it stops at the first chunk that raises. */
  method WriteBody(cs: seq<FD.Chunk>) returns (failure: Option<FD.Chunk>)
    ensures failure == FirstFailure(cs)
  {
    ghost var spec := FirstFailure(cs);
    var i := 0;
    while i < |cs|
      invariant 0 <= i <= |cs|
      invariant spec == FirstFailure(cs[i..])
    {
      assert cs[i..][1..] == cs[i + 1..];
      if !cs[i].Data? {
        return Some(cs[i]);
      }
      i := i + 1;
    }
    return None;
  }

  /** Exactly one request is made, unless creating the category directory
      raised, in which case none is. A success carries the save path and no
      error; a failure carries no path and an error that starts with
      "Download error: " exactly when a requests exception was raised. */
  lemma ResultShape(downloadDir: string, url: string, filename: Option<string>, category: Option<string>, out: Outcome)
    ensures var r := Download(downloadDir, url, filename, category, out);
      && r.requests == (if category.Some? && out.mkdirError.Some? then 0 else 1)
      && (r.result.success <==> r.result.error.None?)
      && (r.result.success ==> r.result.path == Some(SavePath(downloadDir, url, filename, category)))
      && (!r.result.success ==>
            && r.result.path.None?
            && (StartsWith(r.result.error.value, "Download error: ") ||
                StartsWith(r.result.error.value, "Unexpected error: ")))
      && (StartsWith(r.result.error.GetOr(""), "Download error: ") <==>
            && !(category.Some? && out.mkdirError.Some?)
            && (|| out.response.RequestRaised?
                || (out.response.Body? && FirstFailure(out.response.chunks).Some? &&
                    FirstFailure(out.response.chunks).value.StreamBroke?)))
  {
    if category.Some? && out.mkdirError.Some? {
      ErrorTexts(out.mkdirError.value);
    } else {
      match out.response {
        case RequestRaised(m) => ErrorTexts(m);
        case OpenRaised(m) => ErrorTexts(m);
        case Body(cs) =>
          if FirstFailure(cs).Some? {
            ErrorTexts(FirstFailure(cs).value.msg);
          }
      }
    }
  }

  /** The two error texts are told apart by their prefixes. */
  lemma ErrorTexts(m: string)
    ensures StartsWith(RequestError(m), "Download error: ")
    ensures StartsWith(OtherError(m), "Unexpected error: ")
    ensures !StartsWith(OtherError(m), "Download error: ")
  {
    var d, u := "Download error: ", "Unexpected error: ";
    assert RequestError(m)[..|d|] == d;
    assert OtherError(m)[..|u|] == u;
    assert OtherError(m)[0] != d[0];
  }

  /** `validate_pdf` is a placeholder that accepts every path. */
  function ValidatePdf(path: string): (valid: bool)
    ensures valid
  {
    true
  }
}
