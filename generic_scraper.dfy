/** The generic scraper of src/scrapers/generic_scraper.py: one "default"
    category, and the PDF links of a page as files. Fetching and parsing the
    page and `urljoin` (reference resolution, section 5.2 of RFC 3986) are
    oracles. */
module GenericScraper {
  import opened Wrappers
  import opened Strings
  import opened Plugins
  import SS = SiteScanner

  /** `GenericScraper(BaseScraper)` with `SCRAPER_TYPE = "generic"`. */
  const GenericScraperClass := PyClass("GenericScraper", ["GenericScraper", "BaseScraper", "ABC", "object"],
                                       map["SCRAPER_TYPE" := "generic"], "", [])

  /** An `<a>` element: its `href` attribute, if any, and its text. */
  datatype Link = Link(href: Option<string>, text: string)

  /** The file dictionary: id, name, url, size, file_type and category_id. */
  datatype FileInfo = FileInfo(id: string, name: string, url: string, size: Option<int>, fileType: string,
                               categoryId: string)

  /** `get_categories`: exactly one category, "default", at the base URL. */
  function GetCategories(baseUrl: string): (r: seq<SS.Category>)
    ensures |r| == 1
    ensures r[0].id == "default" && r[0].name == "Default"
    ensures r[0].url == Some(baseUrl) && r[0].parentId.None?
  {
    [SS.Category("default", "Default", Some(baseUrl), None)]
  }

  /** The page scanned: the base URL for "default", else the category id itself. */
  function PageUrl(baseUrl: string, categoryId: string): string {
    if categoryId == "default" then baseUrl else categoryId
  }

  /** `href.lower().endswith(".pdf")`. */
  predicate IsPdfHref(href: string) {
    EndsWith(Lower(href), ".pdf")
  }

  /** A link is kept when its href is present, non-empty and a PDF. */
  predicate Keeps(l: Link) {
    l.href.Some? && l.href.value != [] && IsPdfHref(l.href.value)
  }

  /** `link.text.strip() or href.split("/")[-1]`. */
  function FileName(text: string, href: string): (name: string)
    ensures Strip(text) != [] ==> name == Strip(text)
    ensures Strip(text) == [] ==> '/' !in name && EndsWith(href, name)
    ensures Strip(text) == [] && |name| < |href| ==> href[|href| - |name| - 1] == '/'
  {
    var t := Strip(text);
    if t != [] then t else AfterLast(href, '/')
  }

  /** The file recorded for a kept link. */
  function FileOf(l: Link, page: string, categoryId: string, urljoin: (string, string) -> string): FileInfo
    requires Keeps(l)
  {
    var url := urljoin(page, l.href.value);
    FileInfo(url, FileName(l.text, l.href.value), url, None, "pdf", categoryId)
  }

  /** The files of the kept links, in link order. */
  function Kept(links: seq<Link>, page: string, categoryId: string, urljoin: (string, string) -> string)
    : (r: seq<FileInfo>)
    ensures |r| <= |links|
    ensures forall i :: 0 <= i < |r| ==>
              r[i].id == r[i].url && r[i].size.None? && r[i].fileType == "pdf" && r[i].categoryId == categoryId
    decreases |links|
  {
    if links == [] then []
    else
      var rest := Kept(links[..|links| - 1], page, categoryId, urljoin);
      var l := links[|links| - 1];
      if Keeps(l) then rest + [FileOf(l, page, categoryId, urljoin)] else rest
  }

  /** `get_files_in_category`: a page that cannot be fetched or parsed gives
      no files and no exception. */
  function FilesInCategory(baseUrl: string, categoryId: string, fetch: string -> Result<seq<Link>>,
                           urljoin: (string, string) -> string): (r: seq<FileInfo>)
    ensures fetch(PageUrl(baseUrl, categoryId)).Err? ==> r == []
    ensures fetch(PageUrl(baseUrl, categoryId)).Ok? ==> |r| <= |fetch(PageUrl(baseUrl, categoryId)).value|
    ensures forall i :: 0 <= i < |r| ==>
              r[i].id == r[i].url && r[i].size.None? && r[i].fileType == "pdf" && r[i].categoryId == categoryId
  {
    var page := PageUrl(baseUrl, categoryId);
    match fetch(page)
    case Err(_) => []
    case Ok(links) => Kept(links, page, categoryId, urljoin)
  }

  /** Keeping is link by link: the files of a list of links are those of its
      first part followed by those of the rest. */
  lemma {:induction false} KeptAppend(a: seq<Link>, b: seq<Link>, page: string, categoryId: string,
                                    urljoin: (string, string) -> string)
    ensures Kept(a + b, page, categoryId, urljoin) == Kept(a, page, categoryId, urljoin) + Kept(b, page, categoryId, urljoin)
    decreases |b|
  {
    if b == [] {
      assert a + b == a;
    } else {
      assert (a + b)[..|a + b| - 1] == a + b[..|b| - 1];
      KeptAppend(a, b[..|b| - 1], page, categoryId, urljoin);
    }
  }

  /** One link gives one file exactly when its href is a non-empty PDF
      reference, whatever the case of ".pdf"; the file's id and url are the
      href resolved against the page, and its name is the stripped link
      text, or the last "/" segment of the href when the text is blank. */
  lemma OneLink(l: Link, page: string, categoryId: string, urljoin: (string, string) -> string)
    ensures var r := Kept([l], page, categoryId, urljoin);
      && (|r| == 1 <==> Keeps(l))
      && (!Keeps(l) ==> r == [])
      && (Keeps(l) ==>
            && r[0].url == urljoin(page, l.href.value)
            && (Strip(l.text) != [] ==> r[0].name == Strip(l.text))
            && (Strip(l.text) == [] ==> r[0].name == AfterLast(l.href.value, '/')))
  {
    assert [l][..0] == [];
  }

  /** The test ignores case: an href ending in ".PDF" is a PDF link. */
  lemma UpperCasePdfIsKept(href: string)
    requires EndsWith(href, ".PDF")
    ensures IsPdfHref(href)
  {
    var n := |href|;
    assert href[n - 4] == '.' && href[n - 3] == 'P' && href[n - 2] == 'D' && href[n - 1] == 'F';
    LowerAt(href, n - 4);
    LowerAt(href, n - 3);
    LowerAt(href, n - 2);
    LowerAt(href, n - 1);
    assert Lower(href)[n - 4..] == ".pdf";
  }

  /** The loop of `get_files_in_category`. */
  method GetFilesInCategory(baseUrl: string, categoryId: string, fetch: string -> Result<seq<Link>>,
                            urljoin: (string, string) -> string) returns (files: seq<FileInfo>)
    ensures files == FilesInCategory(baseUrl, categoryId, fetch, urljoin)
  {
    files := [];
    var url := if categoryId == "default" then baseUrl else categoryId;
    var soup := fetch(url);
    if soup.Err? {
      return;
    }
    var links := soup.value;
    for i := 0 to |links|
      invariant files == Kept(links[..i], url, categoryId, urljoin)
    {
      assert links[..i + 1][..i] == links[..i];
      var href := links[i].href;
      if href.None? || href.value == [] {
        continue;
      }
      if IsPdfHref(href.value) {
        var fileUrl := urljoin(url, href.value);
        var fileName := FileName(links[i].text, href.value);
        files := files + [FileInfo(fileUrl, fileName, fileUrl, None, "pdf", categoryId)];
      }
    }
    assert links[..|links|] == links;
  }

  /** `get_download_url`: the file id is the download URL. */
  function GetDownloadUrl(fileId: string): (url: string)
    ensures url == fileId
  {
    fileId
  }
}
