/** The site scan of src/core/site_scanner.py: look the site up, create its
    scraper, turn the scraped categories into store rows with parent
    references, tag every scraped file with the stored id of its category,
    and write categories and files to the stores.

    The site table, the category table and the remote-file table are maps.
    The scraper registry, the scraper's answers, the rows the category table
    gives back after the write (their ids come from the database) and the
    clock are oracles. */
module SiteScanner {
  import opened Wrappers
  import opened Strings

  /** A category as a scraper returns it. */
  datatype Category = Category(id: string, name: string, url: Option<string>, parentId: Option<string>)

  /** A category row as the scanner sends it to the store: `parent_id` is
      always None, and `parent_id_ref` is the scraped parent id when that
      parent is one of the scraped categories. */
  datatype DbCategory = DbCategory(name: string, url: Option<string>, parentId: Option<int>,
                                   parentIdRef: Option<string>)

  /** A row of `get_categories_by_site`: the database id and the name. */
  datatype StoredCategory = StoredCategory(id: int, name: string)

  /** A file as a scraper returns it. */
  datatype ScrapedFile = ScrapedFile(name: string, url: string, size: Option<int>, fileType: Option<string>)

  /** A scraped file once the scanner has set its `category_id`. */
  datatype Tagged = Tagged(file: ScrapedFile, categoryId: Option<int>)

  /** A file row as the scanner sends it to the store. */
  datatype DbFile = DbFile(name: string, url: string, categoryId: Option<int>, size: Option<int>,
                           fileType: Option<string>)

  /** A site row: its URL, scraper type and last-scan date. */
  datatype Site = Site(url: string, scraperType: string, lastScan: Option<string>)

  /** A scraper: what `get_categories` and `get_files_in_category` give, an
      error text standing for an exception. */
  datatype Scraper = Scraper(categories: Result<seq<Category>>, files: string -> Result<seq<ScrapedFile>>)

  /** The returned dictionary. */
  datatype ScanResult = ScanResult(success: bool, siteId: int, categories: seq<Category>, files: seq<Tagged>,
                                   error: Option<string>, categoriesAdded: nat, filesAdded: nat)

  // ------------------------------------------------------ categories

  /** Whether `id` is the id of one of `cats` (the keys of `category_id_map`). */
  predicate HasId(cats: seq<Category>, id: string) {
    exists i :: 0 <= i < |cats| && cats[i].id == id
  }

  lemma HasIdSnoc(cats: seq<Category>, i: nat)
    requires i < |cats|
    ensures forall id :: HasId(cats[..i + 1], id) <==> HasId(cats[..i], id) || id == cats[i].id
  {
    forall id ensures HasId(cats[..i + 1], id) <==> HasId(cats[..i], id) || id == cats[i].id {
      if HasId(cats[..i + 1], id) {
        var k :| 0 <= k < i + 1 && cats[..i + 1][k].id == id;
        if k < i {
          assert cats[..i][k].id == id;
        }
      }
      if HasId(cats[..i], id) {
        var k :| 0 <= k < i && cats[..i][k].id == id;
        assert cats[..i + 1][k].id == id;
      }
      if id == cats[i].id {
        assert cats[..i + 1][i].id == id;
      }
    }
  }

  /** The store row for one scraped category. */
  function DbCategoryOf(cats: seq<Category>, c: Category): (d: DbCategory)
    ensures d.name == c.name && d.url == c.url && d.parentId.None?
    ensures d.parentIdRef.Some? <==> c.parentId.Some? && HasId(cats, c.parentId.value)
    ensures d.parentIdRef.Some? ==> d.parentIdRef == c.parentId
  {
    var ref := if c.parentId.Some? && HasId(cats, c.parentId.value) then c.parentId else None;
    DbCategory(c.name, c.url, None, ref)
  }

  /** `db_categories` once both loops have run. */
  function DbCategories(cats: seq<Category>): (r: seq<DbCategory>)
    ensures |r| == |cats|
  {
    seq(|cats|, i requires 0 <= i < |cats| => DbCategoryOf(cats, cats[i]))
  }

  /** Every category row has no parent id, keeps its name and URL, and
      carries a parent reference exactly when its scraped parent id is the
      id of a scraped category. */
  lemma DbCategoriesShape(cats: seq<Category>, i: nat)
    requires i < |cats|
    ensures var d := DbCategories(cats)[i];
      && d.parentId.None? && d.name == cats[i].name && d.url == cats[i].url
      && (d.parentIdRef.Some? <==> cats[i].parentId.Some? && HasId(cats, cats[i].parentId.value))
      && (d.parentIdRef.Some? ==> d.parentIdRef == cats[i].parentId)
  {
  }

  /** The two loops of `scan_site` that build `category_id_map` and the rows,
      then set the parent references. */
  method BuildDbCategories(cats: seq<Category>) returns (db: seq<DbCategory>)
    ensures db == DbCategories(cats)
  {
    var ids: map<string, int> := map[];
    db := [];
    for i := 0 to |cats|
      invariant |db| == i
      invariant forall k :: 0 <= k < i ==> db[k] == DbCategory(cats[k].name, cats[k].url, None, None)
      invariant forall id :: id in ids <==> HasId(cats[..i], id)
    {
      db := db + [DbCategory(cats[i].name, cats[i].url, None, None)];
      ids := ids[cats[i].id := |db| - 1];
      HasIdSnoc(cats, i);
    }
    assert cats[..|cats|] == cats;
    for i := 0 to |cats|
      invariant |db| == |cats|
      invariant forall k :: 0 <= k < i ==> db[k] == DbCategoryOf(cats, cats[k])
      invariant forall k :: i <= k < |cats| ==> db[k] == DbCategory(cats[k].name, cats[k].url, None, None)
    {
      var parent := cats[i].parentId;
      if parent.Some? && parent.value in ids {
        db := db[i := db[i].(parentIdRef := parent)];
      }
    }
  }

  /** `{cat["name"]: cat["id"] for cat in rows}`: a later row with the same
      name overwrites an earlier one. */
  function NameIds(rows: seq<StoredCategory>): (m: map<string, int>)
    ensures forall n :: n in m <==> exists i :: 0 <= i < |rows| && rows[i].name == n
    decreases |rows|
  {
    if rows == [] then map[]
    else
      var last := rows[|rows| - 1];
      var m := NameIds(rows[..|rows| - 1]);
      assert forall i :: 0 <= i < |rows| - 1 ==> rows[..|rows| - 1][i] == rows[i];
      m[last.name := last.id]
  }

  /** A name maps to the id of the last row carrying that name. */
  lemma {:induction false} NameIdsLastWins(rows: seq<StoredCategory>, i: nat)
    requires i < |rows|
    requires forall j :: i < j < |rows| ==> rows[j].name != rows[i].name
    ensures NameIds(rows)[rows[i].name] == rows[i].id
    decreases |rows|
  {
    if i < |rows| - 1 {
      var front := rows[..|rows| - 1];
      assert front[i] == rows[i];
      NameIdsLastWins(front, i);
    }
  }

  /** The stored id for a category name, or None. */
  function CategoryIdFor(names: map<string, int>, name: string): (r: Option<int>)
    ensures r.Some? <==> name in names
    ensures r.Some? ==> r.value == names[name]
  {
    if name in names then Some(names[name]) else None
  }

  // ------------------------------------------------------ files

  function Tag(files: seq<ScrapedFile>, id: Option<int>): (r: seq<Tagged>)
    ensures |r| == |files|
    ensures forall k :: 0 <= k < |r| ==> r[k] == Tagged(files[k], id)
  {
    seq(|files|, k requires 0 <= k < |files| => Tagged(files[k], id))
  }

  /** `all_files` for the first categories: each category's files in order,
      tagged with the stored id of the category's name; the first fetch that
      raises ends it. */
  function Gather(s: Scraper, cats: seq<Category>, names: map<string, int>): Result<seq<Tagged>>
    decreases |cats|
  {
    if cats == [] then Ok([])
    else
      match Gather(s, cats[..|cats| - 1], names)
      case Err(m) => Err(m)
      case Ok(front) =>
        var c := cats[|cats| - 1];
        match s.files(c.id)
        case Err(m) => Err(m)
        case Ok(fs) => Ok(front + Tag(fs, CategoryIdFor(names, c.name)))
  }

  /** The concatenation of the files of every category, in category order. */
  function AllFiles(s: Scraper, cats: seq<Category>): seq<ScrapedFile>
    decreases |cats|
  {
    if cats == [] then []
    else
      var c := cats[|cats| - 1];
      AllFiles(s, cats[..|cats| - 1]) + (if s.files(c.id).Ok? then s.files(c.id).value else [])
  }

  /** For each file of `AllFiles`, the index of the category it came from:
      categories in order, so the indices never decrease. */
  function Origins(s: Scraper, cats: seq<Category>): (r: seq<nat>)
    ensures |r| == |AllFiles(s, cats)|
    ensures forall k :: 0 <= k < |r| ==>
      && r[k] < |cats| && s.files(cats[r[k]].id).Ok? && AllFiles(s, cats)[k] in s.files(cats[r[k]].id).value
    ensures forall j, k :: 0 <= j <= k < |r| ==> r[j] <= r[k]
    decreases |cats|
  {
    if cats == [] then []
    else
      var n := |cats| - 1;
      var front := cats[..n];
      var c := cats[n];
      var fs := if s.files(c.id).Ok? then s.files(c.id).value else [];
      var o := Origins(s, front);
      assert forall k :: 0 <= k < |o| ==> front[o[k]] == cats[o[k]];
      assert AllFiles(s, cats) == AllFiles(s, front) + fs;
      o + seq(|fs|, _ => n)
  }

  /** When no fetch raises, the gathered files are the files of the
      categories in order, and each carries the stored id of its category's
      name, or None when no stored row has that name. */
  lemma {:induction false} GatherIsConcatenation(s: Scraper, cats: seq<Category>, names: map<string, int>)
    requires forall i :: 0 <= i < |cats| ==> s.files(cats[i].id).Ok?
    ensures Gather(s, cats, names).Ok?
    ensures |Gather(s, cats, names).value| == |AllFiles(s, cats)|
    ensures forall k :: 0 <= k < |AllFiles(s, cats)| ==>
      && Gather(s, cats, names).value[k].file == AllFiles(s, cats)[k]
      && Gather(s, cats, names).value[k].categoryId == CategoryIdFor(names, cats[Origins(s, cats)[k]].name)
    decreases |cats|
  {
    if cats != [] {
      var n := |cats| - 1;
      var front := cats[..n];
      assert forall i :: 0 <= i < |front| ==> front[i] == cats[i];
      GatherIsConcatenation(s, front, names);
      var o := Origins(s, front);
      assert forall k :: 0 <= k < |o| ==> front[o[k]] == cats[o[k]];
    }
  }

  /** One more category appends its own files, each tagged with the stored
      id of that category's name. */
  lemma GatherSnoc(s: Scraper, cats: seq<Category>, c: Category, names: map<string, int>)
    requires Gather(s, cats, names).Ok? && s.files(c.id).Ok?
    ensures Gather(s, cats + [c], names)
         == Ok(Gather(s, cats, names).value + Tag(s.files(c.id).value, CategoryIdFor(names, c.name)))
  {
    assert (cats + [c])[..|cats|] == cats;
  }

  /** A fetch that raises makes the whole gathering raise. */
  lemma {:induction false} GatherFails(s: Scraper, cats: seq<Category>, names: map<string, int>, i: nat)
    requires i < |cats| && s.files(cats[i].id).Err?
    ensures Gather(s, cats, names).Err?
    decreases |cats|
  {
    if i < |cats| - 1 {
      var front := cats[..|cats| - 1];
      assert front[i] == cats[i];
      GatherFails(s, front, names, i);
    }
  }

  /** The loop over the categories that fetches and tags their files. */
  method GatherFiles(s: Scraper, cats: seq<Category>, names: map<string, int>) returns (r: Result<seq<Tagged>>)
    ensures r == Gather(s, cats, names)
  {
    var all: seq<Tagged> := [];
    for i := 0 to |cats|
      invariant Gather(s, cats[..i], names) == Ok(all)
    {
      assert cats[..i + 1][..i] == cats[..i];
      var c := cats[i];
      var dbCategoryId := CategoryIdFor(names, c.name);
      var files := s.files(c.id);
      if files.Err? {
        assert Gather(s, cats[..i + 1], names).Err?;
        r := Err(files.msg);
        GatherPrefixFails(s, cats, names, i + 1);
        return;
      }
      all := all + Tag(files.value, dbCategoryId);
    }
    assert cats[..|cats|] == cats;
    r := Ok(all);
  }

  /** Once a prefix raises, every longer prefix raises with the same text. */
  lemma {:induction false} GatherPrefixFails(s: Scraper, cats: seq<Category>, names: map<string, int>, i: nat)
    requires i <= |cats| && Gather(s, cats[..i], names).Err?
    ensures Gather(s, cats, names) == Gather(s, cats[..i], names)
    decreases |cats| - i
  {
    if i < |cats| {
      assert cats[..i + 1][..i] == cats[..i];
      GatherPrefixFails(s, cats, names, i + 1);
    } else {
      assert cats[..i] == cats;
    }
  }

  function DbFileOf(t: Tagged): DbFile {
    DbFile(t.file.name, t.file.url, t.categoryId, t.file.size, t.file.fileType)
  }

  /** `db_files`: one row per gathered file, in order. */
  function DbFiles(files: seq<Tagged>): (r: seq<DbFile>)
    ensures |r| == |files|
    ensures forall k :: 0 <= k < |r| ==> r[k].url == files[k].file.url && r[k].categoryId == files[k].categoryId
  {
    seq(|files|, k requires 0 <= k < |files| => DbFileOf(files[k]))
  }

  method BuildDbFiles(files: seq<Tagged>) returns (db: seq<DbFile>)
    ensures db == DbFiles(files)
  {
    db := [];
    for k := 0 to |files|
      invariant db == DbFiles(files[..k])
    {
      assert DbFiles(files[..k + 1]) == DbFiles(files[..k]) + [DbFileOf(files[k])];
      db := db + [DbFileOf(files[k])];
    }
    assert files[..|files|] == files;
  }

  /** `add_or_update_file` for each row in turn: the remote-file table is
      keyed by URL, so a later row with the same URL wins. */
  function Upsert(store: map<string, (int, DbFile)>, siteId: int, files: seq<DbFile>): (r: map<string, (int, DbFile)>)
    ensures forall u :: u in r <==> u in store || exists k :: 0 <= k < |files| && files[k].url == u
    ensures forall u :: u in store && (forall k :: 0 <= k < |files| ==> files[k].url != u) ==> r[u] == store[u]
    decreases |files|
  {
    if files == [] then store
    else
      var front := files[..|files| - 1];
      assert forall k :: 0 <= k < |front| ==> front[k] == files[k];
      var f := files[|files| - 1];
      Upsert(store, siteId, front)[f.url := (siteId, f)]
  }

  // ------------------------------------------------------ the scan

  /** How far a scan gets before the file write. */
  datatype Stage =
    | Stopped(error: string)
      // site unknown, no scraper, or `get_categories` raised: nothing written
    | FilesFailed(cats: seq<Category>, db: seq<DbCategory>, error: string)
      // the categories were written, then a file fetch raised
    | Ready(cats: seq<Category>, db: seq<DbCategory>, files: seq<Tagged>)
      // everything up to the file write succeeded

  function NotFound(siteId: int): string {
    "Site with ID " + IntToString(siteId) + " not found"
  }

  function NoScraper(scraperType: string): string {
    "No scraper available for type: " + scraperType
  }

  /** The text of the AttributeError that the call to the missing method
      `add_or_update_files` raises. */
  const MissingBulkWrite: string := "'RemoteFileModel' object has no attribute 'add_or_update_files'"

  function Prepare(site: Option<Site>, siteId: int, create: (string, string) -> Option<Scraper>,
                   rows: seq<StoredCategory>): Stage
  {
    if site.None? then Stopped(NotFound(siteId))
    else if create(site.value.scraperType, site.value.url).None? then Stopped(NoScraper(site.value.scraperType))
    else
      var s := create(site.value.scraperType, site.value.url).value;
      match s.categories
      case Err(m) => Stopped(m)
      case Ok(cats) =>
        var db := DbCategories(cats);
        match Gather(s, cats, NameIds(rows))
        case Err(m) => FilesFailed(cats, db, m)
        case Ok(files) => Ready(cats, db, files)
  }

  /** The store rows for the site's categories once the scan ends: replaced
      as soon as the categories have been fetched, never rolled back. */
  function CategoriesAfter(stage: Stage, siteId: int, before: map<int, seq<DbCategory>>): map<int, seq<DbCategory>> {
    match stage
    case Stopped(_) => before
    case FilesFailed(_, db, _) => before[siteId := db]
    case Ready(_, db, _) => before[siteId := db]
  }

  /** The result of the scan as written: a ready scan still fails, on the
      call to the missing bulk write. */
  function AsWrittenResult(siteId: int, stage: Stage): (r: ScanResult)
    ensures !r.success && r.error.Some? && r.files == [] && r.filesAdded == 0
  {
    match stage
    case Stopped(e) => ScanResult(false, siteId, [], [], Some(e), 0, 0)
    case FilesFailed(cats, db, e) => ScanResult(false, siteId, cats, [], Some(e), |db|, 0)
    case Ready(cats, db, _) => ScanResult(false, siteId, cats, [], Some(MissingBulkWrite), |db|, 0)
  }

  /** The result with the files written one by one through
      `add_or_update_file`, the method the remote-file table has. */
  function IntendedResult(siteId: int, stage: Stage): (r: ScanResult)
    ensures r.success <==> stage.Ready?
    ensures stage.Ready? ==> r.files == stage.files && r.error.None? && r.filesAdded == |stage.files|
  {
    match stage
    case Stopped(e) => ScanResult(false, siteId, [], [], Some(e), 0, 0)
    case FilesFailed(cats, db, e) => ScanResult(false, siteId, cats, [], Some(e), |db|, 0)
    case Ready(cats, db, files) => ScanResult(true, siteId, cats, files, None, |db|, |files|)
  }

  /** The scan never succeeds as written, so the last-scan date is never
      updated; yet once the categories are fetched they are replaced. */
  lemma AsWrittenNeverSucceeds(site: Option<Site>, siteId: int, create: (string, string) -> Option<Scraper>,
                               rows: seq<StoredCategory>)
    requires site.Some? && create(site.value.scraperType, site.value.url).Some?
    requires create(site.value.scraperType, site.value.url).value.categories.Ok?
    requires forall i :: 0 <= i < |create(site.value.scraperType, site.value.url).value.categories.value| ==>
      create(site.value.scraperType, site.value.url).value.files(
        create(site.value.scraperType, site.value.url).value.categories.value[i].id).Ok?
    ensures var stage := Prepare(site, siteId, create, rows);
      && stage.Ready?
      && AsWrittenResult(siteId, stage).error == Some(MissingBulkWrite)
      && IntendedResult(siteId, stage).success
  {
    var s := create(site.value.scraperType, site.value.url).value;
    GatherIsConcatenation(s, s.categories.value, NameIds(rows));
  }

  /** The first two exits write nothing; a scan stops with the categories
      replaced exactly from the point where `get_categories` returned. */
  lemma EarlyExits(site: Option<Site>, siteId: int, create: (string, string) -> Option<Scraper>,
                   rows: seq<StoredCategory>)
    ensures site.None? ==> Prepare(site, siteId, create, rows) == Stopped(NotFound(siteId))
    ensures site.Some? && create(site.value.scraperType, site.value.url).None? ==>
      Prepare(site, siteId, create, rows) == Stopped(NoScraper(site.value.scraperType))
    ensures Prepare(site, siteId, create, rows).Stopped? <==>
      || site.None?
      || create(site.value.scraperType, site.value.url).None?
      || create(site.value.scraperType, site.value.url).value.categories.Err?
  {
  }

  /** The scanner over its three tables. */
  class Scanner {
    var sites: map<int, Site>
    var categoryRows: map<int, seq<DbCategory>>
    /** The remote-file table keyed by URL: the owning site id and the row. */
    var remoteFiles: map<string, (int, DbFile)>

    constructor(sites: map<int, Site>, categoryRows: map<int, seq<DbCategory>>,
                remoteFiles: map<string, (int, DbFile)>)
      ensures this.sites == sites && this.categoryRows == categoryRows && this.remoteFiles == remoteFiles
    {
      this.sites := sites;
      this.categoryRows := categoryRows;
      this.remoteFiles := remoteFiles;
    }

    /** Everything up to the file write; the category table is replaced once
        the categories are fetched. */
    method Run(siteId: int, create: (string, string) -> Option<Scraper>, rows: seq<StoredCategory>)
      returns (stage: Stage)
      modifies this
      ensures stage == Prepare(if siteId in old(sites) then Some(old(sites)[siteId]) else None, siteId, create, rows)
      ensures categoryRows == CategoriesAfter(stage, siteId, old(categoryRows))
      ensures sites == old(sites) && remoteFiles == old(remoteFiles)
    {
      if siteId !in sites {
        return Stopped(NotFound(siteId));
      }
      var site := sites[siteId];
      var scraper := create(site.scraperType, site.url);
      if scraper.None? {
        return Stopped(NoScraper(site.scraperType));
      }
      var s := scraper.value;
      if s.categories.Err? {
        return Stopped(s.categories.msg);
      }
      var cats := s.categories.value;
      var db := BuildDbCategories(cats);
      categoryRows := categoryRows[siteId := db];
      var names := NameIds(rows);
      var files := GatherFiles(s, cats, names);
      if files.Err? {
        return FilesFailed(cats, db, files.msg);
      }
      return Ready(cats, db, files.value);
    }

    /** `scan_site` as written: the file write calls a method the remote-file
        table does not have, so a scan that gets that far fails there, and
        nothing after it (the last-scan date) happens. */
    method ScanSite(siteId: int, create: (string, string) -> Option<Scraper>, rows: seq<StoredCategory>)
      returns (result: ScanResult)
      modifies this
      ensures var stage := Prepare(if siteId in old(sites) then Some(old(sites)[siteId]) else None,
                                   siteId, create, rows);
        && result == AsWrittenResult(siteId, stage)
        && categoryRows == CategoriesAfter(stage, siteId, old(categoryRows))
      ensures sites == old(sites) && remoteFiles == old(remoteFiles)
    {
      var stage := Run(siteId, create, rows);
      result := AsWrittenResult(siteId, stage);
      if stage.Ready? {
        var dbFiles := BuildDbFiles(stage.files);
        // `add_or_update_files` does not exist: AttributeError
      }
    }

    /** The scan with each file row written through `add_or_update_file`;
        only then is the last-scan date set to `now`. */
    method ScanSiteIntended(siteId: int, create: (string, string) -> Option<Scraper>, rows: seq<StoredCategory>,
                            now: string)
      returns (result: ScanResult)
      modifies this
      ensures var stage := Prepare(if siteId in old(sites) then Some(old(sites)[siteId]) else None,
                                   siteId, create, rows);
        && result == IntendedResult(siteId, stage)
        && categoryRows == CategoriesAfter(stage, siteId, old(categoryRows))
        && (stage.Ready? ==>
              && remoteFiles == Upsert(old(remoteFiles), siteId, DbFiles(stage.files))
              && sites == old(sites)[siteId := old(sites)[siteId].(lastScan := Some(now))])
        && (!stage.Ready? ==> remoteFiles == old(remoteFiles) && sites == old(sites))
    {
      var stage := Run(siteId, create, rows);
      result := IntendedResult(siteId, stage);
      if stage.Ready? {
        var dbFiles := BuildDbFiles(stage.files);
        for k := 0 to |dbFiles|
          invariant remoteFiles == Upsert(old(remoteFiles), siteId, dbFiles[..k])
          invariant sites == old(sites) && categoryRows == CategoriesAfter(stage, siteId, old(categoryRows))
        {
          assert dbFiles[..k + 1][..k] == dbFiles[..k];
          remoteFiles := remoteFiles[dbFiles[k].url := (siteId, dbFiles[k])];
        }
        assert dbFiles[..|dbFiles|] == dbFiles;
        sites := sites[siteId := sites[siteId].(lastScan := Some(now))];
      }
    }
  }
}
