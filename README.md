# pdf-downloader, modelled in Dafny

pdf-downloader is a desktop application that scans web sites for
downloadable documents (PDF, EPUB, text), compares what a site offers with
a local library, queues and downloads the missing, changed or damaged
files, and keeps a history of downloads. This project models the
decision-making core of that application and proves what its operations
promise. The database tables, the network, the file system, the HTML
parser, the document libraries, the clock and Python's import machinery
are not modelled: they become maps, oracle functions or sequences of
outcomes passed in as parameters.

One Dafny module stands for each core source file:

- `DownloadManager` (src/core/download_manager.py): the queue of downloads.
  It holds an insertion-ordered table of entries and a FIFO queue of ids,
  and one pass of the worker thread is the step `ProcessNext`.
- `FileComparison` (src/core/file_comparison.py): sorts remote records into
  new, updated, corrupted and ok files, builds the download list, and links
  or unlinks local records.
- `FileDownloader` (src/core/file_downloader.py): the destination path, the
  bounded retry loop, the chunk and progress loop, and the removal of a
  partial file.
- `Downloader` (src/core/downloader.py): the single-shot downloader and its
  error texts.
- `DirectoryScanner` (src/core/directory_scanner.py): the scan of a local
  directory, with its counters, progress reports and cancellation.
- `SiteScanner` (src/core/site_scanner.py): the scan of a remote site, with
  its category rows, parent references, file tagging and store writes.
- `FileValidator` (src/core/file_validator.py): dispatch by file type, and
  the shapes of the PDF, EPUB and text verdicts.
- `MarkdownValidator` (src/plugins/file_types/markdown_validator.py): line
  sampling, the title and the header count.
- `Plugins` (src/plugins/__init__.py): the plugin manager, its registration
  and its discovery over a list of modules.
- `FileTypes` (src/plugins/file_types/__init__.py): file-type validators,
  the extension map and the singleton manager.
- `Scrapers`, `ScraperPlugins` and `ScraperRegistry`: the scraper base
  class, the scraper plugin manager (src/plugins/scrapers/__init__.py) and
  the scraper registry (src/scrapers/registry.py).
- `GenericScraper` (src/scrapers/generic_scraper.py): link filtering over
  a page.
- `SettingsModel` (src/db/settings_model.py): the settings table, its
  defaults and its value codec.
- `FileUtils` and `FileUtilsTests` (src/utils/file_utils.py and
  tests/test_file_utils.py): file metadata, the PDF test and the directory
  scan, with the test suite's tree.
- `NetworkUtils` (src/utils/network_utils.py): proxy settings and the
  request defaults of `get` and `post`.
- `HistoryFilter` (src/gui/download_history_tab.py): the filter of
  `apply_filters`.
- Support modules:
  - `Wrappers` defines `Option` and `Result`.
  - `Strings` holds the `str`, `os.path` and `pathlib` operations the
    code uses.
  - `OrderedDict` models Python's insertion-ordered `dict`.

Python classes whose attributes the code updates are Dafny classes. Their
methods are proved against functions of the old state. Loops are methods
with invariants, proved equal to recursive functions. The properties are
stated as lemmas about those functions.

## Model

| member | source | states |
|---|---|---|
| Plugins.RegisterFacts | src/plugins/__init__.py:70-81 | registration succeeds exactly for subclasses of the base class; afterwards the id gives the class and every other id gives what it gave before; an id already present keeps its position and a new id goes last; a refused class leaves the dict alone and the TypeError text names the base class and the class |
| Plugins.RegisterAttrs | src/plugins/__init__.py:57-66 | registering the classes of one module keeps every id already present and adds or replaces entries only with proper subclasses of the base class |
| Plugins.LoadModule | src/plugins/__init__.py:45-68 | one file of the plugin directory changes the dict only by proper subclasses of the base class; a skipped file or an import that raises leaves it as it was |
| Plugins.Discovered | src/plugins/__init__.py:45-68 | discovery over the whole directory keeps every id already registered and adds only proper subclasses of the base class |
| Plugins.DiscoveredAppend | src/plugins/__init__.py:45-68 | discovery over two lists of files is discovery over the first and then over the second |
| Plugins.FailingModuleSkipped | src/plugins/__init__.py:46-47 | a file skipped by its name, or whose import raises (lines 67-68), has no effect: discovery goes on as if it were not there |
| Plugins.RegisterAttrsFinds | src/plugins/__init__.py:57-66 | every proper subclass of the base class among a module's attributes is registered, under its id attribute or else the module name |
| Plugins.DiscoveredFinds | src/plugins/__init__.py:45-66 | every proper subclass in a file that is not skipped and imports is registered by discovery, under `PLUGIN_ID` or else the module name |
| Plugins.ExtendsKeepsDerive | src/plugins/__init__.py:77-80 | since only subclasses are ever added, every registered class derives from the base class before and after discovery |
| Plugins.DiscoverInto | src/plugins/__init__.py:45-68 | the loop over the files computes `Discovered` |
| Plugins.RegisterEach | src/plugins/__init__.py:57-66 | the loop over a module's attributes computes `RegisterAttrs` |
| Plugins.PluginManager.constructor | src/plugins/__init__.py:22-31 | a new manager has the given directory and base class and no plugins |
| Plugins.PluginManager.RegisterPlugin | src/plugins/__init__.py:70-81 | the plugin dict becomes the registration result, or the TypeError text is returned and nothing changes; every registered class still derives from the base |
| Plugins.PluginManager.GetPlugin | src/plugins/__init__.py:83-92 | the class registered under the id, None exactly when the id is not registered |
| Plugins.PluginManager.GetAllPlugins | src/plugins/__init__.py:94-100 | a copy with the same ids in the same order and the same classes |
| Plugins.PluginManager.DiscoverPlugins | src/plugins/__init__.py:33-68 | the plugins become discovery over the directory's files, skipping names that start with "__" and using `PLUGIN_ID`; every class still derives from the base |
| Scrapers.CreateScraper | src/scrapers/registry.py:65-86 | `create_scraper`: the class registered for the type called with the base URL and the keyword arguments; None for an unregistered type or a raising constructor (its properties: `Scrapers.CreateScraperFacts`) |
| Scrapers.CreateScraperFacts | src/scrapers/registry.py:65-86 | an unregistered type gives None, with no fallback; a registered type gives an instance of its class built from the base URL and the keyword arguments, unless its constructor raises, which gives None |
| ScraperPlugins.ScraperPluginManager.constructor | src/plugins/scrapers/__init__.py:31-36 | the first initialisation makes an empty manager over "src/plugins/scrapers" whose base class is `BaseScraper` |
| ScraperPlugins.CreatedScrapersDerive | src/plugins/scrapers/__init__.py:38-59 | a scraper created by the plugin manager is of a class deriving from `BaseScraper`, built with the base URL |
| ScraperPlugins.ScraperPluginManagerClass.constructor | src/plugins/scrapers/__init__.py:22 | no manager exists before the first construction |
| ScraperPlugins.ScraperPluginManagerClass.Construct | src/plugins/scrapers/__init__.py:24-36 | the first call builds and initialises the manager; every later call returns the same manager and leaves its plugins as they are |
| ScraperRegistry.Registry.constructor | src/scrapers/registry.py:27-39 | the first construction gives an empty, initialised registry |
| ScraperRegistry.Registry.RegisterScraper | src/scrapers/registry.py:41-52 | the dict becomes the registration result with the "Scraper" message, or the TypeError text is returned and nothing changes |
| ScraperRegistry.Registry.GetScraperClass | src/scrapers/registry.py:54-63 | the class registered for the type, None exactly when the type is not registered |
| ScraperRegistry.Registry.CreateScraper | src/scrapers/registry.py:65-86 | the registry's `create_scraper` over its scraper dictionary (its properties: `Scrapers.CreateScraperFacts`, `ScraperRegistry.GenericAfterBuiltin`) |
| ScraperRegistry.Registry.GetAvailableScrapers | src/scrapers/registry.py:88-94 | a copy with the same types in the same order and the same classes |
| ScraperRegistry.RegistryClass.constructor | src/scrapers/registry.py:25 | no registry exists before the first construction |
| ScraperRegistry.RegistryClass.Construct | src/scrapers/registry.py:27-39 | the first call builds an empty registry; later calls return the same registry without clearing it |
| ScraperRegistry.LoadScrapers | src/scrapers/registry.py:97-129 | the singleton's dict becomes discovery over the modules, skipping `__init__.py` and `base_scraper.py` and using `SCRAPER_TYPE` or the module name, starting from what it held before |
| ScraperRegistry.RegisterBuiltinScrapers | src/scrapers/registry.py:133-139 | the singleton's dict gains "generic" mapped to `GenericScraper`, everything else kept |
| ScraperRegistry.GenericAfterBuiltin | src/scrapers/registry.py:76-86 | after the built-in registration "generic" creates a generic scraper unless its constructor raises, and an unregistered type still gives None |
| ScraperRegistry.GenericModuleRegistersGeneric | src/scrapers/registry.py:124-127 | loading the generic scraper's module registers it under "generic", its `SCRAPER_TYPE` |
| GenericScraper.GetCategories | src/scrapers/generic_scraper.py:27-40 | exactly one category, id "default", name "Default", at the base URL, without a parent |
| GenericScraper.PageUrl | src/scrapers/generic_scraper.py:57 | the page scanned: the base URL for the "default" category, else the category id as a URL |
| GenericScraper.IsPdfHref | src/scrapers/generic_scraper.py:71 | a PDF link ends with ".pdf" in any case (`GenericScraper.UpperCasePdfIsKept`) |
| GenericScraper.FileName | src/scrapers/generic_scraper.py:76 | the stripped link text when it is not blank; otherwise a "/"-free end of the href, preceded by a "/" unless it is the whole href |
| GenericScraper.Kept | src/scrapers/generic_scraper.py:66-89 | no more files than links, each with its URL as id, no size, type "pdf" and the requested category |
| GenericScraper.KeptAppend | src/scrapers/generic_scraper.py:66-89 | links are kept one by one: the files of a list of links are those of its first part followed by those of the rest |
| GenericScraper.FilesInCategory | src/scrapers/generic_scraper.py:42-91 | a page that cannot be fetched or parsed gives no files; otherwise at most one file per link, each with its URL as id, no size, type "pdf" and the category asked for |
| GenericScraper.OneLink | src/scrapers/generic_scraper.py:66-86 | one link gives one file exactly when its href is non-empty and ends in ".pdf" in any case; its URL is the href resolved against the page and its name is the stripped link text, or the last "/" segment of the href when the text is blank |
| GenericScraper.UpperCasePdfIsKept | src/scrapers/generic_scraper.py:71 | an href ending in ".PDF" passes the PDF test |
| GenericScraper.GetFilesInCategory | src/scrapers/generic_scraper.py:42-91 | the loop gives the kept links' files of the category's page, in link order, and no files when the page cannot be fetched or parsed |
| GenericScraper.GetDownloadUrl | src/scrapers/generic_scraper.py:93-104 | the download URL is the file id |
| FileTypes.CanValidate | src/plugins/file_types/__init__.py:27-38 | `can_validate`: the lowered extension of the path against the declared `EXTENSIONS` as written (its consequence: `FileTypes.UpperCaseDeclarationNeverMatches`) |
| FileTypes.UpperCaseDeclarationNeverMatches | src/plugins/file_types/__init__.py:27-38 | `can_validate` compares the lowercased extension with the extensions as declared, so a class declaring only ".PDF" validates no path at all |
| FileTypes.Lowered | src/plugins/file_types/__init__.py:81-82 | each declared extension, lowercased, in declaration order |
| FileTypes.AddExtensions | src/plugins/file_types/__init__.py:81-82 | adding one plugin's extensions keeps the map well formed |
| FileTypes.AddExtensionsFacts | src/plugins/file_types/__init__.py:81-82 | after one plugin's extensions, a key is present exactly when it was before or the plugin declares it in some case; the plugin's extensions map to its id and every other key keeps its id |
| FileTypes.ExtensionMap | src/plugins/file_types/__init__.py:76-82 | the map built over the first plugins in insertion order is well formed |
| FileTypes.ExtMap | src/plugins/file_types/__init__.py:76-82 | the map rebuilt from scratch over all plugins is well formed |
| FileTypes.LaterDeclarerWins | src/plugins/file_types/__init__.py:80-82 | an extension declared by some plugin is in the map, and maps to that plugin or to a later one in insertion order that also declares it: on a collision the last declarer wins |
| FileTypes.MappedIsDeclared | src/plugins/file_types/__init__.py:80-82 | every key of the map is declared, in some case, by the plugin whose id it maps to |
| FileTypes.SupportedExtensionsAreDeclared | src/plugins/file_types/__init__.py:139-145 | the supported extensions are exactly the lowercased extensions some plugin declares, each listed once |
| FileTypes.ReRegisterDoesNotWin | src/plugins/file_types/__init__.py:84-92 | re-registering an id keeps its position, so a later plugin that declares the same extension keeps it even though the new class declares it too |
| FileTypes.ValidatorForFile | src/plugins/file_types/__init__.py:94-118 | `get_validator_for_file`: the plugin mapped to the lowered extension, instantiated with no arguments; None for an unmapped extension, an unknown id or a raising constructor (its properties: `FileTypes.ValidatorForFileFacts`) |
| FileTypes.ValidatorForFileFacts | src/plugins/file_types/__init__.py:94-118 | a validator found for a file is a new instance, built with no arguments, of a plugin that declares the file's lowercased extension and whose constructor does not raise, and no plugin after it in insertion order declares that extension; when no plugin declares it the result is None; every declared extension is mapped |
| FileTypes.LastDeclarerWins | src/plugins/file_types/__init__.py:80-82 | a mapped extension maps to a plugin that declares it, and no plugin later in insertion order declares it |
| FileTypes.FirstOfType | src/plugins/file_types/__init__.py:129-130 | the position of the first plugin, in insertion order, whose `FILE_TYPE` is the type; no earlier plugin has it; None exactly when no plugin has it |
| FileTypes.ValidatorForType | src/plugins/file_types/__init__.py:120-137 | a validator found is a no-argument instance of a registered plugin of that `FILE_TYPE` whose constructor did not raise; when no plugin has the type the result is None |
| FileTypes.SupportedTypes | src/plugins/file_types/__init__.py:147-153 | a type is supported exactly when it is non-empty and some plugin declares it; no more types than plugins |
| FileTypes.BuildExtensionMap | src/plugins/file_types/__init__.py:78-82 | the outer loop computes the map of all plugins |
| FileTypes.AddEach | src/plugins/file_types/__init__.py:81-82 | the inner loop computes one plugin's additions |
| FileTypes.FileTypePluginManager.constructor | src/plugins/file_types/__init__.py:67-74 | the first initialisation makes an empty manager over "src/plugins/file_types" with base class `FileTypeValidator`, and its extension map is that of no plugins |
| FileTypes.FileTypePluginManager.UpdateExtensionMap | src/plugins/file_types/__init__.py:76-82 | the extension map becomes the map rebuilt from the current plugins |
| FileTypes.FileTypePluginManager.RegisterPlugin | src/plugins/file_types/__init__.py:84-92 | the plugins become the base registration's result, or the TypeError text is returned and nothing changes; in both cases the extension map is that of the plugins |
| FileTypes.FileTypePluginManager.DiscoverPlugins | src/plugins/__init__.py:33-68 | discovery as in the base manager, and afterwards the extension map is that of the discovered plugins, since each registration goes through the override at src/plugins/file_types/__init__.py:84-92 |
| FileTypes.FileTypePluginManager.GetValidatorForType | src/plugins/file_types/__init__.py:120-137 | the first plugin in insertion order with that `FILE_TYPE`, instantiated; a raising constructor gives None and no later plugin is tried |
| FileTypes.FileTypePluginManagerClass.constructor | src/plugins/file_types/__init__.py:58 | no manager exists before the first construction |
| FileTypes.FileTypePluginManagerClass.Construct | src/plugins/file_types/__init__.py:60-74 | the first call builds the manager; every later call returns the same manager and leaves it as it is |
| MarkdownValidator.Sample | src/plugins/file_types/markdown_validator.py:46 | the comprehension as written, from a line position for a number of iterations (its properties: `MarkdownValidator.SampleLength`, `MarkdownValidator.SampleIsEverySecondLine`) |
| MarkdownValidator.SampleLines | src/plugins/file_types/markdown_validator.py:46 | the comprehension with its two `readline` calls per iteration, over ten iterations, gives `Sample` of the file from its start |
| MarkdownValidator.SampleFor | src/plugins/file_types/markdown_validator.py:46 | the loop of the comprehension gives `Sample` for any number of iterations |
| MarkdownValidator.SampleSampled | src/plugins/file_types/markdown_validator.py:46 | when the filter's line is non-empty, the element is the next line, stripped, and the rest starts two lines later |
| MarkdownValidator.SampleLength | src/plugins/file_types/markdown_validator.py:46 | the sample has one line per iteration while lines remain, and at most half the remaining lines, rounded up |
| MarkdownValidator.SampleIsEverySecondLine | src/plugins/file_types/markdown_validator.py:46 | the j-th sampled line is line 2j+2 of the file (1-based), stripped, or "" past its end: odd lines are never sampled |
| MarkdownValidator.SampleAtLine | src/plugins/file_types/markdown_validator.py:46 | the same from a position that holds a line |
| MarkdownValidator.TitleOf | src/plugins/file_types/markdown_validator.py:49-53 | None exactly when no sampled line starts with "# "; otherwise the first such line without those two characters, stripped |
| MarkdownValidator.FindTitle | src/plugins/file_types/markdown_validator.py:49-53 | the loop that breaks at the first title line computes `TitleOf` |
| MarkdownValidator.Headers | src/plugins/file_types/markdown_validator.py:56-60 | the header count is at most the number of lines |
| MarkdownValidator.HeadersAppend | src/plugins/file_types/markdown_validator.py:56-60 | the header counts of two parts of a file add up |
| MarkdownValidator.HeadersOfOneLine | src/plugins/file_types/markdown_validator.py:59 | a line counts exactly when its stripped text starts with "#", at any header level |
| MarkdownValidator.CountHeaders | src/plugins/file_types/markdown_validator.py:56-60 | the loop over the whole file computes `Headers` |
| MarkdownValidator.Validate | src/plugins/file_types/markdown_validator.py:25-75 | the verdict is `ValidateSpec` with the title of the as-written sample |
| MarkdownValidator.ValidateSpec | src/plugins/file_types/markdown_validator.py:34-75 | type "markdown" and the path always; valid exactly when the file opens and its size is read, and then there is no error and the metadata are the title, the header count and the size; otherwise the exception text is the error and the metadata stay empty |
| MarkdownValidator.FirstLineTitleIsMissed | src/plugins/file_types/markdown_validator.py:46 | a file whose only line is "# Title" gets no title |
| MarkdownValidator.SampleIntended | src/plugins/file_types/markdown_validator.py:46 | the intended sample: the first ten lines (fewer if the file is shorter), stripped |
| MarkdownValidator.IntendedFindsFirstLineTitle | src/plugins/file_types/markdown_validator.py:46-53 | with the intended sample the one-line file gets the title "Title" |
| MarkdownValidator.SampleLinesIntended | src/plugins/file_types/markdown_validator.py:46 | one `readline` per iteration, keeping the non-empty lines, computes the intended sample |
| MarkdownValidator.ValidateIntended | src/plugins/file_types/markdown_validator.py:25-75 | the corrected `validate`: the verdict is `ValidateSpec` with the title of the intended sample |
| FileValidator.ValidatePdf | src/core/file_validator.py:101-151 | type "pdf" and the path always; valid exactly when PyPDF2 is available and parses the file, whatever the page count, and then there is no error and the metadata carry the page count; without PyPDF2 the error is "PyPDF2 library not available"; an invalid verdict has no metadata |
| FileValidator.ValidateEpub | src/core/file_validator.py:153-197 | type "epub"; valid exactly when ebooklib is available and reads the book, and then there is a title exactly when the book has one; without ebooklib the error is "ebooklib library not available"; an invalid verdict has no metadata |
| FileValidator.ValidateText | src/core/file_validator.py:199-243 | type "txt"; valid exactly when the file opens and its first 1 KiB reads, an empty file included, and then the metadata carry the size; without chardet the encoding is "utf-8" with confidence 0 |
| FileValidator.InferType | src/core/file_validator.py:70-82 | ".pdf" gives "pdf", ".epub" gives "epub", ".txt" and ".text" give "txt", and no other extension gives a type |
| FileValidator.Dispatch | src/core/file_validator.py:84-95 | the verdict describes the path, is valid exactly when it has no error, and a valid verdict has a type |
| FileValidator.ValidateFile | src/core/file_validator.py:45-99 | the verdict carries the path; it is valid exactly when it has no error, and a valid verdict has a type; a missing file is invalid with "File does not exist" and the type as passed |
| FileValidator.MissingFile | src/core/file_validator.py:65-67 | a path that is not a file is invalid with "File does not exist", with the type as passed |
| FileValidator.InferenceMatchesExplicit | src/core/file_validator.py:70-82 | without a type, a supported extension validates as if its type had been passed; any other extension is refused with "Unsupported file extension: " and the extension, and no type |
| FileValidator.ExplicitTypeDispatch | src/core/file_validator.py:86-95 | "pdf", "epub" and "txt" go to their checks; any other type is refused with "Unsupported file type: " and the type, with no fallback |
| FileValidator.VerdictShape | src/core/file_validator.py:45-99 | every verdict describes the given path, is valid exactly when it carries no error, and is valid only for an existing file with a type |
| DirectoryScanner.KindOf | src/core/directory_scanner.py:100-102 | `SUPPORTED_EXTENSIONS.get(ext.lower())` for the extension `os.path.splitext` gives (its properties: `DirectoryScanner.KindOfJoin`, `DirectoryScanner.CandidatesSupported`) |
| DirectoryScanner.KindOfJoin | src/core/directory_scanner.py:76-78 | a plain file name joined to its directory keeps its type, so the test on the name (line 77) and the lookup on the path (line 102) agree |
| DirectoryScanner.InDir | src/core/directory_scanner.py:74-79 | no more files are collected from a directory than it has names |
| DirectoryScanner.InDirSupported | src/core/directory_scanner.py:74-79 | every path collected from one directory has a supported extension |
| DirectoryScanner.CandidatesSupported | src/core/directory_scanner.py:72-79 | every collected path has a supported extension, so the type lookup at line 102 always finds one |
| DirectoryScanner.CollectDir | src/core/directory_scanner.py:74-79 | the inner loop computes the supported files of one directory, joined to its path |
| DirectoryScanner.CollectFiles | src/core/directory_scanner.py:72-79 | the walk loop computes the supported files of the walk, in walk order |
| DirectoryScanner.Bump | src/core/directory_scanner.py:138 | the type's count goes up by one from its old value or 0, and every other count stays |
| DirectoryScanner.ProgressCalls | src/core/directory_scanner.py:96-97 | one progress call per processed file |
| DirectoryScanner.Step | src/core/directory_scanner.py:99-142 | the body of the loop for one file (its properties: `DirectoryScanner.StepCounts`, `DirectoryScanner.StepStore`) |
| DirectoryScanner.Process | src/core/directory_scanner.py:89-142 | the processing loop from one file on, stopping where a cancel request is seen (its properties: `DirectoryScanner.ProcessCounts`, `DirectoryScanner.ProcessStore`, `DirectoryScanner.ProcessAccepted`) |
| DirectoryScanner.StepCounts | src/core/directory_scanner.py:99-142 | processing one file keeps the three type counts and keeps added plus updated equal to their sum; a file without a type, without a readable size or refused by the validator changes nothing at all, and an accepted file raises added plus updated by exactly one |
| DirectoryScanner.StepStore | src/core/directory_scanner.py:99-135 | processing one file keeps every row's id and remote id and changes no row but that file's; a file that is not accepted leaves the table as it was; an accepted file has a row afterwards with its size and type, and a new row only ever belongs to an accepted file |
| DirectoryScanner.ProcessCounts | src/core/directory_scanner.py:89-142 | over the loop the counts stay consistent and bounded by the files processed; the loop is cancelled exactly when the cancel request comes before the end; the progress calls are `(i, n, path)` for each processed file |
| DirectoryScanner.ProcessStore | src/core/directory_scanner.py:89-142 | over the loop every row keeps its id and remote id, and each new row belongs to a remaining file with a supported type, a readable size and the validator's approval |
| DirectoryScanner.StopAt | src/core/directory_scanner.py:89-93 | the loop stops before the end exactly when a cancel request is seen before some file |
| DirectoryScanner.CountAccepted | src/core/directory_scanner.py:99-138 | the number of accepted files never exceeds the number of files |
| DirectoryScanner.ProcessAccepted | src/core/directory_scanner.py:89-142 | from any point of the loop to where it stops, added plus updated rises by exactly the number of accepted files processed; each of those ends with a row holding its size and type; every other row is exactly as it was |
| DirectoryScanner.ScanSpec | src/core/directory_scanner.py:39-153 | a whole scan: the result dictionary, the progress calls and the table afterwards (its properties: `DirectoryScanner.ScanFacts`) |
| DirectoryScanner.ScanFacts | src/core/directory_scanner.py:39-153 | a missing root fails with "Directory ... does not exist", all counts 0, no type counts, no progress calls and the table untouched; otherwise the scan succeeds even when cancelled, with the three type counts, added plus updated equal to their sum and exactly the number of processed files that were accepted (a type, a readable size and the validator's approval), every found file supported, the progress calls for each processed file and a final `(n, n, "")` unless cancelled; every accepted processed file has a row with its size and type, keeping an existing row's id and remote id, and every other row is exactly as before |
| DirectoryScanner.ScanAccepted | src/core/directory_scanner.py:72-142 | over a scan of an existing root, added plus updated is exactly the number of processed files that were accepted; each of those has a row with its size and type; every other row is exactly as before |
| DirectoryScanner.Scanner.constructor | src/core/directory_scanner.py:33-37 | a new scanner has no cancel request and the given table |
| DirectoryScanner.Scanner.CancelScan | src/core/directory_scanner.py:155-158 | the cancel flag is set and nothing else changes |
| DirectoryScanner.Scanner.ProcessFile | src/core/directory_scanner.py:99-142 | the body for one file gives the counters and the table of `Step`, and leaves the cancel flag alone |
| DirectoryScanner.Scanner.ScanDirectory | src/core/directory_scanner.py:39-153 | the result, the progress calls and the new table are those of `ScanSpec`, and the cancel flag ends as the result's `cancelled` |
| FileUtils.GetFileMetadata | src/utils/file_utils.py:13-33 | `get_file_metadata` (its properties: `FileUtils.MetadataFacts`, `FileUtils.ExtensionFacts`) |
| FileUtils.IsValidPdf | src/utils/file_utils.py:36-48 | `is_valid_pdf` (its properties: `FileUtils.IsValidPdfFacts`) |
| FileUtils.ExtensionFacts | src/utils/file_utils.py:29 | the lowercased suffix of a name is empty or a dot and at least one more character, holds no upper-case letter, ends the lowercased name, and is shorter than the name |
| FileUtils.MetadataFacts | src/utils/file_utils.py:13-33 | the name is the path's last part; the extension is the lowercased suffix, of that shape; the MIME type is never empty (unknown becomes "application/octet-stream"); a path that does not exist has size and modification time 0 |
| FileUtils.IsValidPdfFacts | src/utils/file_utils.py:36-48 | a path is a valid PDF exactly when it exists and its metadata extension is ".pdf", whatever the content; its name then has something before ".pdf" |
| FileUtils.FolderEntries | src/utils/file_utils.py:69-87 | one entry per file of a folder |
| FileUtils.Filter | src/utils/file_utils.py:72-74 | the entries whose extension passes the filter, in order (its properties: `FileUtils.FilterMembers`, `FileUtils.FilterAll`, `FileUtils.FilterAppend`) |
| FileUtils.FilterAppend | src/utils/file_utils.py:72-74 | the extension filter works entry by entry: filtering two parts is filtering each |
| FileUtils.FilterSnoc | src/utils/file_utils.py:72-74 | one more entry is kept exactly when its extension passes |
| FileUtils.FilterMembers | src/utils/file_utils.py:72-74 | the filter keeps exactly the entries whose lowercased suffix is one of the listed extensions as written, and all of them when there is no list or an empty one |
| FileUtils.FilterAll | src/utils/file_utils.py:72-74 | without a list, or with an empty one, nothing is dropped |
| FileUtils.FolderEntriesAt | src/utils/file_utils.py:69-87 | the j-th entry of a folder is that of its j-th file |
| FileUtils.WalkEntriesMembers | src/utils/file_utils.py:68-87 | an entry comes from the walk exactly when it is the entry of some file of some folder the walk visits |
| FileUtils.Scan | src/utils/file_utils.py:51-89 | `scan_directory` (its properties: `FileUtils.ScanMembers`, `FileUtils.ScanWithoutFilter`, `FileUtils.ScanDirectory`) |
| FileUtils.ScanMembers | src/utils/file_utils.py:51-89 | an entry is in the scan exactly when the directory exists and is a directory, the entry is that of some file of the walk, and its extension passes the filter |
| FileUtils.WalkEntriesCount | src/utils/file_utils.py:68-87 | one entry per file the walk reports |
| FileUtils.ScanWithoutFilter | src/utils/file_utils.py:51-89 | without a filter every file of the walk gives one entry |
| FileUtils.StrOfPlain | src/utils/file_utils.py:85 | `str` of a non-empty path of plain parts is neither "" nor ".", so only the top folder has the empty category |
| FileUtils.CategoryIsFolder | src/utils/file_utils.py:84-85 | the category of a file is the folder it was found in, joined, and "" at the top |
| FileUtils.ScanEntryShape | src/utils/file_utils.py:77-85 | every entry of a well-formed walk carries its file's name, the folder it was found in as its category, and the folder joined to the name as its relative path |
| FileUtils.EntryMakerFacts | src/utils/file_utils.py:77-85 | an entry is named after its file, has the file's lowercased suffix as its extension, and the category of its relative path |
| FileUtils.ScanDirectory | src/utils/file_utils.py:51-89 | the loops give `Scan`: nothing for a directory that does not exist or is not a directory, otherwise the filtered entries of the walk in walk order |
| FileUtils.KeptInFolderIsFilter | src/utils/file_utils.py:69-87 | the entries kept from one folder are that folder's entries, filtered |
| FileUtils.KeptInFolderSnoc | src/utils/file_utils.py:69-87 | one more file of the folder adds its entry exactly when its extension passes |
| FileUtils.EntryMakerRecordsSuffix | src/utils/file_utils.py:73-77 | the extension recorded for a file is the lowercased suffix the filter tests |
| FileUtils.ScanFolder | src/utils/file_utils.py:69-87 | the inner loop appends the kept entries of one folder to the results |
| FileUtils.ScanFile | src/utils/file_utils.py:70-87 | a file is skipped unless its lowercased suffix passes the filter, and otherwise its entry is appended |
| FileUtilsTests.TestNames | tests/test_file_utils.py:57-66 | the tests' names: "category1" is a plain folder name, "test.txt" and "test.pdf" have the suffixes ".txt" and ".pdf" |
| FileUtilsTests.MetadataOfTestFiles | tests/test_file_utils.py:32-52 | the text file's metadata has its name and the extension ".txt"; the existing PDF is a valid PDF and the text file is not |
| FileUtilsTests.TreeWalkEntries | tests/test_file_utils.py:54-70 | the tests' tree gives the top text file, then the PDF and the text file of the sub-folder |
| FileUtilsTests.TreeScan | tests/test_file_utils.py:72-74 | with [".pdf"] only the sub-folder's PDF remains |
| FileUtilsTests.TreeFileCount | tests/test_file_utils.py:54-70 | the tests' tree holds three files |
| FileUtilsTests.ScanOfTestTree | tests/test_file_utils.py:68-70 | a scan of the tests' tree without a filter finds three files |
| FileUtilsTests.TreeScanOfPdfs | tests/test_file_utils.py:72-74 | a scan of the tests' tree with [".pdf"] gives exactly the entry of the sub-folder's PDF |
| FileUtilsTests.ScanOfTestTreePdfs | tests/test_file_utils.py:72-76 | that scan finds one file, named as the PDF, whose category is the sub-folder |
| SettingsModel.Seed | src/db/settings_model.py:157-177 | the insert loop of `_ensure_default_settings` (its properties: `SettingsModel.SeedKeys`, `SettingsModel.SeedNoop`, `SettingsModel.SeedIdempotent`, `SettingsModel.SeedEmpty`) |
| SettingsModel.SeedKeys | src/db/settings_model.py:157-177 | seeding never overwrites an existing row, and a key is present afterwards exactly when it was before or is one of the list's keys |
| SettingsModel.SeedNoop | src/db/settings_model.py:157-177 | a table that already holds every key of the list is left unchanged |
| SettingsModel.SeedIdempotent | src/db/settings_model.py:157-177 | seeding twice is seeding once |
| SettingsModel.SeedEmpty | src/db/settings_model.py:157-177 | seeded into an empty table, a list with distinct keys gives every key its own value, category and description |
| SettingsModel.DefaultKeysDistinct | src/db/settings_model.py:31-155 | the keys of the default list are pairwise distinct |
| SettingsModel.DefaultsDistinct | src/db/settings_model.py:31-155 | there are 19 default settings with distinct keys |
| SettingsModel.DefaultTable | src/db/settings_model.py:384-401 | after a reset the table holds exactly the 19 default keys, each with its default row |
| SettingsModel.Decode | src/db/settings_model.py:196-224 | the decoding of a stored text by `get` (its properties: `SettingsModel.DecodeIgnoresCase`, `SettingsModel.BoolRoundTrip`, `SettingsModel.IntRoundTrip`) |
| SettingsModel.Encode | src/db/settings_model.py:242-248 | the encoding of a value by `set` (its properties: `SettingsModel.BoolRoundTrip`, `SettingsModel.IntRoundTrip`) |
| SettingsModel.DecodeIgnoresCase | src/db/settings_model.py:200-203 | "TRUE" reads back as True and "False" as False |
| SettingsModel.BoolRoundTrip | src/db/settings_model.py:200-203 | a bool stored as `str(value).lower()` reads back as the same bool |
| SettingsModel.IntRoundTrip | src/db/settings_model.py:205-207 | an int stored as its decimal text reads back as the same int, never as a bool |
| SettingsModel.CategoryOf | src/db/settings_model.py:262 | the category of a new key holds no "."; for a dotted key it is the prefix before the first "."; otherwise "general" |
| SettingsModel.Settings.constructor | src/db/settings_model.py:24-27 | the store is the table found, seeded with the defaults |
| SettingsModel.Settings.EnsureDefaultSettings | src/db/settings_model.py:29-177 | the store becomes the old store seeded with the default list |
| SettingsModel.Settings.Get | src/db/settings_model.py:181-226 | `get`: the decoded stored value, or the default for an absent key (its properties: `SettingsModel.GetAfterSet`, `SettingsModel.GetAfterDelete`) |
| SettingsModel.Settings.Set | src/db/settings_model.py:231-276 | succeeds, and the store becomes `Stored(old store, key, value)` |
| SettingsModel.Settings.Delete | src/db/settings_model.py:364-382 | succeeds, and the key is removed with nothing else changed |
| SettingsModel.Settings.ResetToDefaults | src/db/settings_model.py:384-401 | succeeds, and the store is exactly the defaults seeded into an empty table |
| SettingsModel.Settings.GetAll | src/db/settings_model.py:278-317 | the result has exactly the store's keys, each mapped to what `get` returns for it |
| SettingsModel.Settings.GetByCategory | src/db/settings_model.py:319-362 | the result has exactly the keys whose row is in the category, each mapped to what `get` returns for it |
| SettingsModel.SeedWith | src/db/settings_model.py:157-177 | the insert loop computes `Seed` |
| SettingsModel.CollectDecoded | src/db/settings_model.py:286-314 | the result loop gives exactly the selected keys, whatever order the rows come in, each with its decoded value |
| SettingsModel.Stored | src/db/settings_model.py:241-273 | the table after `set` (its properties: `SettingsModel.SetFacts`, `SettingsModel.GetAfterSet`) |
| SettingsModel.SetFacts | src/db/settings_model.py:241-273 | `set` stores the encoded value under the key; an existing row keeps its category and description; a new row gets the derived category and an empty description; every other key is unchanged |
| SettingsModel.GetAfterSet | src/db/settings_model.py:181-273 | after `set(k, v)` with a bool or an int, `get(k, d)` returns v |
| SettingsModel.GetAfterDelete | src/db/settings_model.py:364-382 | after `delete(k)`, `get(k, d)` returns d |
| DownloadManager.Without | src/core/download_manager.py:227 | deleting a key from the ordered dictionary leaves exactly the other ids, still without repeats |
| DownloadManager.Finish | src/core/download_manager.py:182-207 | the finished entry keeps its file and records the downloader's result; success makes it "completed" with progress 1.0; failure makes it "failed" with the downloader's error and the last progress reported |
| DownloadManager.Manager.constructor | src/core/download_manager.py:26-35 | a stopped manager with an empty queue and no entries, which satisfies the invariant |
| DownloadManager.Manager.Start | src/core/download_manager.py:37-57 | the manager runs afterwards; a running one is unchanged; a stopped one starts `max_workers` workers; the queue and the entries are untouched |
| DownloadManager.Manager.Stop | src/core/download_manager.py:59-84 | the manager is stopped with no workers; a running one has its queue drained; the entries stay, so the ids that were queued remain "queued" |
| DownloadManager.Manager.QueueDownload | src/core/download_manager.py:86-121 | an id is accepted exactly when it has no entry and the remote store knows it; it then gets a "queued" entry with progress 0 at the back of the queue and of the dictionary; a refusal changes nothing |
| DownloadManager.Manager.GetDownloadStatus | src/core/download_manager.py:123-141 | a known id gives a copy of its entry: its file, progress, status, error and downloader result; an unknown id gives the "not_queued" placeholder with no file and progress 0 |
| DownloadManager.Manager.GetAllDownloads | src/core/download_manager.py:143-156 | one item per entry, each with its own id and entry, every entry listed once, in insertion order |
| DownloadManager.Manager.ProcessNext | src/core/download_manager.py:158-212 | a stopped manager or an empty queue changes nothing; otherwise the oldest id leaves the queue; an id without an entry is skipped; an entry is downloaded under its file's URL and name with no category, and ends as `Finish` says; the invariant is kept |
| DownloadManager.Manager.RemoveDownload | src/core/download_manager.py:214-230 | removal succeeds exactly for an entry that is "completed" or "failed"; it takes out that id only, and a refusal changes nothing |
| DownloadManager.PopSettles | src/core/download_manager.py:166-207 | taking the oldest id off the queue and settling its entry keeps the rest of the queue free of repeats and "queued", and keeps the dictionary's keys |
| DownloadManager.DistinctKeysCount | src/core/download_manager.py:149-154 | the insertion-order list of keys has exactly as many ids as the dictionary has entries |
| FileComparison.Classify | src/core/file_comparison.py:58-89 | the decision for one remote record (its properties: `FileComparison.GroupsAreSound`, `FileComparison.ValidatorOnlyForEqualSizes`, `FileComparison.MissingRemoteSizeIsUpdated`) |
| FileComparison.ScanAll | src/core/file_comparison.py:56-99 | the loop over the remote records, which stops adding at the first raise (its properties: `FileComparison.RaisedSticks`, `FileComparison.PartitionWhenNoneRaise`, `FileComparison.FirstRaiseKeepsPrefix`) |
| FileComparison.Compare | src/core/file_comparison.py:30-99 | `compare_files`, with empty groups when fetching the remote records raises (its properties: `FileComparison.PartitionWhenNoneRaise`, `FileComparison.GroupsAreSound`) |
| FileComparison.RaisedSticks | src/core/file_comparison.py:56-99 | once a lookup or validation has raised, the remaining remote records change nothing |
| FileComparison.CompareFiles | src/core/file_comparison.py:30-99 | the loop of four appends computes `Compare`: no groups when fetching the remote records raises, otherwise the groups of the records seen before the first raise |
| FileComparison.PartitionWhenNoneRaise | src/core/file_comparison.py:56-89 | when no call raises, each group holds exactly the records of its kind in remote order, and the four groups together hold every remote record once |
| FileComparison.FirstRaiseKeepsPrefix | src/core/file_comparison.py:96-99 | when the call for record k is the first to raise, the result is the partition of the records before k |
| FileComparison.GroupsAreSound | src/core/file_comparison.py:58-89 | every item of every group was put there by its own record's decision, raise or not: new means no linked local record, updated and ok carry the linked record, corrupted carries the validator's error |
| FileComparison.ValidatorOnlyForEqualSizes | src/core/file_comparison.py:58-70 | a record with no linked local record is new, one whose local size differs is updated, and both decisions are the same whatever the validator does |
| FileComparison.MissingRemoteSizeIsUpdated | src/core/file_comparison.py:65-70 | a linked record whose remote size is None is always updated |
| FileComparison.UpdatedRemotes | src/core/file_comparison.py:149-150 | the remote records of the updated pairs, one for one and in order |
| FileComparison.DamagedRemotes | src/core/file_comparison.py:154-155 | the corrupted items are queued as their record pairs would be by `UpdatedRemotes`: their remote records, one for one and in order |
| FileComparison.DownloadList | src/core/file_comparison.py:141-155 | the download queue: new files, then updated, then corrupted, each group only when asked for (its properties: `FileComparison.OkFilesNeverQueued`, `FileComparison.QueueAndOkCoverRemotes`) |
| FileComparison.BuildDownloadQueue | src/core/file_comparison.py:122-161 | the queue is the new files if asked for, then the remotes of the updated files if asked for, then the remotes of the corrupted files if asked for |
| FileComparison.QueueUpdated | src/core/file_comparison.py:148-150 | the loop appends the remote of every updated pair, in order |
| FileComparison.QueueDamaged | src/core/file_comparison.py:153-155 | the loop appends the remote of every corrupted item, in order |
| FileComparison.OkFilesNeverQueued | src/core/file_comparison.py:141-155 | whatever groups are asked for, every queued record was classified without a raise and not as ok |
| FileComparison.QueueAndOkCoverRemotes | src/core/file_comparison.py:141-155 | when no call raises and all groups are asked for, the queue and the ok files together have as many records as the remote list |
| FileComparison.Link | src/core/file_comparison.py:163-202 | the intended link succeeds exactly when both ids are known; it then sets the local record's remote id and changes nothing else; otherwise the store is untouched |
| FileComparison.LinkAsWritten | src/core/file_comparison.py:173-202 | `link_local_to_remote` as written (its consequence: `FileComparison.LinkAsWrittenNeverLinks`) |
| FileComparison.LinkAsWrittenNeverLinks | src/core/file_comparison.py:173-202 | the link as written returns False and writes nothing for every input, including known ids where the intended link succeeds |
| FileComparison.Unlink | src/core/file_comparison.py:204-238 | unlinking succeeds exactly for a known local id; it then keeps the record's id, path, size and type, clears its remote id and changes no other record; otherwise the store is untouched |
| FileComparison.UnlinkUndoesLink | src/core/file_comparison.py:163-238 | unlinking a record that had no remote id after the intended link gives back the original store |
| FileComparison.Service.constructor | src/core/file_comparison.py:24-28 | the service's view of the local store and the known remote ids |
| FileComparison.Service.LinkLocalToRemote | src/core/file_comparison.py:163-202 | the method as written: its flag and new store are those of `LinkAsWritten` |
| FileComparison.Service.LinkLocalToRemoteIntended | src/core/file_comparison.py:163-202 | the corrected method: its flag and new store are those of `Link` |
| FileComparison.Service.UnlinkLocalFromRemote | src/core/file_comparison.py:204-238 | its flag and new store are those of `Unlink`; the remote ids are untouched |
| FileDownloader.Chunks | src/core/file_downloader.py:104-114 | the chunk loop of one attempt (its properties: `FileDownloader.ChunkProgressRises`, `FileDownloader.DataStep`, `FileDownloader.BrokeStep`) |
| FileDownloader.RunAttempt | src/core/file_downloader.py:92-124 | one attempt and how it ends: done, retried after a requests error, or aborted (its properties: `FileDownloader.PerformAttempt`, `FileDownloader.AttemptsShape`) |
| FileDownloader.Attempts | src/core/file_downloader.py:91-124 | the retry loop from one attempt on (its properties: `FileDownloader.AttemptsShape`, `FileDownloader.AttemptsBounded`, `FileDownloader.RetryExhaustion`, `FileDownloader.OtherErrorsAreNotRetried`) |
| FileDownloader.PrefixedEmpty | src/core/file_downloader.py:104-114 | a chunk loop with no earlier reports is unchanged by prefixing them |
| FileDownloader.ChunkProgressRises | src/core/file_downloader.py:104-114 | within one attempt the byte count never falls; every report carries the Content-Length and a count above the start and within the bytes written; the counts rise strictly; a Content-Length of 0 or less gives no reports |
| FileDownloader.DataStep | src/core/file_downloader.py:106-114 | a non-empty chunk adds its bytes and, when Content-Length is positive, one report of the new count; an empty chunk changes nothing |
| FileDownloader.BrokeStep | src/core/file_downloader.py:106-108 | a chunk that raises ends the loop with the bytes and reports so far, as a requests error for the stream and as another error for the write |
| FileDownloader.WriteChunks | src/core/file_downloader.py:104-114 | the chunk loop computes `Chunks` from the first chunk and zero bytes |
| FileDownloader.PerformAttempt | src/core/file_downloader.py:92-124 | one pass computes `RunAttempt`: a failed request or a broken stream is retried; a bad Content-Length, a failed open or a failed write ends the loop; a whole stream succeeds; the size is stored once Content-Length is read |
| FileDownloader.AttemptsShape | src/core/file_downloader.py:91-124 | from attempt k, between 1 and `retry_count + 1 - k` attempts are made; all but the last raised a requests exception; there is no error exactly when the last one succeeded; otherwise the error is the text of the exception that ended the loop, and a requests exception ends it only at attempt `retry_count` |
| FileDownloader.FileName | src/core/file_downloader.py:61-65 | a given name is kept; otherwise, when the URL path is empty or ends with "/", the name is "download_<timestamp>.pdf"; when it ends with another character, the name is the basename: a non-empty end of the path without a "/", preceded by a "/" unless it is the whole path |
| FileDownloader.Download | src/core/file_downloader.py:38-136 | a whole `download_file` call (its properties: `FileDownloader.DestinationLayout`, `FileDownloader.DownloadRun`, `FileDownloader.FailureCleansUp`, `FileDownloader.RetryExhaustion`) |
| FileDownloader.DownloadFile | src/core/file_downloader.py:38-136 | the call gives `Download`: the result, the progress reports, the attempts made and whether a file is left |
| FileDownloader.RetryLoop | src/core/file_downloader.py:91-124 | the retry loop computes `Attempts` from attempt 0 |
| FileDownloader.DestinationLayout | src/core/file_downloader.py:67-74 | the file goes to the download directory, then the category folder when the category is non-empty, then the file name |
| FileDownloader.AttemptsBounded | src/core/file_downloader.py:91-124 | at most `retry_count + 1` attempts are made; a successful call stopped at an attempt that succeeded, and every earlier attempt raised a requests exception |
| FileDownloader.RunBounded | src/core/file_downloader.py:91-124 | the retry loop from attempt 0 makes at most `retry_count + 1` attempts; without an error its last attempt succeeded and all earlier ones were retried |
| FileDownloader.DownloadRun | src/core/file_downloader.py:69-127 | a category folder that cannot be made fails the call with no attempt; otherwise the call makes the loop's attempts, succeeds exactly when the loop has no error, and reports the loop's error |
| FileDownloader.RetryExhaustion | src/core/file_downloader.py:120-127 | when every request raises, exactly `retry_count + 1` attempts are made, the call fails, and the error is the last exception's text |
| FileDownloader.RetriesRunOut | src/core/file_downloader.py:120-124 | the same for the retry loop alone |
| FileDownloader.OtherErrorsAreNotRetried | src/core/file_downloader.py:120-127 | an exception that is not a requests exception at attempt j, after only requests exceptions, ends the call after j + 1 attempts with that exception's text |
| FileDownloader.AbortStops | src/core/file_downloader.py:91-125 | the same for the retry loop alone |
| FileDownloader.FailureCleansUp | src/core/file_downloader.py:125-134 | after a failure there is always an error; `file_path` is None exactly when the category folder could not be made; a file is left only at a set path whose removal raised |
| Downloader.PathDiv | src/core/downloader.py:55-58 | `Path(a) / b` ends with b |
| Downloader.FileNameFor | src/core/downloader.py:48-50 | a given name is kept; otherwise the name is the URL's last "/" segment: it holds no "/", ends the URL, and follows a "/" unless it is the whole URL |
| Downloader.SavePath | src/core/downloader.py:52-58 | the save path ends with the file name, and without a category it lies under the download directory (its layout: `Downloader.SavePathLayout`) |
| Downloader.SavePathLayout | src/core/downloader.py:52-58 | the file is saved as download_dir/category/filename when a category is given and as download_dir/filename without one; an empty file name leaves the directory itself |
| Downloader.FirstFailure | src/core/downloader.py:64-66 | the first chunk that raises: it is a chunk at some position before which every chunk is data; none exactly when every chunk is data |
| Downloader.Download | src/core/downloader.py:29-76 | a whole `download_file` call of the simple downloader (its properties: `Downloader.ResultShape`, `Downloader.ErrorTexts`) |
| Downloader.DownloadFile | src/core/downloader.py:29-76 | the call gives `Download`: a failed category folder gives an "Unexpected error" with no request; a raised request, a failed open and a broken chunk map to their error texts; a whole body succeeds with the save path |
| Downloader.WriteBody | src/core/downloader.py:64-66 | the write loop stops at `FirstFailure` |
| Downloader.ResultShape | src/core/downloader.py:41-76 | exactly one request, or none when creating the category directory raised; success exactly when there is no error; a success carries the save path; a failure has no path and an error starting with "Download error: " or "Unexpected error: ", the first exactly when the request or the stream raised a requests exception |
| Downloader.ErrorTexts | src/core/downloader.py:71-74 | the two error texts start with their own prefixes, which tell them apart |
| Downloader.ValidatePdf | src/core/downloader.py:78-88 | the placeholder accepts every path |
| SiteScanner.HasIdSnoc | src/core/site_scanner.py:79-91 | after one more category the keys of `category_id_map` are the old keys plus that category's id |
| SiteScanner.DbCategoryOf | src/core/site_scanner.py:81-98 | a category row keeps the scraped name and URL, has no `parent_id`, and has a parent reference exactly when the scraped parent id is the id of a scraped category, and then equal to it |
| SiteScanner.DbCategories | src/core/site_scanner.py:77-98 | one row per scraped category |
| SiteScanner.DbCategoriesShape | src/core/site_scanner.py:77-98 | row i is the row of category i, of the shape `DbCategoryOf` states |
| SiteScanner.BuildDbCategories | src/core/site_scanner.py:76-98 | the two loops give `DbCategories` |
| SiteScanner.NameIds | src/core/site_scanner.py:108 | the name-to-id map has exactly the names of the stored rows |
| SiteScanner.NameIdsLastWins | src/core/site_scanner.py:108 | a name maps to the id of the last row carrying it |
| SiteScanner.CategoryIdFor | src/core/site_scanner.py:117 | a name gives its stored id when it is known and None otherwise |
| SiteScanner.Tag | src/core/site_scanner.py:123-124 | every file of a category gets that category's stored id, in order |
| SiteScanner.Gather | src/core/site_scanner.py:111-126 | the gathering of every category's files with their stored category ids (its properties: `SiteScanner.GatherIsConcatenation`, `SiteScanner.GatherSnoc`, `SiteScanner.GatherFails`, `SiteScanner.GatherPrefixFails`) |
| SiteScanner.GatherIsConcatenation | src/core/site_scanner.py:111-126 | when no fetch raises, the gathered files are the files of every category in category order, and each carries the stored id of its own category's name (`CategoryIdFor`), or None when no stored row has that name |
| SiteScanner.Origins | src/core/site_scanner.py:111-126 | each gathered file comes from a category whose fetch succeeded and is one of that category's files; categories are visited in order, so the origins never decrease |
| SiteScanner.GatherSnoc | src/core/site_scanner.py:114-126 | one more category appends its own files, each tagged with the stored id of that category's name, after the files gathered so far |
| SiteScanner.GatherFails | src/core/site_scanner.py:120-155 | a fetch that raises makes the whole gathering raise |
| SiteScanner.GatherFiles | src/core/site_scanner.py:111-126 | the loop over the categories gives `Gather` |
| SiteScanner.GatherPrefixFails | src/core/site_scanner.py:111-126 | once the gathering of some first categories has raised, the whole gathering raises with the same text |
| SiteScanner.DbFiles | src/core/site_scanner.py:129-140 | one row per gathered file, with its URL and category id, in order |
| SiteScanner.BuildDbFiles | src/core/site_scanner.py:129-140 | the loop gives `DbFiles` |
| SiteScanner.Upsert | src/db/remote_file_model.py:273 | writing rows one at a time keyed by URL adds exactly their URLs and keeps every other row |
| SiteScanner.Prepare | src/core/site_scanner.py:54-126 | the scan up to the file write: where it stops and what it gathered (its properties: `SiteScanner.EarlyExits`, `SiteScanner.IntendedResult`) |
| SiteScanner.CategoriesAfter | src/core/site_scanner.py:100-105 | the category rows after a scan: replaced once the categories were fetched, never rolled back (its consequence: `SiteScanner.AsWrittenNeverSucceeds`) |
| SiteScanner.AsWrittenResult | src/core/site_scanner.py:42-157 | the scan as written never succeeds, always has an error, and reports no files |
| SiteScanner.IntendedResult | src/core/site_scanner.py:42-157 | the corrected scan succeeds exactly when every step up to the file write succeeded, and then reports the gathered files, no error, and one added file per file |
| SiteScanner.AsWrittenNeverSucceeds | src/core/site_scanner.py:143 | for a known site whose scraper answers every call, the scan as written fails with the missing-attribute error where the corrected scan succeeds |
| SiteScanner.EarlyExits | src/core/site_scanner.py:56-72 | an unknown site and a missing scraper give their own error texts; the scan stops before writing exactly when the site is unknown, no scraper exists, or `get_categories` raised |
| SiteScanner.Scanner.constructor | src/core/site_scanner.py:25-31 | the scanner's view of the site, category and remote-file tables |
| SiteScanner.Scanner.Run | src/core/site_scanner.py:54-140 | the steps up to the file write give `Prepare`; the site's category rows are replaced once the categories are fetched; nothing else changes |
| SiteScanner.Scanner.ScanSite | src/core/site_scanner.py:33-157 | the scan as written returns `AsWrittenResult`, replaces the category rows as `Run` does, and leaves the sites and the remote files alone |
| SiteScanner.Scanner.ScanSiteIntended | src/core/site_scanner.py:33-157 | the corrected scan returns `IntendedResult`; when ready it writes every file row and sets the site's last-scan date; otherwise the sites and remote files are unchanged |
| NetworkUtils.ProxySettings | src/utils/network_utils.py:17-45 | `get_proxy_settings` (its properties: `NetworkUtils.ProxySettingsShape`, `NetworkUtils.ProxyWithoutCredentials`, `NetworkUtils.ProxyWithCredentials`) |
| NetworkUtils.ProxySettingsShape | src/utils/network_utils.py:17-45 | there is a proxy exactly when `proxy_enabled` is truthy and `proxy_url` is non-empty; "http" and "https" are then the only keys and share one URL |
| NetworkUtils.ProxyWithoutCredentials | src/utils/network_utils.py:30-45 | without a username or without a password the configured URL is used as written |
| NetworkUtils.CredentialsReadBack | src/utils/network_utils.py:39 | a network location "user:pass@host" reads back as that username, password and host, when the username holds no ":" and the host no "@" |
| NetworkUtils.SplitAtLastAt | src/utils/network_utils.py:39 | a network location with no "@" after the one in front of the host splits at that "@" into the user information and the host |
| NetworkUtils.HostAfterLastAt | src/utils/network_utils.py:39 | the text after the last "@" is the host part |
| NetworkUtils.PrefixOfAppend | src/utils/network_utils.py:39 | the user information is the front of the network location |
| NetworkUtils.ProxyWithCredentials | src/utils/network_utils.py:34-40 | with both credentials the proxy URL is the parsed URL with only its network location replaced, by one that reads back as the configured username, password and the original host |
| NetworkUtils.HeaderDict.constructor | src/utils/network_utils.py:102 | a new headers dictionary holds exactly the items given |
| NetworkUtils.Defaulted | src/utils/network_utils.py:96-110 | the arguments `get` and `post` hand on (its properties: `NetworkUtils.DefaultedFacts`, `NetworkUtils.DefaultedIdempotent`) |
| NetworkUtils.DefaultedFacts | src/utils/network_utils.py:96-110 | a passed timeout, headers or proxies argument is kept; a missing timeout becomes the configured one; the caller's headers all stay and a User-Agent is always present, added only when missing; proxies are added exactly when none were passed and settings exist; other arguments are untouched |
| NetworkUtils.DefaultedIdempotent | src/utils/network_utils.py:96-110 | filling in the defaults twice is filling them in once |
| NetworkUtils.ApplyDefaults | src/utils/network_utils.py:96-110 | the arguments afterwards are `Defaulted` of the caller's; passed headers are the caller's own dictionary, updated in place; missing headers become a new dictionary |
| NetworkUtils.Get | src/utils/network_utils.py:86-112 | `requests.get` receives the URL and the defaulted arguments, with the caller's own headers dictionary |
| NetworkUtils.Post | src/utils/network_utils.py:115-141 | `requests.post` receives the URL and the defaulted arguments, with the caller's own headers dictionary |
| NetworkUtils.CallerHeadersKept | tests/utils/test_network_utils.py:34-54 | the headers "User-Agent: Test Agent" and "Accept: text/html" reach `requests` unchanged |
| NetworkUtils.CallerTimeoutKept | tests/utils/test_network_utils.py:56-74 | a timeout of 10 reaches `requests` unchanged, with the default User-Agent header |
| HistoryFilter.StatusOk | src/gui/download_history_tab.py:139-140 | the status test (its consequence: `HistoryFilter.StatusFilter`) |
| HistoryFilter.DateOk | src/gui/download_history_tab.py:143-146 | the date test (its properties: `HistoryFilter.NoStartTimePassesDates`, `HistoryFilter.DateBoundsInclusive`) |
| HistoryFilter.SearchOk | src/gui/download_history_tab.py:149-150 | the search test (its properties: `HistoryFilter.EmptySearch`, `HistoryFilter.SearchIgnoresCase`) |
| HistoryFilter.Shown | src/gui/download_history_tab.py:137-152 | a record is shown when it passes all three tests (its consequence: `HistoryFilter.FilteredMembers`) |
| HistoryFilter.Filtered | src/gui/download_history_tab.py:136-152 | the shown records are never more than the history |
| HistoryFilter.ApplyFilters | src/gui/download_history_tab.py:118-158 | the loop keeps exactly `Filtered` of the history, with the lowercased search text |
| HistoryFilter.FilteredIsSubsequence | src/gui/download_history_tab.py:136-152 | the shown records keep the order of the history |
| HistoryFilter.FilteredMembers | src/gui/download_history_tab.py:137-152 | a record is shown exactly when it is in the history and passes the status, date and search tests |
| HistoryFilter.StatusFilter | src/gui/download_history_tab.py:139-140 | with a status chosen, every shown record has that status |
| HistoryFilter.NoStartTimePassesDates | src/gui/download_history_tab.py:143-146 | a record with no start time is never held back by the dates |
| HistoryFilter.DateBoundsInclusive | src/gui/download_history_tab.py:143-146 | a start time is judged by its date part alone, and a date equal to either bound passes |
| HistoryFilter.EmptySearch | src/gui/download_history_tab.py:149-150 | an empty search text holds nothing back |
| HistoryFilter.SearchIgnoresCase | src/gui/download_history_tab.py:133-149 | lowercasing the file name does not change whether the search matches |
| HistoryFilter.MissingNameMatchesEmptySearchOnly | src/gui/download_history_tab.py:149 | a record without a file name matches only the empty search |
| OrderedDict.EmptyValid | src/plugins/__init__.py:31 | a new dictionary satisfies the dictionary invariant |
| OrderedDict.Put | src/plugins/__init__.py:80 | `d[k] = v` keeps the invariant, maps k to v and changes no other key; a new key goes last and an existing key keeps its place |
| OrderedDict.Get | src/plugins/__init__.py:92 | `d.get(k)` finds the value exactly for a key in the dictionary |
| OrderedDict.Values | src/plugins/__init__.py:100 | the values in key-insertion order, one per key |
| OrderedDict.PutThenGet | src/plugins/__init__.py:80-92 | after `d[k] = v`, `d.get(k)` is v and every other key reads as before |
| Strings.ParseIntOfIntToString | src/db/settings_model.py:205-207 | `int(str(n)) == n` for every integer |

## Left out

- Threads and the lock of the download manager are not modelled. The model runs one worker pass at a time (`ProcessNext`). `Queue.get(timeout=1.0)`, `task_done`, `join(1.0)` and the unlocked gap between the duplicate check and the insert in `queue_download` are therefore absent.
- DownloadManager.ProcessNext: the per-entry `progress_callback` is not stored. An exception inside a worker pass, such as a record without a "url", is not modelled.
- DownloadManager.Manager.constructor: `max_workers` and the downloader's configuration are parameters, because `config.get` cannot be called on the constants that config.py defines.
- Network I/O is an oracle. `requests.get` and `requests.post`, `raise_for_status` and `iter_content` do not run. Each retry attempt is a value (`FileDownloader.Attempt`), and the single request of src/core/downloader.py is `Downloader.Response`. `create_session` (src/utils/network_utils.py:67-83) only configures a `requests.Session` and is not modelled.
- FileDownloader.DownloadFile: the attempts oracle must supply `retry_count + 1` outcomes, whether or not all are used. The headers, proxies and timeout handed to `requests.get` are not part of the model.
- FileDownloader.DownloadFile: progress reports are recorded as (bytes written, Content-Length) pairs. The float division is not modelled. Reports are recorded as if a callback were always passed.
- File system I/O is an oracle. This covers `os.walk`, `os.path.isfile`, `getsize`, `Path.stat`, `open`/`write`/`remove`, `os.makedirs` and `mimetypes.guess_type`. The `makedirs` of the download directory in both downloaders' constructors is not modelled.
- Paths are not normalised. The model joins with "/" as `os.path.join` does for relative parts; `pathlib` paths are sequences of parts. Normalisation such as collapsing "//" or "/./" is not modelled.
- Strings.Lower: only the ASCII letters "A" to "Z" are lowered. Python's `str.lower()` lowers every cased Unicode character, so a record named "Ä.pdf" with the search text "ä" is shown by `apply_filters` but is not in `HistoryFilter.Filtered`. The same gap reaches every case-insensitive test built on it: the extension lookups of `FileTypes.CanValidate`, `FileTypes.Lowered`, `DirectoryScanner.KindOf` and the file utilities, `GenericScraper.IsPdfHref`, and the bool text of `SettingsModel.Decode`.
- Strings.Strip: only the ASCII white space of `Strings.IsSpace` is stripped. Python's `str.strip()` also strips Unicode white space such as U+00A0 and U+2003. This reaches the link text of `GenericScraper.FileName` and the header and title tests of the markdown validator.
- FileUtils.GetFileMetadata: `st_mtime` is a float in seconds; the model keeps it as an `int` (`FileUtils.Stat.mtime`), so fractions of a second are not modelled.
- Downloader.DownloadFile: `Path(a) / b` with an absolute `b` would replace `a`; that case is not modelled, and `PathDiv` always appends.
- PyPDF2, ebooklib, chardet, BeautifulSoup, `urlparse`, `urljoin` and `importlib` are uninterpreted functions. `urljoin` is reference resolution per section 5.2 of RFC 3986. Import failures of the optional libraries are flags.
- NetworkUtils.ProxySettings: `urlparse` is an oracle, and `geturl` is modelled as "scheme://netloc" followed by the rest of the URL. The read-back lemmas assume a username without ":" and a host without "@", as `urllib` needs.
- SettingsModel: every table operation succeeds. The sqlite errors that make `get` return the default and `set`, `delete` and `reset_to_defaults` return False are not modelled.
- SettingsModel: src/db/settings_model.py:11 imports a `Database` class that src/db/database.py does not define. The model treats the store as if the import worked.
- SettingsModel.Decode: the float and JSON branches (src/db/settings_model.py:211-221) are not modelled. Text that is neither a bool nor an int decodes as the string.
- SettingsModel: the int codec accepts only an optional "-" followed by ASCII digits, whereas Python's `int()` also accepts surrounding white space, underscores between digits, a leading "+" and non-ASCII decimal digits, so a stored "+5" reads back as the string "+5" here but as the int 5 in the source. The JSON encode of dicts and lists (src/db/settings_model.py:245-246) is not modelled.
- The database modules are not part of this model, apart from the tables the core uses as maps. These are src/db/database.py, site_model.py, category_model.py, remote_file_model.py, local_file_model.py and download_model.py.
- DirectoryScanner: `get_file_count_by_type` and `get_total_file_count` (src/core/directory_scanner.py:160-174) only forward a database query and are not modelled.
- FileComparison.Unlink: the store's `update_file` is taken to succeed. Its own failure path is not modelled.
- FileComparison: `compare_files_by_site` (src/core/file_comparison.py:101-120) only calls `compare_files` once per site and is not modelled.
- SiteScanner.IntendedResult: `categories_added` and `files_added` are the number of rows sent. The store's own "added" count, which leaves out rows that were only updated, is not modelled.
- GenericScraper.GetFilesInCategory: an exception raised inside the link loop (by `urljoin`) is not modelled. The source would then return the files collected so far.
- HistoryFilter: a record whose `file_name` is present but None would raise in `.lower()`, and the source catches that. The model treats a missing name as "".
- The GUI apart from `apply_filters` is not part of this model: widgets, signals, dialogs and threads.
- Logging is not part of this model.
- The clock is a parameter. This covers the timestamp of a default download name and the last-scan date.
- The configuration object of `from config import config` is partly a parameter. The values it would give are parameters: a `FileDownloader.Config` record, `NetworkUtils.NetworkConfig`, and the manager's worker count.
- Plugin classes and modules are values. A class has a name, its ancestors and its class attributes. A module has its stem and what importing it yields. Python's `sys.path` handling in discovery is not modelled.
- Tests written against other interfaces are not modelled, and neither are the example scraper plugin or the launchers.

## Findings

| source | as written | input that shows it | evidently intended | confidence | as-written member | corrected member |
|---|---|---|---|---|---|---|
| src/core/file_comparison.py:189 | `link_local_to_remote` calls `update_remote_file_id`, which the local-file model does not define; the AttributeError is caught and False is returned | a known local id and a known remote id | the local record gets the remote id and True is returned | not executed | FileComparison.LinkAsWrittenNeverLinks, FileComparison.Service.LinkLocalToRemote | FileComparison.Link, FileComparison.Service.LinkLocalToRemoteIntended |
| src/core/site_scanner.py:143 | `scan_site` calls `add_or_update_files`, which the remote-file model does not define (it has `add_or_update_file`); the scan fails after the categories were replaced, and the last-scan date is never set | a known site whose scraper answers every call | the files are written one by one, the scan succeeds, and the last-scan date is set | not executed | SiteScanner.AsWrittenNeverSucceeds, SiteScanner.Scanner.ScanSite | SiteScanner.IntendedResult, SiteScanner.Scanner.ScanSiteIntended |
| src/plugins/file_types/markdown_validator.py:46 | the comprehension calls `readline` twice per iteration, once in the filter and once for the value; only every second line is sampled, and line 1 is never searched for a title | a file whose only line is "# Title" | the first ten lines are sampled, so "Title" is found | not executed | MarkdownValidator.FirstLineTitleIsMissed | MarkdownValidator.SampleIntended, MarkdownValidator.IntendedFindsFirstLineTitle, MarkdownValidator.ValidateIntended |
