/** The tests of tests/test_file_utils.py, stated for a scanned directory
    whose walk is the tests' tree: "test.txt" at the top, "test.pdf" and
    "test.txt" in "category1". */
module FileUtilsTests {
  import opened Wrappers
  import opened Strings
  import opened FileUtils

  lemma TxtSuffix()
    ensures Lower(NameSuffix("test.txt")) == ".txt"
  {
    assert AfterLast("test.txt", '.') == "txt";
    LowerEq(".txt", ".txt");
  }

  lemma PdfSuffix()
    ensures Lower(NameSuffix("test.pdf")) == ".pdf"
  {
    assert AfterLast("test.pdf", '.') == "pdf";
    LowerEq(".pdf", ".pdf");
  }

  lemma CategoryName()
    ensures PlainPart("category1")
  {
    var c := "category1";
    assert c[..4] == "cate" && c[4..] == "gory1";
    assert '/' !in c[..4] && '/' !in c[4..];
  }

  /** The names of the tests: "category1" is a plain folder name, and
      "test.txt" and "test.pdf" have the suffixes ".txt" and ".pdf". */
  lemma TestNames()
    ensures PlainPart("category1")
    ensures Lower(NameSuffix("test.txt")) == ".txt"
    ensures Lower(NameSuffix("test.pdf")) == ".pdf"
  {
    CategoryName();
    TxtSuffix();
    PdfSuffix();
  }

  /** The two files of the tests ("test.pdf" and "test.txt" being names of
      this shape): the text file is named and typed as such, and the PDF is
      a valid PDF while the text file is not. */
  lemma MetadataOfTestFiles(dir: Path, fs: Path -> Option<Stat>, guessType: string -> Option<string>,
                            pdfName: string, txtName: string)
    requires fs(dir + [pdfName]).Some?
    requires Lower(NameSuffix(pdfName)) == ".pdf" && Lower(NameSuffix(txtName)) == ".txt"
    ensures GetFileMetadata(dir + [txtName], fs, guessType).name == txtName
    ensures GetFileMetadata(dir + [txtName], fs, guessType).extension == ".txt"
    ensures IsValidPdf(dir + [pdfName], fs)
    ensures !IsValidPdf(dir + [txtName], fs)
  {
    assert Name(dir + [txtName]) == txtName;
    assert Name(dir + [pdfName]) == pdfName;
  }

  lemma TreeWalkEntries(sub: string, pdfName: string, txtName: string, mk: (Path, string) -> Entry)
    ensures WalkEntries(TreeWalk(sub, pdfName, txtName), mk) == [mk([], txtName), mk([sub], pdfName), mk([sub], txtName)]
  {
    var walk := TreeWalk(sub, pdfName, txtName);
    assert walk[..|walk| - 1] == [walk[0]];
    assert [walk[0]][..0] == [];
    assert WalkEntries([walk[0]], mk) == FolderEntries([], [txtName], mk);
    assert [txtName][..0] == [];
    assert FolderEntries([], [txtName], mk) == [mk([], txtName)];
    assert [pdfName, txtName][..1] == [pdfName];
    assert [pdfName][..0] == [];
    assert FolderEntries([sub], [pdfName], mk) == [mk([sub], pdfName)];
  }

  /** The scan of a tree of that shape by any entry maker that types the
      files by their suffixes. */
  lemma TreeScan(sub: string, pdfName: string, txtName: string, mk: (Path, string) -> Entry)
    requires mk([], txtName).meta.extension == ".txt" && mk([sub], txtName).meta.extension == ".txt"
    requires mk([sub], pdfName).meta.extension == ".pdf"
    ensures Filter(WalkEntries(TreeWalk(sub, pdfName, txtName), mk), Some([".pdf"])) == [mk([sub], pdfName)]
  {
    TreeWalkEntries(sub, pdfName, txtName, mk);
    var top, pdf, txt := mk([], txtName), mk([sub], pdfName), mk([sub], txtName);
    var filter := Some([".pdf"]);
    assert [top, pdf, txt][..2] == [top, pdf];
    assert [top, pdf][..1] == [top];
    assert [top][..0] == [];
    assert Filter([top], filter) == [];
    assert Filter([top, pdf], filter) == [pdf];
  }

  lemma TreeFileCount(sub: string, pdfName: string, txtName: string)
    ensures FileCount(TreeWalk(sub, pdfName, txtName)) == 3
  {
    var walk := TreeWalk(sub, pdfName, txtName);
    assert walk[..1] == [walk[0]];
    assert [walk[0]][..0] == [];
    assert FileCount([walk[0]]) == 1;
    assert FileCount(walk) == FileCount([walk[0]]) + 2;
  }

  /** The tests' tree ("category1", "test.pdf" and "test.txt" being names
      of this shape): all three files are found without a filter. */
  lemma ScanOfTestTree(dir: Path, fs: Path -> Option<Stat>, guessType: string -> Option<string>,
                       sub: string, pdfName: string, txtName: string)
    requires fs(dir).Some? && fs(dir).value.isDir
    ensures |Scan(dir, None, fs, TreeWalk(sub, pdfName, txtName), guessType)| == 3
  {
    TreeFileCount(sub, pdfName, txtName);
    ScanWithoutFilter(dir, None, fs, TreeWalk(sub, pdfName, txtName), guessType);
  }

  lemma TreeScanOfPdfs(dir: Path, fs: Path -> Option<Stat>, guessType: string -> Option<string>,
                       sub: string, pdfName: string, txtName: string)
    requires fs(dir).Some? && fs(dir).value.isDir
    requires Lower(NameSuffix(pdfName)) == ".pdf" && Lower(NameSuffix(txtName)) == ".txt"
    ensures Scan(dir, Some([".pdf"]), fs, TreeWalk(sub, pdfName, txtName), guessType)
         == [EntryMaker(dir, fs, guessType)([sub], pdfName)]
  {
    EntryMakerFacts(dir, fs, guessType, [], txtName);
    EntryMakerFacts(dir, fs, guessType, [sub], pdfName);
    EntryMakerFacts(dir, fs, guessType, [sub], txtName);
    TreeScan(sub, pdfName, txtName, EntryMaker(dir, fs, guessType));
  }

  /** With [".pdf"] only the PDF of the tests' tree is found, in the
      sub-folder's category. */
  lemma ScanOfTestTreePdfs(dir: Path, fs: Path -> Option<Stat>, guessType: string -> Option<string>,
                           sub: string, pdfName: string, txtName: string)
    requires fs(dir).Some? && fs(dir).value.isDir
    requires PlainPart(sub)
    requires Lower(NameSuffix(pdfName)) == ".pdf" && Lower(NameSuffix(txtName)) == ".txt"
    ensures var pdfs := Scan(dir, Some([".pdf"]), fs, TreeWalk(sub, pdfName, txtName), guessType);
      |pdfs| == 1 && pdfs[0].meta.name == pdfName && pdfs[0].category == sub
  {
    var e := EntryMaker(dir, fs, guessType)([sub], pdfName);
    EntryMakerFacts(dir, fs, guessType, [sub], pdfName);
    CategoryIsFolder([sub], pdfName);
    assert Str([sub]) == sub;
    assert e.meta.name == pdfName && e.category == sub;
    TreeScanOfPdfs(dir, fs, guessType, sub, pdfName, txtName);
  }
}
