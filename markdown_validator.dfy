/** The Markdown plugin of src/plugins/file_types/markdown_validator.py. A
    file is the list of lines `readline` returns one by one; every line is
    non-empty (it keeps its newline, the last one may lack it) and `readline`
    gives "" at the end of the file. Opening the file, decoding it and
    `getsize` are oracles. */
module MarkdownValidator {
  import opened Wrappers
  import opened Strings
  import FV = FileValidator

  const FileType: string := "markdown"
  const Extensions: seq<string> := [".md", ".markdown"]

  /** The lines of a file as `readline` returns them. */
  predicate Lines(lines: seq<string>) {
    forall k :: 0 <= k < |lines| ==> lines[k] != []
  }

  /** The result of `readline` with `pos` lines consumed. */
  function ReadAt(lines: seq<string>, pos: nat): string {
    if pos < |lines| then lines[pos] else ""
  }

  // ------------------------------------------------------ sampling

  /** `n` iterations of the comprehension from position `pos`: the filter
      reads a line, and only when that line is non-empty does the element
      read the next one. */
  function Sample(lines: seq<string>, pos: nat, n: nat): seq<string>
    decreases n
  {
    if n == 0 then []
    else if ReadAt(lines, pos) != [] then [Strip(ReadAt(lines, pos + 1))] + Sample(lines, pos + 2, n - 1)
    else Sample(lines, pos + 1, n - 1)
  }

  /** The comprehension over `range(10)` with its two `readline` calls. */
  method SampleLines(lines: seq<string>) returns (sample: seq<string>)
    ensures sample == Sample(lines, 0, 10)
  {
    sample := SampleFor(lines, 10);
  }

  method SampleFor(lines: seq<string>, n: nat) returns (sample: seq<string>)
    ensures sample == Sample(lines, 0, n)
  {
    sample := [];
    var pos := 0;
    for k := 0 to n
      invariant sample + Sample(lines, pos, n - k) == Sample(lines, 0, n)
    {
      var test := ReadAt(lines, pos);
      if test != [] {
        var line := Strip(ReadAt(lines, pos + 1));
        SampleSampled(lines, pos, n - k);
        assert (sample + [line]) + Sample(lines, pos + 2, n - k - 1) == sample + Sample(lines, pos, n - k);
        sample := sample + [line];
        pos := pos + 2;
      } else {
        assert Sample(lines, pos, n - k) == Sample(lines, pos + 1, n - k - 1);
        pos := pos + 1;
      }
    }
  }

  lemma SampleSampled(lines: seq<string>, pos: nat, n: nat)
    requires n > 0 && ReadAt(lines, pos) != []
    ensures Sample(lines, pos, n) == [Strip(ReadAt(lines, pos + 1))] + Sample(lines, pos + 2, n - 1)
  {
  }

  function Min(a: nat, b: nat): nat {
    if a <= b then a else b
  }

  /** The sample is one line per test line: as many as the iterations, or
      half the lines left, rounded up. */
  lemma {:induction false} SampleLength(lines: seq<string>, pos: nat, n: nat)
    requires Lines(lines)
    ensures |Sample(lines, pos, n)| == Min(n, if pos < |lines| then (|lines| - pos + 1) / 2 else 0)
    decreases n
  {
    if n > 0 {
      if pos < |lines| {
        SampleLength(lines, pos + 2, n - 1);
      } else {
        SampleLength(lines, pos + 1, n - 1);
      }
    }
  }

  /** Only every second line is sampled: from the start, the sample holds
      lines 2, 4, ..., 20 (1-based, stripped, "" past the end). */
  lemma {:induction false} SampleIsEverySecondLine(lines: seq<string>, pos: nat, n: nat, j: nat)
    requires Lines(lines) && j < |Sample(lines, pos, n)|
    ensures Sample(lines, pos, n)[j] == Strip(ReadAt(lines, pos + 2 * j + 1))
    decreases n, 1
  {
    if pos < |lines| {
      SampleAtLine(lines, pos, n, j);
    } else {
      SampleLength(lines, pos, n);
    }
  }

  /** The step of the lemma above from a line that exists: it is a test
      line, the line after it is sampled, and the rest of the sample starts
      two lines later. */
  lemma {:induction false} SampleAtLine(lines: seq<string>, pos: nat, n: nat, j: nat)
    requires Lines(lines) && pos < |lines| && j < |Sample(lines, pos, n)|
    ensures Sample(lines, pos, n)[j] == Strip(ReadAt(lines, pos + 2 * j + 1))
    decreases n, 0
  {
    assert ReadAt(lines, pos) != [];
    assert n > 0;
    SampleSampled(lines, pos, n);
    var rest := Sample(lines, pos + 2, n - 1);
    if j > 0 {
      assert Sample(lines, pos, n)[j] == rest[j - 1];
      SampleIsEverySecondLine(lines, pos + 2, n - 1, j - 1);
      assert pos + 2 + 2 * (j - 1) + 1 == pos + 2 * j + 1;
    }
  }

  // ------------------------------------------------------ title

  /** The first sampled line starting with "# ", without those two
      characters and stripped. */
  function TitleOf(sample: seq<string>): (t: Option<string>)
    ensures t.None? <==> forall j :: 0 <= j < |sample| ==> !StartsWith(sample[j], "# ")
    ensures t.Some? ==> exists j :: 0 <= j < |sample| && StartsWith(sample[j], "# ")
                                 && t.value == Strip(sample[j][2..])
                                 && forall i :: 0 <= i < j ==> !StartsWith(sample[i], "# ")
  {
    if sample == [] then None
    else if StartsWith(sample[0], "# ") then Some(Strip(sample[0][2..]))
    else
      var t := TitleOf(sample[1..]);
      assert forall j :: 1 <= j < |sample| ==> sample[1..][j - 1] == sample[j];
      if t.Some? then
        ghost var j :| 0 <= j < |sample[1..]| && StartsWith(sample[1..][j], "# ")
                       && t.value == Strip(sample[1..][j][2..])
                       && forall i :: 0 <= i < j ==> !StartsWith(sample[1..][i], "# ");
        assert StartsWith(sample[j + 1], "# ") && forall i :: 0 <= i < j + 1 ==> !StartsWith(sample[i], "# ");
        t
      else t
  }

  /** The loop over the sample that stops at the first title line. */
  method FindTitle(sample: seq<string>) returns (title: Option<string>)
    ensures title == TitleOf(sample)
  {
    title := None;
    for j := 0 to |sample|
      invariant TitleOf(sample) == TitleOf(sample[j..])
    {
      assert sample[j..][1..] == sample[j + 1..];
      if StartsWith(sample[j], "# ") {
        title := Some(Strip(sample[j][2..]));
        return;
      }
    }
  }

  // ------------------------------------------------------ headers

  predicate IsHeader(line: string) {
    StartsWith(Strip(line), "#")
  }

  /** The number of lines whose stripped text starts with "#". */
  function Headers(lines: seq<string>): (n: nat)
    ensures n <= |lines|
    decreases |lines|
  {
    if lines == [] then 0
    else Headers(lines[..|lines| - 1]) + (if IsHeader(lines[|lines| - 1]) then 1 else 0)
  }

  /** The header count of two parts of a file adds up. */
  lemma {:induction false} HeadersAppend(a: seq<string>, b: seq<string>)
    ensures Headers(a + b) == Headers(a) + Headers(b)
    decreases |b|
  {
    if b == [] {
      assert a + b == a;
    } else {
      assert (a + b)[..|a + b| - 1] == a + b[..|b| - 1];
      HeadersAppend(a, b[..|b| - 1]);
    }
  }

  /** A line counts exactly when it is a header, at any level. */
  lemma HeadersOfOneLine(line: string)
    ensures Headers([line]) == (if IsHeader(line) then 1 else 0)
  {
    assert [line][..0] == [];
  }

  method CountHeaders(lines: seq<string>) returns (count: nat)
    ensures count == Headers(lines)
  {
    count := 0;
    for k := 0 to |lines|
      invariant count == Headers(lines[..k])
    {
      assert lines[..k + 1][..k] == lines[..k];
      if StartsWith(Strip(lines[k]), "#") {
        count := count + 1;
      }
    }
    assert lines[..|lines|] == lines;
  }

  // ------------------------------------------------------ validate

  /** `validate` as written. `file` is the lines or the text of the open or
      decode error; `size` is `getsize` or its error. */
  method Validate(path: string, file: Result<seq<string>>, size: Result<int>) returns (r: FV.Verdict)
    ensures file.Ok? ==> r == ValidateSpec(path, file, size, TitleOf(Sample(file.value, 0, 10)))
    ensures file.Err? ==> r == ValidateSpec(path, file, size, None)
  {
    r := FV.Verdict(false, path, Some(FileType), None, FV.NoMetadata);
    if file.Err? {
      return r.(error := Some(file.msg));
    }
    var sample := SampleLines(file.value);
    var title := FindTitle(sample);
    var headers := CountHeaders(file.value);
    if size.Err? {
      return r.(error := Some(size.msg));
    }
    r := r.(valid := true, metadata := FV.MarkdownMetadata(title, headers, size.value));
  }

  /** The verdict for a given title: valid with the title, the header count
      and the size, or invalid with the error and no metadata; the type is
      "markdown" either way. */
  function ValidateSpec(path: string, file: Result<seq<string>>, size: Result<int>, title: Option<string>): (r: FV.Verdict)
    ensures r.filePath == path && r.fileType == Some(FileType)
    ensures r.valid <==> file.Ok? && size.Ok?
    ensures r.valid <==> r.error.None?
    ensures r.valid ==> r.metadata == FV.MarkdownMetadata(title, Headers(file.value), size.value)
    ensures file.Err? ==> r.error == Some(file.msg) && r.metadata == FV.NoMetadata
  {
    if file.Err? then FV.Verdict(false, path, Some(FileType), Some(file.msg), FV.NoMetadata)
    else if size.Err? then FV.Verdict(false, path, Some(FileType), Some(size.msg), FV.NoMetadata)
    else FV.Verdict(true, path, Some(FileType), None, FV.MarkdownMetadata(title, Headers(file.value), size.value))
  }

  /** A one-line file whose line is a title gets no title: line 1 is only
      ever the filter's line. */
  lemma FirstLineTitleIsMissed()
    ensures TitleOf(Sample(["# Title\n"], 0, 10)) == None
  {
    assert Sample(["# Title\n"], 2, 9) == [];
    assert Strip("") == "";
  }

  /** The evidently intended sample: the first ten lines, stripped. */
  function SampleIntended(lines: seq<string>): (s: seq<string>)
    ensures |s| == Min(10, |lines|)
    ensures forall j :: 0 <= j < |s| ==> s[j] == Strip(lines[j])
  {
    var n := Min(10, |lines|);
    seq(n, j requires 0 <= j < n => Strip(lines[j]))
  }

  /** With that sample the same file has its title. */
  lemma IntendedFindsFirstLineTitle()
    ensures TitleOf(SampleIntended(["# Title\n"])) == Some("Title")
  {
    var s := SampleIntended(["# Title\n"]);
    assert s[0] == Strip("# Title\n");
    assert Strip("# Title\n") == "# Title" by {
      assert LStrip("# Title\n") == "# Title\n";
      assert "# Title\n"[..7] == "# Title";
    }
    assert StartsWith(s[0], "# ");
    assert s[0][2..] == "Title";
  }

  /** The intended sampler, one `readline` per iteration. */
  method SampleLinesIntended(lines: seq<string>) returns (sample: seq<string>)
    requires Lines(lines)
    ensures sample == SampleIntended(lines)
  {
    sample := [];
    for k := 0 to 10
      invariant |sample| == Min(k, |lines|)
      invariant forall j :: 0 <= j < |sample| ==> sample[j] == Strip(lines[j])
    {
      var line := ReadAt(lines, k);
      if line != [] {
        sample := sample + [Strip(line)];
      }
    }
  }

  /** `validate` with the intended sampler. */
  method ValidateIntended(path: string, file: Result<seq<string>>, size: Result<int>) returns (r: FV.Verdict)
    requires file.Ok? ==> Lines(file.value)
    ensures file.Ok? ==> r == ValidateSpec(path, file, size, TitleOf(SampleIntended(file.value)))
    ensures file.Err? ==> r == ValidateSpec(path, file, size, None)
  {
    r := FV.Verdict(false, path, Some(FileType), None, FV.NoMetadata);
    if file.Err? {
      return r.(error := Some(file.msg));
    }
    var sample := SampleLinesIntended(file.value);
    var title := FindTitle(sample);
    var headers := CountHeaders(file.value);
    if size.Err? {
      return r.(error := Some(size.msg));
    }
    r := r.(valid := true, metadata := FV.MarkdownMetadata(title, headers, size.value));
  }
}
