/** The filter of the download history in src/gui/download_history_tab.py
    (`apply_filters`): a record is shown when it has the selected status,
    when it started within the selected dates (or has no start time), and
    when its file name contains the search text, ignoring case. The widgets
    that supply the filter values, the database query and the table are not
    part of this model. */
module HistoryFilter {
  import opened Wrappers
  import opened Strings

  /** A record of `get_download_history`: its id, its status, its start
      time ("YYYY-MM-DD HH:MM:SS", or None) and its file name (None when
      the key is missing). */
  datatype Record = Record(id: int, status: string, startedAt: Option<string>, fileName: Option<string>)

  /** The filter values: the status chosen (None for all), the two dates as
      "yyyy-MM-dd" and the search text, already lowercased. */
  datatype Filters = Filters(status: Option<string>, dateFrom: string, dateTo: string, searchText: string)

  /** `if status and item["status"] != status: continue`. */
  predicate StatusOk(r: Record, f: Filters) {
    f.status.None? || f.status.value == [] || r.status == f.status.value
  }

  /** `started_at.split(" ")[0]`: the date part. */
  function DatePart(startedAt: string): string {
    BeforeFirst(startedAt, ' ')
  }

  /** Records without a start time pass; the others need a date part that
      is neither before `dateFrom` nor after `dateTo`, as strings. */
  predicate DateOk(r: Record, f: Filters) {
    r.startedAt.None? || r.startedAt.value == []
    || (!LexLess(DatePart(r.startedAt.value), f.dateFrom) && !LexLess(f.dateTo, DatePart(r.startedAt.value)))
  }

  /** `item.get("file_name", "")`. */
  function FileName(r: Record): string {
    if r.fileName.Some? then r.fileName.value else ""
  }

  /** An empty search passes everything; otherwise the search text must
      occur in the lowercased file name. */
  predicate SearchOk(r: Record, f: Filters) {
    f.searchText == [] || Contains(Lower(FileName(r)), f.searchText)
  }

  predicate Shown(r: Record, f: Filters) {
    StatusOk(r, f) && DateOk(r, f) && SearchOk(r, f)
  }

  /** The shown records, in history order. */
  function Filtered(history: seq<Record>, f: Filters): (shown: seq<Record>)
    ensures |shown| <= |history|
    decreases |history|
  {
    if history == [] then []
    else
      var r := history[|history| - 1];
      Filtered(history[..|history| - 1], f) + (if Shown(r, f) then [r] else [])
  }

  /** The loop of `apply_filters`, given the filter values of the widgets. */
  method ApplyFilters(history: seq<Record>, status: Option<string>, dateFrom: string, dateTo: string,
                      searchBox: string) returns (filtered: seq<Record>)
    ensures filtered == Filtered(history, Filters(status, dateFrom, dateTo, Lower(searchBox)))
  {
    var searchText := Lower(searchBox);
    ghost var f := Filters(status, dateFrom, dateTo, searchText);
    filtered := [];
    for i := 0 to |history|
      invariant filtered == Filtered(history[..i], f)
    {
      assert history[..i + 1][..i] == history[..i];
      var item := history[i];
      if status.Some? && status.value != [] && item.status != status.value {
        continue;
      }
      if item.startedAt.Some? && item.startedAt.value != [] {
        var startedDate := DatePart(item.startedAt.value);
        if LexLess(startedDate, dateFrom) || LexLess(dateTo, startedDate) {
          continue;
        }
      }
      if searchText != [] && !Contains(Lower(FileName(item)), searchText) {
        continue;
      }
      filtered := filtered + [item];
    }
    assert history[..|history|] == history;
  }

  // ------------------------------------------------------------ properties

  /** `a` is `b` with some elements left out, the rest in order. */
  predicate SubsequenceOf<T(==)>(a: seq<T>, b: seq<T>)
    decreases |b|
  {
    if a == [] then true
    else if b == [] then false
    else (a[|a| - 1] == b[|b| - 1] && SubsequenceOf(a[..|a| - 1], b[..|b| - 1])) || SubsequenceOf(a, b[..|b| - 1])
  }

  /** The filtered history keeps the order of the history. */
  lemma {:induction false} FilteredIsSubsequence(history: seq<Record>, f: Filters)
    ensures SubsequenceOf(Filtered(history, f), history)
    decreases |history|
  {
    if history != [] {
      var init := history[..|history| - 1];
      var r := history[|history| - 1];
      var rest := Filtered(init, f);
      FilteredIsSubsequence(init, f);
      if Shown(r, f) {
        var s := rest + [r];
        assert s[..|s| - 1] == rest;
      } else {
        assert Filtered(history, f) == rest;
        assert SubsequenceOf(rest, init);
      }
    }
  }

  /** A record is shown exactly when it is in the history and passes all
      three tests. */
  lemma {:induction false} FilteredMembers(history: seq<Record>, f: Filters, r: Record)
    ensures r in Filtered(history, f) <==> r in history && Shown(r, f)
    decreases |history|
  {
    if history != [] {
      var init := history[..|history| - 1];
      FilteredMembers(init, f, r);
      assert history == init + [history[|history| - 1]];
    }
  }

  /** With a status chosen, every shown record has it. */
  lemma StatusFilter(history: seq<Record>, f: Filters, r: Record)
    requires f.status.Some? && f.status.value != []
    requires r in Filtered(history, f)
    ensures r.status == f.status.value
  {
    FilteredMembers(history, f, r);
  }

  /** A record without a start time is not held back by the dates. */
  lemma NoStartTimePassesDates(r: Record, f: Filters)
    requires r.startedAt.None? || r.startedAt.value == []
    ensures Shown(r, f) <==> StatusOk(r, f) && SearchOk(r, f)
  {
  }

  /** The time of day does not matter: a start time "date time" is judged
      by its date alone, and both bounds are inclusive. */
  lemma DateBoundsInclusive(date: string, time: string, f: Filters)
    requires ' ' !in date
    ensures DatePart(date + " " + time) == date
    ensures date == f.dateFrom && !LexLess(f.dateTo, date) ==>
              DateOk(Record(0, "", Some(date + " " + time), None), f)
    ensures date == f.dateTo && !LexLess(date, f.dateFrom) ==>
              DateOk(Record(0, "", Some(date + " " + time), None), f)
  {
    assert date + " " + time == date + [' '] + time;
    BeforeFirstAppend(date, ' ', time);
    LexLessIrreflexive(date);
  }

  /** An empty search filters nothing. */
  lemma EmptySearch(r: Record, f: Filters)
    requires f.searchText == []
    ensures Shown(r, f) <==> StatusOk(r, f) && DateOk(r, f)
  {
  }

  /** The search ignores the case of the file name. */
  lemma SearchIgnoresCase(r: Record, f: Filters, name: string)
    requires r.fileName == Some(name)
    ensures SearchOk(r, f) <==> SearchOk(r.(fileName := Some(Lower(name))), f)
  {
    LowerIdempotent(name);
  }

  /** A record without a file name matches only the empty search. */
  lemma MissingNameMatchesEmptySearchOnly(r: Record, f: Filters)
    requires r.fileName.None?
    ensures SearchOk(r, f) <==> f.searchText == []
  {
    assert Lower("") == "";
    if f.searchText != [] {
      assert !StartsWith("", f.searchText);
    }
  }
}
