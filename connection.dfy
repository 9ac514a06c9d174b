/**
 * The file-system repositories the web UI reads through: JSON files that may
 * be missing or broken, the per-day attendance files and the dates their
 * names carry, and the tail of a log file.
 *
 * A directory listing, a file's text and a parsed JSON document are inputs;
 * nothing here touches a disk.
 */
module Connection {
  import opened Common
  import opened Sorting
  import opened Models

  // ---------------------------------------------------------------------------
  // read_json_file
  // ---------------------------------------------------------------------------

  /** What reading a JSON file can meet. */
  datatype JsonFile<T> = Missing | InvalidJson | ReadError | Parsed(document: T)

  /** `read_json_file(path)`: the document, or None when the file is missing, broken or unreadable. */
  function ReadJsonFile<T>(file: JsonFile<T>): (r: Option<T>)
    ensures r.Some? <==> file.Parsed?
    ensures file.Parsed? ==> r.value == file.document
  {
    match file
    case Parsed(d) => Some(d)
    case _ => None
  }

  // ---------------------------------------------------------------------------
  // ActivitiesRepository
  // ---------------------------------------------------------------------------

  const FilePrefix := "attendance_"
  const FileSuffix := ".json"

  /** The name test of `list_activity_files`. */
  predicate IsActivityFile(name: string) {
    StartsWith(name, FilePrefix) && EndsWith(name, FileSuffix)
  }

  /** The prefix and the suffix cannot overlap: `'.'` does not occur in "attendance_". */
  lemma ActivityFileLength(name: string)
    requires IsActivityFile(name)
    ensures |name| >= |FilePrefix| + |FileSuffix|
  {
    forall i | 0 <= i < |FilePrefix| ensures name[i] != '.' {
      assert name[i] == name[..|FilePrefix|][i] == FilePrefix[i];
    }
    var k := |name| - |FileSuffix|;
    assert name[k] == '.' by {
      assert name[k] == name[k..][0] == FileSuffix[0];
    }
  }

  /** `filename[11:-5]`: the name without "attendance_" and ".json". */
  function DateOfFile(name: string): (d: string)
    requires IsActivityFile(name)
    ensures |d| + |FilePrefix| + |FileSuffix| == |name|
    ensures name == FilePrefix + d + FileSuffix
  {
    ActivityFileLength(name);
    var d := name[|FilePrefix|..|name| - |FileSuffix|];
    assert name == name[..|FilePrefix|] + d + name[|name| - |FileSuffix|..];
    d
  }

  /** The file of a date is an activity file, and its date reads back. */
  lemma DateOfFileRoundTrip(d: string)
    ensures IsActivityFile(FilePrefix + d + FileSuffix)
    ensures DateOfFile(FilePrefix + d + FileSuffix) == d
  {
    var name := FilePrefix + d + FileSuffix;
    assert name[..|FilePrefix|] == FilePrefix;
    assert name[|name| - |FileSuffix|..] == FileSuffix;
  }

  /** The dates of the activity files in `names`, in listing order. */
  function DatesOf(names: seq<string>): seq<string>
    decreases |names|
  {
    if names == [] then []
    else
      var last := names[|names| - 1];
      DatesOf(names[..|names| - 1]) + (if IsActivityFile(last) then [DateOfFile(last)] else [])
  }

  /** A date is listed exactly when some activity file carries it. */
  lemma {:induction false} DatesOfMembers(names: seq<string>, d: string)
    ensures d in DatesOf(names) <==> exists i :: 0 <= i < |names| && IsActivityFile(names[i]) && DateOfFile(names[i]) == d
    decreases |names|
  {
    if names != [] {
      var init := names[..|names| - 1];
      DatesOfMembers(init, d);
      if exists i :: 0 <= i < |names| && IsActivityFile(names[i]) && DateOfFile(names[i]) == d {
        var i :| 0 <= i < |names| && IsActivityFile(names[i]) && DateOfFile(names[i]) == d;
        if i < |init| {
          assert init[i] == names[i];
        }
      }
      if d in DatesOf(init) {
        var i :| 0 <= i < |init| && IsActivityFile(init[i]) && DateOfFile(init[i]) == d;
        assert names[i] == init[i];
      }
    }
  }

  /** The sort key of a date: the date itself. */
  function DateKey(d: string): string {
    d
  }

  /**
   * `list_activity_files()`: the dates of the listed files, newest first.
   * The order of the listing itself (by modification time) does not matter.
   */
  method ListActivityFiles(names: seq<string>) returns (dates: seq<string>)
    ensures dates == SortBy(DatesOf(names), DateKey, true)
    ensures Ordered(dates, DateKey, true)
    ensures multiset(dates) == multiset(DatesOf(names))
  {
    var found: seq<string> := [];
    var i := 0;
    while i < |names|
      invariant 0 <= i <= |names|
      invariant found == DatesOf(names[..i])
    {
      assert names[..i + 1][..i] == names[..i];
      var filename := names[i];
      if StartsWith(filename, "attendance_") && EndsWith(filename, ".json") {
        found := found + [DateOfFile(filename)];
      }
      i := i + 1;
    }
    assert names[..|names|] == names;
    dates := SortBy(found, DateKey, true);
    SortByOrdered(found, DateKey, true);
    SortByPermutation(found, DateKey, true);
  }

  /** Python's `a <= b` on str. */
  predicate StrLessEq(a: string, b: string) {
    a == b || StrLess(a, b)
  }

  /** The test `get_activities_in_range` applies to each date. */
  predicate Kept(d: string, records: map<string, Activity>, start: string, end: string) {
    StrLessEq(start, d) && StrLessEq(d, end) && d in records && records[d].NonEmpty()
  }

  /** The dates among `dates` whose activity is returned, in order. */
  function KeptDates(dates: seq<string>, records: map<string, Activity>, start: string, end: string): (r: seq<string>)
    ensures forall i :: 0 <= i < |r| ==> Kept(r[i], records, start, end) && r[i] in dates
    decreases |dates|
  {
    if dates == [] then []
    else
      var init := dates[..|dates| - 1];
      var last := dates[|dates| - 1];
      var r := KeptDates(init, records, start, end) + (if Kept(last, records, start, end) then [last] else []);
      assert forall i :: 0 <= i < |r| ==> r[i] in init || r[i] == last;
      r
  }

  /** The activities of kept dates. */
  function ActivitiesOf(dates: seq<string>, records: map<string, Activity>): (r: seq<Activity>)
    requires forall i :: 0 <= i < |dates| ==> dates[i] in records
    ensures |r| == |dates| && forall i :: 0 <= i < |dates| ==> r[i] == records[dates[i]]
  {
    seq(|dates|, i requires 0 <= i < |dates| => records[dates[i]])
  }

  /** A date is kept exactly when it is listed and passes the test. */
  lemma {:induction false} KeptDatesMembers(dates: seq<string>, records: map<string, Activity>, start: string, end: string, d: string)
    ensures d in KeptDates(dates, records, start, end) <==> d in dates && Kept(d, records, start, end)
    decreases |dates|
  {
    if dates != [] {
      var init := dates[..|dates| - 1];
      KeptDatesMembers(init, records, start, end, d);
      assert dates == init + [dates[|dates| - 1]];
    }
  }

  /** Keeping some dates of a newest-first list leaves them newest first. */
  lemma {:induction false} KeptDatesOrdered(dates: seq<string>, records: map<string, Activity>, start: string, end: string)
    requires Ordered(dates, DateKey, true)
    ensures Ordered(KeptDates(dates, records, start, end), DateKey, true)
    decreases |dates|
  {
    if dates != [] {
      var init := dates[..|dates| - 1];
      var last := dates[|dates| - 1];
      KeptDatesOrdered(init, records, start, end);
      var a := KeptDates(init, records, start, end);
      if Kept(last, records, start, end) {
        var r := a + [last];
        forall i, j | 0 <= i < j < |r| ensures !Before(DateKey(r[j]), DateKey(r[i]), true) {
          if j == |a| {
            var k :| 0 <= k < |init| && init[k] == r[i];
            assert dates[k] == r[i];
          }
        }
      }
    }
  }

  /** One more date adds its activity when it is kept. */
  lemma KeptStep(dates: seq<string>, i: nat, records: map<string, Activity>, start: string, end: string)
    requires i < |dates|
    ensures KeptDates(dates[..i + 1], records, start, end)
            == KeptDates(dates[..i], records, start, end) + (if Kept(dates[i], records, start, end) then [dates[i]] else [])
  {
    assert dates[..i + 1][..i] == dates[..i];
  }

  /** The activities of one more kept date follow those of the dates before it. */
  lemma ActivitiesOfSnoc(dates: seq<string>, d: string, records: map<string, Activity>)
    requires forall i :: 0 <= i < |dates| ==> dates[i] in records
    requires d in records
    ensures ActivitiesOf(dates + [d], records) == ActivitiesOf(dates, records) + [records[d]]
  {
  }

  /**
   * `get_activities_in_range(start, end)`: the non-empty activities of the
   * listed dates `d` with `start <= d <= end`, newest first.
   */
  method GetActivitiesInRange(names: seq<string>, records: map<string, Activity>, start: string, end: string)
    returns (activities: seq<Activity>)
    ensures var kept := KeptDates(SortBy(DatesOf(names), DateKey, true), records, start, end);
            && activities == ActivitiesOf(kept, records)
            && Ordered(kept, DateKey, true)
  {
    var dates := ListActivityFiles(names);
    activities := [];
    var i := 0;
    while i < |dates|
      invariant 0 <= i <= |dates|
      invariant activities == ActivitiesOf(KeptDates(dates[..i], records, start, end), records)
    {
      KeptStep(dates, i, records, start, end);
      var date := dates[i];
      if StrLessEq(start, date) && StrLessEq(date, end) {
        if date in records && records[date].NonEmpty() {
          ActivitiesOfSnoc(KeptDates(dates[..i], records, start, end), date, records);
          activities := activities + [records[date]];
        }
      }
      i := i + 1;
    }
    assert dates[..|dates|] == dates;
    KeptDatesOrdered(dates, records, start, end);
  }

  // ---------------------------------------------------------------------------
  // LogsRepository.read_log_file
  // ---------------------------------------------------------------------------

  /**
   * `read_log_file(filename, lines)`: None for a missing file; the whole text
   * without `lines`; otherwise the segments `[-lines:]` of the text split at
   * '\n', joined again by '\n'.
   */
  function ReadLogFile(file: Option<string>, lines: Option<int>): (r: Option<string>)
    ensures r.None? <==> file.None?
    ensures file.Some? && lines.None? ==> r == file
  {
    match file
    case None => None
    case Some(content) =>
      match lines
      case None => Some(content)
      case Some(n) => Some(JoinWith(PySuffix(SplitOn(content, '\n'), -n), '\n'))
  }

  /** Joining splits at any boundary between parts. */
  lemma {:induction false} JoinWithAt(parts: seq<string>, k: nat, sep: char)
    requires 0 < k < |parts|
    ensures JoinWith(parts, sep) == JoinWith(parts[..k], sep) + [sep] + JoinWith(parts[k..], sep)
    decreases k
  {
    if k > 1 {
      JoinWithAt(parts[1..], k - 1, sep);
      assert parts[1..][..k - 1] == parts[1..k];
      assert parts[1..][k - 1..] == parts[k..];
      assert parts[..k][1..] == parts[1..k];
    }
  }

  /** The text a tail of the split lines joins to ends the text. */
  lemma TailEndsText(content: string, k: nat)
    requires k < |SplitOn(content, '\n')|
    ensures EndsWith(content, JoinWith(SplitOn(content, '\n')[k..], '\n'))
  {
    var parts := SplitOn(content, '\n');
    JoinSplit(content, '\n');
    if k > 0 {
      JoinWithAt(parts, k, '\n');
    } else {
      assert parts[k..] == parts;
    }
  }

  /** Splitting the join of a tail of the split lines gives that tail back. */
  lemma TailSplits(content: string, k: nat)
    requires k < |SplitOn(content, '\n')|
    ensures SplitOn(JoinWith(SplitOn(content, '\n')[k..], '\n'), '\n') == SplitOn(content, '\n')[k..]
  {
    var parts := SplitOn(content, '\n');
    var tail := parts[k..];
    assert forall i :: 0 <= i < |tail| ==> tail[i] == parts[k + i];
    SplitJoin(tail, '\n');
  }

  /**
   * With `lines = n > 0` the result is the text from the start of its last
   * min(n, count) lines, and splitting it gives exactly those lines.
   */
  lemma ReadLogFileTail(content: string, n: int)
    requires n > 0
    ensures var parts := SplitOn(content, '\n');
            var r := ReadLogFile(Some(content), Some(n)).value;
            && EndsWith(content, r)
            && SplitOn(r, '\n') == parts[|parts| - (if n < |parts| then n else |parts|)..]
  {
    var parts := SplitOn(content, '\n');
    var k := |parts| - (if n < |parts| then n else |parts|);
    assert PySuffix(parts, -n) == parts[k..];
    TailEndsText(content, k);
    TailSplits(content, k);
  }

  /** With `lines = 0`, `[-0:]` is the whole list, so the whole text comes back. */
  lemma ReadLogFileZero(content: string)
    ensures ReadLogFile(Some(content), Some(0)) == Some(content)
  {
    JoinSplit(content, '\n');
  }

  /** With `lines = -n < 0`, `[n:]` drops the first n lines instead of keeping the last ones. */
  lemma ReadLogFileNegative(content: string, n: int)
    requires n > 0
    ensures var parts := SplitOn(content, '\n');
            n < |parts| ==> SplitOn(ReadLogFile(Some(content), Some(-n)).value, '\n') == parts[n..]
  {
    var parts := SplitOn(content, '\n');
    if n < |parts| {
      assert PySuffix(parts, n) == parts[n..];
      TailSplits(content, n);
    }
  }
}
