/**
 * The log viewer: reading the daemon's log files line by line, parsing each
 * line of the form `YYYY-MM-DD HH:MM:SS,mmm - LEVEL - module - message`
 * into a structured entry, and merging the newest files into one list that
 * is sorted by timestamp, filtered by level and date, and limited in size.
 */
module Logs {
  import opened Common
  import opened Calendar
  import opened Sorting

  /** One parsed log line. */
  datatype LogEntry = LogEntry(timestamp: string, level: string, moduleName: string, message: string, rawLine: string)

  // ---------------------------------------------------------------------------
  // The line pattern
  // ---------------------------------------------------------------------------

  /** `\w`, restricted to ASCII: a letter, a digit or `_`. */
  predicate IsWordChar(c: char) {
    ('a' <= c <= 'z') || ('A' <= c <= 'Z') || IsDigit(c) || c == '_'
  }

  /** What `(\w+)` can capture. */
  predicate IsLevel(w: string) {
    w != [] && forall i :: 0 <= i < |w| ==> IsWordChar(w[i])
  }

  /** Length of the longest prefix of `s` made of word characters (what a greedy `\w+` takes). */
  function WordPrefix(s: string): (n: nat)
    ensures n <= |s| && forall i :: 0 <= i < n ==> IsWordChar(s[i])
    ensures n == |s| || !IsWordChar(s[n])
    decreases |s|
  {
    if |s| > 0 && IsWordChar(s[0]) then 1 + WordPrefix(s[1..]) else 0
  }

  /** The text `\d{4}-\d{2}-\d{2} \d{2}:\d{2}:\d{2},\d{3}` (digits restricted to ASCII). */
  predicate TimestampShaped(s: string) {
    |s| == 23 && DateShaped(s[..10]) && s[10] == ' ' && s[13] == ':' && s[16] == ':' && s[19] == ','
    && AllDigits(s[11..13]) && AllDigits(s[14..16]) && AllDigits(s[17..19]) && AllDigits(s[20..])
  }

  /**
   * `\s*-`: the blanks at the front of `s`, then a dash; the text after the
   * dash. Giving back blanks never helps the pattern, since a blank is not
   * a dash.
   */
  function Dash(s: string): (r: Option<string>)
    ensures r.Some? ==> |r.value| < |s| && r.value == s[|s| - |r.value|..] && '-' in s
  {
    var t := TrimStart(s);
    if t != [] && t[0] == '-' then
      assert t[0] in s;
      Some(t[1..])
    else None
  }

  /**
   * `\s*(.*)$` matches the rest of a line, blanks stripped at its front,
   * when `.` (anything but a newline) runs to the end, or to a newline that
   * ends the text.
   */
  predicate LineEndOk(t: string) {
    forall i :: 0 <= i < |t| - 1 ==> t[i] != '\n'
  }

  /** What `(.*)` captures: the text without the newline that may end it. */
  function MessageGroup(t: string): (r: string)
    requires LineEndOk(t)
    ensures '\n' !in r && StartsWith(t, r) && |t| - |r| <= 1
  {
    if t != [] && t[|t| - 1] == '\n' then t[..|t| - 1] else t
  }

  /**
   * After the first dash: `\s*(\w+)\s*-`. The level is the maximal run of
   * word characters after the blanks (a shorter run is followed by a word
   * character, which the next `\s*-` cannot take); the rest is the text
   * after the next dash.
   */
  function LevelGroup(a: string): (r: Option<(string, string)>)
    ensures r.Some? ==> IsLevel(r.value.0)
  {
    var b := TrimStart(a);
    var n := WordPrefix(b);
    if n == 0 then None
    else match Dash(b[n..])
      case None => None
      case Some(d) =>
        assert IsLevel(b[..n]) by {
          forall i | 0 <= i < n ensures IsWordChar(b[..n][i]) {
            assert b[..n][i] == b[i];
          }
        }
        Some((b[..n], d))
  }

  /**
   * After the second dash: `\s*([^-]+)\s*-\s*(.*)$`. The group runs up to
   * the next dash, which must not come first; the module group here also
   * holds the blanks `\s*` may take before it, which the `strip()` of the
   * group removes either way. The rest, after its blanks, must fit `(.*)$`.
   */
  function ModuleGroups(d: string): (r: Option<(string, string)>)
    ensures r.Some? ==> '-' !in r.value.0 && '\n' !in r.value.1
  {
    if '-' !in d then None
    else
      var k := IndexOf(d, '-');
      if k == 0 then None
      else
        var t := TrimStart(d[k + 1..]);
        if LineEndOk(t) then Some((d[..k], MessageGroup(t))) else None
  }

  /** The four groups of a matching line. */
  datatype LogMatch = LogMatch(stamp: string, level: string, moduleName: string, message: string)

  /**
   * `re.match(r'^(\d{4}-\d{2}-\d{2} \d{2}:\d{2}:\d{2},\d{3})\s*-\s*(\w+)\s*-\s*([^-]+)\s*-\s*(.*)$', line)`:
   * the stamp is the first 23 characters, then come a dash, the level, a
   * dash, the module, a dash and the message.
   */
  function MatchLogLine(line: string): (r: Option<LogMatch>)
    ensures r.Some? ==> |line| >= 23 && r.value.stamp == line[..23] && TimestampShaped(r.value.stamp)
    ensures r.Some? ==> IsLevel(r.value.level) && '-' !in r.value.moduleName && '\n' !in r.value.message
  {
    if |line| < 23 || !TimestampShaped(line[..23]) then None
    else match Dash(line[23..])
      case None => None
      case Some(a) =>
        match LevelGroup(a)
        case None => None
        case Some((level, d)) =>
          match ModuleGroups(d)
          case None => None
          case Some((moduleName, message)) => Some(LogMatch(line[..23], level, moduleName, message))
  }

  // ---------------------------------------------------------------------------
  // The timestamp
  // ---------------------------------------------------------------------------

  /** The value of a two-digit field of the stamp. */
  function Field2(s: string, i: nat): (v: nat)
    requires i + 2 <= |s| && AllDigits(s[i..i + 2])
    ensures v < 100
  {
    DigitsValue2(s[i..i + 2]);
    DigitsValue(s[i..i + 2])
  }

  /**
   * `datetime.strptime(stamp, '%Y-%m-%d %H:%M:%S,%f')` succeeds: the date
   * exists, the hour is below 24 and the minute and second below 60 (the
   * pattern `%S` admits 60 and 61, which `datetime` then refuses).
   */
  predicate ValidStamp(stamp: string)
    requires TimestampShaped(stamp)
  {
    StrptimeDate(stamp[..10]).Some? && Field2(stamp, 11) < 24 && Field2(stamp, 14) < 60 && Field2(stamp, 17) < 60
  }

  /**
   * The `timestamp` of a matching line: `isoformat()` of the parsed stamp —
   * a `T` between date and time, and the microseconds only when they are
   * not zero — or the stamp itself when it does not parse.
   */
  function ParseLogTimestamp(stamp: string): (r: string)
    requires TimestampShaped(stamp)
    ensures |r| >= 19 && r[..10] == stamp[..10]
    ensures r[10] == 'T' <==> ValidStamp(stamp)
    ensures ValidStamp(stamp) ==> r[11..19] == stamp[11..19] && (|r| == 19 <==> stamp[20..] == "000")
    ensures !ValidStamp(stamp) ==> r == stamp
  {
    if ValidStamp(stamp) then
      var frac := stamp[20..];
      stamp[..10] + "T" + stamp[11..19] + (if frac != "000" then "." + frac + "000" else "")
    else stamp
  }

  // ---------------------------------------------------------------------------
  // _parse_log_line
  // ---------------------------------------------------------------------------

  /** The entry of a matching line: its groups stripped and its timestamp normalised. */
  function MatchedEntry(m: LogMatch, line: string): (r: LogEntry)
    requires TimestampShaped(m.stamp) && IsLevel(m.level) && '-' !in m.moduleName && '\n' !in m.message
    ensures r.rawLine == line && r.level == m.level && IsLevel(r.level)
    ensures |r.timestamp| >= 19 && r.timestamp[..10] == m.stamp[..10]
    ensures '-' !in r.moduleName && '\n' !in r.message
  {
    LevelStrip(m.level);
    StripKeeps(m.moduleName, '-');
    StripKeeps(m.message, '\n');
    LogEntry(ParseLogTimestamp(m.stamp), Strip(m.level), Strip(m.moduleName), Strip(m.message), line)
  }

  /**
   * `_parse_log_line(line)`: the entry of a matching line; any other line
   * becomes an `INFO` entry of module `unknown` carrying the whole line,
   * stamped with the current time `now`. No line makes it return None.
   */
  function ParseLogLine(line: string, now: string): (r: LogEntry)
    ensures r.rawLine == line
    ensures MatchLogLine(line).None? ==> r == LogEntry(now, "INFO", "unknown", line, line)
  {
    match MatchLogLine(line)
    case None => LogEntry(now, "INFO", "unknown", line, line)
    case Some(m) => MatchedEntry(m, line)
  }

  /**
   * The entry of a matching line carries the line's date as the first ten
   * characters of its timestamp, the captured level, and a module and a
   * message that the pattern allows.
   */
  lemma MatchedLine(line: string, now: string)
    requires MatchLogLine(line).Some?
    ensures var r := ParseLogLine(line, now);
            && |r.timestamp| >= 19 && r.timestamp[..10] == line[..10]
            && r.level == MatchLogLine(line).value.level && IsLevel(r.level)
            && '-' !in r.moduleName && '\n' !in r.message
  {
    var m := MatchLogLine(line).value;
    assert m.stamp[..10] == line[..10];
    assert ParseLogLine(line, now) == MatchedEntry(m, line);
  }

  lemma LevelStrip(w: string)
    requires IsLevel(w)
    ensures Strip(w) == w
  {
    forall i | 0 <= i < |w| ensures !IsSpace(w[i]) {
      assert IsWordChar(w[i]);
    }
    StripNoSpace(w);
  }

  /** Stripping only removes characters. */
  lemma StripKeeps(s: string, c: char)
    requires c !in s
    ensures c !in Strip(s)
  {
    var t := TrimStart(s);
    var u := TrimEnd(t);
    forall i | 0 <= i < |u| ensures u[i] != c {
      assert u[i] == t[i] == s[|s| - |t| + i];
    }
  }

  // ---------------------------------------------------------------------------
  // Round trip with the logging format
  // ---------------------------------------------------------------------------

  /** The line `logging` writes with the format `%(asctime)s - %(levelname)s - %(name)s - %(message)s`. */
  function LoggingLine(stamp: string, level: string, moduleName: string, message: string): (line: string)
    ensures |line| == |stamp| + |level| + |moduleName| + |message| + 9
  {
    stamp + (" - " + (level + (" - " + (moduleName + (" - " + message)))))
  }

  lemma TrimStartBlank(x: string)
    ensures TrimStart(" " + x) == TrimStart(x)
  {
    assert (" " + x)[1..] == x;
  }

  lemma DashSeparator(x: string)
    ensures Dash(" - " + x) == Some(" " + x)
  {
    var s := " - " + x;
    assert s[1..] == "- " + x;
    assert TrimStart(s) == "- " + x;
    assert ("- " + x)[1..] == " " + x;
  }

  lemma WordPrefixOf(w: string, rest: string)
    requires IsLevel(w) && rest != [] && !IsWordChar(rest[0])
    ensures WordPrefix(w + rest) == |w| && (w + rest)[..|w|] == w && (w + rest)[|w|..] == rest
  {
  }

  /** The level part of a logging line. */
  lemma LevelGroupOf(level: string, rest: string)
    requires IsLevel(level)
    ensures LevelGroup(" " + (level + (" - " + rest))) == Some((level, " " + rest))
  {
    var x := level + (" - " + rest);
    TrimStartBlank(x);
    assert IsWordChar(x[0]);
    assert TrimStart(x) == x;
    WordPrefixOf(level, " - " + rest);
    DashSeparator(rest);
  }

  /** The first dash of the module part follows the module and one blank. */
  lemma ModuleDash(moduleName: string, message: string)
    requires '-' !in moduleName
    ensures var d := " " + (moduleName + (" - " + message));
            && '-' in d && IndexOf(d, '-') == |moduleName| + 2
            && d[..|moduleName| + 2] == " " + moduleName + " " && d[|moduleName| + 3..] == " " + message
  {
    var d := " " + (moduleName + (" - " + message));
    var k := |moduleName| + 2;
    assert d[k] == '-';
    assert d[..k] == " " + moduleName + " ";
    assert '-' !in d[..k];
    var i := IndexOf(d, '-');
    assert d[k] !in d[..i];
    assert d[k + 1..] == " " + message;
  }

  /** The message part of a logging line: one blank, then a message without newline. */
  lemma MessagePart(message: string)
    requires '\n' !in message
    ensures var t := TrimStart(" " + message);
            LineEndOk(t) && MessageGroup(t) == t && Strip(t) == Strip(message)
  {
    TrimStartBlank(message);
    var t := TrimStart(message);
    forall i | 0 <= i < |t| ensures t[i] != '\n' {
      assert t[i] == message[|message| - |t| + i];
    }
    if t != [] {
      assert t[|t| - 1] != '\n';
      assert TrimStart(t) == t;
    }
  }

  /** The module and message part of a logging line. */
  lemma ModuleGroupsOf(moduleName: string, message: string)
    requires '-' !in moduleName && '\n' !in message
    ensures var g := ModuleGroups(" " + (moduleName + (" - " + message)));
            && g.Some? && Strip(g.value.0) == Strip(moduleName) && Strip(g.value.1) == Strip(message)
  {
    ModuleDash(moduleName, message);
    MessagePart(message);
    StripPadded(moduleName);
  }

  /**
   * Round trip: a line written by `logging` in the format above parses back
   * into its level, its module and its message, blanks at their ends
   * stripped, when the level is a word, the module holds no dash and the
   * message no newline.
   */
  lemma {:induction false} ParseLoggingLine(stamp: string, level: string, moduleName: string, message: string, now: string)
    requires TimestampShaped(stamp) && IsLevel(level) && '-' !in moduleName && '\n' !in message
    ensures var line := LoggingLine(stamp, level, moduleName, message);
            ParseLogLine(line, now) == LogEntry(ParseLogTimestamp(stamp), level, Strip(moduleName), Strip(message), line)
  {
    var line := LoggingLine(stamp, level, moduleName, message);
    var rest := moduleName + (" - " + message);
    var x := level + (" - " + rest);
    assert line[..23] == stamp && line[23..] == " - " + x;
    DashSeparator(x);
    LevelGroupOf(level, rest);
    ModuleGroupsOf(moduleName, message);
    LevelStrip(level);
  }

  /** A line that does not start with a well-formed stamp is kept whole as an `INFO` message. */
  lemma {:induction false} UnstampedLine(line: string, now: string)
    requires |line| < 23 || !TimestampShaped(line[..23])
    ensures ParseLogLine(line, now) == LogEntry(now, "INFO", "unknown", line, line)
  {
    assert MatchLogLine(line).None?;
  }

  // ---------------------------------------------------------------------------
  // _read_log_file
  // ---------------------------------------------------------------------------

  /**
   * The entries one line of a file contributes: none for a blank line, none
   * for an entry whose first ten timestamp characters differ from a
   * non-empty date filter, else the parsed stripped line.
   */
  function LineEntries(line: string, dateFilter: Option<string>, now: string): seq<LogEntry> {
    var l := Strip(line);
    if l == [] then []
    else
      var e := ParseLogLine(l, now);
      if Truthy(dateFilter) && PyPrefix(e.timestamp, 10) != dateFilter.value then [] else [e]
  }

  /** The entries of the lines of a file, in file order. */
  function EntriesOf(lines: seq<string>, dateFilter: Option<string>, now: string): seq<LogEntry>
    decreases |lines|
  {
    if lines == [] then []
    else EntriesOf(lines[..|lines| - 1], dateFilter, now) + LineEntries(lines[|lines| - 1], dateFilter, now)
  }

  lemma EntriesStep(lines: seq<string>, i: nat, dateFilter: Option<string>, now: string)
    requires i < |lines|
    ensures EntriesOf(lines[..i + 1], dateFilter, now) == EntriesOf(lines[..i], dateFilter, now) + LineEntries(lines[i], dateFilter, now)
  {
    assert lines[..i + 1][..i] == lines[..i];
  }

  /**
   * `_read_log_file(path, date_filter)`: `file` is the file's lines, or
   * None when it cannot be opened or decoded, which yields no entry.
   */
  method ReadLogFile(file: Option<seq<string>>, dateFilter: Option<string>, now: string) returns (logs: seq<LogEntry>)
    ensures file.None? ==> logs == []
    ensures file.Some? ==> logs == EntriesOf(file.value, dateFilter, now)
  {
    logs := [];
    if file.None? {
      return;
    }
    var lines := file.value;
    for i := 0 to |lines|
      invariant logs == EntriesOf(lines[..i], dateFilter, now)
    {
      EntriesStep(lines, i, dateFilter, now);
      var line := Strip(lines[i]);
      if line == [] {
        continue;
      }
      var entry := ParseLogLine(line, now);
      if Truthy(dateFilter) {
        var logDate := PyPrefix(entry.timestamp, 10);
        if logDate != dateFilter.value {
          continue;
        }
      }
      logs := logs + [entry];
    }
    assert lines[..|lines|] == lines;
  }

  /**
   * What an entry read from a file satisfies: it stems from a non-blank
   * line, stripped, and carries the filter's date when a date filter is
   * given.
   */
  predicate KeptEntry(e: LogEntry, dateFilter: Option<string>) {
    && e.rawLine != [] && !IsSpace(e.rawLine[0]) && !IsSpace(e.rawLine[|e.rawLine| - 1])
    && (Truthy(dateFilter) ==> PyPrefix(e.timestamp, 10) == dateFilter.value)
  }

  lemma LineEntriesKept(line: string, dateFilter: Option<string>, now: string)
    ensures var es := LineEntries(line, dateFilter, now);
            es == [] || (|es| == 1 && KeptEntry(es[0], dateFilter))
  {
    StripEnds(line);
    var l := Strip(line);
    if l != [] {
      ParsedRawLine(l, now);
    }
  }

  /** The entry of a line records that line as its raw text. */
  lemma ParsedRawLine(l: string, now: string)
    ensures ParseLogLine(l, now).rawLine == l
  {
  }

  /** Every entry read from a file is kept for a reason the reading states. */
  lemma {:induction false} EntriesOfKept(lines: seq<string>, dateFilter: Option<string>, now: string)
    ensures forall e :: e in EntriesOf(lines, dateFilter, now) ==> KeptEntry(e, dateFilter)
    decreases |lines|
  {
    if lines != [] {
      EntriesOfKept(lines[..|lines| - 1], dateFilter, now);
      LineEntriesKept(lines[|lines| - 1], dateFilter, now);
      assert EntriesOf(lines, dateFilter, now)
          == EntriesOf(lines[..|lines| - 1], dateFilter, now) + LineEntries(lines[|lines| - 1], dateFilter, now);
    }
  }

  /** The number of lines that are not blank. */
  function NonBlankCount(lines: seq<string>): nat
    decreases |lines|
  {
    if lines == [] then 0
    else NonBlankCount(lines[..|lines| - 1]) + (if Strip(lines[|lines| - 1]) == [] then 0 else 1)
  }

  /** Without a date filter every non-blank line gives exactly one entry. */
  lemma {:induction false} EntriesOfUnfiltered(lines: seq<string>, dateFilter: Option<string>, now: string)
    requires !Truthy(dateFilter)
    ensures |EntriesOf(lines, dateFilter, now)| == NonBlankCount(lines)
    decreases |lines|
  {
    if lines != [] {
      EntriesOfUnfiltered(lines[..|lines| - 1], dateFilter, now);
    }
  }

  // ---------------------------------------------------------------------------
  // get_recent_logs
  // ---------------------------------------------------------------------------

  /** The sort key `x.get('timestamp', '')`. */
  function TimestampKey(e: LogEntry): string {
    e.timestamp
  }

  /** The filter key `x.get('level', '').upper()`. */
  function LevelKey(e: LogEntry): string {
    Upper(e.level)
  }

  /** The entries a file contributes; a file that cannot be read contributes none. */
  function FileEntries(file: Option<seq<string>>, dateFilter: Option<string>, now: string): seq<LogEntry> {
    if file.None? then [] else EntriesOf(file.value, dateFilter, now)
  }

  /** The entries of the given files, file after file. */
  function CollectedEntries(files: seq<Option<seq<string>>>, dateFilter: Option<string>, now: string): seq<LogEntry>
    decreases |files|
  {
    if files == [] then []
    else CollectedEntries(files[..|files| - 1], dateFilter, now) + FileEntries(files[|files| - 1], dateFilter, now)
  }

  /** The level filter, then the limit, applied to the sorted entries. */
  function Select(sorted: seq<LogEntry>, limit: int, level: Option<string>): seq<LogEntry> {
    var filtered := if Truthy(level) then Filter(sorted, LevelKey, Upper(level.value)) else sorted;
    if limit > 0 then PyPrefix(filtered, limit) else filtered
  }

  /**
   * What `get_recent_logs` answers, given the log files newest first: the
   * entries of the ten newest files, sorted newest timestamp first (ties
   * keep their reading order), filtered by level (case-insensitively) when
   * a level is given, and cut to `limit` entries when `limit` is positive.
   */
  function RecentLogs(dirExists: bool, files: seq<Option<seq<string>>>, limit: int, level: Option<string>,
                      dateFilter: Option<string>, now: string): seq<LogEntry>
  {
    if !dirExists then []
    else Select(SortBy(CollectedEntries(PyPrefix(files, 10), dateFilter, now), TimestampKey, true), limit, level)
  }

  /** The reading loop of `get_recent_logs`: the entries of each file in turn, extended onto one list. */
  method CollectLogs(recent: seq<Option<seq<string>>>, dateFilter: Option<string>, now: string)
    returns (allLogs: seq<LogEntry>)
    ensures allLogs == CollectedEntries(recent, dateFilter, now)
  {
    allLogs := [];
    for i := 0 to |recent|
      invariant allLogs == CollectedEntries(recent[..i], dateFilter, now)
    {
      assert recent[..i + 1][..i] == recent[..i];
      var fileLogs := ReadLogFile(recent[i], dateFilter, now);
      allLogs := allLogs + fileLogs;
    }
    assert recent[..|recent|] == recent;
  }

  /**
   * `get_recent_logs(limit, level, date_filter)`: `files` are the `*.log`
   * files of the logs directory, newest modification first; the answer is
   * the entries and their number. `dirError` is the text of an exception
   * raised while looking at the logs directory (checking it or listing it);
   * the answer is then empty and carries that text as its error.
   */
  method GetRecentLogs(dirError: Option<string>, dirExists: bool, files: seq<Option<seq<string>>>, limit: int,
                       level: Option<string>, dateFilter: Option<string>, now: string)
    returns (logs: seq<LogEntry>, total: nat, error: Option<string>)
    ensures dirError.Some? ==> logs == [] && total == 0 && error == dirError
    ensures dirError.None? ==> logs == RecentLogs(dirExists, files, limit, level, dateFilter, now) && error.None?
    ensures total == |logs|
  {
    if dirError.Some? {
      return [], 0, dirError;
    }
    error := None;
    if !dirExists {
      return [], 0, None;
    }
    var allLogs := CollectLogs(PyPrefix(files, 10), dateFilter, now);
    allLogs := SortBy(allLogs, TimestampKey, true);
    if Truthy(level) {
      var levelUpper := Upper(level.value);
      allLogs := Filter(allLogs, LevelKey, levelUpper);
    }
    if limit > 0 {
      allLogs := PyPrefix(allLogs, limit);
    }
    logs, total := allLogs, |allLogs|;
  }

  /**
   * Filtering and limiting keep the order and only keep entries; the level
   * filter keeps every occurrence of an entry of the requested level and
   * nothing else; a positive limit keeps the first `limit` entries of the
   * unlimited answer; without level and limit everything is kept.
   */
  lemma {:induction false} SelectProperties(sorted: seq<LogEntry>, limit: int, level: Option<string>)
    requires Ordered(sorted, TimestampKey, true)
    ensures var logs := Select(sorted, limit, level);
            && Ordered(logs, TimestampKey, true)
            && (Truthy(level) ==> forall e :: e in logs ==> Upper(e.level) == Upper(level.value))
            && (Truthy(level) && limit <= 0 ==>
                  forall e :: multiset(logs)[e] == if Upper(e.level) == Upper(level.value) then multiset(sorted)[e] else 0)
            && (limit > 0 ==> |logs| <= limit)
            && (limit > 0 ==> var all := Select(sorted, 0, level);
                              |logs| == (if limit < |all| then limit else |all|) && logs == all[..|logs|])
            && (forall e :: e in logs ==> e in sorted)
            && (!Truthy(level) && limit <= 0 ==> logs == sorted)
  {
    var filtered := if Truthy(level) then Filter(sorted, LevelKey, Upper(level.value)) else sorted;
    if Truthy(level) {
      FilterOrdered(sorted, LevelKey, Upper(level.value), TimestampKey, true);
      FilterMembers(sorted, LevelKey, Upper(level.value));
      FilterMultiset(sorted, LevelKey, Upper(level.value));
      forall e | e in filtered ensures Upper(e.level) == Upper(level.value) && e in sorted {
        assert LevelKey(e) == Upper(level.value);
      }
    }
    if limit > 0 {
      var logs := PyPrefix(filtered, limit);
      PrefixOrdered(filtered, |logs|, TimestampKey, true);
      forall e | e in logs ensures e in filtered {
        var i :| 0 <= i < |logs| && logs[i] == e;
        assert filtered[i] == e;
      }
    }
  }

  /**
   * The answer is ordered newest first, holds only entries of the requested
   * level and, without a limit, every entry of that level read from the ten
   * newest files, as often as it was read; a positive limit keeps the first
   * `limit` entries of the unlimited answer; it holds only entries read from
   * the ten newest files, and without level filter and limit it holds all of
   * them.
   */
  lemma {:induction false} RecentLogsProperties(dirExists: bool, files: seq<Option<seq<string>>>, limit: int,
                                                 level: Option<string>, dateFilter: Option<string>, now: string)
    ensures var logs := RecentLogs(dirExists, files, limit, level, dateFilter, now);
            && Ordered(logs, TimestampKey, true)
            && (Truthy(level) ==> forall e :: e in logs ==> Upper(e.level) == Upper(level.value))
            && (dirExists && Truthy(level) && limit <= 0 ==>
                  forall e :: multiset(logs)[e] == if Upper(e.level) == Upper(level.value)
                                                   then multiset(CollectedEntries(PyPrefix(files, 10), dateFilter, now))[e]
                                                   else 0)
            && (limit > 0 ==> |logs| <= limit)
            && (limit > 0 ==> var all := RecentLogs(dirExists, files, 0, level, dateFilter, now);
                              |logs| == (if limit < |all| then limit else |all|) && logs == all[..|logs|])
            && (forall e :: e in logs ==> e in CollectedEntries(PyPrefix(files, 10), dateFilter, now))
            && (dirExists && !Truthy(level) && limit <= 0 ==>
                  multiset(logs) == multiset(CollectedEntries(PyPrefix(files, 10), dateFilter, now)))
  {
    if dirExists {
      var all := CollectedEntries(PyPrefix(files, 10), dateFilter, now);
      var sorted := SortBy(all, TimestampKey, true);
      SortByOrdered(all, TimestampKey, true);
      SortByPermutation(all, TimestampKey, true);
      SelectProperties(sorted, limit, level);
      forall e | e in sorted ensures e in all {
        assert e in multiset(sorted);
      }
    }
  }
}
