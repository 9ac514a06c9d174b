/**
 * Request-parameter checks shared by the web routes: page/size clamping, the
 * log-file name allowlist and the `YYYY-MM-DD` date check. A rejected
 * parameter is the HTTP 400 error and its detail text.
 */
module Dependencies {
  import opened Common
  import opened Calendar

  /** A checked request parameter: passed through unchanged, or refused with a 400 detail. */
  datatype Checked<T> = Accepted(value: T) | Rejected(detail: string)

  // ---------------------------------------------------------------------------
  // Pagination
  // ---------------------------------------------------------------------------

  datatype Pagination = Pagination(page: int, size: int, offset: int)

  function Max(a: int, b: int): int { if a >= b then a else b }
  function Min(a: int, b: int): int { if a <= b then a else b }

  /**
   * `PaginationParams(page, size, max_size)`: the page is never negative,
   * the size lies in 1..max_size, the offset is where that page starts, and
   * values already in range are kept.
   */
  function MakePagination(page: int, size: int, maxSize: int): (p: Pagination)
    ensures p.page >= 0 && p.offset == p.page * p.size
    ensures maxSize >= 1 ==> 1 <= p.size <= maxSize && p.offset >= 0
    ensures page >= 0 ==> p.page == page
    ensures page < 0 ==> p.page == 0
    ensures 1 <= size <= maxSize ==> p.size == size
    ensures size < 1 && maxSize >= 1 ==> p.size == 1
    ensures size > maxSize ==> p.size == maxSize
  {
    var pg := Max(0, page);
    var sz := Min(maxSize, Max(1, size));
    Pagination(pg, sz, pg * sz)
  }

  /** The page size the routes use when the caller gives no `max_size`. */
  const DefaultMaxSize := 100

  /**
   * `get_pagination_params(page, size)`: the query values clamped with the
   * routes' default ceiling; a size within 1..100 on a page that is not
   * negative is taken as given.
   */
  function PaginationFor(page: int, size: int): (p: Pagination)
    ensures 1 <= p.size <= DefaultMaxSize && p.page >= 0 && p.offset == p.page * p.size
    ensures page >= 0 ==> p.page == page
    ensures 1 <= size <= DefaultMaxSize ==> p.size == size
  {
    MakePagination(page, size, DefaultMaxSize)
  }

  /** Clamping is idempotent: clamped parameters pass through a second time unchanged. */
  lemma MakePaginationIdempotent(page: int, size: int, maxSize: int)
    requires maxSize >= 1
    ensures var p := MakePagination(page, size, maxSize);
            MakePagination(p.page, p.size, maxSize) == p
  {
  }

  // ---------------------------------------------------------------------------
  // Log file names
  // ---------------------------------------------------------------------------

  /** The name prefixes of the log files the web UI may serve. */
  const LogPrefixes: seq<string> := ["webui_", "greythr_attendance_", "launchd_stdout", "launchd_stderr"]

  predicate AllowedLogPrefix(filename: string) {
    exists i :: 0 <= i < |LogPrefixes| && StartsWith(filename, LogPrefixes[i])
  }

  /** The name could leave the logs directory: it holds `..`, `/` or `\`. */
  predicate Traverses(filename: string) {
    Contains(filename, "..") || '/' in filename || '\\' in filename
  }

  /**
   * `validate_log_filename(filename)`: the prefix check comes first, then the
   * traversal check; an accepted name is returned as given.
   */
  function ValidateLogFilename(filename: string): (r: Checked<string>)
    ensures r.Accepted? <==> AllowedLogPrefix(filename) && !Traverses(filename)
    ensures r.Accepted? ==> r.value == filename
    ensures !AllowedLogPrefix(filename) ==> r == Rejected("Invalid log filename: " + filename)
    ensures AllowedLogPrefix(filename) && Traverses(filename) ==> r == Rejected("Invalid characters in filename")
  {
    if !(StartsWith(filename, "webui_") || StartsWith(filename, "greythr_attendance_")
         || StartsWith(filename, "launchd_stdout") || StartsWith(filename, "launchd_stderr")) then
      assert !AllowedLogPrefix(filename) by {
        forall i | 0 <= i < |LogPrefixes| ensures !StartsWith(filename, LogPrefixes[i]) {
        }
      }
      Rejected("Invalid log filename: " + filename)
    else
      assert AllowedLogPrefix(filename) by {
        if StartsWith(filename, "webui_") { assert StartsWith(filename, LogPrefixes[0]); }
        else if StartsWith(filename, "greythr_attendance_") { assert StartsWith(filename, LogPrefixes[1]); }
        else if StartsWith(filename, "launchd_stdout") { assert StartsWith(filename, LogPrefixes[2]); }
        else { assert StartsWith(filename, LogPrefixes[3]); }
      }
      if Contains(filename, "..") || '/' in filename || '\\' in filename then
        Rejected("Invalid characters in filename")
      else Accepted(filename)
  }

  // ---------------------------------------------------------------------------
  // Dates
  // ---------------------------------------------------------------------------

  /**
   * `re.match(r'^\d{4}-\d{2}-\d{2}$', s)`: the `$` also matches just before
   * a final newline, so one trailing "\n" passes this check.
   */
  predicate DatePatternMatches(s: string) {
    DateShaped(s) || (|s| == 11 && DateShaped(s[..10]) && s[10] == '\n')
  }

  /** The three numbers of `YYYY-MM-DD` text. */
  function ShapedDate(s: string): Date
    requires DateShaped(s)
  {
    Date(DigitsValue(s[..4]), DigitsValue(s[5..7]), DigitsValue(s[8..]))
  }

  /**
   * `validate_date_format(date_str)`: the shape check first, then
   * `strptime(date_str, '%Y-%m-%d')`; accepted text is returned as given.
   */
  function ValidateDateFormat(s: string): (r: Checked<string>)
    ensures r.Accepted? <==> DateShaped(s) && ValidDate(ShapedDate(s))
    ensures r.Accepted? ==> r.value == s
    ensures !DatePatternMatches(s) ==> r == Rejected("Invalid date format. Use YYYY-MM-DD")
    ensures DatePatternMatches(s) && r.Rejected? ==> r == Rejected("Invalid date value")
  {
    if !DatePatternMatches(s) then Rejected("Invalid date format. Use YYYY-MM-DD")
    else
      PatternThenStrptime(s);
      match StrptimeDate(s)
      case None => Rejected("Invalid date value")
      case Some(_) => Accepted(s)
  }

  /** On text that passes the shape check, strptime succeeds exactly for real dates without a newline. */
  lemma PatternThenStrptime(s: string)
    requires DatePatternMatches(s)
    ensures StrptimeDate(s).Some? <==> DateShaped(s) && ValidDate(ShapedDate(s))
  {
    if DateShaped(s) {
      StrptimeDateShaped(s);
    } else {
      assert s == s[..10] + "\n";
      StrptimeDateTrailing(s[..10], "\n");
    }
  }

  /** Every real date written as `YYYY-MM-DD` is accepted. */
  lemma ValidateIsoDate(d: Date)
    requires ValidDate(d)
    ensures ValidateDateFormat(IsoDate(d)) == Accepted(IsoDate(d))
  {
    StrptimeIsoDate(d);
    StrptimeDateShaped(IsoDate(d));
  }

  /** A well-shaped date whose day does not exist in its month is refused as a bad value. */
  lemma ValidateImpossibleDay(s: string)
    requires DateShaped(s)
    requires 1 <= ShapedDate(s).month <= 12 && ShapedDate(s).day > DaysInMonth(ShapedDate(s).year, ShapedDate(s).month)
    ensures ValidateDateFormat(s) == Rejected("Invalid date value")
  {
  }
}
