/**
 * The uptime text shown by the dashboard and the service page, and the
 * service page's reading of that text back into seconds.
 */
module Uptime {
  import opened Common

  /** The two numbers an uptime text shows, with the unit pair they use. */
  datatype Parts =
    | Secs(s: int)
    | MinSecs(m: int, s: int)
    | HoursMins(h: int, m: int)
    | DaysHours(d: int, h: int)

  /**
   * How many whole units of each kind `seconds` holds: below a minute the
   * seconds themselves; below an hour whole minutes and the remaining
   * seconds; below a day whole hours and the remaining whole minutes; from a
   * day on whole days and the remaining whole hours.
   */
  function Decompose(seconds: int): (p: Parts)
    ensures seconds < 60 <==> p.Secs?
    ensures p.Secs? ==> p.s == seconds
    ensures p.MinSecs? ==> 60 <= seconds < 3600 && 1 <= p.m < 60 && 0 <= p.s < 60 && 60 * p.m + p.s == seconds
    ensures p.HoursMins? ==> (3600 <= seconds < 86400 && 1 <= p.h < 24 && 0 <= p.m < 60
                              && 3600 * p.h + 60 * p.m <= seconds < 3600 * p.h + 60 * p.m + 60)
    ensures p.DaysHours? ==> (86400 <= seconds && 1 <= p.d && 0 <= p.h < 24
                              && 86400 * p.d + 3600 * p.h <= seconds < 86400 * p.d + 3600 * p.h + 3600)
  {
    if seconds < 60 then Secs(seconds)
    else if seconds < 3600 then MinSecs(seconds / 60, seconds % 60)
    else if seconds < 86400 then HoursMins(seconds / 3600, seconds % 3600 / 60)
    else DaysHours(seconds / 86400, seconds % 86400 / 3600)
  }

  function Render(p: Parts): string {
    match p
    case Secs(s) => IntToString(s) + "s"
    case MinSecs(m, s) => IntToString(m) + "m " + IntToString(s) + "s"
    case HoursMins(h, m) => IntToString(h) + "h " + IntToString(m) + "m"
    case DaysHours(d, h) => IntToString(d) + "d " + IntToString(h) + "h"
  }

  /** `format_uptime(seconds)`: "Ns", "Mm Ss", "Hh Mm" or "Dd Hh". */
  function FormatUptime(seconds: int): string {
    Render(Decompose(seconds))
  }

  /** Python's `int(x)` on the first blank-separated word, raising (None) when there is none. */
  function FirstInt(words: seq<string>): Option<int> {
    if |words| == 0 then None else ParseInt(words[0])
  }

  /** The "Hh Mm" reading: blank out `h` and `m`, then hours and minutes are the first two words. */
  function ReadHoursMinutes(u: string): int {
    var parts := SplitWs(ReplaceChar(ReplaceChar(u, 'h', " "), 'm', " "));
    var hours := if |parts| > 0 then ParseInt(parts[0]) else Some(0);
    var minutes := if |parts| > 1 then ParseInt(parts[1]) else Some(0);
    if hours.None? || minutes.None? then 0 else hours.value * 3600 + minutes.value * 60
  }

  /** The one-unit reading: delete the unit letter, then the first word counts units of `scale` seconds. */
  function ReadUnit(u: string, unit: char, scale: int): int {
    match FirstInt(SplitWs(ReplaceChar(u, unit, "")))
    case None => 0
    case Some(n) => n * scale
  }

  /**
   * `_parse_uptime_seconds(uptime_str)`: with both an `h` and an `m`, the
   * first two words after blanking those letters are hours and minutes;
   * with only an `m`, the first word after deleting it is minutes; with only
   * an `s`, the first word after deleting it is seconds. Missing or empty
   * text, text with none of the three letters, and any failed `int()` give 0.
   */
  function ParseUptimeSeconds(uptime: Option<string>): (r: int)
    ensures !Truthy(uptime) ==> r == 0
    ensures Truthy(uptime) && 'h' !in uptime.value && 'm' !in uptime.value && 's' !in uptime.value ==> r == 0
    ensures Truthy(uptime) && 'h' in uptime.value && 'm' in uptime.value ==>
              var parts := SplitWs(ReplaceChar(ReplaceChar(uptime.value, 'h', " "), 'm', " "));
              (|parts| > 0 && ParseInt(parts[0]).None?) || (|parts| > 1 && ParseInt(parts[1]).None?) ==> r == 0
    ensures Truthy(uptime) && 'h' in uptime.value && 'm' in uptime.value ==>
              var parts := SplitWs(ReplaceChar(ReplaceChar(uptime.value, 'h', " "), 'm', " "));
              (|parts| > 0 ==> ParseInt(parts[0]).Some?) && (|parts| > 1 ==> ParseInt(parts[1]).Some?) ==>
                r == 3600 * (if |parts| > 0 then ParseInt(parts[0]).value else 0)
                     + 60 * (if |parts| > 1 then ParseInt(parts[1]).value else 0)
    ensures Truthy(uptime) && 'h' in uptime.value && 'm' !in uptime.value && 's' !in uptime.value ==> r == 0
    ensures Truthy(uptime) && 'h' !in uptime.value && 'm' in uptime.value ==>
              (FirstInt(SplitWs(ReplaceChar(uptime.value, 'm', ""))).None? ==> r == 0)
              && (FirstInt(SplitWs(ReplaceChar(uptime.value, 'm', ""))).Some? ==>
                    r == 60 * FirstInt(SplitWs(ReplaceChar(uptime.value, 'm', ""))).value)
    ensures Truthy(uptime) && 'm' !in uptime.value && 's' in uptime.value ==>
              (FirstInt(SplitWs(ReplaceChar(uptime.value, 's', ""))).None? ==> r == 0)
              && (FirstInt(SplitWs(ReplaceChar(uptime.value, 's', ""))).Some? ==>
                    r == FirstInt(SplitWs(ReplaceChar(uptime.value, 's', ""))).value)
  {
    if !Truthy(uptime) then 0
    else
      var u := uptime.value;
      if 'h' in u && 'm' in u then ReadHoursMinutes(u)
      else if 'm' in u then ReadUnit(u, 'm', 60)
      else if 's' in u then ReadUnit(u, 's', 1)
      else 0
  }

  /** A minutes text whose number `int()` refuses reads as 0. */
  lemma ParseUnreadableMinutes()
    ensures ParseUptimeSeconds(Some("xm")) == 0
  {
    var u := "xm";
    assert 'h' !in u && u[1] == 'm';
    assert u == "x" + ['m'];
    UnitWordUnreadable("x", 'm');
  }

  /** A single word followed by the unit letter, where the word is no number, gives `int()` nothing to read. */
  lemma UnitWordUnreadable(w: string, unit: char)
    requires w != [] && NoSpace(w) && unit !in w && w[0] != '-' && w[0] != '+' && !IsDigit(w[0])
    ensures FirstInt(SplitWs(ReplaceChar(w + [unit], unit, ""))).None?
  {
    ReplaceCharAppend(w, [unit], unit, "");
    assert ReplaceChar([unit], unit, "") == [];
    assert ReplaceChar(w + [unit], unit, "") == w;
    SplitWsWord(w);
    NotIntWord(w);
  }

  lemma NotIntWord(w: string)
    requires w != [] && NoSpace(w) && w[0] != '-' && w[0] != '+' && !IsDigit(w[0])
    ensures ParseInt(w).None?
  {
    StripNoSpace(w);
    assert !AllDigits(w);
  }

  lemma NoLetterInInt(i: int, c: char)
    requires c != '-' && !IsDigit(c)
    ensures c !in IntToString(i)
  {
    IntToStringRoundTrip(i);
  }

  /** The text of an integer is one word that `int()` reads back. */
  lemma IntWord(i: int)
    ensures IsWord(IntToString(i)) && ParseInt(IntToString(i)) == Some(i)
  {
    IntToStringRoundTrip(i);
  }

  /** Below a minute the text reads back as the seconds themselves. */
  lemma ParseSecs(s: int)
    ensures ParseUptimeSeconds(Some(Render(Secs(s)))) == s
  {
    var a := IntToString(s);
    var r := a + "s";
    NoLetterInInt(s, 'h');
    NoLetterInInt(s, 'm');
    NoLetterInInt(s, 's');
    assert 'h' !in r && 'm' !in r && r[|a|] == 's';
    assert ParseUptimeSeconds(Some(r)) == ReadUnit(r, 's', 1);
    ReplaceCharAppend(a, "s", 's', "");
    assert ReplaceChar(r, 's', "") == a;
    IntWord(s);
    SplitWsWord(a);
  }

  lemma MinSecsText(a: string, b: string)
    requires 'h' !in a && 'm' !in a && 'h' !in b && 'm' !in b
    ensures 'h' !in (a + "m ") + (b + "s") && 'm' in (a + "m ") + (b + "s")
    ensures ReplaceChar((a + "m ") + (b + "s"), 'm', "") == a + " " + (b + "s")
  {
    assert ((a + "m ") + (b + "s"))[|a|] == 'm';
    ReplaceCharAppend(a + "m ", b + "s", 'm', "");
    ReplaceCharAppend(a, "m ", 'm', "");
    ReplaceCharAppend(b, "s", 'm', "");
    assert ReplaceChar("m ", 'm', "") == " ";
  }

  lemma FirstWordInt(i: int, sp: string, rest: string)
    requires sp != [] && AllSpace(sp)
    ensures FirstInt(SplitWs(IntToString(i) + sp + rest)) == Some(i)
  {
    IntWord(i);
    SplitWsCons(IntToString(i), sp, rest);
  }

  /** "Mm Ss" reads back as M whole minutes. */
  lemma ParseMinSecs(m: int, s: int)
    ensures ParseUptimeSeconds(Some(Render(MinSecs(m, s)))) == 60 * m
  {
    var a, b := IntToString(m), IntToString(s);
    var r := (a + "m ") + (b + "s");
    assert Render(MinSecs(m, s)) == r;
    NoLetterInInt(m, 'h');
    NoLetterInInt(s, 'h');
    NoLetterInInt(m, 'm');
    NoLetterInInt(s, 'm');
    MinSecsText(a, b);
    assert AllSpace(" ");
    FirstWordInt(m, " ", b + "s");
    assert ParseUptimeSeconds(Some(r)) == ReadUnit(r, 'm', 60);
  }

  lemma BlankHoursMinutes(a: string, b: string)
    requires 'h' !in a && 'm' !in a && 'h' !in b && 'm' !in b
    ensures 'h' in (a + "h ") + (b + "m") && 'm' in (a + "h ") + (b + "m")
    ensures ReplaceChar(ReplaceChar((a + "h ") + (b + "m"), 'h', " "), 'm', " ") == a + "  " + (b + " ")
  {
    assert ((a + "h ") + (b + "m"))[|a|] == 'h';
    assert ((a + "h ") + (b + "m"))[|a| + 2 + |b|] == 'm';
    ReplaceCharAppend(a + "h ", b + "m", 'h', " ");
    ReplaceCharAppend(a, "h ", 'h', " ");
    ReplaceCharAppend(b, "m", 'h', " ");
    assert ReplaceChar("h ", 'h', " ") == "  ";
    var r1 := (a + "  ") + (b + "m");
    assert ReplaceChar((a + "h ") + (b + "m"), 'h', " ") == r1;
    ReplaceCharAppend(a + "  ", b + "m", 'm', " ");
    ReplaceCharAppend(a, "  ", 'm', " ");
    ReplaceCharAppend(b, "m", 'm', " ");
    assert ReplaceChar("  ", 'm', " ") == "  ";
    assert ReplaceChar("m", 'm', " ") == " ";
  }

  lemma IntWordSpace(i: int)
    ensures SplitWs(IntToString(i) + " ") == [IntToString(i)]
  {
    IntWord(i);
    assert AllSpace(" ");
    assert IntToString(i) + " " + [] == IntToString(i) + " ";
    SplitWsCons(IntToString(i), " ", []);
    assert SplitWs([]) == [];
  }

  lemma HoursMinutesWords(a: string, b: string)
    requires 'h' !in a && 'm' !in a && 'h' !in b && 'm' !in b
    requires IsWord(a) && SplitWs(b + " ") == [b]
    ensures SplitWs(ReplaceChar(ReplaceChar((a + "h ") + (b + "m"), 'h', " "), 'm', " ")) == [a, b]
  {
    BlankHoursMinutes(a, b);
    SplitTwoWords(a, b);
  }

  lemma SplitTwoWords(a: string, b: string)
    requires IsWord(a) && SplitWs(b + " ") == [b]
    ensures SplitWs(a + "  " + (b + " ")) == [a, b]
  {
    assert AllSpace("  ");
    SplitWsCons(a, "  ", b + " ");
  }

  lemma ReadHoursMinutesOf(a: string, b: string, h: int, m: int)
    requires SplitWs(ReplaceChar(ReplaceChar((a + "h ") + (b + "m"), 'h', " "), 'm', " ")) == [a, b]
    requires ParseInt(a) == Some(h) && ParseInt(b) == Some(m)
    ensures ReadHoursMinutes((a + "h ") + (b + "m")) == 3600 * h + 60 * m
  {
  }

  lemma ParseSelectsHoursMinutes(a: string, b: string)
    requires 'h' !in a && 'm' !in a && 'h' !in b && 'm' !in b
    ensures ParseUptimeSeconds(Some((a + "h ") + (b + "m"))) == ReadHoursMinutes((a + "h ") + (b + "m"))
  {
    BlankHoursMinutes(a, b);
  }

  lemma ReadHoursMinutesWords(a: string, b: string, h: int, m: int)
    requires 'h' !in a && 'm' !in a && 'h' !in b && 'm' !in b
    requires IsWord(a) && SplitWs(b + " ") == [b]
    requires ParseInt(a) == Some(h) && ParseInt(b) == Some(m)
    ensures ParseUptimeSeconds(Some((a + "h ") + (b + "m"))) == 3600 * h + 60 * m
  {
    HoursMinutesWords(a, b);
    ReadHoursMinutesOf(a, b, h, m);
    ParseSelectsHoursMinutes(a, b);
  }

  /** "Hh Mm" reads back as H whole hours and M whole minutes. */
  lemma ParseHoursMins(h: int, m: int)
    ensures ParseUptimeSeconds(Some(Render(HoursMins(h, m)))) == 3600 * h + 60 * m
  {
    var a, b := IntToString(h), IntToString(m);
    assert Render(HoursMins(h, m)) == (a + "h ") + (b + "m");
    NoLetterInInt(h, 'h');
    NoLetterInInt(m, 'h');
    NoLetterInInt(h, 'm');
    NoLetterInInt(m, 'm');
    IntWord(h);
    IntWord(m);
    IntWordSpace(m);
    ReadHoursMinutesWords(a, b, h, m);
  }

  /** "Dd Hh" has neither `m` nor `s`, so it reads back as 0. */
  lemma ParseDaysHours(d: int, h: int)
    ensures ParseUptimeSeconds(Some(Render(DaysHours(d, h)))) == 0
  {
    var a, b := IntToString(d), IntToString(h);
    var r := a + "d " + b + "h";
    NoLetterInInt(d, 'm');
    NoLetterInInt(h, 'm');
    NoLetterInInt(d, 's');
    NoLetterInInt(h, 's');
    assert r[|r| - 1] == 'h';
    assert 'm' !in r && 's' !in r;
  }

  /** What the service page reads back from each kind of uptime text. */
  function ReadBack(p: Parts): int {
    match p
    case Secs(s) => s
    case MinSecs(m, _) => 60 * m
    case HoursMins(h, m) => 3600 * h + 60 * m
    case DaysHours(_, _) => 0
  }

  lemma ParseRender(p: Parts)
    ensures ParseUptimeSeconds(Some(Render(p))) == ReadBack(p)
  {
    match p
    case Secs(s) => ParseSecs(s);
    case MinSecs(m, s) => ParseMinSecs(m, s);
    case HoursMins(h, m) => ParseHoursMins(h, m);
    case DaysHours(d, h) => ParseDaysHours(d, h);
  }

  /**
   * The lossy round trip: reading back a formatted uptime gives the seconds
   * themselves below a minute, the seconds rounded down to whole minutes
   * below a day, and 0 from a day on (the "Dd Hh" text has no `m` or `s`).
   */
  lemma ParseFormatUptime(seconds: int)
    ensures seconds < 60 ==> ParseUptimeSeconds(Some(FormatUptime(seconds))) == seconds
    ensures 60 <= seconds < 86400 ==> ParseUptimeSeconds(Some(FormatUptime(seconds))) == seconds - seconds % 60
    ensures 86400 <= seconds ==> ParseUptimeSeconds(Some(FormatUptime(seconds))) == 0
  {
    var p := Decompose(seconds);
    ParseRender(p);
    if p.MinSecs? {
      SecondsInMinute(seconds, p.m, p.s);
    } else if p.HoursMins? {
      SecondsInMinute(seconds, 60 * p.h + p.m, seconds - 3600 * p.h - 60 * p.m);
    }
  }

  lemma SecondsInMinute(seconds: int, minutes: int, rest: int)
    requires 60 * minutes + rest == seconds && 0 <= rest < 60
    ensures seconds % 60 == rest
  {
  }
}
