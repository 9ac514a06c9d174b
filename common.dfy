/**
 * Values and text helpers shared by the whole model: an Option type, Python's
 * notion of whitespace and "truthy" strings, `str.strip`, `str.split`,
 * `str.lower`, `int()` on decimal text, decimal rendering of integers and
 * Python's slice semantics on sequences.
 */
module Common {

  datatype Option<+T> = None | Some(value: T) {
    /** `d.get(key, default)` when this Option is the looked-up value. */
    function GetOr(default: T): T {
      if Some? then value else default
    }
  }

  /** Python truthiness of an optional string: present and not empty. */
  predicate Truthy(s: Option<string>) {
    s.Some? && s.value != ""
  }

  // ---------------------------------------------------------------------------
  // Whitespace, strip, split
  // ---------------------------------------------------------------------------

  /** The characters Python's `str.isspace` (and so `strip`, `split()` and `\s`) treats as blanks. */
  predicate IsSpace(c: char) {
    || c == ' ' || c == '\t' || c == '\n' || c == '\r' || c == '\U{0B}' || c == '\U{0C}'
    || ('\U{1C}' <= c <= '\U{1F}')
    || c == '\U{85}' || c == '\U{A0}' || c == '\U{1680}'
    || ('\U{2000}' <= c <= '\U{200A}')
    || c == '\U{2028}' || c == '\U{2029}' || c == '\U{202F}' || c == '\U{205F}' || c == '\U{3000}'
  }

  predicate NoSpace(s: string) {
    forall i :: 0 <= i < |s| ==> !IsSpace(s[i])
  }

  predicate AllSpace(s: string) {
    forall i :: 0 <= i < |s| ==> IsSpace(s[i])
  }

  /** `s.lstrip()` */
  function TrimStart(s: string): (r: string)
    ensures |r| <= |s| && r == s[|s| - |r|..]
    ensures r == [] || !IsSpace(r[0])
    ensures AllSpace(s[..|s| - |r|])
    decreases |s|
  {
    if |s| > 0 && IsSpace(s[0]) then TrimStart(s[1..]) else s
  }

  /** `s.rstrip()` */
  function TrimEnd(s: string): (r: string)
    ensures |r| <= |s| && r == s[..|r|]
    ensures r == [] || !IsSpace(r[|r| - 1])
    ensures AllSpace(s[|r|..])
    decreases |s|
  {
    if |s| > 0 && IsSpace(s[|s| - 1]) then TrimEnd(s[..|s| - 1]) else s
  }

  /** `s.strip()` */
  function Strip(s: string): string {
    TrimEnd(TrimStart(s))
  }

  /** A non-empty stripped text neither starts nor ends with whitespace. */
  lemma StripEnds(s: string)
    ensures Strip(s) == [] || (!IsSpace(Strip(s)[0]) && !IsSpace(Strip(s)[|Strip(s)| - 1]))
  {
    var t := TrimStart(s);
    var l := TrimEnd(t);
    if l != [] {
      assert l[0] == t[0];
    }
  }

  lemma StripNoSpace(s: string)
    requires NoSpace(s)
    ensures Strip(s) == s
  {
    assert TrimStart(s) == s by {
      if |s| > 0 { assert !IsSpace(s[0]); }
    }
    if |s| > 0 { assert !IsSpace(s[|s| - 1]); }
  }

  /** Length of the longest prefix of `s` without whitespace. */
  function WordLength(s: string): (n: nat)
    ensures n <= |s| && NoSpace(s[..n])
    ensures n == |s| || IsSpace(s[n])
    ensures |s| > 0 && !IsSpace(s[0]) ==> n > 0
    decreases |s|
  {
    if |s| == 0 || IsSpace(s[0]) then 0 else 1 + WordLength(s[1..])
  }

  /** A non-empty run of non-whitespace characters. */
  predicate IsWord(w: string) {
    w != [] && NoSpace(w)
  }

  /** `s.split()`: the maximal runs of non-whitespace characters, in order. */
  function SplitWs(s: string): (r: seq<string>)
    decreases |s|
  {
    var t := TrimStart(s);
    if t == [] then []
    else
      var n := WordLength(t);
      [t[..n]] + SplitWs(t[n..])
  }

  /** Every piece `split()` returns is a non-empty run without whitespace. */
  lemma {:induction false} SplitWsWords(s: string)
    ensures forall i :: 0 <= i < |SplitWs(s)| ==> IsWord(SplitWs(s)[i])
    decreases |s|
  {
    var t := TrimStart(s);
    if t != [] {
      var n := WordLength(t);
      SplitWsWords(t[n..]);
      assert IsWord(t[..n]);
      ConsWords(t[..n], SplitWs(t[n..]));
      assert SplitWs(s) == [t[..n]] + SplitWs(t[n..]);
    }
  }

  lemma ConsWords(w: string, rest: seq<string>)
    requires IsWord(w) && forall i :: 0 <= i < |rest| ==> IsWord(rest[i])
    ensures forall i :: 0 <= i < |[w] + rest| ==> IsWord(([w] + rest)[i])
  {
    forall i | 0 <= i < |[w] + rest| ensures IsWord(([w] + rest)[i]) {
      if i > 0 { assert ([w] + rest)[i] == rest[i - 1]; }
    }
  }

  lemma SplitWsWord(w: string)
    requires w != [] && NoSpace(w)
    ensures SplitWs(w) == [w]
  {
    assert TrimStart(w) == w by { assert !IsSpace(w[0]); }
    WordLengthNoSpace(w);
    assert w[..|w|] == w;
    assert w[|w|..] == [];
    assert SplitWs([]) == [];
  }

  lemma WordLengthNoSpace(w: string)
    requires NoSpace(w)
    ensures WordLength(w) == |w|
    decreases |w|
  {
    if |w| > 0 {
      WordLengthNoSpace(w[1..]);
    }
  }

  lemma WordLengthBeforeSpace(w: string, rest: string)
    requires NoSpace(w) && rest != [] && IsSpace(rest[0])
    ensures WordLength(w + rest) == |w|
    decreases |w|
  {
    if |w| > 0 {
      assert (w + rest)[1..] == w[1..] + rest;
      WordLengthBeforeSpace(w[1..], rest);
    } else {
      assert w + rest == rest;
    }
  }

  lemma TrimStartSpaces(sp: string, rest: string)
    requires AllSpace(sp)
    ensures TrimStart(sp + rest) == TrimStart(rest)
    decreases |sp|
  {
    if |sp| > 0 {
      assert (sp + rest)[1..] == sp[1..] + rest;
      TrimStartSpaces(sp[1..], rest);
    } else {
      assert sp + rest == rest;
    }
  }

  /** `lstrip` of a concatenation: the right part is reached only when the left part is all blank. */
  lemma {:induction false} TrimStartAppend(x: string, y: string)
    ensures TrimStart(x) != [] ==> TrimStart(x + y) == TrimStart(x) + y
    ensures TrimStart(x) == [] ==> TrimStart(x + y) == TrimStart(y)
    decreases |x|
  {
    if |x| > 0 {
      assert (x + y)[0] == x[0];
      assert (x + y)[1..] == x[1..] + y;
      TrimStartAppend(x[1..], y);
    } else {
      assert x + y == y;
    }
  }

  /** `strip()` ignores one blank added at each end. */
  lemma StripPadded(x: string)
    ensures Strip(" " + x + " ") == Strip(x)
  {
    assert " " + x + " " == " " + (x + " ");
    TrimStartSpaces(" ", x + " ");
    TrimStartAppend(x, " ");
    if TrimStart(x) != [] {
      var u := TrimStart(x);
      assert (u + " ")[..|u|] == u;
    } else {
      assert TrimStart(" ") == [];
    }
  }

  /** Leading blanks do not change the split. */
  lemma SplitWsSpaces(sp: string, rest: string)
    requires AllSpace(sp)
    ensures SplitWs(sp + rest) == SplitWs(rest)
  {
    TrimStartSpaces(sp, rest);
  }

  /** The split of text that starts with a word. */
  lemma SplitWsWordFirst(w: string, rest: string)
    requires w != [] && NoSpace(w)
    requires rest != [] && IsSpace(rest[0])
    ensures SplitWs(w + rest) == [w] + SplitWs(rest)
  {
    var s := w + rest;
    assert TrimStart(s) == s by { assert s[0] == w[0]; }
    WordLengthBeforeSpace(w, rest);
    assert s[..|w|] == w;
    assert s[|w|..] == rest;
  }

  /** Splitting a word followed by blanks and more text. */
  lemma SplitWsCons(w: string, sp: string, rest: string)
    requires w != [] && NoSpace(w)
    requires sp != [] && AllSpace(sp)
    ensures SplitWs(w + sp + rest) == [w] + SplitWs(rest)
  {
    assert w + sp + rest == w + (sp + rest);
    SplitWsWordFirst(w, sp + rest);
    SplitWsSpaces(sp, rest);
  }

  // ---------------------------------------------------------------------------
  // Prefix, suffix, substring, character replacement, case
  // ---------------------------------------------------------------------------

  /** `s.startswith(prefix)` */
  predicate StartsWith<T(==)>(s: seq<T>, prefix: seq<T>) {
    |prefix| <= |s| && s[..|prefix|] == prefix
  }

  /** `s.endswith(suffix)` */
  predicate EndsWith<T(==)>(s: seq<T>, suffix: seq<T>) {
    |suffix| <= |s| && s[|s| - |suffix|..] == suffix
  }

  /** `sub in s` for strings */
  predicate Contains(s: string, sub: string)
    decreases |s|
  {
    StartsWith(s, sub) || (|s| > 0 && Contains(s[1..], sub))
  }

  lemma ContainsAt(s: string, sub: string, i: nat)
    requires i + |sub| <= |s| && s[i..i + |sub|] == sub
    ensures Contains(s, sub)
    decreases i
  {
    if i > 0 {
      assert s[1..][i - 1..i - 1 + |sub|] == s[i..i + |sub|];
      ContainsAt(s[1..], sub, i - 1);
    }
  }

  lemma ContainsWitness(s: string, sub: string) returns (i: nat)
    requires Contains(s, sub)
    ensures i + |sub| <= |s| && s[i..i + |sub|] == sub
    decreases |s|
  {
    if StartsWith(s, sub) {
      i := 0;
    } else {
      var j := ContainsWitness(s[1..], sub);
      i := j + 1;
      assert s[i..i + |sub|] == s[1..][j..j + |sub|];
    }
  }

  lemma ContainsInLeft(a: string, b: string, sub: string)
    requires Contains(a, sub)
    ensures Contains(a + b, sub)
  {
    var i := ContainsWitness(a, sub);
    assert (a + b)[i..i + |sub|] == a[i..i + |sub|];
    ContainsAt(a + b, sub, i);
  }

  lemma ContainsInRight(a: string, b: string, sub: string)
    requires Contains(b, sub)
    ensures Contains(a + b, sub)
  {
    var i := ContainsWitness(b, sub);
    assert (a + b)[|a| + i..|a| + i + |sub|] == b[i..i + |sub|];
    ContainsAt(a + b, sub, |a| + i);
  }

  /** `s.replace(c, repl)` for a single character `c` */
  function ReplaceChar(s: string, c: char, repl: string): (r: string)
    ensures c !in s ==> r == s
    decreases |s|
  {
    if s == [] then [] else (if s[0] == c then repl else [s[0]]) + ReplaceChar(s[1..], c, repl)
  }

  lemma {:induction false} ReplaceCharAppend(a: string, b: string, c: char, repl: string)
    ensures ReplaceChar(a + b, c, repl) == ReplaceChar(a, c, repl) + ReplaceChar(b, c, repl)
    decreases |a|
  {
    if a != [] {
      assert (a + b)[1..] == a[1..] + b;
      ReplaceCharAppend(a[1..], b, c, repl);
    } else {
      assert a + b == b;
    }
  }

  /** The lower-case form of an ASCII letter; every other character is kept. */
  function LowerChar(c: char): char {
    if 'A' <= c <= 'Z' then (c as int + 32) as char else c
  }

  /** The upper-case form of an ASCII letter; every other character is kept. */
  function UpperChar(c: char): char {
    if 'a' <= c <= 'z' then (c as int - 32) as char else c
  }

  /** `s.lower()` restricted to ASCII letters */
  function Lower(s: string): (r: string)
    ensures |r| == |s| && forall i :: 0 <= i < |s| ==> r[i] == LowerChar(s[i])
  {
    seq(|s|, i requires 0 <= i < |s| => LowerChar(s[i]))
  }

  /** `s.upper()` restricted to ASCII letters */
  function Upper(s: string): (r: string)
    ensures |r| == |s| && forall i :: 0 <= i < |s| ==> r[i] == UpperChar(s[i])
  {
    seq(|s|, i requires 0 <= i < |s| => UpperChar(s[i]))
  }

  // ---------------------------------------------------------------------------
  // Splitting on and joining with one separator character
  // ---------------------------------------------------------------------------

  /** Index of the first occurrence of `c` in `s`. */
  function IndexOf(s: string, c: char): (i: nat)
    requires c in s
    ensures i < |s| && s[i] == c && c !in s[..i]
    decreases |s|
  {
    if s[0] == c then 0 else 1 + IndexOf(s[1..], c)
  }

  /** The first occurrence of `c` is the one with no `c` before it. */
  lemma IndexOfAt(s: string, c: char, i: nat)
    requires i < |s| && s[i] == c && c !in s[..i]
    ensures IndexOf(s, c) == i
    decreases i
  {
    if i > 0 {
      assert s[..i][0] == s[0];
      assert s[1..][..i - 1] == s[1..i] && s[1..i] == s[..i][1..];
      IndexOfAt(s[1..], c, i - 1);
    }
  }

  /** `s.split(sep)` for a one-character separator: never empty. */
  function SplitOn(s: string, sep: char): (r: seq<string>)
    ensures |r| > 0
    ensures forall i :: 0 <= i < |r| ==> sep !in r[i]
    decreases |s|
  {
    if sep !in s then [s]
    else
      var i := IndexOf(s, sep);
      [s[..i]] + SplitOn(s[i + 1..], sep)
  }

  /** `sep.join(parts)` for a one-character separator. */
  function JoinWith(parts: seq<string>, sep: char): string
    decreases |parts|
  {
    if |parts| == 0 then ""
    else if |parts| == 1 then parts[0]
    else parts[0] + [sep] + JoinWith(parts[1..], sep)
  }

  /** Joining what was split gives the text back. */
  lemma {:induction false} JoinSplit(s: string, sep: char)
    ensures JoinWith(SplitOn(s, sep), sep) == s
    decreases |s|
  {
    if sep in s {
      var i := IndexOf(s, sep);
      JoinSplit(s[i + 1..], sep);
      assert s == s[..i] + [sep] + s[i + 1..];
    }
  }

  /** Splitting what was joined gives the parts back, when no part holds the separator. */
  lemma {:induction false} SplitJoin(parts: seq<string>, sep: char)
    requires |parts| > 0
    requires forall i :: 0 <= i < |parts| ==> sep !in parts[i]
    ensures SplitOn(JoinWith(parts, sep), sep) == parts
    decreases |parts|
  {
    if |parts| > 1 {
      var s := JoinWith(parts, sep);
      SplitJoin(parts[1..], sep);
      assert s == parts[0] + [sep] + JoinWith(parts[1..], sep);
      assert s[|parts[0]|] == sep;
      assert s[..|parts[0]|] == parts[0];
      assert IndexOf(s, sep) == |parts[0]|;
      assert s[|parts[0]| + 1..] == JoinWith(parts[1..], sep);
    }
  }

  // ---------------------------------------------------------------------------
  // Decimal digits, `int()` and f"{n}"
  // ---------------------------------------------------------------------------

  predicate IsDigit(c: char) {
    '0' <= c <= '9'
  }

  predicate AllDigits(s: string) {
    forall i :: 0 <= i < |s| ==> IsDigit(s[i])
  }

  function DigitValue(c: char): (d: nat)
    requires IsDigit(c)
    ensures d < 10
  {
    c as int - '0' as int
  }

  function DigitChar(d: nat): (c: char)
    requires d < 10
    ensures IsDigit(c) && DigitValue(c) == d
  {
    ('0' as int + d) as char
  }

  /** The value of a run of decimal digits. */
  function DigitsValue(s: string): nat
    requires AllDigits(s)
    decreases |s|
  {
    if s == [] then 0 else DigitsValue(s[..|s| - 1]) * 10 + DigitValue(s[|s| - 1])
  }

  /** f"{n}" for n >= 0: the shortest decimal numeral of n. */
  function NatToString(n: nat): (r: string)
    ensures |r| > 0 && AllDigits(r) && DigitsValue(r) == n
    ensures |r| > 1 ==> r[0] != '0'
    decreases n
  {
    if n < 10 then [DigitChar(n)]
    else
      var r := NatToString(n / 10) + [DigitChar(n % 10)];
      assert r[..|r| - 1] == NatToString(n / 10);
      r
  }

  /** f"{i}" for any integer. */
  function IntToString(i: int): (r: string)
  {
    if i < 0 then "-" + NatToString(-i) else NatToString(i)
  }

  /**
   * Python's `int(s)` in base 10: surrounding whitespace is ignored, then an
   * optional sign and at least one ASCII digit; anything else raises, which
   * is None here.
   */
  function ParseInt(s: string): Option<int> {
    var t := Strip(s);
    if |t| > 0 && (t[0] == '-' || t[0] == '+') then
      if |t| > 1 && AllDigits(t[1..]) then
        var v: int := DigitsValue(t[1..]);
        Some(if t[0] == '-' then -v else v)
      else None
    else if |t| > 0 && AllDigits(t) then Some(DigitsValue(t))
    else None
  }

  /** A run of digits holds no blank. */
  lemma DigitsNoSpace(s: string)
    requires AllDigits(s)
    ensures NoSpace(s)
  {
    forall k | 0 <= k < |s| ensures !IsSpace(s[k]) {
      assert IsDigit(s[k]);
    }
  }

  /** `int()` of a run of digits without a sign. */
  lemma ParseDigits(s: string)
    requires s != [] && AllDigits(s)
    ensures ParseInt(s) == Some(DigitsValue(s) as int)
  {
    DigitsNoSpace(s);
    StripNoSpace(s);
    assert IsDigit(s[0]);
  }

  /** `int()` of a minus sign and a run of digits. */
  lemma ParseNegative(s: string)
    requires |s| > 1 && s[0] == '-' && AllDigits(s[1..])
    ensures NoSpace(s)
    ensures ParseInt(s) == Some(-(DigitsValue(s[1..]) as int))
  {
    assert NoSpace(s) by {
      forall k | 0 <= k < |s| ensures !IsSpace(s[k]) {
        if k > 0 { assert IsDigit(s[1..][k - 1]); }
      }
    }
    StripNoSpace(s);
  }

  /** A minus sign before a numeral holds only the sign and digits. */
  lemma SignedTextChars(d: string)
    requires AllDigits(d)
    ensures forall k :: 0 <= k < |"-" + d| ==> ("-" + d)[k] == '-' || IsDigit(("-" + d)[k])
  {
    var s := "-" + d;
    forall k | 0 <= k < |s| ensures s[k] == '-' || IsDigit(s[k]) {
      if k > 0 { assert s[k] == d[k - 1]; }
    }
  }

  /** A minus sign before a numeral holds no blank, and `int()` reads it back. */
  lemma SignedText(d: string)
    requires d != [] && AllDigits(d)
    ensures NoSpace("-" + d)
    ensures ParseInt("-" + d) == Some(-(DigitsValue(d) as int))
  {
    var s := "-" + d;
    assert s[1..] == d;
    ParseNegative(s);
  }

  /** The text of an integer has no blanks and reads back as the same integer. */
  lemma IntToStringRoundTrip(i: int)
    ensures IntToString(i) != [] && NoSpace(IntToString(i))
    ensures forall k :: 0 <= k < |IntToString(i)| ==> IntToString(i)[k] == '-' || IsDigit(IntToString(i)[k])
    ensures ParseInt(IntToString(i)) == Some(i)
  {
    if i < 0 {
      SignedText(NatToString(-i));
      SignedTextChars(NatToString(-i));
    } else {
      var d := NatToString(i);
      ParseDigits(d);
      DigitsNoSpace(d);
    }
  }

  /** f"{n:02d}" for n >= 0. */
  function Pad2(n: nat): (r: string)
    ensures |r| >= 2 && AllDigits(r) && DigitsValue(r) == n
    ensures n < 100 ==> |r| == 2
  {
    if n < 10 then
      var r := ['0', DigitChar(n)];
      assert r[..1] == ['0'];
      assert DigitsValue(r[..1]) == 0;
      r
    else
      assert n < 100 ==> NatToString(n / 10) == [DigitChar(n / 10)];
      NatToString(n)
  }

  // ---------------------------------------------------------------------------
  // Python slices
  // ---------------------------------------------------------------------------

  /** `s[:n]` for any integer n (a negative n counts from the end). */
  function PyPrefix<T>(s: seq<T>, n: int): (r: seq<T>)
    ensures |r| <= |s| && r == s[..|r|]
    ensures n >= 0 ==> |r| == if n < |s| then n else |s|
    ensures n < 0 ==> |r| == if |s| + n > 0 then |s| + n else 0
  {
    if n >= 0 then (if n < |s| then s[..n] else s)
    else (if |s| + n > 0 then s[..|s| + n] else [])
  }

  /** `s[start:]` for any integer start (a negative start counts from the end). */
  function PySuffix<T>(s: seq<T>, start: int): (r: seq<T>)
    ensures |r| <= |s| && r == s[|s| - |r|..]
    ensures start >= 0 ==> |r| == if start < |s| then |s| - start else 0
    ensures start < 0 ==> |r| == if -start < |s| then -start else |s|
  {
    if start >= 0 then (if start < |s| then s[start..] else [])
    else (if -start < |s| then s[|s| + start..] else s)
  }
}
