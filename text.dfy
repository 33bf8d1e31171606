/** The handful of Python `str` operations the runtime relies on, written out
    so that their edge cases are explicit: `strip()`, `lstrip(c)`,
    `rstrip(c)`, `lower()`, `split(sep)`, `sep.join(parts)`, `splitlines()`,
    `int(text)`, `str(int)`, `startswith`/`endswith`, and the final component
    of a POSIX path (`PurePosixPath(p).name`). */
module Text {
  import opened Common

  /** `c.isspace()` in Python: the characters whose bidirectional class is
      WS, B or S, or whose category is Zs. */
  predicate IsSpace(c: char)
  {
    var n := c as int;
    n == 0x20 || (0x09 <= n <= 0x0d) || (0x1c <= n <= 0x1f) || n == 0x85 || n == 0xa0
    || n == 0x1680 || (0x2000 <= n <= 0x200a) || n == 0x2028 || n == 0x2029
    || n == 0x202f || n == 0x205f || n == 0x3000
  }

  /** The line boundaries of `str.splitlines()`. */
  predicate IsLineBoundary(c: char)
  {
    var n := c as int;
    n == 0x0a || n == 0x0b || n == 0x0c || n == 0x0d || (0x1c <= n <= 0x1e)
    || n == 0x85 || n == 0x2028 || n == 0x2029
  }

  predicate IsBlank(s: string)
  {
    forall k :: 0 <= k < |s| ==> IsSpace(s[k])
  }

  predicate StartsWith(s: string, prefix: string)
  {
    |prefix| <= |s| && s[..|prefix|] == prefix
  }

  predicate EndsWith(s: string, suffix: string)
  {
    |suffix| <= |s| && s[|s| - |suffix|..] == suffix
  }

  /** `s.lstrip()`: drops leading whitespace only. */
  function LStrip(s: string): (r: string)
    ensures |r| <= |s| && r == s[|s| - |r|..]
    ensures r == [] || !IsSpace(r[0])
    ensures IsBlank(s[..|s| - |r|])
  {
    if s != [] && IsSpace(s[0]) then
      var r := LStrip(s[1..]);
      assert s[..|s| - |r|] == [s[0]] + s[1..][..|s[1..]| - |r|];
      r
    else s
  }

  /** `s.rstrip()`: drops trailing whitespace only. */
  function RStrip(s: string): (r: string)
    ensures |r| <= |s| && r == s[..|r|]
    ensures r == [] || !IsSpace(r[|r| - 1])
    ensures IsBlank(s[|r|..])
  {
    if s != [] && IsSpace(s[|s| - 1]) then
      var r := RStrip(s[..|s| - 1]);
      assert s[|r|..] == s[..|s| - 1][|r|..] + [s[|s| - 1]];
      r
    else s
  }

  /** `s.strip()`. */
  function Strip(s: string): (r: string)
  {
    RStrip(LStrip(s))
  }

  /** `s.strip()` is empty exactly when `s` is all whitespace, and it never
      starts or ends with whitespace. */
  lemma StripBlank(s: string)
    ensures Strip(s) == [] <==> IsBlank(s)
    ensures Strip(s) != [] ==> !IsSpace(Strip(s)[0]) && !IsSpace(Strip(s)[|Strip(s)| - 1])
  {
    var l := LStrip(s);
    if l == [] {
      assert s[..|s|] == s;
    } else {
      assert !IsSpace(l[0]) && l[0] == s[|s| - |l|];
      RStripKeepsFirst(l);
    }
  }

  lemma RStripKeepsFirst(l: string)
    requires l != [] && !IsSpace(l[0])
    ensures RStrip(l) != [] && RStrip(l)[0] == l[0]
  {
  }

  /** `s.strip()` only removes characters. */
  lemma StripKeeps(s: string, c: char)
    requires c in Strip(s)
    ensures c in s
  {
    var l := LStrip(s);
    var r := RStrip(l);
    var k :| 0 <= k < |r| && r[k] == c;
    assert r[k] == l[k];
    assert l[k] == s[|s| - |l| + k];
  }

  /** `s.strip()` of a stripped string is itself. */
  lemma StripIdempotent(s: string)
    ensures Strip(Strip(s)) == Strip(s)
  {
    var r := Strip(s);
    StripBlank(s);
    if r != [] {
      assert LStrip(r) == r;
      assert RStrip(r) == r;
    }
  }

  lemma {:induction false} LStripBlankPrefix(a: string, s: string)
    requires IsBlank(a)
    ensures LStrip(a + s) == LStrip(s)
  {
    if a != [] {
      assert (a + s)[1..] == a[1..] + s;
      LStripBlankPrefix(a[1..], s);
    } else {
      assert a + s == s;
    }
  }

  lemma {:induction false} RStripBlankSuffix(s: string, b: string)
    requires IsBlank(b)
    ensures RStrip(s + b) == RStrip(s)
    decreases |b|
  {
    if b != [] {
      assert (s + b)[..|s + b| - 1] == s + b[..|b| - 1];
      RStripBlankSuffix(s, b[..|b| - 1]);
    } else {
      assert s + b == s;
    }
  }

  lemma {:induction false} LStripAppend(s: string, b: string)
    requires !IsBlank(s)
    ensures LStrip(s + b) == LStrip(s) + b
  {
    if IsSpace(s[0]) {
      assert (s + b)[1..] == s[1..] + b;
      LStripAppend(s[1..], b);
    }
  }

  /** Whitespace around a value does not change what `strip()` leaves. */
  lemma StripPadded(a: string, s: string, b: string)
    requires IsBlank(a) && IsBlank(b)
    ensures Strip(a + s + b) == Strip(s)
  {
    assert a + s + b == a + (s + b);
    LStripBlankPrefix(a, s + b);
    if IsBlank(s) {
      LStripBlankPrefix(s, b);
      assert LStrip(b) == [] by { StripBlank(b); }
      StripBlank(s);
    } else {
      LStripAppend(s, b);
      RStripBlankSuffix(LStrip(s), b);
    }
  }

  /** `s.lstrip(c)` for a one-character argument. */
  function LStripChar(s: string, c: char): (r: string)
    ensures |r| <= |s| && r == s[|s| - |r|..]
    ensures r == [] || r[0] != c
    ensures forall k :: 0 <= k < |s| - |r| ==> s[k] == c
  {
    if s != [] && s[0] == c then LStripChar(s[1..], c) else s
  }

  /** `s.rstrip(c)` for a one-character argument. */
  function RStripChar(s: string, c: char): (r: string)
    ensures |r| <= |s| && r == s[..|r|]
    ensures r == [] || r[|r| - 1] != c
    ensures forall k :: |r| <= k < |s| ==> s[k] == c
  {
    if s != [] && s[|s| - 1] == c then RStripChar(s[..|s| - 1], c) else s
  }

  function LowerChar(c: char): char
  {
    if 'A' <= c <= 'Z' then (c as int + 32) as char else c
  }

  /** `s.lower()`, for the ASCII letters. */
  function Lower(s: string): (r: string)
    ensures |r| == |s|
    ensures forall k :: 0 <= k < |s| ==> r[k] == LowerChar(s[k])
  {
    if s == [] then [] else [LowerChar(s[0])] + Lower(s[1..])
  }

  /** Lower-casing works character by character, so it distributes over
      concatenation. */
  lemma LowerAppend(a: string, b: string)
    ensures Lower(a + b) == Lower(a) + Lower(b)
  {
    var r, t := Lower(a + b), Lower(a) + Lower(b);
    forall k | 0 <= k < |r| ensures r[k] == t[k] {
      if k < |a| {
        assert (a + b)[k] == a[k];
      } else {
        assert (a + b)[k] == b[k - |a|];
      }
    }
  }

  function UpperChar(c: char): char
  {
    if 'a' <= c <= 'z' then (c as int - 32) as char else c
  }

  /** `s.upper()`, for the ASCII letters. */
  function Upper(s: string): (r: string)
    ensures |r| == |s|
    ensures forall k :: 0 <= k < |s| ==> r[k] == UpperChar(s[k])
  {
    if s == [] then [] else [UpperChar(s[0])] + Upper(s[1..])
  }

  /** Position of the first `c` in `s`, or `|s|` when there is none. */
  function IndexOf(s: string, c: char): (i: nat)
    ensures i <= |s|
    ensures i < |s| ==> s[i] == c
    ensures forall k :: 0 <= k < i ==> s[k] != c
  {
    if s == [] then 0 else if s[0] == c then 0 else 1 + IndexOf(s[1..], c)
  }

  /** `sep.join(parts)`. */
  function Join(sep: string, parts: seq<string>): string
  {
    if |parts| == 0 then ""
    else if |parts| == 1 then parts[0]
    else parts[0] + sep + Join(sep, parts[1..])
  }

  /** `s.split(sep)` for a one-character separator: never empty, no part
      holds the separator, and joining the parts gives `s` back. */
  function Split(s: string, sep: char): (parts: seq<string>)
    ensures |parts| >= 1
    ensures forall i :: 0 <= i < |parts| ==> sep !in parts[i]
    ensures Join([sep], parts) == s
    decreases |s|
  {
    var i := IndexOf(s, sep);
    if i == |s| then
      [s]
    else
      var rest := Split(s[i + 1..], sep);
      assert s == s[..i] + [sep] + s[i + 1..];
      assert ([s[..i]] + rest)[1..] == rest;
      [s[..i]] + rest
  }

  /** Joining a tail of the parts gives a suffix of the whole join, and the
      rest is the join of the head followed by the separator. */
  lemma {:induction false} JoinSplitAt(sep: string, parts: seq<string>, k: nat)
    requires 0 < k < |parts|
    ensures Join(sep, parts) == Join(sep, parts[..k]) + sep + Join(sep, parts[k..])
    decreases k
  {
    if k == 1 {
      assert parts[..1] == [parts[0]];
      assert parts[1..] == parts[k..];
    } else {
      JoinSplitAt(sep, parts[1..], k - 1);
      assert parts[1..][..k - 1] == parts[1..k];
      assert parts[1..][k - 1..] == parts[k..];
      assert parts[..k][1..] == parts[1..k];
      JoinCons(sep, parts);
      JoinCons(sep, parts[..k]);
    }
  }

  lemma JoinCons(sep: string, parts: seq<string>)
    requires |parts| >= 2
    ensures Join(sep, parts) == parts[0] + sep + Join(sep, parts[1..])
  {
  }

  /** `s.splitlines()`: no line holds a boundary character, `"\r\n"` is one
      boundary, and a final boundary opens no empty line. */
  function SplitLines(s: string): (lines: seq<string>)
    ensures forall i, k :: 0 <= i < |lines| && 0 <= k < |lines[i]| ==> !IsLineBoundary(lines[i][k])
    ensures s == [] <==> lines == []
    decreases |s|
  {
    if s == [] then []
    else
      var i := LineEnd(s);
      if i == |s| then [s]
      else
        var next := if s[i] == '\r' && i + 1 < |s| && s[i + 1] == '\n' then i + 2 else i + 1;
        [s[..i]] + SplitLines(s[next..])
  }

  /** Position of the first line boundary, or `|s|`. */
  function LineEnd(s: string): (i: nat)
    ensures i <= |s|
    ensures i < |s| ==> IsLineBoundary(s[i])
    ensures forall k :: 0 <= k < i ==> !IsLineBoundary(s[k])
  {
    if s == [] then 0 else if IsLineBoundary(s[0]) then 0 else 1 + LineEnd(s[1..])
  }

  /** `[line.strip() for line in text.splitlines() if line.strip()]`: the
      shape in which every input list of the runtime is read. */
  function NonBlankLines(text: string): (r: seq<string>)
    ensures forall i :: 0 <= i < |r| ==> Stripped(r[i])
  {
    StrippedNonBlank(SplitLines(text))
  }

  /** Lines each followed by `"\n"`, as a text file holds them. */
  function Terminated(lines: seq<string>): (r: string)
    ensures lines == [] <==> r == []
  {
    if lines == [] then "" else lines[0] + "\n" + Terminated(lines[1..])
  }

  predicate NoLineBoundary(s: string)
  {
    forall k :: 0 <= k < |s| ==> !IsLineBoundary(s[k])
  }

  /** A line without boundary characters, then `"\n"`, is one line. */
  lemma SplitLinesLine(t: string, rest: string)
    requires NoLineBoundary(t)
    ensures SplitLines(t + "\n" + rest) == [t] + SplitLines(rest)
  {
    var s := t + "\n" + rest;
    forall k | 0 <= k < |t| ensures !IsLineBoundary(s[k]) { assert s[k] == t[k]; }
    assert IsLineBoundary(s[|t|]);
    assert LineEnd(s) == |t|;
    assert s[|t| + 1..] == rest;
    assert s[..|t|] == t;
  }

  /** `splitlines()` gives back the lines of a file written line by line. */
  lemma {:induction false} SplitLinesTerminated(lines: seq<string>)
    requires forall i :: 0 <= i < |lines| ==> NoLineBoundary(lines[i])
    ensures SplitLines(Terminated(lines)) == lines
  {
    if lines != [] {
      SplitLinesLine(lines[0], Terminated(lines[1..]));
      SplitLinesTerminated(lines[1..]);
    }
  }

  /** Lines joined by "\n" with one more "\n" at the end are the lines
      written one per line. */
  lemma {:induction false} JoinTerminated(lines: seq<string>)
    requires lines != []
    ensures Join("\n", lines) + "\n" == Terminated(lines)
  {
    if |lines| > 1 {
      JoinTerminated(lines[1..]);
      assert Join("\n", lines) + "\n" == lines[0] + "\n" + (Join("\n", lines[1..]) + "\n");
    }
  }

  /** Stripped, non-empty lines written one per line are read back as they
      were, in order. */
  lemma NonBlankLinesTerminated(lines: seq<string>)
    requires forall i :: 0 <= i < |lines| ==> Stripped(lines[i]) && NoLineBoundary(lines[i])
    ensures NonBlankLines(Terminated(lines)) == lines
  {
    SplitLinesTerminated(lines);
    StrippedNonBlankKeeps(lines);
  }

  /** A target as the runtime keeps it: non-empty and already stripped. */
  predicate Stripped(s: string)
  {
    s != [] && !IsSpace(s[0]) && !IsSpace(s[|s| - 1])
  }

  lemma StrippedIsFixpoint(s: string)
    requires Stripped(s)
    ensures Strip(s) == s
  {
    assert LStrip(s) == s;
  }

  function StrippedNonBlank(lines: seq<string>): (r: seq<string>)
    ensures |r| <= |lines|
    ensures forall i :: 0 <= i < |r| ==> Stripped(r[i])
  {
    if lines == [] then []
    else
      var rest := StrippedNonBlank(lines[1..]);
      ContributionStripped(lines[0], rest);
      Contribution(lines[0]) + rest
  }

  /** What one line contributes to `StrippedNonBlank`: its stripped form,
      unless that is empty. */
  function Contribution(line: string): (r: seq<string>)
    ensures |r| <= 1
  {
    if Strip(line) == [] then [] else [Strip(line)]
  }

  lemma ContributionStripped(line: string, rest: seq<string>)
    requires forall i :: 0 <= i < |rest| ==> Stripped(rest[i])
    ensures forall i :: 0 <= i < |Contribution(line) + rest| ==> Stripped((Contribution(line) + rest)[i])
  {
    ContributionAllStripped(line);
    ConcatStripped(Contribution(line), rest);
  }

  lemma ContributionAllStripped(line: string)
    ensures forall i :: 0 <= i < |Contribution(line)| ==> Stripped(Contribution(line)[i])
  {
    var t := Strip(line);
    if t != [] {
      StripBlank(line);
      assert Stripped(t);
      assert Contribution(line) == [t];
    }
  }

  lemma ConcatStripped(h: seq<string>, rest: seq<string>)
    requires forall i :: 0 <= i < |h| ==> Stripped(h[i])
    requires forall i :: 0 <= i < |rest| ==> Stripped(rest[i])
    ensures forall i :: 0 <= i < |h + rest| ==> Stripped((h + rest)[i])
  {
    forall i | 0 <= i < |h + rest| ensures Stripped((h + rest)[i]) {
      if i >= |h| {
        assert (h + rest)[i] == rest[i - |h|];
      }
    }
  }

  lemma StrippedNonBlankCons(lines: seq<string>)
    requires lines != []
    ensures StrippedNonBlank(lines) == Contribution(lines[0]) + StrippedNonBlank(lines[1..])
  {
  }

  /** The filter works line by line: it keeps the input order. */
  lemma {:induction false} StrippedNonBlankAppend(a: seq<string>, b: seq<string>)
    ensures StrippedNonBlank(a + b) == StrippedNonBlank(a) + StrippedNonBlank(b)
  {
    if a != [] {
      assert (a + b)[1..] == a[1..] + b;
      StrippedNonBlankAppend(a[1..], b);
      StrippedNonBlankCons(a + b);
      StrippedNonBlankCons(a);
      AppendAssoc(Contribution(a[0]), StrippedNonBlank(a[1..]), StrippedNonBlank(b));
    } else {
      assert a + b == b;
    }
  }

  /** A line contributes exactly its stripped form when it is not blank. */
  lemma StrippedNonBlankSingle(line: string)
    ensures StrippedNonBlank([line]) == if IsBlank(line) then [] else [Strip(line)]
  {
    assert [line][1..] == [];
    assert StrippedNonBlank([line]) == (if Strip(line) == [] then [] else [Strip(line)]) + [];
    assert Strip(line) == [] <==> IsBlank(line) by { StripBlank(line); }
  }

  /** Lines that are already stripped and non-empty pass through unchanged. */
  lemma {:induction false} StrippedNonBlankKeeps(lines: seq<string>)
    requires forall i :: 0 <= i < |lines| ==> Stripped(lines[i])
    ensures StrippedNonBlank(lines) == lines
  {
    if lines != [] {
      StrippedNonBlankKeeps(lines[1..]);
    }
  }

  // ----- integers -----

  predicate IsDigit(c: char) { '0' <= c <= '9' }

  function DigitValue(c: char): nat
    requires IsDigit(c)
  {
    c as int - '0' as int
  }

  /** The digits of Python's integer literal grammar: a digit, then digits
      each optionally preceded by one underscore. */
  predicate WellFormedDigits(s: string)
  {
    && s != []
    && IsDigit(s[0]) && IsDigit(s[|s| - 1])
    && (forall k :: 0 <= k < |s| ==> IsDigit(s[k]) || s[k] == '_')
    && (forall k :: 0 <= k < |s| - 1 ==> !(s[k] == '_' && s[k + 1] == '_'))
  }

  /** Value of a run of digits and underscores, underscores ignored. */
  function DigitsValue(s: string): nat
    requires forall k :: 0 <= k < |s| ==> IsDigit(s[k]) || s[k] == '_'
  {
    if s == [] then 0
    else if s[|s| - 1] == '_' then DigitsValue(s[..|s| - 1])
    else 10 * DigitsValue(s[..|s| - 1]) + DigitValue(s[|s| - 1])
  }

  /** `int(text)` for a `str`: surrounding whitespace and one sign allowed;
      `None` where Python raises `ValueError`. */
  function ParseInt(text: string): Option<int>
  {
    ParseSigned(Strip(text))
  }

  /** `int(t)` once the surrounding whitespace is gone. */
  function ParseSigned(t: string): Option<int>
  {
    if t != [] && (t[0] == '-' || t[0] == '+') then
      var body := t[1..];
      if WellFormedDigits(body) then
        Some(if t[0] == '-' then -(DigitsValue(body) as int) else DigitsValue(body))
      else None
    else if WellFormedDigits(t) then Some(DigitsValue(t))
    else None
  }

  function DigitChar(d: nat): char
    requires d < 10
  {
    ('0' as int + d) as char
  }

  predicate AllDigits(s: string)
  {
    forall k :: 0 <= k < |s| ==> IsDigit(s[k])
  }

  function NatToString(n: nat): (r: string)
    ensures r != [] && AllDigits(r)
  {
    if n < 10 then [DigitChar(n)] else NatToString(n / 10) + [DigitChar(n % 10)]
  }

  /** `str(i)` for an `int`. */
  function IntToString(i: int): (r: string)
    ensures r != [] && (r[0] == '-' || IsDigit(r[0]))
    ensures AllDigits(r[1..])
  {
    if i < 0 then "-" + NatToString(-i) else NatToString(i)
  }

  lemma {:induction false} NatToStringValue(n: nat)
    ensures DigitsValue(NatToString(n)) == n
  {
    if n >= 10 {
      NatToStringValue(n / 10);
      var r := NatToString(n);
      assert r[..|r| - 1] == NatToString(n / 10);
    }
  }

  lemma NatToStringWellFormed(n: nat)
    ensures WellFormedDigits(NatToString(n))
    ensures Strip(NatToString(n)) == NatToString(n)
  {
    var r := NatToString(n);
    assert !IsSpace(r[0]) && !IsSpace(r[|r| - 1]);
    assert LStrip(r) == r;
  }

  lemma ParseNonNegative(i: int)
    requires i >= 0
    ensures ParseInt(IntToString(i)) == Some(i)
  {
    var r := NatToString(i);
    assert IntToString(i) == r;
    NatToStringWellFormed(i);
    NatToStringValue(i);
    ParseUnsigned(r);
  }

  lemma ParseUnsigned(d: string)
    requires WellFormedDigits(d)
    ensures ParseSigned(d) == Some(DigitsValue(d))
  {
    assert d[0] != '-' && d[0] != '+';
  }

  lemma ParseNegative(i: int)
    requires i < 0
    ensures ParseInt(IntToString(i)) == Some(i)
  {
    var n: nat := -i;
    NegativeString(i, n);
    ParseNegativeText(n);
    SameSome(-(n as int), i);
  }

  function NegativeText(n: nat): string
  {
    "-" + NatToString(n)
  }

  lemma ParseNegativeText(n: nat)
    ensures ParseInt(NegativeText(n)) == Some(-(n as int))
  {
    var d := NatToString(n);
    NatToStringWellFormed(n);
    MinusStripped(d);
    ParseIntStripped("-" + d);
    ParseMinusNat(n);
  }

  lemma NegativeString(i: int, n: nat)
    requires i < 0 && n == -i
    ensures IntToString(i) == NegativeText(n)
  {
  }

  lemma SameSome(x: int, y: int)
    requires x == y
    ensures Some(x) == Some(y)
  {
  }

  lemma ParseIntStripped(t: string)
    requires Strip(t) == t
    ensures ParseInt(t) == ParseSigned(t)
  {
  }

  /** A minus sign before digits is already stripped. */
  lemma MinusStripped(d: string)
    requires WellFormedDigits(d)
    ensures Strip("-" + d) == "-" + d
  {
    var r := "-" + d;
    assert r[0] == '-' && r[|r| - 1] == d[|d| - 1];
    assert !IsSpace(r[0]) && !IsSpace(r[|r| - 1]);
    StrippedIsFixpoint(r);
  }

  lemma ParseMinusNat(n: nat)
    ensures ParseSigned("-" + NatToString(n)) == Some(-(n as int))
  {
    var d := NatToString(n);
    NatToStringWellFormed(n);
    NatToStringValue(n);
    ParseMinus(d);
  }

  lemma ParseMinus(d: string)
    requires WellFormedDigits(d)
    ensures ParseSigned("-" + d) == Some(-(DigitsValue(d) as int))
  {
    var t := "-" + d;
    assert t[0] == '-' && t[1..] == d;
  }

  /** `int(str(i)) == i`. */
  lemma IntToStringRoundTrip(i: int)
    ensures ParseInt(IntToString(i)) == Some(i)
  {
    if i < 0 {
      ParseNegative(i);
    } else {
      ParseNonNegative(i);
    }
  }

  lemma {:induction false} IndexOfConcat(a: string, b: string, c: char)
    ensures IndexOf(a + b, c) == if IndexOf(a, c) < |a| then IndexOf(a, c) else |a| + IndexOf(b, c)
  {
    if a != [] {
      assert (a + b)[1..] == a[1..] + b;
      if a[0] != c {
        IndexOfConcat(a[1..], b, c);
      }
    } else {
      assert a + b == b;
    }
  }

  /** A string without the separator is one part. */
  lemma SplitNoSep(s: string, sep: char)
    requires sep !in s
    ensures Split(s, sep) == [s]
  {
    assert IndexOf(s, sep) == |s|;
  }

  lemma SplitAtFirst(s: string, sep: char, i: nat)
    requires i == IndexOf(s, sep) && i < |s|
    ensures Split(s, sep) == [s[..i]] + Split(s[i + 1..], sep)
  {
  }

  /** Splitting at a separator splits both sides. */
  lemma {:induction false} SplitConcat(x: string, sep: char, y: string)
    ensures Split(x + [sep] + y, sep) == Split(x, sep) + Split(y, sep)
    decreases |x|
  {
    var i := IndexOf(x, sep);
    IndexOfConcat(x, [sep] + y, sep);
    if i == |x| {
      SplitConcatFirst(x, sep, y);
    } else {
      SplitConcatLater(x, sep, y, i);
      SplitConcat(x[i + 1..], sep, y);
      SplitAtFirst(x, sep, i);
      AppendAssoc([x[..i]], Split(x[i + 1..], sep), Split(y, sep));
    }
  }

  /** The first separator is the one between the two sides. */
  lemma SplitConcatFirst(x: string, sep: char, y: string)
    requires IndexOf(x, sep) == |x|
    ensures Split(x + [sep] + y, sep) == [x] + Split(y, sep)
    ensures Split(x, sep) == [x]
  {
    var p := x + [sep] + y;
    assert p == x + ([sep] + y);
    IndexOfConcat(x, [sep] + y, sep);
    assert IndexOf([sep] + y, sep) == 0;
    assert p[..|x|] == x && p[|x| + 1..] == y;
    SplitAtFirst(p, sep, |x|);
  }

  /** The first separator is inside the left side. */
  lemma SplitConcatLater(x: string, sep: char, y: string, i: nat)
    requires i == IndexOf(x, sep) && i < |x|
    ensures Split(x + [sep] + y, sep) == [x[..i]] + Split(x[i + 1..] + [sep] + y, sep)
  {
    var p := x + [sep] + y;
    assert p == x + ([sep] + y);
    IndexOfConcat(x, [sep] + y, sep);
    assert p[..i] == x[..i];
    assert p[i + 1..] == x[i + 1..] + [sep] + y;
    SplitAtFirst(p, sep, i);
  }

  // ----- paths -----

  /** The components `PurePosixPath` keeps: empty and `.` parts vanish. */
  function PathParts(parts: seq<string>): (r: seq<string>)
    ensures forall i :: 0 <= i < |r| ==> r[i] != "" && r[i] != "." && r[i] in parts
  {
    if parts == [] then []
    else (if parts[0] == "" || parts[0] == "." then [] else [parts[0]]) + PathParts(parts[1..])
  }

  /** `PurePosixPath(p).name`: the last component, or `""` when there is none. */
  function PathName(p: string): (r: string)
    ensures '/' !in r
    ensures r != "."
  {
    var parts := PathParts(Split(p, '/'));
    if parts == [] then "" else parts[|parts| - 1]
  }

  /** `PathName` yields a component of `p` that no '/' follows: it is a
      suffix of `p` once trailing '/' and '.' components are removed. */
  lemma PathNamePlain(name: string)
    requires name != "" && name != "." && '/' !in name
    ensures PathName(name) == name
  {
    assert Split(name, '/') == [name];
  }
}
