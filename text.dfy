/** The parts of Python's `str`/`bytes` behaviour the harness relies on: substring tests,
    `split()`, `splitlines()`, iteration over the lines of a text file, `replace`,
    `' '.join` and `str(int)`. */
module Text {
  import opened Outcomes

  /** A byte of a `bytes` object. */
  newtype byte = b: int | 0 <= b < 256

  /** The bytes of an ASCII literal such as `b' login:'`. */
  function Ascii(s: string): (r: seq<byte>)
    ensures |r| == |s|
    ensures forall i :: 0 <= i < |s| ==> r[i] as int == s[i] as int % 256
  {
    seq(|s|, i requires 0 <= i < |s| => (s[i] as int % 256) as byte)
  }

  // ---------------------------------------------------------------------------
  // Substrings

  /** `pat` occurs in `s` starting at index `i`. */
  predicate OccursAt<T(==)>(s: seq<T>, pat: seq<T>, i: nat) {
    i + |pat| <= |s| && s[i..i + |pat|] == pat
  }

  /** Python's `pat in s` for two strings or two byte strings. */
  predicate Contains<T(==)>(s: seq<T>, pat: seq<T>) {
    exists i: nat :: i <= |s| && OccursAt(s, pat, i)
  }

  /** Python's `s.startswith(p)`. */
  predicate StartsWith<T(==)>(s: seq<T>, p: seq<T>) {
    |p| <= |s| && s[..|p|] == p
  }

  /** An occurrence in either half is an occurrence in the concatenation. */
  lemma ContainsInParts<T>(a: seq<T>, b: seq<T>, pat: seq<T>)
    ensures Contains(a, pat) ==> Contains(a + b, pat)
    ensures Contains(b, pat) ==> Contains(a + b, pat)
  {
    if Contains(a, pat) {
      var i: nat :| i <= |a| && OccursAt(a, pat, i);
      assert (a + b)[i..i + |pat|] == a[i..i + |pat|];
      assert OccursAt(a + b, pat, i);
    }
    if Contains(b, pat) {
      var i: nat :| i <= |b| && OccursAt(b, pat, i);
      assert (a + b)[|a| + i..|a| + i + |pat|] == b[i..i + |pat|];
      assert OccursAt(a + b, pat, |a| + i);
    }
  }

  /** When `a` ends with `sep` (or `b` is empty) and `pat` never contains `sep`, an occurrence
      of `pat` in `a + b` lies wholly inside `a` or wholly inside `b`. */
  lemma ContainsAcrossSeparator<T>(a: seq<T>, b: seq<T>, pat: seq<T>, sep: T)
    requires (|a| > 0 && a[|a| - 1] == sep) || b == []
    requires sep !in pat
    ensures Contains(a + b, pat) <==> Contains(a, pat) || Contains(b, pat)
  {
    ContainsInParts(a, b, pat);
    forall i: nat | i < |a| < i + |pat| <= |a + b|
      ensures !OccursAt(a + b, pat, i)
    {
      assert (a + b)[i..i + |pat|][|a| - 1 - i] == sep;
    }
    if Contains(a + b, pat) {
      var i: nat :| i <= |a + b| && OccursAt(a + b, pat, i);
      if i + |pat| <= |a| {
        assert a[i..i + |pat|] == (a + b)[i..i + |pat|];
        assert OccursAt(a, pat, i);
      } else {
        assert b[i - |a|..i - |a| + |pat|] == (a + b)[i..i + |pat|];
        assert OccursAt(b, pat, i - |a|);
      }
    }
  }

  // ---------------------------------------------------------------------------
  // Searching

  /** Python's `s.index(x)` for an element known to be present: the first position of `x`. */
  function FirstIndex<T(==)>(s: seq<T>, x: T): (i: nat)
    requires x in s
    ensures i < |s| && s[i] == x
    ensures x !in s[..i]
  {
    if s[0] == x then 0
    else
      assert s == [s[0]] + s[1..];
      1 + FirstIndex(s[1..], x)
  }

  /** The last index below `n` at which `pat` occurs in `s`, if any. */
  function LastOccurrenceBelow<T(==)>(s: seq<T>, pat: seq<T>, n: nat): (r: Option<nat>)
    ensures r.Some? ==> r.value < n && OccursAt(s, pat, r.value)
    ensures r.Some? ==> forall j: nat :: r.value < j < n ==> !OccursAt(s, pat, j)
    ensures r.None? ==> forall j: nat :: j < n ==> !OccursAt(s, pat, j)
  {
    if n == 0 then None
    else if OccursAt(s, pat, n - 1) then Some(n - 1)
    else LastOccurrenceBelow(s, pat, n - 1)
  }

  /** The start of the last occurrence of `pat` in `s`; this is where a greedy `.*` in front of
      `pat` in a regular expression stops. */
  function LastOccurrence<T(==)>(s: seq<T>, pat: seq<T>): Option<nat> {
    LastOccurrenceBelow(s, pat, |s| + 1)
  }

  // ---------------------------------------------------------------------------
  // `str.split()` without arguments: runs of whitespace separate words

  /** The characters for which Python's `str.isspace()` holds. */
  predicate IsSpace(c: char) {
    c == ' ' || c == '\t' || c == '\n' || c == '\r' || c == '\U{0B}' || c == '\U{0C}'
    || ('\U{1C}' <= c <= '\U{1F}') || c == '\U{85}' || c == '\U{A0}' || c == '\U{1680}'
    || ('\U{2000}' <= c <= '\U{200A}') || c == '\U{2028}' || c == '\U{2029}' || c == '\U{202F}'
    || c == '\U{205F}' || c == '\U{3000}'
  }

  /** A word that `split()` can produce: non-empty and free of whitespace. */
  predicate IsWord(w: string) {
    |w| > 0 && forall i :: 0 <= i < |w| ==> !IsSpace(w[i])
  }

  /** The length of the longest prefix of `s` without whitespace. */
  function NonSpaceRun(s: string): (n: nat)
    ensures n <= |s|
    ensures forall i :: 0 <= i < n ==> !IsSpace(s[i])
    ensures n < |s| ==> IsSpace(s[n])
  {
    if s == [] || IsSpace(s[0]) then 0 else 1 + NonSpaceRun(s[1..])
  }

  /** Python's `s.split()`. */
  function Words(s: string): (ws: seq<string>)
    ensures forall k :: 0 <= k < |ws| ==> IsWord(ws[k])
    decreases |s|
  {
    if s == [] then []
    else if IsSpace(s[0]) then Words(s[1..])
    else
      var n := NonSpaceRun(s);
      [s[..n]] + Words(s[n..])
  }

  /** Python's `s.split()[0]`, which raises `IndexError` on a blank string. */
  function FirstWord(s: string): Result<string> {
    var ws := Words(s);
    if ws == [] then Raised("IndexError: list index out of range") else Value(ws[0])
  }

  /** Python's `sep.join(ws)`. */
  function Join(ws: seq<string>, sep: string): string {
    if ws == [] then ""
    else if |ws| == 1 then ws[0]
    else ws[0] + sep + Join(ws[1..], sep)
  }

  lemma {:induction false} NonSpaceRunOfWord(w: string, rest: string)
    requires IsWord(w)
    requires rest == [] || IsSpace(rest[0])
    ensures NonSpaceRun(w + rest) == |w|
    decreases |w|
  {
    if |w| > 1 {
      assert (w + rest)[1..] == w[1..] + rest;
      NonSpaceRunOfWord(w[1..], rest);
    } else {
      assert (w + rest)[1..] == rest;
    }
  }

  /** A word followed by whitespace (or by nothing) is split off as one word. */
  lemma WordsOfLeadingWord(w: string, rest: string)
    requires IsWord(w)
    requires rest == [] || IsSpace(rest[0])
    ensures Words(w + rest) == [w] + Words(rest)
  {
    NonSpaceRunOfWord(w, rest);
    assert (w + rest)[..|w|] == w;
    assert (w + rest)[|w|..] == rest;
  }

  /** Splitting words joined by single blanks gives the words back. */
  lemma {:induction false} WordsOfJoin(ws: seq<string>)
    requires forall k :: 0 <= k < |ws| ==> IsWord(ws[k])
    ensures Words(Join(ws, " ")) == ws
  {
    if |ws| == 1 {
      WordsOfLeadingWord(ws[0], "");
      assert ws[0] + "" == ws[0];
    } else if |ws| > 1 {
      var tail := Join(ws[1..], " ");
      WordsOfLeadingWord(ws[0], " " + tail);
      assert ws[0] + " " + tail == ws[0] + (" " + tail);
      assert (" " + tail)[1..] == tail;
      WordsOfJoin(ws[1..]);
      assert ws == [ws[0]] + ws[1..];
    }
  }

  /** Leading whitespace adds no word. */
  lemma WordsOfBlankPrefix(t: string)
    ensures Words(" " + t) == Words(t)
  {
    assert (" " + t)[1..] == t;
  }

  /** A trailing blank adds no word. */
  lemma {:induction false} WordsOfJoinWithBlank(ws: seq<string>)
    requires forall k :: 0 <= k < |ws| ==> IsWord(ws[k])
    ensures Words(Join(ws, " ") + " ") == ws
  {
    if ws == [] {
      WordsOfBlankPrefix("");
      assert "" + " " == " " + "";
    } else if |ws| == 1 {
      WordsOfLeadingWord(ws[0], " ");
      WordsOfBlankPrefix("");
      assert " " + "" == " ";
    } else {
      var tail := Join(ws[1..], " ") + " ";
      assert Join(ws, " ") + " " == ws[0] + (" " + tail);
      WordsOfLeadingWord(ws[0], " " + tail);
      WordsOfBlankPrefix(tail);
      WordsOfJoinWithBlank(ws[1..]);
      assert ws == [ws[0]] + ws[1..];
    }
  }

  // ---------------------------------------------------------------------------
  // `str.splitlines()`

  /** The characters at which Python's `str.splitlines()` breaks a line. */
  predicate IsLineBreak(c: char) {
    c == '\n' || c == '\r' || c == '\U{0B}' || c == '\U{0C}' || ('\U{1C}' <= c <= '\U{1E}')
    || c == '\U{85}' || c == '\U{2028}' || c == '\U{2029}'
  }

  /** The length of the longest prefix of `s` without a line break. */
  function LineEnd(s: string): (n: nat)
    ensures n <= |s|
    ensures forall i :: 0 <= i < n ==> !IsLineBreak(s[i])
    ensures n < |s| ==> IsLineBreak(s[n])
  {
    if s == [] || IsLineBreak(s[0]) then 0 else 1 + LineEnd(s[1..])
  }

  /** The string holds no line break. */
  predicate NoBreaks(l: string) {
    forall i :: 0 <= i < |l| ==> !IsLineBreak(l[i])
  }

  /** Python's `s.splitlines()`: `"\r\n"` is one break, and a final break opens no new line. */
  function Lines(s: string): (ls: seq<string>)
    ensures forall k :: 0 <= k < |ls| ==> NoBreaks(ls[k])
    decreases |s|
  {
    if s == [] then []
    else
      var n := LineEnd(s);
      if n == |s| then [s]
      else
        var width := if s[n] == '\r' && n + 1 < |s| && s[n + 1] == '\n' then 2 else 1;
        [s[..n]] + Lines(s[n + width..])
  }

  /** Lines terminated by `"\n"`, as a program writes a text file line by line. */
  function JoinLines(ls: seq<string>): string {
    if ls == [] then "" else ls[0] + "\n" + JoinLines(ls[1..])
  }

  lemma {:induction false} LineEndOfLine(l: string, rest: string)
    requires NoBreaks(l)
    ensures LineEnd(l + "\n" + rest) == |l|
    decreases |l|
  {
    if l != [] {
      assert (l + "\n" + rest)[1..] == l[1..] + "\n" + rest;
      LineEndOfLine(l[1..], rest);
    }
  }

  /** `splitlines()` recovers the lines of a text written line by line. */
  lemma {:induction false} LinesOfJoinLines(ls: seq<string>)
    requires forall k :: 0 <= k < |ls| ==> NoBreaks(ls[k])
    ensures Lines(JoinLines(ls)) == ls
  {
    if ls != [] {
      var l := ls[0];
      var rest := JoinLines(ls[1..]);
      var s := l + "\n" + rest;
      assert JoinLines(ls) == s;
      assert LineEnd(s) == |l| by {
        LineEndOfLine(l, rest);
      }
      assert s[|l|] == '\n';
      assert s[..|l|] == l;
      assert s[|l| + 1..] == rest;
      assert Lines(s) == [l] + Lines(rest);
      assert Lines(rest) == ls[1..] by {
        LinesOfJoinLines(ls[1..]);
      }
      assert ls == [l] + ls[1..];
    }
  }

  // ---------------------------------------------------------------------------
  // Iterating over a text file: each line keeps its terminating "\n"

  /** The length of the first line of `s` including its `"\n"`, or all of `s` without one. */
  function FileLineLength(s: string): (n: nat)
    requires s != []
    ensures 0 < n <= |s|
    ensures forall i :: 0 <= i < n - 1 ==> s[i] != '\n'
    ensures n < |s| ==> s[n - 1] == '\n'
  {
    if s[0] == '\n' || |s| == 1 then 1 else 1 + FileLineLength(s[1..])
  }

  /** The lines produced by `for line in f` over a file whose content is `s`. */
  function FileLines(s: string): (ls: seq<string>)
    decreases |s|
  {
    if s == [] then [] else
      var n := FileLineLength(s);
      [s[..n]] + FileLines(s[n..])
  }

  /** Some line of `ls` contains `pat`. */
  predicate SomeLineContains(ls: seq<string>, pat: string) {
    exists k :: 0 <= k < |ls| && Contains(ls[k], pat)
  }

  lemma SomeLineOfCons(head: string, tail: seq<string>, pat: string)
    ensures SomeLineContains([head] + tail, pat) <==> Contains(head, pat) || SomeLineContains(tail, pat)
  {
    var ls := [head] + tail;
    if SomeLineContains(ls, pat) {
      var k :| 0 <= k < |ls| && Contains(ls[k], pat);
      if k > 0 { assert ls[k] == tail[k - 1]; }
    }
    if SomeLineContains(tail, pat) {
      var k :| 0 <= k < |tail| && Contains(tail[k], pat);
      assert ls[k + 1] == tail[k];
    }
    if Contains(head, pat) {
      assert ls[0] == head;
    }
  }

  /** A pattern without `"\n"` occurs in a file's text exactly when it occurs in one of its lines. */
  lemma {:induction false} ContainsInFileLines(s: string, pat: string)
    requires '\n' !in pat && pat != []
    ensures Contains(s, pat) <==> SomeLineContains(FileLines(s), pat)
    decreases |s|
  {
    if s == [] {
      assert !OccursAt(s, pat, 0);
    } else {
      var n := FileLineLength(s);
      var head, tail := s[..n], s[n..];
      assert s == head + tail;
      ContainsAcrossSeparator(head, tail, pat, '\n');
      ContainsInFileLines(tail, pat);
      SomeLineOfCons(head, FileLines(tail), pat);
    }
  }

  // ---------------------------------------------------------------------------
  // `str.replace(old, new)`

  /** Python's `s.replace(old, new)`: non-overlapping occurrences, scanned from the left. */
  function ReplaceAll(s: string, pat: string, sub: string): string
    requires pat != []
    decreases |s|
  {
    if |s| < |pat| then s
    else if s[..|pat|] == pat then sub + ReplaceAll(s[|pat|..], pat, sub)
    else [s[0]] + ReplaceAll(s[1..], pat, sub)
  }

  /** Without an occurrence, `replace` changes nothing. */
  lemma {:induction false} ReplaceAbsent(s: string, pat: string, sub: string)
    requires pat != []
    requires !Contains(s, pat)
    ensures ReplaceAll(s, pat, sub) == s
    decreases |s|
  {
    if |s| >= |pat| {
      assert s[..|pat|] != pat by {
        if s[..|pat|] == pat { assert OccursAt(s, pat, 0); }
      }
      if Contains(s[1..], pat) {
        var i: nat :| i <= |s[1..]| && OccursAt(s[1..], pat, i);
        assert s[1 + i..1 + i + |pat|] == s[1..][i..i + |pat|];
        assert OccursAt(s, pat, 1 + i);
      }
      ReplaceAbsent(s[1..], pat, sub);
    }
  }

  /** An occurrence in the tail is an occurrence one place further in the whole. */
  lemma OccursAtTail<T>(s: seq<T>, pat: seq<T>, i: nat)
    requires s != []
    ensures OccursAt(s[1..], pat, i) <==> OccursAt(s, pat, i + 1)
  {
    if i + |pat| < |s| {
      assert s[1..][i..i + |pat|] == s[i + 1..i + 1 + |pat|];
    }
  }

  /** The first occurrence of `pat` is replaced by `sub`, and the scan resumes after it. */
  lemma {:induction false} ReplaceFirst(a: string, pat: string, b: string, sub: string)
    requires pat != []
    requires forall i: nat :: i < |a| ==> !OccursAt(a + pat + b, pat, i)
    ensures ReplaceAll(a + pat + b, pat, sub) == a + sub + ReplaceAll(b, pat, sub)
    decreases |a|
  {
    var s := a + pat + b;
    if a == [] {
      assert s == pat + b;
      assert s[..|pat|] == pat;
      assert s[|pat|..] == b;
    } else {
      var t := a[1..] + pat + b;
      assert s[1..] == t;
      assert s[..|pat|] != pat by {
        assert !OccursAt(s, pat, 0);
      }
      assert ReplaceAll(s, pat, sub) == [s[0]] + ReplaceAll(t, pat, sub);
      forall i: nat | i < |a[1..]| ensures !OccursAt(t, pat, i) {
        assert !OccursAt(s, pat, i + 1);
        OccursAtTail(s, pat, i);
      }
      ReplaceFirst(a[1..], pat, b, sub);
      assert [a[0]] + (a[1..] + sub + ReplaceAll(b, pat, sub)) == a + sub + ReplaceAll(b, pat, sub);
    }
  }

  // ---------------------------------------------------------------------------
  // Decimal numbers

  predicate IsDigit(c: char) { '0' <= c <= '9' }

  /** Python's `str(n)` for a non-negative integer. */
  function Decimal(n: nat): (s: string)
    ensures |s| > 0
    ensures forall i :: 0 <= i < |s| ==> IsDigit(s[i])
  {
    var d := ['0', '1', '2', '3', '4', '5', '6', '7', '8', '9'][n % 10];
    if n < 10 then [d] else Decimal(n / 10) + [d]
  }

  /** The longest prefix of `s` made of decimal digits (what `\d*` matches). */
  function DigitRun(s: string): (d: string)
    ensures StartsWith(s, d)
    ensures forall i :: 0 <= i < |d| ==> IsDigit(d[i])
    ensures |d| < |s| ==> !IsDigit(s[|d|])
  {
    if s == [] || !IsDigit(s[0]) then "" else [s[0]] + DigitRun(s[1..])
  }

  /** A run of digits followed by a non-digit is matched exactly. */
  lemma {:induction false} DigitRunOfDigits(d: string, rest: string)
    requires forall i :: 0 <= i < |d| ==> IsDigit(d[i])
    requires rest == [] || !IsDigit(rest[0])
    ensures DigitRun(d + rest) == d
    decreases |d|
  {
    if d == [] {
      assert d + rest == rest;
    } else {
      assert (d + rest)[1..] == d[1..] + rest;
      DigitRunOfDigits(d[1..], rest);
      assert d == [d[0]] + d[1..];
    }
  }
}
