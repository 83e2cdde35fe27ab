/** The file reader of grapher.py: the text of the points file is cut into
    lines, every line is normalised (strip, drop quotes, `i` becomes `j`) and
    handed to Python's complex(), which is a parameter here. */
module Reader {
  import opened Points

  // ---------------------------------------------------------------------
  // str.strip()

  /** The characters Python's str.strip() removes when called without
      arguments (the whitespace table of CPython's unicode objects). */
  predicate IsWhitespace(c: char) {
    var n := c as int;
    (0x09 <= n <= 0x0D) || (0x1C <= n <= 0x20) || n == 0x85 || n == 0xA0 ||
    n == 0x1680 || (0x2000 <= n <= 0x200A) || n == 0x2028 || n == 0x2029 ||
    n == 0x202F || n == 0x205F || n == 0x3000
  }

  /** `r` is what strip() leaves of `s`: a contiguous piece of `s` with only
      whitespace around it, and neither starting nor ending with whitespace. */
  ghost predicate StrippedFrom(s: string, r: string) {
    exists lo :: StrippedAt(s, r, lo)
  }

  /** `r` is what strip() leaves of `s`, and it starts at index `lo`. */
  ghost predicate StrippedAt(s: string, r: string, lo: int) {
    0 <= lo && lo + |r| <= |s| && r == s[lo..lo + |r|] &&
    (forall k :: 0 <= k < lo ==> IsWhitespace(s[k])) &&
    (forall k :: lo + |r| <= k < |s| ==> IsWhitespace(s[k])) &&
    (r != [] ==> !IsWhitespace(s[lo]) && !IsWhitespace(s[lo + |r| - 1]))
  }

  /** The first index at or after `i` that does not hold whitespace, or |s|. */
  function SkipLeading(s: string, i: nat): (lo: nat)
    requires i <= |s|
    decreases |s| - i
    ensures i <= lo <= |s|
    ensures forall k :: i <= k < lo ==> IsWhitespace(s[k])
    ensures lo < |s| ==> !IsWhitespace(s[lo])
  {
    if i < |s| && IsWhitespace(s[i]) then SkipLeading(s, i + 1) else i
  }

  /** Moving the end `j` back over whitespace, never past `lo`. */
  function SkipTrailing(s: string, lo: nat, j: nat): (hi: nat)
    requires lo <= j <= |s|
    ensures lo <= hi <= j
    ensures forall k :: hi <= k < j ==> IsWhitespace(s[k])
    ensures hi > lo ==> !IsWhitespace(s[hi - 1])
  {
    if j > lo && IsWhitespace(s[j - 1]) then SkipTrailing(s, lo, j - 1) else j
  }

  /** str.strip() */
  function Strip(s: string): (r: string)
    ensures |r| <= |s|
    ensures StrippedFrom(s, r)
  {
    var lo := SkipLeading(s, 0);
    var hi := SkipTrailing(s, lo, |s|);
    assert StrippedAt(s, s[lo..hi], lo);
    s[lo..hi]
  }

  /** There is only one way to strip a string, so StrippedFrom is a complete
      description of str.strip(). */
  lemma StrippedUnique(s: string, r1: string, r2: string)
    requires StrippedFrom(s, r1) && StrippedFrom(s, r2)
    ensures r1 == r2
  {
  }

  // ---------------------------------------------------------------------
  // str.replace("\"", "") and str.replace("i", "j")

  /** How often `c` occurs in `s`. */
  function Occurrences(s: string, c: char): nat {
    if s == [] then 0 else (if s[0] == c then 1 else 0) + Occurrences(s[1..], c)
  }

  /** Every double quote removed; everything else kept, in order. */
  function RemoveQuotes(s: string): (r: string)
    ensures '"' !in r
    ensures |r| <= |s|
  {
    if s == [] then []
    else
      var rest := RemoveQuotes(s[1..]);
      if s[0] == '"' then rest else [s[0]] + rest
  }

  /** Quote removal keeps every other character as often as it occurs. */
  lemma {:induction false} RemoveQuotesCount(s: string, c: char)
    ensures Occurrences(RemoveQuotes(s), c) == if c == '"' then 0 else Occurrences(s, c)
  {
    if s != [] {
      RemoveQuotesCount(s[1..], c);
    }
  }

  /** Quote removal shortens the line by exactly its number of quotes. */
  lemma {:induction false} RemoveQuotesLength(s: string)
    ensures |RemoveQuotes(s)| == |s| - Occurrences(s, '"')
  {
    if s != [] {
      RemoveQuotesLength(s[1..]);
    }
  }

  /** Quote removal acts character by character, so it keeps the relative
      order of what it keeps. */
  lemma {:induction false} RemoveQuotesConcat(a: string, b: string)
    ensures RemoveQuotes(a + b) == RemoveQuotes(a) + RemoveQuotes(b)
  {
    if a != [] {
      assert (a + b)[1..] == a[1..] + b;
      RemoveQuotesConcat(a[1..], b);
    } else {
      assert a + b == b;
    }
  }

  /** The imaginary unit as complex() spells it: `i` becomes `j`. */
  function UnitChar(c: char): char {
    if c == 'i' then 'j' else c
  }

  /** Every `i` becomes `j`; nothing else changes and no position moves. */
  function ReplaceI(s: string): (r: string)
    ensures |r| == |s|
    ensures forall k :: 0 <= k < |s| ==> r[k] == UnitChar(s[k])
    ensures 'i' !in r
  {
    if s == [] then [] else [UnitChar(s[0])] + ReplaceI(s[1..])
  }

  /** The two replace() calls could run in either order. */
  lemma {:induction false} QuotesAndUnitsCommute(s: string)
    ensures ReplaceI(RemoveQuotes(s)) == RemoveQuotes(ReplaceI(s))
  {
    if s != [] {
      QuotesAndUnitsCommute(s[1..]);
      var r := ReplaceI(s);
      assert r == [r[0]] + r[1..];
      assert r[1..] == ReplaceI(s[1..]);
    }
  }

  // ---------------------------------------------------------------------
  // The whole normalisation of grapher.py line 9

  /** line.strip().replace("\"", "").replace("i", "j") */
  function Normalize(line: string): (r: string)
    ensures '"' !in r && 'i' !in r
    ensures |r| <= |line|
  {
    ReplaceI(RemoveQuotes(Strip(line)))
  }

  /** What the normalised line is made of: the stripped line with its quotes
      dropped and each `i` turned into `j`, character for character. */
  lemma NormalizeCount(line: string, t: string, c: char)
    requires StrippedFrom(line, t)
    ensures Occurrences(Normalize(line), c) ==
              if c == '"' || c == 'i' then 0
              else if c == 'j' then Occurrences(t, 'i') + Occurrences(t, 'j')
              else Occurrences(t, c)
  {
    StrippedUnique(line, t, Strip(line));
    var q := RemoveQuotes(t);
    ReplaceICount(q, c);
    RemoveQuotesCount(t, c);
    if c == 'j' {
      ReplaceICount(q, 'i');
      RemoveQuotesCount(t, 'i');
    }
  }

  /** Replacing `i` by `j` moves the count of `i` onto `j`. */
  lemma {:induction false} ReplaceICount(q: string, c: char)
    ensures Occurrences(ReplaceI(q), c) ==
              if c == 'i' then 0
              else if c == 'j' then Occurrences(q, 'i') + Occurrences(q, 'j')
              else Occurrences(q, c)
  {
    if q != [] {
      ReplaceICount(q[1..], c);
      var r := ReplaceI(q);
      assert r[0] == UnitChar(q[0]) && r[1..] == ReplaceI(q[1..]);
    }
  }

  // ---------------------------------------------------------------------
  // Iterating over the lines of a text file

  /** A line as file iteration yields it: not empty, and a newline only as its
      last character. */
  predicate IsLine(l: string) {
    l != [] && forall k :: 0 <= k < |l| - 1 ==> l[k] != '\n'
  }

  predicate EndsInNewline(l: string) {
    l != [] && l[|l| - 1] == '\n'
  }

  /** Length of the first line of `s`, its newline included. */
  function FirstLineLength(s: string): (n: nat)
    requires s != []
    ensures 0 < n <= |s| && IsLine(s[..n])
    ensures n < |s| ==> s[n - 1] == '\n'
  {
    if s[0] == '\n' || |s| == 1 then 1
    else
      var m := FirstLineLength(s[1..]);
      assert s[..m + 1] == [s[0]] + s[1..][..m];
      m + 1
  }

  function Concat(lines: seq<string>): string {
    if lines == [] then [] else lines[0] + Concat(lines[1..])
  }

  /** The lines `for line in file` visits: each keeps its newline, every line
      but the last ends in one, and together they are the whole text. */
  function SplitLines(text: string): (lines: seq<string>)
    decreases |text|
    ensures Concat(lines) == text
    ensures forall k :: 0 <= k < |lines| ==> IsLine(lines[k])
    ensures forall k :: 0 <= k < |lines| - 1 ==> EndsInNewline(lines[k])
  {
    if text == [] then []
    else
      var n := FirstLineLength(text);
      var line, rest := text[..n], SplitLines(text[n..]);
      assert text == line + text[n..];
      assert rest != [] ==> n < |text| && EndsInNewline(line);
      var lines := [line] + rest;
      assert lines[0] == line && lines[1..] == rest;
      assert forall k :: 1 <= k < |lines| ==> lines[k] == rest[k - 1];
      lines
  }

  // ---------------------------------------------------------------------
  // The list comprehension of get_points_from_file

  /** complex() raised on the line at index `line` (counted from 0), whose
      text was `text`. */
  datatype ParseError = ParseError(line: nat, text: string)

  /** The list comprehension [element(line) for line in lines], where
      element(line) either yields a point or raises: a point per line in
      order, or the first line on which element raises. */
  function ParseLines(lines: seq<string>, element: string -> Option<Point>): (r: Result<seq<Point>, ParseError>)
    ensures r.Ok? <==> (forall k :: 0 <= k < |lines| ==> element(lines[k]).Some?)
    ensures r.Ok? ==> (|r.value| == |lines| &&
              forall k :: 0 <= k < |lines| ==> Some(r.value[k]) == element(lines[k]))
    ensures r.Err? ==> (r.error.line < |lines| && r.error.text == lines[r.error.line] &&
              element(lines[r.error.line]).None? &&
              forall k :: 0 <= k < r.error.line ==> element(lines[k]).Some?)
  {
    if lines == [] then Ok([])
    else
      match element(lines[0])
      case None => Err(ParseError(0, lines[0]))
      case Some(p) =>
        var rest := ParseLines(lines[1..], element);
        assert forall k :: 1 <= k < |lines| ==> lines[k] == lines[1..][k - 1];
        match rest
        case Ok(ps) => Ok([p] + ps)
        case Err(e) => Err(ParseError(e.line + 1, e.text))
  }

  /** get_points_from_file on the text of points.txt: one point per line of
      the file in file order, each complex() of the normalised line, or the
      first line complex() rejects. */
  function GetPointsFromFile(text: string, parse: string -> Option<Point>): (r: Result<seq<Point>, ParseError>)
    ensures var lines := SplitLines(text);
      r.Ok? ==> (|r.value| == |lines| &&
                 forall k :: 0 <= k < |lines| ==> Some(r.value[k]) == parse(Normalize(lines[k])))
    ensures var lines := SplitLines(text);
      r.Err? ==> (r.error.line < |lines| && r.error.text == lines[r.error.line] &&
                  parse(Normalize(lines[r.error.line])).None? &&
                  forall k :: 0 <= k < r.error.line ==> parse(Normalize(lines[k])).Some?)
  {
    var lines := SplitLines(text);
    ParseLines(lines, line => parse(Normalize(line)))
  }
}
