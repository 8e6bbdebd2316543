/** Small datatypes and facts about text that the other modules share. */
module Basics {
  datatype Option<+T> = None | Some(value: T)

  datatype Result<+T, +E> = Success(value: T) | Failure(error: E)

  lemma LastUpdateWins<K, V>(m: map<K, V>, k: K, a: V, b: V)
    ensures m[k := a][k := b] == m[k := b]
  {}

  // ---- Searching ----

  /** The first position of `c` in `s`, or |s|. */
  function IndexOf(s: string, c: char): (i: nat)
    ensures i <= |s| && c !in s[..i]
    ensures i < |s| ==> s[i] == c
  {
    if s == "" || s[0] == c then 0
    else
      var k := IndexOf(s[1..], c);
      assert s[..1 + k] == [s[0]] + s[1..][..k];
      1 + k
  }

  lemma {:induction false} IndexOfAfter(a: string, c: char, b: string)
    requires c !in a
    ensures IndexOf(a + [c] + b, c) == |a|
  {
    if a != [] {
      assert (a + [c] + b)[1..] == a[1..] + [c] + b;
      IndexOfAfter(a[1..], c, b);
    }
  }

  predicate HasSuffix(s: string, suffix: string) {
    |suffix| <= |s| && s[|s| - |suffix|..] == suffix
  }

  function TrimSuffix(s: string, suffix: string): string {
    if HasSuffix(s, suffix) then s[..|s| - |suffix|] else s
  }

  predicate Contains(s: string, part: string) {
    exists i :: 0 <= i <= |s| - |part| && s[i..][..|part|] == part
  }

  // ---- Lines ----

  function DropCR(line: string): string {
    if line != "" && line[|line| - 1] == '\r' then line[..|line| - 1] else line
  }

  /** The stretches of text between line feeds; text after the last line feed counts if there is any. */
  function RawLines(text: string): (lines: seq<string>)
    ensures forall line :: line in lines ==> '\n' !in line
    decreases |text|
  {
    if text == "" then [] else
      var n := IndexOf(text, '\n');
      [text[..n]] + if n == |text| then [] else RawLines(text[n + 1..])
  }

  function MapLines(lines: seq<string>, f: string -> string): (out: seq<string>)
    ensures |out| == |lines| && forall i :: 0 <= i < |lines| ==> out[i] == f(lines[i])
  {
    if lines == [] then [] else [f(lines[0])] + MapLines(lines[1..], f)
  }

  /** The lines a line scanner hands out: a carriage return before the line feed is dropped. */
  function ScanLines(text: string): seq<string> {
    MapLines(RawLines(text), DropCR)
  }

  function Unlines(lines: seq<string>): string {
    if lines == [] then "" else lines[0] + "\n" + Unlines(lines[1..])
  }

  lemma {:induction false} UnlinesAppend(a: seq<string>, b: seq<string>)
    ensures Unlines(a + b) == Unlines(a) + Unlines(b)
  {
    if a == [] {
      assert a + b == b;
    } else {
      UnlinesAppend(a[1..], b);
      assert (a + b)[1..] == a[1..] + b;
      assert Unlines(a + b) == a[0] + "\n" + (Unlines(a[1..]) + Unlines(b));
    }
  }

  lemma FirstRawLine(line: string, rest: string)
    requires '\n' !in line
    ensures RawLines(line + "\n" + rest) == [line] + RawLines(rest)
  {
    var text := line + ['\n'] + rest;
    IndexOfAfter(line, '\n', rest);
    assert text[..|line|] == line && text[|line| + 1..] == rest;
  }

  lemma {:induction false} RawLinesOfUnlines(lines: seq<string>)
    requires forall line :: line in lines ==> '\n' !in line
    ensures RawLines(Unlines(lines)) == lines
  {
    if lines != [] {
      RawLinesOfUnlines(lines[1..]);
      FirstRawLine(lines[0], Unlines(lines[1..]));
    }
  }

  /** A line a scanner gives back as it is. */
  predicate IsScannedLine(line: string) {
    '\n' !in line && DropCR(line) == line
  }

  lemma ScanLinesOfUnlines(lines: seq<string>)
    requires forall line :: line in lines ==> IsScannedLine(line)
    ensures ScanLines(Unlines(lines)) == lines
  {
    RawLinesOfUnlines(lines);
    forall i | 0 <= i < |lines|
      ensures ScanLines(Unlines(lines))[i] == lines[i]
    {
      assert lines[i] in lines;
    }
  }

  lemma ScannedLinesHaveNoFeed(text: string)
    ensures forall line :: line in ScanLines(text) ==> '\n' !in line
  {
    var raw := RawLines(text);
    forall i | 0 <= i < |raw|
      ensures '\n' !in ScanLines(text)[i]
    {
      assert raw[i] in raw;
    }
  }

  // ---- Decimal numbers ----

  predicate IsDigit(c: char) {
    '0' <= c <= '9'
  }

  function Digit(d: nat): (c: char)
    requires d < 10
    ensures IsDigit(c)
  {
    '0' + d as char
  }

  function Decimal(n: nat): (s: string)
    ensures s != "" && forall c :: c in s ==> IsDigit(c)
  {
    if n < 10 then [Digit(n)] else Decimal(n / 10) + [Digit(n % 10)]
  }

  /** The way %d prints an int. */
  function FormatInt(n: int): string {
    if n < 0 then "-" + Decimal(-n) else Decimal(n)
  }

  function ParseDecimal(s: string): Option<nat> {
    if s == "" || !IsDigit(s[|s| - 1]) then None
    else
      var d := s[|s| - 1] as int - '0' as int;
      if |s| == 1 then Some(d) else
        match ParseDecimal(s[..|s| - 1])
        case None => None
        case Some(high) => Some(10 * high + d)
  }

  lemma {:induction false} ParseOfDecimal(n: nat)
    ensures ParseDecimal(Decimal(n)) == Some(n)
  {
    if n >= 10 {
      ParseOfDecimal(n / 10);
      var s := Decimal(n);
      assert s[..|s| - 1] == Decimal(n / 10);
    }
  }
}
