/** pkg/hls/playlist.go: the segment rewriter and the master playlist printer. */
module Playlist {
  import opened Basics

  datatype VariantInfo = VariantInfo(name: string, bandwidth: int, width: int, height: int, path: string)

  /** The longest line, terminator apart, that the source's line scanner accepts. */
  const MAX_LINE: nat := 65535

  datatype ScanError = LineTooLong

  // ---- Path extensions and the segment test ----

  /** The suffix that starts at the last dot of the last path element. */
  function Ext(path: string): string {
    if path == "" || path[|path| - 1] == '/' then ""
    else if path[|path| - 1] == '.' then "."
    else
      var e := Ext(path[..|path| - 1]);
      if e == "" then "" else e + [path[|path| - 1]]
  }

  function LowerChar(c: char): char {
    if 'A' <= c <= 'Z' then c - 'A' + 'a' else c
  }

  function ToLower(s: string): (r: string)
    ensures |r| == |s| && forall i :: 0 <= i < |s| ==> r[i] == LowerChar(s[i])
  {
    seq(|s|, i requires 0 <= i < |s| => LowerChar(s[i]))
  }

  predicate IsSegmentLine(line: string) {
    var lower := ToLower(line);
    || HasSuffix(lower, ".ts")
    || HasSuffix(lower, ".m4s")
    || HasSuffix(lower, ".jpeg")
    || HasSuffix(lower, ".jpg")
    || Contains(lower, "segment")
  }

  predicate IsTagOrBlank(line: string) {
    line == "" || line[0] == '#'
  }

  function RewriteLine(line: string, newExt: string): string {
    if !IsTagOrBlank(line) && IsSegmentLine(line) then
      var ext := Ext(line);
      if ext == ".ts" || ext == ".m4s" then TrimSuffix(line, ext) + newExt else line
    else line
  }

  function RewriteLines(lines: seq<string>, newExt: string): seq<string> {
    MapLines(lines, line => RewriteLine(line, newExt))
  }

  predicate Scannable(text: string) {
    forall line :: line in RawLines(text) ==> |line| <= MAX_LINE
  }

  /** What the rewriter prints for raw lines, in order. */
  function Printed(raw: seq<string>, newExt: string): string {
    Unlines(RewriteLines(MapLines(raw, DropCR), newExt))
  }

  function Rewritten(text: string, newExt: string): Result<string, ScanError> {
    if Scannable(text) then Success(Printed(RawLines(text), newExt)) else Failure(LineTooLong)
  }

  lemma PrintedOneMore(done: seq<string>, raw: string, newExt: string)
    ensures Printed(done + [raw], newExt) == Printed(done, newExt) + RewriteLine(DropCR(raw), newExt) + "\n"
  {
    var before, last := RewriteLines(MapLines(done, DropCR), newExt), RewriteLine(DropCR(raw), newExt);
    assert RewriteLines(MapLines(done + [raw], DropCR), newExt) == before + [last];
    UnlinesAppend(before, [last]);
    assert Unlines([last]) == last + "\n";
  }

  /** What is left to scan after the first line. */
  function AfterLine(text: string): (rest: string)
    requires text != ""
    ensures |rest| < |text|
  {
    var n := IndexOf(text, '\n');
    if n == |text| then "" else text[n + 1..]
  }

  lemma NextRawLine(done: seq<string>, text: string)
    requires text != ""
    ensures RawLines(text) == [text[..IndexOf(text, '\n')]] + RawLines(AfterLine(text))
    ensures done + RawLines(text) == (done + [text[..IndexOf(text, '\n')]]) + RawLines(AfterLine(text))
  {}

  method RewritePlaylist(text: string, newExt: string) returns (r: Result<string, ScanError>)
    ensures r == Rewritten(text, newExt)
    ensures r.Success? <==> forall line :: line in RawLines(text) ==> |line| <= 65535
  {
    var out, rest := "", text;
    ghost var done: seq<string> := [];
    while rest != ""
      invariant RawLines(text) == done + RawLines(rest)
      invariant forall line :: line in done ==> |line| <= MAX_LINE
      invariant out == Printed(done, newExt)
      decreases |rest|
    {
      var n := IndexOf(rest, '\n');
      var raw := rest[..n];
      NextRawLine(done, rest);
      assert raw in RawLines(text);
      if n > MAX_LINE {
        return Failure(LineTooLong);
      }
      var line := DropCR(raw);
      if !IsTagOrBlank(line) && IsSegmentLine(line) {
        var ext := Ext(line);
        if ext == ".ts" || ext == ".m4s" {
          line := TrimSuffix(line, ext) + newExt;
        }
      }
      PrintedOneMore(done, raw, newExt);
      out := out + line;
      out := out + "\n";
      done := done + [raw];
      rest := AfterLine(rest);
    }
    assert RawLines(text) == done;
    return Success(out);
  }

  // ---- The master playlist ----

  const STREAM_INF := "#EXT-X-STREAM-INF:"

  function StreamAttributes(v: VariantInfo): string {
    "BANDWIDTH" + "=" + (FormatInt(v.bandwidth) + (","
    + ("RESOLUTION" + "=" + (FormatInt(v.width) + "x" + FormatInt(v.height) + (","
    + ("NAME" + "=" + ("\"" + v.name + "\"")))))))
  }

  function StreamInf(v: VariantInfo): string {
    STREAM_INF + StreamAttributes(v)
  }

  function Entry(v: VariantInfo): seq<string> {
    [StreamInf(v), v.path]
  }

  function EntryLines(variants: seq<VariantInfo>): seq<string> {
    if variants == [] then []
    else EntryLines(variants[..|variants| - 1]) + Entry(variants[|variants| - 1])
  }

  function MasterLines(variants: seq<VariantInfo>): seq<string> {
    ["#EXTM3U", "#EXT-X-VERSION:3"] + EntryLines(variants)
  }

  function MasterText(variants: seq<VariantInfo>): string {
    Unlines(MasterLines(variants))
  }

  lemma UnlinesPair(a: string, b: string)
    ensures Unlines([a, b]) == a + "\n" + b + "\n"
  {
    assert [a, b][1..] == [b] && [b][1..] == [];
    assert Unlines([b]) == b + "\n";
  }

  lemma MasterOneMore(variants: seq<VariantInfo>, v: VariantInfo)
    ensures MasterText(variants + [v]) == MasterText(variants) + (StreamInf(v) + "\n") + v.path + "\n"
  {
    var more := variants + [v];
    assert more[..|more| - 1] == variants;
    assert MasterLines(more) == MasterLines(variants) + Entry(v);
    UnlinesAppend(MasterLines(variants), Entry(v));
    UnlinesPair(StreamInf(v), v.path);
  }

  lemma MasterPrefix(variants: seq<VariantInfo>, i: nat, text: string)
    requires i < |variants| && text == MasterText(variants[..i])
    ensures text + (StreamInf(variants[i]) + "\n") + variants[i].path + "\n" == MasterText(variants[..i + 1])
  {
    MasterOneMore(variants[..i], variants[i]);
    assert variants[..i + 1] == variants[..i] + [variants[i]];
  }

  lemma MasterHeader()
    ensures "#EXTM3U\n" + "#EXT-X-VERSION:3\n" == MasterText([])
  {
    UnlinesPair("#EXTM3U", "#EXT-X-VERSION:3");
    assert MasterLines([]) == ["#EXTM3U", "#EXT-X-VERSION:3"];
  }

  method GenerateMasterPlaylist(variants: seq<VariantInfo>) returns (text: string)
    ensures text == MasterText(variants)
  {
    text := "#EXTM3U\n";
    text := text + "#EXT-X-VERSION:3\n";
    MasterHeader();
    for i := 0 to |variants|
      invariant text == MasterText(variants[..i])
    {
      var v := variants[i];
      MasterPrefix(variants, i, text);
      text := text + (StreamInf(v) + "\n");
      text := text + v.path;
      text := text + "\n";
    }
    assert variants[..|variants|] == variants;
  }

  lemma AppendAssociates(a: seq<string>, b: seq<string>, c: seq<string>)
    ensures (a + b) + c == a + (b + c)
  {}

  lemma {:induction false} EntryLinesFromFront(v: VariantInfo, rest: seq<VariantInfo>)
    ensures EntryLines([v] + rest) == Entry(v) + EntryLines(rest)
    decreases |rest|
  {
    var all := [v] + rest;
    if rest == [] {
      assert all[..|all| - 1] == [];
    } else {
      var front, last := rest[..|rest| - 1], rest[|rest| - 1];
      assert all[..|all| - 1] == [v] + front && all[|all| - 1] == last;
      EntryLinesFromFront(v, front);
      AppendAssociates(Entry(v), EntryLines(front), Entry(last));
    }
  }
}
