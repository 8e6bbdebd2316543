/** What the playlist rewriter keeps and what it changes. */
module RewriteProperties {
  import opened Basics
  import opened Playlist

  /** A URI line that ends in one of the two segment extensions. */
  predicate NamesSegment(line: string) {
    !IsTagOrBlank(line) && (HasSuffix(line, ".ts") || HasSuffix(line, ".m4s"))
  }

  function Stem(line: string): string
    requires HasSuffix(line, ".ts") || HasSuffix(line, ".m4s")
  {
    if HasSuffix(line, ".ts") then line[..|line| - 3] else line[..|line| - 4]
  }

  /** The intended effect on one line, with no mention of path extensions or letter case. */
  function Renamed(line: string, newExt: string): string {
    if NamesSegment(line) then Stem(line) + newExt else line
  }

  // ---- Extensions ----

  lemma {:induction false} ExtIsSuffix(path: string)
    ensures HasSuffix(path, Ext(path))
  {
    if path != "" && path[|path| - 1] != '/' && path[|path| - 1] != '.' {
      var front := path[..|path| - 1];
      ExtIsSuffix(front);
      var e := Ext(front);
      assert path == front + [path[|path| - 1]];
      if e != "" {
        assert path[|path| - |e| - 1..] == front[|front| - |e|..] + [path[|path| - 1]];
      }
    }
  }

  lemma {:induction false} ExtOfDotted(stem: string, word: string)
    requires '.' !in word && '/' !in word
    ensures Ext(stem + "." + word) == "." + word
  {
    var path := stem + "." + word;
    if word == "" {
      assert path[|path| - 1] == '.';
    } else {
      var shorter := word[..|word| - 1];
      ExtOfDotted(stem, shorter);
      assert path[..|path| - 1] == stem + "." + shorter;
      assert path[|path| - 1] == word[|word| - 1];
      assert word[|word| - 1] in word;
      assert "." + word == ("." + shorter) + [word[|word| - 1]];
    }
  }

  lemma ExtMatchesSuffix(line: string, word: string)
    requires '.' !in word && '/' !in word
    ensures Ext(line) == "." + word <==> HasSuffix(line, "." + word)
  {
    if HasSuffix(line, "." + word) {
      var stem := line[..|line| - 1 - |word|];
      assert line == stem + "." + word;
      ExtOfDotted(stem, word);
    }
    if Ext(line) == "." + word {
      ExtIsSuffix(line);
    }
  }

  lemma LowerKeepsSuffix(line: string, suffix: string)
    requires HasSuffix(line, suffix) && ToLower(suffix) == suffix
    ensures HasSuffix(ToLower(line), suffix)
  {}

  lemma SegmentTestHolds(line: string)
    requires HasSuffix(line, ".ts") || HasSuffix(line, ".m4s")
    ensures IsSegmentLine(line)
  {
    if HasSuffix(line, ".ts") {
      LowerKeepsSuffix(line, ".ts");
    } else {
      LowerKeepsSuffix(line, ".m4s");
    }
  }

  /** The segment test never stops a line that ends in .ts or .m4s, so the rewriter
      changes these lines and no others. */
  lemma RewriteLineMeaning(line: string, newExt: string)
    ensures RewriteLine(line, newExt) == Renamed(line, newExt)
  {
    ExtMatchesSuffix(line, "ts");
    ExtMatchesSuffix(line, "m4s");
    assert Ext(line) == ".ts" <==> HasSuffix(line, ".ts");
    assert Ext(line) == ".m4s" <==> HasSuffix(line, ".m4s");
    if NamesSegment(line) {
      SegmentTestHolds(line);
      assert RewriteLine(line, newExt) == TrimSuffix(line, Ext(line)) + newExt;
    }
  }

  // ---- Line by line ----

  /** An extension that cannot be mistaken for the end of a line. */
  predicate PlainExt(newExt: string) {
    newExt != "" && '\n' !in newExt && newExt[|newExt| - 1] != '\r'
  }

  lemma RewrittenLineIsScanned(line: string, newExt: string)
    requires IsScannedLine(line) && PlainExt(newExt)
    ensures IsScannedLine(RewriteLine(line, newExt))
  {}

  /** Line by line, tags, blank lines and foreign URIs survive and segment URIs get the new extension. */
  lemma RewriteKeepsLines(text: string, newExt: string)
    requires Scannable(text) && PlainExt(newExt)
    requires forall line :: line in ScanLines(text) ==> DropCR(line) == line
    ensures ScanLines(Rewritten(text, newExt).value) == RewriteLines(ScanLines(text), newExt)
    ensures |RewriteLines(ScanLines(text), newExt)| == |ScanLines(text)|
    ensures forall i :: 0 <= i < |ScanLines(text)| ==>
              RewriteLines(ScanLines(text), newExt)[i] == Renamed(ScanLines(text)[i], newExt)
  {
    var lines := ScanLines(text);
    var changed := RewriteLines(lines, newExt);
    ScannedLinesHaveNoFeed(text);
    forall i | 0 <= i < |lines|
      ensures IsScannedLine(changed[i])
      ensures changed[i] == Renamed(lines[i], newExt)
    {
      assert lines[i] in lines;
      RewriteLineMeaning(lines[i], newExt);
      RewrittenLineIsScanned(lines[i], newExt);
    }
    ScanLinesOfUnlines(changed);
  }

  // ---- Idempotence ----

  /** A second pass changes nothing: the exact condition on the configured extension. */
  predicate StableExt(newExt: string) {
    || newExt == ".ts"
    || newExt == ".m4s"
    || !(|| HasSuffix(newExt, ".ts") || HasSuffix(newExt, ".m4s")
         || HasSuffix(".ts", newExt) || HasSuffix(".m4s", newExt))
  }

  lemma SuffixOfAppend(a: string, b: string, suffix: string)
    ensures |b| >= |suffix| ==> (HasSuffix(a + b, suffix) <==> HasSuffix(b, suffix))
    ensures |b| <= |suffix| ==> (HasSuffix(a + b, suffix) ==> HasSuffix(suffix, b))
  {}

  lemma RenamedTwice(line: string, newExt: string)
    requires StableExt(newExt)
    ensures Renamed(Renamed(line, newExt), newExt) == Renamed(line, newExt)
  {
    if NamesSegment(line) {
      var once := Stem(line) + newExt;
      SuffixOfAppend(Stem(line), newExt, ".ts");
      SuffixOfAppend(Stem(line), newExt, ".m4s");
      if newExt == ".ts" || newExt == ".m4s" {
        assert once[|once| - |newExt|..] == newExt;
        assert once[..|once| - |newExt|] == Stem(line);
        assert newExt == ".ts" ==> !HasSuffix(newExt, ".m4s");
      }
    }
  }

  lemma RewriteLineTwice(line: string, newExt: string)
    requires StableExt(newExt)
    ensures RewriteLine(RewriteLine(line, newExt), newExt) == RewriteLine(line, newExt)
  {
    RewriteLineMeaning(line, newExt);
    RewriteLineMeaning(Renamed(line, newExt), newExt);
    RenamedTwice(line, newExt);
  }

  /** When the condition fails, this line shows it. */
  function UnstableLine(newExt: string): string {
    if HasSuffix(newExt, ".ts") || HasSuffix(newExt, ".m4s") then "a" + ".ts"
    else if HasSuffix(".ts", newExt) then ("a" + ".ts"[..3 - |newExt|]) + ".ts"
    else if HasSuffix(".m4s", newExt) then ("a" + ".m4s"[..4 - |newExt|]) + ".ts"
    else "a"
  }

  lemma RenamedTs(stem: string, newExt: string)
    requires stem != "" && stem[0] != '#'
    ensures Renamed(stem + ".ts", newExt) == stem + newExt
  {
    var line := stem + ".ts";
    assert line[|line| - 3..] == ".ts" && line[..|line| - 3] == stem && line[0] == stem[0];
  }

  lemma RenamedM4s(stem: string, newExt: string)
    requires stem != "" && stem[0] != '#'
    ensures Renamed(stem + ".m4s", newExt) == stem + newExt
  {
    var line := stem + ".m4s";
    assert line[|line| - 4..] == ".m4s" && line[..|line| - 4] == stem && line[0] == stem[0];
    assert line[|line| - 3] == 'm';
  }

  /** A front that `newExt` completes to a segment extension gives a line that loses it on the second pass. */
  lemma ShortExtShrinks(full: string, front: string, newExt: string)
    requires full == front + newExt && |newExt| < |full|
    requires Renamed("a" + full, newExt) == "a" + newExt
    ensures var line := ("a" + front) + ".ts";
            Renamed(Renamed(line, newExt), newExt) != Renamed(line, newExt)
  {
    RenamedTs("a" + front, newExt);
    assert ("a" + front) + newExt == "a" + full;
    assert |"a" + newExt| < |"a" + full|;
  }

  lemma ShortTsShows(newExt: string)
    requires HasSuffix(".ts", newExt) && |newExt| < 3
    ensures var line := ("a" + ".ts"[..3 - |newExt|]) + ".ts";
            Renamed(Renamed(line, newExt), newExt) != Renamed(line, newExt)
  {
    RenamedTs("a", newExt);
    ShortExtShrinks(".ts", ".ts"[..3 - |newExt|], newExt);
  }

  lemma ShortM4sShows(newExt: string)
    requires HasSuffix(".m4s", newExt) && |newExt| < 4
    ensures var line := ("a" + ".m4s"[..4 - |newExt|]) + ".ts";
            Renamed(Renamed(line, newExt), newExt) != Renamed(line, newExt)
  {
    RenamedM4s("a", newExt);
    ShortExtShrinks(".m4s", ".m4s"[..4 - |newExt|], newExt);
  }

  /** An extension that itself ends in a segment extension, and is longer, grows the line. */
  lemma LongExtGrows(newExt: string)
    requires HasSuffix(newExt, ".ts") || HasSuffix(newExt, ".m4s")
    requires HasSuffix(newExt, ".ts") ==> |newExt| > 3
    requires HasSuffix(newExt, ".m4s") ==> |newExt| > 4
    ensures |Renamed("a" + newExt, newExt)| > |"a" + newExt|
  {
    SuffixOfAppend("a", newExt, ".ts");
    if |newExt| >= 4 {
      SuffixOfAppend("a", newExt, ".m4s");
    }
  }

  lemma LongExtShows(newExt: string)
    requires !StableExt(newExt) && (HasSuffix(newExt, ".ts") || HasSuffix(newExt, ".m4s"))
    ensures Renamed(Renamed("a" + ".ts", newExt), newExt) != Renamed("a" + ".ts", newExt)
  {
    RenamedTs("a", newExt);
    LongExtGrows(newExt);
  }

  lemma UnstableExtShows(newExt: string)
    requires !StableExt(newExt)
    ensures var line := UnstableLine(newExt);
            Renamed(Renamed(line, newExt), newExt) != Renamed(line, newExt)
  {
    if HasSuffix(newExt, ".ts") || HasSuffix(newExt, ".m4s") {
      LongExtShows(newExt);
    } else if HasSuffix(".ts", newExt) {
      ShortTsShows(newExt);
    } else {
      ShortM4sShows(newExt);
    }
  }

  lemma UnstableExtShowsInRewrite(newExt: string)
    requires !StableExt(newExt)
    ensures var line := UnstableLine(newExt);
            RewriteLine(RewriteLine(line, newExt), newExt) != RewriteLine(line, newExt)
  {
    var line := UnstableLine(newExt);
    UnstableExtShows(newExt);
    RewriteLineMeaning(line, newExt);
    RewriteLineMeaning(Renamed(line, newExt), newExt);
  }

  lemma IdempotentIffStable(newExt: string)
    ensures (forall line :: RewriteLine(RewriteLine(line, newExt), newExt) == RewriteLine(line, newExt))
            <==> StableExt(newExt)
  {
    if StableExt(newExt) {
      forall line ensures RewriteLine(RewriteLine(line, newExt), newExt) == RewriteLine(line, newExt) {
        RewriteLineTwice(line, newExt);
      }
    } else {
      UnstableExtShowsInRewrite(newExt);
    }
  }

  /** Any extension with one dot, at its front, is stable; the configured default is ".jpeg". */
  lemma SingleDotIsStable(newExt: string)
    requires newExt != "" && newExt[0] == '.' && '.' !in newExt[1..]
    ensures StableExt(newExt)
  {
    assert HasSuffix(newExt, ".ts") ==> newExt[|newExt| - 3] == '.';
    assert HasSuffix(newExt, ".m4s") ==> newExt[|newExt| - 4] == '.';
  }

  lemma RewriteLinesTwice(lines: seq<string>, newExt: string)
    requires StableExt(newExt)
    ensures RewriteLines(RewriteLines(lines, newExt), newExt) == RewriteLines(lines, newExt)
  {
    forall i | 0 <= i < |lines|
      ensures RewriteLines(RewriteLines(lines, newExt), newExt)[i] == RewriteLines(lines, newExt)[i]
    {
      RewriteLineTwice(lines[i], newExt);
    }
  }

  lemma RewriteTwice(text: string, newExt: string)
    requires Scannable(text) && StableExt(newExt) && PlainExt(newExt)
    requires forall line :: line in ScanLines(text) ==> DropCR(line) == line
    requires Scannable(Rewritten(text, newExt).value)
    ensures Rewritten(Rewritten(text, newExt).value, newExt) == Rewritten(text, newExt)
  {
    var lines := ScanLines(text);
    RewriteKeepsLines(text, newExt);
    RewriteLinesTwice(lines, newExt);
  }

  // ---- Master playlists pass through unchanged ----

  /** An entry whose two lines are lines, short enough to scan, and not segments. */
  predicate Untouched(v: VariantInfo) {
    && IsScannedLine(StreamInf(v)) && |StreamInf(v)| <= MAX_LINE
    && IsScannedLine(v.path) && |v.path| <= MAX_LINE
    && !NamesSegment(v.path)
  }

  /** A line that every pass leaves as it is. */
  predicate Fixed(line: string, newExt: string) {
    IsScannedLine(line) && |line| <= MAX_LINE && RewriteLine(line, newExt) == line
  }

  lemma TagIsFixed(line: string, newExt: string)
    requires IsScannedLine(line) && |line| <= MAX_LINE && IsTagOrBlank(line)
    ensures Fixed(line, newExt)
  {}

  lemma EntryIsFixed(v: VariantInfo, newExt: string)
    requires Untouched(v)
    ensures Fixed(StreamInf(v), newExt) && Fixed(v.path, newExt)
  {
    assert StreamInf(v)[0] == '#';
    TagIsFixed(StreamInf(v), newExt);
    RewriteLineMeaning(v.path, newExt);
  }

  lemma {:induction false} EntryLinesFixed(variants: seq<VariantInfo>, newExt: string)
    requires forall v :: v in variants ==> Untouched(v)
    ensures forall line :: line in EntryLines(variants) ==> Fixed(line, newExt)
  {
    if variants != [] {
      var front, last := variants[..|variants| - 1], variants[|variants| - 1];
      EntryLinesFixed(front, newExt);
      EntryIsFixed(last, newExt);
      assert EntryLines(variants) == EntryLines(front) + Entry(last);
    }
  }

  lemma FixedLinesPass(lines: seq<string>, newExt: string)
    requires forall line :: line in lines ==> Fixed(line, newExt)
    ensures Rewritten(Unlines(lines), newExt) == Success(Unlines(lines))
  {
    RawLinesOfUnlines(lines);
    ScanLinesOfUnlines(lines);
    forall i | 0 <= i < |lines|
      ensures RewriteLines(lines, newExt)[i] == lines[i]
    {
      assert lines[i] in lines;
    }
    assert RewriteLines(lines, newExt) == lines;
  }

  lemma MasterPassesThrough(variants: seq<VariantInfo>, newExt: string)
    requires forall v :: v in variants ==> Untouched(v)
    ensures Rewritten(MasterText(variants), newExt) == Success(MasterText(variants))
  {
    EntryLinesFixed(variants, newExt);
    TagIsFixed("#EXTM3U", newExt);
    TagIsFixed("#EXT-X-VERSION:3", newExt);
    FixedLinesPass(MasterLines(variants), newExt);
  }
}
