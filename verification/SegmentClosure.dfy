/** The playlist a worker uploads and the segments it uploads with it agree. */
module SegmentClosure {
  import opened Basics
  import opened Listing
  import opened Keys
  import opened Playlist
  import opened RewriteProperties
  import opened Segments

  predicate IsUri(line: string) {
    !IsTagOrBlank(line)
  }

  /** A directory a transcode leaves: its playlist scans and every URI line names one of its segment files. */
  predicate Transcoded(files: Files) {
    && PLAYLIST in files && Scannable(files[PLAYLIST])
    && (forall line :: line in ScanLines(files[PLAYLIST]) ==> DropCR(line) == line)
    && (forall line :: line in ScanLines(files[PLAYLIST]) && IsUri(line) ==> line in files && NamesSegment(line))
  }

  lemma PlaylistIsNoSegment(newExt: string)
    ensures !HasSuffix(PLAYLIST, ".ts") && Target(PLAYLIST, newExt) == PLAYLIST
  {}

  /** The rename step succeeds; afterwards every file is under its target name with its content, there is
      nothing else, and the playlist is the old one with every URI line renamed. */
  lemma RenamedDirectory(files: Files, order: seq<string>, newExt: string)
    requires Transcoded(files) && IsListing(order, files) && NoClash(files, newExt) && PlainExt(newExt)
    ensures var (after, error) := AfterRename(files, order, newExt);
            && error == None
            && (forall n :: n in files && n != PLAYLIST ==>
                  Target(n, newExt) in after && after[Target(n, newExt)] == files[n])
            && (forall m :: m in after ==> exists n :: n in files && m == Target(n, newExt))
            && PLAYLIST in after
            && var before, now := ScanLines(files[PLAYLIST]), ScanLines(after[PLAYLIST]);
               |now| == |before| && forall i :: 0 <= i < |before| ==> now[i] == Renamed(before[i], newExt)
  {
    RenameAllMoves(files, order, newExt);
    var moved := RenameAll(files, order, newExt);
    PlaylistIsNoSegment(newExt);
    assert Keeps(files, Names(order), moved, newExt, PLAYLIST);
    RewriteKeepsLines(files[PLAYLIST], newExt);
    var (after, error) := AfterRename(files, order, newExt);
    forall n | n in files && n != PLAYLIST
      ensures Target(n, newExt) in after && after[Target(n, newExt)] == files[n]
    {
      assert Keeps(files, Names(order), moved, newExt, n);
      NamesNeverMeet(files, newExt, n, PLAYLIST);
    }
    forall m | m in after ensures exists n :: n in files && m == Target(n, newExt) {
      assert m in moved && Stems(files, Names(order), newExt, m);
      var n :| n in files && m == Now(n, Names(order), newExt);
      assert m == Target(n, newExt);
    }
  }

  /** The rewritten line names a file that holds what the original line named. */
  predicate Closed(files: Files, after: Files, line: string, newExt: string)
    requires line in files
  {
    Renamed(line, newExt) in after && after[Renamed(line, newExt)] == files[line]
  }

  lemma TsLineIsRenamed(line: string, newExt: string)
    requires IsUri(line) && HasSuffix(line, ".ts")
    ensures Renamed(line, newExt) == Target(line, newExt)
  {}

  lemma TsLineIsClosed(files: Files, order: seq<string>, newExt: string, line: string)
    requires Transcoded(files) && IsListing(order, files) && NoClash(files, newExt) && PlainExt(newExt)
    requires IsUri(line) && line in files && HasSuffix(line, ".ts")
    ensures Closed(files, AfterRename(files, order, newExt).0, line, newExt)
  {
    RenamedDirectory(files, order, newExt);
    PlaylistIsNoSegment(newExt);
    TsLineIsRenamed(line, newExt);
  }

  // ---- .m4s segments ----

  /** The name the playlist rewriter gives a segment file, .ts or .m4s. */
  function Aim(name: string, newExt: string): string {
    if HasSuffix(name, ".ts") || HasSuffix(name, ".m4s") then Stem(name) + newExt else name
  }

  lemma TargetIsAim(name: string, newExt: string)
    ensures Target(name, newExt) == Aim(name, newExt) || Target(name, newExt) == name
  {}

  /** The names the rewriter gives clash with no file and with each other. */
  predicate AimsApart(files: Files, newExt: string) {
    && (forall a {:trigger Aim(a, newExt)} :: a in files && Aim(a, newExt) != a ==>
          Aim(a, newExt) !in files && Aim(a, newExt) !in SKIPPED)
    && (forall a, b {:trigger Aim(a, newExt), Aim(b, newExt)} ::
          a in files && b in files && a != b ==> Aim(a, newExt) != Aim(b, newExt))
  }

  lemma ApartIsNoClash(files: Files, newExt: string)
    requires AimsApart(files, newExt)
    ensures NoClash(files, newExt)
  {
    forall a | a in files ensures Target(a, newExt) == Aim(a, newExt) || Target(a, newExt) == a {
      TargetIsAim(a, newExt);
    }
  }

  lemma AimOfLine(line: string, newExt: string)
    requires IsUri(line)
    ensures Renamed(line, newExt) == Aim(line, newExt)
  {}

  lemma M4sNames(line: string, newExt: string)
    requires IsUri(line) && HasSuffix(line, ".m4s")
    ensures Target(line, newExt) == line && line != PLAYLIST && Renamed(line, newExt) == Aim(line, newExt)
    ensures Aim(line, newExt) == line <==> newExt == ".m4s"
  {
    var stem := line[..|line| - 4];
    assert line == stem + ".m4s";
    assert line[|line| - 3..][0] == 'm';
    assert PLAYLIST[|PLAYLIST| - 4..][0] == 'm';
    AimOfLine(line, newExt);
    SameAfterPrefix(stem, newExt, ".m4s");
  }

  lemma NoFileAimsThere(files: Files, after: Files, line: string, newExt: string)
    requires AimsApart(files, newExt) && line in files && Target(line, newExt) == line && Aim(line, newExt) != line
    requires forall m :: m in after ==> exists n :: n in files && m == Target(n, newExt)
    ensures Aim(line, newExt) !in after
  {
    if Aim(line, newExt) in after {
      var n :| n in files && Aim(line, newExt) == Target(n, newExt);
      TargetIsAim(n, newExt);
    }
  }

  /** The playlist rewriter renames .m4s lines, the rename step leaves .m4s files alone. */
  lemma M4sLineIsClosedIff(files: Files, order: seq<string>, newExt: string, line: string)
    requires Transcoded(files) && IsListing(order, files) && AimsApart(files, newExt) && PlainExt(newExt)
    requires IsUri(line) && line in files && HasSuffix(line, ".m4s")
    ensures Closed(files, AfterRename(files, order, newExt).0, line, newExt) <==> newExt == ".m4s"
  {
    ApartIsNoClash(files, newExt);
    RenamedDirectory(files, order, newExt);
    M4sNames(line, newExt);
    if newExt != ".m4s" {
      NoFileAimsThere(files, AfterRename(files, order, newExt).0, line, newExt);
    }
  }

  /** For any names without clashes, the uploaded playlist and the segments agree exactly when the new extension
      is .m4s itself or no URI line of the transcode ends in .m4s. */
  lemma RewriteAgreesIff(files: Files, order: seq<string>, newExt: string)
    requires Transcoded(files) && IsListing(order, files) && AimsApart(files, newExt) && PlainExt(newExt)
    ensures (forall line :: line in ScanLines(files[PLAYLIST]) && IsUri(line) ==>
               Closed(files, AfterRename(files, order, newExt).0, line, newExt))
            <==> newExt == ".m4s"
                 || forall line :: line in ScanLines(files[PLAYLIST]) && IsUri(line) ==> !HasSuffix(line, ".m4s")
  {
    ApartIsNoClash(files, newExt);
    forall line | line in ScanLines(files[PLAYLIST]) && IsUri(line)
      ensures Closed(files, AfterRename(files, order, newExt).0, line, newExt)
              <==> newExt == ".m4s" || !HasSuffix(line, ".m4s")
    {
      if HasSuffix(line, ".m4s") {
        M4sLineIsClosedIff(files, order, newExt, line);
      } else {
        TsLineIsClosed(files, order, newExt, line);
      }
    }
  }

  lemma SkippedAreNoSegments(name: string)
    requires name in SKIPPED
    ensures !HasSuffix(name, ".ts")
  {}

  predicate LineAgrees(files: Files, shipped: Files, prefix: string, line: string, now: string) {
    if IsUri(line) then
      line in files && prefix + "/" + now in shipped && shipped[prefix + "/" + now] == files[line]
    else now == line
  }

  lemma NewNameIsUploaded(files: Files, newExt: string, line: string)
    requires NoClash(files, newExt) && line in files && HasSuffix(line, ".ts")
    ensures Uploads(Target(line, newExt))
  {
    if line in SKIPPED {
      SkippedAreNoSegments(line);
    }
  }

  predicate Ships(after: Files, shipped: Files, prefix: string) {
    forall n :: n in after && Uploads(n) ==> prefix + "/" + n in shipped && shipped[prefix + "/" + n] == after[n]
  }

  lemma LineIsShipped(files: Files, after: Files, newExt: string, shipped: Files, prefix: string, line: string)
    requires IsUri(line) ==> line in files && Closed(files, after, line, newExt) && Uploads(Renamed(line, newExt))
    requires Ships(after, shipped, prefix)
    ensures LineAgrees(files, shipped, prefix, line, Renamed(line, newExt))
  {}

  lemma PlaylistIsUploaded()
    ensures Uploads(PLAYLIST)
  {}

  /** After rename and upload of a .ts transcode, the uploaded playlist agrees with the uploaded objects: each of
      its URI lines names an object under the same prefix that holds the segment the line named before, in the
      same order; distinct segments have distinct objects; the other lines are as they were. */
  lemma UploadedPlaylistIsClosed(files: Files, renameOrder: seq<string>, newExt: string, uploadOrder: seq<string>,
                                 objects: Files, prefix: string)
    requires Transcoded(files) && IsListing(renameOrder, files) && NoClash(files, newExt) && PlainExt(newExt)
    requires forall line :: line in ScanLines(files[PLAYLIST]) && IsUri(line) ==> HasSuffix(line, ".ts")
    requires IsListing(uploadOrder, AfterRename(files, renameOrder, newExt).0)
    ensures var shipped := UploadAll(objects, AfterRename(files, renameOrder, newExt).0, prefix, uploadOrder);
            && prefix + "/" + PLAYLIST in shipped
            && var before, now := ScanLines(files[PLAYLIST]), ScanLines(shipped[prefix + "/" + PLAYLIST]);
               && |now| == |before|
               && (forall i :: 0 <= i < |now| ==> LineAgrees(files, shipped, prefix, before[i], now[i]))
               && (forall i, j :: 0 <= i < |now| && 0 <= j < |now| ==>
                     IsUri(before[i]) && IsUri(before[j]) && before[i] != before[j] ==> now[i] != now[j])
  {
    var after := AfterRename(files, renameOrder, newExt).0;
    var shipped := UploadAll(objects, after, prefix, uploadOrder);
    RenamedDirectory(files, renameOrder, newExt);
    UploadAllHas(objects, after, prefix, uploadOrder);
    assert forall n :: n in after ==> n in Names(uploadOrder);
    PlaylistIsUploaded();
    var before := ScanLines(files[PLAYLIST]);
    forall i | 0 <= i < |before|
      ensures LineAgrees(files, shipped, prefix, before[i], Renamed(before[i], newExt))
      ensures IsUri(before[i]) ==> Renamed(before[i], newExt) == Target(before[i], newExt)
    {
      assert before[i] in before;
      if IsUri(before[i]) {
        TsLineIsRenamed(before[i], newExt);
        TsLineIsClosed(files, renameOrder, newExt, before[i]);
        NewNameIsUploaded(files, newExt, before[i]);
      }
      LineIsShipped(files, after, newExt, shipped, prefix, before[i]);
    }
  }
}
