/** Where the discipline of FileInvariant is needed: exactly when a removal, or a report that arrives late,
    leaves a ready variant row without its playlist object. */
module DanglingPlaylists {
  import opened Basics
  import opened Keys
  import opened PipelineState
  import opened VariantRows

  /** Every ready row has its playlist object, so every entry a rebuild lists has one too. */
  predicate ReadyBacked(video: string, rows: seq<Variant>, objects: map<Key, string>) {
    forall v :: v in rows && v.status.Ready? ==> VariantFile(video, v.res, PLAYLIST) in objects
  }

  predicate AwaitsReport(rows: seq<Variant>, res: string) {
    exists v :: v in rows && v.res == res && v.status.Processing?
  }

  lemma OtherPlaylistsStay(s: State, video: string, res: string)
    requires video in s.videos && HasResolution(s.videos[video].variants, res)
    requires s.videos[video].masterKey.Some? ==> s.videos[video].masterKey.value.Master?
    ensures var s' := DeleteVariant(s, video, res);
            && s'.videos[video].variants == RemoveFirst(s.videos[video].variants, res)
            && forall r :: VariantFile(video, r, PLAYLIST) in s'.objects
                           <==> r != res && VariantFile(video, r, PLAYLIST) in s.objects
  {}

  /** Removing one row of a resolution deletes the files of all of them: what remains is backed exactly
      when no other ready row, of another codec, has that resolution. */
  lemma RemovalBacksIff(s: State, video: string, res: string)
    requires video in s.videos && HasResolution(s.videos[video].variants, res)
    requires s.videos[video].masterKey.Some? ==> s.videos[video].masterKey.value.Master?
    requires ReadyBacked(video, s.videos[video].variants, s.objects)
    ensures var s' := DeleteVariant(s, video, res);
            ReadyBacked(video, s'.videos[video].variants, s'.objects)
            <==> !HasReady(RemoveFirst(s.videos[video].variants, res), res)
  {
    OtherPlaylistsStay(s, video, res);
    RemoveFirstRows(s.videos[video].variants, res);
  }

  lemma {:induction false} MarkReadyHits(rows: seq<Variant>, res: string)
    requires AwaitsReport(rows, res)
    ensures HasReady(MarkReady(rows, res), res)
  {
    var marked := MarkReady(rows, res);
    if rows[0].res == res && rows[0].status.Processing? {
      assert marked[0] in marked;
    } else {
      var v :| v in rows && v.res == res && v.status.Processing?;
      assert v in rows[1..];
      MarkReadyHits(rows[1..], res);
      var r :| r in MarkReady(rows[1..], res) && r.res == res && r.status.Ready?;
      assert r in marked;
    }
  }

  lemma {:induction false} MarkReadyMisses(rows: seq<Variant>, res: string)
    requires !AwaitsReport(rows, res)
    ensures MarkReady(rows, res) == rows
  {
    if rows != [] {
      assert rows[0] in rows;
      forall v | v in rows[1..] ensures v in rows {}
      MarkReadyMisses(rows[1..], res);
    }
  }

  /** A report after its files were deleted (by a removal, a DRM switch or a re-upload under the running
      transcode) dangles exactly when a row of the resolution is again awaiting a report. */
  lemma LateReportBacksIff(s: State, video: string, res: string)
    requires video in s.videos && ReadyBacked(video, s.videos[video].variants, s.objects)
    ensures var s' := TranscodeDone(s, video, TranscodeResult(res));
            ReadyBacked(video, s'.videos[video].variants, s'.objects)
            <==> (AwaitsReport(s.videos[video].variants, res) ==> VariantFile(video, res, PLAYLIST) in s.objects)
  {
    var rows := s.videos[video].variants;
    var s' := TranscodeDone(s, video, TranscodeResult(res));
    assert s'.videos[video].variants == MarkReady(rows, res);
    assert forall r :: VariantFile(video, r, PLAYLIST) in s'.objects <==> VariantFile(video, r, PLAYLIST) in s.objects;
    if AwaitsReport(rows, res) {
      MarkReadyHits(rows, res);
      MarkReadyRows(rows, res);
    } else {
      MarkReadyMisses(rows, res);
    }
  }
}
