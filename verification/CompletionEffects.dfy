/** What completing a probe or a thumbnail task does to its video, field by field and row by row. */
module CompletionEffects {
  import opened Basics
  import opened Keys
  import opened Listing
  import opened PipelineState
  import opened PipelineSteps
  import opened Thumbnails
  import opened ThumbnailAgreement

  /** The message reports this task of this video. */
  predicate Reports(s: State, i: nat, video: string) {
    && i < |s.messages| && s.messages[i].phase.Delivered? && !s.messages[i].params.TranscodeParams?
    && s.messages[i].task in s.tasks && s.tasks[s.messages[i].task].video == video && video in s.videos
  }

  /** The task is completed with this result, and no message, object, key or other video changes. */
  predicate OnlyThatVideo(s: State, s': State, i: nat, r: TaskResult, video: string)
    requires i < |s.messages| && s.messages[i].task in s.tasks
  {
    var t := s.messages[i].task;
    && s'.tasks == s.tasks[t := s.tasks[t].(status := Completed, result := r)]
    && s'.messages == s.messages[i := s.messages[i].(phase := Reported)]
    && s'.objects == s.objects && s'.keys == s.keys
    && s'.videos.Keys == s.videos.Keys && forall v :: v in s.videos && v != video ==> s'.videos[v] == s.videos[v]
  }

  // ---- Probes ----

  /** Each positive field is taken over and any other keeps its value; only the audio flag is always taken. */
  predicate TakesOver(before: Metadata, after: Metadata, r: TaskResult)
    requires r.ProbeResult?
  {
    && (r.duration > 0.0 ==> after.duration == Some(r.duration))
    && (r.duration <= 0.0 ==> after.duration == before.duration)
    && (r.width > 0 ==> after.width == Some(r.width)) && (r.width <= 0 ==> after.width == before.width)
    && (r.height > 0 ==> after.height == Some(r.height)) && (r.height <= 0 ==> after.height == before.height)
    && (r.codec != "" ==> after.codec == r.codec) && (r.codec == "" ==> after.codec == before.codec)
    && (r.fps > 0.0 ==> after.fps == Some(r.fps)) && (r.fps <= 0.0 ==> after.fps == before.fps)
    && (r.fileSize > 0 ==> after.fileSize == Some(r.fileSize)) && (r.fileSize <= 0 ==> after.fileSize == before.fileSize)
    && after.hasAudio == r.hasAudio
  }

  /** A probe's report fills in the metadata and moves a draft to uploaded. */
  lemma ProbeReport(s: State, i: nat, r: TaskResult, video: string)
    requires Reports(s, i, video) && s.tasks[s.messages[i].task].params.ProbeParams? && r.ProbeResult?
    ensures var s' := Apply(s, ReportComplete(i, r));
            && OnlyThatVideo(s, s', i, r, video)
            && TakesOver(s.videos[video].meta, s'.videos[video].meta, r)
            && s'.videos[video].status
               == (if s.videos[video].status.Draft? then VideoStatus.Uploaded else s.videos[video].status)
            && s'.videos[video] == s.videos[video].(meta := s'.videos[video].meta, status := s'.videos[video].status)
  {}

  // ---- Thumbnails ----

  /** The row for the k-th key of a result, at its share of the duration when that is known. */
  predicate IsThumbnail(row: Thumbnail, params: Params, duration: Option<real>, r: TaskResult, k: nat)
    requires r.ThumbnailResult? && k < |r.keys|
  {
    && row.key == r.keys[k] && row.sortOrder == k && (row.isDefault <==> k == 0)
    && (params.ThumbnailParams? ==> row.width == params.width && row.height == params.height)
    && row.timestamp == if duration.Some? && duration.value > 0.0 && r.count > 0
                        then duration.value * (k + 1) as real / (r.count + 1) as real else 0.0
  }

  lemma {:induction false} RowsAreThumbnails(params: Params, duration: Option<real>, r: TaskResult, n: nat)
    requires r.ThumbnailResult? && n <= |r.keys|
    ensures var rows := ThumbnailRows(params, duration, r, n);
            |rows| == n && forall k :: 0 <= k < n ==> IsThumbnail(rows[k], params, duration, r, k)
  {
    if n > 0 {
      RowsAreThumbnails(params, duration, r, n - 1);
    }
  }

  /** The thumbnails of a video after a report: the old ones, and then one for each reported key, in order. */
  predicate Appends(before: Video, after: Video, params: Params, r: TaskResult)
    requires r.ThumbnailResult?
  {
    var n := |before.thumbs|;
    && |after.thumbs| == n + |r.keys| && after.thumbs[..n] == before.thumbs
    && var added := after.thumbs[n..];
       forall k :: 0 <= k < |added| ==> IsThumbnail(added[k], params, before.meta.duration, r, k)
  }

  lemma ThumbnailReport(s: State, i: nat, r: TaskResult, video: string)
    requires Reports(s, i, video) && s.tasks[s.messages[i].task].params.ThumbnailParams? && r.ThumbnailResult?
    ensures var s' := Apply(s, ReportComplete(i, r));
            && OnlyThatVideo(s, s', i, r, video)
            && Appends(s.videos[video], s'.videos[video], s.tasks[s.messages[i].task].params, r)
            && s'.videos[video] == s.videos[video].(thumbs := s'.videos[video].thumbs)
  {
    RowsAreThumbnails(s.tasks[s.messages[i].task].params, s.videos[video].meta.duration, r, |r.keys|);
  }

  /** A result of any other form completes the task and changes no video. */
  lemma UnreadableReport(s: State, i: nat, r: TaskResult)
    requires i < |s.messages| && CanComplete(s.messages[i], r) && s.messages[i].task in s.tasks
    requires var params := s.tasks[s.messages[i].task].params;
             && (params.TranscodeParams? ==> !r.TranscodeResult?) && (params.ProbeParams? ==> !r.ProbeResult?)
             && (params.ThumbnailParams? ==> !r.ThumbnailResult?)
    ensures var s' := Apply(s, ReportComplete(i, r));
            s'.videos == s.videos && OnlyThatVideo(s, s', i, r, s.tasks[s.messages[i].task].video)
  {}

  // ---- A probe and then the thumbnails ----

  /** A video without thumbnails is probed and then has thumbnails extracted and uploaded: once both are reported,
      every thumbnail row points at an object with the frame of its timestamp, exactly up to 999 of them. */
  lemma ProbedThenExtracted(s: State, i: nat, probe: TaskResult, j: nat, video: string, files: Directory,
                            duration: real, count: nat, entries: seq<string>, before: Directory)
    requires Reports(s, i, video) && s.tasks[s.messages[i].task].params.ProbeParams? && s.videos[video].thumbs == []
    requires Reports(s, j, video) && s.tasks[s.messages[j].task].params.ThumbnailParams? && i != j
    requires probe.ProbeResult? && probe.duration == duration > 0.0 && count > 0
    requires files == Extraction(map["input" := Input], duration, count, ThumbNames(count))
    requires Sorted(entries) && Names(entries) == files.Keys
    ensures var objects := Stored(before, files, Prefix(video), Kept(entries, {}));
            var s1 := Apply(s, ReportComplete(i, probe));
            && Enabled(s1, ReportComplete(j, Report(video, Kept(entries, {}))))
            && (Agrees(objects, Apply(s1, ReportComplete(j, Report(video, Kept(entries, {})))).videos[video].thumbs)
                <==> count <= 999)
  {
    var s1, r := Apply(s, ReportComplete(i, probe)), Report(video, Kept(entries, {}));
    ProbeReport(s, i, probe, video);
    var params := s1.tasks[s1.messages[j].task].params;
    var s2 := Apply(s1, ReportComplete(j, r));
    assert s2.videos[video].thumbs == ThumbnailRows(params, Some(duration), r, |r.keys|);
    ThumbnailsAgreeIff(files, duration, count, entries, before, video, params, Some(duration));
  }
}
