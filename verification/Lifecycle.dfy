/** What the last completion publishes and what a withdrawal leaves behind. */
module Lifecycle {
  import opened Basics
  import opened Keys
  import opened Playlist
  import opened DrmKeys
  import opened PipelineState
  import opened PipelineSteps
  import opened VariantRows
  import opened TaskInvariant
  import opened VideoInvariant
  import opened DanglingPlaylists

  /** No task of the video other than `t` is outstanding. */
  predicate OnlyOutstanding(s: State, video: string, t: string) {
    forall u :: u in s.tasks && u != t && s.tasks[u].video == video ==> !IsPending(s.tasks[u])
  }

  /** The last completion of a video's tasks, if its row is still awaiting the report, makes the video ready and
      its master list exactly the ready variants, the reported resolution among them. */
  lemma LastReportPublishes(s: State, i: nat)
    requires TasksOk(s) && VideosOk(s) && i < |s.messages| && s.messages[i].params.TranscodeParams?
    requires s.messages[i].phase == Delivered(true) && s.messages[i].task in s.tasks
    requires OnlyOutstanding(s, s.messages[i].video, s.messages[i].task)
    requires s.messages[i].video in s.videos
    requires AwaitsReport(s.videos[s.messages[i].video].variants, s.messages[i].params.res)
    ensures var m := s.messages[i];
            var s' := Apply(s, ReportComplete(i, TranscodeResult(m.params.res)));
            && s'.videos[m.video].status.Ready? && ListsAllReady(s', m.video)
            && HasReady(s'.videos[m.video].variants, m.params.res)
            && VideoOk(m.video, s'.videos[m.video], s'.objects)
  {
    var m := s.messages[i];
    var r := TranscodeResult(m.params.res);
    assert m in s.messages && Carries(m, s.tasks);
    var rows := s.videos[m.video].variants;
    MarkReadyHits(rows, m.params.res);
    var v :| v in MarkReady(rows, m.params.res) && v.res == m.params.res && v.status.Ready?;
    ReadyIsListed(MarkReady(rows, m.params.res), v);
    var s1 := s.(tasks := s.tasks[m.task := s.tasks[m.task].(status := Completed, result := r)]);
    var marked := SetVideo(s1, m.video, s.videos[m.video].(variants := MarkReady(rows, m.params.res)));
    assert !HasPending(marked.tasks, m.video);
    assert CompleteTask(s, m.task, r) == CheckAndBuild(marked, m.video);
    StepKeepsVideos(s, ReportComplete(i, r));
  }

  predicate HadOutput(row: Video) {
    row.status.Ready? || row.status.Processing? || row.status.Error?
  }

  /** A withdrawal: every variant is removed, DRM is switched, or a finished video is uploaded again. */
  predicate Withdraws(s: State, step: Step) {
    match step
    case RemoveVariants(video) => video in s.videos
    case SwitchDRM(video, on, _, _) => video in s.videos && s.videos[video].hasDRM != on
    case FinishUpload(video, _, _, _) => video in s.videos && HadOutput(s.videos[video])
    case _ => false
  }

  predicate OnlyChanges(s: State, s': State, video: string) {
    s'.videos.Keys == s.videos.Keys && forall v :: v in s.videos && v != video ==> s'.videos[v] == s.videos[v]
  }

  /** What goes with a withdrawn video: its variant files, its master if the row knew about it, and with a new upload
      its thumbnails. */
  predicate GoesWith(k: Key, row: Video, video: string, thumbs: bool) {
    k.video == video && (k.VariantFile? || (k.Master? && row.masterKey.Some?) || (k.ThumbnailFile? && thumbs))
  }

  predicate SameObject(before: map<Key, string>, after: map<Key, string>, k: Key) {
    (k in after <==> k in before) && (k in after ==> after[k] == before[k])
  }

  /** The object goes if it goes with the video, and otherwise stays as it was. */
  predicate WithdrawnObject(before: map<Key, string>, after: map<Key, string>, k: Key, row: Video, video: string,
                            thumbs: bool)
  {
    if GoesWith(k, row, video, thumbs) then k !in after else SameObject(before, after, k)
  }

  /** A new video is a draft without output whose original is expected under its own prefix. */
  lemma CreationLeaves(s: State, step: Step)
    requires step.CreateVideo? && Enabled(s, step)
    ensures var s' := Apply(s, step);
            && step.video in s'.videos && s'.videos == s.videos[step.video := s'.videos[step.video]]
            && s' == s.(videos := s'.videos)
            && var row := s'.videos[step.video];
               && row.status.Draft? && row.masterKey == None && !row.hasDRM && row.variants == [] && row.thumbs == []
               && row.meta == step.meta
               && Path(row.original) == "videos/" + step.video + "/original/video.mp4"
  {
    assert VideoPrefix(step.video) + ("original/" + "video.mp4") == "videos/" + step.video + "/original/video.mp4";
  }

  lemma UploadKeeps(s: State, step: Step, k: Key)
    requires step.FinishUpload? && VideosOk(s) && Enabled(s, step) && step.video in s.videos
    requires k != step.key && k != s.videos[step.video].original
    ensures var row := s.videos[step.video];
            if HadOutput(row) then WithdrawnObject(s.objects, Apply(s, step).objects, k, row, step.video, true)
            else SameObject(s.objects, Apply(s, step).objects, k)
  {
    assert VideoOk(step.video, s.videos[step.video], s.objects);
  }

  /** Completing an upload stores the object under its key, deletes an original under another key, queues a probe and
      makes the video uploaded; a video that had output is withdrawn with its thumbnails, any other keeps the rest. */
  lemma UploadLeaves(s: State, step: Step)
    requires step.FinishUpload? && VideosOk(s) && Enabled(s, step) && step.video in s.videos
    ensures var s', v, row := Apply(s, step), step.video, s.videos[step.video];
            && OnlyChanges(s, s', v) && s'.keys == s.keys
            && s'.videos[v] == (if HadOutput(row) then row.(variants := [], masterKey := None, thumbs := []) else row)
                               .(original := step.key, status := VideoStatus.Uploaded)
            && step.key in s'.objects && s'.objects[step.key] == step.body
            && (row.original != step.key ==> row.original !in s'.objects)
            && (forall k: Key :: k != step.key && k != row.original ==>
                  if HadOutput(row) then WithdrawnObject(s.objects, s'.objects, k, row, v, true)
                  else SameObject(s.objects, s'.objects, k))
            && s'.tasks == s.tasks[step.probe := Task(v, ProbeParams, Queued, 0, NoResult)]
            && s'.messages == s.messages + [Message(step.probe, v, ProbeParams, Undelivered)]
  {
    var row := s.videos[step.video];
    forall k: Key | k != step.key && k != row.original
      ensures if HadOutput(row) then WithdrawnObject(s.objects, Apply(s, step).objects, k, row, step.video, true)
              else SameObject(s.objects, Apply(s, step).objects, k)
    {
      UploadKeeps(s, step, k);
    }
  }

  lemma RemovalLeaves(s: State, video: string)
    requires VideosOk(s) && video in s.videos
    ensures var s', row := DeleteVariants(s, video), s.videos[video];
            && OnlyChanges(s, s', video)
            && s'.videos[video] == row.(variants := [], masterKey := None,
                                        status := if HadOutput(row) then VideoStatus.Uploaded else row.status)
            && forall k: Key :: WithdrawnObject(s.objects, s'.objects, k, row, video, false)
  {
    assert VideoOk(video, s.videos[video], s.objects);
  }

  lemma SwitchLeaves(s: State, step: Step)
    requires step.SwitchDRM? && VideosOk(s) && Enabled(s, step) && Withdraws(s, step)
    ensures var s', v, row := Apply(s, step), step.video, s.videos[step.video];
            && OnlyChanges(s, s', v)
            && s'.videos[v] == row.(variants := [], masterKey := None, hasDRM := step.on,
                                    status := if HadOutput(row) then VideoStatus.Uploaded else row.status)
            && forall k: Key :: WithdrawnObject(s.objects, s'.objects, k, row, v, false)
  {
    RemovalLeaves(s, step.video);
    EnsureKeyFrame(s.(objects := DropMaster(DropVariants(s.objects, step.video), s.videos[step.video])),
                   step.video, step.base, step.rnd);
  }

  /** A withdrawn video has no variant row, no variant object and no master key, and is uploaded if it had output;
      DRM is as asked after a switch and everything else about it stays, but for the original and the thumbnails of a
      new upload. Its master object is gone exactly when the row knew about it: a master that was rebuilt while no key
      was recorded stays in the bucket. No other video and no other object changes. */
  lemma WithdrawalLeaves(s: State, step: Step)
    requires VideosOk(s) && Enabled(s, step) && Withdraws(s, step)
    ensures var s', v, row := Apply(s, step), step.video, s.videos[step.video];
            && OnlyChanges(s, s', v)
            && s'.videos[v].variants == [] && s'.videos[v].masterKey == None && !HadOutput(s'.videos[v])
            && s'.videos[v].status == (if HadOutput(row) then VideoStatus.Uploaded else row.status)
            && s'.videos[v].hasDRM == (if step.SwitchDRM? then step.on else row.hasDRM)
            && s'.videos[v].meta == row.meta
            && (s'.videos[v].thumbs, s'.videos[v].original)
               == (if step.FinishUpload? then ([], step.key) else (row.thumbs, row.original))
            && forall k: Key :: !k.Original? ==>
                 WithdrawnObject(s.objects, s'.objects, k, row, v, step.FinishUpload?)
  {
    assert VideoOk(step.video, s.videos[step.video], s.objects);
    if step.SwitchDRM? {
      SwitchLeaves(s, step);
    } else if step.FinishUpload? {
      UploadLeaves(s, step);
    } else {
      RemovalLeaves(s, step.video);
    }
  }

  lemma SecondIsRemoved(a: Variant, b: Variant)
    requires a.status.Ready? && a.res != b.res
    ensures RemoveFirst([a, b], b.res) == [a] && HasResolution([a, b], b.res) && ReadyInfos([a]) != []
  {}

  /** How that comes about: while another resolution is still processing and no master was ever built, removing
      it rebuilds the master for the finished one without recording it, and removing all variants then leaves
      the object behind. */
  lemma UnrecordedMasterStays(s: State, video: string, a: Variant, b: Variant)
    requires video in s.videos && s.videos[video].variants == [a, b] && s.videos[video].masterKey == None
    requires a.status.Ready? && b.status.Processing? && a.res != b.res
    ensures var s1 := DeleteVariant(s, video, b.res);
            var s2 := DeleteVariants(s1, video);
            && s1.videos[video].variants == [a] && s1.videos[video].masterKey == None
            && s2.videos[video].variants == [] && Master(video) in s2.objects
  {
    SecondIsRemoved(a, b);
  }
}
