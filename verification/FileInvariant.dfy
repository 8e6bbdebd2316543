/** Published playlists do not dangle: every entry of a ready video's master names an object that exists. */
module FileInvariant {
  import opened Basics
  import opened Keys
  import opened Playlist
  import opened DrmKeys
  import opened PipelineState
  import opened PipelineSteps
  import opened VariantRows
  import opened VideoInvariant
  import opened MasterParser
  import opened TaskInvariant

  // ---- The discipline under which the property holds ----

  /** Every transcode message of the video has been reported. */
  predicate Idle(s: State, video: string) {
    forall m :: m in s.messages && m.video == video && m.params.TranscodeParams? ==> !m.Unreported()
  }

  /** A resolution name that is one path element, survives in a quoted attribute and means itself in a URI. */
  predicate PlainName(res: string) {
    && IsQuotable(res) && NoSlash(res)
    && '?' !in res && '#' !in res && '%' !in res && res != "." && res != ".."
  }

  predicate OneCodec(rows: seq<Variant>, specs: seq<Spec>, codec: string) {
    forall spec, row :: spec in specs && row in rows && row.res == spec.res ==> row.codec == codec
  }

  /** One codec for each resolution, plain names, and nothing is deleted or replaced under a transcode. */
  predicate Disciplined(s: State, step: Step) {
    match step
    case Start(video, specs, codec, _, _, _, _) =>
      && (forall spec :: spec in specs ==> PlainName(spec.res))
      && (video in s.videos ==> OneCodec(s.videos[video].variants, specs, CodecOr(codec)))
    case RemoveVariants(video) => Idle(s, video)
    case RemoveVariant(video, _) => Idle(s, video)
    case SwitchDRM(video, _, _, _) => Idle(s, video)
    case FinishUpload(video, _, _, _) => Idle(s, video)
    case RemoveVideo(video) => Idle(s, video)
    case _ => true
  }

  ghost predicate DisciplinedRun(s: State, steps: seq<Step>)
    decreases steps
  {
    steps == [] || (Enabled(s, steps[0]) && Disciplined(s, steps[0]) && DisciplinedRun(Apply(s, steps[0]), steps[1..]))
  }

  lemma {:induction false} DisciplinedIsLegal(s: State, steps: seq<Step>)
    requires DisciplinedRun(s, steps)
    ensures Legal(s, steps)
    decreases steps
  {
    if steps != [] {
      DisciplinedIsLegal(Apply(s, steps[0]), steps[1..]);
    }
  }

  // ---- The invariant ----

  predicate DistinctResolutions(rows: seq<Variant>) {
    forall i, j :: 0 <= i < j < |rows| ==> rows[i].res != rows[j].res
  }

  predicate RowsBacked(video: string, rows: seq<Variant>, objects: map<Key, string>) {
    && DistinctResolutions(rows)
    && (forall v :: v in rows ==> PlainName(v.res))
    && (forall v :: v in rows && v.status.Ready? ==> VariantFile(video, v.res, PLAYLIST) in objects)
  }

  /** A worker that has uploaded its playlist and not reported yet finds it still there. */
  predicate UploadBacked(m: Message, objects: map<Key, string>) {
    m.phase == Delivered(true) && m.params.TranscodeParams? ==> VariantFile(m.video, m.params.res, PLAYLIST) in objects
  }

  predicate FilesOk(s: State) {
    && (forall v :: v in s.videos ==> RowsBacked(v, s.videos[v].variants, s.objects))
    && (forall m :: m in s.messages ==> UploadBacked(m, s.objects))
  }

  ghost predicate SamePlaylists(before: map<Key, string>, after: map<Key, string>, video: string) {
    forall r :: VariantFile(video, r, PLAYLIST) in before ==> VariantFile(video, r, PLAYLIST) in after
  }

  // ---- Rows ----

  lemma MarkReadyBacked(video: string, rows: seq<Variant>, objects: map<Key, string>, res: string)
    requires RowsBacked(video, rows, objects) && VariantFile(video, res, PLAYLIST) in objects
    ensures RowsBacked(video, MarkReady(rows, res), objects)
  {
    MarkReadyRows(rows, res);
    var marked := MarkReady(rows, res);
    forall v | v in marked
      ensures PlainName(v.res) && (v.status.Ready? ==> VariantFile(video, v.res, PLAYLIST) in objects)
    {
      var i :| 0 <= i < |marked| && marked[i] == v;
      assert rows[i] in rows;
    }
  }

  lemma CreateOrUpdateBacked(video: string, rows: seq<Variant>, objects: map<Key, string>,
                             specs: seq<Spec>, codec: string, spec: Spec, drm: bool)
    requires RowsBacked(video, rows, objects) && OneCodec(rows, specs, codec)
    requires spec in specs && PlainName(spec.res)
    ensures var updated := CreateOrUpdate(rows, NewVariant(spec, codec, drm));
            RowsBacked(video, updated, objects) && OneCodec(updated, specs, codec)
  {
    var v := NewVariant(spec, codec, drm);
    CreateOrUpdateRows(rows, v);
    var updated := CreateOrUpdate(rows, v);
    forall i | 0 <= i < |updated|
      ensures PlainName(updated[i].res)
      ensures updated[i].status.Ready? ==> VariantFile(video, updated[i].res, PLAYLIST) in objects
      ensures forall x :: x in specs && x.res == updated[i].res ==> updated[i].codec == codec
    {
      if i < |rows| {
        assert rows[i] in rows;
      }
    }
    forall i, j | 0 <= i < j < |updated| ensures updated[i].res != updated[j].res {
      assert rows[i] in rows;
    }
  }

  lemma {:induction false} RemoveFirstBacked(video: string, rows: seq<Variant>, objects: map<Key, string>, res: string)
    requires RowsBacked(video, rows, objects)
    ensures RowsBacked(video, RemoveFirst(rows, res), objects)
    ensures forall v :: v in RemoveFirst(rows, res) ==> v.res != res
  {
    if rows != [] {
      RemoveFirstRows(rows[1..], res);
      assert forall i :: 0 <= i < |rows[1..]| ==> rows[1..][i] == rows[i + 1];
      if rows[0].res != res {
        RemoveFirstBacked(video, rows[1..], objects, res);
        assert rows[0] in rows;
        forall v | v in RemoveFirst(rows[1..], res) ensures v.res != rows[0].res {
          assert v in rows[1..];
        }
      }
    }
  }

  lemma BackedByMore(video: string, rows: seq<Variant>, before: map<Key, string>, after: map<Key, string>)
    requires RowsBacked(video, rows, before) && SamePlaylists(before, after, video)
    ensures RowsBacked(video, rows, after)
  {}

  // ---- Frames ----

  lemma OneVideoMoved(s: State, s': State, video: string)
    requires FilesOk(s)
    requires video in s'.videos ==> RowsBacked(video, s'.videos[video].variants, s'.objects)
    requires forall v :: v in s'.videos && v != video ==>
               v in s.videos && s'.videos[v].variants == s.videos[v].variants && SamePlaylists(s.objects, s'.objects, v)
    requires forall m :: m in s'.messages ==> UploadBacked(m, s'.objects)
    ensures FilesOk(s')
  {}

  /** Objects of an idle video may go: no pending report relies on them. */
  lemma IdleVideoReliesOnNothing(s: State, video: string, objects: map<Key, string>)
    requires FilesOk(s) && Idle(s, video)
    requires forall v :: v != video ==> SamePlaylists(s.objects, objects, v)
    ensures forall m :: m in s.messages ==> UploadBacked(m, objects)
  {
    forall m | m in s.messages ensures UploadBacked(m, objects) {
      assert UploadBacked(m, s.objects);
      if m.video != video {
        assert SamePlaylists(s.objects, objects, m.video);
      }
    }
  }

  // ---- The handlers ----

  lemma KeptByRemoveVariants(s: State, video: string)
    requires FilesOk(s) && VideosOk(s) && Idle(s, video)
    ensures FilesOk(DeleteVariants(s, video))
  {
    if video in s.videos {
      var s' := DeleteVariants(s, video);
      assert VideoOk(video, s.videos[video], s.objects);
      IdleVideoReliesOnNothing(s, video, s'.objects);
      OneVideoMoved(s, s', video);
    }
  }

  lemma KeptByRemoveVariant(s: State, video: string, res: string)
    requires FilesOk(s) && VideosOk(s) && Idle(s, video)
    ensures FilesOk(DeleteVariant(s, video, res))
  {
    if video in s.videos && HasResolution(s.videos[video].variants, res) {
      var s' := DeleteVariant(s, video, res);
      var rows := s.videos[video].variants;
      assert VideoOk(video, s.videos[video], s.objects);
      RemoveFirstBacked(video, rows, s.objects, res);
      IdleVideoReliesOnNothing(s, video, s'.objects);
      assert RowsBacked(video, RemoveFirst(rows, res), s'.objects);
      OneVideoMoved(s, s', video);
    }
  }

  lemma KeptByToggle(s: State, video: string, on: bool, base: string, rnd: Material)
    requires FilesOk(s) && VideosOk(s) && Idle(s, video)
    ensures FilesOk(ToggleDRM(s, video, on, base, rnd))
  {
    if video in s.videos && s.videos[video].hasDRM != on {
      var s' := ToggleDRM(s, video, on, base, rnd);
      assert VideoOk(video, s.videos[video], s.objects);
      var objects := DropMaster(DropVariants(s.objects, video), s.videos[video]);
      EnsureKeyFrame(s.(objects := objects), video, base, rnd);
      assert s'.objects == objects;
      IdleVideoReliesOnNothing(s, video, s'.objects);
      OneVideoMoved(s, s', video);
    }
  }

  lemma KeptByFinishUpload(s: State, step: Step)
    requires step.FinishUpload? && FilesOk(s) && VideosOk(s) && Enabled(s, step) && Idle(s, step.video)
    ensures FilesOk(Apply(s, step))
  {
    var s', video := Apply(s, step), step.video;
    if video in s.videos {
      assert VideoOk(video, s.videos[video], s.objects);
    }
    IdleVideoReliesOnNothing(s, video, s'.objects);
    if video in s.videos && !HasOutput(s.videos[video].status) {
      BackedByMore(video, s.videos[video].variants, s.objects, s'.objects);
    }
    OneVideoMoved(s, s', video);
  }

  lemma KeptByRemoveVideo(s: State, video: string)
    requires FilesOk(s) && Idle(s, video)
    ensures FilesOk(DeleteVideo(s, video))
  {}

  lemma KeptByAddTranscode(s: State, video: string, specs: seq<Spec>, spec: Spec, codec: string,
                           drm: Option<DrmParams>, t: string)
    requires FilesOk(s) && video in s.videos && OneCodec(s.videos[video].variants, specs, codec)
    requires spec in specs && PlainName(spec.res)
    ensures var s' := AddTranscode(s, video, spec, codec, drm, t);
            FilesOk(s') && OneCodec(s'.videos[video].variants, specs, codec)
  {
    CreateOrUpdateBacked(video, s.videos[video].variants, s.objects, specs, codec, spec, drm.Some?);
    OneVideoMoved(s, AddTranscode(s, video, spec, codec, drm, t), video);
  }

  lemma {:induction false} KeptByAddTranscodes(s: State, video: string, specs: seq<Spec>, n: nat, codec: string,
                                               drm: Option<DrmParams>, ids: seq<string>)
    requires FilesOk(s) && video in s.videos && n <= |specs| == |ids|
    requires OneCodec(s.videos[video].variants, specs, codec) && forall spec :: spec in specs ==> PlainName(spec.res)
    ensures var s' := AddTranscodes(s, video, specs[..n], codec, drm, ids[..n]);
            FilesOk(s') && OneCodec(s'.videos[video].variants, specs, codec)
    decreases n
  {
    if n > 0 {
      KeptByAddTranscodes(s, video, specs, n - 1, codec, drm, ids);
      assert specs[..n][..n - 1] == specs[..n - 1] && ids[..n][..n - 1] == ids[..n - 1];
      var mid := AddTranscodes(s, video, specs[..n - 1], codec, drm, ids[..n - 1]);
      KeptByAddTranscode(mid, video, specs, specs[n - 1], codec, drm, ids[n - 1]);
    }
  }

  lemma KeptByStart(s: State, step: Step)
    requires step.Start? && FilesOk(s) && Enabled(s, step) && Disciplined(s, step)
    ensures FilesOk(Apply(s, step))
  {
    if step.video in s.videos {
      var video := step.video;
      var s1 := PrepareTranscode(s, video, step.globalDrm, step.base, step.rnd);
      PrepareFrame(s, video, step.globalDrm, step.base, step.rnd);
      OneVideoMoved(s, s1, video);
      KeptByAddTranscodes(s1, video, step.specs, |step.specs|, CodecOr(step.codec),
                          TaskKey(s1, video, s.videos[video].hasDRM || step.globalDrm), step.ids);
      assert step.specs[..|step.specs|] == step.specs && step.ids[..|step.ids|] == step.ids;
    }
  }

  lemma KeptByTranscodeDone(s: State, video: string, res: string)
    requires FilesOk(s) && VariantFile(video, res, PLAYLIST) in s.objects
    ensures FilesOk(TranscodeDone(s, video, TranscodeResult(res)))
  {
    if video in s.videos {
      MarkReadyBacked(video, s.videos[video].variants, s.objects, res);
      OneVideoMoved(s, TranscodeDone(s, video, TranscodeResult(res)), video);
    }
  }

  lemma KeptByComplete(s: State, i: nat, r: TaskResult)
    requires FilesOk(s) && TasksOk(s) && i < |s.messages| && CanComplete(s.messages[i], r)
    ensures FilesOk(CompleteTask(s, s.messages[i].task, r))
  {
    var m := s.messages[i];
    assert m in s.messages && Carries(m, s.tasks) && UploadBacked(m, s.objects);
    if m.task in s.tasks {
      var task := s.tasks[m.task];
      var s1 := s.(tasks := s.tasks[m.task := task.(status := Completed, result := r)]);
      if task.params.TranscodeParams? {
        KeptByTranscodeDone(s1, task.video, m.params.res);
      } else {
        OneVideoMoved(s, CompleteTask(s, m.task, r), task.video);
      }
    }
  }

  lemma KeptByPhase(s: State, i: nat, phase: Phase)
    requires FilesOk(s) && i < |s.messages| && phase != Delivered(true)
    ensures FilesOk(SetPhase(s, i, phase))
  {}

  lemma KeptByUpload(s: State, i: nat, file: string, body: string)
    requires FilesOk(s) && i < |s.messages| && s.messages[i].phase.Delivered?
    ensures FilesOk(UploadFile(s, i, file, body))
  {}

  lemma KeptByKeys(s: State, s': State)
    requires FilesOk(s) && s'.messages == s.messages && s'.objects == s.objects && s'.videos.Keys == s.videos.Keys
    requires forall v :: v in s.videos ==> s'.videos[v].variants == s.videos[v].variants
    ensures FilesOk(s')
  {}

  lemma KeptByRetry(s: State, t: string)
    requires FilesOk(s)
    ensures FilesOk(RetryTask(s, t))
  {}

  lemma KeptByMakeKeys(s: State, step: Step)
    requires (step.MakeKeys? || step.RemakeKeys?) && FilesOk(s) && Enabled(s, step)
    ensures FilesOk(Apply(s, step))
  {
    if step.MakeKeys? {
      EnsureKeyFrame(s, step.video, step.base, step.rnd);
    } else {
      EnsureKeyFrame(s.(keys := DropKeys(s.keys, step.video)), step.video, step.base, step.rnd);
    }
    KeptByKeys(s, Apply(s, step));
  }

  lemma KeptByReportComplete(s: State, i: nat, r: TaskResult)
    requires FilesOk(s) && TasksOk(s) && i < |s.messages| && CanComplete(s.messages[i], r)
    ensures FilesOk(SetPhase(CompleteTask(s, s.messages[i].task, r), i, Reported))
  {
    KeptByComplete(s, i, r);
    CompleteTaskFrame(s, s.messages[i].task, r);
    KeptByPhase(CompleteTask(s, s.messages[i].task, r), i, Reported);
  }

  lemma KeptByWorker(s: State, step: Step)
    requires FilesOk(s) && TasksOk(s) && Enabled(s, step)
    requires step.Deliver? || step.Upload? || step.ReportComplete? || step.ReportFail? || step.Ack?
    ensures FilesOk(Apply(s, step))
  {
    match step
    case Deliver(i) => KeptByPhase(s, i, Delivered(false));
    case Upload(i, file, body) => KeptByUpload(s, i, file, body);
    case ReportComplete(i, r) => KeptByReportComplete(s, i, r);
    case ReportFail(i) => KeptByPhase(SetTaskStatus(s, s.messages[i].task, Failed), i, Reported);
    case Ack(i) => KeptByPhase(s, i, Acked);
  }

  lemma StepKeepsFiles(s: State, step: Step)
    requires FilesOk(s) && VideosOk(s) && TasksOk(s) && Enabled(s, step) && Disciplined(s, step)
    ensures FilesOk(Apply(s, step))
  {
    match step
    case CreateVideo(_, _) =>
    case UpdateVideo(_, _) =>
    case GenerateThumbnails(_, _, _, _) =>
    case Cancel(_) =>
    case FinishUpload(_, _, _, _) => KeptByFinishUpload(s, step);
    case Start(_, _, _, _, _, _, _) => KeptByStart(s, step);
    case Retry(t) => KeptByRetry(s, t);
    case RemoveVariants(video) => KeptByRemoveVariants(s, video);
    case RemoveVariant(video, res) => KeptByRemoveVariant(s, video, res);
    case SwitchDRM(video, on, base, rnd) => KeptByToggle(s, video, on, base, rnd);
    case RemoveVideo(video) => KeptByRemoveVideo(s, video);
    case MakeKeys(_, _, _) => KeptByMakeKeys(s, step);
    case RemakeKeys(_, _, _) => KeptByMakeKeys(s, step);
    case _ => KeptByWorker(s, step);
  }

  lemma {:induction false} RunKeepsFiles(s: State, steps: seq<Step>)
    requires FilesOk(s) && VideosOk(s) && TasksOk(s) && DisciplinedRun(s, steps)
    ensures Legal(s, steps)
    ensures FilesOk(Run(s, steps)) && VideosOk(Run(s, steps))
    decreases steps
  {
    DisciplinedIsLegal(s, steps);
    if steps != [] {
      StepKeepsFiles(s, steps[0]);
      StepKeepsVideos(s, steps[0]);
      StepKeepsTasks(s, steps[0]);
      RunKeepsFiles(Apply(s, steps[0]), steps[1..]);
    }
  }

  // ---- The theorem, on the text a player reads ----

  lemma InfoIsPrintable(v: Variant)
    requires PlainName(v.res)
    ensures Printable(Info(v))
  {
    var uri := VariantUri(v.res);
    assert uri[0] == 'v';
    assert uri == "variants/" + (v.res + ("/" + PLAYLIST));
  }

  lemma EntriesAreBacked(video: string, rows: seq<Variant>, objects: map<Key, string>, listed: seq<VariantInfo>)
    requires RowsBacked(video, rows, objects)
    requires forall x :: x in listed ==> x in ReadyInfos(rows)
    ensures forall x :: x in listed ==>
              Printable(x) && exists k :: k in objects && Path(k) == VideoPrefix(video) + x.path
  {
    forall x | x in listed
      ensures Printable(x) && exists k :: k in objects && Path(k) == VideoPrefix(video) + x.path
    {
      var v := ListedIsReady(rows, x);
      InfoIsPrintable(v);
      VariantUriResolves(video, v.res);
      assert VariantFile(video, v.res, PLAYLIST) in objects;
    }
  }

  /** A player that reads the master of a ready video finds at least one entry, and the object of
      every entry's URI, resolved against the master's directory, exists. */
  lemma NoDanglingPlaylists(steps: seq<Step>, video: string)
    requires DisciplinedRun(EMPTY_STATE, steps)
    ensures Legal(EMPTY_STATE, steps)
    ensures var s := Run(EMPTY_STATE, steps);
            video in s.videos && s.videos[video].status.Ready? ==>
              && Master(video) in s.objects
              && ParseMaster(s.objects[Master(video)]).Some?
              && var entries := ParseMaster(s.objects[Master(video)]).value;
                 && entries != []
                 && forall e :: e in entries ==> exists k :: k in s.objects && Path(k) == VideoPrefix(video) + e.path
  {
    RunKeepsFiles(EMPTY_STATE, steps);
    var s := Run(EMPTY_STATE, steps);
    if video in s.videos && s.videos[video].status.Ready? {
      var row := s.videos[video];
      assert VideoOk(video, row, s.objects) && RowsBacked(video, row.variants, s.objects);
      var listed :| MasterText(listed) == s.objects[Master(video)] && listed != []
                    && forall x :: x in listed ==> x in ReadyInfos(row.variants);
      EntriesAreBacked(video, row.variants, s.objects, listed);
      MasterRoundTrip(listed);
    }
  }
}
