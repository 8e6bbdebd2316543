/** The life of a video: when it is ready, when it has a master playlist, and what that playlist lists. */
module VideoInvariant {
  import opened Basics
  import opened Keys
  import opened Playlist
  import opened DrmKeys
  import opened PipelineState
  import opened PipelineSteps
  import opened VariantRows

  /** The text is a master playlist with at least one entry, all of them among `infos`. */
  ghost predicate Lists(text: string, infos: seq<VariantInfo>) {
    exists listed :: MasterText(listed) == text && listed != [] && forall x :: x in listed ==> x in infos
  }

  ghost predicate VideoOk(video: string, row: Video, objects: map<Key, string>) {
    && row.original.Original?
    && (row.status.Ready? ==> row.masterKey.Some?)
    && (row.masterKey.Some? ==>
          && row.masterKey.value == Master(video) && HasOutput(row.status) && Master(video) in objects)
    && (row.status.Ready? ==> Lists(objects[Master(video)], ReadyInfos(row.variants)))
  }

  ghost predicate VideosOk(s: State) {
    forall v :: v in s.videos ==> VideoOk(v, s.videos[v], s.objects)
  }

  predicate SameMaster(before: map<Key, string>, after: map<Key, string>, video: string) {
    && (Master(video) in before <==> Master(video) in after)
    && (Master(video) in before ==> before[Master(video)] == after[Master(video)])
  }

  // ---- Frames ----

  /** Only `video` changed, and it is still fine. */
  lemma OneVideoChanged(s: State, s': State, video: string)
    requires VideosOk(s)
    requires video in s'.videos ==> VideoOk(video, s'.videos[video], s'.objects)
    requires forall v :: v in s'.videos && v != video ==>
               v in s.videos && s'.videos[v] == s.videos[v] && SameMaster(s.objects, s'.objects, v)
    ensures VideosOk(s')
  {}

  lemma ListsMore(text: string, infos: seq<VariantInfo>, more: seq<VariantInfo>)
    requires Lists(text, infos) && forall x :: x in infos ==> x in more
    ensures Lists(text, more)
  {}

  lemma ListsItself(infos: seq<VariantInfo>)
    requires infos != []
    ensures Lists(MasterText(infos), infos)
  {}

  // ---- The handlers that change a video ----

  lemma KeptByBuilt(video: string, row: Video, objects: map<Key, string>)
    requires VideoOk(video, row, objects)
    ensures var (row', objects') := Built(video, row, objects);
            && VideoOk(video, row', objects')
            && (ReadyInfos(row.variants) != [] ==>
                  row'.status.Ready? && Master(video) in objects'
                  && objects'[Master(video)] == MasterText(ReadyInfos(row'.variants)))
  {}

  lemma KeptByMarkReady(video: string, row: Video, objects: map<Key, string>, res: string)
    requires VideoOk(video, row, objects)
    ensures VideoOk(video, row.(variants := MarkReady(row.variants, res)), objects)
  {
    MarkReadyKeepsListed(row.variants, res);
    if row.status.Ready? {
      ListsMore(objects[Master(video)], ReadyInfos(row.variants), ReadyInfos(MarkReady(row.variants, res)));
    }
  }

  lemma KeptByTranscodeDone(s: State, video: string, r: TaskResult)
    requires VideosOk(s)
    ensures VideosOk(TranscodeDone(s, video, r))
  {
    if r.TranscodeResult? && video in s.videos {
      var row := s.videos[video].(variants := MarkReady(s.videos[video].variants, r.res));
      KeptByMarkReady(video, s.videos[video], s.objects, r.res);
      KeptByBuilt(video, row, s.objects);
      OneVideoChanged(s, TranscodeDone(s, video, r), video);
    }
  }

  lemma KeptByComplete(s: State, t: string, r: TaskResult)
    requires VideosOk(s)
    ensures VideosOk(CompleteTask(s, t, r))
  {
    if t in s.tasks {
      var task := s.tasks[t];
      var s1 := s.(tasks := s.tasks[t := task.(status := Completed, result := r)]);
      if task.params.TranscodeParams? {
        KeptByTranscodeDone(s1, task.video, r);
      } else {
        OneVideoChanged(s, CompleteTask(s, t, r), task.video);
      }
    }
  }

  lemma {:induction false} AddTranscodesFrame(s: State, video: string, specs: seq<Spec>, codec: string,
                                              drm: Option<DrmParams>, ids: seq<string>)
    requires video in s.videos && |ids| == |specs|
    ensures var s' := AddTranscodes(s, video, specs, codec, drm, ids);
            && s'.objects == s.objects && s'.keys == s.keys
            && s'.videos == s.videos[video := s.videos[video].(variants := s'.videos[video].variants)]
    decreases |specs|
  {
    if specs != [] {
      var n := |specs| - 1;
      AddTranscodesFrame(s, video, specs[..n], codec, drm, ids[..n]);
    }
  }

  lemma KeptByStart(s: State, step: Step)
    requires step.Start? && VideosOk(s) && Enabled(s, step)
    ensures VideosOk(Apply(s, step))
  {
    if step.video in s.videos {
      var video := step.video;
      var s1 := PrepareTranscode(s, video, step.globalDrm, step.base, step.rnd);
      PrepareFrame(s, video, step.globalDrm, step.base, step.rnd);
      AddTranscodesFrame(s1, video, step.specs, CodecOr(step.codec),
                         TaskKey(s1, video, s.videos[video].hasDRM || step.globalDrm), step.ids);
      OneVideoChanged(s, Apply(s, step), video);
    }
  }

  lemma KeptByFinishUpload(s: State, step: Step)
    requires step.FinishUpload? && VideosOk(s) && Enabled(s, step)
    ensures VideosOk(Apply(s, step))
  {
    if step.video in s.videos {
      assert VideoOk(step.video, s.videos[step.video], s.objects);
    }
    OneVideoChanged(s, Apply(s, step), step.video);
  }

  lemma KeptByRemoveVariants(s: State, video: string)
    requires VideosOk(s)
    ensures VideosOk(DeleteVariants(s, video))
  {}

  lemma KeptByRemoveVariant(s: State, video: string, res: string)
    requires VideosOk(s)
    ensures VideosOk(DeleteVariant(s, video, res))
  {
    if video in s.videos {
      assert VideoOk(video, s.videos[video], s.objects);
      var infos := ReadyInfos(RemoveFirst(s.videos[video].variants, res));
      if infos != [] {
        ListsItself(infos);
      }
    }
    OneVideoChanged(s, DeleteVariant(s, video, res), video);
  }

  lemma KeptByToggle(s: State, video: string, on: bool, base: string, rnd: Material)
    requires VideosOk(s)
    ensures VideosOk(ToggleDRM(s, video, on, base, rnd))
  {
    if video in s.videos {
      assert VideoOk(video, s.videos[video], s.objects);
    }
    OneVideoChanged(s, ToggleDRM(s, video, on, base, rnd), video);
  }

  lemma KeptByKeys(s: State, video: string, base: string, rnd: Material)
    requires VideosOk(s)
    ensures VideosOk(EnsureKey(s, video, base, rnd))
    ensures VideosOk(RegenerateKeys(s, video, base, rnd))
  {
    EnsureKeyFrame(s, video, base, rnd);
    OneVideoChanged(s, EnsureKey(s, video, base, rnd), video);
    var s1 := s.(keys := DropKeys(s.keys, video));
    EnsureKeyFrame(s1, video, base, rnd);
    OneVideoChanged(s, RegenerateKeys(s, video, base, rnd), video);
  }

  lemma KeptByUpload(s: State, i: nat, file: string, body: string)
    requires VideosOk(s) && i < |s.messages|
    ensures VideosOk(UploadFile(s, i, file, body))
  {}

  lemma KeptByQueueOnly(s: State, s': State)
    requires VideosOk(s) && s'.videos == s.videos && s'.objects == s.objects
    ensures VideosOk(s')
  {}

  lemma StepKeepsVideos(s: State, step: Step)
    requires VideosOk(s) && Enabled(s, step)
    ensures VideosOk(Apply(s, step))
  {
    match step
    case CreateVideo(video, _) => OneVideoChanged(s, Apply(s, step), video);
    case UpdateVideo(video, _) => OneVideoChanged(s, Apply(s, step), video);
    case FinishUpload(_, _, _, _) => KeptByFinishUpload(s, step);
    case Start(_, _, _, _, _, _, _) => KeptByStart(s, step);
    case RemoveVariants(video) => KeptByRemoveVariants(s, video);
    case RemoveVariant(video, res) => KeptByRemoveVariant(s, video, res);
    case SwitchDRM(video, on, base, rnd) => KeptByToggle(s, video, on, base, rnd);
    case RemoveVideo(video) => OneVideoChanged(s, DeleteVideo(s, video), video);
    case MakeKeys(video, base, rnd) => KeptByKeys(s, video, base, rnd);
    case RemakeKeys(video, base, rnd) => KeptByKeys(s, video, base, rnd);
    case Upload(i, file, body) => KeptByUpload(s, i, file, body);
    case ReportComplete(i, r) =>
      KeptByComplete(s, s.messages[i].task, r);
      KeptByQueueOnly(CompleteTask(s, s.messages[i].task, r), Apply(s, step));
    case _ => KeptByQueueOnly(s, Apply(s, step));
  }

  // ---- Every run ----

  lemma {:induction false} RunKeepsVideos(s: State, steps: seq<Step>)
    requires VideosOk(s) && Legal(s, steps)
    ensures VideosOk(Run(s, steps))
    decreases steps
  {
    if steps != [] {
      StepKeepsVideos(s, steps[0]);
      RunKeepsVideos(Apply(s, steps[0]), steps[1..]);
    }
  }

  /** In every reachable state a ready video has its master playlist in the bucket, listing ready variants
      only; and a recorded master key means the object exists and the video is ready, processing or in error. */
  lemma ReadyVideosHaveTheirMaster(steps: seq<Step>, video: string)
    requires Legal(EMPTY_STATE, steps) && video in Run(EMPTY_STATE, steps).videos
    ensures var s := Run(EMPTY_STATE, steps);
            var row := s.videos[video];
            && (row.masterKey.Some? ==>
                  && row.masterKey.value == Master(video) && Master(video) in s.objects
                  && (row.status.Ready? || row.status.Processing? || row.status.Error?))
            && (row.status.Ready? ==>
                  row.masterKey.Some? && Lists(s.objects[Master(video)], ReadyInfos(row.variants)))
  {
    RunKeepsVideos(EMPTY_STATE, steps);
    assert VideoOk(video, Run(EMPTY_STATE, steps).videos[video], Run(EMPTY_STATE, steps).objects);
  }

  lemma {:induction false} SplitRun(s: State, steps: seq<Step>, step: Step)
    requires Legal(s, steps + [step])
    ensures Legal(s, steps) && Enabled(Run(s, steps), step) && Run(s, steps + [step]) == Apply(Run(s, steps), step)
    decreases steps
  {
    if steps == [] {
      assert [] + [step] == [step] && [step][1..] == [];
    } else {
      assert (steps + [step])[0] == steps[0] && (steps + [step])[1..] == steps[1..] + [step];
      SplitRun(Apply(s, steps[0]), steps[1..], step);
    }
  }

  predicate ListsAllReady(s: State, video: string) {
    && video in s.videos && s.videos[video].masterKey == Some(Master(video)) && Master(video) in s.objects
    && s.objects[Master(video)] == MasterText(ReadyInfos(s.videos[video].variants))
  }

  /** Right after a rebuild, by a finished task or by the removal of a variant, the master of a ready
      video lists exactly its ready variants, in row order. */
  lemma RebuildListsAllReady(s: State, video: string, res: string)
    requires VideosOk(s) && video in s.videos
    ensures !HasPending(s.tasks, video) && ReadyInfos(s.videos[video].variants) != [] ==>
              ListsAllReady(CheckAndBuild(s, video), video) && CheckAndBuild(s, video).videos[video].status.Ready?
    ensures HasResolution(s.videos[video].variants, res) && DeleteVariant(s, video, res).videos[video].status.Ready? ==>
              ListsAllReady(DeleteVariant(s, video, res), video)
  {}

  /** After any run, the removal of a variant either leaves the video not ready, or leaves a master that lists
      exactly the remaining ready variants; every row but the first of that resolution is still there. */
  lemma RemovalListsAllReady(steps: seq<Step>, video: string, res: string)
    requires Legal(EMPTY_STATE, steps + [RemoveVariant(video, res)])
    ensures Legal(EMPTY_STATE, steps)
    ensures var s, s' := Run(EMPTY_STATE, steps), Run(EMPTY_STATE, steps + [RemoveVariant(video, res)]);
            video in s.videos && HasResolution(s.videos[video].variants, res) ==>
              && video in s'.videos && s'.videos[video].variants == RemoveFirst(s.videos[video].variants, res)
              && (s'.videos[video].status.Ready? ==> ListsAllReady(s', video))
              && (s'.videos[video].status.Ready?
                  <==> s.videos[video].status.Ready? && ReadyInfos(s'.videos[video].variants) != [])
  {
    SplitRun(EMPTY_STATE, steps, RemoveVariant(video, res));
    RunKeepsVideos(EMPTY_STATE, steps);
    if video in Run(EMPTY_STATE, steps).videos {
      RebuildListsAllReady(Run(EMPTY_STATE, steps), video, res);
    }
  }
}
