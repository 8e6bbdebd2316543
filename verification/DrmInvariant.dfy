/** Keys, the DRM flag and what tasks carry stay consistent over every run. */
module DrmInvariant {
  import opened Basics
  import opened Keys
  import opened DrmKeys
  import opened PipelineState
  import opened PipelineSteps
  import opened VariantRows
  import V = VideoInvariant

  predicate RowDrmOk(row: Video, keys: seq<DrmKey>, video: string) {
    && (row.hasDRM <==> HasKey(keys, video))
    && (forall v :: v in row.variants ==> v.drm ==> row.hasDRM)
  }

  predicate KeysOk(s: State) {
    && DistinctKeys(s.keys)
    && (forall k :: k in s.keys ==> k.video in s.videos && |k.contentKey| == 32 && IsHex(k.contentKey))
  }

  predicate MaterialAgrees(video: string, p: DrmParams, keys: seq<DrmKey>) {
    forall k :: k in keys && k.keyId == p.keyId ==>
      k.video == video && k.contentKey == p.contentKey && k.iv == p.iv && |k.iv| == IV_DIGITS
  }

  /** A task's key material is that of the row with its key id, if that row still exists. */
  predicate TaskAgrees(task: Task, keys: seq<DrmKey>) {
    task.params.TranscodeParams? && task.params.drm.Some? ==> MaterialAgrees(task.video, task.params.drm.value, keys)
  }

  predicate DrmOk(s: State) {
    && KeysOk(s)
    && (forall v :: v in s.videos ==> RowDrmOk(s.videos[v], s.keys, v))
    && (forall t :: t in s.tasks ==> TaskAgrees(s.tasks[t], s.keys))
  }

  // ---- Key rows ----

  lemma RepairedKeysOk(s: State, i: nat, base: string, rnd: Material)
    requires DrmOk(s) && i < |s.keys| && FreshKey(s, rnd)
    ensures var s' := s.(keys := s.keys[i := Repair(s.keys[i], base, rnd)]);
            DrmOk(s') && |s'.keys[i].iv| == IV_DIGITS
  {
    var row := s.keys[i];
    var keys := s.keys[i := Repair(row, base, rnd)];
    assert row in s.keys;
    assert forall k :: k in keys ==> k in s.keys || k == Repair(row, base, rnd);
    forall v ensures HasKey(keys, v) <==> HasKey(s.keys, v) {
      if HasKey(s.keys, v) {
        var j :| 0 <= j < |s.keys| && s.keys[j].video == v;
        assert keys[j] in keys && keys[j].video == v;
      }
    }
    forall t | t in s.tasks ensures TaskAgrees(s.tasks[t], keys) {
      assert TaskAgrees(s.tasks[t], s.keys);
    }
  }

  lemma NewKeyOk(s: State, video: string, base: string, rnd: Material)
    requires DrmOk(s) && FreshKey(s, rnd) && video in s.videos && !HasKey(s.keys, video)
    ensures DrmOk(MarkDRM(s.(keys := s.keys + [NewKey(video, base, rnd)]), video))
  {
    var k := NewKey(video, base, rnd);
    var keys := s.keys + [k];
    forall v ensures HasKey(keys, v) <==> HasKey(s.keys, v) || v == video {
      if v == video {
        assert k in keys;
      }
      if HasKey(s.keys, v) {
        var x :| x in s.keys && x.video == v;
        assert x in keys;
      }
    }
    forall i | 0 <= i < |s.keys| ensures s.keys[i].video != video && s.keys[i].keyId != k.keyId {
      assert s.keys[i] in s.keys;
    }
    forall t | t in s.tasks ensures TaskAgrees(s.tasks[t], keys) {
      assert TaskAgrees(s.tasks[t], s.keys) && !UsesKey(s.tasks[t].params, rnd.keyId);
    }
  }

  lemma OnlyIndex(keys: seq<DrmKey>, i: nat, video: string)
    requires DistinctKeys(keys) && i < |keys| && keys[i].video == video
    ensures KeyIndex(keys, video) == i
  {}

  lemma EnsuredKeyOk(s: State, video: string, base: string, rnd: Material)
    requires DrmOk(s) && FreshKey(s, rnd) && video in s.videos
    ensures var s' := EnsureKey(s, video, base, rnd);
            && DrmOk(s') && s'.videos[video].hasDRM
            && KeyIndex(s'.keys, video) < |s'.keys|
            && |s'.keys[KeyIndex(s'.keys, video)].iv| == IV_DIGITS
  {
    var i := KeyIndex(s.keys, video);
    var s' := EnsureKey(s, video, base, rnd);
    IndexFindsKey(s.keys, video);
    if i < |s.keys| {
      RepairedKeysOk(s, i, base, rnd);
      OnlyIndex(s'.keys, i, video);
    } else {
      NewKeyOk(s, video, base, rnd);
      OnlyIndex(s'.keys, |s.keys|, video);
    }
    IndexFindsKey(s'.keys, video);
  }

  lemma DroppedKeysOk(s: State, video: string)
    requires DrmOk(s)
    ensures var keys := DropKeys(s.keys, video);
            && !HasKey(keys, video) && KeysOk(s.(keys := keys))
            && (forall v :: v in s.videos && v != video ==> RowDrmOk(s.videos[v], keys, v))
            && (forall t :: t in s.tasks ==> TaskAgrees(s.tasks[t], keys))
  {
    var keys := DropKeys(s.keys, video);
    DropKeysRows(s.keys, video);
    DropKeysDistinct(s.keys, video);
    forall v | v != video ensures HasKey(keys, v) <==> HasKey(s.keys, v) {
      if HasKey(s.keys, v) {
        var k :| k in s.keys && k.video == v;
        assert k in keys;
      }
    }
    forall t | t in s.tasks ensures TaskAgrees(s.tasks[t], keys) {
      assert TaskAgrees(s.tasks[t], s.keys);
    }
  }

  // ---- Steps ----

  /** Nothing about keys changed, and variants of `video` are only marked if it has DRM. */
  lemma KeptBySameKeys(s: State, s': State)
    requires DrmOk(s) && s'.keys == s.keys
    requires forall v :: v in s.videos ==> v in s'.videos
    requires forall v :: v in s'.videos ==> RowDrmOk(s'.videos[v], s.keys, v)
    requires forall t :: t in s'.tasks ==> TaskAgrees(s'.tasks[t], s.keys)
    ensures DrmOk(s')
  {}

  lemma MarkReadyKeepsDrm(rows: seq<Variant>, res: string, hasDRM: bool)
    requires forall v :: v in rows ==> v.drm ==> hasDRM
    ensures forall v :: v in MarkReady(rows, res) ==> v.drm ==> hasDRM
  {}

  lemma CreateOrUpdateKeepsDrm(rows: seq<Variant>, x: Variant, hasDRM: bool)
    requires (forall v :: v in rows ==> v.drm ==> hasDRM) && (x.drm ==> hasDRM)
    ensures forall v :: v in CreateOrUpdate(rows, x) ==> v.drm ==> hasDRM
  {}

  lemma KeptByTranscodeDone(s: State, video: string, r: TaskResult)
    requires DrmOk(s)
    ensures DrmOk(TranscodeDone(s, video, r))
  {
    if r.TranscodeResult? && video in s.videos {
      var s' := TranscodeDone(s, video, r);
      assert RowDrmOk(s.videos[video], s.keys, video);
      MarkReadyKeepsDrm(s.videos[video].variants, r.res, s.videos[video].hasDRM);
      assert s'.videos[video].hasDRM == s.videos[video].hasDRM
             && s'.videos[video].variants == MarkReady(s.videos[video].variants, r.res);
      KeptBySameKeys(s, s');
    }
  }

  lemma KeptByComplete(s: State, t: string, r: TaskResult)
    requires DrmOk(s)
    ensures DrmOk(CompleteTask(s, t, r))
  {
    if t in s.tasks {
      var task := s.tasks[t];
      var s1 := s.(tasks := s.tasks[t := task.(status := Completed, result := r)]);
      assert TaskAgrees(task, s.keys);
      KeptBySameKeys(s, s1);
      if task.params.TranscodeParams? {
        KeptByTranscodeDone(s1, task.video, r);
      } else {
        KeptBySameKeys(s1, CompleteTask(s, t, r));
      }
    }
  }

  lemma KeptByAddTranscode(s: State, video: string, spec: Spec, codec: string, drm: Option<DrmParams>, t: string)
    requires DrmOk(s) && video in s.videos
    requires drm.Some? ==> s.videos[video].hasDRM && MaterialAgrees(video, drm.value, s.keys)
    ensures DrmOk(AddTranscode(s, video, spec, codec, drm, t))
  {
    assert RowDrmOk(s.videos[video], s.keys, video);
    CreateOrUpdateKeepsDrm(s.videos[video].variants, NewVariant(spec, codec, drm.Some?), s.videos[video].hasDRM);
    KeptBySameKeys(s, AddTranscode(s, video, spec, codec, drm, t));
  }

  lemma {:induction false} KeptByAddTranscodes(s: State, video: string, specs: seq<Spec>, codec: string,
                                               drm: Option<DrmParams>, ids: seq<string>)
    requires DrmOk(s) && video in s.videos && |ids| == |specs|
    requires drm.Some? ==> s.videos[video].hasDRM && MaterialAgrees(video, drm.value, s.keys)
    ensures DrmOk(AddTranscodes(s, video, specs, codec, drm, ids))
    decreases |specs|
  {
    if specs != [] {
      var n := |specs| - 1;
      KeptByAddTranscodes(s, video, specs[..n], codec, drm, ids[..n]);
      V.AddTranscodesFrame(s, video, specs[..n], codec, drm, ids[..n]);
      KeptByAddTranscode(AddTranscodes(s, video, specs[..n], codec, drm, ids[..n]), video, specs[n], codec, drm, ids[n]);
    }
  }

  lemma RowMatchesParams(keys: seq<DrmKey>, i: nat)
    requires DistinctKeys(keys) && i < |keys| && |keys[i].iv| == IV_DIGITS
    ensures MaterialAgrees(keys[i].video, ParamsOf(keys[i]), keys)
  {}

  lemma KeptByRow(s: State, video: string, row: Video)
    requires DrmOk(s) && video in s.videos
    requires row.hasDRM == s.videos[video].hasDRM && row.variants == s.videos[video].variants
    ensures DrmOk(SetVideo(s, video, row))
  {}

  lemma PreparedIs(s: State, video: string, globalDrm: bool, base: string, rnd: Material)
    requires video in s.videos && (s.videos[video].hasDRM || globalDrm)
    ensures var s1 := EnsureKey(s, video, base, rnd);
            && video in s1.videos
            && PrepareTranscode(s, video, globalDrm, base, rnd)
               == SetVideo(s1, video, s1.videos[video].(hasDRM := true, status := VideoStatus.Processing))
  {
    EnsureKeyFrame(s, video, base, rnd);
    var s1 := EnsureKey(s, video, base, rnd);
    var marked := s1.videos[video].(hasDRM := true);
    LastUpdateWins(s1.videos, video, marked, marked.(status := VideoStatus.Processing));
  }

  lemma KeptByPrepareWithKey(s: State, video: string, globalDrm: bool, base: string, rnd: Material)
    requires DrmOk(s) && FreshKey(s, rnd) && video in s.videos && (s.videos[video].hasDRM || globalDrm)
    ensures var s' := PrepareTranscode(s, video, globalDrm, base, rnd);
            && DrmOk(s') && s'.videos[video].hasDRM
            && KeyIndex(s'.keys, video) < |s'.keys| && |s'.keys[KeyIndex(s'.keys, video)].iv| == IV_DIGITS
  {
    EnsuredKeyOk(s, video, base, rnd);
    PreparedIs(s, video, globalDrm, base, rnd);
    var s1 := EnsureKey(s, video, base, rnd);
    KeptByRow(s1, video, s1.videos[video].(hasDRM := true, status := VideoStatus.Processing));
  }

  lemma KeptByPrepare(s: State, video: string, globalDrm: bool, base: string, rnd: Material)
    requires DrmOk(s) && FreshKey(s, rnd) && video in s.videos
    ensures var s' := PrepareTranscode(s, video, globalDrm, base, rnd);
            var drm := TaskKey(s', video, s.videos[video].hasDRM || globalDrm);
            && DrmOk(s')
            && (drm.Some? <==> s.videos[video].hasDRM || globalDrm)
            && (drm.Some? ==> s'.videos[video].hasDRM && MaterialAgrees(video, drm.value, s'.keys))
  {
    if s.videos[video].hasDRM || globalDrm {
      KeptByPrepareWithKey(s, video, globalDrm, base, rnd);
      var s' := PrepareTranscode(s, video, globalDrm, base, rnd);
      RowMatchesParams(s'.keys, KeyIndex(s'.keys, video));
    } else {
      KeptBySameKeys(s, PrepareTranscode(s, video, globalDrm, base, rnd));
    }
  }

  lemma KeptByStart(s: State, step: Step)
    requires step.Start? && DrmOk(s) && Enabled(s, step)
    ensures DrmOk(Apply(s, step))
  {
    if step.video in s.videos {
      KeptByPrepare(s, step.video, step.globalDrm, step.base, step.rnd);
      var s1 := PrepareTranscode(s, step.video, step.globalDrm, step.base, step.rnd);
      KeptByAddTranscodes(s1, step.video, step.specs, CodecOr(step.codec),
                          TaskKey(s1, step.video, s.videos[step.video].hasDRM || step.globalDrm), step.ids);
    }
  }

  lemma KeptByToggle(s: State, video: string, on: bool, base: string, rnd: Material)
    requires DrmOk(s) && FreshKey(s, rnd)
    ensures DrmOk(ToggleDRM(s, video, on, base, rnd))
  {
    if video in s.videos && s.videos[video].hasDRM != on {
      var s' := ToggleDRM(s, video, on, base, rnd);
      var s1 := s.(objects := DropMaster(DropVariants(s.objects, video), s.videos[video]));
      if on {
        EnsuredKeyOk(s1, video, base, rnd);
        var s2 := EnsureKey(s1, video, base, rnd);
        assert RowDrmOk(s2.videos[video], s2.keys, video);
        KeptBySameKeys(s2, s');
      } else {
        DroppedKeysOk(s, video);
      }
    }
  }

  lemma KeptByRegenerate(s: State, video: string, base: string, rnd: Material)
    requires DrmOk(s) && FreshKey(s, rnd)
    ensures DrmOk(RegenerateKeys(s, video, base, rnd))
  {
    if video in s.videos {
      DroppedKeysOk(s, video);
      var keys := DropKeys(s.keys, video);
      IndexFindsKey(keys, video);
      DropKeysRows(s.keys, video);
      var bare := s.(keys := keys, videos := s.videos[video := s.videos[video].(hasDRM := false, variants := [])]);
      NewKeyOk(bare, video, base, rnd);
      var s' := RegenerateKeys(s, video, base, rnd);
      var m := MarkDRM(bare.(keys := keys + [NewKey(video, base, rnd)]), video);
      assert s'.keys == m.keys;
      assert RowDrmOk(m.videos[video], m.keys, video);
      KeptBySameKeys(m, s');
    }
  }

  lemma KeptByRemoveVideo(s: State, video: string)
    requires DrmOk(s)
    ensures DrmOk(DeleteVideo(s, video))
  {
    if video in s.videos {
      DroppedKeysOk(s, video);
      DropKeysRows(s.keys, video);
    }
  }

  lemma KeptByRemoveVariant(s: State, video: string, res: string)
    requires DrmOk(s)
    ensures DrmOk(DeleteVariant(s, video, res))
  {
    if video in s.videos && HasResolution(s.videos[video].variants, res) {
      RemoveFirstRows(s.videos[video].variants, res);
      assert RowDrmOk(s.videos[video], s.keys, video);
      KeptBySameKeys(s, DeleteVariant(s, video, res));
    }
  }

  lemma KeptByEnqueue(s: State, t: string, video: string, params: Params)
    requires DrmOk(s) && !params.TranscodeParams?
    ensures DrmOk(Enqueue(s, t, video, params))
  {}

  lemma KeptByFinishUpload(s: State, step: Step)
    requires step.FinishUpload? && DrmOk(s) && Enabled(s, step)
    ensures DrmOk(Apply(s, step))
  {
    var s1 := UploadReset(s.(objects := s.objects[step.key := step.body]), step.video, step.key);
    KeptBySameKeys(s, s1);
    if step.video in s.videos {
      KeptByEnqueue(s1, step.probe, step.video, ProbeParams);
    }
  }

  lemma KeptByCreate(s: State, video: string, meta: Metadata)
    requires DrmOk(s) && FreshVideo(s, video)
    ensures DrmOk(SetVideo(s, video, NewVideo(video, meta)))
  {}

  lemma KeptByTaskChange(s: State, s': State)
    requires DrmOk(s) && s'.keys == s.keys && s'.videos == s.videos
    requires s'.tasks.Keys <= s.tasks.Keys
    requires forall t :: t in s'.tasks ==>
               s'.tasks[t].params == s.tasks[t].params && s'.tasks[t].video == s.tasks[t].video
    ensures DrmOk(s')
  {}

  /** A direct edit of the flag, the one step that is excluded. */
  predicate EditsFlag(step: Step) {
    step.UpdateVideo? && step.hasDRM.Some?
  }

  lemma KeptByWorkerOrTask(s: State, step: Step)
    requires DrmOk(s) && Enabled(s, step)
    requires || step.Cancel? || step.Retry? || step.Deliver? || step.Upload?
             || step.ReportComplete? || step.ReportFail? || step.Ack?
    ensures DrmOk(Apply(s, step))
  {
    if step.ReportComplete? {
      KeptByComplete(s, s.messages[step.i].task, step.result);
      KeptByTaskChange(CompleteTask(s, s.messages[step.i].task, step.result), Apply(s, step));
    } else {
      KeptByTaskChange(s, Apply(s, step));
    }
  }

  lemma StepKeepsDrm(s: State, step: Step)
    requires DrmOk(s) && Enabled(s, step) && !EditsFlag(step)
    ensures DrmOk(Apply(s, step))
  {
    match step
    case CreateVideo(video, meta) => KeptByCreate(s, video, meta);
    case UpdateVideo(_, _) =>
    case FinishUpload(_, _, _, _) => KeptByFinishUpload(s, step);
    case Start(_, _, _, _, _, _, _) => KeptByStart(s, step);
    case GenerateThumbnails(video, count, width, id) =>
      if video in s.videos {
        KeptByEnqueue(s, id, video, ThumbnailParams(count, width, HeightFor(width)));
      }
    case RemoveVariants(video) => KeptBySameKeys(s, Apply(s, step));
    case RemoveVariant(video, res) => KeptByRemoveVariant(s, video, res);
    case SwitchDRM(video, on, base, rnd) => KeptByToggle(s, video, on, base, rnd);
    case RemoveVideo(video) => KeptByRemoveVideo(s, video);
    case MakeKeys(video, base, rnd) =>
      if video in s.videos {
        EnsuredKeyOk(s, video, base, rnd);
      }
    case RemakeKeys(video, base, rnd) => KeptByRegenerate(s, video, base, rnd);
    case _ => KeptByWorkerOrTask(s, step);
  }

  /** The direct edit keeps the invariant exactly when it changes nothing. */
  lemma FlagEditKeepsIff(s: State, video: string, flag: bool)
    requires DrmOk(s) && video in s.videos
    ensures DrmOk(Apply(s, UpdateVideo(video, Some(flag)))) <==> flag == s.videos[video].hasDRM
  {
    var s' := Apply(s, UpdateVideo(video, Some(flag)));
    assert RowDrmOk(s.videos[video], s.keys, video);
    if flag == s.videos[video].hasDRM {
      assert s'.videos == s.videos;
    } else {
      assert !RowDrmOk(s'.videos[video], s'.keys, video);
    }
  }

  // ---- Every run ----

  lemma {:induction false} RunKeepsDrm(s: State, steps: seq<Step>)
    requires DrmOk(s) && Legal(s, steps) && forall step :: step in steps ==> !EditsFlag(step)
    ensures DrmOk(Run(s, steps))
    decreases steps
  {
    if steps != [] {
      StepKeepsDrm(s, steps[0]);
      RunKeepsDrm(Apply(s, steps[0]), steps[1..]);
    }
  }

  /** Over every run without a direct flag edit, from any consistent store (rows no task uses may hold odd IVs):
      a video has DRM exactly when it has a key, it has at most one, and its protected variants have one. */
  lemma FlagMeansKey(s: State, steps: seq<Step>, video: string)
    requires DrmOk(s) && Legal(s, steps) && forall step :: step in steps ==> !EditsFlag(step)
    requires video in Run(s, steps).videos
    ensures var s' := Run(s, steps);
            && (s'.videos[video].hasDRM <==> HasKey(s'.keys, video))
            && (forall i, j :: 0 <= i < j < |s'.keys| ==> !(s'.keys[i].video == s'.keys[j].video == video))
            && (forall v :: v in s'.videos[video].variants && v.drm ==> HasKey(s'.keys, video))
  {
    RunKeepsDrm(s, steps);
    assert RowDrmOk(Run(s, steps).videos[video], Run(s, steps).keys, video);
  }

  /** Whatever the key endpoint serves for a task's key id is the 16 bytes the worker encrypted with. */
  lemma ServedKeyDecrypts(s: State, steps: seq<Step>, t: string)
    requires DrmOk(s) && Legal(s, steps) && forall step :: step in steps ==> !EditsFlag(step)
    requires t in Run(s, steps).tasks
    requires Run(s, steps).tasks[t].params.TranscodeParams? && Run(s, steps).tasks[t].params.drm.Some?
    ensures var s' := Run(s, steps);
            var p := s'.tasks[t].params.drm.value;
            var served := ServedBytes(s'.keys, p.keyId);
            served.Some? ==> served == WorkerBytes(p) && |served.value| == 16 && |p.iv| == IV_DIGITS
  {
    RunKeepsDrm(s, steps);
    var s' := Run(s, steps);
    var p := s'.tasks[t].params.drm.value;
    assert TaskAgrees(s'.tasks[t], s'.keys);
    if exists k :: k in s'.keys && k.keyId == p.keyId {
      var k :| k in s'.keys && k.keyId == p.keyId;
      ServedIsTheRow(s'.keys, k);
      DecodesIff(k.contentKey);
    } else {
      NothingServed(s'.keys, p.keyId);
    }
  }

  // ---- One key, until it is deleted ----

  predicate DeletesKey(step: Step, video: string) {
    || (step.RemakeKeys? && step.video == video)
    || (step.SwitchDRM? && step.video == video && !step.on)
    || (step.RemoveVideo? && step.video == video)
  }

  /** The identity of a key: everything but the URL, which may be rewritten. */
  function Identity(k: DrmKey): (string, string, string) {
    (k.keyId, k.contentKey, k.iv)
  }

  predicate KeyIs(s: State, video: string, id: (string, string, string)) {
    exists k :: k in s.keys && k.video == video && Identity(k) == id
  }

  lemma EnsureKeyKeepsKey(s: State, other: string, base: string, rnd: Material, k: DrmKey)
    requires DistinctKeys(s.keys) && k in s.keys && |k.iv| == IV_DIGITS
    ensures KeyIs(EnsureKey(s, other, base, rnd), k.video, Identity(k))
  {
    var s', i := EnsureKey(s, other, base, rnd), KeyIndex(s.keys, other);
    var j :| 0 <= j < |s.keys| && s.keys[j] == k;
    assert s'.keys[j] in s'.keys && s'.keys[j].video == k.video && Identity(s'.keys[j]) == Identity(k);
  }

  lemma OtherStepsKeepKeys(s: State, step: Step)
    requires Enabled(s, step)
    requires !step.Start? && !step.SwitchDRM? && !step.MakeKeys? && !step.RemakeKeys? && !step.RemoveVideo?
    ensures Apply(s, step).keys == s.keys
  {
    if step.ReportComplete? {
      CompleteTaskFrame(s, s.messages[step.i].task, step.result);
    }
  }

  lemma StartKeys(s: State, video: string, specs: seq<Spec>, codec: string, globalDrm: bool, base: string,
                  ids: seq<string>, rnd: Material)
    requires video in s.videos && |ids| == |specs|
    ensures StartTranscode(s, video, specs, codec, globalDrm, base, ids, rnd).keys
            == if s.videos[video].hasDRM || globalDrm then EnsureKey(s, video, base, rnd).keys else s.keys
  {
    var s1 := PrepareTranscode(s, video, globalDrm, base, rnd);
    V.AddTranscodesFrame(s1, video, specs, CodecOr(codec), TaskKey(s1, video, s.videos[video].hasDRM || globalDrm), ids);
  }

  lemma StartKeepsKey(s: State, video: string, specs: seq<Spec>, codec: string, globalDrm: bool, base: string,
                      ids: seq<string>, rnd: Material, k: DrmKey)
    requires DrmOk(s) && k in s.keys && |k.iv| == IV_DIGITS && |ids| == |specs|
    ensures KeyIs(StartTranscode(s, video, specs, codec, globalDrm, base, ids, rnd), k.video, Identity(k))
  {
    if video in s.videos {
      EnsureKeyKeepsKey(s, video, base, rnd, k);
      StartKeys(s, video, specs, codec, globalDrm, base, ids, rnd);
    }
  }

  lemma RemakeKeepsKey(s: State, video: string, base: string, rnd: Material, k: DrmKey)
    requires DrmOk(s) && k in s.keys && |k.iv| == IV_DIGITS && video != k.video
    ensures KeyIs(RegenerateKeys(s, video, base, rnd), k.video, Identity(k))
  {
    DropKeysRows(s.keys, video);
    DropKeysDistinct(s.keys, video);
    EnsureKeyKeepsKey(s.(keys := DropKeys(s.keys, video)), video, base, rnd, k);
  }

  lemma SwitchKeepsKey(s: State, video: string, on: bool, base: string, rnd: Material, k: DrmKey)
    requires DrmOk(s) && k in s.keys && |k.iv| == IV_DIGITS && (on || video != k.video)
    ensures KeyIs(ToggleDRM(s, video, on, base, rnd), k.video, Identity(k))
  {
    if on {
      EnsureKeyKeepsKey(s.(objects := ToggleDRM(s, video, on, base, rnd).objects), video, base, rnd, k);
    } else {
      DropKeysRows(s.keys, video);
    }
  }

  lemma KeyStepKeepsKey(s: State, step: Step, k: DrmKey)
    requires step.SwitchDRM? || step.MakeKeys? || step.RemakeKeys? || step.RemoveVideo?
    requires DrmOk(s) && Enabled(s, step) && !DeletesKey(step, k.video)
    requires k in s.keys && |k.iv| == IV_DIGITS
    ensures KeyIs(Apply(s, step), k.video, Identity(k))
  {
    match step
    case SwitchDRM(video, on, base, rnd) => SwitchKeepsKey(s, video, on, base, rnd, k);
    case MakeKeys(video, base, rnd) => EnsureKeyKeepsKey(s, video, base, rnd, k);
    case RemakeKeys(video, base, rnd) => RemakeKeepsKey(s, video, base, rnd, k);
    case RemoveVideo(video) => DropKeysRows(s.keys, video);
  }

  lemma StepKeepsKey(s: State, step: Step, k: DrmKey)
    requires DrmOk(s) && Enabled(s, step) && !DeletesKey(step, k.video)
    requires k in s.keys && |k.iv| == IV_DIGITS
    ensures KeyIs(Apply(s, step), k.video, Identity(k))
  {
    if step.Start? {
      StartKeepsKey(s, step.video, step.specs, step.codec, step.globalDrm, step.base, step.ids, step.rnd, k);
    } else if step.SwitchDRM? || step.MakeKeys? || step.RemakeKeys? || step.RemoveVideo? {
      KeyStepKeepsKey(s, step, k);
    } else {
      OtherStepsKeepKeys(s, step);
    }
  }

  /** Until a step deletes it, every later state holds the same key id, content key and IV. */
  lemma {:induction false} RunKeepsKey(s: State, steps: seq<Step>, video: string, id: (string, string, string))
    requires DrmOk(s) && Legal(s, steps) && KeyIs(s, video, id) && |id.2| == IV_DIGITS
    requires forall step :: step in steps ==> !EditsFlag(step) && !DeletesKey(step, video)
    ensures KeyIs(Run(s, steps), video, id)
    decreases steps
  {
    if steps != [] {
      var k :| k in s.keys && k.video == video && Identity(k) == id;
      StepKeepsKey(s, steps[0], k);
      StepKeepsDrm(s, steps[0]);
      RunKeepsKey(Apply(s, steps[0]), steps[1..], video, id);
    }
  }
}
