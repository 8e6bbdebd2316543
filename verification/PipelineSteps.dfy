/** The pipeline as one step system: API calls and worker actions, in any order, by any number of workers. */
module PipelineSteps {
  import opened Basics
  import opened Keys
  import opened DrmKeys
  import opened PipelineState

  datatype Step =
    | CreateVideo(video: string, meta: Metadata)
    | UpdateVideo(video: string, hasDRM: Option<bool>)
    | FinishUpload(video: string, key: Key, body: string, probe: string)
    | Start(video: string, specs: seq<Spec>, codec: string, globalDrm: bool, base: string, ids: seq<string>,
            rnd: Material)
    | GenerateThumbnails(video: string, count: int, width: int, id: string)
    | Cancel(task: string)
    | Retry(task: string)
    | RemoveVariants(video: string)
    | RemoveVariant(video: string, res: string)
    | SwitchDRM(video: string, on: bool, base: string, rnd: Material)
    | RemoveVideo(video: string)
    | MakeKeys(video: string, base: string, rnd: Material)
    | RemakeKeys(video: string, base: string, rnd: Material)
    | Deliver(i: nat)
    | Upload(i: nat, file: string, body: string)
    | ReportComplete(i: nat, result: TaskResult)
    | ReportFail(i: nat)
    | Ack(i: nat)

  // ---- What the environment guarantees ----

  predicate FreshTask(s: State, t: string) {
    t !in s.tasks && forall m :: m in s.messages ==> m.task != t
  }

  predicate FreshTasks(s: State, ids: seq<string>) {
    && (forall t :: t in ids ==> FreshTask(s, t))
    && forall i, j :: 0 <= i < j < |ids| ==> ids[i] != ids[j]
  }

  predicate UsesKey(params: Params, keyId: string) {
    params.TranscodeParams? && params.drm.Some? && params.drm.value.keyId == keyId
  }

  predicate FreshKey(s: State, rnd: Material) {
    && |rnd.iv| == IV_DIGITS && |rnd.contentKey| == 32 && IsHex(rnd.contentKey)
    && (forall k :: k in s.keys ==> k.keyId != rnd.keyId)
    && (forall t :: t in s.tasks ==> !UsesKey(s.tasks[t].params, rnd.keyId))
  }

  predicate FreshVideo(s: State, video: string) {
    && NoSlash(video) && video !in s.videos
    && (forall m :: m in s.messages ==> m.video != video)
    && (forall k :: k in s.keys ==> k.video != video)
  }

  /** A worker reports a message once, completes a transcode only after uploading its playlist,
      and with the resolution it was asked for. */
  predicate CanComplete(m: Message, r: TaskResult) {
    && m.phase.Delivered?
    && (m.params.TranscodeParams? ==> m.phase.uploaded && r == TranscodeResult(m.params.res))
  }

  predicate Enabled(s: State, step: Step) {
    match step
    case CreateVideo(video, _) => FreshVideo(s, video)
    case UpdateVideo(_, _) => true
    case FinishUpload(_, key, _, probe) => key.Original? && WellNamed(key) && FreshTask(s, probe)
    case Start(_, specs, _, _, _, ids, rnd) => |ids| == |specs| && FreshTasks(s, ids) && FreshKey(s, rnd)
    case GenerateThumbnails(_, _, _, id) => FreshTask(s, id)
    case SwitchDRM(_, _, _, rnd) => FreshKey(s, rnd)
    case MakeKeys(_, _, rnd) => FreshKey(s, rnd)
    case RemakeKeys(_, _, rnd) => FreshKey(s, rnd)
    case Deliver(i) => i < |s.messages| && s.messages[i].phase.Undelivered?
    case Upload(i, file, _) => i < |s.messages| && s.messages[i].phase.Delivered? && NoSlash(file)
    case ReportComplete(i, r) => i < |s.messages| && CanComplete(s.messages[i], r)
    case ReportFail(i) => i < |s.messages| && s.messages[i].phase.Delivered?
    case Ack(i) => i < |s.messages| && s.messages[i].phase.Reported?
    case _ => true
  }

  function NewVideo(video: string, meta: Metadata): Video {
    Video(VideoStatus.Draft, None, false, Original(video, "video.mp4"), meta, [], [])
  }

  /** 16:9, with the source's integer division (truncation toward zero). */
  function HeightFor(width: int): int {
    if width >= 0 then width * 9 / 16 else -(-width * 9 / 16)
  }

  function Apply(s: State, step: Step): State
    requires Enabled(s, step)
  {
    match step
    case CreateVideo(video, meta) => SetVideo(s, video, NewVideo(video, meta))
    case UpdateVideo(video, hasDRM) =>
      if video in s.videos && hasDRM.Some? then SetVideo(s, video, s.videos[video].(hasDRM := hasDRM.value)) else s
    case FinishUpload(video, key, body, probe) => CompleteUpload(s, video, key, body, probe)
    case Start(video, specs, codec, globalDrm, base, ids, rnd) =>
      StartTranscode(s, video, specs, codec, globalDrm, base, ids, rnd)
    case GenerateThumbnails(video, count, width, id) =>
      if video in s.videos then Enqueue(s, id, video, ThumbnailParams(count, width, HeightFor(width))) else s
    case Cancel(t) => SetTaskStatus(s, t, Cancelled)
    case Retry(t) => RetryTask(s, t)
    case RemoveVariants(video) => DeleteVariants(s, video)
    case RemoveVariant(video, res) => DeleteVariant(s, video, res)
    case SwitchDRM(video, on, base, rnd) => ToggleDRM(s, video, on, base, rnd)
    case RemoveVideo(video) => DeleteVideo(s, video)
    case MakeKeys(video, base, rnd) => if video in s.videos then EnsureKey(s, video, base, rnd) else s
    case RemakeKeys(video, base, rnd) => RegenerateKeys(s, video, base, rnd)
    case Deliver(i) => SetPhase(s, i, Delivered(false))
    case Upload(i, file, body) => UploadFile(s, i, file, body)
    case ReportComplete(i, r) => SetPhase(CompleteTask(s, s.messages[i].task, r), i, Reported)
    case ReportFail(i) => SetPhase(SetTaskStatus(s, s.messages[i].task, Failed), i, Reported)
    case Ack(i) => SetPhase(s, i, Acked)
  }

  // ---- Runs ----

  ghost predicate Legal(s: State, steps: seq<Step>)
    decreases steps
  {
    steps == [] || (Enabled(s, steps[0]) && Legal(Apply(s, steps[0]), steps[1..]))
  }

  function Run(s: State, steps: seq<Step>): State
    requires Legal(s, steps)
    decreases steps
  {
    if steps == [] then s else Run(Apply(s, steps[0]), steps[1..])
  }

  // ---- Frames shared by the invariant proofs ----

  lemma CompleteTaskFrame(s: State, t: string, r: TaskResult)
    ensures var s' := CompleteTask(s, t, r);
            && s'.messages == s.messages && s'.keys == s.keys && s'.videos.Keys == s.videos.Keys
            && s'.tasks == if t in s.tasks then s.tasks[t := s.tasks[t].(status := Completed, result := r)] else s.tasks
  {}

  lemma EnsureKeyFrame(s: State, video: string, base: string, rnd: Material)
    ensures var s' := EnsureKey(s, video, base, rnd);
            && s'.messages == s.messages && s'.tasks == s.tasks && s'.objects == s.objects
            && s'.videos.Keys == s.videos.Keys
            && (forall v :: v in s.videos ==>
                  s'.videos[v] == s.videos[v] || (v == video && s'.videos[v] == s.videos[v].(hasDRM := true)))
  {}

  lemma PrepareFrame(s: State, video: string, globalDrm: bool, base: string, rnd: Material)
    requires video in s.videos
    ensures var s' := PrepareTranscode(s, video, globalDrm, base, rnd);
            && s'.messages == s.messages && s'.tasks == s.tasks && s'.objects == s.objects
            && s'.videos.Keys == s.videos.Keys
            && (forall v :: v in s.videos && v != video ==> s'.videos[v] == s.videos[v])
            && s'.videos[video] == s.videos[video].(status := VideoStatus.Processing,
                                                    hasDRM := s.videos[video].hasDRM || globalDrm)
  {}
}
