/** One key from the row to every task: until it is deleted, all transcodes of a video are encrypted alike. */
module KeyHandoff {
  import opened Basics
  import opened Keys
  import opened DrmKeys
  import opened PipelineState
  import opened PipelineSteps
  import opened DrmInvariant

  predicate Holds(drm: Option<DrmParams>, id: (string, string, string)) {
    drm.Some? && (drm.value.keyId, drm.value.contentKey, drm.value.iv) == id
  }

  /** A transcode of the video carries this key. */
  predicate TaskCarries(task: Task, video: string, id: (string, string, string)) {
    task.video == video && task.params.TranscodeParams? ==> Holds(task.params.drm, id)
  }

  predicate SameWork(a: Task, b: Task) {
    a.video == b.video && a.params == b.params
  }

  /** Every task after a step is an old one, or carries the key if it needs to. */
  ghost predicate AddsCarriers(s: State, s': State, video: string, id: (string, string, string)) {
    forall t :: t in s'.tasks ==>
      (t in s.tasks && SameWork(s'.tasks[t], s.tasks[t])) || TaskCarries(s'.tasks[t], video, id)
  }

  predicate IsTranscodeWith(task: Task, video: string, drm: Option<DrmParams>) {
    task.video == video && task.params.TranscodeParams? && task.params.drm == drm
  }

  lemma {:induction false} AddTranscodesTasks(s: State, video: string, specs: seq<Spec>, codec: string,
                                              drm: Option<DrmParams>, ids: seq<string>)
    requires video in s.videos && |ids| == |specs|
    ensures var s' := AddTranscodes(s, video, specs, codec, drm, ids);
            forall t :: t in s'.tasks ==>
              (t in s.tasks && s'.tasks[t] == s.tasks[t]) || IsTranscodeWith(s'.tasks[t], video, drm)
  {
    if specs != [] {
      var n := |specs| - 1;
      AddTranscodesTasks(s, video, specs[..n], codec, drm, ids[..n]);
    }
  }

  /** The key a task is given is the video's row, its 32-digit IV unchanged by the padding. */
  lemma GivenKeyIs(s: State, video: string, id: (string, string, string))
    requires DistinctKeys(s.keys) && KeyIs(s, video, id) && |id.2| == IV_DIGITS
    ensures Holds(TaskKey(s, video, true), id)
  {
    var k :| k in s.keys && k.video == video && Identity(k) == id;
    var j :| 0 <= j < |s.keys| && s.keys[j] == k;
    OnlyIndex(s.keys, j, video);
  }

  lemma PreparedKeyIs(s: State, video: string, globalDrm: bool, base: string, rnd: Material, id: (string, string, string))
    requires DrmOk(s) && FreshKey(s, rnd) && video in s.videos && KeyIs(s, video, id) && |id.2| == IV_DIGITS
    ensures var s1 := PrepareTranscode(s, video, globalDrm, base, rnd);
            s.videos[video].hasDRM && Holds(TaskKey(s1, video, true), id)
  {
    var s1 := PrepareTranscode(s, video, globalDrm, base, rnd);
    KeptByPrepare(s, video, globalDrm, base, rnd);
    var k :| k in s.keys && k.video == video && Identity(k) == id;
    EnsureKeyKeepsKey(s, video, base, rnd, k);
    assert HasKey(s.keys, video) && RowDrmOk(s.videos[video], s.keys, video);
    assert s1.keys == EnsureKey(s, video, base, rnd).keys;
    GivenKeyIs(s1, video, id);
  }

  lemma StartedWork(s: State, video: string, specs: seq<Spec>, codec: string, globalDrm: bool, base: string,
                    ids: seq<string>, rnd: Material)
    requires video in s.videos && |ids| == |specs|
    ensures var s' := StartTranscode(s, video, specs, codec, globalDrm, base, ids, rnd);
            var drm := TaskKey(PrepareTranscode(s, video, globalDrm, base, rnd), video,
                               s.videos[video].hasDRM || globalDrm);
            forall t :: t in s'.tasks ==>
              (t in s.tasks && s'.tasks[t] == s.tasks[t]) || IsTranscodeWith(s'.tasks[t], video, drm)
  {
    var s1 := PrepareTranscode(s, video, globalDrm, base, rnd);
    PrepareFrame(s, video, globalDrm, base, rnd);
    AddTranscodesTasks(s1, video, specs, CodecOr(codec), TaskKey(s1, video, s.videos[video].hasDRM || globalDrm), ids);
  }

  lemma AddedWorkCarries(s: State, s': State, started: string, drm: Option<DrmParams>, video: string,
                         id: (string, string, string))
    requires forall t :: t in s'.tasks ==>
               (t in s.tasks && s'.tasks[t] == s.tasks[t]) || IsTranscodeWith(s'.tasks[t], started, drm)
    requires started == video ==> Holds(drm, id)
    ensures AddsCarriers(s, s', video, id)
  {}

  lemma StartAddsCarriers(s: State, step: Step, video: string, id: (string, string, string))
    requires step.Start? && DrmOk(s) && Enabled(s, step) && KeyIs(s, video, id) && |id.2| == IV_DIGITS
    ensures AddsCarriers(s, Apply(s, step), video, id)
  {
    if step.video in s.videos {
      var s1 := PrepareTranscode(s, step.video, step.globalDrm, step.base, step.rnd);
      StartedWork(s, step.video, step.specs, step.codec, step.globalDrm, step.base, step.ids, step.rnd);
      if step.video == video {
        PreparedKeyIs(s, video, step.globalDrm, step.base, step.rnd, id);
      }
      AddedWorkCarries(s, Apply(s, step), step.video,
                       TaskKey(s1, step.video, s.videos[step.video].hasDRM || step.globalDrm), video, id);
    }
  }

  lemma SwitchKeepsTasks(s: State, video: string, on: bool, base: string, rnd: Material)
    ensures ToggleDRM(s, video, on, base, rnd).tasks == s.tasks
  {}

  lemma OtherStepsAddNoTranscode(s: State, step: Step)
    requires Enabled(s, step) && !step.Start?
    ensures var s' := Apply(s, step);
            forall t :: t in s'.tasks ==>
              (t in s.tasks && SameWork(s'.tasks[t], s.tasks[t])) || !s'.tasks[t].params.TranscodeParams?
  {
    match step
    case ReportComplete(i, r) => CompleteTaskFrame(s, s.messages[i].task, r);
    case SwitchDRM(v, on, base, rnd) => SwitchKeepsTasks(s, v, on, base, rnd);
    case MakeKeys(v, base, rnd) => EnsureKeyFrame(s, v, base, rnd);
    case RemakeKeys(v, base, rnd) => EnsureKeyFrame(s.(keys := DropKeys(s.keys, v)), v, base, rnd);
    case _ =>
  }

  lemma StepAddsCarriers(s: State, step: Step, video: string, id: (string, string, string))
    requires DrmOk(s) && Enabled(s, step) && KeyIs(s, video, id) && |id.2| == IV_DIGITS
    ensures AddsCarriers(s, Apply(s, step), video, id)
  {
    if step.Start? {
      StartAddsCarriers(s, step, video, id);
    } else {
      OtherStepsAddNoTranscode(s, step);
    }
  }

  /** Until the key of a video is deleted, every transcode task started for it carries the same key id, content
      key and 32-digit IV. */
  lemma {:induction false} NewTasksCarryTheKey(s: State, steps: seq<Step>, earlier: set<string>, video: string,
                                               id: (string, string, string))
    requires DrmOk(s) && Legal(s, steps) && KeyIs(s, video, id) && |id.2| == IV_DIGITS
    requires forall step :: step in steps ==> !EditsFlag(step) && !DeletesKey(step, video)
    requires forall t :: t in s.tasks && t !in earlier ==> TaskCarries(s.tasks[t], video, id)
    ensures var s' := Run(s, steps);
            KeyIs(s', video, id) && forall t :: t in s'.tasks && t !in earlier ==> TaskCarries(s'.tasks[t], video, id)
    decreases steps
  {
    if steps != [] {
      var k :| k in s.keys && k.video == video && Identity(k) == id;
      StepKeepsKey(s, steps[0], k);
      StepKeepsDrm(s, steps[0]);
      StepAddsCarriers(s, steps[0], video, id);
      NewTasksCarryTheKey(Apply(s, steps[0]), steps[1..], earlier, video, id);
    }
  }

  /** Until the key of a video is deleted, the endpoint serves the key of every transcode started for it, and
      serves the 16 bytes the worker encrypts with. */
  lemma StartedWorkIsServed(s: State, steps: seq<Step>, video: string, id: (string, string, string), t: string)
    requires DrmOk(s) && Legal(s, steps) && KeyIs(s, video, id) && |id.2| == IV_DIGITS
    requires forall step :: step in steps ==> !EditsFlag(step) && !DeletesKey(step, video)
    requires t in Run(s, steps).tasks && t !in s.tasks
    requires Run(s, steps).tasks[t].video == video && Run(s, steps).tasks[t].params.TranscodeParams?
    ensures var s' := Run(s, steps);
            var drm := s'.tasks[t].params.drm;
            && drm.Some? && ServedBytes(s'.keys, drm.value.keyId).Some?
            && ServedBytes(s'.keys, drm.value.keyId) == WorkerBytes(drm.value)
            && |ServedBytes(s'.keys, drm.value.keyId).value| == 16
  {
    NewTasksCarryTheKey(s, steps, s.tasks.Keys, video, id);
    RunKeepsDrm(s, steps);
    var s' := Run(s, steps);
    var k :| k in s'.keys && k.video == video && Identity(k) == id;
    ServedIsTheRow(s'.keys, k);
    DecodesIff(k.contentKey);
  }
}
