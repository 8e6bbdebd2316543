/** Task rows and messages: how many messages are still to be reported for a task in each status. */
module TaskInvariant {
  import opened Basics
  import opened DrmKeys
  import opened PipelineState
  import opened PipelineSteps

  function UnreportedCount(messages: seq<Message>, t: string): nat {
    if messages == [] then 0
    else
      var last := messages[|messages| - 1];
      UnreportedCount(messages[..|messages| - 1], t) + if last.task == t && last.Unreported() then 1 else 0
  }

  function PublishedCount(messages: seq<Message>, t: string): nat {
    if messages == [] then 0
    else PublishedCount(messages[..|messages| - 1], t) + if messages[|messages| - 1].task == t then 1 else 0
  }

  predicate TaskOk(messages: seq<Message>, t: string, task: Task) {
    var n := UnreportedCount(messages, t);
    && (match task.status
        case Queued => n == 1
        case Completed => n == 0
        case Failed => n == 0
        case Cancelled => n <= 1
        case Pending => false
        case Processing => false)
    && PublishedCount(messages, t) == task.attempts + 1
  }

  predicate Carries(m: Message, tasks: map<string, Task>) {
    m.task in tasks ==> m.video == tasks[m.task].video && m.params == tasks[m.task].params
  }

  predicate TasksOk(s: State) {
    && (forall t :: t in s.tasks ==> TaskOk(s.messages, t, s.tasks[t]))
    && (forall t :: t in s.tasks ==> s.tasks[t].video in s.videos)
    && (forall m :: m in s.messages ==> Carries(m, s.tasks))
  }

  // ---- Counting ----

  lemma {:induction false} CountUpdate(messages: seq<Message>, i: nat, phase: Phase, t: string)
    requires i < |messages|
    ensures var m, m' := messages[i], messages[i].(phase := phase);
            UnreportedCount(messages[i := m'], t)
            == UnreportedCount(messages, t)
               - (if m.task == t && m.Unreported() then 1 else 0)
               + (if m.task == t && m'.Unreported() then 1 else 0)
    ensures PublishedCount(messages[i := messages[i].(phase := phase)], t) == PublishedCount(messages, t)
  {
    var n := |messages| - 1;
    var updated := messages[i := messages[i].(phase := phase)];
    if i < n {
      CountUpdate(messages[..n], i, phase, t);
      assert updated[..n] == messages[..n][i := messages[i].(phase := phase)];
    } else {
      assert updated[..n] == messages[..n];
    }
  }

  lemma {:induction false} CountAbsent(messages: seq<Message>, t: string)
    requires forall m :: m in messages ==> m.task != t
    ensures UnreportedCount(messages, t) == 0 && PublishedCount(messages, t) == 0
  {
    if messages != [] {
      CountAbsent(messages[..|messages| - 1], t);
      assert messages[|messages| - 1] in messages;
    }
  }

  lemma {:induction false} CountPresent(messages: seq<Message>, i: nat)
    requires i < |messages| && messages[i].Unreported()
    ensures UnreportedCount(messages, messages[i].task) >= 1
  {
    if i < |messages| - 1 {
      CountPresent(messages[..|messages| - 1], i);
    }
  }

  // ---- What each kind of step does to the invariant ----

  lemma KeptBySameQueue(s: State, s': State)
    requires TasksOk(s)
    requires s'.tasks == s.tasks && s'.messages == s.messages && s.videos.Keys <= s'.videos.Keys
    ensures TasksOk(s')
  {}

  lemma MessagesAfterUpdate(s: State, i: nat, phase: Phase, tasks: map<string, Task>)
    requires i < |s.messages| && forall m :: m in s.messages ==> Carries(m, tasks)
    ensures forall m :: m in SetPhase(s, i, phase).messages ==> Carries(m, tasks)
  {
    forall m | m in SetPhase(s, i, phase).messages ensures Carries(m, tasks) {
      assert m in s.messages || m == s.messages[i].(phase := phase);
      assert s.messages[i] in s.messages;
    }
  }

  lemma KeptByPhase(s: State, i: nat, phase: Phase)
    requires TasksOk(s) && i < |s.messages|
    requires s.messages[i].Unreported() == s.messages[i].(phase := phase).Unreported()
    ensures TasksOk(SetPhase(s, i, phase))
  {
    var s' := SetPhase(s, i, phase);
    forall t | t in s.tasks ensures TaskOk(s'.messages, t, s.tasks[t]) {
      CountUpdate(s.messages, i, phase, t);
    }
    MessagesAfterUpdate(s, i, phase, s.tasks);
  }

  lemma KeptByPublish(s: State, t: string, task: Task)
    requires forall u :: u in s.tasks && u != t ==> TaskOk(s.messages, u, s.tasks[u])
    requires forall u :: u in s.tasks ==> s.tasks[u].video in s.videos
    requires forall m :: m in s.messages ==> Carries(m, s.tasks)
    requires t in s.tasks && s.tasks[t] == task && task.status.Queued?
    requires UnreportedCount(s.messages, t) == 0 && PublishedCount(s.messages, t) == task.attempts
    ensures TasksOk(Publish(s, t, task.video, task.params))
  {}

  lemma KeptByEnqueue(s: State, t: string, video: string, params: Params)
    requires TasksOk(s) && FreshTask(s, t) && video in s.videos
    ensures TasksOk(Enqueue(s, t, video, params))
  {
    var task := Task(video, params, Queued, 0, NoResult);
    CountAbsent(s.messages, t);
    KeptByPublish(s.(tasks := s.tasks[t := task]), t, task);
  }

  /** A retry happens only from failed, when no message is outstanding, and adds one attempt and one message. */
  lemma KeptByRetry(s: State, t: string)
    requires TasksOk(s)
    ensures TasksOk(RetryTask(s, t))
    ensures var s' := RetryTask(s, t);
            if t in s.tasks && s.tasks[t].status.Failed? then
              && s'.tasks[t] == s.tasks[t].(status := Queued, attempts := s.tasks[t].attempts + 1)
              && UnreportedCount(s.messages, t) == 0 && UnreportedCount(s'.messages, t) == 1
              && PublishedCount(s'.messages, t) == PublishedCount(s.messages, t) + 1
            else s' == s
  {
    if t in s.tasks && s.tasks[t].status.Failed? {
      var task := s.tasks[t].(status := Queued, attempts := s.tasks[t].attempts + 1);
      KeptByPublish(s.(tasks := s.tasks[t := task]), t, task);
      assert TaskOk(s.messages, t, s.tasks[t]);
      assert TaskOk(RetryTask(s, t).messages, t, task);
    }
  }

  lemma KeptByCancel(s: State, t: string)
    requires TasksOk(s)
    ensures TasksOk(SetTaskStatus(s, t, Cancelled))
  {}

  /** The task has a final status and its one unreported message is reported. */
  lemma KeptByReport(s: State, i: nat, s1: State, final: Task)
    requires TasksOk(s) && i < |s.messages| && s.messages[i].phase.Delivered?
    requires s1.messages == s.messages && s1.videos.Keys == s.videos.Keys
    requires var t := s.messages[i].task;
             s1.tasks == if t in s.tasks then s.tasks[t := final] else s.tasks
    requires var t := s.messages[i].task;
             t in s.tasks ==> && (final.status.Completed? || final.status.Failed?)
                              && final.attempts == s.tasks[t].attempts
                              && final.video == s.tasks[t].video && final.params == s.tasks[t].params
    ensures TasksOk(SetPhase(s1, i, Reported))
  {
    var t := s.messages[i].task;
    CountPresent(s.messages, i);
    forall u | u in s1.tasks ensures TaskOk(SetPhase(s1, i, Reported).messages, u, s1.tasks[u]) {
      CountUpdate(s.messages, i, Reported, u);
    }
    assert forall m :: m in s1.messages ==> Carries(m, s1.tasks) by {
      assert forall m :: m in s1.messages ==> Carries(m, s.tasks);
    }
    MessagesAfterUpdate(s1, i, Reported, s1.tasks);
  }

  lemma KeptByAddTranscode(s: State, video: string, spec: Spec, codec: string, drm: Option<DrmParams>, t: string)
    requires TasksOk(s) && video in s.videos && FreshTask(s, t)
    ensures var s' := AddTranscode(s, video, spec, codec, drm, t);
            && TasksOk(s')
            && (forall u :: FreshTask(s, u) && u != t ==> FreshTask(s', u))
  {
    var row := s.videos[video];
    var s1 := SetVideo(s, video, row.(variants := CreateOrUpdate(row.variants, NewVariant(spec, codec, drm.Some?))));
    KeptBySameQueue(s, s1);
    KeptByEnqueue(s1, t, video, TranscodeParams(spec.res, drm));
  }

  lemma {:induction false} KeptByAddTranscodes(s: State, video: string, specs: seq<Spec>, codec: string,
                                               drm: Option<DrmParams>, ids: seq<string>)
    requires TasksOk(s) && video in s.videos && |ids| == |specs| && FreshTasks(s, ids)
    ensures var s' := AddTranscodes(s, video, specs, codec, drm, ids);
            && TasksOk(s')
            && (forall t :: FreshTask(s, t) && t !in ids ==> FreshTask(s', t))
    decreases |specs|
  {
    if specs != [] {
      var n := |specs| - 1;
      KeptByAddTranscodes(s, video, specs[..n], codec, drm, ids[..n]);
      var mid := AddTranscodes(s, video, specs[..n], codec, drm, ids[..n]);
      assert ids[n] !in ids[..n];
      assert FreshTask(mid, ids[n]);
      KeptByAddTranscode(mid, video, specs[n], codec, drm, ids[n]);
      assert forall t :: t !in ids ==> t !in ids[..n] && t != ids[n];
    }
  }

  lemma KeptByDeleteVideo(s: State, video: string)
    requires TasksOk(s)
    ensures TasksOk(DeleteVideo(s, video))
  {}

  lemma KeptByStart(s: State, step: Step)
    requires step.Start? && TasksOk(s) && Enabled(s, step)
    ensures TasksOk(Apply(s, step))
  {
    if step.video in s.videos {
      var s1 := PrepareTranscode(s, step.video, step.globalDrm, step.base, step.rnd);
      PrepareFrame(s, step.video, step.globalDrm, step.base, step.rnd);
      KeptBySameQueue(s, s1);
      KeptByAddTranscodes(s1, step.video, step.specs, CodecOr(step.codec),
                          TaskKey(s1, step.video, s.videos[step.video].hasDRM || step.globalDrm), step.ids);
    }
  }

  lemma KeptByFinishUpload(s: State, step: Step)
    requires step.FinishUpload? && TasksOk(s) && Enabled(s, step)
    ensures TasksOk(Apply(s, step))
  {
    var s1 := UploadReset(s.(objects := s.objects[step.key := step.body]), step.video, step.key);
    KeptBySameQueue(s, s1);
    if step.video in s.videos {
      KeptByEnqueue(s1, step.probe, step.video, ProbeParams);
    }
  }

  lemma KeptByComplete(s: State, i: nat, r: TaskResult)
    requires TasksOk(s) && i < |s.messages| && s.messages[i].phase.Delivered?
    ensures TasksOk(SetPhase(CompleteTask(s, s.messages[i].task, r), i, Reported))
  {
    var t := s.messages[i].task;
    CompleteTaskFrame(s, t, r);
    var none := Task("", ProbeParams, Completed, 0, NoResult);
    KeptByReport(s, i, CompleteTask(s, t, r),
                 if t in s.tasks then s.tasks[t].(status := Completed, result := r) else none);
  }

  lemma KeptByFail(s: State, i: nat)
    requires TasksOk(s) && i < |s.messages| && s.messages[i].phase.Delivered?
    ensures TasksOk(SetPhase(SetTaskStatus(s, s.messages[i].task, Failed), i, Reported))
  {
    var t := s.messages[i].task;
    var none := Task("", ProbeParams, Failed, 0, NoResult);
    KeptByReport(s, i, SetTaskStatus(s, t, Failed), if t in s.tasks then s.tasks[t].(status := Failed) else none);
  }

  lemma KeptByUpload(s: State, i: nat, file: string, body: string)
    requires TasksOk(s) && i < |s.messages| && s.messages[i].phase.Delivered?
    ensures TasksOk(UploadFile(s, i, file, body))
  {
    if s.messages[i].params.TranscodeParams? {
      KeptByPhase(s, i, UploadFile(s, i, file, body).messages[i].phase);
    }
  }

  lemma KeptByKeySteps(s: State, step: Step)
    requires step.SwitchDRM? || step.MakeKeys? || step.RemakeKeys?
    requires TasksOk(s) && Enabled(s, step)
    ensures TasksOk(Apply(s, step))
  {
    KeptBySameQueue(s, Apply(s, step));
  }

  lemma StepKeepsTasks(s: State, step: Step)
    requires TasksOk(s) && Enabled(s, step)
    ensures TasksOk(Apply(s, step))
  {
    match step
    case FinishUpload(_, _, _, _) => KeptByFinishUpload(s, step);
    case Start(_, _, _, _, _, _, _) => KeptByStart(s, step);
    case GenerateThumbnails(video, count, width, id) =>
      if video in s.videos {
        KeptByEnqueue(s, id, video, ThumbnailParams(count, width, HeightFor(width)));
      }
    case Cancel(t) => KeptByCancel(s, t);
    case Retry(t) => KeptByRetry(s, t);
    case RemoveVideo(video) => KeptByDeleteVideo(s, video);
    case SwitchDRM(_, _, _, _) => KeptByKeySteps(s, step);
    case MakeKeys(_, _, _) => KeptByKeySteps(s, step);
    case RemakeKeys(_, _, _) => KeptByKeySteps(s, step);
    case Deliver(i) => KeptByPhase(s, i, Delivered(false));
    case Upload(i, file, body) => KeptByUpload(s, i, file, body);
    case ReportComplete(i, r) => KeptByComplete(s, i, r);
    case ReportFail(i) => KeptByFail(s, i);
    case Ack(i) => KeptByPhase(s, i, Acked);
    case _ => KeptBySameQueue(s, Apply(s, step));
  }

  // ---- Every run ----

  lemma {:induction false} RunKeepsTasks(s: State, steps: seq<Step>)
    requires TasksOk(s) && Legal(s, steps)
    ensures TasksOk(Run(s, steps))
    decreases steps
  {
    if steps != [] {
      StepKeepsTasks(s, steps[0]);
      RunKeepsTasks(Apply(s, steps[0]), steps[1..]);
    }
  }

  /** In every state any number of workers can reach: a queued task has exactly one message still to be
      reported, a completed or failed one has none, a cancelled one at most one, no task is in another
      status, and a task was published once more than it was retried. */
  lemma TasksAndMessagesAgree(steps: seq<Step>, t: string)
    requires Legal(EMPTY_STATE, steps) && t in Run(EMPTY_STATE, steps).tasks
    ensures var s := Run(EMPTY_STATE, steps);
            var n := UnreportedCount(s.messages, t);
            && n <= 1
            && (s.tasks[t].status.Queued? ==> n == 1)
            && (s.tasks[t].status.Completed? || s.tasks[t].status.Failed? ==> n == 0)
            && !s.tasks[t].status.Pending? && !s.tasks[t].status.Processing?
            && PublishedCount(s.messages, t) == s.tasks[t].attempts + 1
  {
    RunKeepsTasks(EMPTY_STATE, steps);
  }
}
