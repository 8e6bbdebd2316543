/** The URL in a task's key material: the key id it ends in is the one the endpoint serves the task's key for. */
module KeyUrls {
  import opened Basics
  import opened Keys
  import opened DrmKeys
  import opened PipelineState
  import opened PipelineSteps
  import opened DrmInvariant
  import opened KeyHandoff
  import opened VideoInvariant

  // ---- The last element of a URL ----

  /** The text after the last slash: what the endpoint's route takes as the key id. */
  function LastElement(url: string): (id: string)
    ensures NoSlash(id) && HasSuffix(url, id)
    ensures |id| < |url| ==> url[|url| - |id| - 1] == '/'
  {
    if url == "" || url[|url| - 1] == '/' then ""
    else LastElement(url[..|url| - 1]) + [url[|url| - 1]]
  }

  lemma {:induction false} LastElementIs(front: string, id: string)
    requires NoSlash(id)
    ensures LastElement(front + "/" + id) == id
  {
    var url := front + "/" + id;
    if id != "" {
      var n := |id| - 1;
      assert url[..|url| - 1] == front + "/" + id[..n];
      LastElementIs(front, id[..n]);
      assert id == id[..n] + [id[n]];
    }
  }

  // ---- Key rows ----

  /** The URLs GenerateKeys replaces. */
  predicate Outdated(url: string) {
    url == "" || Contains(url, "/clearkey/")
  }

  /** Ensuring a key creates a row with the fresh material or keeps the row there is, repairing its IV and its URL;
      a created or replaced URL is the endpoint of that key id under `base`. */
  lemma EnsuredRow(s: State, video: string, base: string, rnd: Material)
    ensures var s' := EnsureKey(s, video, base, rnd);
            var i := KeyIndex(s.keys, video);
            if i < |s.keys| then
              && |s'.keys| == |s.keys| && (forall j :: 0 <= j < |s.keys| && j != i ==> s'.keys[j] == s.keys[j])
              && s'.keys[i].video == video && s'.keys[i].keyId == s.keys[i].keyId
              && s'.keys[i].contentKey == s.keys[i].contentKey
              && s'.keys[i].iv == (if |s.keys[i].iv| == 32 then s.keys[i].iv else rnd.iv)
              && s'.keys[i].keyUrl == (if Outdated(s.keys[i].keyUrl) then base + "/api/v1/drm/key/" + s.keys[i].keyId
                                       else s.keys[i].keyUrl)
            else
              s'.keys == s.keys + [DrmKey(video, rnd.keyId, rnd.contentKey, rnd.iv,
                                          base + "/api/v1/drm/key/" + rnd.keyId)]
  {}

  /** A row whose URL names its key, or will once the key is ensured again. */
  predicate UrlFits(k: DrmKey) {
    Outdated(k.keyUrl) || LastElement(k.keyUrl) == k.keyId
  }

  predicate UrlsFit(keys: seq<DrmKey>) {
    forall k :: k in keys ==> NoSlash(k.keyId) && UrlFits(k)
  }

  lemma EndpointNamesKey(base: string, id: string)
    requires NoSlash(id)
    ensures LastElement(base + "/api/v1/drm/key/" + id) == id
  {
    assert base + "/api/v1/drm/key/" + id == base + "/api/v1/drm/key" + "/" + id;
    LastElementIs(base + "/api/v1/drm/key", id);
  }

  lemma FirstKeyIs(keys: seq<DrmKey>, video: string, i: nat)
    requires i < |keys| && keys[i].video == video && forall j :: 0 <= j < i ==> keys[j].video != video
    ensures KeyIndex(keys, video) == i
  {}

  lemma EnsuredIndex(s: State, video: string, base: string, rnd: Material)
    ensures var keys := EnsureKey(s, video, base, rnd).keys;
            KeyIndex(keys, video) == KeyIndex(s.keys, video) < |keys|
  {
    EnsuredRow(s, video, base, rnd);
    FirstKeyIs(EnsureKey(s, video, base, rnd).keys, video, KeyIndex(s.keys, video));
  }

  lemma EnsuredUrlNamesKey(s: State, video: string, base: string, rnd: Material)
    requires UrlsFit(s.keys) && NoSlash(rnd.keyId)
    ensures var keys, i := EnsureKey(s, video, base, rnd).keys, KeyIndex(s.keys, video);
            i < |keys| && NoSlash(keys[i].keyId) && LastElement(keys[i].keyUrl) == keys[i].keyId
  {
    var i := KeyIndex(s.keys, video);
    EnsuredRow(s, video, base, rnd);
    if i < |s.keys| {
      assert s.keys[i] in s.keys;
      EndpointNamesKey(base, s.keys[i].keyId);
    } else {
      EndpointNamesKey(base, rnd.keyId);
    }
  }

  lemma EnsuredUrlsFit(s: State, video: string, base: string, rnd: Material)
    requires UrlsFit(s.keys) && NoSlash(rnd.keyId)
    ensures UrlsFit(EnsureKey(s, video, base, rnd).keys)
  {
    var keys, i := EnsureKey(s, video, base, rnd).keys, KeyIndex(s.keys, video);
    EnsuredRow(s, video, base, rnd);
    EnsuredUrlNamesKey(s, video, base, rnd);
    forall k | k in keys ensures NoSlash(k.keyId) && UrlFits(k) {
      var j :| 0 <= j < |keys| && keys[j] == k;
      if j != i {
        assert keys[j] == s.keys[j] && s.keys[j] in s.keys;
      }
    }
  }

  // ---- Runs ----

  /** The random key ids are hexadecimal, so they hold no slash. */
  predicate DrawsPlainIds(step: Step) {
    match step
    case Start(_, _, _, _, _, _, rnd) => NoSlash(rnd.keyId)
    case SwitchDRM(_, _, _, rnd) => NoSlash(rnd.keyId)
    case MakeKeys(_, _, rnd) => NoSlash(rnd.keyId)
    case RemakeKeys(_, _, rnd) => NoSlash(rnd.keyId)
    case _ => true
  }

  lemma StepKeepsUrls(s: State, step: Step)
    requires UrlsFit(s.keys) && Enabled(s, step) && DrawsPlainIds(step)
    ensures UrlsFit(Apply(s, step).keys)
  {
    match step
    case Start(video, specs, codec, globalDrm, base, ids, rnd) =>
      EnsuredUrlsFit(s, video, base, rnd);
      if video in s.videos {
        StartKeys(s, video, specs, codec, globalDrm, base, ids, rnd);
      }
    case SwitchDRM(video, on, base, rnd) =>
      DropKeysRows(s.keys, video);
      EnsuredUrlsFit(s.(objects := Apply(s, step).objects), video, base, rnd);
    case MakeKeys(video, base, rnd) => EnsuredUrlsFit(s, video, base, rnd);
    case RemakeKeys(video, base, rnd) =>
      DropKeysRows(s.keys, video);
      EnsuredUrlsFit(s.(keys := DropKeys(s.keys, video)), video, base, rnd);
    case RemoveVideo(video) => DropKeysRows(s.keys, video);
    case _ => OtherStepsKeepKeys(s, step);
  }

  /** The URL of a protected transcode ends in its key id. */
  predicate NamesItsKey(task: Task) {
    task.params.TranscodeParams? && task.params.drm.Some? ==>
      LastElement(task.params.drm.value.keyUrl) == task.params.drm.value.keyId
  }

  ghost predicate AddsNamedKeys(s: State, s': State) {
    forall t :: t in s'.tasks ==> (t in s.tasks && SameWork(s'.tasks[t], s.tasks[t])) || NamesItsKey(s'.tasks[t])
  }

  lemma PreparedKeys(s: State, video: string, globalDrm: bool, base: string, rnd: Material)
    requires video in s.videos
    ensures PrepareTranscode(s, video, globalDrm, base, rnd).keys
            == if s.videos[video].hasDRM || globalDrm then EnsureKey(s, video, base, rnd).keys else s.keys
  {}

  lemma GivenUrlNamesKey(s: State, video: string, globalDrm: bool, base: string, rnd: Material)
    requires UrlsFit(s.keys) && NoSlash(rnd.keyId) && video in s.videos
    ensures var s1 := PrepareTranscode(s, video, globalDrm, base, rnd);
            var drm := TaskKey(s1, video, s.videos[video].hasDRM || globalDrm);
            drm.Some? ==> LastElement(drm.value.keyUrl) == drm.value.keyId
  {
    PreparedKeys(s, video, globalDrm, base, rnd);
    EnsuredIndex(s, video, base, rnd);
    EnsuredUrlNamesKey(s, video, base, rnd);
  }

  lemma StepNamesKeys(s: State, step: Step)
    requires UrlsFit(s.keys) && Enabled(s, step) && DrawsPlainIds(step)
    ensures AddsNamedKeys(s, Apply(s, step))
  {
    if step.Start? && step.video in s.videos {
      GivenUrlNamesKey(s, step.video, step.globalDrm, step.base, step.rnd);
      StartedWork(s, step.video, step.specs, step.codec, step.globalDrm, step.base, step.ids, step.rnd);
    } else if !step.Start? {
      OtherStepsAddNoTranscode(s, step);
    }
  }

  lemma {:induction false} RunNamesKeys(s: State, steps: seq<Step>, earlier: set<string>)
    requires UrlsFit(s.keys) && Legal(s, steps) && forall step :: step in steps ==> DrawsPlainIds(step)
    requires forall t :: t in s.tasks && t !in earlier ==> NamesItsKey(s.tasks[t])
    ensures var s' := Run(s, steps);
            UrlsFit(s'.keys) && forall t :: t in s'.tasks && t !in earlier ==> NamesItsKey(s'.tasks[t])
    decreases steps
  {
    if steps != [] {
      StepKeepsUrls(s, steps[0]);
      StepNamesKeys(s, steps[0]);
      RunNamesKeys(Apply(s, steps[0]), steps[1..], earlier);
    }
  }

  // ---- What a player fetches ----

  /** The endpoint, asked with the last element of the task's URL, answers the 16 bytes its worker encrypts with. */
  predicate FetchesItsKey(keys: seq<DrmKey>, p: DrmParams) {
    var served := ServedBytes(keys, LastElement(p.keyUrl));
    served.Some? && served == WorkerBytes(p) && |served.value| == 16
  }

  /** In every later state, for every protected transcode started meanwhile: following its key URL gives the bytes its
      worker encrypts with if and only if the key has not been deleted. */
  lemma FetchedUnlessDeleted(s: State, steps: seq<Step>, t: string)
    requires DrmOk(s) && UrlsFit(s.keys) && Legal(s, steps)
    requires forall step :: step in steps ==> !EditsFlag(step) && DrawsPlainIds(step)
    requires t in Run(s, steps).tasks && t !in s.tasks
    requires Run(s, steps).tasks[t].params.TranscodeParams? && Run(s, steps).tasks[t].params.drm.Some?
    ensures var s' := Run(s, steps);
            var p := s'.tasks[t].params.drm.value;
            FetchesItsKey(s'.keys, p) <==> exists k :: k in s'.keys && k.keyId == p.keyId
  {
    RunNamesKeys(s, steps, s.tasks.Keys);
    RunKeepsDrm(s, steps);
    var s' := Run(s, steps);
    var p := s'.tasks[t].params.drm.value;
    assert NamesItsKey(s'.tasks[t]) && TaskAgrees(s'.tasks[t], s'.keys);
    if exists k :: k in s'.keys && k.keyId == p.keyId {
      var k :| k in s'.keys && k.keyId == p.keyId;
      ServedIsTheRow(s'.keys, k);
      DecodesIff(k.contentKey);
    } else {
      NothingServed(s'.keys, p.keyId);
    }
  }

  lemma FirstStartHandsOut(s: State, start: Step) returns (id: (string, string, string))
    requires start.Start? && DrmOk(s) && Enabled(s, start) && start.video in s.videos
    requires s.videos[start.video].hasDRM || start.globalDrm
    ensures KeyIs(Apply(s, start), start.video, id) && |id.2| == IV_DIGITS
    ensures forall t :: t in Apply(s, start).tasks && t !in s.tasks ==>
              TaskCarries(Apply(s, start).tasks[t], start.video, id)
  {
    var video := start.video;
    var s1 := PrepareTranscode(s, video, start.globalDrm, start.base, start.rnd);
    KeptByPrepareWithKey(s, video, start.globalDrm, start.base, start.rnd);
    var k := s1.keys[KeyIndex(s1.keys, video)];
    id := Identity(k);
    PreparedKeys(s, video, start.globalDrm, start.base, start.rnd);
    StartKeys(s, video, start.specs, start.codec, start.globalDrm, start.base, start.ids, start.rnd);
    assert k in Apply(s, start).keys;
    StartedWork(s, video, start.specs, start.codec, start.globalDrm, start.base, start.ids, start.rnd);
  }

  /** From a start with DRM on, the one that creates the key included, and until that key is deleted: following the
      key URL of every transcode started for the video gives the bytes its worker encrypts with. */
  lemma FetchedUntilDeleted(s: State, start: Step, after: seq<Step>, t: string)
    requires DrmOk(s) && UrlsFit(s.keys) && Legal(s, [start] + after)
    requires start.Start? && start.video in s.videos && (s.videos[start.video].hasDRM || start.globalDrm)
    requires DrawsPlainIds(start)
    requires forall step :: step in after ==> !EditsFlag(step) && DrawsPlainIds(step) && !DeletesKey(step, start.video)
    requires t in Run(s, [start] + after).tasks && t !in s.tasks
    requires var task := Run(s, [start] + after).tasks[t]; task.video == start.video && task.params.TranscodeParams?
    ensures var s' := Run(s, [start] + after);
            var drm := s'.tasks[t].params.drm;
            drm.Some? && FetchesItsKey(s'.keys, drm.value)
  {
    var s1 := Apply(s, start);
    assert ([start] + after)[0] == start && ([start] + after)[1..] == after;
    var id := FirstStartHandsOut(s, start);
    StepKeepsDrm(s, start);
    NewTasksCarryTheKey(s1, after, s.tasks.Keys, start.video, id);
    FetchedUnlessDeleted(s, [start] + after, t);
  }

  // ---- Old rows ----

  /** For a row that was there before, the tasks of a start get a URL that names its key if and only if the row's own
      does or is one of those that are replaced. */
  lemma OldUrlFitsIff(s: State, start: Step, t: string)
    requires start.Start? && DrmOk(s) && Enabled(s, start) && start.video in s.videos
    requires s.videos[start.video].hasDRM && KeyIndex(s.keys, start.video) < |s.keys|
    requires NoSlash(s.keys[KeyIndex(s.keys, start.video)].keyId)
    requires t in Apply(s, start).tasks && t !in s.tasks
    ensures var task := Apply(s, start).tasks[t];
            && task.params.TranscodeParams? && task.params.drm.Some?
            && (NamesItsKey(task) <==> UrlFits(s.keys[KeyIndex(s.keys, start.video)]))
  {
    var video, i := start.video, KeyIndex(s.keys, start.video);
    PreparedKeys(s, video, start.globalDrm, start.base, start.rnd);
    EnsuredIndex(s, video, start.base, start.rnd);
    EnsuredRow(s, video, start.base, start.rnd);
    EndpointNamesKey(start.base, s.keys[i].keyId);
    StartedWork(s, video, start.specs, start.codec, start.globalDrm, start.base, start.ids, start.rnd);
  }

  // ---- New keys and deleted ones ----

  /** Regenerating leaves the video exactly one row, with the fresh material, and every other row as it was. */
  lemma RegeneratedRow(s: State, video: string, base: string, rnd: Material)
    requires video in s.videos
    ensures var keys := RegenerateKeys(s, video, base, rnd).keys;
            forall k :: k in keys <==>
              (k in s.keys && k.video != video)
              || k == DrmKey(video, rnd.keyId, rnd.contentKey, rnd.iv, base + "/api/v1/drm/key/" + rnd.keyId)
  {
    var rest := s.(keys := DropKeys(s.keys, video));
    DropKeysRows(s.keys, video);
    EnsuredRow(rest, video, base, rnd);
    if KeyIndex(rest.keys, video) < |rest.keys| {
      assert rest.keys[KeyIndex(rest.keys, video)] in rest.keys;
    }
  }

  /** A step that deletes a video's key: its id is served no more, and the keys of other videos are as before. */
  lemma DeletedKeyIsNotServed(s: State, step: Step, k: DrmKey)
    requires DrmOk(s) && Enabled(s, step) && k in s.keys && DeletesKey(step, k.video)
    ensures ServedBytes(Apply(s, step).keys, k.keyId) == None
    ensures forall j :: j in s.keys && j.video != k.video ==> j in Apply(s, step).keys
  {
    DropKeysRows(s.keys, k.video);
    assert k.video in s.videos && RowDrmOk(s.videos[k.video], s.keys, k.video);
    if step.RemakeKeys? {
      RegeneratedRow(s, k.video, step.base, step.rnd);
    }
    forall j | j in s.keys && j.video != k.video ensures j.keyId != k.keyId {
      var a :| 0 <= a < |s.keys| && s.keys[a] == k;
      var b :| 0 <= b < |s.keys| && s.keys[b] == j;
    }
    NothingServed(Apply(s, step).keys, k.keyId);
  }
}
