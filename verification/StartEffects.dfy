/** What StartTranscode leaves: for each resolution asked for, a queued task, its message and a variant row. */
module StartEffects {
  import opened Basics
  import opened DrmKeys
  import opened PipelineState
  import opened PipelineSteps
  import opened VariantRows
  import opened VideoInvariant

  predicate DistinctResolutions(specs: seq<Spec>) {
    forall i, j :: 0 <= i < j < |specs| ==> specs[i].res != specs[j].res
  }

  // ---- The variant rows ----

  /** The row of that resolution and codec is being processed. It is protected if DRM is on, and otherwise only if
      it was before. A number of the request overwrites the row's unless it is zero and the row was there. */
  predicate StartedRow(before: seq<Variant>, after: seq<Variant>, spec: Spec, codec: string, drm: bool) {
    var i, j := FindRow(before, spec.res, codec), FindRow(after, spec.res, codec);
    && j < |after| && after[j].status.Processing?
    && (if i == |before| then
          after[j].drm == drm
          && (after[j].width, after[j].height, after[j].bitrate) == (spec.width, spec.height, spec.bitrate)
        else
          && (after[j].drm <==> drm || before[i].drm)
          && after[j].width == (if spec.width != 0 then spec.width else before[i].width)
          && after[j].height == (if spec.height != 0 then spec.height else before[i].height)
          && after[j].bitrate == (if spec.bitrate != 0 then spec.bitrate else before[i].bitrate))
  }

  predicate Asked(specs: seq<Spec>, codec: string, v: Variant) {
    v.codec == codec && exists spec :: spec in specs && spec.res == v.res
  }

  /** Rows keep their place, resolution and codec; only the first row of an asked resolution and codec changes, and
      the rows added behind them are the first of theirs. */
  predicate OtherRowsStay(before: seq<Variant>, after: seq<Variant>, specs: seq<Spec>, codec: string) {
    && |before| <= |after|
    && (forall k :: 0 <= k < |before| ==>
          && after[k].res == before[k].res && after[k].codec == before[k].codec
          && (after[k] != before[k] ==> Asked(specs, codec, before[k]) && FindRow(before, before[k].res, codec) == k))
    && (forall k :: |before| <= k < |after| ==>
          Asked(specs, codec, after[k]) && FindRow(after, after[k].res, codec) == k)
  }

  predicate RowsStarted(before: seq<Variant>, after: seq<Variant>, specs: seq<Spec>, codec: string, drm: bool) {
    && (forall i :: 0 <= i < |specs| ==> StartedRow(before, after, specs[i], codec, drm))
    && OtherRowsStay(before, after, specs, codec)
  }

  lemma FindRowIs(rows: seq<Variant>, res: string, codec: string, j: nat)
    requires j < |rows| && rows[j].res == res && rows[j].codec == codec
    requires forall k :: 0 <= k < j ==> rows[k].res != res || rows[k].codec != codec
    ensures FindRow(rows, res, codec) == j
  {}

  lemma FindRowMisses(rows: seq<Variant>, res: string, codec: string)
    requires forall k :: 0 <= k < |rows| ==> rows[k].res != res || rows[k].codec != codec
    ensures FindRow(rows, res, codec) == |rows|
  {}

  /** Where a resolution not asked for so far stands. */
  lemma NotYetAsked(before: seq<Variant>, mid: seq<Variant>, specs: seq<Spec>, codec: string, res: string)
    requires OtherRowsStay(before, mid, specs, codec) && forall spec :: spec in specs ==> spec.res != res
    ensures var i := FindRow(before, res, codec);
            if i < |before| then FindRow(mid, res, codec) == i && mid[i] == before[i]
            else FindRow(mid, res, codec) == |mid|
  {
    var i := FindRow(before, res, codec);
    if i < |before| {
      FindRowIs(mid, res, codec, i);
    } else {
      forall k | 0 <= k < |mid| ensures mid[k].res != res || mid[k].codec != codec {
        if k >= |before| {
          assert Asked(specs, codec, mid[k]);
        }
      }
    }
  }

  predicate Upserted(mid: seq<Variant>, after: seq<Variant>, v: Variant) {
    var j := FindRow(mid, v.res, v.codec);
    after == if j < |mid| then mid[j := Assign(mid[j], v)] else mid + [v]
  }

  lemma SearchAfterUpdate(rows: seq<Variant>, i: nat, row: Variant, res: string, codec: string)
    requires i < |rows| && row.res == rows[i].res != res
    ensures FindRow(rows[i := row], res, codec) == FindRow(rows, res, codec)
  {
    var j := FindRow(rows, res, codec);
    if j < |rows| {
      FindRowIs(rows[i := row], res, codec, j);
    } else {
      FindRowMisses(rows[i := row], res, codec);
    }
  }

  lemma SearchAfterAppend(rows: seq<Variant>, row: Variant, res: string, codec: string)
    requires row.res != res
    ensures var j := FindRow(rows, res, codec);
            FindRow(rows + [row], res, codec) == if j < |rows| then j else |rows| + 1
  {
    var j := FindRow(rows, res, codec);
    if j < |rows| {
      FindRowIs(rows + [row], res, codec, j);
    } else {
      FindRowMisses(rows + [row], res, codec);
    }
  }

  /** An upsert of one resolution leaves the search for another where it was. */
  lemma OtherSearchStays(mid: seq<Variant>, after: seq<Variant>, v: Variant, res: string, codec: string)
    requires res != v.res && Upserted(mid, after, v)
    ensures var j := FindRow(mid, res, codec);
            if j < |mid| then j < |after| && FindRow(after, res, codec) == j && after[j] == mid[j]
            else FindRow(after, res, codec) == |after|
  {
    var i := FindRow(mid, v.res, v.codec);
    if i < |mid| {
      SearchAfterUpdate(mid, i, Assign(mid[i], v), res, codec);
    } else {
      SearchAfterAppend(mid, v, res, codec);
    }
  }

  lemma NewRowStarted(before: seq<Variant>, mid: seq<Variant>, after: seq<Variant>, specs: seq<Spec>, spec: Spec,
                      codec: string, drm: bool)
    requires OtherRowsStay(before, mid, specs, codec) && forall x :: x in specs ==> x.res != spec.res
    requires Upserted(mid, after, NewVariant(spec, codec, drm))
    ensures StartedRow(before, after, spec, codec, drm)
  {
    NotYetAsked(before, mid, specs, codec, spec.res);
    FindRowIs(after, spec.res, codec, FindRow(mid, spec.res, codec));
  }

  lemma MoreIsAsked(specs: seq<Spec>, spec: Spec, codec: string, v: Variant)
    ensures Asked(specs, codec, v) ==> Asked(specs + [spec], codec, v)
    ensures v.codec == codec && v.res == spec.res ==> Asked(specs + [spec], codec, v)
  {
    assert spec in specs + [spec];
  }

  lemma OthersStayAgain(before: seq<Variant>, mid: seq<Variant>, after: seq<Variant>, specs: seq<Spec>, spec: Spec,
                        codec: string, drm: bool)
    requires OtherRowsStay(before, mid, specs, codec) && forall x :: x in specs ==> x.res != spec.res
    requires Upserted(mid, after, NewVariant(spec, codec, drm))
    ensures OtherRowsStay(before, after, specs + [spec], codec)
  {
    var v := NewVariant(spec, codec, drm);
    NotYetAsked(before, mid, specs, codec, spec.res);
    forall k | 0 <= k < |before|
      ensures after[k] != before[k] ==>
                Asked(specs + [spec], codec, before[k]) && FindRow(before, before[k].res, codec) == k
    {
      MoreIsAsked(specs, spec, codec, before[k]);
    }
    forall k | |before| <= k < |after|
      ensures Asked(specs + [spec], codec, after[k]) && FindRow(after, after[k].res, codec) == k
    {
      MoreIsAsked(specs, spec, codec, after[k]);
      if k < |mid| {
        assert Asked(specs, codec, mid[k]);
        OtherSearchStays(mid, after, v, mid[k].res, codec);
      } else {
        FindRowIs(after, spec.res, codec, k);
      }
    }
  }

  lemma StillStarted(before: seq<Variant>, mid: seq<Variant>, after: seq<Variant>, spec: Spec, codec: string, drm: bool,
                     v: Variant)
    requires StartedRow(before, mid, spec, codec, drm) && v.codec == codec && v.res != spec.res
    requires Upserted(mid, after, v)
    ensures StartedRow(before, after, spec, codec, drm)
  {
    OtherSearchStays(mid, after, v, spec.res, codec);
  }

  lemma OneMoreRow(before: seq<Variant>, mid: seq<Variant>, after: seq<Variant>, specs: seq<Spec>, spec: Spec,
                   codec: string, drm: bool)
    requires RowsStarted(before, mid, specs, codec, drm) && forall x :: x in specs ==> x.res != spec.res
    requires Upserted(mid, after, NewVariant(spec, codec, drm))
    ensures RowsStarted(before, after, specs + [spec], codec, drm)
  {
    OthersStayAgain(before, mid, after, specs, spec, codec, drm);
    NewRowStarted(before, mid, after, specs, spec, codec, drm);
    forall i | 0 <= i < |specs| ensures StartedRow(before, after, specs[i], codec, drm) {
      assert specs[i] in specs;
      StillStarted(before, mid, after, specs[i], codec, drm, NewVariant(spec, codec, drm));
    }
  }

  // ---- The tasks and their messages ----

  /** Task k is queued for resolution k and carries `drm`; no other task changes. */
  predicate TasksStarted(before: map<string, Task>, after: map<string, Task>, video: string, specs: seq<Spec>,
                         drm: Option<DrmParams>, ids: seq<string>)
    requires |ids| == |specs|
  {
    && (forall k :: 0 <= k < |ids| ==>
          ids[k] in after && after[ids[k]] == Task(video, TranscodeParams(specs[k].res, drm), Queued, 0, NoResult))
    && (forall t :: t in after ==> t in ids || t in before)
    && (forall t :: t in before && t !in ids ==> t in after && after[t] == before[t])
  }

  /** One undelivered message for each task, in order, behind the old ones. */
  predicate MessagesAdded(before: seq<Message>, after: seq<Message>, video: string, specs: seq<Spec>,
                          drm: Option<DrmParams>, ids: seq<string>)
    requires |ids| == |specs|
  {
    && |after| == |before| + |ids| && after[..|before|] == before
    && forall k :: |before| <= k < |after| ==>
         after[k] == Message(ids[k - |before|], video, TranscodeParams(specs[k - |before|].res, drm), Undelivered)
  }

  predicate WorkStarted(s: State, s': State, video: string, specs: seq<Spec>, codec: string, drm: Option<DrmParams>,
                        ids: seq<string>)
    requires |ids| == |specs|
  {
    && video in s.videos && video in s'.videos
    && RowsStarted(s.videos[video].variants, s'.videos[video].variants, specs, codec, drm.Some?)
    && TasksStarted(s.tasks, s'.tasks, video, specs, drm, ids)
    && MessagesAdded(s.messages, s'.messages, video, specs, drm, ids)
  }

  lemma OneMoreQueued(before: map<string, Task>, mid: map<string, Task>, video: string, specs: seq<Spec>, spec: Spec,
                      drm: Option<DrmParams>, ids: seq<string>, t: string)
    requires |ids| == |specs| && TasksStarted(before, mid, video, specs, drm, ids) && t !in ids
    ensures TasksStarted(before, mid[t := Task(video, TranscodeParams(spec.res, drm), Queued, 0, NoResult)], video,
                         specs + [spec], drm, ids + [t])
  {}

  lemma OneMoreMessage(before: seq<Message>, mid: seq<Message>, video: string, specs: seq<Spec>, spec: Spec,
                       drm: Option<DrmParams>, ids: seq<string>, t: string)
    requires |ids| == |specs| && MessagesAdded(before, mid, video, specs, drm, ids)
    ensures MessagesAdded(before, mid + [Message(t, video, TranscodeParams(spec.res, drm), Undelivered)], video,
                          specs + [spec], drm, ids + [t])
  {}

  lemma OneMoreTask(s: State, mid: State, video: string, specs: seq<Spec>, spec: Spec, codec: string,
                    drm: Option<DrmParams>, ids: seq<string>, t: string)
    requires |ids| == |specs| && WorkStarted(s, mid, video, specs, codec, drm, ids) && t !in ids
    requires forall x :: x in specs ==> x.res != spec.res
    ensures WorkStarted(s, AddTranscode(mid, video, spec, codec, drm, t), video, specs + [spec], codec, drm, ids + [t])
  {
    var s' := AddTranscode(mid, video, spec, codec, drm, t);
    CreateOrUpdateRows(mid.videos[video].variants, NewVariant(spec, codec, drm.Some?));
    OneMoreRow(s.videos[video].variants, mid.videos[video].variants, s'.videos[video].variants, specs, spec, codec,
               drm.Some?);
    OneMoreQueued(s.tasks, mid.tasks, video, specs, spec, drm, ids, t);
    OneMoreMessage(s.messages, mid.messages, video, specs, spec, drm, ids, t);
  }

  lemma NothingStarted(s: State, video: string, codec: string, drm: Option<DrmParams>)
    requires video in s.videos
    ensures WorkStarted(s, s, video, [], codec, drm, [])
  {}

  predicate DistinctIds(ids: seq<string>) {
    forall i, j :: 0 <= i < j < |ids| ==> ids[i] != ids[j]
  }

  lemma LastIsDistinct(specs: seq<Spec>, ids: seq<string>)
    requires specs != [] && |ids| == |specs| && DistinctResolutions(specs) && DistinctIds(ids)
    ensures var n := |specs| - 1;
            && DistinctResolutions(specs[..n]) && DistinctIds(ids[..n])
            && (forall x :: x in specs[..n] ==> x.res != specs[n].res) && ids[n] !in ids[..n]
            && specs[..n] + [specs[n]] == specs && ids[..n] + [ids[n]] == ids
  {}

  lemma {:induction false} AddTranscodesStarts(s: State, video: string, specs: seq<Spec>, codec: string,
                                               drm: Option<DrmParams>, ids: seq<string>)
    requires video in s.videos && |ids| == |specs| && DistinctResolutions(specs) && DistinctIds(ids)
    ensures WorkStarted(s, AddTranscodes(s, video, specs, codec, drm, ids), video, specs, codec, drm, ids)
    decreases |specs|
  {
    if specs == [] {
      assert ids == [];
      NothingStarted(s, video, codec, drm);
    } else {
      var n := |specs| - 1;
      LastIsDistinct(specs, ids);
      AddTranscodesStarts(s, video, specs[..n], codec, drm, ids[..n]);
      OneMoreTask(s, AddTranscodes(s, video, specs[..n], codec, drm, ids[..n]), video, specs[..n], specs[n], codec, drm,
                  ids[..n], ids[n]);
    }
  }

  // ---- The start ----

  /** A key is always found after it has been ensured. */
  lemma EnsuredKeyIsFound(s: State, video: string, base: string, rnd: Material)
    ensures var keys := EnsureKey(s, video, base, rnd).keys; KeyIndex(keys, video) < |keys|
  {
    var i, keys := KeyIndex(s.keys, video), EnsureKey(s, video, base, rnd).keys;
    if i < |s.keys| {
      assert keys[i].video == video;
    } else {
      assert keys[|s.keys|].video == video;
    }
  }

  lemma PreparedKey(s: State, video: string, globalDrm: bool, base: string, rnd: Material)
    requires video in s.videos
    ensures var s1 := PrepareTranscode(s, video, globalDrm, base, rnd);
            var on := s.videos[video].hasDRM || globalDrm;
            TaskKey(s1, video, on).Some? <==> on
  {
    EnsuredKeyIsFound(s, video, base, rnd);
  }

  /** Starting a transcode for distinct resolutions: every task carries a key exactly when DRM is on for the video or
      globally, every resolution has its task, its message and a processing row of the codec asked for, h264 when
      none was, and nothing else changes but the video's status and DRM flag and the keys. */
  lemma StartLeaves(s: State, step: Step) returns (drm: Option<DrmParams>)
    requires step.Start? && Enabled(s, step) && step.video in s.videos && DistinctResolutions(step.specs)
    ensures var s', codec := Apply(s, step), if step.codec == "" then "h264" else step.codec;
            var row, on := s.videos[step.video], s.videos[step.video].hasDRM || step.globalDrm;
            && WorkStarted(s, s', step.video, step.specs, codec, drm, step.ids) && (drm.Some? <==> on)
            && s'.videos[step.video] == row.(status := VideoStatus.Processing, hasDRM := on,
                                             variants := s'.videos[step.video].variants)
            && s'.videos.Keys == s.videos.Keys && s'.objects == s.objects
            && (forall v :: v in s.videos && v != step.video ==> s'.videos[v] == s.videos[v])
  {
    var video := step.video;
    var s1 := PrepareTranscode(s, video, step.globalDrm, step.base, step.rnd);
    drm := TaskKey(s1, video, s.videos[video].hasDRM || step.globalDrm);
    PrepareFrame(s, video, step.globalDrm, step.base, step.rnd);
    PreparedKey(s, video, step.globalDrm, step.base, step.rnd);
    AddTranscodesStarts(s1, video, step.specs, CodecOr(step.codec), drm, step.ids);
    AddTranscodesFrame(s1, video, step.specs, CodecOr(step.codec), drm, step.ids);
  }

  /** Asking for thumbnails queues one task with that count and width and the height of a 16:9 frame, rounded toward
      zero, and changes no row, object or key. */
  lemma ThumbnailTaskLeaves(s: State, step: Step) returns (height: int)
    requires step.GenerateThumbnails? && Enabled(s, step) && step.video in s.videos
    ensures var s', params := Apply(s, step), ThumbnailParams(step.count, step.width, height);
            && (step.width >= 0 ==> 16 * height <= 9 * step.width < 16 * (height + 1))
            && (step.width < 0 ==> 16 * (height - 1) < 9 * step.width <= 16 * height)
            && s'.tasks == s.tasks[step.id := Task(step.video, params, Queued, 0, NoResult)]
            && s'.messages == s.messages + [Message(step.id, step.video, params, Undelivered)]
            && (s'.videos, s'.objects, s'.keys) == (s.videos, s.objects, s.keys)
  {
    height := HeightFor(step.width);
  }
}
