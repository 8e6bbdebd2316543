/** The handlers of transcode_service.go, drm_service.go and upload_service.go as they are written: they read rows,
    change fields in place and save them. Each has exactly the effect the step system gives it. */
module Service {
  import opened Basics
  import opened Keys
  import opened Playlist
  import opened DrmKeys
  import opened PipelineState
  import opened Reprocess

  lemma MarkReadyFrom(rows: seq<Variant>, res: string, i: nat)
    requires i < |rows|
    ensures rows[..i] + MarkReady(rows[i..], res)
            == if rows[i].res == res && rows[i].status.Processing?
               then rows[i := rows[i].(status := VariantStatus.Ready)]
               else rows[..i + 1] + MarkReady(rows[i + 1..], res)
  {}

  lemma AddedKey(keys: seq<DrmKey>, video: string, key: DrmKey)
    requires KeyIndex(keys, video) == |keys| && key.video == video
    ensures KeyIndex(keys + [key], video) == |keys|
  {
    var longer := keys + [key];
    assert longer[|keys|].video == video;
    assert forall j :: 0 <= j < |keys| ==> longer[j] == keys[j];
  }

  lemma ReplacedKey(keys: seq<DrmKey>, video: string, key: DrmKey)
    requires KeyIndex(keys, video) < |keys| && key.video == video
    ensures KeyIndex(keys[KeyIndex(keys, video) := key], video) == KeyIndex(keys, video)
    ensures keys[KeyIndex(keys, video)] == key ==> keys[KeyIndex(keys, video) := key] == keys
  {
    var i := KeyIndex(keys, video);
    var j := KeyIndex(keys[i := key], video);
    assert j >= i;
    assert keys[i := key][i].video == video;
  }

  lemma OneMoreTranscode(s: State, video: string, specs: seq<Spec>, i: nat, codec: string, drm: Option<DrmParams>,
                         ids: seq<string>)
    requires video in s.videos && i < |specs| == |ids|
    ensures AddTranscodes(s, video, specs[..i + 1], codec, drm, ids[..i + 1])
            == AddTranscode(AddTranscodes(s, video, specs[..i], codec, drm, ids[..i]),
                            video, specs[i], codec, drm, ids[i])
  {
    assert specs[..i + 1][..i] == specs[..i] && ids[..i + 1][..i] == ids[..i];
  }

  lemma SameRow(s: State, video: string)
    requires video in s.videos
    ensures SetVideo(s, video, s.videos[video]) == s && s.videos[video := s.videos[video]] == s.videos
  {}

  function ThumbnailsHandled(s: State, task: Task, r: TaskResult): State {
    if task.video in s.videos && r.ThumbnailResult? then
      SetVideo(s, task.video, ApplyThumbnails(s.videos[task.video], task.params, r))
    else s
  }

  function ProbeHandled(s: State, task: Task, r: TaskResult): State {
    if task.video in s.videos && r.ProbeResult? then SetVideo(s, task.video, ApplyProbe(s.videos[task.video], r)) else s
  }

  class Api {
    var videos: map<string, Video>
    var tasks: map<string, Task>
    var messages: seq<Message>
    var objects: map<Key, string>
    var keys: seq<DrmKey>

    constructor ()
      ensures Now() == EMPTY_STATE
    {
      videos, tasks, messages, objects, keys := map[], map[], [], map[], [];
    }

    function Now(): State
      reads this
    {
      State(videos, tasks, messages, objects, keys)
    }

    // ---- Results ----

    method HandleProbeResult(task: Task, r: TaskResult)
      modifies this`videos
      ensures Now() == ProbeHandled(old(Now()), task, r)
    {
      if !r.ProbeResult? || task.video !in videos {
        return;
      }
      var video := videos[task.video];
      var meta := FillMetadata(video.meta, r);
      video := video.(meta := meta);
      if video.status.Draft? {
        video := video.(status := VideoStatus.Uploaded);
      }
      videos := videos[task.video := video];
    }

    method FillMetadata(meta: Metadata, r: TaskResult) returns (filled: Metadata)
      requires r.ProbeResult?
      ensures forall row: Video :: row.meta == meta ==> filled == ApplyProbe(row, r).meta
    {
      var duration, width, height := meta.duration, meta.width, meta.height;
      var codec, fps, fileSize := meta.codec, meta.fps, meta.fileSize;
      if r.duration > 0.0 {
        duration := Some(r.duration);
      }
      if r.width > 0 {
        width := Some(r.width);
      }
      if r.height > 0 {
        height := Some(r.height);
      }
      if r.codec != "" {
        codec := r.codec;
      }
      if r.fps > 0.0 {
        fps := Some(r.fps);
      }
      if r.fileSize > 0 {
        fileSize := Some(r.fileSize);
      }
      filled := Metadata(duration, width, height, codec, fps, fileSize, r.hasAudio);
    }

    method HandleThumbnailResult(task: Task, r: TaskResult)
      modifies this`videos
      ensures Now() == ThumbnailsHandled(old(Now()), task, r)
    {
      if !r.ThumbnailResult? || task.video !in videos {
        return;
      }
      var row := videos[task.video];
      var duration := if row.meta.duration.Some? then row.meta.duration.value else 0.0;
      var width := if task.params.ThumbnailParams? then task.params.width else 0;
      var height := if task.params.ThumbnailParams? then task.params.height else 0;
      var created: seq<Thumbnail> := [];
      for i := 0 to |r.keys|
        invariant created == ThumbnailRows(task.params, row.meta.duration, r, i)
      {
        var timestamp := 0.0;
        if duration > 0.0 && r.count > 0 {
          timestamp := duration * (i + 1) as real / (r.count + 1) as real;
        }
        assert timestamp == Timestamp(row.meta.duration, r.count, i);
        created := created + [Thumbnail(r.keys[i], width, height, timestamp, i == 0, i)];
      }
      videos := videos[task.video := row.(thumbs := row.thumbs + created)];
    }

    method HandleTranscodeResult(task: Task, r: TaskResult)
      modifies this
      ensures Now() == TranscodeDone(old(Now()), task.video, r)
    {
      if !r.TranscodeResult? || task.video !in videos {
        return;
      }
      var row := videos[task.video];
      var variants := MarkFirstReady(row.variants, r.res);
      videos := videos[task.video := row.(variants := variants)];
      CheckAndBuildMasterPlaylist(task.video);
    }

    method MarkFirstReady(rows: seq<Variant>, res: string) returns (variants: seq<Variant>)
      ensures variants == MarkReady(rows, res)
    {
      variants := rows;
      for i := 0 to |rows|
        invariant variants == rows
        invariant MarkReady(rows, res) == rows[..i] + MarkReady(rows[i..], res)
      {
        MarkReadyFrom(rows, res, i);
        if rows[i].res == res && rows[i].status.Processing? {
          variants := variants[i := variants[i].(status := VariantStatus.Ready)];
          return;
        }
      }
    }

    /** The loops that collect the ready variants and turn them into playlist entries. */
    method ListReady(variants: seq<Variant>) returns (infos: seq<VariantInfo>)
      ensures infos == ReadyInfos(variants)
    {
      infos := [];
      for i := 0 to |variants|
        invariant infos == ReadyInfos(variants[..i])
      {
        var v := variants[i];
        assert variants[..i + 1][..i] == variants[..i];
        if v.status.Ready? {
          infos := infos + [VariantInfo(v.res, v.bitrate * 1000, v.width, v.height, VariantUri(v.res))];
        }
      }
      assert variants[..|variants|] == variants;
    }

    method CheckAndBuildMasterPlaylist(video: string)
      modifies this
      ensures Now() == CheckAndBuild(old(Now()), video)
    {
      if HasPending(tasks, video) || video !in videos {
        return;
      }
      var infos := ListReady(videos[video].variants);
      if infos == [] {
        videos := videos[video := videos[video].(status := VideoStatus.Error)];
        return;
      }
      var content := GenerateMasterPlaylist(infos);
      objects := objects[Master(video) := content];
      var row := videos[video];
      row := row.(masterKey := Some(Master(video)));
      row := row.(status := VideoStatus.Ready);
      videos := videos[video := row];
    }

    method CompleteTask(t: string, r: TaskResult) returns (ok: bool)
      modifies this
      ensures ok <==> t in old(tasks)
      ensures Now() == PipelineState.CompleteTask(old(Now()), t, r)
    {
      if t !in tasks {
        return false;
      }
      var task := tasks[t];
      tasks := tasks[t := task.(status := Completed, result := r)];
      if task.video in videos {
        SameRow(Now(), task.video);
      }
      match task.params {
        case ProbeParams => HandleProbeResult(task, r);
        case ThumbnailParams(_, _, _) => HandleThumbnailResult(task, r);
        case TranscodeParams(_, _) => HandleTranscodeResult(task, r);
      }
      ok := true;
    }

    method FailTask(t: string)
      modifies this`tasks
      ensures Now() == SetTaskStatus(old(Now()), t, Failed)
    {
      if t in tasks {
        tasks := tasks[t := tasks[t].(status := Failed)];
      }
    }

    method CancelTask(t: string)
      modifies this`tasks
      ensures Now() == SetTaskStatus(old(Now()), t, Cancelled)
    {
      if t in tasks {
        tasks := tasks[t := tasks[t].(status := Cancelled)];
      }
    }

    method RetryTask(t: string) returns (ok: bool)
      modifies this
      ensures ok <==> t in old(tasks) && old(tasks)[t].status.Failed?
      ensures Now() == PipelineState.RetryTask(old(Now()), t)
    {
      if t !in tasks || !tasks[t].status.Failed? {
        return false;
      }
      tasks := tasks[t := tasks[t].(status := Queued)];
      tasks := tasks[t := tasks[t].(attempts := tasks[t].attempts + 1)];
      messages := messages + [Message(t, tasks[t].video, tasks[t].params, Undelivered)];
      ok := true;
    }

    // ---- Starting tasks ----

    /** The probe and thumbnail tasks, which touch no variant. */
    method StartTask(t: string, video: string, params: Params)
      modifies this
      ensures Now() == if video in old(videos) then Enqueue(old(Now()), t, video, params) else old(Now())
    {
      if video !in videos {
        return;
      }
      tasks := tasks[t := Task(video, params, Queued, 0, NoResult)];
      messages := messages + [Message(t, video, params, Undelivered)];
    }

    method StartTranscode(video: string, specs: seq<Spec>, codec: string, globalDrm: bool, base: string,
                          ids: seq<string>, rnd: Material) returns (ok: bool)
      requires |ids| == |specs|
      modifies this
      ensures ok <==> video in old(videos)
      ensures Now() == PipelineState.StartTranscode(old(Now()), video, specs, codec, globalDrm, base, ids, rnd)
    {
      if video !in videos {
        return false;
      }
      var hasDRM := videos[video].hasDRM || globalDrm;
      var drm := PrepareDRM(video, hasDRM, base, rnd);
      videos := videos[video := videos[video].(status := VideoStatus.Processing)];
      ghost var prepared := Now();
      for i := 0 to |specs|
        invariant video in videos
        invariant Now() == AddTranscodes(prepared, video, specs[..i], CodecOr(codec), drm, ids[..i])
      {
        OneMoreTranscode(prepared, video, specs, i, CodecOr(codec), drm, ids);
        QueueTranscode(video, specs[i], if codec == "" then "h264" else codec, drm, ids[i]);
      }
      assert specs[..|specs|] == specs && ids[..|ids|] == ids;
      ok := true;
    }

    /** One turn of the loop over resolutions: a task row, a variant row and a message. */
    method QueueTranscode(video: string, spec: Spec, codec: string, drm: Option<DrmParams>, t: string)
      requires video in videos
      modifies this
      ensures Now() == AddTranscode(old(Now()), video, spec, codec, drm, t)
      ensures videos.Keys == old(videos).Keys
    {
      var params := TranscodeParams(spec.res, drm);
      tasks := tasks[t := Task(video, params, Queued, 0, NoResult)];
      var variant := Variant(spec.res, codec, spec.width, spec.height, spec.bitrate, drm.Some?, VariantStatus.Processing);
      var row := videos[video];
      videos := videos[video := row.(variants := CreateOrUpdate(row.variants, variant))];
      messages := messages + [Message(t, video, params, Undelivered)];
    }

    /** The key handed to every task of one StartTranscode, and the flag that goes with it. */
    method PrepareDRM(video: string, hasDRM: bool, base: string, rnd: Material) returns (drm: Option<DrmParams>)
      requires video in videos
      modifies this
      ensures Now() == if hasDRM then MarkDRM(EnsureKey(old(Now()), video, base, rnd), video) else old(Now())
      ensures drm == TaskKey(Now(), video, hasDRM)
    {
      drm := None;
      if hasDRM {
        var key := GenerateKeys(video, base, rnd);
        if !videos[video].hasDRM {
          videos := videos[video := videos[video].(hasDRM := true)];
        } else {
          SameRow(Now(), video);
        }
        var iv := Pad(key.iv);
        drm := Some(DrmParams(key.keyId, key.contentKey, iv, key.keyUrl));
      }
    }

    // ---- DRM keys ----

    method GenerateKeys(video: string, base: string, rnd: Material) returns (key: DrmKey)
      modifies this
      ensures Now() == EnsureKey(old(Now()), video, base, rnd)
      ensures KeyIndex(keys, video) < |keys| && key == keys[KeyIndex(keys, video)]
      ensures videos.Keys == old(videos).Keys
    {
      var i := KeyIndex(keys, video);
      if i < |keys| {
        key := keys[i];
        var dirty := false;
        if key.keyUrl == "" || Contains(key.keyUrl, "/clearkey/") {
          key := key.(keyUrl := KeyUrl(base, key.keyId));
          dirty := true;
        }
        if |key.iv| != 32 {
          key := key.(iv := rnd.iv);
          dirty := true;
        }
        ReplacedKey(keys, video, key);
        if dirty {
          keys := keys[i := key];
        }
        return;
      }
      key := DrmKey(video, rnd.keyId, rnd.contentKey, rnd.iv, base + "/api/v1/drm/key/" + rnd.keyId);
      AddedKey(keys, video, key);
      keys := keys + [key];
      if video in videos {
        videos := videos[video := videos[video].(hasDRM := true)];
      }
    }

    method RegenerateKeys(video: string, base: string, rnd: Material) returns (ok: bool)
      modifies this
      ensures ok <==> video in old(videos)
      ensures Now() == PipelineState.RegenerateKeys(old(Now()), video, base, rnd)
    {
      if video !in videos {
        return false;
      }
      keys := DropKeys(keys, video);
      var _ := GenerateKeys(video, base, rnd);
      ok := true;
    }

    // ---- Deletion and upload ----

    method DeleteVariants(video: string) returns (ok: bool)
      modifies this
      ensures ok <==> video in old(videos)
      ensures Now() == PipelineState.DeleteVariants(old(Now()), video)
    {
      if video !in videos {
        return false;
      }
      var row := videos[video];
      objects := DropVariants(objects, video);
      if row.masterKey.Some? {
        objects := objects - {row.masterKey.value};
      }
      row := row.(variants := [], masterKey := None);
      if row.status.Ready? || row.status.Processing? || row.status.Error? {
        row := row.(status := VideoStatus.Uploaded);
      }
      videos := videos[video := row];
      ok := true;
    }

    method DeleteVariant(video: string, res: string) returns (ok: bool)
      modifies this
      ensures ok <==> video in old(videos) && HasResolution(old(videos)[video].variants, res)
      ensures Now() == PipelineState.DeleteVariant(old(Now()), video, res)
    {
      if video !in videos || !HasResolution(videos[video].variants, res) {
        return false;
      }
      var row := videos[video];
      objects := DropVariant(objects, video, res);
      row := row.(variants := RemoveFirst(row.variants, res));
      var infos := ListReady(row.variants);
      if infos == [] {
        if row.masterKey.Some? {
          objects := objects - {row.masterKey.value};
        }
        row := row.(masterKey := None);
        if row.status.Ready? {
          row := row.(status := VideoStatus.Uploaded);
        }
      } else {
        var content := GenerateMasterPlaylist(infos);
        objects := objects[Master(video) := content];
      }
      videos := videos[video := row];
      ok := true;
    }

    method ToggleDRM(video: string, on: bool, base: string, rnd: Material) returns (ok: bool)
      modifies this
      ensures ok <==> video in old(videos)
      ensures Now() == PipelineState.ToggleDRM(old(Now()), video, on, base, rnd)
    {
      if video !in videos {
        return false;
      }
      var row := videos[video];
      if row.hasDRM == on {
        return true;
      }
      objects := DropVariants(objects, video);
      if row.masterKey.Some? {
        objects := objects - {row.masterKey.value};
        row := row.(masterKey := None);
      }
      row := row.(variants := []);
      if on {
        var _ := GenerateKeys(video, base, rnd);
      } else {
        keys := DropKeys(keys, video);
      }
      row := row.(hasDRM := on);
      if row.status.Ready? || row.status.Processing? || row.status.Error? {
        row := row.(status := VideoStatus.Uploaded);
      }
      videos := videos[video := row];
      ok := true;
    }

    method DeleteVideo(video: string) returns (ok: bool)
      modifies this
      ensures ok <==> video in old(videos)
      ensures Now() == PipelineState.DeleteVideo(old(Now()), video)
    {
      if video !in videos {
        return false;
      }
      objects := DropVideo(objects, video);
      tasks := map t | t in tasks && tasks[t].video != video :: tasks[t];
      keys := DropKeys(keys, video);
      videos := videos - {video};
      ok := true;
    }

    /** CompleteUpload of the upload service; S3 has assembled the parts into the object under `key`. */
    method CompleteUpload(video: string, key: Key, body: string) returns (ok: bool)
      modifies this
      ensures ok <==> video in old(videos)
      ensures Now() == UploadReset(old(Now()).(objects := old(objects)[key := body]), video, key)
    {
      objects := objects[key := body];
      if video !in videos {
        return false;
      }
      var row := videos[video];
      if row.original != key {
        objects := objects - {row.original};
      }
      if row.status.Ready? || row.status.Processing? || row.status.Error? {
        objects := DropVariants(objects, video);
        if row.masterKey.Some? {
          objects := objects - {row.masterKey.value};
          row := row.(masterKey := None);
        }
        objects := DropThumbnails(objects, video);
        row := row.(thumbs := [], variants := []);
      }
      row := row.(original := key, status := VideoStatus.Uploaded);
      videos := videos[video := row];
      ok := true;
    }

    // ---- Start-up ----

    method FindCompletedWithResult(order: seq<string>, kind: Kind) returns (found: seq<Task>)
      ensures found == CompletedWithResult(tasks, order, kind)
    {
      found := [];
      for i := 0 to |order|
        invariant found == CompletedWithResult(tasks, order[..i], kind)
      {
        assert order[..i + 1][..i] == order[..i];
        if order[i] in tasks && IsCompleted(tasks[order[i]], kind) {
          found := found + [tasks[order[i]]];
        }
      }
      assert order[..|order|] == order;
    }

    /** `order` is the order of the task table. */
    method ReprocessPendingResults(order: seq<string>)
      modifies this`videos
      ensures videos == Reprocessed(old(videos), CompletedWithResult(tasks, order, OfProbe),
                                    CompletedWithResult(tasks, order, OfThumbnail))
    {
      var probes := FindCompletedWithResult(order, OfProbe);
      for i := 0 to |probes|
        invariant videos == ReplayProbes(old(videos), probes[..i])
      {
        var task := probes[i];
        assert probes[..i + 1][..i] == probes[..i];
        if task.video !in videos {
          continue;
        }
        if videos[task.video].meta.duration.Some? && videos[task.video].meta.width.Some? {
          continue;
        }
        SameRow(Now(), task.video);
        HandleProbeResult(task, task.result);
      }
      assert probes[..|probes|] == probes;
      ghost var probed := videos;
      var thumbnails := FindCompletedWithResult(order, OfThumbnail);
      for i := 0 to |thumbnails|
        invariant videos == ReplayAllThumbnails(probed, thumbnails[..i])
      {
        var task := thumbnails[i];
        assert thumbnails[..i + 1][..i] == thumbnails[..i];
        if task.video !in videos || |videos[task.video].thumbs| > 0 {
          continue;
        }
        SameRow(Now(), task.video);
        HandleThumbnailResult(task, task.result);
      }
      assert thumbnails[..|thumbnails|] == thumbnails;
    }
  }
}
