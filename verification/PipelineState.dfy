/** The state the API server and the workers share, and the effect of each handler and
    worker action on it. One identifier stands for a video's row id and its UUID. */
module PipelineState {
  import opened Basics
  import opened Keys
  import opened Playlist
  import opened DrmKeys

  // ---- Rows ----

  datatype VideoStatus = Draft | Uploaded | Processing | Ready | Error | Archived

  datatype VariantStatus = Pending | Processing | Ready | Error

  datatype TaskStatus = Pending | Queued | Processing | Completed | Failed | Cancelled

  datatype Variant = Variant(res: string, codec: string, width: nat, height: nat, bitrate: nat,
                             drm: bool, status: VariantStatus)

  datatype Metadata = Metadata(duration: Option<real>, width: Option<int>, height: Option<int>, codec: string,
                               fps: Option<real>, fileSize: Option<int>, hasAudio: bool)

  datatype Thumbnail = Thumbnail(key: Key, width: int, height: int, timestamp: real, isDefault: bool, sortOrder: nat)

  datatype Video = Video(status: VideoStatus, masterKey: Option<Key>, hasDRM: bool, original: Key,
                         meta: Metadata, variants: seq<Variant>, thumbs: seq<Thumbnail>)

  datatype Params =
    | TranscodeParams(res: string, drm: Option<DrmParams>)
    | ProbeParams
    | ThumbnailParams(count: int, width: int, height: int)

  datatype TaskResult =
    | NoResult
    | Unreadable
    | TranscodeResult(res: string)
    | ProbeResult(duration: real, width: int, height: int, codec: string, fps: real, fileSize: int, hasAudio: bool)
    | ThumbnailResult(keys: seq<Key>, count: int)

  datatype Task = Task(video: string, params: Params, status: TaskStatus, attempts: nat, result: TaskResult)

  /** Where a published message is: still in the stream, with a worker (which may have uploaded its
      playlist already), reported to the API, or acknowledged. */
  datatype Phase = Undelivered | Delivered(uploaded: bool) | Reported | Acked

  datatype Message = Message(task: string, video: string, params: Params, phase: Phase) {
    predicate Unreported() {
      phase.Undelivered? || phase.Delivered?
    }
  }

  datatype State = State(videos: map<string, Video>, tasks: map<string, Task>, messages: seq<Message>,
                         objects: map<Key, string>, keys: seq<DrmKey>)

  const EMPTY_STATE := State(map[], map[], [], map[], [])

  // ---- Variant rows ----

  /** FirstOrCreate with Assign: only non-zero fields of the new record overwrite an existing row. */
  function Assign(row: Variant, v: Variant): Variant {
    row.(width := if v.width != 0 then v.width else row.width,
         height := if v.height != 0 then v.height else row.height,
         bitrate := if v.bitrate != 0 then v.bitrate else row.bitrate,
         drm := row.drm || v.drm,
         status := v.status)
  }

  function CreateOrUpdate(rows: seq<Variant>, v: Variant): seq<Variant> {
    if rows == [] then [v]
    else if rows[0].res == v.res && rows[0].codec == v.codec then [Assign(rows[0], v)] + rows[1..]
    else [rows[0]] + CreateOrUpdate(rows[1..], v)
  }

  /** The first row of that resolution still being processed becomes ready. */
  function MarkReady(rows: seq<Variant>, res: string): seq<Variant> {
    if rows == [] then []
    else if rows[0].res == res && rows[0].status.Processing? then
      [rows[0].(status := VariantStatus.Ready)] + rows[1..]
    else [rows[0]] + MarkReady(rows[1..], res)
  }

  function RemoveFirst(rows: seq<Variant>, res: string): seq<Variant> {
    if rows == [] then []
    else if rows[0].res == res then rows[1..]
    else [rows[0]] + RemoveFirst(rows[1..], res)
  }

  predicate HasResolution(rows: seq<Variant>, res: string) {
    exists v :: v in rows && v.res == res
  }

  function Info(v: Variant): VariantInfo {
    VariantInfo(v.res, v.bitrate * 1000, v.width, v.height, VariantUri(v.res))
  }

  function ReadyInfos(rows: seq<Variant>): seq<VariantInfo> {
    if rows == [] then []
    else
      var last := rows[|rows| - 1];
      ReadyInfos(rows[..|rows| - 1]) + if last.status.Ready? then [Info(last)] else []
  }

  // ---- Objects ----

  function DropVariants(objects: map<Key, string>, video: string): map<Key, string> {
    map k | k in objects && !(k.VariantFile? && k.video == video) :: objects[k]
  }

  function DropVariant(objects: map<Key, string>, video: string, res: string): map<Key, string> {
    map k | k in objects && !(k.VariantFile? && k.video == video && k.res == res) :: objects[k]
  }

  function DropThumbnails(objects: map<Key, string>, video: string): map<Key, string> {
    map k | k in objects && !(k.ThumbnailFile? && k.video == video) :: objects[k]
  }

  function DropVideo(objects: map<Key, string>, video: string): map<Key, string> {
    map k | k in objects && k.video != video :: objects[k]
  }

  function DropMaster(objects: map<Key, string>, row: Video): map<Key, string> {
    if row.masterKey.Some? then objects - {row.masterKey.value} else objects
  }

  // ---- Building the master playlist ----

  predicate IsPending(task: Task) {
    task.status.Pending? || task.status.Queued? || task.status.Processing?
  }

  predicate HasPending(tasks: map<string, Task>, video: string) {
    exists t :: t in tasks && tasks[t].video == video && IsPending(tasks[t])
  }

  function SetVideo(s: State, video: string, row: Video): State {
    s.(videos := s.videos[video := row])
  }

  /** The part of checkAndBuildMasterPlaylist after the pending count, on one video's row and the bucket. */
  function Built(video: string, row: Video, objects: map<Key, string>): (Video, map<Key, string>) {
    var infos := ReadyInfos(row.variants);
    if infos == [] then (row.(status := VideoStatus.Error), objects)
    else (row.(masterKey := Some(Master(video)), status := VideoStatus.Ready),
          objects[Master(video) := MasterText(infos)])
  }

  function CheckAndBuild(s: State, video: string): State {
    if HasPending(s.tasks, video) || video !in s.videos then s
    else
      var (row, objects) := Built(video, s.videos[video], s.objects);
      SetVideo(s, video, row).(objects := objects)
  }

  // ---- Task callbacks ----

  /** handleProbeResult on the row: positive values overwrite, a draft becomes uploaded. */
  function ApplyProbe(row: Video, r: TaskResult): Video {
    if !r.ProbeResult? then row
    else
      var m := row.meta;
      row.(meta := Metadata(if r.duration > 0.0 then Some(r.duration) else m.duration,
                            if r.width > 0 then Some(r.width) else m.width,
                            if r.height > 0 then Some(r.height) else m.height,
                            if r.codec != "" then r.codec else m.codec,
                            if r.fps > 0.0 then Some(r.fps) else m.fps,
                            if r.fileSize > 0 then Some(r.fileSize) else m.fileSize,
                            r.hasAudio),
           status := if row.status.Draft? then VideoStatus.Uploaded else row.status)
  }

  function Timestamp(duration: Option<real>, count: int, i: nat): real {
    if duration.Some? && duration.value > 0.0 && count > 0
    then duration.value * (i + 1) as real / (count + 1) as real
    else 0.0
  }

  /** The rows handleThumbnailResult creates for the first `n` keys of a result. */
  function ThumbnailRows(params: Params, duration: Option<real>, r: TaskResult, n: nat): (rows: seq<Thumbnail>)
    requires r.ThumbnailResult? && n <= |r.keys|
  {
    if n == 0 then []
    else ThumbnailRows(params, duration, r, n - 1)
         + [Thumbnail(r.keys[n - 1],
                      if params.ThumbnailParams? then params.width else 0,
                      if params.ThumbnailParams? then params.height else 0,
                      Timestamp(duration, r.count, n - 1), n - 1 == 0, n - 1)]
  }

  function ApplyThumbnails(row: Video, params: Params, r: TaskResult): Video {
    if !r.ThumbnailResult? then row
    else row.(thumbs := row.thumbs + ThumbnailRows(params, row.meta.duration, r, |r.keys|))
  }

  function TranscodeDone(s: State, video: string, r: TaskResult): State {
    if !r.TranscodeResult? || video !in s.videos then s
    else
      var row := s.videos[video];
      CheckAndBuild(SetVideo(s, video, row.(variants := MarkReady(row.variants, r.res))), video)
  }

  function CompleteTask(s: State, t: string, r: TaskResult): State {
    if t !in s.tasks then s
    else
      var task := s.tasks[t];
      var s1 := s.(tasks := s.tasks[t := task.(status := Completed, result := r)]);
      if task.params.TranscodeParams? then TranscodeDone(s1, task.video, r)
      else if task.video !in s1.videos then s1
      else if task.params.ProbeParams? then SetVideo(s1, task.video, ApplyProbe(s1.videos[task.video], r))
      else SetVideo(s1, task.video, ApplyThumbnails(s1.videos[task.video], task.params, r))
  }

  function SetTaskStatus(s: State, t: string, status: TaskStatus): State {
    if t !in s.tasks then s else s.(tasks := s.tasks[t := s.tasks[t].(status := status)])
  }

  // ---- Queueing ----

  function Publish(s: State, t: string, video: string, params: Params): State {
    s.(messages := s.messages + [Message(t, video, params, Undelivered)])
  }

  function Enqueue(s: State, t: string, video: string, params: Params): State {
    Publish(s.(tasks := s.tasks[t := Task(video, params, Queued, 0, NoResult)]), t, video, params)
  }

  function RetryTask(s: State, t: string): State {
    if t !in s.tasks || !s.tasks[t].status.Failed? then s
    else
      var task := s.tasks[t];
      Publish(s.(tasks := s.tasks[t := task.(status := Queued, attempts := task.attempts + 1)]),
              t, task.video, task.params)
  }

  // ---- DRM keys ----

  function MarkDRM(s: State, video: string): State {
    if video in s.videos then SetVideo(s, video, s.videos[video].(hasDRM := true)) else s
  }

  /** GenerateKeys: an existing row is repaired and kept, otherwise one is created and the video marked. */
  function EnsureKey(s: State, video: string, base: string, rnd: Material): State {
    var i := KeyIndex(s.keys, video);
    if i < |s.keys| then s.(keys := s.keys[i := Repair(s.keys[i], base, rnd)])
    else MarkDRM(s.(keys := s.keys + [NewKey(video, base, rnd)]), video)
  }

  function RegenerateKeys(s: State, video: string, base: string, rnd: Material): State {
    if video !in s.videos then s
    else EnsureKey(s.(keys := DropKeys(s.keys, video)), video, base, rnd)
  }

  // ---- Starting tasks ----

  datatype Spec = Spec(res: string, width: nat, height: nat, bitrate: nat)

  function NewVariant(spec: Spec, codec: string, drm: bool): Variant {
    Variant(spec.res, codec, spec.width, spec.height, spec.bitrate, drm, VariantStatus.Processing)
  }

  function AddTranscode(s: State, video: string, spec: Spec, codec: string, drm: Option<DrmParams>, t: string): State
    requires video in s.videos
  {
    var row := s.videos[video];
    var s1 := SetVideo(s, video, row.(variants := CreateOrUpdate(row.variants, NewVariant(spec, codec, drm.Some?))));
    Enqueue(s1, t, video, TranscodeParams(spec.res, drm))
  }

  function AddTranscodes(s: State, video: string, specs: seq<Spec>, codec: string, drm: Option<DrmParams>,
                         ids: seq<string>): (r: State)
    requires video in s.videos && |ids| == |specs|
    ensures r.videos.Keys == s.videos.Keys
  {
    if specs == [] then s
    else
      var n := |specs| - 1;
      AddTranscode(AddTranscodes(s, video, specs[..n], codec, drm, ids[..n]), video, specs[n], codec, drm, ids[n])
  }

  function SetStatus(s: State, video: string, status: VideoStatus): State {
    if video in s.videos then SetVideo(s, video, s.videos[video].(status := status)) else s
  }

  function CodecOr(codec: string): string {
    if codec == "" then "h264" else codec
  }

  /** What StartTranscode does before it creates tasks. */
  function PrepareTranscode(s: State, video: string, globalDrm: bool, base: string, rnd: Material): (r: State)
    requires video in s.videos
    ensures r.videos.Keys == s.videos.Keys
  {
    SetStatus(if s.videos[video].hasDRM || globalDrm then MarkDRM(EnsureKey(s, video, base, rnd), video) else s,
              video, VideoStatus.Processing)
  }

  function TaskKey(s: State, video: string, drm: bool): Option<DrmParams> {
    if drm && KeyIndex(s.keys, video) < |s.keys| then Some(ParamsOf(s.keys[KeyIndex(s.keys, video)])) else None
  }

  function StartTranscode(s: State, video: string, specs: seq<Spec>, codec: string, globalDrm: bool, base: string,
                          ids: seq<string>, rnd: Material): State
    requires |ids| == |specs|
  {
    if video !in s.videos then s
    else
      var s1 := PrepareTranscode(s, video, globalDrm, base, rnd);
      AddTranscodes(s1, video, specs, CodecOr(codec),
                    TaskKey(s1, video, s.videos[video].hasDRM || globalDrm), ids)
  }

  // ---- Upload and deletion ----

  predicate HasOutput(status: VideoStatus) {
    status.Ready? || status.Processing? || status.Error?
  }

  function Withdrawn(status: VideoStatus): VideoStatus {
    if HasOutput(status) then VideoStatus.Uploaded else status
  }

  function UploadReset(s: State, video: string, key: Key): State {
    if video !in s.videos then s
    else
      var row := s.videos[video];
      var kept := if row.original != key then s.objects - {row.original} else s.objects;
      if HasOutput(row.status) then
        SetVideo(s, video, row.(variants := [], masterKey := None, thumbs := [], original := key,
                                status := VideoStatus.Uploaded))
        .(objects := DropThumbnails(DropMaster(DropVariants(kept, video), row), video))
      else
        SetVideo(s, video, row.(original := key, status := VideoStatus.Uploaded)).(objects := kept)
  }

  /** CompleteUpload and the probe task its handler starts; S3 has assembled the object under `key`. */
  function CompleteUpload(s: State, video: string, key: Key, body: string, probe: string): State {
    var s1 := UploadReset(s.(objects := s.objects[key := body]), video, key);
    if video !in s.videos then s1 else Enqueue(s1, probe, video, ProbeParams)
  }

  function DeleteVariants(s: State, video: string): State {
    if video !in s.videos then s
    else
      var row := s.videos[video];
      SetVideo(s, video, row.(variants := [], masterKey := None, status := Withdrawn(row.status)))
      .(objects := DropMaster(DropVariants(s.objects, video), row))
  }

  function DeleteVariant(s: State, video: string, res: string): State {
    if video !in s.videos || !HasResolution(s.videos[video].variants, res) then s
    else
      var row := s.videos[video];
      var rows := RemoveFirst(row.variants, res);
      var objects := DropVariant(s.objects, video, res);
      if ReadyInfos(rows) == [] then
        SetVideo(s, video, row.(variants := rows, masterKey := None,
                                status := if row.status.Ready? then VideoStatus.Uploaded else row.status))
        .(objects := DropMaster(objects, row))
      else
        SetVideo(s, video, row.(variants := rows)).(objects := objects[Master(video) := MasterText(ReadyInfos(rows))])
  }

  function ToggleDRM(s: State, video: string, on: bool, base: string, rnd: Material): State {
    if video !in s.videos || s.videos[video].hasDRM == on then s
    else
      var row := s.videos[video];
      var s1 := s.(objects := DropMaster(DropVariants(s.objects, video), row));
      var s2 := if on then EnsureKey(s1, video, base, rnd) else s1.(keys := DropKeys(s1.keys, video));
      SetVideo(s2, video, row.(variants := [], masterKey := None, hasDRM := on, status := Withdrawn(row.status)))
  }

  function DeleteVideo(s: State, video: string): State {
    if video !in s.videos then s
    else State(s.videos - {video},
               map t | t in s.tasks && s.tasks[t].video != video :: s.tasks[t],
               s.messages,
               DropVideo(s.objects, video),
               DropKeys(s.keys, video))
  }

  // ---- Worker actions ----

  function SetPhase(s: State, i: nat, phase: Phase): State
    requires i < |s.messages|
  {
    s.(messages := s.messages[i := s.messages[i].(phase := phase)])
  }

  function UploadFile(s: State, i: nat, file: string, body: string): State
    requires i < |s.messages|
  {
    var m := s.messages[i];
    match m.params
    case TranscodeParams(res, _) =>
      SetPhase(s, i, Delivered(file == PLAYLIST || (m.phase.Delivered? && m.phase.uploaded)))
      .(objects := s.objects[VariantFile(m.video, res, file) := body])
    case ThumbnailParams(_, _, _) => s.(objects := s.objects[ThumbnailFile(m.video, file) := body])
    case ProbeParams => s
  }
}
