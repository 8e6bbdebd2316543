/** ReprocessPendingResults, run at every start of the server: replaying completed probe and thumbnail tasks. */
module Reprocess {
  import opened Basics
  import opened Keys
  import opened PipelineState

  type Videos = map<string, Video>

  // ---- The query ----

  datatype Kind = OfProbe | OfThumbnail

  predicate IsCompleted(task: Task, kind: Kind) {
    && task.status.Completed? && !task.result.NoResult?
    && (if kind.OfProbe? then task.params.ProbeParams? else task.params.ThumbnailParams?)
  }

  /** The completed tasks of a kind that have a result, in the order of the table. */
  function CompletedWithResult(tasks: map<string, Task>, order: seq<string>, kind: Kind): (found: seq<Task>)
    ensures forall task :: task in found <==>
              exists t :: t in order && t in tasks && tasks[t] == task && IsCompleted(task, kind)
  {
    if order == [] then []
    else
      var n := |order| - 1;
      var before := CompletedWithResult(tasks, order[..n], kind);
      assert order == order[..n] + [order[n]];
      if order[n] in tasks && IsCompleted(tasks[order[n]], kind) then before + [tasks[order[n]]] else before
  }

  // ---- The two loops ----

  /** Nothing is left for a probe result to fill in. */
  predicate Probed(row: Video) {
    row.meta.duration.Some? && row.meta.width.Some?
  }

  function ReplayProbe(videos: Videos, task: Task): Videos {
    if task.video !in videos || Probed(videos[task.video]) then videos
    else videos[task.video := ApplyProbe(videos[task.video], task.result)]
  }

  function ReplayThumbnails(videos: Videos, task: Task): Videos {
    if task.video !in videos || videos[task.video].thumbs != [] then videos
    else videos[task.video := ApplyThumbnails(videos[task.video], task.params, task.result)]
  }

  function ReplayProbes(videos: Videos, tasks: seq<Task>): Videos {
    if tasks == [] then videos
    else ReplayProbe(ReplayProbes(videos, tasks[..|tasks| - 1]), tasks[|tasks| - 1])
  }

  function ReplayAllThumbnails(videos: Videos, tasks: seq<Task>): Videos {
    if tasks == [] then videos
    else ReplayThumbnails(ReplayAllThumbnails(videos, tasks[..|tasks| - 1]), tasks[|tasks| - 1])
  }

  function Reprocessed(videos: Videos, probes: seq<Task>, thumbnails: seq<Task>): Videos {
    ReplayAllThumbnails(ReplayProbes(videos, probes), thumbnails)
  }

  // ---- One video at a time ----

  function TasksOf(tasks: seq<Task>, video: string): seq<Task> {
    if tasks == [] then []
    else
      var n := |tasks| - 1;
      if tasks[n].video == video then TasksOf(tasks[..n], video) + [tasks[n]] else TasksOf(tasks[..n], video)
  }

  function ProbeRow(row: Video, tasks: seq<Task>): Video {
    if tasks == [] then row
    else
      var before := ProbeRow(row, tasks[..|tasks| - 1]);
      if Probed(before) then before else ApplyProbe(before, tasks[|tasks| - 1].result)
  }

  function ThumbnailRow(row: Video, tasks: seq<Task>): Video {
    if tasks == [] then row
    else
      var before := ThumbnailRow(row, tasks[..|tasks| - 1]);
      var last := tasks[|tasks| - 1];
      if before.thumbs != [] then before else ApplyThumbnails(before, last.params, last.result)
  }

  lemma LastTaskOf(tasks: seq<Task>, video: string)
    requires tasks != [] && tasks[|tasks| - 1].video == video
    ensures var own := TasksOf(tasks, video);
            && own != [] && own[|own| - 1] == tasks[|tasks| - 1]
            && own[..|own| - 1] == TasksOf(tasks[..|tasks| - 1], video)
  {}

  lemma OneProbe(videos: Videos, task: Task, video: string)
    requires video in videos
    ensures var row := videos[video];
            ReplayProbe(videos, task).Keys == videos.Keys
            && ReplayProbe(videos, task)[video]
               == if task.video == video && !Probed(row) then ApplyProbe(row, task.result) else row
  {}

  lemma {:induction false} ProbesByVideo(videos: Videos, tasks: seq<Task>, video: string)
    requires video in videos
    ensures ReplayProbes(videos, tasks).Keys == videos.Keys
    ensures ReplayProbes(videos, tasks)[video] == ProbeRow(videos[video], TasksOf(tasks, video))
  {
    if tasks != [] {
      var n := |tasks| - 1;
      ProbesByVideo(videos, tasks[..n], video);
      OneProbe(ReplayProbes(videos, tasks[..n]), tasks[n], video);
      if tasks[n].video == video {
        LastTaskOf(tasks, video);
      }
    }
  }

  lemma OneThumbnailTask(videos: Videos, task: Task, video: string)
    requires video in videos
    ensures var row := videos[video];
            ReplayThumbnails(videos, task).Keys == videos.Keys
            && ReplayThumbnails(videos, task)[video]
               == if task.video == video && row.thumbs == [] then ApplyThumbnails(row, task.params, task.result) else row
  {}

  lemma {:induction false} ThumbnailsByVideo(videos: Videos, tasks: seq<Task>, video: string)
    requires video in videos
    ensures ReplayAllThumbnails(videos, tasks).Keys == videos.Keys
    ensures ReplayAllThumbnails(videos, tasks)[video] == ThumbnailRow(videos[video], TasksOf(tasks, video))
  {
    if tasks != [] {
      var n := |tasks| - 1;
      ThumbnailsByVideo(videos, tasks[..n], video);
      OneThumbnailTask(ReplayAllThumbnails(videos, tasks[..n]), tasks[n], video);
      if tasks[n].video == video {
        LastTaskOf(tasks, video);
      }
    }
  }

  // ---- Probe results ----

  /** One result with the effect of two: the later value of each field that has one. */
  function Both(first: TaskResult, second: TaskResult): TaskResult {
    if !second.ProbeResult? then first
    else if !first.ProbeResult? then second
    else
      ProbeResult(if second.duration > 0.0 then second.duration else first.duration,
                  if second.width > 0 then second.width else first.width,
                  if second.height > 0 then second.height else first.height,
                  if second.codec != "" then second.codec else first.codec,
                  if second.fps > 0.0 then second.fps else first.fps,
                  if second.fileSize > 0 then second.fileSize else first.fileSize,
                  second.hasAudio)
  }

  function AllResults(tasks: seq<Task>): TaskResult {
    if tasks == [] then NoResult else Both(AllResults(tasks[..|tasks| - 1]), tasks[|tasks| - 1].result)
  }

  lemma ApplyBoth(row: Video, first: TaskResult, second: TaskResult)
    ensures ApplyProbe(ApplyProbe(row, first), second) == ApplyProbe(row, Both(first, second))
  {}

  lemma ApplyTwice(row: Video, r: TaskResult)
    ensures ApplyProbe(ApplyProbe(row, r), r) == ApplyProbe(row, r)
  {}

  /** A replay that leaves a video unprobed has applied every result. */
  lemma {:induction false} UnprobedTookAll(row: Video, tasks: seq<Task>)
    ensures Probed(ProbeRow(row, tasks)) || ProbeRow(row, tasks) == ApplyProbe(row, AllResults(tasks))
    ensures Probed(row) ==> ProbeRow(row, tasks) == row
    ensures !Probed(ApplyProbe(row, AllResults(tasks))) ==> ProbeRow(row, tasks) == ApplyProbe(row, AllResults(tasks))
  {
    if tasks != [] {
      var n := |tasks| - 1;
      UnprobedTookAll(row, tasks[..n]);
      ApplyBoth(row, AllResults(tasks[..n]), tasks[n].result);
    }
  }

  lemma ProbeRowTwice(row: Video, tasks: seq<Task>)
    ensures ProbeRow(ProbeRow(row, tasks), tasks) == ProbeRow(row, tasks)
  {
    var once := ProbeRow(row, tasks);
    UnprobedTookAll(row, tasks);
    UnprobedTookAll(once, tasks);
    ApplyTwice(row, AllResults(tasks));
  }

  lemma {:induction false} ProbesIgnoreThumbnails(row: Video, thumbs: seq<Thumbnail>, tasks: seq<Task>)
    ensures ProbeRow(row.(thumbs := thumbs), tasks) == ProbeRow(row, tasks).(thumbs := thumbs)
  {
    if tasks != [] {
      ProbesIgnoreThumbnails(row, thumbs, tasks[..|tasks| - 1]);
    }
  }

  // ---- Thumbnail results ----

  /** Replaying thumbnails changes the thumbnails only: a video that has some keeps those and gains none. */
  lemma {:induction false} ThumbnailRowFrame(row: Video, tasks: seq<Task>)
    ensures ThumbnailRow(row, tasks) == row.(thumbs := ThumbnailRow(row, tasks).thumbs)
    ensures row.thumbs != [] ==> ThumbnailRow(row, tasks) == row
  {
    if tasks != [] {
      ThumbnailRowFrame(row, tasks[..|tasks| - 1]);
    }
  }

  lemma {:induction false} ThumbnailRowTwice(row: Video, tasks: seq<Task>)
    ensures ThumbnailRow(ThumbnailRow(row, tasks), tasks) == ThumbnailRow(row, tasks)
  {
    var once := ThumbnailRow(row, tasks);
    ThumbnailRowFrame(row, tasks);
    if once.thumbs != [] {
      ThumbnailRowFrame(once, tasks);
    } else if row.thumbs == [] {
      assert once == row;
    }
  }

  // ---- Idempotence ----

  lemma {:induction false} ReplaysKeepRows(videos: Videos, probes: seq<Task>, thumbnails: seq<Task>)
    ensures ReplayProbes(videos, probes).Keys == videos.Keys
    ensures ReplayAllThumbnails(videos, thumbnails).Keys == videos.Keys
    decreases |probes| + |thumbnails|
  {
    if probes != [] {
      ReplaysKeepRows(videos, probes[..|probes| - 1], thumbnails);
    } else if thumbnails != [] {
      ReplaysKeepRows(videos, probes, thumbnails[..|thumbnails| - 1]);
    }
  }

  lemma ReprocessedByVideo(videos: Videos, probes: seq<Task>, thumbnails: seq<Task>)
    ensures Reprocessed(videos, probes, thumbnails).Keys == videos.Keys
    ensures forall v :: v in videos ==>
              Reprocessed(videos, probes, thumbnails)[v]
              == ThumbnailRow(ProbeRow(videos[v], TasksOf(probes, v)), TasksOf(thumbnails, v))
  {
    ReplaysKeepRows(videos, probes, []);
    ReplaysKeepRows(ReplayProbes(videos, probes), [], thumbnails);
    forall v | v in videos
      ensures Reprocessed(videos, probes, thumbnails)[v]
              == ThumbnailRow(ProbeRow(videos[v], TasksOf(probes, v)), TasksOf(thumbnails, v))
    {
      ProbesByVideo(videos, probes, v);
      ThumbnailsByVideo(ReplayProbes(videos, probes), thumbnails, v);
    }
  }

  lemma VideoTwice(row: Video, probes: seq<Task>, thumbnails: seq<Task>)
    ensures var once := ThumbnailRow(ProbeRow(row, probes), thumbnails);
            && ThumbnailRow(ProbeRow(once, probes), thumbnails) == once
            && (row.thumbs != [] ==> once.thumbs == row.thumbs)
  {
    var probed := ProbeRow(row, probes);
    var once := ThumbnailRow(probed, thumbnails);
    ProbeRowTwice(row, probes);
    ThumbnailRowFrame(probed, thumbnails);
    ThumbnailRowTwice(probed, thumbnails);
    ProbesIgnoreThumbnails(probed, once.thumbs, probes);
    ProbesIgnoreThumbnails(row, row.thumbs, probes);
  }

  /** For any completed tasks of any videos, in any order: reprocessing twice is reprocessing once, and a video
      that has thumbnails keeps exactly those. */
  lemma ReprocessTwice(videos: Videos, probes: seq<Task>, thumbnails: seq<Task>)
    ensures var once := Reprocessed(videos, probes, thumbnails);
            && Reprocessed(once, probes, thumbnails) == once
            && once.Keys == videos.Keys
            && forall v :: v in videos && videos[v].thumbs != [] ==> once[v].thumbs == videos[v].thumbs
  {
    var once := Reprocessed(videos, probes, thumbnails);
    ReprocessedByVideo(videos, probes, thumbnails);
    ReprocessedByVideo(once, probes, thumbnails);
    forall v | v in videos
      ensures Reprocessed(once, probes, thumbnails)[v] == once[v]
      ensures videos[v].thumbs != [] ==> once[v].thumbs == videos[v].thumbs
    {
      VideoTwice(videos[v], TasksOf(probes, v), TasksOf(thumbnails, v));
    }
  }

  // ---- What is recovered ----

  lemma {:induction false} OwnTasks(tasks: seq<Task>, video: string)
    ensures forall task :: task in TasksOf(tasks, video) <==> task in tasks && task.video == video
  {
    if tasks != [] {
      var n := |tasks| - 1;
      OwnTasks(tasks[..n], video);
      assert tasks == tasks[..n] + [tasks[n]];
    }
  }

  predicate FindsDuration(r: TaskResult) {
    r.ProbeResult? && r.duration > 0.0
  }

  predicate FindsWidth(r: TaskResult) {
    r.ProbeResult? && r.width > 0
  }

  predicate HasFrames(r: TaskResult) {
    r.ThumbnailResult? && r.keys != []
  }

  lemma {:induction false} ProbeRowRecovers(row: Video, tasks: seq<Task>)
    ensures var row' := ProbeRow(row, tasks);
            && (row'.meta.duration.Some? <==>
                  row.meta.duration.Some? || exists task :: task in tasks && FindsDuration(task.result))
            && (row'.meta.width.Some? <==>
                  row.meta.width.Some? || exists task :: task in tasks && FindsWidth(task.result))
            && row'.thumbs == row.thumbs
  {
    if tasks != [] {
      var n := |tasks| - 1;
      ProbeRowRecovers(row, tasks[..n]);
      assert tasks == tasks[..n] + [tasks[n]];
    }
  }

  lemma RowsForKeys(params: Params, duration: Option<real>, r: TaskResult, n: nat)
    requires r.ThumbnailResult? && n <= |r.keys|
    ensures |ThumbnailRows(params, duration, r, n)| == n
  {}

  lemma {:induction false} ThumbnailRowRecovers(row: Video, tasks: seq<Task>)
    ensures ThumbnailRow(row, tasks).thumbs != [] <==>
              row.thumbs != [] || exists task :: task in tasks && HasFrames(task.result)
  {
    if tasks != [] {
      var n := |tasks| - 1;
      ThumbnailRowRecovers(row, tasks[..n]);
      assert tasks == tasks[..n] + [tasks[n]];
      if tasks[n].result.ThumbnailResult? {
        RowsForKeys(tasks[n].params, row.meta.duration, tasks[n].result, |tasks[n].result.keys|);
        ThumbnailRowFrame(row, tasks[..n]);
      }
    }
  }

  /** A completed task of this video and kind. */
  predicate IsDone(task: Task, video: string, kind: Kind) {
    && task.video == video && task.status == TaskStatus.Completed
    && (kind == OfProbe ==> task.params.ProbeParams?) && (kind == OfThumbnail ==> task.params.ThumbnailParams?)
  }

  lemma SelectedOf(tasks: map<string, Task>, order: seq<string>, video: string, kind: Kind)
    requires forall t :: t in tasks ==> t in order
    ensures forall task :: task in TasksOf(CompletedWithResult(tasks, order, kind), video)
                           <==> !task.result.NoResult? && IsDone(task, video, kind)
                                && exists t :: t in tasks && tasks[t] == task
  {
    OwnTasks(CompletedWithResult(tasks, order, kind), video);
  }

  lemma RecoveredFrom(row: Video, probes: seq<Task>, thumbnails: seq<Task>)
    ensures var row' := ThumbnailRow(ProbeRow(row, probes), thumbnails);
            && (row'.meta.duration.Some? <==>
                  row.meta.duration.Some? || exists task :: task in probes && FindsDuration(task.result))
            && (row'.meta.width.Some? <==>
                  row.meta.width.Some? || exists task :: task in probes && FindsWidth(task.result))
            && (row'.thumbs != [] <==> row.thumbs != [] || exists task :: task in thumbnails && HasFrames(task.result))
  {
    var probed := ProbeRow(row, probes);
    ProbeRowRecovers(row, probes);
    ThumbnailRowRecovers(probed, thumbnails);
    ThumbnailRowFrame(probed, thumbnails);
  }

  /** After reprocessing a whole task table, a video has a duration, a width, thumbnails exactly if it had them or one
      of its completed probe or thumbnail tasks reported them. */
  lemma ReprocessRecovers(videos: Videos, tasks: map<string, Task>, order: seq<string>, video: string)
    requires video in videos && forall t :: t in tasks ==> t in order
    ensures var after := Reprocessed(videos, CompletedWithResult(tasks, order, OfProbe),
                                     CompletedWithResult(tasks, order, OfThumbnail));
            && video in after
            && (after[video].meta.duration.Some? <==>
                  videos[video].meta.duration.Some? ||
                  exists t :: t in tasks && IsDone(tasks[t], video, OfProbe) && FindsDuration(tasks[t].result))
            && (after[video].meta.width.Some? <==>
                  videos[video].meta.width.Some? ||
                  exists t :: t in tasks && IsDone(tasks[t], video, OfProbe) && FindsWidth(tasks[t].result))
            && (after[video].thumbs != [] <==>
                  videos[video].thumbs != [] ||
                  exists t :: t in tasks && IsDone(tasks[t], video, OfThumbnail) && HasFrames(tasks[t].result))
  {
    var probes, thumbnails := CompletedWithResult(tasks, order, OfProbe), CompletedWithResult(tasks, order, OfThumbnail);
    ReprocessedByVideo(videos, probes, thumbnails);
    SelectedOf(tasks, order, video, OfProbe);
    SelectedOf(tasks, order, video, OfThumbnail);
    RecoveredFrom(videos[video], TasksOf(probes, video), TasksOf(thumbnails, video));
  }
}
