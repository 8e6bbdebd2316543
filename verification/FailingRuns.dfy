/** Legal runs from the empty state to the failures whose exact conditions are stated elsewhere. */
module FailingRuns {
  import opened Basics
  import opened Keys
  import opened Playlist
  import opened MasterParser
  import opened DrmKeys
  import opened PipelineState
  import opened PipelineSteps
  import opened VariantRows
  import opened BucketLayout
  import opened FileInvariant
  import Lifecycle

  // ---- Building runs ----

  ghost predicate Reaches(steps: seq<Step>, s: State) {
    Legal(EMPTY_STATE, steps) && Run(EMPTY_STATE, steps) == s
  }

  lemma {:induction false} RunOneMore(from: State, steps: seq<Step>, step: Step)
    requires Legal(from, steps) && Enabled(Run(from, steps), step)
    ensures Legal(from, steps + [step]) && Run(from, steps + [step]) == Apply(Run(from, steps), step)
    decreases steps
  {
    if steps == [] {
      assert [step][1..] == [];
    } else {
      assert (steps + [step])[0] == steps[0] && (steps + [step])[1..] == steps[1..] + [step];
      RunOneMore(Apply(from, steps[0]), steps[1..], step);
    }
  }

  lemma Then(steps: seq<Step>, s: State, step: Step, s': State) returns (more: seq<Step>)
    requires Reaches(steps, s) && Enabled(s, step) && Apply(s, step) == s'
    ensures Reaches(more, s')
  {
    RunOneMore(EMPTY_STATE, steps, step);
    more := steps + [step];
  }

  // ---- States with one video and no keys ----

  datatype Scene = Scene(video: string, row: Video, tasks: map<string, Task>, messages: seq<Message>,
                         objects: map<Key, string>) {
    function At(): State {
      State(map[video := row], tasks, messages, objects, [])
    }
  }

  predicate GoodMaterial(rnd: Material) {
    |rnd.iv| == IV_DIGITS && |rnd.contentKey| == 32 && IsHex(rnd.contentKey)
  }

  /** Nothing in the scene carries a key. */
  predicate KeyFree(c: Scene) {
    !c.row.hasDRM && forall t :: t in c.tasks ==> !(c.tasks[t].params.TranscodeParams? && c.tasks[t].params.drm.Some?)
  }

  function Started(c: Scene, spec: Spec, codec: string, t: string): Scene {
    c.(row := c.row.(status := VideoStatus.Processing,
                     variants := CreateOrUpdate(c.row.variants, NewVariant(spec, codec, false))),
       tasks := c.tasks[t := Task(c.video, TranscodeParams(spec.res, None), Queued, 0, NoResult)],
       messages := c.messages + [Message(t, c.video, TranscodeParams(spec.res, None), Undelivered)])
  }

  lemma PreparesOne(c: Scene, base: string, rnd: Material)
    requires !c.row.hasDRM
    ensures PrepareTranscode(c.At(), c.video, false, base, rnd)
            == c.(row := c.row.(status := VideoStatus.Processing)).At()
  {}

  lemma AddsOne(c: Scene, spec: Spec, codec: string, t: string)
    ensures AddTranscode(c.(row := c.row.(status := VideoStatus.Processing)).At(), c.video, spec, codec, None, t)
            == Started(c, spec, codec, t).At()
  {}

  lemma StartsOne(c: Scene, spec: Spec, codec: string, base: string, t: string, rnd: Material)
    requires KeyFree(c) && GoodMaterial(rnd) && FreshTask(c.At(), t) && codec != ""
    ensures var step := Start(c.video, [spec], codec, false, base, [t], rnd);
            Enabled(c.At(), step) && Apply(c.At(), step) == Started(c, spec, codec, t).At()
            && KeyFree(Started(c, spec, codec, t))
  {
    var s1 := PrepareTranscode(c.At(), c.video, false, base, rnd);
    PreparesOne(c, base, rnd);
    AddsOne(c, spec, codec, t);
    assert [spec][..0] == [] && [t][..0] == [];
    assert AddTranscodes(s1, c.video, [spec], codec, None, [t]) == AddTranscode(s1, c.video, spec, codec, None, t);
  }

  /** Message i has been delivered and its playlist uploaded. */
  function Uploaded(c: Scene, i: nat, body: string): Scene
    requires i < |c.messages| && c.messages[i].params.TranscodeParams?
  {
    c.(messages := c.messages[i := c.messages[i].(phase := Delivered(true))],
       objects := c.objects[VariantFile(c.messages[i].video, c.messages[i].params.res, PLAYLIST) := body])
  }

  lemma PlaylistIsPlain()
    ensures NoSlash(PLAYLIST)
  {}

  lemma Uploads(steps: seq<Step>, c: Scene, i: nat, body: string) returns (more: seq<Step>)
    requires Reaches(steps, c.At()) && i < |c.messages|
    requires c.messages[i].params.TranscodeParams? && c.messages[i].phase.Undelivered?
    ensures Reaches(more, Uploaded(c, i, body).At())
  {
    var delivered := c.(messages := c.messages[i := c.messages[i].(phase := Delivered(false))]);
    more := Then(steps, c.At(), Deliver(i), delivered.At());
    assert delivered.messages[i := delivered.messages[i].(phase := Delivered(true))]
        == c.messages[i := c.messages[i].(phase := Delivered(true))];
    PlaylistIsPlain();
    more := Then(more, delivered.At(), Upload(i, PLAYLIST, body), Uploaded(c, i, body).At());
  }

  /** Message i has been reported: its row is marked, and the rest of the row and the bucket are as given. */
  function Completed(c: Scene, i: nat, row: Video, objects: map<Key, string>): Scene
    requires i < |c.messages| && c.messages[i].params.TranscodeParams? && c.messages[i].task in c.tasks
  {
    var m := c.messages[i];
    c.(row := row, objects := objects,
       tasks := c.tasks[m.task := c.tasks[m.task].(status := TaskStatus.Completed, result := TranscodeResult(m.params.res))],
       messages := c.messages[i := m.(phase := Reported)])
  }

  predicate Reportable(c: Scene, i: nat) {
    && i < |c.messages| && c.messages[i].params.TranscodeParams? && c.messages[i].phase == Delivered(true)
    && c.messages[i].video == c.video && c.messages[i].task in c.tasks
    && c.tasks[c.messages[i].task].video == c.video && c.tasks[c.messages[i].task].params.TranscodeParams?
  }

  predicate OthersPending(tasks: map<string, Task>, t: string, video: string) {
    exists u :: u in tasks && u != t && tasks[u].video == video && IsPending(tasks[u])
  }

  lemma PendingAfter(tasks: map<string, Task>, t: string, task: Task, video: string)
    requires !IsPending(task)
    ensures HasPending(tasks[t := task], video) <==> OthersPending(tasks, t, video)
  {
    var after := tasks[t := task];
    if HasPending(after, video) {
      var u :| u in after && after[u].video == video && IsPending(after[u]);
      assert u in tasks && u != t && tasks[u].video == video && IsPending(tasks[u]);
    }
    if OthersPending(tasks, t, video) {
      var u :| u in tasks && u != t && tasks[u].video == video && IsPending(tasks[u]);
      assert u in after && after[u].video == video && IsPending(after[u]);
    }
  }

  function Outcome(c: Scene, i: nat): (Video, map<Key, string>)
    requires i < |c.messages| && c.messages[i].params.TranscodeParams?
  {
    var marked := c.row.(variants := MarkReady(c.row.variants, c.messages[i].params.res));
    if OthersPending(c.tasks, c.messages[i].task, c.video) then (marked, c.objects)
    else Built(c.video, marked, c.objects)
  }

  lemma BuildIs(c: Scene)
    ensures var (row, objects) := if HasPending(c.tasks, c.video) then (c.row, c.objects)
                                  else Built(c.video, c.row, c.objects);
            CheckAndBuild(c.At(), c.video) == c.(row := row, objects := objects).At()
  {}

  /** The scene when the row has been marked and the task completed, before the pending tasks are counted. */
  function Marked(c: Scene, i: nat): Scene
    requires i < |c.messages| && c.messages[i].params.TranscodeParams? && c.messages[i].task in c.tasks
  {
    var m := c.messages[i];
    c.(row := c.row.(variants := MarkReady(c.row.variants, m.params.res)),
       tasks := c.tasks[m.task := c.tasks[m.task].(status := TaskStatus.Completed, result := TranscodeResult(m.params.res))])
  }

  lemma RowIsSet(c: Scene, row: Video)
    ensures SetVideo(c.At(), c.video, row) == c.(row := row).At()
  {}

  lemma CompletionCounts(c: Scene, i: nat)
    requires Reportable(c, i)
    ensures CompleteTask(c.At(), c.messages[i].task, TranscodeResult(c.messages[i].params.res))
            == CheckAndBuild(Marked(c, i).At(), c.video)
  {
    var m, r := c.messages[i], TranscodeResult(c.messages[i].params.res);
    var done := c.(tasks := Marked(c, i).tasks);
    RowIsSet(done, Marked(c, i).row);
    assert CompleteTask(c.At(), m.task, r) == TranscodeDone(done.At(), c.video, r);
  }

  lemma CompletionIs(c: Scene, i: nat)
    requires Reportable(c, i)
    ensures CompleteTask(c.At(), c.messages[i].task, TranscodeResult(c.messages[i].params.res))
            == Completed(c, i, Outcome(c, i).0, Outcome(c, i).1).(messages := c.messages).At()
  {
    var marked := Marked(c, i);
    CompletionCounts(c, i);
    PendingAfter(c.tasks, c.messages[i].task, marked.tasks[c.messages[i].task], c.video);
    BuildIs(marked);
  }

  lemma Reports(steps: seq<Step>, c: Scene, i: nat) returns (more: seq<Step>, after: Scene)
    requires Reaches(steps, c.At()) && Reportable(c, i)
    ensures Reaches(more, after.At()) && after == Completed(c, i, Outcome(c, i).0, Outcome(c, i).1)
  {
    CompletionIs(c, i);
    after := Completed(c, i, Outcome(c, i).0, Outcome(c, i).1);
    more := Then(steps, c.At(), ReportComplete(i, TranscodeResult(c.messages[i].params.res)), after.At());
  }

  // ---- A playlist that names nothing ----

  ghost predicate NamesNothing(s: State, video: string, path: string) {
    forall k :: k in s.objects ==> Path(k) != VideoPrefix(video) + path
  }

  /** The video is ready, and a player that reads its master finds an entry whose URI names no object. */
  ghost predicate Dangles(s: State, video: string) {
    && video in s.videos && s.videos[video].status.Ready? && Master(video) in s.objects
    && ParseMaster(s.objects[Master(video)]).Some?
    && exists e :: e in ParseMaster(s.objects[Master(video)]).value && NamesNothing(s, video, e.path)
  }

  lemma ListedButMissing(s: State, video: string, v: Variant)
    requires video in s.videos && s.videos[video].status.Ready? && Tidy(s.objects) && NoSlash(video)
    requires Master(video) in s.objects && s.objects[Master(video)] == MasterText([Info(v)])
    requires PlainName(v.res) && VariantFile(video, v.res, PLAYLIST) !in s.objects
    ensures Dangles(s, video)
  {
    InfoIsPrintable(v);
    PrintedParsesBack([Info(v)]);
    VariantUriResolves(video, v.res);
    PlaylistIsPlain();
    forall k | k in s.objects ensures Path(k) != VideoPrefix(video) + VariantUri(v.res) {
      if Path(k) == VideoPrefix(video) + VariantUri(v.res) {
        PathInjective(k, VariantFile(video, v.res, PLAYLIST));
      }
    }
    assert NamesNothing(s, video, Info(v).path) && Info(v) in [Info(v)];
  }

  // ---- The runs ----

  function Draft(video: string, meta: Metadata): Scene {
    Scene(video, NewVideo(video, meta), map[], [], map[])
  }

  lemma Drafts(video: string, meta: Metadata) returns (steps: seq<Step>)
    requires NoSlash(video)
    ensures Reaches(steps, Draft(video, meta).At()) && KeyFree(Draft(video, meta))
  {
    assert Reaches([], EMPTY_STATE);
    steps := Then([], EMPTY_STATE, CreateVideo(video, meta), Draft(video, meta).At());
  }

  lemma Starts(steps: seq<Step>, c: Scene, spec: Spec, codec: string, base: string, t: string, rnd: Material)
      returns (more: seq<Step>)
    requires Reaches(steps, c.At()) && KeyFree(c) && GoodMaterial(rnd) && FreshTask(c.At(), t) && codec != ""
    ensures Reaches(more, Started(c, spec, codec, t).At()) && KeyFree(Started(c, spec, codec, t))
  {
    StartsOne(c, spec, codec, base, t, rnd);
    more := Then(steps, c.At(), Start(c.video, [spec], codec, false, base, [t], rnd), Started(c, spec, codec, t).At());
  }

  function Emptied(c: Scene): Scene {
    c.(row := c.row.(variants := [], masterKey := None, status := Withdrawn(c.row.status)),
       objects := DropMaster(DropVariants(c.objects, c.video), c.row))
  }

  lemma Empties(steps: seq<Step>, c: Scene) returns (more: seq<Step>)
    requires Reaches(steps, c.At())
    ensures Reaches(more, Emptied(c).At())
  {
    more := Then(steps, c.At(), RemoveVariants(c.video), Emptied(c).At());
  }

  function Abandoned(c: Scene, t: string): Scene
    requires t in c.tasks
  {
    c.(tasks := c.tasks[t := c.tasks[t].(status := Cancelled)])
  }

  lemma Abandons(steps: seq<Step>, c: Scene, t: string) returns (more: seq<Step>)
    requires Reaches(steps, c.At()) && t in c.tasks
    ensures Reaches(more, Abandoned(c, t).At())
  {
    more := Then(steps, c.At(), Cancel(t), Abandoned(c, t).At());
  }

  /** One transcode whose playlist is uploaded and whose report is still to come. */
  function Running(video: string, meta: Metadata, spec: Spec, codec: string, t: string, body: string): Scene {
    Uploaded(Started(Draft(video, meta), spec, codec, t), 0, body)
  }

  lemma ReachesRunning(video: string, meta: Metadata, spec: Spec, codec: string, base: string, t: string, body: string,
                       rnd: Material) returns (steps: seq<Step>)
    requires NoSlash(video) && codec != "" && GoodMaterial(rnd)
    ensures Reaches(steps, Running(video, meta, spec, codec, t, body).At())
    ensures KeyFree(Running(video, meta, spec, codec, t, body))
  {
    steps := Drafts(video, meta);
    steps := Starts(steps, Draft(video, meta), spec, codec, base, t, rnd);
    steps := Uploads(steps, Started(Draft(video, meta), spec, codec, t), 0, body);
  }

  /** The variants were deleted under the running transcode, and a second one was started and cancelled. */
  function Late(video: string, meta: Metadata, spec: Spec, codec: string, t: string, u: string, body: string): Scene {
    Abandoned(Started(Emptied(Running(video, meta, spec, codec, t, body)), spec, codec, u), u)
  }

  lemma ReachesLate(video: string, meta: Metadata, spec: Spec, codec: string, base: string, t: string, u: string,
                    body: string, rnd: Material) returns (steps: seq<Step>)
    requires NoSlash(video) && codec != "" && t != u && GoodMaterial(rnd)
    ensures Reaches(steps, Late(video, meta, spec, codec, t, u, body).At())
  {
    var c := Running(video, meta, spec, codec, t, body);
    steps := ReachesRunning(video, meta, spec, codec, base, t, body, rnd);
    steps := Empties(steps, c);
    steps := Starts(steps, Emptied(c), spec, codec, base, u, rnd);
    steps := Abandons(steps, Started(Emptied(c), spec, codec, u), u);
  }

  lemma LateScene(video: string, meta: Metadata, spec: Spec, codec: string, t: string, u: string, body: string)
    requires t != u
    ensures var c := Late(video, meta, spec, codec, t, u, body);
            && Reportable(c, 0) && c.messages[0].params.res == spec.res && c.messages[0].task == t && c.video == video
            && c.row.variants == [NewVariant(spec, codec, false)]
            && !OthersPending(c.tasks, t, video) && c.objects == map[]
  {}

  lemma OneRowBuilt(c: Scene, ready: Variant)
    requires Reportable(c, 0) && !OthersPending(c.tasks, c.messages[0].task, c.video) && ready.status.Ready?
    requires c.row.variants == [ready.(status := VariantStatus.Processing)] && c.messages[0].params.res == ready.res
    ensures var (row, objects) := Outcome(c, 0);
            row.status.Ready? && objects == c.objects[Master(c.video) := MasterText([Info(ready)])]
  {
    assert MarkReady(c.row.variants, ready.res) == [ready];
    assert [ready][..0] == [];
    assert ReadyInfos([ready]) == [Info(ready)];
  }

  /** A report that arrives after its files were deleted: transcode, delete all variants while the worker has
      uploaded and not reported, start again, cancel the new task, report the old one. */
  lemma LateReportDangles(video: string, meta: Metadata, spec: Spec, codec: string, base: string, body: string,
                          t: string, u: string, rnd: Material) returns (steps: seq<Step>)
    requires NoSlash(video) && PlainName(spec.res) && codec != "" && t != u && GoodMaterial(rnd)
    ensures Legal(EMPTY_STATE, steps) && Dangles(Run(EMPTY_STATE, steps), video)
  {
    var c := Late(video, meta, spec, codec, t, u, body);
    steps := ReachesLate(video, meta, spec, codec, base, t, u, body, rnd);
    LateScene(video, meta, spec, codec, t, u, body);
    var after: Scene;
    steps, after := Reports(steps, c, 0);
    var ready := NewVariant(spec, codec, false).(status := VariantStatus.Ready);
    OneRowBuilt(c, ready);
    ListedButMissing(after.At(), video, ready);
  }

  // ---- Two rows, one of them finished ----

  datatype Order = Order(spec: Spec, codec: string, task: string)

  /** Two transcodes were started, and the first has an uploaded playlist. */
  function TwoRunning(video: string, meta: Metadata, a: Order, b: Order, body: string): Scene {
    Uploaded(Started(Started(Draft(video, meta), a.spec, a.codec, a.task), b.spec, b.codec, b.task), 0, body)
  }

  lemma ReachesTwoRunning(video: string, meta: Metadata, a: Order, b: Order, base: string, body: string, rnd: Material)
      returns (steps: seq<Step>)
    requires NoSlash(video) && a.codec != "" && b.codec != "" && a.task != b.task && GoodMaterial(rnd)
    ensures Reaches(steps, TwoRunning(video, meta, a, b, body).At())
  {
    var c := Started(Draft(video, meta), a.spec, a.codec, a.task);
    steps := Drafts(video, meta);
    steps := Starts(steps, Draft(video, meta), a.spec, a.codec, base, a.task, rnd);
    steps := Starts(steps, c, b.spec, b.codec, base, b.task, rnd);
    steps := Uploads(steps, Started(c, b.spec, b.codec, b.task), 0, body);
  }

  function Row(o: Order): Variant {
    NewVariant(o.spec, o.codec, false)
  }

  function Finished(v: Variant): Variant {
    v.(status := VariantStatus.Ready)
  }

  lemma TwoRows(a: Variant, b: Variant)
    requires a.res != b.res || a.codec != b.codec
    requires a.status.Processing? && b.status.Processing?
    ensures CreateOrUpdate(CreateOrUpdate([], a), b) == [a, b]
    ensures MarkReady([a, b], a.res) == [Finished(a), b]
    ensures MarkReady([Finished(a), b], b.res) == [Finished(a), Finished(b)]
    ensures a.res == b.res ==> RemoveFirst([Finished(a), Finished(b)], b.res) == [Finished(b)]
  {
    assert [a][1..] == [] && [a, b][1..] == [b] && [Finished(a), b][1..] == [b];
    assert MarkReady([b], b.res) == [Finished(b)] + [b][1..];
    assert [Finished(a), Finished(b)][1..] == [Finished(b)];
  }

  /** The scene after the first report. */
  predicate HalfDone(c: Scene, a: Order, b: Order, body: string) {
    && c.row.variants == [Finished(Row(a)), Row(b)] && c.row.masterKey == None && c.row.status.Processing?
    && c.objects == map[VariantFile(c.video, a.spec.res, PLAYLIST) := body]
    && |c.messages| == 2 && c.messages[1] == Message(b.task, c.video, TranscodeParams(b.spec.res, None), Undelivered)
    && b.task in c.tasks && c.tasks[b.task].video == c.video && c.tasks[b.task].params.TranscodeParams?
    && !OthersPending(c.tasks, b.task, c.video)
  }

  lemma ReachesHalfDone(video: string, meta: Metadata, a: Order, b: Order, base: string, body: string, rnd: Material)
      returns (steps: seq<Step>, c: Scene)
    requires NoSlash(video) && a.codec != "" && b.codec != "" && a.task != b.task && GoodMaterial(rnd)
    requires a.spec.res != b.spec.res || a.codec != b.codec
    ensures Reaches(steps, c.At()) && c.video == video && HalfDone(c, a, b, body)
  {
    var two := TwoRunning(video, meta, a, b, body);
    steps := ReachesTwoRunning(video, meta, a, b, base, body, rnd);
    TwoRows(Row(a), Row(b));
    assert two.tasks[b.task].video == video && IsPending(two.tasks[b.task]);
    assert OthersPending(two.tasks, a.task, video);
    steps, c := Reports(steps, two, 0);
  }

  /** A master that is never recorded: the second transcode is removed while it runs, then everything is. */
  lemma UnrecordedMasterIsReached(video: string, meta: Metadata, a: Order, b: Order, base: string, body: string,
                                  rnd: Material) returns (steps: seq<Step>)
    requires NoSlash(video) && a.codec != "" && b.codec != "" && a.task != b.task && GoodMaterial(rnd)
    requires a.spec.res != b.spec.res
    ensures Legal(EMPTY_STATE, steps)
    ensures var s := Run(EMPTY_STATE, steps);
            && video in s.videos && s.videos[video].variants == [] && s.videos[video].masterKey == None
            && Master(video) in s.objects
  {
    var c: Scene;
    steps, c := ReachesHalfDone(video, meta, a, b, base, body, rnd);
    Lifecycle.UnrecordedMasterStays(c.At(), video, Finished(Row(a)), Row(b));
    var s1 := DeleteVariant(c.At(), video, b.spec.res);
    steps := Then(steps, c.At(), RemoveVariant(video, b.spec.res), s1);
    steps := Then(steps, s1, RemoveVariants(video), DeleteVariants(s1, video));
  }

  /** Both reports of one resolution in two codecs have arrived. */
  predicate BothDone(c: Scene, a: Order, b: Order) {
    c.row.variants == [Finished(Row(a)), Finished(Row(b))] && c.row.status.Ready? && Tidy(c.objects)
  }

  lemma TwoAreListed(a: Variant, b: Variant)
    requires b.status.Ready?
    ensures ReadyInfos([a, b]) != []
  {
    ReadyIsListed([a, b], b);
  }

  lemma SecondReport(half: Scene, a: Order, b: Order, body: string)
    requires HalfDone(half, a, b, body) && NoSlash(half.video) && NoSlash(a.spec.res) && NoSlash(b.spec.res)
    requires a.spec.res != b.spec.res || a.codec != b.codec
    ensures var c := Uploaded(half, 1, body);
            var done := Completed(c, 1, Outcome(c, 1).0, Outcome(c, 1).1);
            Reportable(c, 1) && done.video == half.video && BothDone(done, a, b)
  {
    PlaylistIsPlain();
    TwoRows(Row(a), Row(b));
    TwoAreListed(Finished(Row(a)), Finished(Row(b)));
  }

  lemma ReachesBothDone(video: string, meta: Metadata, a: Order, b: Order, base: string, body: string, rnd: Material)
      returns (steps: seq<Step>, c: Scene)
    requires NoSlash(video) && NoSlash(a.spec.res) && NoSlash(b.spec.res) && a.codec != "" && b.codec != ""
    requires a.task != b.task && GoodMaterial(rnd) && (a.spec.res != b.spec.res || a.codec != b.codec)
    ensures Reaches(steps, c.At()) && c.video == video && BothDone(c, a, b)
  {
    var half: Scene;
    steps, half := ReachesHalfDone(video, meta, a, b, base, body, rnd);
    steps := Uploads(steps, half, 1, body);
    SecondReport(half, a, b, body);
    steps, c := Reports(steps, Uploaded(half, 1, body), 1);
  }

  lemma FirstOfTwoGoes(x: Variant, y: Variant)
    requires x.res == y.res && y.status.Ready?
    ensures HasResolution([x, y], y.res) && RemoveFirst([x, y], y.res) == [y] && ReadyInfos([y]) == [Info(y)]
  {
    assert y in [x, y];
    assert [y][..0] == [];
  }

  lemma RemovalListsTheOther(c: Scene, a: Order, b: Order)
    requires BothDone(c, a, b) && a.spec.res == b.spec.res && a.codec != b.codec && NoSlash(c.video)
    ensures var s := DeleteVariant(c.At(), c.video, b.spec.res);
            && c.video in s.videos && s.videos[c.video].status.Ready? && Tidy(s.objects)
            && Master(c.video) in s.objects && s.objects[Master(c.video)] == MasterText([Info(Finished(Row(b)))])
            && VariantFile(c.video, b.spec.res, PLAYLIST) !in s.objects
  {
    FirstOfTwoGoes(Finished(Row(a)), Finished(Row(b)));
  }

  /** Removing one of two codecs of a resolution: the other row stays ready and its files are gone. */
  lemma RemovedCodecDangles(video: string, meta: Metadata, a: Order, b: Order, base: string, body: string, rnd: Material)
      returns (steps: seq<Step>)
    requires NoSlash(video) && PlainName(a.spec.res) && a.codec != "" && b.codec != "" && a.task != b.task
    requires GoodMaterial(rnd) && a.spec.res == b.spec.res && a.codec != b.codec
    ensures Legal(EMPTY_STATE, steps) && Dangles(Run(EMPTY_STATE, steps), video)
  {
    var c: Scene;
    steps, c := ReachesBothDone(video, meta, a, b, base, body, rnd);
    var s := DeleteVariant(c.At(), video, b.spec.res);
    steps := Then(steps, c.At(), RemoveVariant(video, b.spec.res), s);
    RemovalListsTheOther(c, a, b);
    ListedButMissing(s, video, Finished(Row(b)));
  }
}
