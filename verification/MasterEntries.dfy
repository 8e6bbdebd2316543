/** What a player reads in a stored master: one entry for each ready row, with the row's own numbers and playlist. */
module MasterEntries {
  import opened Basics
  import opened Keys
  import opened Playlist
  import opened DrmKeys
  import opened PipelineState
  import opened PipelineSteps
  import opened VariantRows
  import opened TaskInvariant
  import opened VideoInvariant
  import opened MasterParser

  function ReadyRows(rows: seq<Variant>): (ready: seq<Variant>)
    ensures forall v :: v in ready <==> v in rows && v.status.Ready?
  {
    if rows == [] then []
    else
      var n := |rows| - 1;
      assert rows == rows[..n] + [rows[n]];
      ReadyRows(rows[..n]) + if rows[n].status.Ready? then [rows[n]] else []
  }

  /** The entry carries the row's name and numbers, and its URI resolves to the row's playlist. */
  predicate Describes(e: VariantInfo, video: string, v: Variant) {
    && e.name == v.res && e.width == v.width && e.height == v.height && e.bandwidth == 1000 * v.bitrate
    && VideoPrefix(video) + e.path == Path(VariantFile(video, v.res, PLAYLIST))
    && VideoPrefix(video) + e.path == "videos/" + video + "/variants/" + v.res + "/playlist.m3u8"
  }

  /** Read by section 4.3.4.2 of RFC 8216, the text has one entry for each ready row, in row order. */
  predicate ReadsAs(text: string, video: string, rows: seq<Variant>) {
    var entries, ready := ParseMaster(text), ReadyRows(rows);
    && entries.Some? && |entries.value| == |ready|
    && forall j :: 0 <= j < |ready| ==> Describes(entries.value[j], video, ready[j])
  }

  /** Every ready resolution has a name a quoted string can carry. */
  predicate ReadyNamesQuotable(rows: seq<Variant>) {
    forall v :: v in rows && v.status.Ready? ==> IsQuotable(v.res)
  }

  lemma VariantPath(video: string, res: string)
    ensures Path(VariantFile(video, res, PLAYLIST)) == "videos/" + video + "/variants/" + res + "/playlist.m3u8"
  {
    assert "videos/" + (video + "/") + "variants/" == "videos/" + video + "/variants/";
  }

  lemma MasterPath(video: string)
    ensures Path(Master(video)) == "videos/" + video + "/master.m3u8"
  {
    assert VideoPrefix(video) + "master.m3u8" == "videos/" + video + "/master.m3u8";
  }

  lemma InfoDescribes(video: string, v: Variant)
    ensures Describes(Info(v), video, v)
  {
    VariantUriResolves(video, v.res);
    VariantPath(video, v.res);
  }

  lemma {:induction false} InfosDescribe(video: string, rows: seq<Variant>)
    ensures |ReadyInfos(rows)| == |ReadyRows(rows)|
    ensures forall j :: 0 <= j < |ReadyRows(rows)| ==> Describes(ReadyInfos(rows)[j], video, ReadyRows(rows)[j])
  {
    if rows != [] {
      var n := |rows| - 1;
      InfosDescribe(video, rows[..n]);
      InfoDescribes(video, rows[n]);
    }
  }

  lemma QuotableIsPrintable(v: Variant)
    ensures Printable(Info(v)) <==> IsQuotable(v.res)
  {
    var uri := VariantUri(v.res);
    assert uri[0] == 'v' && uri == "variants/" + (v.res + ("/" + PLAYLIST));
    if Printable(Info(v)) {
      assert IsQuotable(Info(v).name);
    }
  }

  lemma ReadNamesAreQuotable(text: string, video: string, rows: seq<Variant>)
    requires ReadsAs(text, video, rows)
    ensures ReadyNamesQuotable(rows)
  {
    var entries, ready := ParseMaster(text).value, ReadyRows(rows);
    EntriesPrintable(ScanLines(text)[1..]);
    forall v | v in rows && v.status.Ready? ensures IsQuotable(v.res) {
      var j :| 0 <= j < |ready| && ready[j] == v;
      assert entries[j] in entries && entries[j].name == v.res;
    }
  }

  lemma TextReadsAsIff(video: string, rows: seq<Variant>)
    ensures ReadsAs(MasterText(ReadyInfos(rows)), video, rows) <==> ReadyNamesQuotable(rows)
  {
    var infos := ReadyInfos(rows);
    if ReadsAs(MasterText(infos), video, rows) {
      ReadNamesAreQuotable(MasterText(infos), video, rows);
    }
    if ReadyNamesQuotable(rows) {
      InfosDescribe(video, rows);
      forall x | x in infos ensures Printable(x) {
        var v := ListedIsReady(rows, x);
        QuotableIsPrintable(v);
      }
      MasterRoundTrip(infos);
    }
  }

  lemma NoneListedIff(video: string, rows: seq<Variant>)
    ensures ReadyInfos(rows) == [] <==> forall v :: v in rows ==> !v.status.Ready?
  {
    InfosDescribe(video, rows);
    if ReadyRows(rows) != [] {
      assert ReadyRows(rows)[0] in ReadyRows(rows);
    }
  }

  // ---- The completion of a transcode ----

  predicate Settled(task: Task) {
    task.status.Completed? || task.status.Failed? || task.status.Cancelled?
  }

  predicate OthersSettled(s: State, video: string, t: string) {
    forall u :: u in s.tasks && u != t && s.tasks[u].video == video ==> Settled(s.tasks[u])
  }

  predicate NoneReady(rows: seq<Variant>) {
    forall v :: v in rows ==> !v.status.Ready?
  }

  /** The rows after the report of a resolution: the first one being processed is ready. */
  predicate FirstIsReady(before: seq<Variant>, after: seq<Variant>, res: string) {
    var j := FindProcessing(before, res);
    after == if j < |before| then before[j := before[j].(status := VariantStatus.Ready)] else before
  }

  /** The bucket holds a master that describes these rows. */
  predicate Publishes(objects: map<Key, string>, video: string, rows: seq<Variant>) {
    && Master(video) in objects && Path(Master(video)) == "videos/" + video + "/master.m3u8"
    && (ReadsAs(objects[Master(video)], video, rows) <==> ReadyNamesQuotable(rows))
  }

  predicate SameButMaster(before: map<Key, string>, after: map<Key, string>, video: string) {
    before - {Master(video)} == after - {Master(video)}
  }

  /** What follows from the rows a video has once it is no longer waiting. */
  predicate Decided(video: string, row: Video, row': Video, before: map<Key, string>, after: map<Key, string>) {
    if NoneReady(row'.variants) then
      row'.status.Error? && row'.masterKey == row.masterKey && after == before
    else
      row'.status.Ready? && row'.masterKey == Some(Master(video)) && Publishes(after, video, row'.variants)
  }

  lemma BuiltIsDecided(video: string, row: Video, objects: map<Key, string>)
    ensures var (row', objects') := Built(video, row, objects);
            && Decided(video, row, row', objects, objects') && SameButMaster(objects, objects', video)
            && row' == row.(status := row'.status, masterKey := row'.masterKey)
  {
    NoneListedIff(video, row.variants);
    TextReadsAsIff(video, row.variants);
    MasterPath(video);
  }

  lemma PendingIffUnsettled(s: State, t: string, task: Task, video: string)
    requires t in s.tasks && Settled(task)
    ensures HasPending(s.tasks[t := task], video) <==> !OthersSettled(s, video, t)
  {
    var tasks := s.tasks[t := task];
    if HasPending(tasks, video) {
      var u :| u in tasks && tasks[u].video == video && IsPending(tasks[u]);
      assert u != t && !Settled(s.tasks[u]);
    }
    if !OthersSettled(s, video, t) {
      var u :| u in s.tasks && u != t && s.tasks[u].video == video && !Settled(s.tasks[u]);
      assert tasks[u] == s.tasks[u] && IsPending(tasks[u]);
    }
  }

  /** The report of a transcode marks the first processing row of its resolution. While another task of the video
      is unsettled nothing else happens; otherwise the video is in error without a ready row, and with one it is
      ready and its master describes exactly the ready rows. */
  predicate ReportDecides(s: State, s': State, m: Message) {
    m.video in s.videos && s'.videos.Keys == s.videos.Keys &&
    var row, row' := s.videos[m.video], s'.videos[m.video];
    && m.params.TranscodeParams? && FirstIsReady(row.variants, row'.variants, m.params.res)
    && row' == row.(variants := row'.variants, status := row'.status, masterKey := row'.masterKey)
    && (forall v :: v in s.videos && v != m.video ==> s'.videos[v] == s.videos[v])
    && SameButMaster(s.objects, s'.objects, m.video)
    && (if OthersSettled(s, m.video, m.task) then Decided(m.video, row, row', s.objects, s'.objects)
        else row'.status == row.status && row'.masterKey == row.masterKey && s'.objects == s.objects)
  }

  lemma MarkedThenChecked(s: State, s': State, m: Message, r: TaskResult)
    requires m.video in s.videos && m.task in s.tasks && m.params.TranscodeParams? && r == TranscodeResult(m.params.res)
    requires s.tasks[m.task].video == m.video && s.tasks[m.task].params == m.params
    requires s' == CompleteTask(s, m.task, r)
    ensures ReportDecides(s, s', m)
  {
    var done := s.tasks[m.task].(status := Completed, result := r);
    var row := s.videos[m.video];
    var marked := row.(variants := MarkReady(row.variants, r.res));
    MarkReadyRows(row.variants, r.res);
    PendingIffUnsettled(s, m.task, done, m.video);
    BuiltIsDecided(m.video, marked, s.objects);
    var s1 := SetVideo(s.(tasks := s.tasks[m.task := done]), m.video, marked);
    if HasPending(s1.tasks, m.video) {
      assert s' == s1;
    } else {
      assert s' == SetVideo(s1, m.video, s'.videos[m.video]).(objects := s'.objects);
    }
  }

  lemma DecidedByParts(s: State, a: State, b: State, m: Message)
    requires ReportDecides(s, a, m) && a.videos == b.videos && a.objects == b.objects
    ensures ReportDecides(s, b, m)
  {}

  lemma TranscodeReport(s: State, i: nat)
    requires TasksOk(s) && i < |s.messages| && s.messages[i].params.TranscodeParams?
    requires s.messages[i].phase == Delivered(true) && s.messages[i].task in s.tasks
    ensures var m := s.messages[i];
            ReportDecides(s, Apply(s, ReportComplete(i, TranscodeResult(m.params.res))), m)
  {
    var m := s.messages[i];
    assert m in s.messages && Carries(m, s.tasks);
    var r := TranscodeResult(m.params.res);
    MarkedThenChecked(s, CompleteTask(s, m.task, r), m, r);
    DecidedByParts(s, CompleteTask(s, m.task, r), Apply(s, ReportComplete(i, r)), m);
  }

  /** After any run, whatever a transcode's report finds. */
  lemma ReportPublishes(steps: seq<Step>, i: nat, r: TaskResult)
    requires Legal(EMPTY_STATE, steps + [ReportComplete(i, r)])
    ensures Legal(EMPTY_STATE, steps)
    ensures var s, s' := Run(EMPTY_STATE, steps), Run(EMPTY_STATE, steps + [ReportComplete(i, r)]);
            && i < |s.messages|
            && (s.messages[i].params.TranscodeParams? && s.messages[i].task in s.tasks ==>
                  ReportDecides(s, s', s.messages[i]))
  {
    SplitRun(EMPTY_STATE, steps, ReportComplete(i, r));
    RunKeepsTasks(EMPTY_STATE, steps);
    var s := Run(EMPTY_STATE, steps);
    if s.messages[i].params.TranscodeParams? && s.messages[i].task in s.tasks {
      TranscodeReport(s, i);
    }
  }

  // ---- The removal of a variant ----

  predicate IsFirst(rows: seq<Variant>, res: string, j: nat) {
    j < |rows| && rows[j].res == res && forall k :: 0 <= k < j ==> rows[k].res != res
  }

  /** The rows after a removal: the first one of the resolution is gone. */
  predicate FirstIsGone(before: seq<Variant>, after: seq<Variant>, res: string) {
    exists j :: 0 <= j < |before| && IsFirst(before, res, j) && after == before[..j] + before[j + 1..]
  }

  lemma {:induction false} RemoveFirstIsGone(rows: seq<Variant>, res: string) returns (j: nat)
    requires HasResolution(rows, res)
    ensures IsFirst(rows, res, j) && RemoveFirst(rows, res) == rows[..j] + rows[j + 1..]
  {
    if rows[0].res == res {
      j := 0;
    } else {
      var v :| v in rows && v.res == res;
      assert v in rows[1..];
      j := RemoveFirstIsGone(rows[1..], res);
      j := j + 1;
      assert rows[..j] == [rows[0]] + rows[1..][..j - 1] && rows[j + 1..] == rows[1..][j..];
    }
  }

  /** After any run, removing a variant takes the first row of that resolution; whenever a ready row remains, the
      master in the bucket describes exactly the remaining ready rows. */
  lemma RemovalPublishes(steps: seq<Step>, video: string, res: string)
    requires Legal(EMPTY_STATE, steps + [RemoveVariant(video, res)])
    ensures Legal(EMPTY_STATE, steps)
    ensures var s, s' := Run(EMPTY_STATE, steps), Run(EMPTY_STATE, steps + [RemoveVariant(video, res)]);
            video in s.videos && HasResolution(s.videos[video].variants, res) ==>
              && video in s'.videos
              && FirstIsGone(s.videos[video].variants, s'.videos[video].variants, res)
              && (if NoneReady(s'.videos[video].variants) then s'.videos[video].masterKey == None
                  else Publishes(s'.objects, video, s'.videos[video].variants))
  {
    SplitRun(EMPTY_STATE, steps, RemoveVariant(video, res));
    var s := Run(EMPTY_STATE, steps);
    if video in s.videos && HasResolution(s.videos[video].variants, res) {
      var rows := RemoveFirst(s.videos[video].variants, res);
      var j := RemoveFirstIsGone(s.videos[video].variants, res);
      NoneListedIff(video, rows);
      TextReadsAsIff(video, rows);
      MasterPath(video);
    }
  }
}
