/** CompleteTask called concurrently for the last transcode tasks of one video, interleaved at every
    database and bucket operation: the master playlist is always built. */
module MissedBuild {
  import opened Basics
  import opened Keys
  import opened Playlist
  import opened MasterParser
  import opened PipelineState
  import opened VariantRows
  import opened VideoInvariant

  /** The next operation of one call, with what it has read so far. */
  datatype Pc =
    | Find
    | Complete
    | ListRows
    | SaveRow(rows: seq<Variant>)
    | CountPending
    | ListReady
    | MarkError
    | UploadMaster(infos: seq<VariantInfo>)
    | ReadVideo
    | SaveVideo(row: Video)
    | Done(sawZero: bool)
  {
    predicate Completed() {
      !Find? && !Complete?
    }

    predicate Saved() {
      Completed() && !ListRows? && !SaveRow?
    }

    /** The call counted zero pending tasks. */
    predicate Builder() {
      ListReady? || MarkError? || UploadMaster? || ReadVideo? || SaveVideo? || (Done? && sawZero)
    }

    /** The call has uploaded a master. */
    predicate Published() {
      ReadVideo? || SaveVideo? || (Done? && sawZero)
    }

    /** Completed, and either still to count or a builder. */
    predicate MayBuild() {
      ListRows? || SaveRow? || CountPending? || Builder()
    }
  }

  /** Call i reports task i, of resolution asked[i]; `completed` is the status column of these tasks, and no
      other task of the video is pending. */
  datatype Calls = Calls(video: string, asked: seq<string>, completed: seq<bool>, pcs: seq<Pc>,
                         variants: seq<Variant>, row: Video, master: Option<string>)

  // ---- One operation of one call ----

  predicate Runnable(c: Calls, i: nat) {
    && |c.asked| == |c.completed| == |c.pcs| && i < |c.pcs| && !c.pcs[i].Done?
    && (c.pcs[i].SaveRow? ==> |c.pcs[i].rows| == |c.variants|)
  }

  function Goto(c: Calls, i: nat, pc: Pc): Calls
    requires i < |c.pcs|
  {
    c.(pcs := c.pcs[i := pc])
  }

  function Operate(c: Calls, i: nat): Calls
    requires Runnable(c, i)
  {
    match c.pcs[i]
    case Find => Goto(c, i, Complete)
    case Complete => Goto(c.(completed := c.completed[i := true]), i, ListRows)
    case ListRows => Goto(c, i, SaveRow(c.variants))
    case SaveRow(rows) =>
      var j := FindProcessing(rows, c.asked[i]);
      Goto(if j < |rows| then c.(variants := c.variants[j := rows[j].(status := VariantStatus.Ready)]) else c,
           i, CountPending)
    case CountPending => Goto(c, i, if false in c.completed then Done(false) else ListReady)
    case ListReady =>
      Goto(c, i, if ReadyInfos(c.variants) == [] then MarkError else UploadMaster(ReadyInfos(c.variants)))
    case MarkError => Goto(c.(row := c.row.(status := VideoStatus.Error)), i, Done(true))
    case UploadMaster(infos) => Goto(c.(master := Some(MasterText(infos))), i, ReadVideo)
    case ReadVideo => Goto(c, i, SaveVideo(c.row))
    case SaveVideo(row) =>
      Goto(c.(row := row.(masterKey := Some(Master(c.video)), status := VideoStatus.Ready)), i, Done(true))
  }

  ghost predicate Schedulable(c: Calls, schedule: seq<nat>)
    decreases schedule
  {
    schedule == [] || (Runnable(c, schedule[0]) && Schedulable(Operate(c, schedule[0]), schedule[1..]))
  }

  function Execute(c: Calls, schedule: seq<nat>): Calls
    requires Schedulable(c, schedule)
    decreases schedule
  {
    if schedule == [] then c else Execute(Operate(c, schedule[0]), schedule[1..])
  }

  predicate IsTranscoding(v: Variant) {
    v.status.Processing? || v.status.Ready?
  }

  /** Every call is about to start, its task is pending, and its variant row exists. The bucket may hold the master
      of an earlier transcode. */
  predicate Start(c: Calls) {
    && |c.asked| == |c.completed| == |c.pcs| && |c.pcs| > 0
    && (forall i :: 0 <= i < |c.pcs| ==> c.pcs[i].Find? && !c.completed[i])
    && (forall i :: 0 <= i < |c.pcs| ==> HasResolution(c.variants, c.asked[i]))
    && (forall v :: v in c.variants ==> IsTranscoding(v))
  }

  // ---- The invariant ----

  /** `rows` was read earlier: since then rows have at most become ready. */
  predicate Grew(rows: seq<Variant>, now: seq<Variant>) {
    && |rows| == |now|
    && forall j :: 0 <= j < |rows| ==>
         now[j] == rows[j] || (rows[j].status.Processing? && now[j] == rows[j].(status := VariantStatus.Ready))
  }

  ghost predicate CallOk(c: Calls, i: nat)
    requires |c.asked| == |c.completed| == |c.pcs| && i < |c.pcs|
  {
    var pc := c.pcs[i];
    && (c.completed[i] <==> pc.Completed())
    && (pc.SaveRow? ==> Grew(pc.rows, c.variants))
    && (pc.Saved() ==> HasReady(c.variants, c.asked[i]))
    && !pc.MarkError?
    && (pc.UploadMaster? ==> pc.infos != [] && forall x :: x in pc.infos ==> x in ReadyInfos(c.variants))
    && (pc.Published() ==> c.master.Some? && Lists(c.master.value, ReadyInfos(c.variants)))
    && (pc.Done? && pc.sawZero ==> c.row.status.Ready? && c.row.masterKey == Some(Master(c.video)))
  }

  /** Once every task is completed, some call is still to count or has counted zero. */
  predicate SomeoneBuilds(c: Calls) {
    false !in c.completed ==>
      exists i :: 0 <= i < |c.pcs| && c.pcs[i].MayBuild()
  }

  ghost predicate CallsOk(c: Calls) {
    && |c.asked| == |c.completed| == |c.pcs| && |c.pcs| > 0
    && (forall i :: 0 <= i < |c.pcs| ==> CallOk(c, i))
    && (forall i :: 0 <= i < |c.pcs| ==> HasResolution(c.variants, c.asked[i]))
    && (forall v :: v in c.variants ==> IsTranscoding(v))
    && SomeoneBuilds(c)
  }

  // ---- Saving a row ----

  lemma ReadyGrows(before: seq<Variant>, after: seq<Variant>)
    requires Grew(before, after)
    ensures forall x :: x in ReadyInfos(before) ==> x in ReadyInfos(after)
    ensures forall res :: HasReady(before, res) ==> HasReady(after, res)
  {}

  /** The save writes back a row read earlier; the table has only grown, and the call's resolution is ready. */
  lemma SaveRowEffect(rows: seq<Variant>, now: seq<Variant>, res: string)
    requires Grew(rows, now) && forall v :: v in now ==> IsTranscoding(v)
    requires HasResolution(now, res)
    ensures var j := FindProcessing(rows, res);
            var after := if j < |rows| then now[j := rows[j].(status := VariantStatus.Ready)] else now;
            && Grew(now, after) && HasReady(after, res)
            && (forall v :: v in after ==> IsTranscoding(v))
            && |after| == |now| && forall k :: 0 <= k < |now| ==> after[k].res == now[k].res
  {}

  lemma SameResolutions(before: seq<Variant>, after: seq<Variant>, res: string)
    requires |after| == |before| && forall k :: 0 <= k < |before| ==> after[k].res == before[k].res
    requires HasResolution(before, res)
    ensures HasResolution(after, res)
  {}

  lemma GrewTwice(a: seq<Variant>, b: seq<Variant>, c: seq<Variant>)
    requires Grew(a, b) && Grew(b, c)
    ensures Grew(a, c)
  {}

  lemma OthersAfterSave(c: Calls, i: nat, c': Calls)
    requires CallsOk(c) && Runnable(c, i) && c.pcs[i].SaveRow? && c' == Operate(c, i)
    requires Grew(c.variants, c'.variants)
    ensures forall k :: 0 <= k < |c.pcs| && k != i ==> CallOk(c', k)
  {
    ReadyGrows(c.variants, c'.variants);
    forall k | 0 <= k < |c.pcs| && k != i ensures CallOk(c', k) {
      assert CallOk(c, k);
      if c.pcs[k].SaveRow? {
        GrewTwice(c.pcs[k].rows, c.variants, c'.variants);
      }
      if c.pcs[k].Published() {
        ListsMore(c.master.value, ReadyInfos(c.variants), ReadyInfos(c'.variants));
      }
    }
  }

  lemma BuilderStays(c: Calls, c': Calls, i: nat)
    requires SomeoneBuilds(c) && i < |c.pcs| == |c'.pcs| && c'.completed == c.completed
    requires forall k :: 0 <= k < |c.pcs| && k != i ==> c'.pcs[k] == c.pcs[k]
    requires c.pcs[i].MayBuild() ==> c'.pcs[i].MayBuild() || false in c.completed
    ensures SomeoneBuilds(c')
  {}

  lemma SaveRowStep(c: Calls, i: nat)
    requires CallsOk(c) && Runnable(c, i) && c.pcs[i].SaveRow?
    ensures CallsOk(Operate(c, i))
  {
    var c' := Operate(c, i);
    assert CallOk(c, i);
    SaveRowEffect(c.pcs[i].rows, c.variants, c.asked[i]);
    ReadyGrows(c.variants, c'.variants);
    OthersAfterSave(c, i, c');
    forall k | 0 <= k < |c.pcs| ensures HasResolution(c'.variants, c.asked[k]) {
      SameResolutions(c.variants, c'.variants, c.asked[k]);
    }
    BuilderStays(c, c', i);
  }

  lemma ReadOnlyStep(c: Calls, i: nat)
    requires CallsOk(c) && Runnable(c, i)
    requires c.pcs[i].Find? || c.pcs[i].ListRows? || c.pcs[i].CountPending? || c.pcs[i].ListReady? || c.pcs[i].ReadVideo?
    ensures CallsOk(Operate(c, i))
  {
    var c' := Operate(c, i);
    assert CallOk(c, i);
    if c.pcs[i].ListReady? {
      var v :| v in c.variants && v.res == c.asked[i] && v.status.Ready?;
      ReadyIsListed(c.variants, v);
    }
    forall k | 0 <= k < |c.pcs| ensures CallOk(c', k) {
      assert CallOk(c, k);
    }
    BuilderStays(c, c', i);
  }

  lemma CompleteStep(c: Calls, i: nat)
    requires CallsOk(c) && Runnable(c, i) && c.pcs[i].Complete?
    ensures CallsOk(Operate(c, i))
  {
    var c' := Operate(c, i);
    forall k | 0 <= k < |c.pcs| ensures CallOk(c', k) {
      assert CallOk(c, k);
    }
    assert c'.pcs[i].MayBuild();
  }

  lemma UploadStep(c: Calls, i: nat)
    requires CallsOk(c) && Runnable(c, i) && c.pcs[i].UploadMaster?
    ensures CallsOk(Operate(c, i))
  {
    var c' := Operate(c, i);
    assert CallOk(c, i);
    ListsItself(c.pcs[i].infos);
    ListsMore(c'.master.value, c.pcs[i].infos, ReadyInfos(c.variants));
    forall k | 0 <= k < |c.pcs| ensures CallOk(c', k) {
      assert CallOk(c, k);
    }
    BuilderStays(c, c', i);
  }

  lemma SaveVideoStep(c: Calls, i: nat)
    requires CallsOk(c) && Runnable(c, i) && c.pcs[i].SaveVideo?
    ensures CallsOk(Operate(c, i))
  {
    var c' := Operate(c, i);
    forall k | 0 <= k < |c.pcs| ensures CallOk(c', k) {
      assert CallOk(c, k);
    }
    BuilderStays(c, c', i);
  }

  lemma OperateKeepsCalls(c: Calls, i: nat)
    requires CallsOk(c) && Runnable(c, i)
    ensures CallsOk(Operate(c, i))
  {
    assert CallOk(c, i);
    match c.pcs[i]
    case Complete => CompleteStep(c, i);
    case SaveRow(_) => SaveRowStep(c, i);
    case UploadMaster(_) => UploadStep(c, i);
    case SaveVideo(_) => SaveVideoStep(c, i);
    case _ => ReadOnlyStep(c, i);
  }

  lemma {:induction false} ExecuteKeepsCalls(c: Calls, schedule: seq<nat>)
    requires CallsOk(c) && Schedulable(c, schedule)
    ensures CallsOk(Execute(c, schedule))
    decreases schedule
  {
    if schedule != [] {
      OperateKeepsCalls(c, schedule[0]);
      ExecuteKeepsCalls(Operate(c, schedule[0]), schedule[1..]);
    }
  }

  lemma StartIsOk(c: Calls)
    requires Start(c)
    ensures CallsOk(c)
  {
    assert c.completed[0] == false;
  }

  lemma {:induction false} SameCalls(c: Calls, schedule: seq<nat>)
    requires Schedulable(c, schedule)
    ensures Execute(c, schedule).video == c.video
    decreases schedule
  {
    if schedule != [] {
      SameCalls(Operate(c, schedule[0]), schedule[1..]);
    }
  }

  /** However the calls interleave, once all have returned some call has seen zero pending tasks, and the video
      is ready with its master key and a master object that lists at least one ready variant and no other. */
  lemma SomeCallBuilds(c: Calls, schedule: seq<nat>)
    requires Start(c) && Schedulable(c, schedule)
    requires forall pc :: pc in Execute(c, schedule).pcs ==> pc.Done?
    ensures var c' := Execute(c, schedule);
            && Done(true) in c'.pcs
            && c'.row.status.Ready? && c'.row.masterKey == Some(Master(c.video))
            && c'.master.Some? && Lists(c'.master.value, ReadyInfos(c'.variants))
  {
    StartIsOk(c);
    ExecuteKeepsCalls(c, schedule);
    var c' := Execute(c, schedule);
    SameCalls(c, schedule);
    forall i | 0 <= i < |c'.pcs| ensures c'.completed[i] {
      assert c'.pcs[i] in c'.pcs && CallOk(c', i);
    }
    assert false !in c'.completed;
    var i :| 0 <= i < |c'.pcs| && c'.pcs[i].MayBuild();
    assert c'.pcs[i] in c'.pcs && CallOk(c', i);
  }
}
