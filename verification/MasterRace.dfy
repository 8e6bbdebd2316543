/** Exactly when the master lists every ready variant although CompleteTask calls interleave. */
module MasterRace {
  import opened Basics
  import opened Keys
  import opened Playlist
  import opened PipelineState
  import opened VariantRows
  import opened VideoInvariant
  import opened MissedBuild

  // ---- Parts of a schedule ----

  lemma {:induction false} SplitExecution(c: Calls, a: seq<nat>, b: seq<nat>)
    requires Schedulable(c, a + b)
    ensures Schedulable(c, a) && Schedulable(Execute(c, a), b) && Execute(c, a + b) == Execute(Execute(c, a), b)
    decreases a
  {
    if a == [] {
      assert a + b == b;
    } else {
      assert (a + b)[0] == a[0] && (a + b)[1..] == a[1..] + b;
      SplitExecution(Operate(c, a[0]), a[1..], b);
    }
  }

  /** A call that makes no operation stays where it is. */
  lemma {:induction false} Untouched(c: Calls, schedule: seq<nat>, i: nat)
    requires Schedulable(c, schedule) && i !in schedule && i < |c.pcs|
    ensures |Execute(c, schedule).pcs| == |c.pcs| && Execute(c, schedule).pcs[i] == c.pcs[i]
    decreases schedule
  {
    if schedule != [] {
      Untouched(Operate(c, schedule[0]), schedule[1..], i);
    }
  }

  lemma {:induction false} SameTasks(c: Calls, schedule: seq<nat>)
    requires Schedulable(c, schedule)
    ensures Execute(c, schedule).asked == c.asked && |Execute(c, schedule).pcs| == |c.pcs|
    decreases schedule
  {
    if schedule != [] {
      SameTasks(Operate(c, schedule[0]), schedule[1..]);
    }
  }

  lemma {:induction false} LastStep(schedule: seq<nat>, i: nat) returns (before: seq<nat>, between: seq<nat>)
    requires i in schedule
    ensures schedule == before + ([i] + between) && i !in between
  {
    var n := |schedule| - 1;
    if schedule[n] == i {
      before, between := schedule[..n], [];
    } else {
      before, between := LastStep(schedule[..n], i);
      between := between + [schedule[n]];
    }
  }

  // ---- The last upload and its listing ----

  ghost predicate Uploads(c: Calls, schedule: seq<nat>)
    requires Schedulable(c, schedule)
    decreases schedule
  {
    schedule != [] && (c.pcs[schedule[0]].UploadMaster? || Uploads(Operate(c, schedule[0]), schedule[1..]))
  }

  lemma {:induction false} PublishedUploaded(c: Calls, schedule: seq<nat>, i: nat)
    requires CallsOk(c) && Schedulable(c, schedule) && i < |c.pcs| && !c.pcs[i].Published()
    requires i < |Execute(c, schedule).pcs| && Execute(c, schedule).pcs[i].Published()
    ensures Uploads(c, schedule)
    decreases schedule
  {
    if schedule != [] {
      assert CallOk(c, schedule[0]);
      OperateKeepsCalls(c, schedule[0]);
      var next := Operate(c, schedule[0]);
      if !next.pcs[i].Published() {
        PublishedUploaded(next, schedule[1..], i);
      }
    }
  }

  /** Call i uploads after `before`, and nobody uploads in `after`. */
  ghost predicate IsLastUpload(c: Calls, schedule: seq<nat>, before: seq<nat>, i: nat, after: seq<nat>)
    requires Schedulable(c, schedule)
  {
    && schedule == before + ([i] + after)
    && Schedulable(c, before) && Runnable(Execute(c, before), i) && Execute(c, before).pcs[i].UploadMaster?
    && var uploaded := Operate(Execute(c, before), i);
       Schedulable(uploaded, after) && !Uploads(uploaded, after) && Execute(c, schedule) == Execute(uploaded, after)
  }

  lemma OneEarlier(c: Calls, schedule: seq<nat>, before: seq<nat>, i: nat, after: seq<nat>)
    requires Schedulable(c, schedule) && schedule != []
    requires IsLastUpload(Operate(c, schedule[0]), schedule[1..], before, i, after)
    ensures IsLastUpload(c, schedule, [schedule[0]] + before, i, after)
  {
    assert ([schedule[0]] + before)[1..] == before;
    assert schedule == [schedule[0]] + schedule[1..] == ([schedule[0]] + before) + ([i] + after);
  }

  lemma {:induction false} LastUpload(c: Calls, schedule: seq<nat>)
      returns (before: seq<nat>, i: nat, after: seq<nat>)
    requires Schedulable(c, schedule) && Uploads(c, schedule)
    ensures IsLastUpload(c, schedule, before, i, after)
    decreases schedule
  {
    var next := Operate(c, schedule[0]);
    if Uploads(next, schedule[1..]) {
      before, i, after := LastUpload(next, schedule[1..]);
      OneEarlier(c, schedule, before, i, after);
      before := [schedule[0]] + before;
    } else {
      before, i, after := [], schedule[0], schedule[1..];
      assert schedule == [] + ([schedule[0]] + schedule[1..]);
    }
  }

  lemma {:induction false} MasterAfterLastUpload(c: Calls, schedule: seq<nat>)
    requires Schedulable(c, schedule) && !Uploads(c, schedule)
    ensures Execute(c, schedule).master == c.master
    decreases schedule
  {
    if schedule != [] {
      MasterAfterLastUpload(Operate(c, schedule[0]), schedule[1..]);
    }
  }

  // ---- Rows over a run ----

  lemma OperateGrows(c: Calls, i: nat)
    requires CallsOk(c) && Runnable(c, i)
    ensures Grew(c.variants, Operate(c, i).variants)
  {
    assert CallOk(c, i);
    if c.pcs[i].SaveRow? {
      SaveRowEffect(c.pcs[i].rows, c.variants, c.asked[i]);
    }
  }

  lemma {:induction false} ExecuteGrows(c: Calls, schedule: seq<nat>)
    requires CallsOk(c) && Schedulable(c, schedule)
    ensures Grew(c.variants, Execute(c, schedule).variants)
    decreases schedule
  {
    if schedule != [] {
      var next := Operate(c, schedule[0]);
      OperateGrows(c, schedule[0]);
      OperateKeepsCalls(c, schedule[0]);
      ExecuteGrows(next, schedule[1..]);
      GrewTwice(c.variants, next.variants, Execute(c, schedule).variants);
    }
  }

  ghost predicate AllSaved(c: Calls) {
    forall k :: 0 <= k < |c.pcs| ==> c.pcs[k].Saved()
  }

  lemma {:induction false} SavedRowsStay(c: Calls, schedule: seq<nat>)
    requires Schedulable(c, schedule) && AllSaved(c)
    ensures Execute(c, schedule).variants == c.variants && AllSaved(Execute(c, schedule))
    decreases schedule
  {
    if schedule != [] {
      SavedRowsStay(Operate(c, schedule[0]), schedule[1..]);
    }
  }

  /** Each call has a row of its own: asked resolutions differ and each has a row still processing. */
  predicate OwnRows(c: Calls) {
    && (forall i, j :: 0 <= i < j < |c.asked| ==> c.asked[i] != c.asked[j])
    && (forall i :: 0 <= i < |c.asked| ==> FindProcessing(c.variants, c.asked[i]) < |c.variants|)
  }

  /** The row of call k, the j-th of the rows at the start, is as it was until the call saves it, and then ready. */
  predicate Owns(rows: seq<Variant>, c: Calls, k: nat)
    requires k < |c.pcs| == |c.asked|
  {
    var j := FindProcessing(rows, c.asked[k]);
    && j < |rows| == |c.variants|
    && (if c.pcs[k].Saved() then c.variants[j].status.Ready? else c.variants[j] == rows[j])
    && (c.pcs[k].SaveRow? ==> Grew(rows, c.pcs[k].rows) && c.pcs[k].rows[j] == rows[j])
  }

  ghost predicate AllOwn(rows: seq<Variant>, c: Calls) {
    && |c.pcs| == |c.asked| && Grew(rows, c.variants)
    && (forall i, j :: 0 <= i < j < |c.asked| ==> c.asked[i] != c.asked[j])
    && (forall k :: 0 <= k < |c.pcs| ==> Owns(rows, c, k))
  }

  lemma StillFirst(rows: seq<Variant>, now: seq<Variant>, res: string)
    requires Grew(rows, now)
    requires var j := FindProcessing(rows, res); j < |rows| && now[j] == rows[j]
    ensures FindProcessing(now, res) == FindProcessing(rows, res)
  {
    assert FirstProcessing(rows, res, FindProcessing(rows, res));
  }

  lemma SaveKeepsOwn(rows: seq<Variant>, c: Calls, i: nat)
    requires CallsOk(c) && Runnable(c, i) && AllOwn(rows, c) && c.pcs[i].SaveRow?
    ensures forall k :: 0 <= k < |c.pcs| ==> Owns(rows, Operate(c, i), k)
  {
    assert Owns(rows, c, i);
    StillFirst(rows, c.pcs[i].rows, c.asked[i]);
    assert FirstProcessing(rows, c.asked[i], FindProcessing(rows, c.asked[i]));
    forall k | 0 <= k < |c.pcs| ensures Owns(rows, Operate(c, i), k) {
      assert Owns(rows, c, k);
      assert FirstProcessing(rows, c.asked[k], FindProcessing(rows, c.asked[k]));
    }
  }

  lemma OperateKeepsOwn(rows: seq<Variant>, c: Calls, i: nat)
    requires CallsOk(c) && Runnable(c, i) && AllOwn(rows, c)
    ensures AllOwn(rows, Operate(c, i))
  {
    OperateGrows(c, i);
    GrewTwice(rows, c.variants, Operate(c, i).variants);
    if c.pcs[i].SaveRow? {
      SaveKeepsOwn(rows, c, i);
    } else {
      forall k | 0 <= k < |c.pcs| ensures Owns(rows, Operate(c, i), k) {
        assert Owns(rows, c, k);
      }
    }
  }

  lemma {:induction false} ExecuteKeepsOwn(rows: seq<Variant>, c: Calls, schedule: seq<nat>)
    requires CallsOk(c) && Schedulable(c, schedule) && AllOwn(rows, c)
    ensures AllOwn(rows, Execute(c, schedule)) && CallsOk(Execute(c, schedule))
    decreases schedule
  {
    if schedule != [] {
      OperateKeepsOwn(rows, c, schedule[0]);
      OperateKeepsCalls(c, schedule[0]);
      ExecuteKeepsOwn(rows, Operate(c, schedule[0]), schedule[1..]);
    }
  }

  lemma StartOwns(c: Calls)
    requires MissedBuild.Start(c) && OwnRows(c)
    ensures AllOwn(c.variants, c)
  {}

  // ---- A later ready row makes the text longer ----

  function EntryLength(x: VariantInfo): (n: nat)
    ensures n > 0
  {
    |StreamInf(x)| + |x.path| + 2
  }

  lemma EntryAddsText(infos: seq<VariantInfo>, x: VariantInfo)
    ensures |MasterText(infos + [x])| == |MasterText(infos)| + EntryLength(x)
  {
    MasterOneMore(infos, x);
  }

  /** The sum of what the ready rows add. */
  function ReadySize(rows: seq<Variant>, size: Variant -> nat): nat {
    if rows == [] then 0
    else
      var last := rows[|rows| - 1];
      ReadySize(rows[..|rows| - 1], size) + if last.status.Ready? then size(last) else 0
  }

  lemma {:induction false} TextIsSum(rows: seq<Variant>, size: Variant -> nat)
    requires forall v :: size(v) == EntryLength(Info(v))
    ensures |MasterText(ReadyInfos(rows))| == |MasterText([])| + ReadySize(rows, size)
  {
    if rows != [] {
      var n := |rows| - 1;
      TextIsSum(rows[..n], size);
      EntryAddsText(ReadyInfos(rows[..n]), Info(rows[n]));
      assert ReadyInfos(rows[..n]) + [] == ReadyInfos(rows[..n]);
    }
  }

  lemma {:induction false} SumGrows(before: seq<Variant>, after: seq<Variant>, size: Variant -> nat)
    requires Grew(before, after) && forall v :: size(v) > 0
    ensures ReadySize(before, size) <= ReadySize(after, size)
    ensures before != after ==> ReadySize(before, size) < ReadySize(after, size)
  {
    if before != [] {
      var n := |before| - 1;
      SumGrows(before[..n], after[..n], size);
      assert before == before[..n] + [before[n]] && after == after[..n] + [after[n]];
    }
  }

  /** The master of rows that have grown is the same only if no row has become ready. */
  lemma TextGrows(before: seq<Variant>, after: seq<Variant>)
    requires Grew(before, after) && before != after
    ensures MasterText(ReadyInfos(before)) != MasterText(ReadyInfos(after))
  {
    var size: Variant -> nat := v => EntryLength(Info(v));
    TextIsSum(before, size);
    TextIsSum(after, size);
    SumGrows(before, after, size);
  }

  // ---- When the master is complete ----

  ghost predicate Complete(c: Calls) {
    c.master == Some(MasterText(ReadyInfos(c.variants)))
  }

  /** From call i's listing to the end of the run: between the listing and its upload call i does nothing else,
      and nobody uploads after it. */
  ghost predicate Publishes(listing: Calls, i: nat, between: seq<nat>, after: seq<nat>, final: Calls) {
    && Runnable(listing, i) && listing.pcs[i].ListReady?
    && Schedulable(Operate(listing, i), between) && i !in between
    && var ready := Execute(Operate(listing, i), between);
       && Runnable(ready, i) && ready.pcs[i].UploadMaster?
       && Schedulable(Operate(ready, i), after) && !Uploads(Operate(ready, i), after)
       && final == Execute(Operate(ready, i), after)
  }

  lemma PublishedText(listing: Calls, i: nat, between: seq<nat>, after: seq<nat>, final: Calls)
    requires CallsOk(listing) && Publishes(listing, i, between, after, final)
    ensures final.master == Some(MasterText(ReadyInfos(listing.variants)))
    ensures CallsOk(final) && Grew(listing.variants, final.variants)
  {
    var listed := Operate(listing, i);
    var ready := Execute(listed, between);
    var uploaded := Operate(ready, i);
    OperateKeepsCalls(listing, i);
    ExecuteKeepsCalls(listed, between);
    OperateKeepsCalls(ready, i);
    ExecuteKeepsCalls(uploaded, after);
    Untouched(listed, between, i);
    MasterAfterLastUpload(uploaded, after);
    ExecuteGrows(listed, between);
    ExecuteGrows(uploaded, after);
    GrewTwice(listing.variants, ready.variants, final.variants);
  }

  /** A call that has not saved its row at the listing makes one more row ready later. */
  lemma UnsavedRowChanges(rows: seq<Variant>, listing: Calls, final: Calls, k: nat)
    requires AllOwn(rows, listing) && AllOwn(rows, final) && k < |listing.pcs| == |final.pcs|
    requires listing.asked == final.asked && !listing.pcs[k].Saved() && final.pcs[k].Saved()
    ensures final.variants != listing.variants
  {
    var j := FindProcessing(rows, listing.asked[k]);
    assert Owns(rows, listing, k) && Owns(rows, final, k) && FirstProcessing(rows, listing.asked[k], j);
  }

  lemma FinishedRunUploads(c: Calls, schedule: seq<nat>)
    requires MissedBuild.Start(c) && Schedulable(c, schedule)
    requires forall pc :: pc in Execute(c, schedule).pcs ==> pc.Done?
    ensures Uploads(c, schedule) && CallsOk(c)
  {
    StartIsOk(c);
    SomeCallBuilds(c, schedule);
    SameTasks(c, schedule);
    var builder :| 0 <= builder < |Execute(c, schedule).pcs| && Execute(c, schedule).pcs[builder] == Done(true);
    PublishedUploaded(c, schedule, builder);
  }

  /** The last operation of a call before its upload is its listing. */
  lemma ListingBeforeUpload(c: Calls, early: seq<nat>, i: nat) returns (before: seq<nat>, between: seq<nat>)
    requires CallsOk(c) && Schedulable(c, early) && i < |c.pcs| && c.pcs[i].Find?
    requires Runnable(Execute(c, early), i) && Execute(c, early).pcs[i].UploadMaster?
    ensures early == before + ([i] + between) && i !in between
    ensures Schedulable(c, before) && Runnable(Execute(c, before), i) && Execute(c, before).pcs[i].ListReady?
    ensures var listed := Operate(Execute(c, before), i);
            Schedulable(listed, between) && Execute(listed, between) == Execute(c, early)
  {
    if i !in early {
      Untouched(c, early, i);
    }
    before, between := LastStep(early, i);
    SplitExecution(c, before, [i] + between);
    assert ([i] + between)[0] == i && ([i] + between)[1..] == between;
    Untouched(Operate(Execute(c, before), i), between, i);
  }

  /** The last listing of a run: the schedule falls into what comes before it, call i's listing, what the other
      calls do until call i uploads it, that upload, and the rest. */
  lemma LastListing(c: Calls, schedule: seq<nat>)
      returns (before: seq<nat>, i: nat, between: seq<nat>, after: seq<nat>)
    requires MissedBuild.Start(c) && Schedulable(c, schedule)
    requires forall pc :: pc in Execute(c, schedule).pcs ==> pc.Done?
    ensures schedule == before + ([i] + between) + ([i] + after)
    ensures Schedulable(c, before) && CallsOk(Execute(c, before))
    ensures Publishes(Execute(c, before), i, between, after, Execute(c, schedule))
  {
    FinishedRunUploads(c, schedule);
    var early: seq<nat>;
    early, i, after := LastUpload(c, schedule);
    SameTasks(c, early);
    before, between := ListingBeforeUpload(c, early, i);
    ExecuteKeepsCalls(c, before);
  }

  lemma SomeoneSavesLater(c: Calls, before: seq<nat>, schedule: seq<nat>)
    requires MissedBuild.Start(c) && OwnRows(c) && Schedulable(c, before) && Schedulable(c, schedule)
    requires !AllSaved(Execute(c, before)) && forall pc :: pc in Execute(c, schedule).pcs ==> pc.Done?
    ensures Execute(c, schedule).variants != Execute(c, before).variants
  {
    StartIsOk(c);
    StartOwns(c);
    ExecuteKeepsOwn(c.variants, c, before);
    ExecuteKeepsOwn(c.variants, c, schedule);
    SameTasks(c, before);
    SameTasks(c, schedule);
    var k :| 0 <= k < |Execute(c, before).pcs| && !Execute(c, before).pcs[k].Saved();
    assert Execute(c, schedule).pcs[k] in Execute(c, schedule).pcs;
    UnsavedRowChanges(c.variants, Execute(c, before), Execute(c, schedule), k);
  }

  lemma SavedByThen(listing: Calls, i: nat, between: seq<nat>, after: seq<nat>, final: Calls)
    requires Publishes(listing, i, between, after, final) && AllSaved(listing)
    ensures final.variants == listing.variants
  {
    var listed := Operate(listing, i);
    SavedRowsStay(listed, between);
    SavedRowsStay(Operate(Execute(listed, between), i), after);
  }

  /** The master a run leaves lists every ready variant if and only if no row changed after the last listing; and
      when every call has a row of its own, if and only if every call had saved its row by then. */
  lemma CompleteIff(c: Calls, schedule: seq<nat>)
      returns (before: seq<nat>, i: nat, between: seq<nat>, after: seq<nat>)
    requires MissedBuild.Start(c) && Schedulable(c, schedule)
    requires forall pc :: pc in Execute(c, schedule).pcs ==> pc.Done?
    ensures schedule == before + ([i] + between) + ([i] + after) && Schedulable(c, before)
    ensures Publishes(Execute(c, before), i, between, after, Execute(c, schedule))
    ensures Complete(Execute(c, schedule)) <==> Execute(c, schedule).variants == Execute(c, before).variants
    ensures OwnRows(c) ==> (Complete(Execute(c, schedule)) <==> AllSaved(Execute(c, before)))
    ensures AllSaved(Execute(c, before)) ==> Complete(Execute(c, schedule))
  {
    before, i, between, after := LastListing(c, schedule);
    var listing, final := Execute(c, before), Execute(c, schedule);
    PublishedText(listing, i, between, after, final);
    if final.variants != listing.variants {
      TextGrows(listing.variants, final.variants);
    }
    if AllSaved(listing) {
      SavedByThen(listing, i, between, after, final);
    } else if OwnRows(c) {
      SomeoneSavesLater(c, before, schedule);
    }
  }

  // ---- One builder ----

  ghost predicate BuildersAreLast(c: Calls) {
    forall k :: 0 <= k < |c.pcs| && c.pcs[k].Builder() ==> false !in c.completed
  }

  lemma {:induction false} BuildersStayLast(c: Calls, schedule: seq<nat>)
    requires CallsOk(c) && BuildersAreLast(c) && Schedulable(c, schedule)
    ensures BuildersAreLast(Execute(c, schedule))
    decreases schedule
  {
    if schedule != [] {
      OperateKeepsCalls(c, schedule[0]);
      BuildersStayLast(Operate(c, schedule[0]), schedule[1..]);
    }
  }

  /** Once nothing is pending, a completed call that has not counted yet becomes a builder and stays one. */
  lemma {:induction false} BuilderForEver(c: Calls, schedule: seq<nat>, k: nat)
    requires CallsOk(c) && Schedulable(c, schedule) && false !in c.completed && k < |c.pcs| && c.pcs[k].MayBuild()
    ensures k < |Execute(c, schedule).pcs| && Execute(c, schedule).pcs[k].MayBuild()
    decreases schedule
  {
    if schedule != [] {
      assert CallOk(c, schedule[0]);
      OperateKeepsCalls(c, schedule[0]);
      assert Operate(c, schedule[0]).completed == c.completed;
      BuilderForEver(Operate(c, schedule[0]), schedule[1..], k);
    }
  }

  /** A call that is late at the last listing builds as well. */
  lemma OtherBuilder(listing: Calls, i: nat, between: seq<nat>, after: seq<nat>, final: Calls, k: nat)
    requires CallsOk(listing) && BuildersAreLast(listing) && Publishes(listing, i, between, after, final)
    requires k < |listing.pcs| && !listing.pcs[k].Saved()
    ensures i < |final.pcs| && k < |final.pcs| && i != k && final.pcs[i].MayBuild() && final.pcs[k].MayBuild()
  {
    assert CallOk(listing, k);
    var listed := Operate(listing, i);
    var ready := Execute(listed, between);
    OperateKeepsCalls(listing, i);
    ExecuteKeepsCalls(listed, between);
    BuildersStayLast(listed, between);
    OperateKeepsCalls(ready, i);
    BuilderForEver(listed, between, k);
    BuilderForEver(Operate(ready, i), after, k);
    BuilderForEver(Operate(ready, i), after, i);
  }

  /** With one builder, every call has saved its row when that builder lists. */
  lemma NobodyIsLate(c: Calls, before: seq<nat>, i: nat, between: seq<nat>, after: seq<nat>, final: Calls, builder: nat)
    requires MissedBuild.Start(c) && Schedulable(c, before) && Publishes(Execute(c, before), i, between, after, final)
    requires forall k :: 0 <= k < |final.pcs| && k != builder ==> final.pcs[k] == Done(false)
    ensures AllSaved(Execute(c, before))
  {
    var listing := Execute(c, before);
    StartIsOk(c);
    ExecuteKeepsCalls(c, before);
    BuildersStayLast(c, before);
    forall k | 0 <= k < |listing.pcs| ensures listing.pcs[k].Saved() {
      if !listing.pcs[k].Saved() {
        OtherBuilder(listing, i, between, after, final, k);
      }
    }
  }

  /** When only one call sees zero pending tasks, the master is complete, and it lists every reported resolution. */
  lemma SingleBuilderListsAll(c: Calls, schedule: seq<nat>, builder: nat)
    requires MissedBuild.Start(c) && Schedulable(c, schedule)
    requires builder < |Execute(c, schedule).pcs| && Execute(c, schedule).pcs[builder] == Done(true)
    requires forall k :: 0 <= k < |Execute(c, schedule).pcs| && k != builder ==>
               Execute(c, schedule).pcs[k] == Done(false)
    ensures Complete(Execute(c, schedule))
    ensures forall res :: res in c.asked ==> HasReady(Execute(c, schedule).variants, res)
  {
    var final := Execute(c, schedule);
    var before, i, between, after := CompleteIff(c, schedule);
    NobodyIsLate(c, before, i, between, after, final, builder);
    StartIsOk(c);
    ExecuteKeepsCalls(c, schedule);
    SameTasks(c, schedule);
    forall res | res in c.asked ensures HasReady(final.variants, res) {
      var k :| 0 <= k < |c.asked| && c.asked[k] == res;
      assert CallOk(final, k);
    }
  }
}
