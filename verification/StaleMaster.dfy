/** Two concurrent completions after which the master lists one of two ready variants. */
module StaleMaster {
  import opened Basics
  import opened Keys
  import opened Playlist
  import opened PipelineState
  import opened VariantRows
  import opened MissedBuild

  /** `from` reaches `to` by running the calls in `schedule` one operation each. */
  ghost predicate Reaches(from: Calls, schedule: seq<nat>, to: Calls) {
    Schedulable(from, schedule) && Execute(from, schedule) == to
  }

  lemma {:induction false} ThenOperate(from: Calls, schedule: seq<nat>, mid: Calls, i: nat)
    requires Reaches(from, schedule, mid) && Runnable(mid, i)
    ensures Reaches(from, schedule + [i], Operate(mid, i))
    decreases schedule
  {
    if schedule == [] {
      assert [i][1..] == [];
    } else {
      assert (schedule + [i])[1..] == schedule[1..] + [i];
      ThenOperate(Operate(from, schedule[0]), schedule[1..], mid, i);
    }
  }

  /** Call i makes n operations on its own. */
  ghost predicate Repeats(c: Calls, i: nat, n: nat, to: Calls)
    decreases n
  {
    if n == 0 then c == to else Runnable(c, i) && Repeats(Operate(c, i), i, n - 1, to)
  }

  lemma {:induction false} Then(from: Calls, schedule: seq<nat>, mid: Calls, i: nat, n: nat, to: Calls)
      returns (longer: seq<nat>)
    requires Reaches(from, schedule, mid) && Repeats(mid, i, n, to)
    ensures Reaches(from, longer, to)
    decreases n
  {
    if n == 0 {
      longer := schedule;
    } else {
      ThenOperate(from, schedule, mid, i);
      longer := Then(from, schedule + [i], Operate(mid, i), i, n - 1, to);
    }
  }

  function TwoCalls(video: string, row: Video, a: Variant, b: Variant): Calls {
    Calls(video, [a.res, b.res], [false, false], [Find, Find], [a, b], row, None)
  }

  lemma ReadyOfTwo(a: Variant, b: Variant)
    requires a.status.Ready?
    ensures ReadyInfos([a, b]) == if b.status.Ready? then [Info(a), Info(b)] else [Info(a)]
  {
    assert [a, b][..1] == [a] && [a][..0] == [];
    assert ReadyInfos([a]) == ReadyInfos([]) + [Info(a)];
  }

  lemma CompletesItsTask(c: Calls, i: nat)
    requires Runnable(c, i) && c.pcs[i].Find?
    ensures Repeats(c, i, 2, c.(completed := c.completed[i := true], pcs := c.pcs[i := ListRows]))
  {}

  lemma SavesItsRow(c: Calls, i: nat, j: nat)
    requires Runnable(c, i) && c.pcs[i].ListRows? && FirstProcessing(c.variants, c.asked[i], j)
    ensures Repeats(c, i, 2, c.(variants := c.variants[j := c.variants[j].(status := VariantStatus.Ready)],
                                pcs := c.pcs[i := CountPending]))
  {}

  lemma ListsReadyRows(c: Calls, i: nat)
    requires Runnable(c, i) && c.pcs[i].CountPending? && false !in c.completed && ReadyInfos(c.variants) != []
    ensures Repeats(c, i, 2, c.(pcs := c.pcs[i := UploadMaster(ReadyInfos(c.variants))]))
  {}

  lemma Publishes(c: Calls, i: nat)
    requires Runnable(c, i) && c.pcs[i].UploadMaster?
    ensures Repeats(c, i, 3, c.(master := Some(MasterText(c.pcs[i].infos)), pcs := c.pcs[i := Done(true)],
                                row := c.row.(masterKey := Some(Master(c.video)), status := VideoStatus.Ready)))
  {}

  /** Call 0 holds a listing taken before call 1 saves its row. */
  function StaleListing(video: string, row: Video, a: Variant, b: Variant): Calls {
    var ra := a.(status := VariantStatus.Ready);
    Calls(video, [a.res, b.res], [true, true], [UploadMaster([Info(ra)]), ListRows], [ra, b], row, None)
  }

  lemma ReachesStaleListing(video: string, row: Video, a: Variant, b: Variant) returns (schedule: seq<nat>)
    requires a.res != b.res && a.status.Processing? && b.status.Processing?
    ensures Reaches(TwoCalls(video, row, a, b), schedule, StaleListing(video, row, a, b))
  {
    var ra := a.(status := VariantStatus.Ready);
    ReadyOfTwo(ra, b);
    var c := TwoCalls(video, row, a, b);
    var c1 := c.(completed := [true, false], pcs := [ListRows, Find]);
    var c2 := c.(completed := [true, true], pcs := [ListRows, ListRows]);
    var c3 := c2.(variants := [ra, b], pcs := [CountPending, ListRows]);
    CompletesItsTask(c, 0);
    schedule := Then(c, [], c, 0, 2, c1);
    CompletesItsTask(c1, 1);
    schedule := Then(c, schedule, c1, 1, 2, c2);
    SavesItsRow(c2, 0, 0);
    schedule := Then(c, schedule, c2, 0, 2, c3);
    ListsReadyRows(c3, 0);
    schedule := Then(c, schedule, c3, 0, 2, StaleListing(video, row, a, b));
  }

  /** Both calls hold a listing, and call 1's is complete. */
  function TwoListings(video: string, row: Video, a: Variant, b: Variant): Calls {
    var ra, rb := a.(status := VariantStatus.Ready), b.(status := VariantStatus.Ready);
    StaleListing(video, row, a, b).(variants := [ra, rb],
                                    pcs := [UploadMaster([Info(ra)]), UploadMaster([Info(ra), Info(rb)])])
  }

  lemma ReachesTwoListings(video: string, row: Video, a: Variant, b: Variant) returns (schedule: seq<nat>)
    requires a.res != b.res && a.status.Processing? && b.status.Processing?
    ensures Reaches(TwoCalls(video, row, a, b), schedule, TwoListings(video, row, a, b))
  {
    var ra, rb := a.(status := VariantStatus.Ready), b.(status := VariantStatus.Ready);
    ReadyOfTwo(ra, rb);
    var c, c1 := TwoCalls(video, row, a, b), StaleListing(video, row, a, b);
    var c2 := c1.(variants := [ra, rb], pcs := [UploadMaster([Info(ra)]), CountPending]);
    schedule := ReachesStaleListing(video, row, a, b);
    SavesItsRow(c1, 1, 1);
    schedule := Then(c, schedule, c1, 1, 2, c2);
    ListsReadyRows(c2, 1);
    schedule := Then(c, schedule, c2, 1, 2, TwoListings(video, row, a, b));
  }

  lemma StartsProcessing(c: Calls)
    requires |c.asked| == |c.completed| == |c.pcs| == |c.variants| == 2
    requires c.pcs == [Find, Find] && c.completed == [false, false] && forall v :: v in c.variants ==> IsTranscoding(v)
    requires c.variants[0].res == c.asked[0] && c.variants[1].res == c.asked[1]
    ensures MissedBuild.Start(c)
  {}

  /** Two completions can leave a ready variant out: call 0 lists the ready rows before call 1 has saved its
      own, call 1 then saves, lists and uploads, and the stale upload of call 0 comes last. */
  lemma StaleUploadLosesAVariant(video: string, row: Video, a: Variant, b: Variant) returns (schedule: seq<nat>)
    requires a.res != b.res && a.status.Processing? && b.status.Processing?
    ensures var c := TwoCalls(video, row, a, b);
            var ra, rb := a.(status := VariantStatus.Ready), b.(status := VariantStatus.Ready);
            && MissedBuild.Start(c) && Schedulable(c, schedule)
            && Execute(c, schedule).pcs == [Done(true), Done(true)]
            && Execute(c, schedule).variants == [ra, rb]
            && Execute(c, schedule).master == Some(MasterText([Info(ra)]))
  {
    var ra, rb := a.(status := VariantStatus.Ready), b.(status := VariantStatus.Ready);
    var c, c1 := TwoCalls(video, row, a, b), TwoListings(video, row, a, b);
    var built := row.(masterKey := Some(Master(video)), status := VideoStatus.Ready);
    var c2 := c1.(pcs := [UploadMaster([Info(ra)]), Done(true)],
                  master := Some(MasterText([Info(ra), Info(rb)])), row := built);
    schedule := ReachesTwoListings(video, row, a, b);
    Publishes(c1, 1);
    schedule := Then(c, schedule, c1, 1, 3, c2);
    Publishes(c2, 0);
    schedule := Then(c, schedule, c2, 0, 3, c2.(pcs := [Done(true), Done(true)], master := Some(MasterText([Info(ra)]))));
    StartsProcessing(c);
  }
}
