/** When the timestamps recorded for a video's thumbnails are those the frames were extracted at. */
module ThumbnailAgreement {
  import opened Basics
  import opened Keys
  import opened Listing
  import opened PipelineState
  import opened Thumbnails

  // ---- Timestamps ----

  lemma TimestampIs(stored: real, count: nat, k: nat)
    requires stored > 0.0 && count > 0
    ensures Timestamp(Some(stored), count, k) == ExtractedAt(stored, count, k + 1)
  {}

  lemma {:induction false} Increasing(unit: real, i: nat, j: nat)
    requires unit > 0.0 && i < j
    ensures unit * i as real < unit * j as real
  {}

  /** Recorded timestamps increase strictly inside the video. */
  lemma TimestampsIncrease(duration: real, count: nat, i: nat, j: nat)
    requires duration > 0.0 && i < j < count
    ensures 0.0 < Timestamp(Some(duration), count, i) < Timestamp(Some(duration), count, j) < duration
  {
    var unit := duration / (count + 1) as real;
    TimestampIs(duration, count, i);
    TimestampIs(duration, count, j);
    Increasing(unit, 0, i + 1);
    Increasing(unit, i + 1, j + 1);
    Increasing(unit, j + 1, count + 1);
  }

  lemma TimesDiffer(duration: real, count: nat, i: nat, j: nat)
    requires duration > 0.0 && ExtractedAt(duration, count, i) == ExtractedAt(duration, count, j)
    ensures i == j
  {}

  // ---- What is uploaded ----

  lemma {:induction false} KeptIs(entries: seq<string>)
    requires Sorted(entries)
    ensures var kept := Kept(entries, {});
            Sorted(kept) && Names(kept) == set n | n in entries && HasSuffix(n, SUFFIX)
  {
    if entries != [] {
      var n := |entries| - 1;
      KeptIs(entries[..n]);
      assert entries == entries[..n] + [entries[n]];
      forall x | x in Kept(entries[..n], {}) ensures Less(x, entries[n]) {
        assert x in Names(Kept(entries[..n], {})) && x in entries[..n];
      }
      var kept := Kept(entries, {});
      assert forall x :: x in entries <==> x in entries[..n] || x == entries[n];
      assert forall x :: x in kept <==> x in Names(Kept(entries[..n], {})) || (x == entries[n] && HasSuffix(x, SUFFIX));
    }
  }

  lemma FramesAreKept(files: Directory, count: nat, entries: seq<string>)
    requires files.Keys == {"input"} + Names(ThumbNames(count)) && Sorted(entries) && Names(entries) == files.Keys
    ensures Sorted(Kept(entries, {})) && Names(Kept(entries, {})) == Names(ThumbNames(count))
  {
    KeptIs(entries);
    assert "input"[|"input"| - 4..][0] == 'n' && !HasSuffix("input", SUFFIX);
    forall n ensures n in entries && HasSuffix(n, SUFFIX) <==> n in ThumbNames(count) {
      assert n in entries <==> n in Names(entries);
      if n in ThumbNames(count) {
        var k :| 0 <= k < count && ThumbNames(count)[k] == n;
        var name := ThumbName(k + 1);
        assert name[|name| - |SUFFIX|..] == SUFFIX;
      }
    }
  }

  lemma {:induction false} DecimalStarts(n: nat)
    requires n > 0
    ensures Decimal(n)[0] > '0'
  {
    if n >= 10 {
      DecimalStarts(n / 10);
    }
  }

  lemma FirstNameIsLeast(j: nat)
    requires j > 1
    ensures Less(ThumbName(1), ThumbName(j))
  {
    if j < 1000 {
      NamesInOrder(1, j);
    } else {
      DecimalStarts(j);
      var a, b := Padded(1) + SUFFIX, Padded(j) + SUFFIX;
      assert a[0] == '0' && b[0] == Decimal(j)[0];
      LessAfterPrefix(PREFIX, a, b);
      assert ThumbName(1) == PREFIX + a && ThumbName(j) == PREFIX + b;
    }
  }

  lemma StartsWithFirst(names: seq<string>, count: nat)
    requires count > 0 && Sorted(names) && Names(names) == Names(ThumbNames(count))
    ensures names != [] && names[0] == ThumbName(1)
  {
    assert ThumbNames(count)[0] in Names(names);
    var k :| 0 <= k < |names| && names[k] == ThumbName(1);
    assert names[0] in Names(ThumbNames(count));
    var i :| 0 <= i < count && ThumbNames(count)[i] == names[0];
    if k > 0 {
      if i > 0 {
        FirstNameIsLeast(i + 1);
        LessTransitive(names[0], names[k], names[0]);
      }
      LessIrreflexive(names[0]);
    }
  }

  // ---- Agreement ----

  /** What the worker reports for the names it uploaded. */
  function Report(video: string, names: seq<string>): TaskResult {
    ThumbnailResult(seq(|names|, k requires 0 <= k < |names| => ThumbnailFile(video, names[k])), |names|)
  }

  lemma {:induction false} RowsAre(params: Params, stored: Option<real>, r: TaskResult, n: nat)
    requires r.ThumbnailResult? && n <= |r.keys|
    ensures var rows := ThumbnailRows(params, stored, r, n);
            |rows| == n && forall k :: 0 <= k < n ==>
              && rows[k].key == r.keys[k] && rows[k].timestamp == Timestamp(stored, r.count, k)
              && rows[k].sortOrder == k && (rows[k].isDefault <==> k == 0)
  {
    if n > 0 {
      RowsAre(params, stored, r, n - 1);
    }
  }

  /** The prefix the worker uploads to. */
  function Prefix(video: string): string {
    "videos/" + video + "/thumbnails"
  }

  lemma KeyOfName(video: string, name: string)
    ensures Path(ThumbnailFile(video, name)) == Prefix(video) + "/" + name
  {
    assert "thumbnails/" == "thumbnails" + "/";
    assert "videos/" + (video + "/") + ("thumbnails" + "/") == "videos/" + video + "/thumbnails" + "/";
  }

  lemma DifferAfterPrefix(prefix: string, a: string, b: string)
    requires a != b
    ensures prefix + a != prefix + b
  {
    assert (prefix + a)[|prefix|..] == a && (prefix + b)[|prefix|..] == b;
  }

  lemma {:induction false} StoredHas(objects: Directory, files: Directory, prefix: string, names: seq<string>)
    requires Distinct(names) && forall n :: n in names ==> n in files
    ensures var stored := Stored(objects, files, prefix, names);
            forall k :: 0 <= k < |names| ==>
              prefix + "/" + names[k] in stored && stored[prefix + "/" + names[k]] == files[names[k]]
  {
    if names != [] {
      var n := |names| - 1;
      StoredHas(objects, files, prefix, names[..n]);
      forall k | 0 <= k < n ensures prefix + "/" + names[k] != prefix + "/" + names[n] {
        DifferAfterPrefix(prefix + "/", names[k], names[n]);
      }
      assert names[n] in names;
    }
  }

  /** Every thumbnail row points at an object that holds the frame extracted at the row's timestamp. */
  predicate Agrees(objects: Directory, rows: seq<Thumbnail>) {
    forall row :: row in rows ==> Path(row.key) in objects && objects[Path(row.key)] == Frame(row.timestamp)
  }

  /** The uploaded names hold the frames the directory holds. */
  ghost predicate Holds(objects: Directory, video: string, files: Directory, names: seq<string>) {
    forall n :: n in names ==>
      n in files && Path(ThumbnailFile(video, n)) in objects && objects[Path(ThumbnailFile(video, n))] == files[n]
  }

  lemma NumberedNamesAgree(objects: Directory, files: Directory, duration: real, names: seq<string>, video: string,
                           params: Params)
    requires duration > 0.0 && names != [] && HasFrames(files, duration, |names|, names)
    requires Holds(objects, video, files, names)
    ensures var r := Report(video, names); Agrees(objects, ThumbnailRows(params, Some(duration), r, |r.keys|))
  {
    var r := Report(video, names);
    RowsAre(params, Some(duration), r, |r.keys|);
    var rows := ThumbnailRows(params, Some(duration), r, |r.keys|);
    forall row | row in rows
      ensures Path(row.key) in objects && objects[Path(row.key)] == Frame(row.timestamp)
    {
      var k :| 0 <= k < |rows| && rows[k] == row;
      assert names[k] in names;
      TimestampIs(duration, |names|, k);
    }
  }

  lemma AgreementAt(objects: Directory, files: Directory, names: seq<string>, video: string, params: Params,
                    stored: Option<real>, k: nat)
    requires k < |names| && Holds(objects, video, files, names)
    requires var r := Report(video, names); Agrees(objects, ThumbnailRows(params, stored, r, |r.keys|))
    ensures names[k] in files && files[names[k]] == Frame(Timestamp(stored, |names|, k))
  {
    var r := Report(video, names);
    RowsAre(params, stored, r, |r.keys|);
    assert ThumbnailRows(params, stored, r, |r.keys|)[k] in ThumbnailRows(params, stored, r, |r.keys|);
    assert names[k] in names;
  }

  /** Names that agree are in the order of extraction. */
  lemma AgreementOrdersNames(objects: Directory, files: Directory, duration: real, order: seq<string>,
                             names: seq<string>, video: string, params: Params)
    requires duration > 0.0 && HasFrames(files, duration, |order|, order)
    requires |names| == |order| && Names(names) == Names(order) && Holds(objects, video, files, names)
    requires var r := Report(video, names); Agrees(objects, ThumbnailRows(params, Some(duration), r, |r.keys|))
    ensures names == order
  {
    forall k | 0 <= k < |order| ensures names[k] == order[k] {
      AgreementAt(objects, files, names, video, params, Some(duration), k);
      assert names[k] in Names(order);
      var i :| 0 <= i < |order| && order[i] == names[k];
      TimestampIs(duration, |order|, k);
      TimesDiffer(duration, |order|, i + 1, k + 1);
    }
  }

  lemma SameQuotient(a: real, b: real, n: real)
    requires n > 0.0 && a / n == b / n
    ensures a == b
  {}

  lemma SameFirstTime(stored: Option<real>, duration: real, count: nat)
    requires duration > 0.0 && count > 0 && Timestamp(stored, count, 0) == ExtractedAt(duration, count, 1)
    ensures stored == Some(duration)
  {
    var n := (count + 1) as real;
    assert ExtractedAt(duration, count, 1) == duration / n;
    Increasing(duration / n, 0, 1);
    TimestampIs(stored.value, count, 0);
    SameQuotient(stored.value, duration, n);
  }

  lemma AgreementNeedsDuration(objects: Directory, files: Directory, duration: real, order: seq<string>,
                               names: seq<string>, video: string, params: Params, stored: Option<real>)
    requires duration > 0.0 && order != [] && HasFrames(files, duration, |order|, order)
    requires |names| == |order| && names[0] == order[0] && Holds(objects, video, files, names)
    requires var r := Report(video, names); Agrees(objects, ThumbnailRows(params, stored, r, |r.keys|))
    ensures stored == Some(duration)
  {
    AgreementAt(objects, files, names, video, params, stored, 0);
    SameFirstTime(stored, duration, |order|);
  }

  lemma {:induction false} DistinctCount(names: seq<string>)
    requires Distinct(names)
    ensures |Names(names)| == |names|
  {
    if names != [] {
      var n := |names| - 1;
      DistinctCount(names[..n]);
      assert names == names[..n] + [names[n]];
      assert Names(names[..n] + [names[n]]) == Names(names[..n]) + {names[n]};
    }
  }

  lemma AsManyNames(names: seq<string>, count: nat)
    requires Sorted(names) && Names(names) == Names(ThumbNames(count))
    ensures |names| == count
  {
    forall i, j | 0 <= i < j < |names| ensures names[i] != names[j] {
      LessIrreflexive(names[i]);
    }
    NamesAreDistinct(count);
    DistinctCount(names);
    DistinctCount(ThumbNames(count));
  }

  lemma KeptAreFiles(files: Directory, entries: seq<string>)
    requires Sorted(entries) && Names(entries) == files.Keys
    ensures Distinct(Kept(entries, {})) && forall n :: n in Kept(entries, {}) ==> n in files
  {
    KeptIs(entries);
    var names := Kept(entries, {});
    forall i, j | 0 <= i < j < |names| ensures names[i] != names[j] {
      LessIrreflexive(names[i]);
    }
    forall n | n in names ensures n in files {
      assert n in Names(names) && n in Names(entries);
    }
  }

  lemma UploadsHold(before: Directory, files: Directory, video: string, names: seq<string>)
    requires Distinct(names) && forall n :: n in names ==> n in files
    ensures Holds(Stored(before, files, Prefix(video), names), video, files, names)
  {
    StoredHas(before, files, Prefix(video), names);
    forall n | n in names
      ensures var objects := Stored(before, files, Prefix(video), names);
              Path(ThumbnailFile(video, n)) in objects && objects[Path(ThumbnailFile(video, n))] == files[n]
    {
      var k :| 0 <= k < |names| && names[k] == n;
      KeyOfName(video, n);
    }
  }

  /** Worker and API agree on every thumbnail of a job that extracted and uploaded all of its frames, each row
      pointing at an object with the frame of its timestamp, exactly when the duration the API has stored is the
      one the worker probed and there are at most 999 of them. */
  lemma ThumbnailsAgreeIff(files: Directory, duration: real, count: nat, entries: seq<string>, before: Directory,
                           video: string, params: Params, stored: Option<real>)
    requires duration > 0.0 && count > 0 && files == Extraction(map["input" := Input], duration, count, ThumbNames(count))
    requires Sorted(entries) && Names(entries) == files.Keys
    ensures var objects := Stored(before, files, Prefix(video), Kept(entries, {}));
            var r := Report(video, Kept(entries, {}));
            Agrees(objects, ThumbnailRows(params, stored, r, |r.keys|)) <==> stored == Some(duration) && count <= 999
  {
    var names := Kept(entries, {});
    NamesAreDistinct(count);
    ExtractionHas(map["input" := Input], duration, count, ThumbNames(count));
    FramesAreKept(files, count, entries);
    StartsWithFirst(names, count);
    AsManyNames(names, count);
    KeptAreFiles(files, entries);
    UploadsHold(before, files, video, names);
    SortedIffUnderThousand(count);
    var objects := Stored(before, files, Prefix(video), names);
    var r := Report(video, names);
    if Agrees(objects, ThumbnailRows(params, stored, r, |r.keys|)) {
      AgreementNeedsDuration(objects, files, duration, ThumbNames(count), names, video, params, stored);
      AgreementOrdersNames(objects, files, duration, ThumbNames(count), names, video, params);
    } else if count <= 999 {
      SortedIsUnique(names, ThumbNames(count));
      if stored == Some(duration) {
        NumberedNamesAgree(objects, files, duration, ThumbNames(count), video, params);
      }
    }
  }
}
