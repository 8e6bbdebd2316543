/** pkg/ffmpeg ExtractThumbnails and the worker's handleThumbnail: the frames a worker extracts and uploads, and
    whether the timestamps the API records for them are the ones they were extracted at. */
module Thumbnails {
  import opened Basics
  import opened Listing
  import opened PipelineState

  datatype Content = Input | Frame(at: real)

  type Directory = map<string, Content>

  const PREFIX := "thumb_"
  const SUFFIX := ".jpg"

  /** %03d */
  function Padded(n: nat): string {
    if n < 10 then "00" + Decimal(n) else if n < 100 then "0" + Decimal(n) else Decimal(n)
  }

  function ThumbName(i: nat): string {
    PREFIX + Padded(i) + SUFFIX
  }

  function ThumbNames(count: nat): (names: seq<string>)
    ensures |names| == count && forall k :: 0 <= k < count ==> names[k] == ThumbName(k + 1)
  {
    seq(count, k requires 0 <= k < count => ThumbName(k + 1))
  }

  function Times(interval: real, i: nat): real {
    interval * i as real
  }

  function ExtractedAt(duration: real, count: nat, i: nat): real {
    Times(duration / (count + 1) as real, i)
  }

  /** The directory after one extraction for each of the names, in order. */
  function Extraction(before: Directory, duration: real, count: nat, names: seq<string>): Directory {
    if names == [] then before
    else
      var n := |names| - 1;
      Extraction(before, duration, count, names[..n])[names[n] := Frame(ExtractedAt(duration, count, n + 1))]
  }

  lemma ExtractedNext(before: Directory, duration: real, count: nat, names: seq<string>, name: string)
    ensures Extraction(before, duration, count, names + [name])
            == Extraction(before, duration, count, names)[name := Frame(ExtractedAt(duration, count, |names| + 1))]
  {}

  predicate HasFrames(files: Directory, duration: real, count: nat, names: seq<string>) {
    forall k :: 0 <= k < |names| ==>
      names[k] in files && files[names[k]] == Frame(ExtractedAt(duration, count, k + 1))
  }

  predicate Distinct(names: seq<string>) {
    forall i, j :: 0 <= i < j < |names| ==> names[i] != names[j]
  }

  lemma OneMoreFrame(files: Directory, duration: real, count: nat, names: seq<string>, name: string)
    requires HasFrames(files, duration, count, names) && name !in names
    ensures HasFrames(files[name := Frame(ExtractedAt(duration, count, |names| + 1))], duration, count, names + [name])
  {}

  lemma {:induction false} ExtractionHas(before: Directory, duration: real, count: nat, names: seq<string>)
    requires Distinct(names)
    ensures var files := Extraction(before, duration, count, names);
            HasFrames(files, duration, count, names) && files.Keys == before.Keys + Names(names)
  {
    if names != [] {
      var n := |names| - 1;
      ExtractionHas(before, duration, count, names[..n]);
      OneMoreFrame(Extraction(before, duration, count, names[..n]), duration, count, names[..n], names[n]);
      assert names == names[..n] + [names[n]];
      assert Names(names[..n] + [names[n]]) == Names(names[..n]) + {names[n]};
    }
  }

  /** The .jpg entries whose upload succeeds, in the order of the listing. */
  function Kept(entries: seq<string>, fails: set<string>): seq<string> {
    if entries == [] then []
    else
      var n := |entries| - 1;
      Kept(entries[..n], fails) + if HasSuffix(entries[n], SUFFIX) && entries[n] !in fails then [entries[n]] else []
  }

  lemma KeptOneMore(entries: seq<string>, i: nat, fails: set<string>)
    requires i < |entries|
    ensures Kept(entries[..i + 1], fails)
            == if HasSuffix(entries[i], SUFFIX) && entries[i] !in fails then Kept(entries[..i], fails) + [entries[i]]
               else Kept(entries[..i], fails)
  {
    assert entries[..i + 1][..i] == entries[..i];
  }

  function KeysOf(prefix: string, names: seq<string>): (keys: seq<string>)
    ensures |keys| == |names| && forall k :: 0 <= k < |names| ==> keys[k] == prefix + "/" + names[k]
  {
    seq(|names|, k requires 0 <= k < |names| => prefix + "/" + names[k])
  }

  lemma NextName(i: nat)
    requires i > 0
    ensures ThumbNames(i) == ThumbNames(i - 1) + [ThumbName(i)]
  {}

  /** The bucket after the uploads of these files. */
  function Stored(objects: Directory, files: Directory, prefix: string, names: seq<string>): Directory {
    if names == [] then objects
    else
      var n := |names| - 1;
      var before := Stored(objects, files, prefix, names[..n]);
      if names[n] in files then before[prefix + "/" + names[n] := files[names[n]]] else before
  }

  lemma StoredOneMore(objects: Directory, files: Directory, prefix: string, names: seq<string>, name: string)
    requires name in files
    ensures Stored(objects, files, prefix, names + [name])
            == Stored(objects, files, prefix, names)[prefix + "/" + name := files[name]]
  {
    assert (names + [name])[..|names|] == names;
  }

  lemma KeysOneMore(prefix: string, names: seq<string>, name: string)
    ensures KeysOf(prefix, names + [name]) == KeysOf(prefix, names) + [prefix + "/" + name]
  {}

  class ThumbnailJob {
    var files: Directory
    var objects: Directory

    constructor ()
      ensures files == map["input" := Input] && objects == map[]
    {
      files, objects := map["input" := Input], map[];
    }

    /** `broken` are the numbers whose FFmpeg call fails; the first of them ends the loop. */
    method ExtractThumbnails(count: int, duration: real, broken: set<int>) returns (ok: bool, ghost made: nat)
      modifies this`files
      ensures ok <==> count > 0 && duration > 0.0 && forall i :: 1 <= i <= count ==> i !in broken
      ensures ok ==> made == count
      ensures !ok && count > 0 && duration > 0.0 ==> made < count && made + 1 in broken
      ensures count <= 0 || duration <= 0.0 ==> made == 0
      ensures forall i :: 1 <= i <= made ==> i !in broken
      ensures count > 0 ==> files == Extraction(old(files), duration, count, ThumbNames(made))
      ensures made == 0 ==> files == old(files)
    {
      made := 0;
      if count <= 0 || duration <= 0.0 {
        return false, 0;
      }
      var interval := duration / (count + 1) as real;
      ghost var done: seq<string> := [];
      for i := 1 to count + 1
        invariant made == i - 1 && forall k :: 1 <= k <= made ==> k !in broken
        invariant done == ThumbNames(made) && files == Extraction(old(files), duration, count, done)
      {
        var timestamp := Times(interval, i);
        if i in broken {
          return false, made;
        }
        files := files[ThumbName(i) := Frame(timestamp)];
        assert |done| + 1 == i;
        ExtractedNext(old(files), duration, count, done, ThumbName(i));
        NextName(i);
        done := done + [ThumbName(i)];
        made := i;
      }
      ok := true;
    }

    method UploadThumbnails(prefix: string, fails: set<string>)
        returns (uploaded: seq<string>, ghost entries: seq<string>)
      modifies this`objects
      ensures Sorted(entries) && Names(entries) == files.Keys
      ensures uploaded == KeysOf(prefix, Kept(entries, fails))
      ensures objects == Stored(old(objects), files, prefix, Kept(entries, fails))
    {
      var list := SortNames(files.Keys);
      entries, uploaded := list, [];
      ghost var kept: seq<string> := [];
      for i := 0 to |list|
        invariant kept == Kept(list[..i], fails) && uploaded == KeysOf(prefix, kept)
        invariant objects == Stored(old(objects), files, prefix, kept)
      {
        var name := list[i];
        KeptOneMore(list, i, fails);
        assert name in Names(list);
        if !HasSuffix(name, SUFFIX) || name in fails {
          continue;
        }
        StoredOneMore(old(objects), files, prefix, kept, name);
        KeysOneMore(prefix, kept, name);
        objects := objects[prefix + "/" + name := files[name]];
        kept := kept + [name];
        uploaded := uploaded + [prefix + "/" + name];
      }
      assert list[..|list|] == list;
    }
  }

  // ---- Names ----

  lemma {:induction false} ZeroInFront(s: string)
    requires ParseDecimal(s).Some?
    ensures ParseDecimal("0" + s) == ParseDecimal(s)
  {
    var t := "0" + s;
    assert t[|t| - 1] == s[|s| - 1];
    if |s| == 1 {
      assert t[..1] == "0";
      assert ParseDecimal("0") == Some(0);
    } else {
      assert t[..|t| - 1] == "0" + s[..|s| - 1];
      ZeroInFront(s[..|s| - 1]);
    }
  }

  lemma PaddedParses(n: nat)
    ensures ParseDecimal(Padded(n)) == Some(n)
  {
    ParseOfDecimal(n);
    if n < 100 {
      ZeroInFront(Decimal(n));
    }
    if n < 10 {
      assert "00" + Decimal(n) == "0" + ("0" + Decimal(n));
      ZeroInFront("0" + Decimal(n));
    }
  }

  lemma ThumbNameInjective(i: nat, j: nat)
    requires ThumbName(i) == ThumbName(j)
    ensures i == j
  {
    var a, b := ThumbName(i), ThumbName(j);
    assert a[|PREFIX|..|a| - |SUFFIX|] == Padded(i) && b[|PREFIX|..|b| - |SUFFIX|] == Padded(j);
    PaddedParses(i);
    PaddedParses(j);
  }

  lemma NamesAreDistinct(count: nat)
    ensures Distinct(ThumbNames(count))
  {
    forall i, j | 0 <= i < j < count ensures ThumbNames(count)[i] != ThumbNames(count)[j] {
      if ThumbName(i + 1) == ThumbName(j + 1) {
        ThumbNameInjective(i + 1, j + 1);
      }
    }
  }

  // ---- The order of the names ----

  lemma ThreeDigits(n: nat)
    requires n < 1000
    ensures Padded(n) == [Digit(n / 100), Digit(n / 10 % 10), Digit(n % 10)]
  {
    if n >= 100 {
      assert Decimal(n) == Decimal(n / 10) + [Digit(n % 10)];
      assert Decimal(n / 10) == Decimal(n / 10 / 10) + [Digit(n / 10 % 10)];
      assert Decimal(n / 10 / 10) == [Digit(n / 100)];
    } else if n >= 10 {
      assert Decimal(n) == [Digit(n / 10)] + [Digit(n % 10)];
    }
  }

  /** thumb_%03d.jpg: the number with at least three digits. */
  lemma NameIs(i: nat) returns (digits: string)
    ensures ThumbName(i) == "thumb_" + digits + ".jpg" && ParseDecimal(digits) == Some(i)
    ensures i < 1000 ==> |digits| == 3
  {
    digits := Padded(i);
    PaddedParses(i);
    if i < 1000 {
      ThreeDigits(i);
    }
  }

  lemma LessByDigits(a: string, b: string, rest: string)
    requires |a| == |b| == 3
    requires a[0] < b[0] || (a[0] == b[0] && (a[1] < b[1] || (a[1] == b[1] && a[2] < b[2])))
    ensures Less(a + rest, b + rest)
  {}

  lemma DigitsInOrder(i: nat, j: nat)
    requires i < j < 1000
    ensures var a, b := [i / 100, i / 10 % 10, i % 10], [j / 100, j / 10 % 10, j % 10];
            a[0] < b[0] || (a[0] == b[0] && (a[1] < b[1] || (a[1] == b[1] && a[2] < b[2])))
  {
    assert i == 10 * (i / 10) + i % 10 && j == 10 * (j / 10) + j % 10;
    assert i / 10 == 10 * (i / 100) + i / 10 % 10 && j / 10 == 10 * (j / 100) + j / 10 % 10;
  }

  lemma PaddedInOrder(i: nat, j: nat)
    requires i < j < 1000
    ensures Less(Padded(i) + SUFFIX, Padded(j) + SUFFIX)
  {
    DigitsInOrder(i, j);
    ThreeDigits(i);
    ThreeDigits(j);
    LessByDigits(Padded(i), Padded(j), SUFFIX);
  }

  lemma NamesInOrder(i: nat, j: nat)
    requires i < j < 1000
    ensures Less(ThumbName(i), ThumbName(j))
  {
    PaddedInOrder(i, j);
    LessAfterPrefix(PREFIX, Padded(i) + SUFFIX, Padded(j) + SUFFIX);
    assert ThumbName(i) == PREFIX + (Padded(i) + SUFFIX) && ThumbName(j) == PREFIX + (Padded(j) + SUFFIX);
  }

  /** The thousandth name sorts before the hundred and first. */
  lemma ThousandComesEarly()
    ensures Less(ThumbName(1000), ThumbName(101))
  {
    assert Decimal(10) == "10" && Decimal(100) == "100" && Decimal(1000) == "1000";
    ThreeDigits(101);
    assert Padded(101) == "101";
    var a, b := "1000" + SUFFIX, "101" + SUFFIX;
    assert a[1..][1..][0] == '0' && b[1..][1..][0] == '1';
    assert Less(a[1..][1..], b[1..][1..]);
    assert Less(a[1..], b[1..]);
    LessAfterPrefix(PREFIX, a, b);
    assert ThumbName(1000) == PREFIX + a && ThumbName(101) == PREFIX + b;
  }

  lemma SortedIffUnderThousand(count: nat)
    ensures Sorted(ThumbNames(count)) <==> count <= 999
  {
    if count <= 999 {
      forall i, j | 0 <= i < j < count ensures Less(ThumbNames(count)[i], ThumbNames(count)[j]) {
        NamesInOrder(i + 1, j + 1);
      }
    } else {
      ThousandComesEarly();
      var a, b := ThumbNames(count)[100], ThumbNames(count)[999];
      if Less(a, b) {
        LessTransitive(a, b, a);
        LessIrreflexive(a);
      }
    }
  }
}
