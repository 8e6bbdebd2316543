/** The layout of object keys: which handler builds which key, and which prefix reaches which key. */
module Keys {
  import opened Basics

  datatype Key =
    | Original(video: string, file: string)
    | VariantFile(video: string, res: string, file: string)
    | ThumbnailFile(video: string, file: string)
    | Master(video: string)

  function VideoPrefix(video: string): string {
    "videos/" + (video + "/")
  }

  function VariantsPrefix(video: string): string {
    VideoPrefix(video) + "variants/"
  }

  function VariantPrefix(video: string, res: string): string {
    VariantsPrefix(video) + (res + "/")
  }

  function ThumbnailsPrefix(video: string): string {
    VideoPrefix(video) + "thumbnails/"
  }

  const PLAYLIST := "playlist.m3u8"

  function Path(k: Key): string {
    match k
    case Original(v, f) => VideoPrefix(v) + ("original/" + f)
    case VariantFile(v, r, f) => VariantPrefix(v, r) + f
    case ThumbnailFile(v, f) => ThumbnailsPrefix(v) + f
    case Master(v) => VideoPrefix(v) + "master.m3u8"
  }

  /** The URI the master playlist uses for a variant, relative to the master's own directory. */
  function VariantUri(res: string): string {
    "variants/" + (res + ("/" + PLAYLIST))
  }

  predicate NoSlash(s: string) {
    '/' !in s
  }

  predicate WellNamed(k: Key) {
    && NoSlash(k.video)
    && (k.Master? || NoSlash(k.file))
    && (k.VariantFile? ==> NoSlash(k.res))
  }

  // ---- Prefix arithmetic ----

  lemma CommonFront(a: string, b: string, c: string)
    ensures a + b <= a + c <==> b <= c
  {
    if a + b <= a + c {
      forall i | 0 <= i < |b| ensures b[i] == c[i] {
        assert (a + b)[|a| + i] == (a + c)[|a| + i];
      }
    }
  }

  /** A directory name is a prefix of a path exactly when it is the path's first element. */
  lemma {:induction false} FirstElement(a: string, b: string, rest: string)
    requires NoSlash(a) && NoSlash(b)
    ensures a + "/" <= b + ("/" + rest) <==> a == b
  {
    var dir, path := a + "/", b + ("/" + rest);
    assert dir[0] == if a == "" then '/' else a[0];
    assert path[0] == if b == "" then '/' else b[0];
    if a != "" && b != "" {
      FirstElement(a[1..], b[1..], rest);
      assert dir == [a[0]] + (a[1..] + "/") && path == [b[0]] + (b[1..] + ("/" + rest));
      CommonFront([a[0]], a[1..] + "/", b[1..] + ("/" + rest));
      assert a == [a[0]] + a[1..] && b == [b[0]] + b[1..];
    }
  }

  lemma Regroup(a: string, b: string, c: string)
    ensures (a + b) + c == a + (b + c)
  {}

  // ---- Which prefix reaches which key ----

  /** Everything under a video's prefix: a first element, a slash, and the rest. */
  function Below(k: Key): string {
    match k
    case Original(v, f) => "original/" + f
    case VariantFile(v, r, f) => "variants/" + (r + ("/" + f))
    case ThumbnailFile(v, f) => "thumbnails/" + f
    case Master(v) => "master.m3u8"
  }

  lemma PathBelow(k: Key)
    ensures Path(k) == VideoPrefix(k.video) + Below(k)
  {}

  lemma VideoPrefixReaches(video: string, k: Key)
    requires NoSlash(video) && WellNamed(k)
    ensures VideoPrefix(video) <= Path(k) <==> k.video == video
  {
    PathBelow(k);
    Regroup("videos/", k.video + "/", Below(k));
    Regroup(k.video, "/", Below(k));
    CommonFront("videos/", video + "/", k.video + ("/" + Below(k)));
    FirstElement(video, k.video, Below(k));
  }

  lemma PrefixOfPrefix(a: string, b: string, c: string)
    requires a + b <= c
    ensures a <= c
  {}

  lemma FolderReaches(video: string, folder: string, k: Key)
    requires NoSlash(video) && WellNamed(k)
    ensures VideoPrefix(video) + folder <= Path(k) <==> k.video == video && folder <= Below(k)
  {
    VideoPrefixReaches(video, k);
    PathBelow(k);
    if VideoPrefix(video) + folder <= Path(k) {
      PrefixOfPrefix(VideoPrefix(video), folder, Path(k));
    }
    if k.video == video {
      CommonFront(VideoPrefix(video), folder, Below(k));
    }
  }

  lemma VariantsPrefixReaches(video: string, k: Key)
    requires NoSlash(video) && WellNamed(k)
    ensures VariantsPrefix(video) <= Path(k) <==> k.video == video && k.VariantFile?
  {
    FolderReaches(video, "variants/", k);
    assert "variants/"[0] == 'v';
  }

  lemma ThumbnailsPrefixReaches(video: string, k: Key)
    requires NoSlash(video) && WellNamed(k)
    ensures ThumbnailsPrefix(video) <= Path(k) <==> k.video == video && k.ThumbnailFile?
  {
    FolderReaches(video, "thumbnails/", k);
    assert "thumbnails/"[0] == 't';
  }

  lemma VariantPrefixReaches(video: string, res: string, k: Key)
    requires NoSlash(video) && NoSlash(res) && WellNamed(k)
    ensures VariantPrefix(video, res) <= Path(k) <==> k.video == video && k.VariantFile? && k.res == res
  {
    Regroup(VideoPrefix(video), "variants/", res + "/");
    FolderReaches(video, "variants/" + (res + "/"), k);
    if k.VariantFile? {
      CommonFront("variants/", res + "/", k.res + ("/" + k.file));
      FirstElement(res, k.res, k.file);
    } else {
      assert ("variants/" + (res + "/"))[0] == 'v';
    }
  }

  lemma SameTail(a: string, b: string, c: string)
    requires a + b == a + c
    ensures b == c
  {
    assert (a + b)[|a|..] == b && (a + c)[|a|..] == c;
  }

  /** Distinct well-named keys are distinct objects. */
  lemma PathInjective(j: Key, k: Key)
    requires WellNamed(j) && WellNamed(k) && Path(j) == Path(k)
    ensures j == k
  {
    VideoPrefixReaches(j.video, j);
    VideoPrefixReaches(j.video, k);
    PathBelow(j);
    PathBelow(k);
    SameTail(VideoPrefix(j.video), Below(j), Below(k));
    assert Below(j)[0] == Below(k)[0];
    if j.VariantFile? {
      VariantPrefixReaches(j.video, j.res, j);
      VariantPrefixReaches(j.video, j.res, k);
      SameTail(VariantPrefix(j.video, j.res), j.file, k.file);
    } else if j.Original? {
      SameTail("original/", j.file, k.file);
    } else if j.ThumbnailFile? {
      SameTail("thumbnails/", j.file, k.file);
    }
  }

  lemma SlashIsPast(a: string, b: string, tail: string)
    requires |a| > |b| && a + "/" <= b + ("/" + tail)
    ensures '/' in tail
  {
    assert (b + ("/" + tail))[|a|] == (a + "/")[|a|];
    assert (b + ("/" + tail))[|a|] == tail[|a| - |b| - 1];
  }

  /** With arbitrary names the prefix of one resolution reaches another resolution's playlist
      exactly when it is that resolution or a parent directory of it. */
  lemma ResolutionsClash(video: string, res: string, other: string)
    ensures VariantPrefix(video, res) <= Path(VariantFile(video, other, PLAYLIST))
            <==> res == other || res + "/" <= other
  {
    CommonFront(VariantsPrefix(video), res + "/", other + ("/" + PLAYLIST));
    Regroup(VariantsPrefix(video), other + "/", PLAYLIST);
    Regroup(other, "/", PLAYLIST);
    var dir, path := res + "/", other + ("/" + PLAYLIST);
    if dir <= path {
      if |res| > |other| {
        SlashIsPast(res, other, PLAYLIST);
        assert false;
      } else if |res| == |other| {
        assert forall i :: 0 <= i < |res| ==> res[i] == dir[i] == path[i] == other[i];
      } else {
        assert forall i :: 0 <= i < |dir| ==> dir[i] == path[i] == other[i];
      }
    }
  }

  /** Resolved against the master's directory, a variant's URI is that variant's playlist key. */
  lemma VariantUriResolves(video: string, res: string)
    ensures VideoPrefix(video) + VariantUri(res) == Path(VariantFile(video, res, PLAYLIST))
  {}
}
