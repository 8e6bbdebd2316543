/** internal/worker/worker.go: one transcode task, from the downloaded original to the report. */
module Worker {
  import opened Basics
  import opened Listing
  import opened Bucket
  import opened Keys
  import opened Playlist
  import opened DrmKeys
  import opened RewriteProperties
  import opened Segments
  import opened SegmentClosure

  datatype Reason = TaskCancelled | BadContentKey | FfmpegFailed | Rename(error: RenameError)

  datatype Report = Complete(res: string, playlistKey: string) | Fail(reason: Reason)

  const KEY_FILE := "encryption.key"
  const KEY_INFO := "key_info.txt"

  function RawText(bytes: seq<Byte>): string {
    seq(|bytes|, i requires 0 <= i < |bytes| => bytes[i] as char)
  }

  /** The file consists of exactly these bytes. */
  predicate HasBytes(file: string, bytes: seq<Byte>) {
    |file| == |bytes| && forall i :: 0 <= i < |bytes| ==> file[i] as int == bytes[i]
  }

  function KeyInfo(p: DrmParams, keyFile: string): string {
    p.keyUrl + "\n" + keyFile + "\n" + p.iv + "\n"
  }

  /** What FFmpeg reads, line by line: the URL for the playlist, the key's file, the IV. */
  lemma KeyInfoLines(p: DrmParams, keyFile: string)
    requires IsScannedLine(p.keyUrl) && IsScannedLine(keyFile) && IsScannedLine(p.iv)
    ensures ScanLines(KeyInfo(p, keyFile)) == [p.keyUrl, keyFile, p.iv]
  {
    var lines := [p.keyUrl, keyFile, p.iv];
    assert lines[1..] == [keyFile, p.iv] && lines[1..][1..] == [p.iv] && lines[1..][1..][1..] == [];
    assert Unlines([p.iv]) == p.iv + "\n";
    assert Unlines(lines) == p.keyUrl + "\n" + (keyFile + "\n" + (p.iv + "\n"));
    assert Unlines(lines) == KeyInfo(p, keyFile);
    ScanLinesOfUnlines(lines);
  }

  predicate Encrypts(drm: Option<DrmParams>) {
    drm.Some? && drm.value.keyId != ""
  }

  /** The directory FFmpeg works in. */
  function Prepared(files: Files, drm: Option<DrmParams>, workDir: string): Option<Files> {
    if !Encrypts(drm) then Some(files)
    else
      match WorkerBytes(drm.value)
      case None => None
      case Some(bytes) =>
        Some(files[KEY_FILE := RawText(bytes)][KEY_INFO := KeyInfo(drm.value, workDir + "/" + KEY_FILE)])
  }

  /** A task is reported complete exactly when nobody cancelled it at a progress report, its key decodes,
      FFmpeg succeeds and the renamed playlist scans. */
  predicate Succeeds(files: Files, drm: Option<DrmParams>, workDir: string, output: Option<Files>,
                     cancelled: seq<bool>, entries: seq<string>, newExt: string)
    requires |cancelled| == 4
  {
    && !cancelled[0] && !cancelled[1] && !cancelled[2] && !cancelled[3]
    && Prepared(files, drm, workDir).Some? && output.Some?
    && AfterRename(Prepared(files, drm, workDir).value + output.value, entries, newExt).1.None?
  }

  ghost predicate Ships(key: string, prefix: string) {
    exists name :: Uploads(name) && key == prefix + "/" + name
  }

  /** What is new in the bucket lies under the prefix and is neither the original nor key material. */
  ghost predicate OnlyAdds(before: Files, after: Files, prefix: string) {
    && (forall k :: k in before ==> k in after)
    && (forall k :: k in after && (k !in before || after[k] != before[k]) ==> Ships(k, prefix))
  }

  /** Neither the original nor key material is ever among what ships. */
  lemma NothingSecretShips(key: string, prefix: string)
    requires Ships(key, prefix)
    ensures forall secret :: secret in ["input", "encryption.key", "key_info.txt"] ==> key != prefix + "/" + secret
  {
    var name :| Uploads(name) && key == prefix + "/" + name;
    assert SKIPPED[0] == "input" && SKIPPED[1] == "encryption.key" && SKIPPED[2] == "key_info.txt";
    forall secret | secret in ["input", "encryption.key", "key_info.txt"] ensures key != prefix + "/" + secret {
      SameAfterPrefix(prefix + "/", name, secret);
    }
  }

  lemma {:induction false} UploadOnlyAdds(objects: Files, files: Files, prefix: string, names: seq<string>)
    ensures OnlyAdds(objects, UploadAll(objects, files, prefix, names), prefix)
  {
    if names != [] {
      var n := |names| - 1;
      UploadOnlyAdds(objects, files, prefix, names[..n]);
      if Uploads(names[n]) {
        assert Ships(prefix + "/" + names[n], prefix);
      }
    }
  }

  lemma PlaylistIsShipped(objects: Files, files: Files, prefix: string, order: seq<string>)
    requires IsListing(order, files) && PLAYLIST in files
    ensures var after := UploadAll(objects, files, prefix, order);
            && prefix + "/" + PLAYLIST in after && after[prefix + "/" + PLAYLIST] == files[PLAYLIST]
            && OnlyAdds(objects, after, prefix)
  {
    PlaylistIsUploaded();
    assert PLAYLIST in Names(order);
    UploadAllHas(objects, files, prefix, order);
    UploadOnlyAdds(objects, files, prefix, order);
  }

  function Prefix(video: string, res: string): string {
    "videos/" + video + "/variants/" + res
  }

  /** The key file and the key_info file of transcodeDRM. */
  method WriteKeyFiles(dir: WorkDir, drm: Option<DrmParams>, workDir: string) returns (ok: bool)
    modifies dir
    ensures ok <==> Prepared(old(dir.files), drm, workDir).Some?
    ensures !ok ==> drm.Some? && drm.value.keyId != "" && HexDecode(drm.value.contentKey).None?
    ensures ok ==> dir.files == Prepared(old(dir.files), drm, workDir).value
    ensures ok && drm.Some? && drm.value.keyId != "" ==>
              && dir.files.Keys == old(dir.files).Keys + {"encryption.key", "key_info.txt"}
              && HasBytes(dir.files["encryption.key"], HexDecode(drm.value.contentKey).value)
              && dir.files["key_info.txt"]
                 == drm.value.keyUrl + "\n" + (workDir + "/encryption.key") + "\n" + drm.value.iv + "\n"
  {
    if drm.Some? && drm.value.keyId != "" {
      var keyBytes := HexDecode(drm.value.contentKey);
      if keyBytes.None? {
        return false;
      }
      dir.files := dir.files[KEY_FILE := RawText(keyBytes.value)];
      dir.files := dir.files[KEY_INFO := KeyInfo(drm.value, workDir + "/" + KEY_FILE)];
    }
    ok := true;
  }

  /** handleTranscode after the download. `cancelled` are the answers to the four progress reports; `output` is
      what FFmpeg leaves in the directory, or None when it fails. */
  method HandleTranscode(dir: WorkDir, s3: S3Bucket, video: string, res: string, drm: Option<DrmParams>,
                         newExt: string, workDir: string, output: Option<Files>, cancelled: seq<bool>)
      returns (report: Report, ghost entries: seq<string>)
    requires |cancelled| == 4
    modifies dir, s3
    ensures report.Complete? <==> Succeeds(old(dir.files), drm, workDir, output, cancelled, entries, newExt)
    ensures report.Complete? ==> !cancelled[0] && !cancelled[1] && !cancelled[2] && !cancelled[3]
    ensures report == Fail(TaskCancelled) ==> cancelled[0] || cancelled[1] || cancelled[2] || cancelled[3]
    ensures report == Fail(BadContentKey) ==>
              drm.Some? && drm.value.keyId != "" && HexDecode(drm.value.contentKey).None?
    ensures report == Fail(FfmpegFailed) ==> output.None?
    ensures report.Complete? ==>
              && report == Complete(res, Prefix(video, res) + "/" + PLAYLIST)
              && report.playlistKey in s3.objects && PLAYLIST in dir.files
              && s3.objects[report.playlistKey] == dir.files[PLAYLIST]
    ensures report.Fail? && (cancelled[0] || cancelled[1] || cancelled[2] || !cancelled[3]) ==>
              s3.objects == old(s3.objects)
    ensures OnlyAdds(old(s3.objects), s3.objects, Prefix(video, res))
  {
    var s3Prefix := Prefix(video, res);
    entries := [];
    if cancelled[0] {
      return Fail(TaskCancelled), entries;
    }
    var decoded := WriteKeyFiles(dir, drm, workDir);
    if !decoded {
      return Fail(BadContentKey), entries;
    }
    if output.None? {
      return Fail(FfmpegFailed), entries;
    }
    dir.files := dir.files + output.value;
    if cancelled[1] {
      return Fail(TaskCancelled), entries;
    }
    var error: Option<RenameError>;
    error, entries := dir.RenameSegments(newExt);
    if error.Some? {
      return Fail(Rename(error.value)), entries;
    }
    if cancelled[2] {
      return Fail(TaskCancelled), entries;
    }
    ghost var order := dir.UploadDirectory(s3, s3Prefix);
    PlaylistIsShipped(old(s3.objects), dir.files, s3Prefix, order);
    if cancelled[3] {
      return Fail(TaskCancelled), entries;
    }
    report := Complete(res, s3Prefix + "/" + PLAYLIST);
  }

  /** The playlist a worker reports is the object the variant's entry in the master playlist resolves to. */
  lemma ReportedKeyIsTheListedOne(video: string, res: string)
    ensures Prefix(video, res) + "/" + PLAYLIST == VideoPrefix(video) + VariantUri(res)
  {}
}
