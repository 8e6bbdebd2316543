/** internal/worker/worker.go: renaming the segments of a finished transcode on disk, rewriting the playlist to
    match, and uploading the directory. */
module Segments {
  import opened Basics
  import opened Listing
  import opened Bucket
  import opened Keys
  import opened Playlist

  type Files = map<string, string>

  const SKIPPED: seq<string> := ["input", "encryption.key", "key_info.txt"]

  // ---- What the two steps do ----

  /** The name a file has after the rename step. */
  function Target(name: string, newExt: string): string {
    if HasSuffix(name, ".ts") then TrimSuffix(name, ".ts") + newExt else name
  }

  function RenameOne(files: Files, name: string, newExt: string): Files {
    if HasSuffix(name, ".ts") && name in files then (files - {name})[Target(name, newExt) := files[name]] else files
  }

  function RenameAll(files: Files, names: seq<string>, newExt: string): Files {
    if names == [] then files
    else RenameOne(RenameAll(files, names[..|names| - 1], newExt), names[|names| - 1], newExt)
  }

  datatype RenameError = NoPlaylist | BadPlaylist

  /** The directory after renameSegments, and how that ended. */
  function AfterRename(files: Files, names: seq<string>, newExt: string): (Files, Option<RenameError>) {
    var moved := RenameAll(files, names, newExt);
    if PLAYLIST !in moved then (moved, Some(NoPlaylist))
    else
      match Rewritten(moved[PLAYLIST], newExt)
      case Failure(_) => (moved, Some(BadPlaylist))
      case Success(text) => (moved[PLAYLIST := text], None)
  }

  function UploadAll(objects: Files, files: Files, prefix: string, names: seq<string>): Files {
    if names == [] then objects
    else
      var n := |names| - 1;
      var before := UploadAll(objects, files, prefix, names[..n]);
      if names[n] in files && names[n] !in SKIPPED then before[prefix + "/" + names[n] := files[names[n]]] else before
  }

  predicate NoRepeats(names: seq<string>) {
    forall i, j :: 0 <= i < j < |names| ==> names[i] != names[j]
  }

  /** The names are those of the files, once each, in whatever order. */
  predicate IsListing(names: seq<string>, files: Files) {
    NoRepeats(names) && Names(names) == files.Keys
  }

  /** A listing in byte order. */
  predicate InOrder(names: seq<string>, files: Files) {
    Sorted(names) && IsListing(names, files)
  }

  lemma SortedHasNoRepeats(names: seq<string>)
    requires Sorted(names)
    ensures NoRepeats(names)
  {
    forall i, j | 0 <= i < j < |names| ensures names[i] != names[j] {
      LessIrreflexive(names[i]);
    }
  }

  // ---- The work directory ----

  class WorkDir {
    var files: Files

    constructor (files: Files)
      ensures this.files == files
    {
      this.files := files;
    }

    method Rename(oldName: string, newName: string)
      requires oldName in files
      modifies this
      ensures files == (old(files) - {oldName})[newName := old(files[oldName])]
    {
      files := (files - {oldName})[newName := files[oldName]];
    }

    method RenameSegments(newExt: string) returns (error: Option<RenameError>, ghost entries: seq<string>)
      modifies this
      ensures InOrder(entries, old(files))
      ensures (files, error) == AfterRename(old(files), entries, newExt)
    {
      var names := SortNames(files.Keys);
      SortedHasNoRepeats(names);
      entries := names;
      for i := 0 to |names|
        invariant files == RenameAll(old(files), names[..i], newExt)
        invariant forall n :: n in names[i..] ==> n in files
      {
        var name := names[i];
        assert names[..i + 1][..i] == names[..i];
        assert names[i..] == [name] + names[i + 1..];
        if HasSuffix(name, ".ts") {
          var newName := TrimSuffix(name, ".ts") + newExt;
          Rename(name, newName);
        }
      }
      assert names[..|names|] == names;
      if PLAYLIST !in files {
        return Some(NoPlaylist), entries;
      }
      var rewritten := RewritePlaylist(files[PLAYLIST], newExt);
      if rewritten.Failure? {
        return Some(BadPlaylist), entries;
      }
      files := files[PLAYLIST := rewritten.value];
      error := None;
    }

    method UploadDirectory(s3: S3Bucket, prefix: string) returns (ghost entries: seq<string>)
      modifies s3
      ensures InOrder(entries, files)
      ensures s3.objects == UploadAll(old(s3.objects), files, prefix, entries)
    {
      var names := SortNames(files.Keys);
      SortedHasNoRepeats(names);
      entries := names;
      for i := 0 to |names|
        invariant s3.objects == UploadAll(old(s3.objects), files, prefix, names[..i])
      {
        var name := names[i];
        assert names[..i + 1][..i] == names[..i];
        assert name in Names(names);
        if name == "input" || name == "encryption.key" || name == "key_info.txt" {
          assert SKIPPED[0] == "input" && SKIPPED[1] == "encryption.key" && SKIPPED[2] == "key_info.txt";
          assert name in SKIPPED;
          continue;
        }
        s3.Upload(prefix + "/" + name, files[name]);
      }
      assert names[..|names|] == names;
    }
  }

  // ---- Collisions ----

  /** No new name is taken by another file, is another file's new name, or is a name the upload skips. */
  predicate NoClash(files: Files, newExt: string) {
    && (forall a {:trigger Target(a, newExt)} :: a in files && Target(a, newExt) != a ==>
          Target(a, newExt) !in files && Target(a, newExt) !in SKIPPED)
    && (forall a, b {:trigger Target(a, newExt), Target(b, newExt)} ::
          a in files && b in files && a != b ==> Target(a, newExt) != Target(b, newExt))
  }

  function Now(name: string, done: set<string>, newExt: string): string {
    if name in done then Target(name, newExt) else name
  }

  lemma NamesNeverMeet(files: Files, newExt: string, a: string, b: string)
    requires NoClash(files, newExt) && a in files && b in files && a != b
    ensures Target(a, newExt) != b && Target(a, newExt) != Target(b, newExt)
  {}

  predicate Keeps(files: Files, done: set<string>, after: Files, newExt: string, n: string)
    requires n in files
  {
    Now(n, done, newExt) in after && after[Now(n, done, newExt)] == files[n]
  }

  ghost predicate Stems(files: Files, done: set<string>, newExt: string, m: string) {
    exists n :: n in files && m == Now(n, done, newExt)
  }

  /** The directory after the renames, file by file. */
  ghost predicate Moved(files: Files, done: set<string>, after: Files, newExt: string) {
    && (forall n :: n in files ==> Keeps(files, done, after, newExt, n))
    && (forall m :: m in after ==> Stems(files, done, newExt, m))
  }

  lemma RenameOneMoves(files: Files, done: set<string>, after: Files, name: string, newExt: string)
    requires NoClash(files, newExt) && Moved(files, done, after, newExt)
    requires name in files && name !in done
    ensures Moved(files, done + {name}, RenameOne(after, name, newExt), newExt)
  {
    var after', done' := RenameOne(after, name, newExt), done + {name};
    assert Keeps(files, done, after, newExt, name);
    forall n | n in files ensures Keeps(files, done', after', newExt, n) {
      assert Keeps(files, done, after, newExt, n);
      if n != name {
        NamesNeverMeet(files, newExt, n, name);
        NamesNeverMeet(files, newExt, name, n);
      }
    }
    forall m | m in after' ensures Stems(files, done', newExt, m) {
      if m == Target(name, newExt) {
        assert m == Now(name, done', newExt);
      } else {
        assert Stems(files, done, newExt, m);
        var n :| n in files && m == Now(n, done, newExt);
        assert m == Now(n, done', newExt);
      }
    }
  }

  lemma LastName(names: seq<string>)
    requires names != [] && NoRepeats(names)
    ensures Names(names) == Names(names[..|names| - 1]) + {names[|names| - 1]}
    ensures names[|names| - 1] !in Names(names[..|names| - 1]) && NoRepeats(names[..|names| - 1])
  {
    assert names == names[..|names| - 1] + [names[|names| - 1]];
  }

  lemma NothingMoved(files: Files, newExt: string)
    ensures Moved(files, Names([]), files, newExt)
  {}

  lemma {:induction false} RenameAllMoves(files: Files, names: seq<string>, newExt: string)
    requires NoClash(files, newExt) && NoRepeats(names) && Names(names) <= files.Keys
    ensures Moved(files, Names(names), RenameAll(files, names, newExt), newExt)
  {
    if names == [] {
      NothingMoved(files, newExt);
    } else {
      var n := |names| - 1;
      LastName(names);
      RenameAllMoves(files, names[..n], newExt);
      RenameOneMoves(files, Names(names[..n]), RenameAll(files, names[..n], newExt), names[n], newExt);
    }
  }

  // ---- The upload ----

  predicate Uploads(name: string) {
    name !in SKIPPED
  }

  lemma SameAfterPrefix(prefix: string, a: string, b: string)
    ensures prefix + a == prefix + b ==> a == b
  {
    assert (prefix + a)[|prefix|..] == a && (prefix + b)[|prefix|..] == b;
  }

  lemma {:induction false} UploadAllHas(objects: Files, files: Files, prefix: string, names: seq<string>)
    requires NoRepeats(names) && Names(names) <= files.Keys
    ensures var after := UploadAll(objects, files, prefix, names);
            && (forall n :: n in names && Uploads(n) ==> prefix + "/" + n in after && after[prefix + "/" + n] == files[n])
            && (forall k :: k in objects && !(prefix + "/" <= k) ==> k in after && after[k] == objects[k])
  {
    if names != [] {
      var n := |names| - 1;
      LastName(names);
      UploadAllHas(objects, files, prefix, names[..n]);
      forall m | m in names[..n] ensures prefix + "/" + m != prefix + "/" + names[n] {
        SameAfterPrefix(prefix + "/", m, names[n]);
      }
      assert names == names[..n] + [names[n]];
      assert names[n] in Names(names);
    }
  }
}
