/** The editor store (src/lib/store.ts): pure edits of its two collections and
    the store object whose actions replace its state record. */
module EditorStore {
  import opened VideoTypes

  /** What an engine call can throw: an Error with a message, or anything else. */
  datatype Thrown = ErrorObject(message: string) | OtherValue

  /** The text the store records for a thrown value. */
  function ErrorMessage(e: Thrown): (m: string)
    ensures e.ErrorObject? ==> m == e.message
    ensures e.OtherValue? ==> m == "An error occurred"
  {
    match e
    case ErrorObject(msg) => msg
    case OtherValue => "An error occurred"
  }

  /** How the engine's duration probe settles. */
  datatype ProbeOutcome = Probed(seconds: real) | ProbeFailed(thrown: Thrown)

  /** How the engine's trim settles; a success carries the clip's bytes. */
  datatype TrimOutcome = Trimmed(blob: nat) | TrimFailed(thrown: Thrown)

  /** A trim handed to the engine: the file and bounds captured when it was issued. */
  datatype TrimRequest = TrimRequest(source: MediaFile, start: real, end: real)

  // ---------------------------------------------------------------------
  // Order-preserving filter

  /** `a` is `b` with some elements left out, the rest in their order. */
  predicate IsSubsequence<T(==)>(a: seq<T>, b: seq<T>)
    decreases |b|
  {
    if a == [] then true
    else if b == [] then false
    else if a[0] == b[0] then IsSubsequence(a[1..], b[1..])
    else IsSubsequence(a, b[1..])
  }

  /** How many times `x` occurs in `s`. */
  function Occurrences<T(==)>(s: seq<T>, x: T): nat {
    if s == [] then 0 else (if s[0] == x then 1 else 0) + Occurrences(s[1..], x)
  }

  /** Array.prototype.filter: the elements `keep` accepts, in their order. */
  function Filter<T(==,!new)>(s: seq<T>, keep: T -> bool): (r: seq<T>)
    ensures |r| <= |s|
    ensures forall x :: x in r <==> x in s && keep(x)
    ensures forall x :: Occurrences(r, x) == if keep(x) then Occurrences(s, x) else 0
    ensures IsSubsequence(r, s)
  {
    if s == [] then []
    else if keep(s[0]) then
      var r := [s[0]] + Filter(s[1..], keep);
      assert r[1..] == Filter(s[1..], keep);
      r
    else Filter(s[1..], keep)
  }

  /** Filtering a list that `keep` accepts throughout leaves it as it is. */
  lemma {:induction false} FilterKeepsAll<T(!new)>(s: seq<T>, keep: T -> bool)
    requires forall x :: x in s ==> keep(x)
    ensures Filter(s, keep) == s
  {
    if s != [] {
      assert s[0] in s;
      forall x | x in s[1..] ensures keep(x) { assert x in s; }
      FilterKeepsAll(s[1..], keep);
    }
  }

  /** Filtering twice by the same test is filtering once. */
  lemma {:induction false} FilterIdempotent<T(!new)>(s: seq<T>, keep: T -> bool)
    ensures Filter(Filter(s, keep), keep) == Filter(s, keep)
  {
    FilterKeepsAll(Filter(s, keep), keep);
  }

  // ---------------------------------------------------------------------
  // The clip batch

  /** removeFromBatch's filter: the batch without the clips carrying `id`. */
  function WithoutClip(batch: seq<Clip>, id: string): (r: seq<Clip>)
    ensures forall c :: c in r <==> c in batch && c.id != id
    ensures forall c :: Occurrences(r, c) == if c.id != id then Occurrences(batch, c) else 0
    ensures IsSubsequence(r, batch)
  {
    Filter(batch, (c: Clip) => c.id != id)
  }

  /** Removing the same id a second time changes nothing. */
  lemma WithoutClipIdempotent(batch: seq<Clip>, id: string)
    ensures WithoutClip(WithoutClip(batch, id), id) == WithoutClip(batch, id)
  {
    FilterIdempotent(batch, (c: Clip) => c.id != id);
  }

  /** Removing an id no clip carries leaves the batch as it is. */
  lemma WithoutAbsentClip(batch: seq<Clip>, id: string)
    requires forall c :: c in batch ==> c.id != id
    ensures WithoutClip(batch, id) == batch
  {
    FilterKeepsAll(batch, (c: Clip) => c.id != id);
  }

  /** renameClip's map: every clip carrying `id` gets `newName`; nothing
      else about any clip, and neither order nor length, changes. */
  function RenameClips(batch: seq<Clip>, id: string, newName: string): (r: seq<Clip>)
    ensures |r| == |batch|
    ensures forall i :: 0 <= i < |batch| ==> r[i] == batch[i].(name := r[i].name)
    ensures forall i :: 0 <= i < |batch| ==>
      r[i].name == (if batch[i].id == id then newName else batch[i].name)
  {
    if batch == [] then []
    else
      var head := if batch[0].id == id then batch[0].(name := newName) else batch[0];
      [head] + RenameClips(batch[1..], id, newName)
  }

  // ---------------------------------------------------------------------
  // The upload list

  /** Some upload in `files` is called `name` (the `.some` test of setVideoFile). */
  predicate HasName(files: seq<MediaFile>, name: string) {
    exists i :: 0 <= i < |files| && files[i].name == name
  }

  /** No two uploads share a name. */
  predicate UniqueNames(files: seq<MediaFile>) {
    forall i, j :: 0 <= i < j < |files| ==> files[i].name != files[j].name
  }

  /** setVideoFile's update of the upload list: `f` goes at the end unless a
      file of that name is already listed. */
  function AddUpload(files: seq<MediaFile>, f: MediaFile): (r: seq<MediaFile>)
    ensures HasName(r, f.name)
    ensures r == files <==> HasName(files, f.name)
    ensures |files| <= |r| <= |files| + 1 && r[..|files|] == files
    ensures |r| == |files| + 1 ==> r[|files|] == f
    ensures UniqueNames(files) ==> UniqueNames(r)
  {
    if HasName(files, f.name) then files
    else
      var r := files + [f];
      assert r[|files|] == f;
      assert forall i :: 0 <= i < |files| ==> r[i] == files[i];
      r
  }

  /** removeUploadedVideo's filter: the uploads not called `name`. */
  function WithoutUpload(files: seq<MediaFile>, name: string): (r: seq<MediaFile>)
    ensures forall f :: f in r <==> f in files && f.name != name
    ensures forall f :: Occurrences(r, f) == if f.name != name then Occurrences(files, f) else 0
    ensures !HasName(r, name)
    ensures IsSubsequence(r, files)
  {
    Filter(files, (f: MediaFile) => f.name != name)
  }

  /** Leaving out elements keeps names apart. */
  lemma {:induction false} SubsequenceKeepsNamesUnique(a: seq<MediaFile>, b: seq<MediaFile>)
    requires IsSubsequence(a, b) && UniqueNames(b)
    ensures UniqueNames(a)
    decreases |b|
  {
    if a != [] && b != [] {
      assert UniqueNames(b[1..]) by {
        forall i, j | 0 <= i < j < |b| - 1 ensures b[1..][i].name != b[1..][j].name {
          assert b[1..][i] == b[i + 1] && b[1..][j] == b[j + 1];
        }
      }
      if a[0] == b[0] {
        SubsequenceKeepsNamesUnique(a[1..], b[1..]);
        SubsequenceNamesFrom(a[1..], b[1..]);
        forall i, j | 0 <= i < j < |a| ensures a[i].name != a[j].name {
          if i == 0 {
            assert a[j] == a[1..][j - 1];
            var k :| 0 <= k < |b[1..]| && b[1..][k] == a[j];
            assert b[k + 1] == a[j];
          } else {
            assert a[i] == a[1..][i - 1] && a[j] == a[1..][j - 1];
          }
        }
      } else {
        SubsequenceKeepsNamesUnique(a, b[1..]);
      }
    }
  }

  /** Every element of a subsequence is an element of the whole. */
  lemma {:induction false} SubsequenceNamesFrom<T>(a: seq<T>, b: seq<T>)
    requires IsSubsequence(a, b)
    ensures forall j :: 0 <= j < |a| ==> exists k :: 0 <= k < |b| && b[k] == a[j]
    decreases |b|
  {
    if a != [] && b != [] {
      if a[0] == b[0] {
        SubsequenceNamesFrom(a[1..], b[1..]);
        forall j | 0 <= j < |a| ensures exists k :: 0 <= k < |b| && b[k] == a[j] {
          if j == 0 {
            assert b[0] == a[0];
          } else {
            assert a[j] == a[1..][j - 1];
            var k :| 0 <= k < |b[1..]| && b[1..][k] == a[1..][j - 1];
            assert b[k + 1] == a[j];
          }
        }
      } else {
        SubsequenceNamesFrom(a, b[1..]);
        forall j | 0 <= j < |a| ensures exists k :: 0 <= k < |b| && b[k] == a[j] {
          var k :| 0 <= k < |b[1..]| && b[1..][k] == a[j];
          assert b[k + 1] == a[j];
        }
      }
    }
  }

  /** Removing uploads by name keeps names unique. */
  lemma WithoutUploadKeepsNamesUnique(files: seq<MediaFile>, name: string)
    requires UniqueNames(files)
    ensures UniqueNames(WithoutUpload(files, name))
  {
    SubsequenceKeepsNamesUnique(WithoutUpload(files, name), files);
  }

  /** The File the rename builds: same bytes and type under a new name. */
  function Renamed(f: MediaFile, newName: string): (g: MediaFile)
    ensures g.name == newName && g.mime == f.mime && g.content == f.content
  {
    MediaFile(newName, f.mime, f.content)
  }

  /** renameUploadedVideo's map: each upload called `oldName` is replaced by a
      file called `newName` with the same type and bytes; order and length
      are kept. */
  function RenameUploads(files: seq<MediaFile>, oldName: string, newName: string): (r: seq<MediaFile>)
    ensures |r| == |files|
    ensures forall i :: 0 <= i < |files| ==>
      r[i].mime == files[i].mime && r[i].content == files[i].content
    ensures forall i :: 0 <= i < |files| ==>
      r[i].name == (if files[i].name == oldName then newName else files[i].name)
  {
    if files == [] then []
    else
      var head := if files[0].name == oldName then Renamed(files[0], newName) else files[0];
      [head] + RenameUploads(files[1..], oldName, newName)
  }

  /** After a real rename no upload keeps the old name. */
  lemma RenameUploadsDropsOldName(files: seq<MediaFile>, oldName: string, newName: string)
    requires oldName != newName
    ensures !HasName(RenameUploads(files, oldName, newName), oldName)
  {
  }

  /** Renaming to a name not yet listed keeps names unique. */
  lemma RenameUploadsKeepsNamesUnique(files: seq<MediaFile>, oldName: string, newName: string)
    requires UniqueNames(files) && !HasName(files, newName)
    ensures UniqueNames(RenameUploads(files, oldName, newName))
  {
    var r := RenameUploads(files, oldName, newName);
    forall i, j | 0 <= i < j < |r| ensures r[i].name != r[j].name {
      assert files[i].name != files[j].name;
      assert files[i].name != newName && files[j].name != newName;
    }
  }

  /** Nothing stops a rename onto a name already listed: two uploads then
      share a name. */
  lemma RenameUploadsCanDuplicate()
    ensures var files := [MediaFile("a.mp4", "video/mp4", 1), MediaFile("b.mp4", "video/mp4", 2)];
            UniqueNames(files) && !UniqueNames(RenameUploads(files, "a.mp4", "b.mp4"))
  {
    var files := [MediaFile("a.mp4", "video/mp4", 1), MediaFile("b.mp4", "video/mp4", 2)];
    var r := RenameUploads(files, "a.mp4", "b.mp4");
    assert r[0].name == "b.mp4" && r[1].name == "b.mp4";
  }

  // ---------------------------------------------------------------------
  // The store

  /** The store singleton. Each action replaces `video` with a new record.
      The two actions that call the engine are split in a begin step and a
      completion step; the calls still outstanding are kept, as ghost state,
      in `probes` and `trims`. Nothing stops a second begin while one is
      outstanding, as in the code. */
  class Store {
    var video: VideoState
    ghost var probes: seq<MediaFile>
    ghost var trims: seq<TrimRequest>

    constructor ()
      ensures video == Initial && probes == [] && trims == []
    {
      video := Initial;
      probes := [];
      trims := [];
    }

    /** setVideoFile, up to its first await. With no file it returns to the
        initial state and keeps the upload list. With a file it makes it
        active, lists it unless its name is listed, sets isProcessing and
        starts a duration probe. */
    method SetVideoFile(file: Option<MediaFile>)
      modifies this
      ensures file.None? ==>
        video == Initial.(uploadedVideos := old(video.uploadedVideos)) && probes == old(probes)
      ensures file.Some? ==>
        video == old(video).(file := file, isProcessing := true,
                             uploadedVideos := AddUpload(old(video.uploadedVideos), file.value))
        && probes == old(probes) + [file.value]
      ensures trims == old(trims)
    {
      if file.None? {
        video := Initial.(uploadedVideos := video.uploadedVideos);
        return;
      }
      video := video.(file := file, isProcessing := true,
                      uploadedVideos := AddUpload(video.uploadedVideos, file.value));
      probes := probes + [file.value];
    }

    /** setVideoFile after the probe it started (the `k`-th outstanding one)
        settles. A success installs the duration as the whole clip range; a
        failure records the error and leaves the active file, the upload list
        and the clip range as they are. */
    method CompleteSetVideoFile(k: nat, outcome: ProbeOutcome)
      requires k < |probes|
      modifies this
      ensures probes == old(probes[..k] + probes[k + 1..]) && trims == old(trims)
      ensures outcome.Probed? ==>
        video == old(video).(duration := outcome.seconds, isProcessing := false,
                             clipStart := 0.0, clipEnd := outcome.seconds, error := None)
      ensures outcome.ProbeFailed? ==>
        video == old(video).(isProcessing := false, error := Some(ErrorMessage(outcome.thrown)))
    {
      match outcome {
        case Probed(d) =>
          video := video.(duration := d, isProcessing := false,
                          clipStart := 0.0, clipEnd := d, error := None);
        case ProbeFailed(e) =>
          video := video.(isProcessing := false, error := Some(ErrorMessage(e)));
      }
      probes := probes[..k] + probes[k + 1..];
    }

    method SetCurrentTime(time: real)
      modifies this`video
      ensures video == old(video).(currentTime := time)
    {
      video := video.(currentTime := time);
    }

    method SetIsPlaying(isPlaying: bool)
      modifies this`video
      ensures video == old(video).(isPlaying := isPlaying)
    {
      video := video.(isPlaying := isPlaying);
    }

    method SetClipStart(time: real)
      modifies this`video
      ensures video == old(video).(clipStart := time)
    {
      video := video.(clipStart := time);
    }

    method SetClipEnd(time: real)
      modifies this`video
      ensures video == old(video).(clipEnd := time)
    {
      video := video.(clipEnd := time);
    }

    /** clipVideo, up to its first await. Without an active file it resolves
        to null (`issued` false) and changes nothing; otherwise it sets
        isProcessing, clears the error and issues a trim of the active file
        with the given bounds. */
    method ClipVideo(start: real, end: real) returns (issued: bool)
      modifies this
      ensures issued <==> old(video.file).Some?
      ensures !issued ==> video == old(video) && trims == old(trims)
      ensures issued ==>
        video == old(video).(isProcessing := true, error := None)
        && trims == old(trims) + [TrimRequest(old(video.file).value, start, end)]
      ensures probes == old(probes)
    {
      if video.file.None? {
        return false;
      }
      trims := trims + [TrimRequest(video.file.value, start, end)];
      video := video.(isProcessing := true, error := None);
      return true;
    }

    /** clipVideo after the `k`-th outstanding trim settles: it resolves to the
        clip's bytes, or to null with the error recorded. isProcessing is
        cleared either way and the batch is never touched. */
    method CompleteClipVideo(k: nat, outcome: TrimOutcome) returns (blob: Option<nat>)
      requires k < |trims|
      modifies this
      ensures trims == old(trims[..k] + trims[k + 1..]) && probes == old(probes)
      ensures outcome.Trimmed? ==>
        blob == Some(outcome.blob) && video == old(video).(isProcessing := false)
      ensures outcome.TrimFailed? ==>
        blob == None
        && video == old(video).(isProcessing := false, error := Some(ErrorMessage(outcome.thrown)))
      ensures video.batch == old(video.batch)
    {
      match outcome {
        case Trimmed(b) =>
          video := video.(isProcessing := false);
          blob := Some(b);
        case TrimFailed(e) =>
          video := video.(isProcessing := false, error := Some(ErrorMessage(e)));
          blob := None;
      }
      trims := trims[..k] + trims[k + 1..];
    }

    method AddToBatch(clip: Clip)
      modifies this`video
      ensures video == old(video).(batch := old(video.batch) + [clip])
    {
      video := video.(batch := video.batch + [clip]);
    }

    method RemoveFromBatch(id: string)
      modifies this`video
      ensures video == old(video).(batch := WithoutClip(old(video.batch), id))
    {
      video := video.(batch := WithoutClip(video.batch, id));
    }

    method ClearBatch()
      modifies this`video
      ensures video == old(video).(batch := [])
    {
      video := video.(batch := []);
    }

    /** Drops every upload with that name; the active file stays. */
    method RemoveUploadedVideo(fileName: string)
      modifies this`video
      ensures video == old(video).(uploadedVideos := WithoutUpload(old(video.uploadedVideos), fileName))
      ensures video.file == old(video.file)
    {
      video := video.(uploadedVideos := WithoutUpload(video.uploadedVideos, fileName));
    }

    method RenameClip(id: string, newName: string)
      modifies this`video
      ensures video == old(video).(batch := RenameClips(old(video.batch), id, newName))
    {
      video := video.(batch := RenameClips(video.batch, id, newName));
    }

    /** Renames the uploads called `oldName`. The new record is spread from the
        old one before the map runs, so the map's write of the renamed file
        into the active-file slot lands on the record being replaced: the new
        record's active file is the one it had before. */
    method RenameUploadedVideo(oldName: string, newName: string)
      modifies this`video
      ensures video == old(video).(uploadedVideos := RenameUploads(old(video.uploadedVideos), oldName, newName))
      ensures video.file == old(video.file)
    {
      var next := video.(uploadedVideos := RenameUploads(video.uploadedVideos, oldName, newName));
      video := next;
    }
  }

  /** Renaming the active upload leaves the new state's active file under its
      old name, which no upload then carries. */
  lemma RenameLeavesActiveFileBehind(v: VideoState, oldName: string, newName: string)
    requires v.file.Some? && v.file.value.name == oldName && oldName != newName
    ensures var w := v.(uploadedVideos := RenameUploads(v.uploadedVideos, oldName, newName));
            w.file == v.file && !HasName(w.uploadedVideos, w.file.value.name)
  {
    RenameUploadsDropsOldName(v.uploadedVideos, oldName, newName);
  }
}
