/** The upload drop zone (src/components/VideoUploader.tsx): which of the
    files the drop zone accepted, if any, is handed to the store. */
module Uploader {
  import opened VideoTypes
  import opened EditorStore

  /** The two MIME types the drop handler lets through. */
  predicate AllowedType(mime: string) {
    mime == "video/mp4" || mime == "video/quicktime"
  }

  /** onDrop's choice: only the first file the drop zone accepted is looked
      at, and it is passed on exactly when its type is allowed. */
  function Accepted(files: seq<MediaFile>): (r: Option<MediaFile>)
    ensures r.Some? ==> |files| > 0 && r.value == files[0] && AllowedType(r.value.mime)
    ensures |files| > 0 && AllowedType(files[0].mime) ==> r.Some?
  {
    if |files| > 0 && AllowedType(files[0].mime) then Some(files[0]) else None
  }

  /** A webm file is turned away, as is an empty drop. */
  lemma OtherTypesRejected(f: MediaFile)
    requires f.mime == "video/webm"
    ensures Accepted([f]) == None && Accepted([]) == None
  {
  }

  /** onDrop: at most one setVideoFile call; a drop that Accepted turns away
      leaves the store untouched. */
  method OnDrop(store: Store, files: seq<MediaFile>)
    modifies store
    ensures Accepted(files).None? ==>
      store.video == old(store.video) && store.probes == old(store.probes) && store.trims == old(store.trims)
    ensures Accepted(files).Some? ==>
      var f := Accepted(files).value;
      store.video == old(store.video).(file := Some(f), isProcessing := true,
                                       uploadedVideos := AddUpload(old(store.video.uploadedVideos), f))
      && store.probes == old(store.probes) + [f] && store.trims == old(store.trims)
  {
    var file := Accepted(files);
    if file.Some? {
      store.SetVideoFile(file);
    }
  }
}
