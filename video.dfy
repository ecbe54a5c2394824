/** The records the editor keeps: an uploaded file, a produced clip and the
    editor state with its initial value (src/types/video.ts, src/lib/store.ts). */
module VideoTypes {

  datatype Option<T> = None | Some(value: T)

  /** A browser File as the editor sees it: its display name, its MIME type
      and an opaque handle standing for its bytes. */
  datatype MediaFile = MediaFile(name: string, mime: string, content: nat)

  /** A clip in the batch. Blobs (the clip's bytes and its thumbnail) are
      opaque handles; `createdAt` is a timestamp in milliseconds. */
  datatype Clip = Clip(
    id: string,
    name: string,
    blob: nat,
    thumbnail: Option<nat>,
    start: real,
    end: real,
    duration: real,
    extension: string,
    createdAt: int)

  /** The editor's one state record. Times are seconds. */
  datatype VideoState = VideoState(
    file: Option<MediaFile>,
    duration: real,
    currentTime: real,
    isPlaying: bool,
    clipStart: real,
    clipEnd: real,
    isProcessing: bool,
    error: Option<string>,
    batch: seq<Clip>,
    uploadedVideos: seq<MediaFile>)

  /** The state the store starts in and that clearing the active file returns to. */
  const Initial: VideoState :=
    VideoState(None, 0.0, 0.0, false, 0.0, 0.0, false, None, [], [])
}
