# mp4-clipper editor state, modelled in Dafny

mp4-clipper is a browser video clipper. A user drops an MP4 or MOV file,
plays it, selects an in/out range and exports trimmed clips into a batch.
Decoding and trimming are done by an FFmpeg wasm engine. This project models
the client side that drives that engine:

- the editor store (`video.dfy`, `store.dfy`): one state record, its actions,
  and the pure list edits behind them. The two actions that await the engine,
  `setVideoFile` and `clipVideo`, are each split into a begin step and a
  completion step. The completion step takes the engine's outcome as an
  input: a duration or a thrown value, clip bytes or a thrown value. Calls
  still outstanding are kept as ghost state. Nothing refuses a second begin
  while `isProcessing` is true, because the code has no such guard.
- the file manager panel (`sidebar.dfy`): the rename rule, which keeps the
  upload's extension, the duration label, and the panel's editing state.
- the player (`player.dfy`): the `<video>` element's `currentTime`, held as a
  `real`. It covers the seek clamp, the boundary snapping on time updates, the
  play/pause rewind, and the five-second step buttons.
- the timeline (`timeline.dfy`): adding a full-length clip and dragging a clip
  by a time delta. The drag takes the delta as an input.
- the drop zone (`uploader.dfy`): the MIME allow-list check on the first
  file the drop zone accepted.
- `scenarios.dfy`: client call sequences that show what the contracts let a
  caller conclude.

Times are `real` seconds. Blobs and file bytes are opaque `nat` handles. A
browser `File` is a value holding a name, a MIME type and a handle to its
bytes. A rename builds a new value with the same type and bytes.

In these places the code does something a reader might not expect; the
model follows the code:

- The clip-range setters store their argument unchanged. They do not clamp
  and do not check start < end.
- `clipVideo` does not add its result to the batch. The caller must call
  `addToBatch` separately.
- Renaming the active upload does not rename the active file. The new state
  is built with `...state.video` before the `map` runs. So the write to
  `state.video.file` at src/lib/store.ts:184 lands on the record being
  replaced. The new record's active file keeps its old name, and after a real
  rename no upload carries that name (`RenameLeavesActiveFileBehind`). The
  model follows this order of evaluation, not the comment above the write.
- A rename onto a name that is already listed creates two uploads with the
  same name (`RenameUploadsCanDuplicate`).
- `handleRemoveUpload` compares against the active file's name. After such a
  rename, removing the upload under its new name therefore leaves the active
  file in place (`Scenarios.RenameActiveScenario`).
- The timeline uses `addClip`, `updateClip`, `selectClip`, `clips` and
  `selectedClip`, but the store does not provide them. They are modelled as
  their own state, `ClipList`. `addClip` appends a clip whose id the caller
  supplies. `updateClip` replaces the range fields of every clip with that id.
  `selectClip` sets the selection.

## Model

| member | source | states |
|---|---|---|
| `EditorStore.ErrorMessage` | src/lib/store.ts:64 | A thrown Error yields its message. Any other thrown value yields "An error occurred". |
| `EditorStore.Filter` | src/lib/store.ts:140 | `filter` keeps exactly the elements the test accepts, each with all its copies and in their original order (a subsequence), and never grows the list. |
| `EditorStore.FilterKeepsAll` | src/lib/store.ts:158 | Filtering a list whose elements all pass the test returns the list unchanged. |
| `EditorStore.FilterIdempotent` | src/lib/store.ts:136-143 | Filtering twice with the same test is the same as filtering once. |
| `EditorStore.WithoutClip` | src/lib/store.ts:136-143 | removeFromBatch removes exactly the clips with that id and keeps the rest in order, every copy of a repeated clip included. |
| `EditorStore.WithoutClipIdempotent` | src/lib/store.ts:136-143 | Removing the same id a second time changes nothing. |
| `EditorStore.WithoutAbsentClip` | src/lib/store.ts:140 | Removing an id that no clip has leaves the batch unchanged. |
| `EditorStore.RenameClips` | src/lib/store.ts:163-172 | renameClip changes only the name, and only on clips with that id. Length, order, ids and every other field are unchanged. |
| `EditorStore.AddUpload` | src/lib/store.ts:38-40 | The file is appended only when no upload has its name. The old list stays a prefix, the length grows by at most one, the name is listed afterwards, and unique names stay unique. |
| `EditorStore.WithoutUpload` | src/lib/store.ts:154-161 | removeUploadedVideo drops every upload with that name and keeps the others in order, every copy included. |
| `EditorStore.SubsequenceKeepsNamesUnique` | src/lib/store.ts:158 | Leaving entries out of a list with unique names keeps the names unique. |
| `EditorStore.SubsequenceNamesFrom` | src/lib/store.ts:158 | Every entry of a filtered list is an entry of the original list. |
| `EditorStore.WithoutUploadKeepsNamesUnique` | src/lib/store.ts:154-161 | Removing uploads by name keeps upload names unique. |
| `EditorStore.Renamed` | src/lib/store.ts:181 | The renamed File has the new name and keeps the old type and bytes. |
| `EditorStore.RenameUploads` | src/lib/store.ts:178-189 | Every upload named oldName is replaced by one named newName with the same type and bytes. Other uploads, the order and the length are unchanged. |
| `EditorStore.RenameUploadsDropsOldName` | src/lib/store.ts:178-189 | After a rename to a different name, no upload keeps the old name. |
| `EditorStore.RenameUploadsKeepsNamesUnique` | src/lib/store.ts:178-189 | Renaming to a name that is not listed yet keeps names unique. |
| `EditorStore.RenameUploadsCanDuplicate` | src/lib/store.ts:174-191 | Nothing checks for a collision: renaming a.mp4 to an already listed b.mp4 gives two uploads named b.mp4. |
| `EditorStore.RenameLeavesActiveFileBehind` | src/lib/store.ts:177-185 | Because the spread runs before the map, the new state's active file is the old one, and no upload then has its name. |
| `EditorStore.Store.constructor` | src/lib/store.ts:5-19 | The store starts in the initial state, with no engine call outstanding. |
| `EditorStore.Store.SetVideoFile` | src/lib/store.ts:21-42 | Null resets to the initial state but keeps the upload list. A file becomes active, is listed unless its name is already listed, sets isProcessing, and starts a duration probe. |
| `EditorStore.Store.CompleteSetVideoFile` | src/lib/store.ts:43-67 | On success: duration = d, range = [0, d], isProcessing off, error cleared. On failure only isProcessing (off) and error change. |
| `EditorStore.Store.SetCurrentTime` | src/lib/store.ts:70-75 | Stores the time unchanged. No other field changes. |
| `EditorStore.Store.SetIsPlaying` | src/lib/store.ts:77-82 | Stores the flag. No other field changes. |
| `EditorStore.Store.SetClipStart` | src/lib/store.ts:84-89 | Stores the start unchanged, with no clamping and no start < end check. |
| `EditorStore.Store.SetClipEnd` | src/lib/store.ts:91-96 | Stores the end unchanged, with no clamping and no start < end check. |
| `EditorStore.Store.ClipVideo` | src/lib/store.ts:98-106 | With no active file it resolves to null and changes no state. Otherwise it sets isProcessing, clears the error, and issues a trim of the active file with the given bounds. |
| `EditorStore.Store.CompleteClipVideo` | src/lib/store.ts:107-124 | On success it returns the blob. On failure it returns null and records the error. isProcessing is off either way, and the batch is never touched. |
| `EditorStore.Store.AddToBatch` | src/lib/store.ts:127-134 | Appends the clip at the end of the batch. No other field changes. |
| `EditorStore.Store.RemoveFromBatch` | src/lib/store.ts:136-143 | The batch becomes WithoutClip of itself. No other field changes. |
| `EditorStore.Store.ClearBatch` | src/lib/store.ts:145-152 | Empties the batch only. |
| `EditorStore.Store.RemoveUploadedVideo` | src/lib/store.ts:154-161 | Drops the uploads with that name. The active file stays. |
| `EditorStore.Store.RenameClip` | src/lib/store.ts:163-172 | The batch becomes RenameClips of itself. No other field changes. |
| `EditorStore.Store.RenameUploadedVideo` | src/lib/store.ts:174-192 | The upload list becomes RenameUploads of itself, and the active file is the pre-rename one. |
| `Sidebar.AfterLastDot` | src/components/Sidebar.tsx:48 | `split('.').pop()` returns a suffix with no '.', preceded by a '.' unless it is the whole string. |
| `Sidebar.AfterLastDotWithoutDot` | src/components/Sidebar.tsx:48 | For a name without a '.', the extension is the whole name. |
| `Sidebar.AfterLastDotOfJoin` | src/components/Sidebar.tsx:49 | The extension of `x + "." + y`, where y has no '.', is y. |
| `Sidebar.JoinedName` | src/components/Sidebar.tsx:49 | `newName.ext` starts with newName, then '.', and its extension is ext. |
| `Sidebar.NameWithExtension` | src/components/Sidebar.tsx:47-50 | A new name containing '.' is used as typed. Otherwise the result is exactly the new name, a '.', and the old name's extension: it starts with the new name and '.', ends with that extension, and has no other characters. |
| `Sidebar.NameWithExtensionOfPlainName` | src/components/Sidebar.tsx:48-49 | When the old name has no '.', the result is `newName + "." + oldName`. |
| `Sidebar.RenameRequest` | src/components/Sidebar.tsx:41-56 | No store call exactly when the text is empty or unchanged. A clip is renamed by the key it was edited under, with the text verbatim. An upload is renamed with the extension kept. |
| `Sidebar.Decimal` | src/components/Sidebar.tsx:33 | `toString()` gives digits without leading zeros that read back as the number. |
| `Sidebar.PadTwo` | src/components/Sidebar.tsx:33 | `padStart(2, '0')` gives exactly two digits that read back as the number. |
| `Sidebar.FormatDuration` | src/components/Sidebar.tsx:29-34 | Returns "0:00" for 0. Otherwise the label is the minutes in decimal without leading zeros, ':' and two-digit seconds below 60, and minutes × 60 + seconds equals the duration. |
| `Sidebar.FileManager.constructor` | src/components/Sidebar.tsx:10-11 | The panel starts with nothing being edited and empty input text. |
| `Sidebar.FileManager.StartRename` | src/components/Sidebar.tsx:36-39 | The entry's key becomes both the edited key and the input text. For a clip that key is its id. |
| `Sidebar.FileManager.EditName` | src/components/Sidebar.tsx:104 | The input text becomes what was typed. |
| `Sidebar.FileManager.HandleRename` | src/components/Sidebar.tsx:41-59 | Makes exactly the store call RenameRequest decides, or none, and always ends editing. |
| `Sidebar.FileManager.HandleRemoveUpload` | src/components/Sidebar.tsx:22-27 | Resets to the initial state (keeping uploads) only when the active file has that name, then always drops the uploads with that name. |
| `Sidebar.UneditedClipRenameMakesNoCall` | src/components/Sidebar.tsx:36-45 | A clip's rename input starts with the clip id, and the unchanged check compares against that id. Confirming without editing therefore makes no store call. |
| `Sidebar.FileManager.HandleVideoSelect` | src/components/Sidebar.tsx:14-16 | Selecting a listed upload begins setVideoFile with it. |
| `Player.SeekTarget` | src/components/VideoPlayer.tsx:109 | `max(clipStart, min(t, clipEnd))` never lies before the start, lies in [clipStart, clipEnd] when start ≤ end, equals t inside the range, goes to the start for a time before it and to the end for a time past a proper range, and equals the start on an inverted range. |
| `Player.Snap` | src/components/VideoPlayer.tsx:75-80 | The boundary check moves the element to the start when before it and to the end when past it. On a proper range this is the seek clamp. |
| `Player.SnapDiffersFromSeekOnInvertedRange` | src/components/VideoPlayer.tsx:61-66 | On an inverted range (start 5, end 3), a reading of 6 snaps to the end, while seeking to 6 goes to the start. |
| `Player.StepBackTarget` | src/components/VideoPlayer.tsx:144 | The step-back target is the later of clipStart and currentTime − 5. |
| `Player.StepForwardTarget` | src/components/VideoPlayer.tsx:164 | The step-forward target is the earlier of clipEnd and currentTime + 5. |
| `Player.StepsAreSeeks` | src/components/VideoPlayer.tsx:143-170 | After handleSeek's clamp, the step buttons land where a seek to currentTime ∓ 5 lands. |
| `Player.PlayerView.constructor` | src/components/VideoPlayer.tsx:6 | The element starts paused at time 0. |
| `Player.PlayerView.HandleSeek` | src/components/VideoPlayer.tsx:105-112 | Does nothing without a file. Otherwise the element and the store both get the clamped time. |
| `Player.PlayerView.HandleTimeUpdate` | src/components/VideoPlayer.tsx:71-83 | Snaps the element to the range, stops playback past the end, and stores the reading taken before snapping. |
| `Player.PlayerView.ClampEffect` | src/components/VideoPlayer.tsx:56-69 | Applies the same boundary check, but stores the element time after snapping. |
| `Player.PlayerView.PlaybackEffect` | src/components/VideoPlayer.tsx:35-53 | Plays or pauses the element to match isPlaying. A rejected play clears isPlaying. |
| `Player.PlayerView.HandlePlayPause` | src/components/VideoPlayer.tsx:85-103 | A no-op without a file. When playing it pauses. When stopped at or past the end it rewinds to the start, then plays. isPlaying flips on success, and a rejected play leaves it false. |
| `Player.PlayerView.GoToStart` | src/components/VideoPlayer.tsx:136 | Seeks to clipStart. |
| `Player.PlayerView.StepBack` | src/components/VideoPlayer.tsx:144 | Seeks to the clamped stored time − 5. |
| `Player.PlayerView.StepForward` | src/components/VideoPlayer.tsx:164 | Seeks to the clamped stored time + 5. |
| `Player.PlayerView.GoToEnd` | src/components/VideoPlayer.tsx:172 | Seeks to clipEnd, clamped. |
| `Player.PlayerView.OnEnded` | src/components/VideoPlayer.tsx:128 | The ended event sets isPlaying to false. |
| `Player.PlayerView.HandleError` | src/components/VideoPlayer.tsx:114-118 | The error event sets isPlaying to false. |
| `Timeline.FullRange` | src/components/Timeline.tsx:10-18 | A clip exists only when duration > 0. It spans [0, duration], with its duration equal to its length. |
| `Timeline.RangeFields` | src/components/Timeline.tsx:20-27 | Every update sets duration = end − start. |
| `Timeline.DragRange` | src/components/Timeline.tsx:47-53 | Both ends shift by the same delta and are clamped independently (start ≥ 0, end ≤ duration). There is a result exactly when the clamped start is before the clamped end. |
| `Timeline.DragInsideIsShift` | src/components/Timeline.tsx:47-48 | A drag that stays inside the video shifts the clip and keeps its length. |
| `Timeline.DragNeverLengthens` | src/components/Timeline.tsx:47-48 | Independent clamping can only shorten a clip. |
| `Timeline.FindClip` | src/components/Timeline.tsx:40 | `find` returns the first clip with that id, and returns nothing when no clip has it. |
| `Timeline.UpdateClips` | src/components/Timeline.tsx:21-27 | The clips with that id get the new range fields. Ids, order and the other clips are unchanged. |
| `Timeline.DragStep` | src/components/Timeline.tsx:37-54 | There is a new range only while dragging, with some clip selected (a non-empty id), and when the clip is found. It is DragRange of that clip. |
| `Timeline.ClipList.constructor` | src/components/Timeline.tsx:6 | The clip list starts empty with nothing selected. |
| `Timeline.ClipList.AddClip` | src/components/Timeline.tsx:12 | Appends a clip with the given id and fields. |
| `Timeline.ClipList.UpdateClip` | src/components/Timeline.tsx:22 | The list becomes UpdateClips of itself. |
| `Timeline.ClipList.SelectClip` | src/components/Timeline.tsx:34 | Selects that id. |
| `Timeline.TimelineView.constructor` | src/components/Timeline.tsx:7-8 | No drag is on, and the anchor is 0. |
| `Timeline.TimelineView.HandleAddClip` | src/components/Timeline.tsx:10-18 | Appends the full-range clip when duration > 0. Otherwise the list is unchanged. |
| `Timeline.TimelineView.HandleClipUpdate` | src/components/Timeline.tsx:20-29 | Updates the clip with the range and its length. |
| `Timeline.TimelineView.HandleDragStart` | src/components/Timeline.tsx:31-35 | Turns dragging on, records the pointer, and selects the clip. |
| `Timeline.TimelineView.HandleDrag` | src/components/Timeline.tsx:37-54 | When DragStep gives a range, the clip moves there and the anchor moves to the pointer. Otherwise the clip and the anchor are unchanged. |
| `Timeline.TimelineView.HandleDragEnd` | src/components/Timeline.tsx:56-58 | Only clears dragging. |
| `Uploader.Accepted` | src/components/VideoUploader.tsx:10-12 | Only the first file the drop zone accepted is considered, and it is passed on exactly when its type is video/mp4 or video/quicktime. |
| `Uploader.OtherTypesRejected` | src/components/VideoUploader.tsx:11-13 | A video/webm file, or an empty drop, is not passed on. |
| `Uploader.OnDrop` | src/components/VideoUploader.tsx:8-16 | Makes at most one setVideoFile call. A rejected drop leaves the store untouched. |

## Left out

- The FFmpeg engine (src/utils/VideoProcessor.ts) is not part of this model: loading, the virtual file system, the trim command, cleanup and the DOM duration probe. Its results enter the completion steps as `ProbeOutcome` and `TrimOutcome` inputs.
- Store.ClipVideo: the `onProgress` callback is dropped, because the engine's `trimVideo` takes no progress parameter.
- The interleaving of the async steps is modelled only as begin steps and completion steps in any order. Cancellation and timeouts do not exist in the code.
- FormatDuration: takes whole seconds (`nat`). Fractional durations, negative values, NaN and Infinity are not modelled.
- Floating-point behaviour of times is not modelled: times are exact `real`s.
- Timeline: the pixel-to-time conversion, including the division by the timeline width at src/components/Timeline.tsx:43-45 and its zero-width case, is replaced by the `timeDelta` input.
- Timeline: `handleExport` and `removeClip` are not modelled. They call store actions (`exportClip`, `removeClip`) that do not exist, and the export's download is browser I/O.
- ClipList.AddClip: the new clip's id is an input, because the code that would generate it does not exist.
- Object-URL creation and revocation, video source loading, rendering, the show/hide toggles, the processing overlay and `console` logging are not modelled.
- PlayerView: the `videoRef.current` null checks are not modelled. The element is taken to exist whenever a handler runs.
- Uploader: react-dropzone's own `accept` and `maxFiles: 1` filtering (src/components/VideoUploader.tsx:18-25) is not modelled. `files` is the list it passes to `onDrop`, so a multi-file drop arrives empty.
- src/components/BatchDisplay.tsx (bulk download, thumbnails, its own duration label), src/App.tsx, src/components/Navbar.tsx and vite.config.ts are not part of this model.
