/** The timeline (src/components/Timeline.tsx): adding a full-length clip and
    dragging a clip along the video. The clip list and selection it works on
    (`addClip`, `updateClip`, `selectClip`, `clips`, `selectedClip`) are not
    part of the editor store's record, so they are modelled here as their own
    small state, ClipList. */
module Timeline {
  import opened VideoTypes
  import opened EditorStore
  import opened Numbers

  datatype TimelineClip = TimelineClip(id: string, startTime: real, endTime: real, duration: real)

  /** The fields a clip update carries. */
  datatype ClipFields = ClipFields(startTime: real, endTime: real, duration: real)

  /** A start and an end time. */
  datatype Range = Range(start: real, end: real)

  /** handleAddClip's clip: the whole video, and only once its duration is known. */
  function FullRange(duration: real): (r: Option<ClipFields>)
    ensures r.Some? <==> duration > 0.0
    ensures r.Some? ==> r.value.startTime == 0.0 && r.value.endTime == duration
    ensures r.Some? ==> r.value.duration == r.value.endTime - r.value.startTime
  {
    if duration > 0.0 then Some(ClipFields(0.0, duration, duration)) else None
  }

  /** handleClipUpdate's fields: the duration is always end minus start. */
  function RangeFields(startTime: real, endTime: real): (f: ClipFields)
    ensures f.startTime == startTime && f.endTime == endTime
    ensures f.duration == f.endTime - f.startTime
  {
    ClipFields(startTime, endTime, endTime - startTime)
  }

  /** The range a drag moves a clip to: both ends shifted by the same delta,
      the start kept at or after 0 and the end at or before the video's end,
      each on its own; no range when that leaves start not before end. */
  function DragRange(startTime: real, endTime: real, timeDelta: real, duration: real): (r: Option<Range>)
    ensures r.Some? ==> 0.0 <= r.value.start < r.value.end <= duration
    ensures r.Some? ==>
      r.value.start == Max(0.0, startTime + timeDelta) && r.value.end == Min(duration, endTime + timeDelta)
    ensures r.None? <==> Max(0.0, startTime + timeDelta) >= Min(duration, endTime + timeDelta)
  {
    var s, e := Max(0.0, startTime + timeDelta), Min(duration, endTime + timeDelta);
    if s < e then Some(Range(s, e)) else None
  }

  /** A drag that stays inside the video moves the clip without changing its length. */
  lemma DragInsideIsShift(startTime: real, endTime: real, timeDelta: real, duration: real)
    requires startTime < endTime
    requires 0.0 <= startTime + timeDelta && endTime + timeDelta <= duration
    ensures DragRange(startTime, endTime, timeDelta, duration) == Some(Range(startTime + timeDelta, endTime + timeDelta))
  {
  }

  /** Clamping the ends separately can only shorten a clip. */
  lemma DragNeverLengthens(startTime: real, endTime: real, timeDelta: real, duration: real)
    requires DragRange(startTime, endTime, timeDelta, duration).Some?
    ensures var r := DragRange(startTime, endTime, timeDelta, duration).value;
            r.end - r.start <= endTime - startTime
  {
  }

  /** `clips.find(c => c.id === id)`: the first clip with that id. */
  function FindClip(clips: seq<TimelineClip>, id: string): (r: Option<TimelineClip>)
    ensures r.None? <==> forall c :: c in clips ==> c.id != id
    ensures r.Some? ==> exists i :: 0 <= i < |clips| && clips[i] == r.value && r.value.id == id
                                   && forall j :: 0 <= j < i ==> clips[j].id != id
  {
    if clips == [] then None
    else if clips[0].id == id then Some(clips[0])
    else
      var r := FindClip(clips[1..], id);
      if r.Some? then
        var i :| 0 <= i < |clips[1..]| && clips[1..][i] == r.value && r.value.id == id
                 && forall j :: 0 <= j < i ==> clips[1..][j].id != id;
        assert clips[i + 1] == r.value;
        assert forall j :: 0 <= j < i + 1 ==> clips[j].id != id by {
          forall j | 0 <= j < i + 1 ensures clips[j].id != id {
            if j > 0 { assert clips[j] == clips[1..][j - 1]; }
          }
        }
        r
      else
        assert forall c :: c in clips ==> c == clips[0] || c in clips[1..];
        r
  }

  /** The update `updateClip` is taken to make: every clip with that id gets
      the fields; ids, order and the other clips are kept. */
  function UpdateClips(clips: seq<TimelineClip>, id: string, f: ClipFields): (r: seq<TimelineClip>)
    ensures |r| == |clips|
    ensures forall i :: 0 <= i < |clips| ==> r[i].id == clips[i].id
    ensures forall i :: 0 <= i < |clips| && clips[i].id != id ==> r[i] == clips[i]
    ensures forall i :: 0 <= i < |clips| && clips[i].id == id ==>
      r[i].startTime == f.startTime && r[i].endTime == f.endTime && r[i].duration == f.duration
  {
    if clips == [] then []
    else
      var head := if clips[0].id == id then TimelineClip(id, f.startTime, f.endTime, f.duration) else clips[0];
      [head] + UpdateClips(clips[1..], id, f)
  }

  /** `!video.selectedClip`: no selection, or the empty id, counts as none. */
  predicate HasSelection(selected: Option<string>) {
    selected.Some? && selected.value != ""
  }

  /** handleDrag's decision: a new range for the clip only while dragging,
      with some clip selected (not necessarily this one), when the clip is
      found and the moved range is not empty. */
  function DragStep(isDragging: bool, selected: Option<string>, clips: seq<TimelineClip>,
                    clipId: string, timeDelta: real, duration: real): (r: Option<Range>)
    ensures r.Some? ==> isDragging && HasSelection(selected) && FindClip(clips, clipId).Some?
    ensures r.Some? ==> 0.0 <= r.value.start < r.value.end <= duration
    ensures isDragging && HasSelection(selected) && FindClip(clips, clipId).Some? ==>
      var c := FindClip(clips, clipId).value;
      r == DragRange(c.startTime, c.endTime, timeDelta, duration)
  {
    if !isDragging || !HasSelection(selected) then None
    else match FindClip(clips, clipId)
      case None => None
      case Some(c) => DragRange(c.startTime, c.endTime, timeDelta, duration)
  }

  /** The clip list and selection the timeline reads and updates. */
  class ClipList {
    var clips: seq<TimelineClip>
    var selectedClip: Option<string>

    constructor ()
      ensures clips == [] && selectedClip == None
    {
      clips := [];
      selectedClip := None;
    }

    /** addClip, with the new clip's id supplied by the caller. */
    method AddClip(id: string, f: ClipFields)
      modifies this`clips
      ensures clips == old(clips) + [TimelineClip(id, f.startTime, f.endTime, f.duration)]
    {
      clips := clips + [TimelineClip(id, f.startTime, f.endTime, f.duration)];
    }

    method UpdateClip(id: string, f: ClipFields)
      modifies this`clips
      ensures clips == UpdateClips(old(clips), id, f)
    {
      clips := UpdateClips(clips, id, f);
    }

    method SelectClip(id: string)
      modifies this`selectedClip
      ensures selectedClip == Some(id)
    {
      selectedClip := Some(id);
    }
  }

  /** The timeline's own drag state (whether a drag is on and the pointer
      position it is measured from), the clip list, and the store whose
      video duration bounds the clips. */
  class TimelineView {
    const store: Store
    const list: ClipList
    var isDragging: bool
    var dragStart: real

    constructor (store: Store, list: ClipList)
      ensures this.store == store && this.list == list && !isDragging && dragStart == 0.0
    {
      this.store := store;
      this.list := list;
      isDragging := false;
      dragStart := 0.0;
    }

    /** handleAddClip: appends a clip over the whole video once its duration
        is known; `id` is the id the clip list gives it. */
    method HandleAddClip(id: string)
      modifies list`clips
      ensures FullRange(store.video.duration).None? ==> list.clips == old(list.clips)
      ensures FullRange(store.video.duration).Some? ==>
        list.clips == old(list.clips) + [TimelineClip(id, 0.0, store.video.duration, store.video.duration)]
    {
      var f := FullRange(store.video.duration);
      if f.Some? {
        list.AddClip(id, f.value);
      }
    }

    /** handleClipUpdate: the clip gets the range and its length. */
    method HandleClipUpdate(id: string, startTime: real, endTime: real)
      modifies list`clips
      ensures list.clips == UpdateClips(old(list.clips), id, RangeFields(startTime, endTime))
    {
      list.UpdateClip(id, RangeFields(startTime, endTime));
    }

    /** handleDragStart: a drag begins at the pointer and selects the clip. */
    method HandleDragStart(pointerX: real, clipId: string)
      modifies this`isDragging, this`dragStart, list`selectedClip
      ensures isDragging && dragStart == pointerX && list.selectedClip == Some(clipId)
    {
      isDragging := true;
      dragStart := pointerX;
      list.SelectClip(clipId);
    }

    /** handleDrag with the pointer at `pointerX`, which is `timeDelta` seconds
        from the drag's anchor: when DragStep gives a range the clip moves to
        it and the anchor moves to the pointer; otherwise nothing changes. */
    method HandleDrag(pointerX: real, clipId: string, timeDelta: real)
      modifies this`dragStart, list`clips
      ensures var r := DragStep(isDragging, list.selectedClip, old(list.clips), clipId, timeDelta, store.video.duration);
        && (r.None? ==> list.clips == old(list.clips) && dragStart == old(dragStart))
        && (r.Some? ==>
              list.clips == UpdateClips(old(list.clips), clipId, RangeFields(r.value.start, r.value.end))
              && dragStart == pointerX)
    {
      if !isDragging || !HasSelection(list.selectedClip) {
        return;
      }
      var clip := FindClip(list.clips, clipId);
      if clip.None? {
        return;
      }
      var r := DragRange(clip.value.startTime, clip.value.endTime, timeDelta, store.video.duration);
      if r.Some? {
        HandleClipUpdate(clipId, r.value.start, r.value.end);
        dragStart := pointerX;
      }
    }

    /** handleDragEnd: only the drag flag is cleared. */
    method HandleDragEnd()
      modifies this`isDragging
      ensures !isDragging
    {
      isDragging := false;
    }
  }
}
