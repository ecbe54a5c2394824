/** The player (src/components/VideoPlayer.tsx): how it keeps the `<video>`
    element's position inside the selected clip range and mirrors it into
    the store. */
module Player {
  import opened EditorStore
  import opened Numbers

  /** handleSeek's target, `max(clipStart, min(time, clipEnd))`: the time
      itself when it lies in the range, otherwise the nearer edge; on an
      inverted range (start after end) the start wins. */
  function SeekTarget(time: real, clipStart: real, clipEnd: real): (r: real)
    ensures r >= clipStart
    ensures clipStart <= clipEnd ==> r <= clipEnd
    ensures clipStart <= time <= clipEnd ==> r == time
    ensures r == clipStart || r == time || r == clipEnd
    ensures clipEnd < clipStart ==> r == clipStart
    ensures time < clipStart ==> r == clipStart
    ensures clipStart <= clipEnd < time ==> r == clipEnd
  {
    Max(clipStart, Min(time, clipEnd))
  }

  /** The boundary check's verdict on an element reading: it ran past the end
      (so playback stops). The start test is made first. */
  predicate PastEnd(reading: real, clipStart: real, clipEnd: real) {
    !(reading < clipStart) && reading > clipEnd
  }

  /** Where the boundary check leaves the element: before the start it snaps
      to the start, past the end to the end, otherwise it stays. On a proper
      range this is the seek clamp. */
  function Snap(reading: real, clipStart: real, clipEnd: real): (r: real)
    ensures r == reading || r == clipStart || r == clipEnd
    ensures clipStart <= clipEnd ==> r == SeekTarget(reading, clipStart, clipEnd)
    ensures PastEnd(reading, clipStart, clipEnd) ==> r == clipEnd
    ensures reading < clipStart ==> r == clipStart
  {
    if reading < clipStart then clipStart
    else if reading > clipEnd then clipEnd
    else reading
  }

  /** The setters let the range invert; then the boundary check and the seek
      clamp disagree: a reading past both edges snaps to the end while a seek
      to it goes to the start. */
  lemma SnapDiffersFromSeekOnInvertedRange()
    ensures Snap(6.0, 5.0, 3.0) == 3.0 && SeekTarget(6.0, 5.0, 3.0) == 5.0
  {
  }

  /** The step-back button's target: five seconds back, not before the start. */
  function StepBackTarget(currentTime: real, clipStart: real): (r: real)
    ensures r >= clipStart && r >= currentTime - 5.0
    ensures r == clipStart || r == currentTime - 5.0
  {
    Max(clipStart, currentTime - 5.0)
  }

  /** The step-forward button's target: five seconds on, not past the end. */
  function StepForwardTarget(currentTime: real, clipEnd: real): (r: real)
    ensures r <= clipEnd && r <= currentTime + 5.0
    ensures r == clipEnd || r == currentTime + 5.0
  {
    Min(clipEnd, currentTime + 5.0)
  }

  /** The step buttons' own bound is subsumed by the seek clamp: stepping
      back lands where seeking to five seconds earlier does, stepping
      forward where seeking to five seconds later does. */
  lemma StepsAreSeeks(t: real, clipStart: real, clipEnd: real)
    ensures SeekTarget(StepBackTarget(t, clipStart), clipStart, clipEnd) == SeekTarget(t - 5.0, clipStart, clipEnd)
    ensures SeekTarget(StepForwardTarget(t, clipEnd), clipStart, clipEnd) == SeekTarget(t + 5.0, clipStart, clipEnd)
  {
  }

  /** The player: the element's position and paused flag, and the store it
      mirrors. The element exists whenever a handler runs. */
  class PlayerView {
    const store: Store
    var currentTime: real
    var paused: bool

    constructor (store: Store)
      ensures this.store == store && currentTime == 0.0 && paused
    {
      this.store := store;
      currentTime := 0.0;
      paused := true;
    }

    /** handleSeek: without a file nothing happens; otherwise the element and
        the store both get the clamped time. */
    method HandleSeek(time: real)
      modifies this`currentTime, store`video
      ensures old(store.video.file).None? ==>
        currentTime == old(currentTime) && store.video == old(store.video)
      ensures old(store.video.file).Some? ==>
        currentTime == SeekTarget(time, old(store.video.clipStart), old(store.video.clipEnd))
        && store.video == old(store.video).(currentTime := currentTime)
    {
      if store.video.file.None? {
        return;
      }
      var newTime := SeekTarget(time, store.video.clipStart, store.video.clipEnd);
      currentTime := newTime;
      store.SetCurrentTime(newTime);
    }

    /** handleTimeUpdate: snaps the element to the range, stops playback past
        the end, and stores the reading taken before snapping. */
    method HandleTimeUpdate()
      modifies this`currentTime, store`video
      ensures currentTime == Snap(old(currentTime), old(store.video.clipStart), old(store.video.clipEnd))
      ensures store.video == old(store.video).(
        currentTime := old(currentTime),
        isPlaying := if PastEnd(old(currentTime), old(store.video.clipStart), old(store.video.clipEnd))
                     then false else old(store.video.isPlaying))
    {
      var reading := currentTime;
      if reading < store.video.clipStart {
        currentTime := store.video.clipStart;
      } else if reading > store.video.clipEnd {
        currentTime := store.video.clipEnd;
        store.SetIsPlaying(false);
      }
      store.SetCurrentTime(reading);
    }

    /** The effect run when the stored time or range changes: the same
        boundary check, but it stores the element's time after snapping. */
    method ClampEffect()
      modifies this`currentTime, store`video
      ensures currentTime == Snap(old(currentTime), old(store.video.clipStart), old(store.video.clipEnd))
      ensures store.video == old(store.video).(
        currentTime := currentTime,
        isPlaying := if PastEnd(old(currentTime), old(store.video.clipStart), old(store.video.clipEnd))
                     then false else old(store.video.isPlaying))
    {
      if currentTime < store.video.clipStart {
        currentTime := store.video.clipStart;
      } else if currentTime > store.video.clipEnd {
        currentTime := store.video.clipEnd;
        store.SetIsPlaying(false);
      }
      store.SetCurrentTime(currentTime);
    }

    /** The effect run when isPlaying changes: it plays or pauses the element;
        a rejected play clears isPlaying. */
    method PlaybackEffect(playRejects: bool)
      modifies this`paused, store`video
      ensures old(store.video.isPlaying) && !playRejects ==>
        !paused && store.video == old(store.video)
      ensures old(store.video.isPlaying) && playRejects ==>
        paused == old(paused) && store.video == old(store.video).(isPlaying := false)
      ensures !old(store.video.isPlaying) ==> paused && store.video == old(store.video)
    {
      if store.video.isPlaying {
        if playRejects {
          store.SetIsPlaying(false);
        } else {
          paused := false;
        }
      } else {
        paused := true;
      }
    }

    /** handlePlayPause: without a file nothing happens. Playing, it pauses.
        Stopped, it first rewinds to the start when at or past the end, then
        plays. isPlaying flips when that succeeds; a rejected play leaves it
        false. */
    method HandlePlayPause(playRejects: bool)
      modifies this`currentTime, this`paused, store`video
      ensures old(store.video.file).None? ==>
        currentTime == old(currentTime) && paused == old(paused) && store.video == old(store.video)
      ensures old(store.video.file).Some? && old(store.video.isPlaying) ==>
        paused && currentTime == old(currentTime) && store.video == old(store.video).(isPlaying := false)
      ensures old(store.video.file).Some? && !old(store.video.isPlaying) ==>
        currentTime == (if old(currentTime) >= old(store.video.clipEnd)
                        then old(store.video.clipStart) else old(currentTime))
        && paused == (if playRejects then old(paused) else false)
        && store.video == old(store.video).(isPlaying := !playRejects)
    {
      if store.video.file.None? {
        return;
      }
      var wasPlaying := store.video.isPlaying;
      if wasPlaying {
        paused := true;
      } else {
        if currentTime >= store.video.clipEnd {
          currentTime := store.video.clipStart;
        }
        if playRejects {
          store.SetIsPlaying(false);
          return;
        }
        paused := false;
      }
      store.SetIsPlaying(!wasPlaying);
    }

    /** The go-to-start button. */
    method GoToStart()
      modifies this`currentTime, store`video
      ensures old(store.video.file).None? ==>
        currentTime == old(currentTime) && store.video == old(store.video)
      ensures old(store.video.file).Some? ==>
        currentTime == old(store.video.clipStart)
        && store.video == old(store.video).(currentTime := currentTime)
    {
      HandleSeek(store.video.clipStart);
    }

    /** The step-back button: seeks five seconds before the stored time. */
    method StepBack()
      modifies this`currentTime, store`video
      ensures old(store.video.file).None? ==>
        currentTime == old(currentTime) && store.video == old(store.video)
      ensures old(store.video.file).Some? ==>
        currentTime == SeekTarget(old(store.video.currentTime) - 5.0,
                                  old(store.video.clipStart), old(store.video.clipEnd))
        && store.video == old(store.video).(currentTime := currentTime)
    {
      StepsAreSeeks(store.video.currentTime, store.video.clipStart, store.video.clipEnd);
      HandleSeek(StepBackTarget(store.video.currentTime, store.video.clipStart));
    }

    /** The step-forward button: seeks five seconds after the stored time. */
    method StepForward()
      modifies this`currentTime, store`video
      ensures old(store.video.file).None? ==>
        currentTime == old(currentTime) && store.video == old(store.video)
      ensures old(store.video.file).Some? ==>
        currentTime == SeekTarget(old(store.video.currentTime) + 5.0,
                                  old(store.video.clipStart), old(store.video.clipEnd))
        && store.video == old(store.video).(currentTime := currentTime)
    {
      StepsAreSeeks(store.video.currentTime, store.video.clipStart, store.video.clipEnd);
      HandleSeek(StepForwardTarget(store.video.currentTime, store.video.clipEnd));
    }

    /** The go-to-end button. */
    method GoToEnd()
      modifies this`currentTime, store`video
      ensures old(store.video.file).None? ==>
        currentTime == old(currentTime) && store.video == old(store.video)
      ensures old(store.video.file).Some? ==>
        currentTime == SeekTarget(old(store.video.clipEnd), old(store.video.clipStart), old(store.video.clipEnd))
        && store.video == old(store.video).(currentTime := currentTime)
    {
      HandleSeek(store.video.clipEnd);
    }

    /** The element's ended event. */
    method OnEnded()
      modifies store`video
      ensures store.video == old(store.video).(isPlaying := false)
    {
      store.SetIsPlaying(false);
    }

    /** The element's error event. */
    method HandleError()
      modifies store`video
      ensures store.video == old(store.video).(isPlaying := false)
    {
      store.SetIsPlaying(false);
    }
  }
}
