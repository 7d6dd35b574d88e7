/**
 * `MovieClipInstance`: the animator's driver for a movie clip.  A frame
 * label `L` names an animation whose window runs from the frame of `L` to
 * the frame of `L_stop` (play once) or `L_loop` (play looping); the
 * wildcard `"*"` plays the whole timeline.  Times are frames divided by
 * the clip's frame rate (seconds; `getDuration` reports milliseconds), and
 * the instance drives the clip's `elapsedTime` cursor from them.
 *
 * In the source, the static probes are attached to an undefined
 * `GenericMovieClipInstance`, read the labels of an undefined `instance`
 * under an undefined `label`, and `beginAnim` tests an undefined `anim`;
 * the evident `MovieClipInstance`, `clip` (`this.clip`), `event` and
 * `label` are modelled.
 */
module ClipInstance {
  import opened JsValues

  /** `Animator.STOP_LABEL` and `Animator.LOOP_LABEL`. */
  const StopLabel := "_stop"
  const LoopLabel := "_loop"

  /** The frame rate used when neither the clip nor the application sets one. */
  const DefaultFps: real := 15.0

  /**
   * The movie clip surface the instance drives.  A frame rate of `0.0`
   * stands for a falsy (unset) `framerate`.  The calls `play()`,
   * `gotoAndStop(frame)` and `advance()` are recorded: `playing`,
   * `stoppedAt`, and `shownTime`, the cursor position the display was last
   * brought up to (`advance()` without a time step only re-reads
   * `elapsedTime`).
   */
  class Clip {
    const labelsMap: map<string, int>
    const totalFrames: int
    var framerate: real
    var selfAdvance: bool
    var elapsedTime: real
    var playing: bool
    var stoppedAt: int
    var shownTime: real

    constructor (labelsMap: map<string, int>, totalFrames: int, framerate: real)
      ensures this.labelsMap == labelsMap && this.totalFrames == totalFrames && this.framerate == framerate
      ensures selfAdvance && !playing && elapsedTime == 0.0 && shownTime == 0.0
    {
      this.labelsMap := labelsMap;
      this.totalFrames := totalFrames;
      this.framerate := framerate;
      selfAdvance := true;
      elapsedTime := 0.0;
      playing := false;
      stoppedAt := 0;
      shownTime := 0.0;
    }

    method Play()
      modifies this`playing
      ensures playing
    {
      playing := true;
    }

    method GotoAndStop(frame: int)
      modifies this`playing, this`stoppedAt
      ensures !playing && stoppedAt == frame
    {
      playing := false;
      stoppedAt := frame;
    }

    method Advance()
      modifies this`shownTime
      ensures shownTime == elapsedTime
    {
      shownTime := elapsedTime;
    }
  }

  /** `labelsMap[name]`: the frame of a name, or `undefined`. */
  function Frame(clip: Clip, name: string): Option<int>
  {
    if name in clip.labelsMap then Some(clip.labelsMap[name]) else None
  }

  /** `event == "*" && !labelsMap[event]`: the wildcard, unless `"*"` is a name at a non-zero frame. */
  predicate IsWildcard(clip: Clip, event: string)
  {
    event == "*" && !("*" in clip.labelsMap && clip.labelsMap["*"] != 0)
  }

  /** A `"*"` name at frame 0 is falsy, so `"*"` still means the whole timeline. */
  lemma ZeroStarLabelIsWildcard(clip: Clip)
    requires "*" in clip.labelsMap && clip.labelsMap["*"] == 0
    ensures IsWildcard(clip, "*")
  {
  }

  /** `Application.instance.options.fps || 15`, with `0.0` for an unset application rate. */
  function FallbackFps(appFps: real): (fps: real)
    ensures fps != 0.0
    ensures appFps != 0.0 ==> fps == appFps
    ensures appFps == 0.0 ==> fps == DefaultFps
  {
    if appFps != 0.0 then appFps else DefaultFps
  }

  // ---------------------------------------------------------------------
  // The probes: hasAnimation and getDuration, as written
  // ---------------------------------------------------------------------

  /**
   * The stop frame the probes use: the `_stop` label, and only when that
   * label is at frame exactly -1, the `_loop` label instead.
   */
  function ProbeStopFrame(clip: Clip, event: string): Option<int>
  {
    var stop := Frame(clip, event + StopLabel);
    if stop == Some(-1) then Frame(clip, event + LoopLabel) else stop
  }

  /** `startFrame >= 0 && stopFrame > 0`; `undefined` compares false. */
  predicate ProbeFramesValid(clip: Clip, event: string)
  {
    var start, stop := Frame(clip, event), ProbeStopFrame(clip, event);
    start.Some? && start.value >= 0 && stop.Some? && stop.value > 0
  }

  /** `hasAnimation(clip, event)` as written. */
  predicate HasAnimation(clip: Clip, event: string)
  {
    IsWildcard(clip, event) || ProbeFramesValid(clip, event)
  }

  /**
   * What `hasAnimation` accepts for a label that is not the wildcard: its
   * frame is at least 0, and its `_stop` frame is positive, or the `_stop`
   * label sits at -1 and the `_loop` frame is positive.  A label with only
   * a `_loop` counterpart is rejected.
   */
  lemma HasAnimationMeaning(clip: Clip, event: string)
    requires !IsWildcard(clip, event)
    ensures HasAnimation(clip, event) <==>
              && event in clip.labelsMap && clip.labelsMap[event] >= 0
              && event + StopLabel in clip.labelsMap
              && (|| clip.labelsMap[event + StopLabel] > 0
                  || (clip.labelsMap[event + StopLabel] == -1
                      && event + LoopLabel in clip.labelsMap && clip.labelsMap[event + LoopLabel] > 0))
  {
  }

  /**
   * `getDuration(clip, event)` once the frame rate is set: the whole
   * timeline for the wildcard, the probed window otherwise, and 0 for an
   * animation the probe rejects; in milliseconds.
   */
  function DurationMs(clip: Clip, event: string, fps: real): real
    requires fps != 0.0
  {
    if IsWildcard(clip, event) then clip.totalFrames as real / fps * 1000.0
    else if ProbeFramesValid(clip, event) then
      (ProbeStopFrame(clip, event).value - clip.labelsMap[event]) as real / fps * 1000.0
    else 0.0
  }

  /** The duration is 0 for every animation `hasAnimation` rejects. */
  lemma NoAnimationNoDuration(clip: Clip, event: string, fps: real)
    requires fps != 0.0 && !HasAnimation(clip, event)
    ensures DurationMs(clip, event, fps) == 0.0
  {
  }

  /**
   * `getDuration`: first gives an unset clip frame rate the application's
   * (or 15), then measures.
   */
  method GetDuration(clip: Clip, event: string, appFps: real) returns (ms: real)
    modifies clip
    ensures clip.framerate == if old(clip.framerate) == 0.0 then FallbackFps(appFps) else old(clip.framerate)
    ensures clip.framerate != 0.0 && ms == DurationMs(clip, event, clip.framerate)
    ensures clip.selfAdvance == old(clip.selfAdvance) && clip.elapsedTime == old(clip.elapsedTime)
    ensures clip.playing == old(clip.playing) && clip.stoppedAt == old(clip.stoppedAt) && clip.shownTime == old(clip.shownTime)
  {
    if clip.framerate == 0.0 {
      clip.framerate := FallbackFps(appFps);
    }
    ms := DurationMs(clip, event, clip.framerate);
  }

  // ---------------------------------------------------------------------
  // The window beginAnim plays
  // ---------------------------------------------------------------------

  /** The frames of an animation and whether it loops. */
  datatype Window = Window(first: int, last: int, loop: bool)

  /**
   * `beginAnim` has a defined window: the wildcard, or a label with a
   * frame whose `_stop` or `_loop` counterpart exists.
   */
  predicate Resolvable(clip: Clip, name: string)
  {
    || IsWildcard(clip, name)
    || (name in clip.labelsMap && (name + StopLabel in clip.labelsMap || name + LoopLabel in clip.labelsMap))
  }

  /** The window of `beginAnim`; a missing `_stop` name falls back to `_loop` and forces looping. */
  function ResolveWindow(clip: Clip, name: string, loopFlag: bool): Window
    requires Resolvable(clip, name)
  {
    if IsWildcard(clip, name) then Window(0, clip.totalFrames - 1, loopFlag)
    else if name + StopLabel in clip.labelsMap then Window(clip.labelsMap[name], clip.labelsMap[name + StopLabel], false)
    else Window(clip.labelsMap[name], clip.labelsMap[name + LoopLabel], true)
  }

  /**
   * The window of a named animation: it starts at the label, ends at its
   * `_stop` frame when there is one and then plays once, and otherwise ends
   * at its `_loop` frame and loops; the caller's `loop` flag plays no part.
   */
  lemma NamedWindow(clip: Clip, name: string, loopFlag: bool)
    requires Resolvable(clip, name) && !IsWildcard(clip, name)
    ensures var w := ResolveWindow(clip, name, loopFlag);
            && w == ResolveWindow(clip, name, !loopFlag)
            && w.first == clip.labelsMap[name]
            && (w.loop <==> name + StopLabel !in clip.labelsMap)
            && w.last == clip.labelsMap[name + (if w.loop then LoopLabel else StopLabel)]
  {
  }

  /** The wildcard window is the whole timeline, looping exactly when asked to. */
  lemma WildcardWindow(clip: Clip, loopFlag: bool)
    requires IsWildcard(clip, "*")
    ensures var w := ResolveWindow(clip, "*", loopFlag);
            w.first == 0 && w.last == clip.totalFrames - 1 && w.last - w.first == clip.totalFrames - 1
            && w.loop == loopFlag
  {
  }

  /**
   * `getDuration` of the wildcard covers one frame more than the window
   * `beginAnim` plays for it.
   */
  lemma WildcardDurationOneFrameLonger(clip: Clip, fps: real, loopFlag: bool)
    requires fps != 0.0 && IsWildcard(clip, "*")
    ensures var w := ResolveWindow(clip, "*", loopFlag);
            DurationMs(clip, "*", fps) == ((w.last - w.first) as real / fps + 1.0 / fps) * 1000.0
  {
    var w := ResolveWindow(clip, "*", loopFlag);
    assert clip.totalFrames as real == (w.last - w.first) as real + 1.0;
    assert clip.totalFrames as real / fps == (w.last - w.first) as real / fps + 1.0 / fps;
  }

  /**
   * For a label with a positive `_stop` frame, `getDuration` measures the
   * window `beginAnim` plays.
   */
  lemma DurationMeasuresStopWindow(clip: Clip, name: string, fps: real, loopFlag: bool)
    requires fps != 0.0 && !IsWildcard(clip, name)
    requires name in clip.labelsMap && clip.labelsMap[name] >= 0
    requires name + StopLabel in clip.labelsMap && clip.labelsMap[name + StopLabel] > 0
    ensures Resolvable(clip, name)
    ensures var w := ResolveWindow(clip, name, loopFlag);
            DurationMs(clip, name, fps) == (w.last - w.first) as real / fps * 1000.0
  {
  }

  // ---------------------------------------------------------------------
  // The instance
  // ---------------------------------------------------------------------

  /** The parameters of an animation: its name, `start` (absent as `None`) and the truthiness of `loop`. */
  datatype AnimObj = AnimObj(anim: string, start: Option<real>, loop: bool)

  /** `animObj.start || 0`. */
  function StartOffset(start: Option<real>): real
  {
    if start.Some? then start.value else 0.0
  }

  /**
   * The position a fresh (not repeated) animation starts at: its start
   * offset, or for a negative offset `Math.random() * duration`, with the
   * random draw in [0, 1).
   */
  function StartPosition(offset: real, random: real, duration: real): (p: real)
    requires 0.0 <= random < 1.0
    ensures offset >= 0.0 ==> p == offset
    ensures offset < 0.0 && duration > 0.0 ==> 0.0 <= p < duration
    ensures offset < 0.0 && duration == 0.0 ==> p == 0.0
    ensures offset < 0.0 && duration < 0.0 ==> duration < p <= 0.0
  {
    if offset < 0.0 then RandomScaled(random, duration) else offset
  }

  /** A draw in [0, 1) scaled by `d`: between 0 and `d`, reaching 0 but not `d`. */
  function RandomScaled(random: real, d: real): (p: real)
    requires 0.0 <= random < 1.0
    ensures p == random * d
    ensures d > 0.0 ==> 0.0 <= p < d
    ensures d == 0.0 ==> p == 0.0
    ensures d < 0.0 ==> d < p <= 0.0
  {
    if d > 0.0 then
      var p := random * d;
      assert p < 1.0 * d;
      p
    else if d < 0.0 then
      var p := random * d;
      assert 1.0 * d < p;
      assert d < p;
      p
    else
      random * d
  }

  class MovieClipInstance {
    var clip: Clip?
    var startTime: real
    var length: int
    var firstFrame: int
    var lastFrame: int
    var isLooping: bool
    /** `null` is `None`. */
    var currentName: Option<string>
    var position: real
    var duration: real

    /** A new instance: no animation yet, so first and last frame are -1. */
    constructor ()
      ensures startTime == 0.0 && length == 0 && firstFrame == -1 && lastFrame == -1
      ensures clip == null
    {
      clip := null;
      startTime := 0.0;
      length := 0;
      firstFrame := -1;
      lastFrame := -1;
    }

    /**
     * `init(clip)`: sets an unset clip frame rate to the application's (or
     * 15), turns the clip's self-advance off, and resets the instance.
     */
    method Init(clip: Clip, appFps: real)
      modifies this, clip
      ensures this.clip == clip
      ensures clip.framerate == if old(clip.framerate) == 0.0 then FallbackFps(appFps) else old(clip.framerate)
      ensures clip.framerate != 0.0 && !clip.selfAdvance
      ensures !isLooping && currentName == None && position == 0.0 && duration == 0.0
      ensures startTime == old(startTime) && length == old(length)
      ensures firstFrame == old(firstFrame) && lastFrame == old(lastFrame)
      ensures clip.elapsedTime == old(clip.elapsedTime) && clip.playing == old(clip.playing)
      ensures clip.stoppedAt == old(clip.stoppedAt) && clip.shownTime == old(clip.shownTime)
    {
      if clip.framerate == 0.0 {
        clip.framerate := FallbackFps(appFps);
      }
      clip.selfAdvance := false;
      this.clip := clip;
      isLooping := false;
      currentName := None;
      position := 0.0;
      duration := 0.0;
    }

    /**
     * `beginAnim(animObj, isRepeat)`: resolves the window, derives the
     * times from the clip's frame rate, picks the position, and starts the
     * clip at `startTime + position`.  `random` is the `Math.random()`
     * draw.  The window must be defined (see `Resolvable`): otherwise the
     * source computes with `undefined` frames.
     */
    method BeginAnim(animObj: AnimObj, isRepeat: bool, random: real)
      requires clip != null && clip.framerate != 0.0 && Resolvable(clip, animObj.anim)
      requires 0.0 <= random < 1.0
      modifies this`currentName, this`firstFrame, this`lastFrame, this`length, this`isLooping
      modifies this`startTime, this`duration, this`position, clip`playing, clip`elapsedTime, clip`shownTime
      ensures currentName == Some(animObj.anim)
      ensures var w := ResolveWindow(clip, animObj.anim, animObj.loop);
              firstFrame == w.first && lastFrame == w.last && isLooping == w.loop
      ensures length == lastFrame - firstFrame
      ensures startTime == firstFrame as real / clip.framerate && duration == length as real / clip.framerate
      ensures isRepeat ==> position == 0.0
      ensures !isRepeat ==> position == StartPosition(StartOffset(animObj.start), random, duration)
      ensures clip.playing && clip.elapsedTime == startTime + position && clip.shownTime == clip.elapsedTime
    {
      var name := animObj.anim;
      currentName := Some(name);
      var w := ResolveWindow(clip, name, animObj.loop);
      SetWindow(w, clip.framerate);
      if isRepeat {
        position := 0.0;
      } else {
        position := StartPosition(StartOffset(animObj.start), random, duration);
      }
      clip.Play();
      clip.elapsedTime := startTime + position;
      clip.Advance();
    }

    /** Takes on window `w` and derives its times at `fps` frames per second. */
    method SetWindow(w: Window, fps: real)
      requires fps != 0.0
      modifies this`firstFrame, this`lastFrame, this`length, this`isLooping, this`startTime, this`duration
      ensures firstFrame == w.first && lastFrame == w.last && isLooping == w.loop
      ensures length == lastFrame - firstFrame
      ensures startTime == firstFrame as real / fps && duration == length as real / fps
    {
      firstFrame := w.first;
      lastFrame := w.last;
      length := w.last - w.first;
      isLooping := w.loop;
      startTime := firstFrame as real / fps;
      duration := length as real / fps;
    }

    /** `endAnim()`: sends the clip to the last frame of the window and stops it. */
    method EndAnim()
      requires clip != null
      modifies clip
      ensures !clip.playing && clip.stoppedAt == lastFrame
      ensures clip.framerate == old(clip.framerate) && clip.selfAdvance == old(clip.selfAdvance)
      ensures clip.elapsedTime == old(clip.elapsedTime) && clip.shownTime == old(clip.shownTime)
    {
      clip.GotoAndStop(lastFrame);
    }

    /**
     * `setPosition(newPos)`: moves the position and the clip's cursor and
     * brings the display up to it.  The new state depends on `newPos` only,
     * so setting the same position twice is the same as setting it once.
     */
    method SetPosition(newPos: real)
      requires clip != null
      modifies this, clip
      ensures clip == old(clip) && position == newPos
      ensures clip.elapsedTime == startTime + newPos && clip.shownTime == clip.elapsedTime
      ensures startTime == old(startTime) && duration == old(duration) && length == old(length)
      ensures firstFrame == old(firstFrame) && lastFrame == old(lastFrame)
      ensures isLooping == old(isLooping) && currentName == old(currentName)
      ensures clip.framerate == old(clip.framerate) && clip.selfAdvance == old(clip.selfAdvance)
      ensures clip.playing == old(clip.playing) && clip.stoppedAt == old(clip.stoppedAt)
    {
      position := newPos;
      clip.elapsedTime := startTime + newPos;
      clip.Advance();
    }
  }

  // ---------------------------------------------------------------------
  // The `=== -1` fallback of the probes
  // ---------------------------------------------------------------------

  /**
   * The probes as `beginAnim` resolves labels: the `_loop` label is used
   * when the `_stop` label is missing.
   */
  predicate HasAnimationIntended(clip: Clip, event: string)
  {
    || IsWildcard(clip, event)
    || (&& Resolvable(clip, event)
        && var w := ResolveWindow(clip, event, false);
           w.first >= 0 && w.last > 0)
  }

  function DurationMsIntended(clip: Clip, event: string, fps: real): real
    requires fps != 0.0
  {
    if IsWildcard(clip, event) then clip.totalFrames as real / fps * 1000.0
    else if HasAnimationIntended(clip, event) then
      var w := ResolveWindow(clip, event, false);
      (w.last - w.first) as real / fps * 1000.0
    else 0.0
  }

  /**
   * The corrected probes agree with `beginAnim`: an accepted animation has
   * a window `beginAnim` can play, starting at a frame of at least 0, and
   * its duration measures that window (the wildcard's one frame more).
   */
  lemma IntendedProbesMatchBeginAnim(clip: Clip, event: string, fps: real, loopFlag: bool)
    requires fps != 0.0 && HasAnimationIntended(clip, event) && !IsWildcard(clip, event)
    ensures Resolvable(clip, event)
    ensures var w := ResolveWindow(clip, event, loopFlag);
            && w.first >= 0 && w.last > 0
            && DurationMsIntended(clip, event, fps) == (w.last - w.first) as real / fps * 1000.0
  {
    NamedWindow(clip, event, loopFlag);
  }

  /** The two versions differ only for labels without a `_stop` frame other than -1. */
  lemma ProbesAgreeWithStopLabel(clip: Clip, event: string, fps: real)
    requires fps != 0.0
    requires event + StopLabel in clip.labelsMap && clip.labelsMap[event + StopLabel] != -1
    ensures HasAnimation(clip, event) <==> HasAnimationIntended(clip, event)
    ensures DurationMs(clip, event, fps) == DurationMsIntended(clip, event, fps)
  {
  }

  /**
   * A looping animation with no `_stop` label: `beginAnim` plays frames
   * 0 to 30 on a loop, yet `hasAnimation` denies the animation exists and
   * `getDuration` reports 0 ms.
   */
  lemma LoopOnlyLabelIsMissed(clip: Clip)
    requires clip.labelsMap == map["idle" := 0, "idle_loop" := 30]
    ensures Resolvable(clip, "idle")
    ensures ResolveWindow(clip, "idle", false) == Window(0, 30, true)
    ensures !HasAnimation(clip, "idle") && HasAnimationIntended(clip, "idle")
    ensures DurationMs(clip, "idle", 15.0) == 0.0 && DurationMsIntended(clip, "idle", 15.0) == 2000.0
  {
    assert "idle" + StopLabel == "idle_stop";
    assert "idle" + LoopLabel == "idle_loop";
    assert "idle_stop" !in clip.labelsMap;
  }
}
