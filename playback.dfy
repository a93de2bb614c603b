/**
  The skeleton playback component: a state machine over the playback states,
  a playback clock, discrete and interpolated frame selection, and the MIDI
  bookkeeping (event buffer drained by readers, held-notes set, events raised
  to note listeners). Engine time is passed in as `now`; held keys as a
  HeldKeys value; the orientation blend as a `slerp` function.
 */
module Playback {
  import opened HandData
  import opened PlaybackSpec

  class SkeletonPlayback {
    // the played sequence and its cached length and duration
    const frames: seq<HandFrame>
    const framesAmount: int
    const recordingLength: real
    // inspector settings
    const loop: bool
    const playMidi: bool
    const interpolationMode: InterpolationMode

    var currentFrame: int
    var playbackTime: real
    var startTime: real
    var lastUpdateTime: real
    var activeState: PlaybackState
    var lastState: PlaybackState
    var multiplier: real
    var lastMidiDataRead: real
    var isPlaybackActive: bool
    var notesDown: set<int>
    var midiEventBuffer: seq<NoteEvent>
    /** The events raised to note listeners so far, in order. */
    var noteUpdates: seq<NoteEvent>
    /** The frame written by interpolation; absent until playback first starts. */
    var interpolatedFrame: Option<HandFrame>

    ghost predicate Valid()
      reads this
    {
      && |frames| > 0
      && framesAmount == |frames|
      && recordingLength == frames[|frames| - 1].time
      && UniformBones(frames, |frames[0].boneTranslations|)
      && 0 <= currentFrame < |frames|
      && (isPlaybackActive ==> interpolatedFrame.Some?)
      && (interpolatedFrame.Some? ==>
            |interpolatedFrame.value.boneTranslations| == |frames[0].boneTranslations|)
    }

    /** The speed multiplier is the one of the current state. */
    predicate SpeedInSync()
      reads this
    {
      multiplier == SpeedOf(activeState)
    }

    /** The state right after StartPlayback at engine time `now`. */
    ghost predicate JustStarted(now: real)
      reads this
    {
      && isPlaybackActive
      && activeState == Playing && multiplier == 1.0
      && playbackTime == 0.0 && lastMidiDataRead == 0.0
      && currentFrame == 0 && notesDown == {}
      && |frames| > 0 && interpolatedFrame == Some(frames[0])
      && startTime == now && lastUpdateTime == now
    }

    /** The events a discrete scan emits for the frames lo .. hi-1: their MIDI when MIDI is played. */
    function Stepped(lo: int, hi: int): seq<NoteEvent>
      requires 0 <= lo <= hi <= |frames|
    {
      if playMidi then MidiOf(frames, lo, hi) else []
    }

    /** Component start-up: copies the imported sequence and clears the MIDI state. */
    constructor (importSequence: seq<HandFrame>, loop: bool, playMidi: bool, interpolationMode: InterpolationMode)
      requires |importSequence| > 0
      requires UniformBones(importSequence, |importSequence[0].boneTranslations|)
      ensures Valid()
      ensures frames == importSequence && this.loop == loop && this.playMidi == playMidi
      ensures this.interpolationMode == interpolationMode
      ensures !isPlaybackActive && activeState == Playing && lastState == Playing && multiplier == 0.0
      ensures currentFrame == 0 && playbackTime == 0.0 && lastMidiDataRead == 0.0
      ensures notesDown == {} && midiEventBuffer == [] && noteUpdates == [] && interpolatedFrame == None
    {
      frames := importSequence;
      framesAmount := |importSequence|;
      recordingLength := importSequence[|importSequence| - 1].time;
      this.loop := loop;
      this.playMidi := playMidi;
      this.interpolationMode := interpolationMode;
      currentFrame := 0;
      playbackTime := 0.0;
      startTime := 0.0;
      lastUpdateTime := 0.0;
      activeState := Playing;
      lastState := Playing;
      multiplier := 0.0;
      lastMidiDataRead := 0.0;
      isPlaybackActive := false;
      notesDown := {};
      midiEventBuffer := [];
      noteUpdates := [];
      interpolatedFrame := None;
    }

    /** The ActivePlaybackState setter: the speed follows only an actual change of state. */
    method SetActivePlaybackState(value: PlaybackState)
      modifies this`activeState, this`multiplier
      ensures activeState == value
      ensures old(activeState) != value ==> multiplier == SpeedOf(value)
      ensures old(activeState) == value ==> multiplier == old(multiplier)
      ensures old(SpeedInSync()) ==> SpeedInSync()
    {
      if activeState != value {
        activeState := value;
        OnPlaybackStateChanged(value);
      }
    }

    method OnPlaybackStateChanged(newState: PlaybackState)
      modifies this`multiplier
      ensures multiplier == SpeedOf(newState)
    {
      match newState
      case Playing => multiplier := 1.0;
      case Paused => multiplier := 0.0;
      case Rewind => multiplier := -1.0;
      case FastForward => multiplier := 2.0;
      case SlowMo => multiplier := 0.3;
    }

    method StartPlayback(now: real)
      requires Valid()
      modifies this`activeState, this`interpolatedFrame, this`playbackTime, this`lastUpdateTime,
               this`multiplier, this`lastMidiDataRead, this`notesDown, this`currentFrame,
               this`startTime, this`isPlaybackActive
      ensures Valid() && JustStarted(now) && SpeedInSync()
    {
      activeState := Playing;
      interpolatedFrame := Some(frames[0]);
      playbackTime := 0.0;
      lastUpdateTime := now;
      multiplier := 1.0;
      lastMidiDataRead := 0.0;
      notesDown := {};
      currentFrame := 0;
      startTime := now;
      isPlaybackActive := true;
    }

    method StopPlayback()
      requires Valid()
      modifies this`isPlaybackActive
      ensures Valid() && !isPlaybackActive
    {
      isPlaybackActive := false;
    }

    /** Handles input code inputList[0]: 0 play/stop, 1 fast forward, 2 rewind, 3 pause, 4 slow motion. */
    method KeyboardInput(inputList: seq<int>, now: real)
      requires Valid() && |inputList| > 0
      modifies this`activeState, this`interpolatedFrame, this`playbackTime, this`lastUpdateTime,
               this`multiplier, this`lastMidiDataRead, this`notesDown, this`currentFrame,
               this`startTime, this`isPlaybackActive, this`lastState
      ensures Valid()
      ensures old(SpeedInSync()) || (inputList[0] == 0 && !old(isPlaybackActive)) ==> SpeedInSync()
      ensures inputList[0] == 0 && !old(isPlaybackActive) ==> JustStarted(now) && lastState == old(lastState)
      ensures inputList[0] == 0 && old(isPlaybackActive) ==>
                !isPlaybackActive && activeState == old(activeState) && multiplier == old(multiplier)
                && playbackTime == old(playbackTime) && currentFrame == old(currentFrame)
                && lastState == old(lastState) && notesDown == old(notesDown)
                && interpolatedFrame == old(interpolatedFrame) && lastMidiDataRead == old(lastMidiDataRead)
                && startTime == old(startTime) && lastUpdateTime == old(lastUpdateTime)
      ensures 1 <= inputList[0] <= 4 ==>
                && lastState == old(activeState)
                && activeState == StateAfterInput(inputList[0], old(activeState))
                && (activeState != old(activeState) ==> multiplier == SpeedOf(activeState))
                && (activeState == old(activeState) ==> multiplier == old(multiplier))
                && isPlaybackActive == old(isPlaybackActive) && playbackTime == old(playbackTime)
                && currentFrame == old(currentFrame) && notesDown == old(notesDown)
                && interpolatedFrame == old(interpolatedFrame) && lastMidiDataRead == old(lastMidiDataRead)
                && startTime == old(startTime) && lastUpdateTime == old(lastUpdateTime)
      ensures !(0 <= inputList[0] <= 4) ==> unchanged(this)
    {
      var input := inputList[0];
      match input {
        case 0 =>
          if !isPlaybackActive {
            StartPlayback(now);
          } else {
            StopPlayback();
          }
        case 1 =>
          lastState := activeState;
          SetActivePlaybackState(FastForward);
        case 2 =>
          lastState := activeState;
          SetActivePlaybackState(Rewind);
        case 3 =>
          lastState := activeState;
          if activeState == Paused {
            SetActivePlaybackState(Playing);
          } else if activeState == Playing {
            SetActivePlaybackState(Paused);
          }
        case 4 =>
          lastState := activeState;
          SetActivePlaybackState(SlowMo);
        case _ =>
      }
    }

    /** The held-notes bookkeeping for one MIDI event, raising note-on and note-off to listeners. */
    method OnEventReceived(e: NoteEvent)
      modifies this`notesDown, this`noteUpdates
      ensures notesDown == ApplyEvent(old(notesDown), e)
      ensures noteUpdates == old(noteUpdates) + Raised([e])
    {
      assert Raised([e]) == Raised([]) + (if e.kind == OtherEvent then [] else [e]);
      if e.kind == NoteOn {
        notesDown := notesDown + {e.noteNumber};
        noteUpdates := noteUpdates + [e];
      }
      if e.kind == NoteOff {
        notesDown := notesDown - {e.noteNumber};
        noteUpdates := noteUpdates + [e];
      }
    }

    /** Passes each event, in order, to OnEventReceived. */
    method DispatchEvents(es: seq<NoteEvent>)
      modifies this`notesDown, this`noteUpdates
      ensures notesDown == ApplyEvents(old(notesDown), es)
      ensures noteUpdates == old(noteUpdates) + Raised(es)
    {
      for i := 0 to |es|
        invariant notesDown == ApplyEvents(old(notesDown), es[..i])
        invariant noteUpdates == old(noteUpdates) + Raised(es[..i])
      {
        assert es[..i + 1][..i] == es[..i];
        OnEventReceived(es[i]);
        RaisedAppend(es[..i], [es[i]]);
        assert es[..i] + [es[i]] == es[..i + 1];
      }
      assert es[..|es|] == es;
    }

    /** The MIDI events of the frames between the search results for the two times, both included. */
    method GetMidiFromRange(startTime: real, stopTime: real) returns (acc: seq<NoteEvent>)
      requires Valid()
      ensures acc == RangeMidi(frames, startTime, stopTime)
    {
      var start := BinarySearchSequence(frames, startTime, 0, framesAmount - 1);
      var stop := BinarySearchSequence(frames, stopTime, 0, framesAmount - 1);
      assert start == FrameAt(frames, startTime) && stop == FrameAt(frames, stopTime);
      acc := [];
      var i := start;
      while i <= stop
        invariant start <= stop ==> start <= i <= stop + 1 && acc == MidiOf(frames, start, i)
        invariant stop < start ==> i == start && acc == []
      {
        acc := acc + frames[i].midiData;
        i := i + 1;
      }
    }

    /** Collects the MIDI between the last drained time and the playback time (swapped in reverse). */
    method ReadMidi()
      requires Valid()
      modifies this`midiEventBuffer, this`notesDown, this`noteUpdates
      ensures activeState == Paused ==>
                midiEventBuffer == old(midiEventBuffer) && notesDown == old(notesDown)
                && noteUpdates == old(noteUpdates)
      ensures activeState != Paused && multiplier < 0.0 ==>
                EmittedFrom(midiEventBuffer, notesDown, noteUpdates,
                            old(midiEventBuffer), old(notesDown), old(noteUpdates),
                            RangeMidi(frames, playbackTime, lastMidiDataRead))
      ensures activeState != Paused && multiplier >= 0.0 ==>
                EmittedFrom(midiEventBuffer, notesDown, noteUpdates,
                            old(midiEventBuffer), old(notesDown), old(noteUpdates),
                            RangeMidi(frames, lastMidiDataRead, playbackTime))
    {
      var startTime := 0.0;
      var endTime := 0.0;
      if activeState == Paused {
        return;
      }
      if multiplier < 0.0 {
        startTime := playbackTime;
        endTime := lastMidiDataRead;
      } else {
        startTime := lastMidiDataRead;
        endTime := playbackTime;
      }
      var frameMidi := GetMidiFromRange(startTime, endTime);
      midiEventBuffer := midiEventBuffer + frameMidi;
      DispatchEvents(frameMidi);
    }

    /** Hands the buffered MIDI to a reader and empties the buffer; nothing while inactive. */
    method GetMidiData() returns (r: Option<seq<NoteEvent>>)
      modifies this`midiEventBuffer, this`lastMidiDataRead
      ensures !isPlaybackActive ==>
                r == None && midiEventBuffer == old(midiEventBuffer) && lastMidiDataRead == old(lastMidiDataRead)
      ensures isPlaybackActive ==>
                r == Some(old(midiEventBuffer)) && midiEventBuffer == [] && lastMidiDataRead == playbackTime
    {
      if !isPlaybackActive {
        return None;
      }
      var oldBuffer := midiEventBuffer;
      midiEventBuffer := [];
      lastMidiDataRead := playbackTime;
      return Some(oldBuffer);
    }

    /** The frame a consumer sees: none while inactive, else the current or the interpolated frame. */
    function GetHandFrameData(): (r: Option<HandFrame>)
      requires Valid()
      reads this
      ensures r.Some? <==> isPlaybackActive
      ensures isPlaybackActive && interpolationMode == NoInterpolation ==> r == Some(frames[currentFrame])
      ensures isPlaybackActive && interpolationMode != NoInterpolation ==> r == interpolatedFrame
      ensures r.Some? && interpolationMode == NoInterpolation ==> r.value in frames
    {
      if !isPlaybackActive then None
      else if interpolationMode == NoInterpolation then Some(frames[currentFrame])
      else interpolatedFrame
    }

    /** The MIDI of one frame reached by the discrete scan, when MIDI is played. */
    method EmitFrameMidi(frame: HandFrame)
      modifies this`midiEventBuffer, this`notesDown, this`noteUpdates
      ensures EmittedFrom(midiEventBuffer, notesDown, noteUpdates,
                          old(midiEventBuffer), old(notesDown), old(noteUpdates),
                          if playMidi then frame.midiData else [])
    {
      if playMidi {
        if |frame.midiData| != 0 {
          midiEventBuffer := midiEventBuffer + frame.midiData;
          DispatchEvents(frame.midiData);
        }
      }
    }

    /** The scanned events grow by one frame at a time. */
    lemma {:induction false} SteppedExtend(lo: int, hi: int)
      requires 0 <= lo <= hi < |frames|
      ensures Stepped(lo, hi + 1) == Stepped(lo, hi) + (if playMidi then frames[hi].midiData else [])
    {
    }

    /** Emitting frame k's MIDI extends an emission of frames lo .. k-1 to frames lo .. k. */
    method EmitScannedFrame(k: int, ghost lo: int, ghost scanned: seq<NoteEvent>, ghost b0: seq<NoteEvent>,
                            ghost n0: set<int>, ghost u0: seq<NoteEvent>)
      returns (ghost extended: seq<NoteEvent>)
      requires 0 <= lo <= k < |frames|
      requires scanned == Stepped(lo, k)
      requires EmittedFrom(midiEventBuffer, notesDown, noteUpdates, b0, n0, u0, scanned)
      modifies this`midiEventBuffer, this`notesDown, this`noteUpdates
      ensures extended == Stepped(lo, k + 1)
      ensures EmittedFrom(midiEventBuffer, notesDown, noteUpdates, b0, n0, u0, extended)
    {
      ghost var b1, n1, u1 := midiEventBuffer, notesDown, noteUpdates;
      EmitFrameMidi(frames[k]);
      ghost var step := if playMidi then frames[k].midiData else [];
      EmittedChain(b0, n0, u0, b1, n1, u1, midiEventBuffer, notesDown, noteUpdates, scanned, step);
      SteppedExtend(lo, k);
      extended := scanned + step;
    }

    /**
      The loop of the forward scan: walks from the current frame over the frames
      whose time is not past the playback time, emitting their MIDI, and stops at
      the first later frame or at the end of the sequence, `offset` frames ahead.
     */
    method ScanFrames() returns (offset: int, ghost scanned: seq<NoteEvent>)
      requires 0 <= currentFrame < |frames|
      modifies this`midiEventBuffer, this`notesDown, this`noteUpdates
      ensures 1 <= offset && currentFrame + offset <= |frames|
      ensures currentFrame + offset < |frames| ==> frames[currentFrame + offset].time > playbackTime
      ensures forall j :: currentFrame < j < currentFrame + offset ==> frames[j].time <= playbackTime
      ensures scanned == Stepped(currentFrame + 1, currentFrame + offset)
      ensures EmittedFrom(midiEventBuffer, notesDown, noteUpdates,
                          old(midiEventBuffer), old(notesDown), old(noteUpdates),
                          scanned)
    {
      var from, time := currentFrame, playbackTime;
      ghost var b0, n0, u0 := midiEventBuffer, notesDown, noteUpdates;
      scanned := [];
      offset := 1;
      while from + offset < |frames| && frames[from + offset].time <= time
        invariant 1 <= offset && from + offset <= |frames|
        invariant forall j :: from < j < from + offset ==> frames[j].time <= time
        invariant scanned == Stepped(from + 1, from + offset)
        invariant EmittedFrom(midiEventBuffer, notesDown, noteUpdates, b0, n0, u0, scanned)
        decreases |frames| - offset
      {
        scanned := EmitScannedFrame(from + offset, from + 1, scanned, b0, n0, u0);
        offset := offset + 1;
      }
    }

    /**
      The forward scan of discrete playback. Either it meets a later frame and makes
      the one before it current, or it runs off the end of the sequence and reports
      that, leaving the current frame.
     */
    method ScanForward() returns (atEnd: bool)
      requires 0 <= currentFrame < |frames|
      modifies this`currentFrame, this`midiEventBuffer, this`notesDown, this`noteUpdates
      ensures var n := NextAfter(frames, old(currentFrame), playbackTime);
              && atEnd == (n == |frames|)
              && currentFrame == (if atEnd then old(currentFrame) else n - 1)
              && EmittedFrom(midiEventBuffer, notesDown, noteUpdates,
                             old(midiEventBuffer), old(notesDown), old(noteUpdates),
                             Stepped(old(currentFrame) + 1, n))
    {
      var offset;
      ghost var scanned;
      offset, scanned := ScanFrames();
      NextAfterUnique(frames, currentFrame, playbackTime, currentFrame + offset);
      atEnd := currentFrame + offset >= |frames|;
      if !atEnd {
        currentFrame := currentFrame + (offset - 1);
      }
    }

    /**
      Discrete playback: the forward scan from the current frame; at the end of the
      sequence it stops, or with looping restarts the clock at 0 and scans again from
      frame 0.
     */
    method SetFrameFromTime(now: real)
      requires Valid()
      requires loop && NextAfter(frames, currentFrame, playbackTime) == |frames| ==>
                 NextAfter(frames, 0, 0.0) < |frames|
      modifies this`startTime, this`currentFrame, this`playbackTime, this`isPlaybackActive,
               this`midiEventBuffer, this`notesDown, this`noteUpdates
      ensures Valid()
      ensures var n := NextAfter(frames, old(currentFrame), old(playbackTime));
              n < |frames| ==>
                && currentFrame == n - 1
                && playbackTime == old(playbackTime) && startTime == old(startTime)
                && isPlaybackActive == old(isPlaybackActive)
                && EmittedFrom(midiEventBuffer, notesDown, noteUpdates,
                               old(midiEventBuffer), old(notesDown), old(noteUpdates),
                               Stepped(old(currentFrame) + 1, n))
      ensures NextAfter(frames, old(currentFrame), old(playbackTime)) == |frames| && !loop ==>
                && !isPlaybackActive
                && currentFrame == old(currentFrame)
                && playbackTime == old(playbackTime) && startTime == old(startTime)
                && EmittedFrom(midiEventBuffer, notesDown, noteUpdates,
                               old(midiEventBuffer), old(notesDown), old(noteUpdates),
                               Stepped(old(currentFrame) + 1, |frames|))
      ensures NextAfter(frames, old(currentFrame), old(playbackTime)) == |frames| && loop ==>
                var n := NextAfter(frames, 0, 0.0);
                && currentFrame == n - 1
                && playbackTime == 0.0 && startTime == now
                && isPlaybackActive == old(isPlaybackActive)
                && EmittedFrom(midiEventBuffer, notesDown, noteUpdates,
                               old(midiEventBuffer), old(notesDown), old(noteUpdates),
                               Stepped(old(currentFrame) + 1, |frames|) + Stepped(1, n))
      ensures currentFrame >= old(currentFrame) || (loop && playbackTime == 0.0 && startTime == now)
      ensures loop || NextAfter(frames, old(currentFrame), old(playbackTime)) < |frames| ==>
                currentFrame + 1 < |frames| && frames[currentFrame + 1].time > playbackTime
    {
      ghost var b0, n0, u0 := midiEventBuffer, notesDown, noteUpdates;
      ghost var c0, t0 := currentFrame, playbackTime;
      ghost var n := NextAfter(frames, c0, t0);
      var atEnd := ScanForward();
      assert atEnd == (n == |frames|) && (!atEnd ==> currentFrame == n - 1);
      if atEnd {
        // the scan ran past the last frame: loop around or stop
        if loop {
          ghost var b1, n1, u1 := midiEventBuffer, notesDown, noteUpdates;
          LoopAround(now);
          EmittedChain(b0, n0, u0, b1, n1, u1, midiEventBuffer, notesDown, noteUpdates,
                       Stepped(c0 + 1, |frames|), Stepped(1, NextAfter(frames, 0, 0.0)));
        } else {
          StopPlayback();
        }
      }
    }

    /** The loop-around of discrete playback: the clock restarts at 0 and the scan runs again from frame 0. */
    method LoopAround(now: real)
      requires |frames| > 0 && NextAfter(frames, 0, 0.0) < |frames|
      modifies this`startTime, this`currentFrame, this`playbackTime,
               this`midiEventBuffer, this`notesDown, this`noteUpdates
      ensures var n := NextAfter(frames, 0, 0.0);
              && currentFrame == n - 1 && playbackTime == 0.0 && startTime == now
              && EmittedFrom(midiEventBuffer, notesDown, noteUpdates,
                             old(midiEventBuffer), old(notesDown), old(noteUpdates),
                             Stepped(1, n))
    {
      startTime := now;
      currentFrame := 0;
      playbackTime := 0.0;
      var atEnd := ScanForward();
    }

    /**
      Interpolated playback: finds the frame for `time` and blends it with the next
      one into the interpolated frame; when there is no next frame it stops, and
      restarts when looping.
     */
    method Interpolate(time: real, now: real, slerp: (Quat, Quat, real) -> Quat)
      requires Valid() && StrictlyTimed(frames) && interpolatedFrame.Some?
      modifies this`activeState, this`interpolatedFrame, this`playbackTime, this`lastUpdateTime,
               this`multiplier, this`lastMidiDataRead, this`notesDown, this`currentFrame,
               this`startTime, this`isPlaybackActive
      ensures Valid()
      ensures FrameAt(frames, time) + 1 >= |frames| && !loop ==>
                !isPlaybackActive && interpolatedFrame == old(interpolatedFrame)
                && activeState == old(activeState) && playbackTime == old(playbackTime)
                && currentFrame == old(currentFrame) && notesDown == old(notesDown)
                && multiplier == old(multiplier) && lastMidiDataRead == old(lastMidiDataRead)
                && startTime == old(startTime) && lastUpdateTime == old(lastUpdateTime)
      ensures FrameAt(frames, time) + 1 >= |frames| && loop ==> JustStarted(now)
      ensures var left := FrameAt(frames, time);
              left + 1 < |frames| ==>
                && interpolatedFrame
                   == Some(LerpFrame(old(interpolatedFrame).value, frames[left], frames[left + 1], time, slerp))
                && isPlaybackActive == old(isPlaybackActive) && activeState == old(activeState)
                && multiplier == old(multiplier) && playbackTime == old(playbackTime)
                && currentFrame == old(currentFrame) && notesDown == old(notesDown)
                && lastMidiDataRead == old(lastMidiDataRead) && startTime == old(startTime)
                && lastUpdateTime == old(lastUpdateTime)
      ensures old(SpeedInSync()) ==> SpeedInSync()
    {
      var left := BinarySearchSequence(frames, time, 0, framesAmount - 1);
      var right := left + 1;
      if right >= framesAmount {
        StopPlayback();
        if loop {
          StartPlayback(now);
        }
        return;
      }
      var leftFrame := frames[left];
      var rightFrame := frames[right];
      var blended := BlendFrames(interpolatedFrame.value, leftFrame, rightFrame, time, slerp);
      interpolatedFrame := Some(blended);
    }

    /** Release handling of a tick: a released hold key leaves its held state. */
    method ReleaseHeldKeys(keys: HeldKeys)
      modifies this`activeState, this`multiplier, this`midiEventBuffer
      ensures activeState == ReleasedState(old(activeState), lastState, keys)
      ensures activeState != old(activeState) ==> multiplier == SpeedOf(activeState)
      ensures activeState == old(activeState) ==> multiplier == old(multiplier)
      ensures ReleaseClearsBuffer(old(activeState), keys) ==> midiEventBuffer == []
      ensures !ReleaseClearsBuffer(old(activeState), keys) ==> midiEventBuffer == old(midiEventBuffer)
      ensures old(SpeedInSync()) ==> SpeedInSync()
    {
      match activeState
      case Rewind =>
        if !keys.decreaseSpeedKey {
          SetActivePlaybackState(lastState);
          midiEventBuffer := [];
        }
      case FastForward =>
        if !keys.increaseSpeedKey {
          SetActivePlaybackState(lastState);
          midiEventBuffer := [];
        }
      case SlowMo =>
        if !keys.slowMoKey {
          SetActivePlaybackState(Playing);
        }
      case _ =>
    }

    /** The clock of a tick: scaled time accumulates unless paused; reverse playback below 0 stops. */
    method AdvanceClock(now: real)
      requires Valid()
      modifies this`playbackTime, this`lastUpdateTime, this`isPlaybackActive
      ensures Valid()
      ensures activeState == Paused ==> playbackTime == old(playbackTime)
      ensures activeState != Paused ==> playbackTime == old(playbackTime) + (now - old(lastUpdateTime)) * multiplier
      ensures lastUpdateTime == now
      ensures isPlaybackActive == (old(isPlaybackActive) && !(multiplier < 0.0 && playbackTime < 0.0))
    {
      if activeState != Paused {
        var deltaTime := now - lastUpdateTime;
        playbackTime := playbackTime + deltaTime * multiplier;
      }
      lastUpdateTime := now;
      if multiplier < 0.0 && playbackTime < 0.0 {
        StopPlayback();
      }
    }

    /** One engine tick of playback. */
    method Update(now: real, keys: HeldKeys, slerp: (Quat, Quat, real) -> Quat)
      requires Valid()
      requires interpolationMode == LinearInterpolation ==> StrictlyTimed(frames)
      requires interpolationMode == NoInterpolation && loop ==> NextAfter(frames, 0, 0.0) < |frames|
      modifies this
      ensures Valid()
      ensures !old(isPlaybackActive) ==> unchanged(this)
      ensures old(SpeedInSync()) ==> SpeedInSync()
    {
      if isPlaybackActive {
        ReleaseHeldKeys(keys);
        AdvanceClock(now);
        if interpolationMode == NoInterpolation {
          SetFrameFromTime(now);
        }
        if interpolationMode == LinearInterpolation {
          InterpolatedTick(now, slerp);
        }
      }
    }

    /** The interpolated part of a tick: the blend, then the MIDI read while playing forward. */
    method InterpolatedTick(now: real, slerp: (Quat, Quat, real) -> Quat)
      requires Valid() && StrictlyTimed(frames) && interpolatedFrame.Some?
      modifies this`activeState, this`interpolatedFrame, this`playbackTime, this`lastUpdateTime,
               this`multiplier, this`lastMidiDataRead, this`notesDown, this`currentFrame,
               this`startTime, this`isPlaybackActive, this`midiEventBuffer, this`noteUpdates
      ensures Valid()
      ensures old(SpeedInSync()) ==> SpeedInSync()
      ensures FrameAt(frames, old(playbackTime)) + 1 >= |frames| && !loop ==>
                !isPlaybackActive && interpolatedFrame == old(interpolatedFrame)
                && activeState == old(activeState) && playbackTime == old(playbackTime)
                && currentFrame == old(currentFrame) && multiplier == old(multiplier)
                && lastMidiDataRead == old(lastMidiDataRead) && startTime == old(startTime)
                && lastUpdateTime == old(lastUpdateTime)
      ensures FrameAt(frames, old(playbackTime)) + 1 >= |frames| && loop ==>
                && isPlaybackActive && activeState == Playing && multiplier == 1.0
                && playbackTime == 0.0 && lastMidiDataRead == 0.0 && currentFrame == 0
                && interpolatedFrame == Some(frames[0]) && startTime == now && lastUpdateTime == now
      ensures var left := FrameAt(frames, old(playbackTime));
              left + 1 < |frames| ==>
                && interpolatedFrame
                   == Some(LerpFrame(old(interpolatedFrame).value, frames[left], frames[left + 1],
                                     old(playbackTime), slerp))
                && isPlaybackActive == old(isPlaybackActive) && activeState == old(activeState)
                && multiplier == old(multiplier) && playbackTime == old(playbackTime)
                && currentFrame == old(currentFrame) && lastMidiDataRead == old(lastMidiDataRead)
                && startTime == old(startTime) && lastUpdateTime == old(lastUpdateTime)
      // the notes held once the blend is done: none after a restart, the old ones otherwise
      ensures var held := if FrameAt(frames, old(playbackTime)) + 1 >= |frames| && loop
                          then {} else old(notesDown);
              if playMidi && multiplier > 0.0 && activeState != Paused then
                EmittedFrom(midiEventBuffer, notesDown, noteUpdates,
                            old(midiEventBuffer), held, old(noteUpdates),
                            RangeMidi(frames, lastMidiDataRead, playbackTime))
              else
                midiEventBuffer == old(midiEventBuffer) && notesDown == held
                && noteUpdates == old(noteUpdates)
    {
      ghost var atEnd := FrameAt(frames, playbackTime) + 1 >= |frames|;
      Interpolate(playbackTime, now, slerp);
      ghost var held := notesDown;
      assert held == if atEnd && loop then {} else old(notesDown);
      if playMidi && multiplier > 0.0 {
        ReadMidi();
      }
    }
  }

  /**
    One blend step between two recorded frames: validity flags first; when both hold,
    time, root pose, root scale and the translations, one bone at a time.
   */
  method BlendFrames(frame: HandFrame, leftFrame: HandFrame, rightFrame: HandFrame, time: real,
                     slerp: (Quat, Quat, real) -> Quat) returns (r: HandFrame)
    requires leftFrame.time != rightFrame.time
    requires |leftFrame.boneTranslations| <= |frame.boneTranslations|
    requires |leftFrame.boneTranslations| <= |rightFrame.boneTranslations|
    ensures r == LerpFrame(frame, leftFrame, rightFrame, time, slerp)
  {
    var factor := Factor(time, leftFrame.time, rightFrame.time);

    // validity
    r := frame.(isDataValid := leftFrame.isDataValid && rightFrame.isDataValid,
                isDataHighConfidence := leftFrame.isDataHighConfidence && rightFrame.isDataHighConfidence);
    if !r.isDataValid || !r.isDataHighConfidence {
      return;
    }
    // time, root pose and root scale
    r := r.(time := Lerp(leftFrame.time, rightFrame.time, factor),
            rootPosition := LerpVec(leftFrame.rootPosition, rightFrame.rootPosition, factor),
            rootOrientation := slerp(leftFrame.rootOrientation, rightFrame.rootOrientation, factor),
            rootScale := Lerp(leftFrame.rootScale, rightFrame.rootScale, factor));
    // translations
    var bones := r.boneTranslations;
    var i := 0;
    while i < |leftFrame.boneTranslations|
      invariant 0 <= i <= |leftFrame.boneTranslations|
      invariant |bones| == |frame.boneTranslations|
      invariant forall j :: 0 <= j < i ==>
                  bones[j] == LerpVec(leftFrame.boneTranslations[j], rightFrame.boneTranslations[j], factor)
      invariant forall j :: i <= j < |bones| ==> bones[j] == frame.boneTranslations[j]
    {
      bones := bones[i := LerpVec(leftFrame.boneTranslations[i], rightFrame.boneTranslations[i], factor)];
      i := i + 1;
    }
    assert bones == LerpBones(frame.boneTranslations, leftFrame.boneTranslations,
                              rightFrame.boneTranslations, factor);
    r := r.(boneTranslations := bones);
  }
}
