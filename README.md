# Hand-recording playback, finger assignment and recording bookkeeping

This project models three parts of a Unity system. The system records hand skeletons and MIDI from a piano keyboard and plays them back.

- **Skeleton playback** (`Playback.SkeletonPlayback`, with pure definitions in `PlaybackSpec`). This part covers:
  - the playback state machine (Playing, Paused, FastForward, Rewind, SlowMo) and the fixed speed of each state;
  - the input codes 0 to 4 and the release of hold-to-use keys;
  - the scaled playback clock;
  - the frame-index search;
  - discrete frame stepping and linear interpolation between frames;
  - the MIDI bookkeeping: the event buffer that readers drain, the set of held notes, and the note events raised to listeners.
- **Finger assignment** (`HandUtil`). This part covers:
  - first-minimiser selection of one of five fingertips under 1D, 2D and 3D Euclidean and Manhattan metrics;
  - the masked 1D selection and the two closest fingers along x;
  - the three-gate fingertip filter and the filter-then-1D policy;
  - the 2-of-3 vote;
  - the key point of a MIDI key: octave, scale degree, the white- and black-key tables, and the forward and height offsets.
- **Recording bookkeeping** (`Recorder.DataRecorder`). This part covers:
  - the record toggle over a growing list of recordings;
  - the index of the current recording;
  - the one frame appended per tick while recording;
  - the numbered export file names.

The shared data model is in `HandData`: real-valued 3D vectors, MIDI note events, hand frames and sequences of frames.

Engine inputs become parameters:
- engine time is `now`;
- the held keys are a `HeldKeys` value, and the R and S keys are booleans;
- the tracked frame and the MIDI provider's buffer are values;
- the keyboard-space transform and the quaternion blend are function parameters.

Floats become `real`. Euclidean distances are compared squared; the square root is strictly monotone, so the selected fingertip is the same.

### Behaviour of the code as written

The model follows the code where it does something other than what its names suggest.

- **The frame-index search is not a bisection.** `BinarySearchSequence` computes its midpoint as `start + (stop - start / 2)`. Playback only calls it with `start == 0`, and then the midpoint is `stop` itself, so the search steps `stop` down one frame at a time.
  - The result is the last frame at index 3 or higher whose time is at or before the query, or 0 when there is none (`PlaybackSpec.FrameAtIsLastFromThree`).
  - Frames 1 and 2 are never found. `PlaybackSpec.FrameAtIsCoarseBelowThree` shows four frames for which the answer is 0 although frame 1 brackets the query.
- **Interpolated playback reads MIDI again on every tick.** A MIDI read covers the frames from the search result of the last read time to that of the current time, both ends included. The last read time moves only when a reader drains the buffer (`GetMidiData`) or playback starts; the read itself leaves it. So every interpolated tick buffers, applies and raises the whole range since the last drain again, not just the frames new since the previous tick (`ReadMidi`, `InterpolatedTick`). Even across a drain, two consecutive ranges both deliver the boundary frame's events (`PlaybackSpec.ConsecutiveRangesRepeatBoundaryFrame`).
- **Discrete playback never emits frame 0's MIDI.** The forward scan emits the MIDI of the frames after the current one. On a loop it restarts at frame 0 and scans from frame 1.
- **Discrete playback is undefined in two looping cases.** One case is a one-frame sequence, where the source reads past the end after a loop-around. The other is a sequence whose frames after the first all have a time of 0 or less, where the source loops forever. `SetFrameFromTime` and `Update` require that neither happens.
- **A second press keeps fast-forward.** Pressing fast-forward again while fast-forwarding saves FastForward as the state to restore. Releasing the key then leaves the state at FastForward (`PlaybackSpec.SecondPressKeepsFastForward`).
- **The initial state is not in step with its speed.** Before the first start, the state is Playing while the speed multiplier is 0. This comes from C#'s field defaults. `SpeedInSync` holds only from `StartPlayback` on.
- **Negative keys lose their scale position.** For a negative key, C#'s `%` gives a remainder of 0 or below. Every non-zero remainder is in neither key table, so the position within the octave is the origin (`HandUtil.NegativeKeyScalePosition`). The forward-step factor is then 0.15 for every such key.

## Model

| member | source | states |
|---|---|---|
| PlaybackSpec.SpeedOf | handRecVis/Assets/VirtualHands/HandSequence/SkeletonPlayback.cs:71-100 | Each state has its own speed: negative exactly for Rewind, 0 exactly for Paused, 1 exactly for Playing, above 1 exactly for FastForward, strictly between 0 and 1 exactly for SlowMo |
| PlaybackSpec.SpeedDeterminesState | handRecVis/Assets/VirtualHands/HandSequence/SkeletonPlayback.cs:71-100 | Two states have the same speed only when they are the same state |
| PlaybackSpec.PauseToggle | handRecVis/Assets/VirtualHands/HandSequence/SkeletonPlayback.cs:518-522 | Input 3 flips Playing and Paused, leaves every other state, and twice is no change |
| PlaybackSpec.HoldAndReleaseRestores | handRecVis/Assets/VirtualHands/HandSequence/SkeletonPlayback.cs:490-530 | Holding fast-forward or rewind from Playing or Paused and releasing it returns to the starting state; slow motion returns to Playing |
| PlaybackSpec.SecondPressKeepsFastForward | handRecVis/Assets/VirtualHands/HandSequence/SkeletonPlayback.cs:510-513 | Two fast-forward presses and a release leave the state at FastForward |
| PlaybackSpec.BinarySearchSequence | handRecVis/Assets/VirtualHands/HandSequence/SkeletonPlayback.cs:346-356 | Terminates; a window narrower than 3 answers its start; otherwise the answer is in [0, stop], is 0 or an index of at least 3 at or before the query, and every index above max(answer, 2) up to stop is later than the query |
| PlaybackSpec.FrameAt | handRecVis/Assets/VirtualHands/HandSequence/SkeletonPlayback.cs:346-356 | The whole-sequence search answers a valid index, 0 or a frame at or before the query from index 3 on, with every frame after max(answer, 2) later than the query |
| PlaybackSpec.FrameAtIsLastFromThree | handRecVis/Assets/VirtualHands/HandSequence/SkeletonPlayback.cs:346-356 | Every frame from index 3 at or before the query is at or below the answer, which is then at least 3 |
| PlaybackSpec.FrameAtMonotone | handRecVis/Assets/VirtualHands/HandSequence/SkeletonPlayback.cs:346-356 | A later query time never gives a smaller index, whatever the order of the frame times |
| PlaybackSpec.FrameAtIsCoarseBelowThree | handRecVis/Assets/VirtualHands/HandSequence/SkeletonPlayback.cs:346-356 | For frames at times 0, 1, 2 and 3, the query 1.5 answers 0, not the bracketing frame 1 |
| PlaybackSpec.NextAfter | handRecVis/Assets/VirtualHands/HandSequence/SkeletonPlayback.cs:361-408 | The scan target lies after the start and at most at the end; it is later than the playback time when inside the sequence; every frame passed over is at or before it |
| PlaybackSpec.NextAfterUnique | handRecVis/Assets/VirtualHands/HandSequence/SkeletonPlayback.cs:361-408 | Those three properties determine the scan target |
| PlaybackSpec.MidiOfSplit | handRecVis/Assets/VirtualHands/HandSequence/SkeletonPlayback.cs:333-344 | Collecting two adjacent frame ranges is collecting their union, in index order |
| PlaybackSpec.MidiOfContains | handRecVis/Assets/VirtualHands/HandSequence/SkeletonPlayback.cs:333-344 | Every event of every frame in the range is collected |
| PlaybackSpec.MidiOfHead | handRecVis/Assets/VirtualHands/HandSequence/SkeletonPlayback.cs:338-341 | A non-empty collection starts with its first frame's events |
| PlaybackSpec.MidiOfThrough | handRecVis/Assets/VirtualHands/HandSequence/SkeletonPlayback.cs:338-341 | A collection splits around any frame in it: the frames before, its events, the frames after |
| PlaybackSpec.MidiOfOne | handRecVis/Assets/VirtualHands/HandSequence/SkeletonPlayback.cs:338-341 | A one-frame range collects exactly that frame's events |
| PlaybackSpec.RangeMidiForward | handRecVis/Assets/VirtualHands/HandSequence/SkeletonPlayback.cs:333-344 | For ordered times the first index is at most the second and the read is the frames between them, both included |
| PlaybackSpec.ForwardRangeHoldsStartFrame | handRecVis/Assets/VirtualHands/HandSequence/SkeletonPlayback.cs:333-344 | A forward read always includes the events of the frame found for its start time |
| PlaybackSpec.MidiOfOverlap | handRecVis/Assets/VirtualHands/HandSequence/SkeletonPlayback.cs:333-344 | Reading [a, b] and then [b, c] by index delivers frame b once more than reading [a, c] |
| PlaybackSpec.ConsecutiveRangesRepeatBoundaryFrame | handRecVis/Assets/VirtualHands/HandSequence/SkeletonPlayback.cs:241-266 | Of two consecutive forward time-range reads, the first ends with the boundary frame's events and the second starts with them, so together they deliver those events twice; a single read over both holds them once, between the same two parts |
| PlaybackSpec.RangeEndsWithStop | handRecVis/Assets/VirtualHands/HandSequence/SkeletonPlayback.cs:333-344 | A forward read ends with the events of the frame found for its stop time |
| PlaybackSpec.RangeStartsWithStart | handRecVis/Assets/VirtualHands/HandSequence/SkeletonPlayback.cs:333-344 | A forward read starts with the events of the frame found for its start time, followed by the later frames up to the stop |
| PlaybackSpec.RangeThrough | handRecVis/Assets/VirtualHands/HandSequence/SkeletonPlayback.cs:333-344 | A forward read over [a, c] is the frames before the one found for any b in between, that frame's events, and the frames after it |
| PlaybackSpec.ApplyEventsAppend | handRecVis/Assets/VirtualHands/HandSequence/SkeletonPlayback.cs:433-453 | Applying two batches of events to the held notes is applying their concatenation |
| PlaybackSpec.RaisedAppend | handRecVis/Assets/VirtualHands/HandSequence/SkeletonPlayback.cs:433-453 | The raised events of a concatenation are those of its parts, in order |
| PlaybackSpec.EmittedChain | handRecVis/Assets/VirtualHands/HandSequence/SkeletonPlayback.cs:390-403 | Emitting one batch after another buffers, applies and raises their concatenation |
| PlaybackSpec.RaisedMembers | handRecVis/Assets/VirtualHands/HandSequence/SkeletonPlayback.cs:433-453 | Exactly the note-on and note-off events are raised to listeners |
| PlaybackSpec.HeldIffLastIsNoteOn | handRecVis/Assets/VirtualHands/HandSequence/SkeletonPlayback.cs:433-453 | A note is held after a batch exactly when its last on/off event is a note-on, or when it has none and was held before |
| PlaybackSpec.PressReleaseRestores | handRecVis/Assets/VirtualHands/HandSequence/SkeletonPlayback.cs:433-453 | A note pressed and released leaves the held notes as they were |
| PlaybackSpec.LerpFactorRecoversTime | handRecVis/Assets/VirtualHands/HandSequence/SkeletonPlayback.cs:287-296 | Blending the two frame times by the factor gives back the query time |
| PlaybackSpec.LerpBones | handRecVis/Assets/VirtualHands/HandSequence/SkeletonPlayback.cs:314-316 | Translations keep their count; the first entries are blends of the two frames, the rest are untouched |
| PlaybackSpec.LerpFrame | handRecVis/Assets/VirtualHands/HandSequence/SkeletonPlayback.cs:285-319 | Validity and confidence are the conjunctions of both endpoints'; without both, nothing else changes; with both, the time becomes the query time; MIDI is untouched |
| PlaybackSpec.InterpolateAtLeftTime | handRecVis/Assets/VirtualHands/HandSequence/SkeletonPlayback.cs:285-319 | At the left frame's time the blend reproduces the left frame's position, scale and translations |
| PlaybackSpec.InterpolateAtRightTime | handRecVis/Assets/VirtualHands/HandSequence/SkeletonPlayback.cs:285-319 | At the right frame's time the blend reproduces the right frame's position, scale and translations |
| Playback.SkeletonPlayback.constructor | handRecVis/Assets/VirtualHands/HandSequence/SkeletonPlayback.cs:456-475 | Copies the sequence with length and duration; inactive, with empty MIDI state and no interpolated frame |
| Playback.SkeletonPlayback.SetActivePlaybackState | handRecVis/Assets/VirtualHands/HandSequence/SkeletonPlayback.cs:58-69 | The speed changes only on an actual change of state, to that state's speed; a speed in step stays in step |
| Playback.SkeletonPlayback.OnPlaybackStateChanged | handRecVis/Assets/VirtualHands/HandSequence/SkeletonPlayback.cs:71-100 | Sets the speed to the new state's speed |
| Playback.SkeletonPlayback.StartPlayback | handRecVis/Assets/VirtualHands/HandSequence/SkeletonPlayback.cs:184-209 | Active and Playing at speed 1; time, frame index and last-read time reset to 0; no held notes; interpolated frame is the first frame; clock starts at now |
| Playback.SkeletonPlayback.StopPlayback | handRecVis/Assets/VirtualHands/HandSequence/SkeletonPlayback.cs:210-218 | Playback becomes inactive |
| Playback.SkeletonPlayback.KeyboardInput | handRecVis/Assets/VirtualHands/HandSequence/SkeletonPlayback.cs:490-530 | Input 0 starts when inactive and, when active, stops with every other field kept; inputs 1 to 4 save the state and switch as the input table says, speed following, with the clock, frames and MIDI state kept; other codes change nothing at all |
| Playback.SkeletonPlayback.OnEventReceived | handRecVis/Assets/VirtualHands/HandSequence/SkeletonPlayback.cs:433-453 | Note-on adds the note, note-off removes it, other events leave the held notes; only note events are raised |
| Playback.SkeletonPlayback.DispatchEvents | handRecVis/Assets/VirtualHands/HandSequence/SkeletonPlayback.cs:263-265 | Passing a batch event by event applies it in order and raises its note events in order |
| Playback.SkeletonPlayback.GetMidiFromRange | handRecVis/Assets/VirtualHands/HandSequence/SkeletonPlayback.cs:333-344 | The concatenated MIDI of the frames from the start search result to the stop search result, both included, or nothing when the first exceeds the second |
| Playback.SkeletonPlayback.ReadMidi | handRecVis/Assets/VirtualHands/HandSequence/SkeletonPlayback.cs:241-266 | Nothing while paused; otherwise buffers, applies and raises exactly the range from last read to playback time, with the ends swapped in reverse |
| Playback.SkeletonPlayback.GetMidiData | handRecVis/Assets/VirtualHands/HandSequence/SkeletonPlayback.cs:173-182 | Nothing while inactive; otherwise hands out the old buffer, empties it and records the playback time as last read |
| Playback.SkeletonPlayback.GetHandFrameData | handRecVis/Assets/VirtualHands/HandSequence/SkeletonPlayback.cs:157-164 | Nothing while inactive; while active, the current frame of the sequence without interpolation and the interpolated frame with it |
| Playback.SkeletonPlayback.EmitFrameMidi | handRecVis/Assets/VirtualHands/HandSequence/SkeletonPlayback.cs:390-403 | With MIDI played, a stepped-over frame's events are buffered, applied and raised once; otherwise nothing |
| Playback.SkeletonPlayback.ScanFrames | handRecVis/Assets/VirtualHands/HandSequence/SkeletonPlayback.cs:363-407 | Walks past exactly the frames whose time is not after the playback time, stopping at the first later frame or the end, and emits their MIDI once, in order |
| Playback.SkeletonPlayback.LoopAround | handRecVis/Assets/VirtualHands/HandSequence/SkeletonPlayback.cs:369-375 | The clock restarts at 0 with the start time at now, and the scan from frame 0 makes the frame before the first later one current, emitting the MIDI passed |
| Playback.SkeletonPlayback.ScanForward | handRecVis/Assets/VirtualHands/HandSequence/SkeletonPlayback.cs:361-408 | Stops before the first later frame and makes the frame before it current, or reports the end; the frames passed over have their MIDI emitted once, in order |
| Playback.SkeletonPlayback.SetFrameFromTime | handRecVis/Assets/VirtualHands/HandSequence/SkeletonPlayback.cs:361-408 | The frame index never decreases except on a loop reset; on return the next frame is later than the playback time; stepped frames' MIDI is emitted once, in order; at the end without loop playback stops; with loop the clock restarts at 0 |
| Playback.SkeletonPlayback.Interpolate | handRecVis/Assets/VirtualHands/HandSequence/SkeletonPlayback.cs:268-331 | With no frame after the found one, playback stops with every other field untouched, or restarts when looping; otherwise the interpolated frame becomes the blend of the found frame and the next, with nothing else changed |
| Playback.SkeletonPlayback.ReleaseHeldKeys | handRecVis/Assets/VirtualHands/HandSequence/SkeletonPlayback.cs:558-579 | A released fast-forward or rewind key restores the saved state and empties the buffer; a released slow-motion key returns to Playing; speed follows |
| Playback.SkeletonPlayback.AdvanceClock | handRecVis/Assets/VirtualHands/HandSequence/SkeletonPlayback.cs:581-593 | Paused keeps the time, otherwise the elapsed time times the speed is added; reverse playback below 0 stops |
| Playback.SkeletonPlayback.InterpolatedTick | handRecVis/Assets/VirtualHands/HandSequence/SkeletonPlayback.cs:601-605 | The interpolated tick: at the end without loop playback stops with the frame untouched; with loop it restarts; otherwise the frame becomes the blend at the playback time; while playing forward with MIDI on, the range from last read to playback time is buffered, applied and raised, and otherwise the MIDI state stays |
| Playback.SkeletonPlayback.BlendFrames | handRecVis/Assets/VirtualHands/HandSequence/SkeletonPlayback.cs:285-319 | The loop over the translations produces exactly the blended frame |
| PlaybackSpec.Lerp | handRecVis/Assets/VirtualHands/HandSequence/SkeletonPlayback.cs:321-324 | The left value at factor 0, the right at factor 1, and between the two for factors in [0, 1] |
| PlaybackSpec.LerpVec | handRecVis/Assets/VirtualHands/HandSequence/SkeletonPlayback.cs:325-328 | The left vector at factor 0, the right at factor 1, and the common value when both are equal |
| Playback.SkeletonPlayback.Update | handRecVis/Assets/VirtualHands/HandSequence/SkeletonPlayback.cs:549-608 | A tick keeps the invariant and the speed in step, and changes nothing while inactive |
| HandUtil.FirstArgMin | quest_test/Assets/VirtualHands/HandSequence/HandUtil.cs:325-327 | The first position of a minimal cost: minimal, and every earlier cost is larger |
| HandUtil.IndexOf | quest_test/Assets/VirtualHands/HandSequence/HandUtil.cs:325-327 | The first position holding the value; -1 exactly when it is absent |
| HandUtil.IndexOfFirstArgMin | quest_test/Assets/VirtualHands/HandSequence/HandUtil.cs:325-327 | Looking the first minimal tip up by value finds its own position |
| HandUtil.ClosestBy | quest_test/Assets/VirtualHands/HandSequence/HandUtil.cs:341-366 | The lowest-index minimiser of the metric |
| HandUtil.ClosestFinger1D | quest_test/Assets/VirtualHands/HandSequence/HandUtil.cs:325-327 | The lowest-index tip minimising the x distance |
| HandUtil.ClosestFinger2D | quest_test/Assets/VirtualHands/HandSequence/HandUtil.cs:341-345 | The lowest-index tip minimising the x-y distance |
| HandUtil.ClosestFinger3D | quest_test/Assets/VirtualHands/HandSequence/HandUtil.cs:347-350 | The lowest-index tip minimising the 3D distance |
| HandUtil.ClosestFinger1DManhattan | quest_test/Assets/VirtualHands/HandSequence/HandUtil.cs:352-355 | The lowest-index tip minimising the x distance |
| HandUtil.ClosestFinger2DManhattan | quest_test/Assets/VirtualHands/HandSequence/HandUtil.cs:357-361 | The lowest-index tip minimising the x-y Manhattan distance |
| HandUtil.ClosestFinger3DManhattan | quest_test/Assets/VirtualHands/HandSequence/HandUtil.cs:363-366 | The lowest-index tip minimising the 3D Manhattan distance |
| HandUtil.OneDimensionalMetricsAgree | quest_test/Assets/VirtualHands/HandSequence/HandUtil.cs:352-355 | The 1D Manhattan selector gives the same answer as the 1D Euclidean one on every input |
| HandUtil.ZeroCostTipChosen | quest_test/Assets/VirtualHands/HandSequence/HandUtil.cs:341-366 | Under a non-negative metric, a tip at zero cost is chosen when every earlier tip has positive cost |
| HandUtil.SqDist3DSign | quest_test/Assets/VirtualHands/HandSequence/HandUtil.cs:377-382 | Squared 3D distances are non-negative and zero from a point to itself |
| HandUtil.SqDist2DSign | quest_test/Assets/VirtualHands/HandSequence/HandUtil.cs:368-371 | Squared x-y distances are non-negative and zero from a point to itself |
| HandUtil.ExactTipChosen3D | quest_test/Assets/VirtualHands/HandSequence/HandUtil.cs:347-350 | Aiming at tip i picks i unless an earlier tip is at zero distance too |
| HandUtil.ExactTipChosen2D | quest_test/Assets/VirtualHands/HandSequence/HandUtil.cs:341-345 | Aiming at tip i picks i unless an earlier tip is at zero x-y distance too |
| HandUtil.MaskedArgMin | quest_test/Assets/VirtualHands/HandSequence/HandUtil.cs:328 | A mask entry of minimal cost among the mask, the earliest such in mask order |
| HandUtil.ClosestFinger1DMasked | quest_test/Assets/VirtualHands/HandSequence/HandUtil.cs:328 | A mask entry whose x distance is minimal among the mask, the earliest in mask order on ties |
| HandUtil.Get2ClosestFingers1D | quest_test/Assets/VirtualHands/HandSequence/HandUtil.cs:330-338 | min(2, n) indices; the first is the stable x minimiser; the second is distinct, minimal among the others and first among those of its distance |
| HandUtil.SecondClosestIsStable | quest_test/Assets/VirtualHands/HandSequence/HandUtil.cs:330-338 | The stable choice among all but the first is minimal over every other index and earliest among equals |
| HandUtil.Mode | quest_test/Assets/VirtualHands/HandSequence/HandUtil.cs:230-233 | One of the three inputs; any value voted at least twice; the last when all differ |
| HandUtil.Filtered | quest_test/Assets/VirtualHands/HandSequence/HandUtil.cs:305-321 | Exactly the indices of points passing the three gates, strictly ascending |
| HandUtil.FilterEpsilonMonotone | quest_test/Assets/VirtualHands/HandSequence/HandUtil.cs:314 | A larger epsilon never drops a point |
| HandUtil.FilterPoints | quest_test/Assets/VirtualHands/HandSequence/HandUtil.cs:305-321 | The loop keeps exactly the filtered indices in order; the black-key flag has no effect |
| HandUtil.KeyDecomposition | quest_test/Assets/VirtualHands/HandSequence/HandUtil.cs:391-394 | key = 12 * octave + degree under truncating division; 0..11 for non-negative keys, -11..0 for negative ones |
| HandUtil.KeyTablesPartition | quest_test/Assets/VirtualHands/HandSequence/HandUtil.cs:24-25 | The white and black tables split the degrees 0..11 and share none |
| HandUtil.WhiteIndex | quest_test/Assets/VirtualHands/HandSequence/HandUtil.cs:414-416 | A white key's lateral index is its position 0..6 in the white table |
| HandUtil.BlackMultiple | quest_test/Assets/VirtualHands/HandSequence/HandUtil.cs:417-438 | A black key's one-key multiple lies between its white neighbours' table positions |
| HandUtil.BlackMultipleIsWhiteAbove | quest_test/Assets/VirtualHands/HandSequence/HandUtil.cs:417-438 | The multiples 1, 2, 4, 5, 6 are the lateral index of the white key above, one past the one below |
| HandUtil.WhiteIndexMonotone | quest_test/Assets/VirtualHands/HandSequence/HandUtil.cs:414-416 | Lateral indices follow the order of the white keys |
| HandUtil.OctaveShift | quest_test/Assets/VirtualHands/HandSequence/HandUtil.cs:390-411 | Twelve keys up moves the key point by exactly one octave vector |
| HandUtil.ForwardSteps | quest_test/Assets/VirtualHands/HandSequence/HandUtil.cs:400-405 | Forward mode f places the key point f steps along the forward vector from its mode-0 point, a step being 0.2 (white key) or 0.15 (otherwise) of five key lengths |
| HandUtil.WhiteKeyStep | quest_test/Assets/VirtualHands/HandSequence/HandUtil.cs:413-416 | Neighbouring white keys of an octave lie one seventh of the octave width apart along the key row |
| HandUtil.AnchorOctaveKey | quest_test/Assets/VirtualHands/HandSequence/HandUtil.cs:390-410 | In the anchor's octave, at height and forward mode 0, the key point is the scale point moved to the anchor |
| HandUtil.NegativeKeyScalePosition | quest_test/Assets/VirtualHands/HandSequence/HandUtil.cs:391-393 | A negative key off the octave boundary gets the origin as its position within the octave |
| HandUtil.ClosestByMode | quest_test/Assets/VirtualHands/HandSequence/HandUtil.cs:157-173 | Each check mode selects the first tip of least cost under its own metric: no tip costs less, and every earlier tip costs more |
| HandUtil.TransformTips | quest_test/Assets/VirtualHands/HandSequence/HandUtil.cs:146-151 | Every tip is mapped into keyboard space, index by index |
| HandUtil.GetFingerFromKey | quest_test/Assets/VirtualHands/HandSequence/HandUtil.cs:132-176 | A finger 0..4: the mode's selection over the transformed tips for the transformed key point |
| HandUtil.GetFingerFromKey2 | quest_test/Assets/VirtualHands/HandSequence/HandUtil.cs:178-229 | A finger 0..4: when some tip passes the gates, a passing tip chosen by x distance, else the 3D choice |
| Recorder.NatToString | quest_test/Assets/VirtualHands/HandSequence/DataRecorder.cs:255 | A non-empty run of decimal digits |
| Recorder.NatToStringRoundTrip | quest_test/Assets/VirtualHands/HandSequence/DataRecorder.cs:255 | Reading the digits back gives the number |
| Recorder.NatToStringInjective | quest_test/Assets/VirtualHands/HandSequence/DataRecorder.cs:255 | Different numbers give different digit strings |
| Recorder.ExportName | quest_test/Assets/VirtualHands/HandSequence/DataRecorder.cs:255 | The base name, "(", the digits of the number, ")" |
| Recorder.ExportNamesDistinct | quest_test/Assets/VirtualHands/HandSequence/DataRecorder.cs:253-268 | Two recordings never get the same file name |
| Recorder.DataRecorder.constructor | quest_test/Assets/VirtualHands/HandSequence/DataRecorder.cs:126-165 | Not recording, index 0, no recordings; MIDI recording off when no MIDI provider is found |
| Recorder.DataRecorder.ToggleRecording | quest_test/Assets/VirtualHands/HandSequence/DataRecorder.cs:73-91 | Toggle-on appends one empty recording, sets the has-recording flag and the start time; toggle-off increments the index; the index stays at count - 1 while recording and count otherwise |
| Recorder.DataRecorder.KeyboardInput | quest_test/Assets/VirtualHands/HandSequence/DataRecorder.cs:167-200 | Code 0 toggles recording, with toggle-on appending an empty recording and setting the flag and start time, and toggle-off moving the index on with the list kept; any other code leaves all recording state unchanged |
| Recorder.DataRecorder.Stamped | quest_test/Assets/VirtualHands/HandSequence/DataRecorder.cs:61-66 | The stored frame differs from the tracked one only in its time (time since the recording started), its MIDI flag and, when MIDI is recorded, its MIDI |
| Recorder.DataRecorder.RecordCurrentFrame | quest_test/Assets/VirtualHands/HandSequence/DataRecorder.cs:58-69 | Exactly one frame is appended to the open recording, stamped with the time since the start, its MIDI flag and, only when MIDI is recorded, the provider's MIDI; other recordings unchanged |
| Recorder.DataRecorder.ExportFiles | quest_test/Assets/VirtualHands/HandSequence/DataRecorder.cs:253-268 | One file per recording, in list order, the n-th named base(n), all names distinct |
| Recorder.DataRecorder.Update | quest_test/Assets/VirtualHands/HandSequence/DataRecorder.cs:71-103 | R toggles as `ToggleRecording` does; then the list is the toggled one, with the stamped frame appended to the open recording while recording; S exports every recording under its numbered name exactly when any exists |

## Left out

- Engine time, key polling, the data and MIDI providers and the listener event `OnNoteUpdate` are parameters or recorded traces. Debug logging, progress bars, on-screen text and the empty `SlowUpdate` coroutine are rendering or scheduling only.
- `WaitForExportSave` is left out. That is the hand-over from recorder to playback: three seconds after every S press, whether or not anything was exported, it activates the playback object, passes it the first recording through `OverrideMainSequence`, and deactivates the recorder. It runs on the engine's coroutine scheduler and links two components outside this model; with no recording it would index an empty list.
- `applyTransformation` and its inverse are left out. Playback applies them to the whole sequence at start and stop, and export applies them before writing. Matrix arithmetic over floats is outside the model, so the frames never change inside the playback model.
- `HandSequenceExporter.Export` file I/O is left out; `ExportFiles` returns the named sequences instead.
- `SetRotationFromTranslation` is left out: the bone rotations it derives after interpolation are not part of the frame model.
- Float rounding, `Math.Sqrt`, `Math.Pow` and `Quaternion.Slerp` are left out. Reals stand in for floats, squared distances for distances, and a supplied function for slerp.
- `UpdatePlaybackSpeed`'s on-screen text is left out. Its speed assignment is part of `OnPlaybackStateChanged`. No other caller sets the speed directly within this model.
- `OverrideMainSequence` and `SetFrameFromTime2` are left out. The first replaces the sequence from outside, and the second only forwards to `Interpolate`. `ReceiveMIDI` is not called.
- The extraction of the five fingertips from the bone array by the tracker's bone enumeration is left out: the selectors take the five tips. The unused `a`, `b` and `keyPos_P3` of `GetFingerFromKey2` are not computed. `AddToTestingData` only logs results of the modelled selectors.
- Null references are left out: a missing provider, a null MIDI list handed to a recorded frame, and the null frame returned while playback is inactive (modelled as `None`). Playback inputs 1 to 4 pressed before the first start would also throw in `OnPlaybackStateChanged`, whose progress bar is created only by the first `StartPlayback`; the new state is then set but the speed is not. No later behaviour in the model depends on that half-done step, because `StartPlayback` resets the speed. After a stop the bar is destroyed, and its text setters then return without effect, so the speed is set as the model states.
- Aliasing is left out. A recorded frame is the provider's own object, which the recorder stamps in place. The model stores a stamped copy.
- Empty inputs are left out: `Playback.SkeletonPlayback.constructor` requires a non-empty imported sequence, and `Playback.SkeletonPlayback.KeyboardInput` and `Recorder.DataRecorder.KeyboardInput` require a non-empty input list. On an empty sequence the source throws when `Start` reads the last frame (SkeletonPlayback.cs:464), before it subscribes to input; on an empty input list both handlers throw when they read `inputList[0]` (SkeletonPlayback.cs:492, DataRecorder.cs:169).
- Playback.SkeletonPlayback.SetFrameFromTime: requires that looping can find a frame after frame 0 with a time above 0. Without one, the source reads past the end of a one-frame sequence, or loops forever.
- Playback.SkeletonPlayback.Interpolate: requires strictly increasing frame times. Equal neighbouring times make the source's float division produce infinity or NaN, which reals do not represent.
- Playback.SkeletonPlayback.constructor: requires every frame to carry as many translations as the first. The recording format fixes 26 translations per frame (DataRecorder.cs:14-17). Only the interpolation loop at SkeletonPlayback.cs:315-316 relies on it, to index the translations of the right and the interpolated frame by the left frame's count; the requirement is kept in the class invariant because the frames never change.
- Playback.SkeletonPlayback.Update: its contract states only what a whole tick keeps. The tick's effects are stated by `ReleaseHeldKeys`, `AdvanceClock`, `SetFrameFromTime` and `InterpolatedTick` (which covers `Interpolate` and `ReadMidi`), which it calls in the source's order.
