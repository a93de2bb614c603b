/**
  The pure part of skeleton playback: the playback states and their speeds, the
  frame-index search, the forward scan target of discrete playback, the MIDI
  collected over a frame range, the held-notes bookkeeping and the linear
  blend between two recorded frames.
 */
module PlaybackSpec {
  import opened HandData

  datatype PlaybackState = Playing | Paused | FastForward | Rewind | SlowMo

  datatype InterpolationMode = NoInterpolation | LinearInterpolation

  /** The fixed speed multiplier of each playback state. */
  function SpeedOf(s: PlaybackState): (r: real)
    ensures r < 0.0 <==> s == Rewind
    ensures r == 0.0 <==> s == Paused
    ensures r == 1.0 <==> s == Playing
    ensures r > 1.0 <==> s == FastForward
    ensures 0.0 < r < 1.0 <==> s == SlowMo
  {
    match s
    case Playing => 1.0
    case Paused => 0.0
    case Rewind => -1.0
    case FastForward => 2.0
    case SlowMo => 0.3
  }

  /** Distinct states have distinct speeds, so the speed tells the state. */
  lemma {:induction false} SpeedDeterminesState(s: PlaybackState, t: PlaybackState)
    ensures SpeedOf(s) == SpeedOf(t) <==> s == t
  {
  }

  /** The state an input code 1 to 4 selects (codes 1, 2 and 4 enter a held-key state, 3 toggles pause). */
  function StateAfterInput(input: int, s: PlaybackState): PlaybackState
    requires 1 <= input <= 4
  {
    if input == 1 then FastForward
    else if input == 2 then Rewind
    else if input == 4 then SlowMo
    else if s == Paused then Playing
    else if s == Playing then Paused
    else s
  }

  /** The pause key flips only between Playing and Paused, and pressing it twice changes nothing. */
  lemma {:induction false} PauseToggle(s: PlaybackState)
    ensures (s == Playing || s == Paused) ==> StateAfterInput(3, s) != s
    ensures (s != Playing && s != Paused) ==> StateAfterInput(3, s) == s
    ensures StateAfterInput(3, StateAfterInput(3, s)) == s
  {
  }

  /** Which of the hold-to-use keys are currently held down. */
  datatype HeldKeys = HeldKeys(decreaseSpeedKey: bool, increaseSpeedKey: bool, slowMoKey: bool)

  /**
    The state after the release check of a tick: a released rewind or fast-forward
    key restores the state saved when it was pressed; a released slow-motion key
    always returns to Playing.
   */
  function ReleasedState(s: PlaybackState, last: PlaybackState, keys: HeldKeys): PlaybackState {
    match s
    case Rewind => if keys.decreaseSpeedKey then s else last
    case FastForward => if keys.increaseSpeedKey then s else last
    case SlowMo => if keys.slowMoKey then s else Playing
    case _ => s
  }

  /** Whether the release check of a tick discards the buffered MIDI events. */
  predicate ReleaseClearsBuffer(s: PlaybackState, keys: HeldKeys) {
    (s == Rewind && !keys.decreaseSpeedKey) || (s == FastForward && !keys.increaseSpeedKey)
  }

  /**
    Holding a speed key from Playing or Paused and releasing it comes back to
    where it started, except slow motion, which always comes back to Playing.
   */
  lemma {:induction false} HoldAndReleaseRestores(s: PlaybackState, input: int)
    requires s == Playing || s == Paused
    requires input == 1 || input == 2 || input == 4
    ensures var held := StateAfterInput(input, s);
            ReleasedState(held, s, HeldKeys(false, false, false)) == (if input == 4 then Playing else s)
  {
  }

  /**
    Pressing the fast-forward key a second time while fast-forwarding saves
    FastForward as the state to restore, so releasing it no longer leaves fast-forward.
   */
  lemma {:induction false} SecondPressKeepsFastForward(s: PlaybackState)
    ensures var first := StateAfterInput(1, s);
            var second := StateAfterInput(1, first);
            ReleasedState(second, first, HeldKeys(false, false, false)) == FastForward
  {
  }

  function Max(a: int, b: int): int {
    if a < b then b else a
  }

  /**
    The frame-index search as the source writes it. The midpoint is
    `start + (stop - start / 2)`; with `start == 0` that is `stop` itself, so the
    search walks `stop` down one frame at a time until `frames[stop].time <= time`
    (answer `stop`) or the window is narrower than 3 (answer `start`, i.e. 0).
    The only starts that occur are 0 and, after a step to the right, `stop`
    itself; any other start with a window of 3 or more would index past `stop`.
   */
  function BinarySearchSequence(frames: seq<HandFrame>, time: real, start: int, stop: int): (k: int)
    requires stop - start >= 3 ==> start == 0 && stop < |frames|
    ensures stop - start < 3 ==> k == start
    ensures stop - start >= 3 ==> 0 <= k <= stop
    ensures stop - start >= 3 ==> k == 0 || (3 <= k && frames[k].time <= time)
    ensures stop - start >= 3 ==> forall j :: Max(k, 2) < j <= stop ==> frames[j].time > time
    decreases stop - start
  {
    if stop - start < 3 then start
    else
      // start is 0 here, so C#'s truncating division and Dafny's agree
      var middleIndex := start + (stop - start / 2);
      var middleTime := frames[middleIndex].time;
      if time < middleTime then BinarySearchSequence(frames, time, start, middleIndex - 1)
      else BinarySearchSequence(frames, time, middleIndex, stop)
  }

  /** The search as the playback calls it: over the whole sequence, from index 0. */
  function FrameAt(frames: seq<HandFrame>, time: real): (k: int)
    requires |frames| > 0
    ensures 0 <= k < |frames|
    ensures k == 0 || (3 <= k && frames[k].time <= time)
    ensures forall j :: Max(k, 2) < j < |frames| ==> frames[j].time > time
  {
    BinarySearchSequence(frames, time, 0, |frames| - 1)
  }

  /**
    The result is the largest index in [3, |frames|) whose time is at or before the
    query, and 0 when there is none (so indices 1 and 2 are never answered).
   */
  lemma {:induction false} FrameAtIsLastFromThree(frames: seq<HandFrame>, time: real, k: int)
    requires |frames| > 0
    requires 3 <= k < |frames| && frames[k].time <= time
    ensures k <= FrameAt(frames, time)
    ensures FrameAt(frames, time) >= 3
  {
  }

  /** The search is monotone in the query time, whatever the order of the frame times. */
  lemma {:induction false} FrameAtMonotone(frames: seq<HandFrame>, t1: real, t2: real)
    requires |frames| > 0
    requires t1 <= t2
    ensures FrameAt(frames, t1) <= FrameAt(frames, t2)
  {
  }

  /**
    On four frames at times 0, 1, 2 and 3 the search answers 0 for time 1.5,
    although frame 1 is the last frame at or before it: the search is not an
    exact bracketing below index 3.
   */
  lemma {:induction false} FrameAtIsCoarseBelowThree()
    ensures var f := HandFrame(0.0, Zero, Quat(0.0, 0.0, 0.0, 1.0), 1.0, [], true, true, [], false);
            var frames := [f.(time := 0.0), f.(time := 1.0), f.(time := 2.0), f.(time := 3.0)];
            FrameAt(frames, 1.5) == 0 && frames[1].time <= 1.5 < frames[2].time
  {
  }

  /**
    The index at which the forward scan of discrete playback stops: the first
    index after `from` whose time is past `t`, or `|frames|` when there is none.
   */
  function NextAfter(frames: seq<HandFrame>, from: int, t: real): (n: int)
    requires 0 <= from < |frames|
    ensures from < n <= |frames|
    ensures n < |frames| ==> frames[n].time > t
    ensures forall j :: from < j < n ==> frames[j].time <= t
    decreases |frames| - from
  {
    if from + 1 >= |frames| then |frames|
    else if t < frames[from + 1].time then from + 1
    else NextAfter(frames, from + 1, t)
  }

  /** The three properties of NextAfter determine it. */
  lemma {:induction false} NextAfterUnique(frames: seq<HandFrame>, from: int, t: real, n: int)
    requires 0 <= from < |frames|
    requires from < n <= |frames|
    requires n < |frames| ==> frames[n].time > t
    requires forall j :: from < j < n ==> frames[j].time <= t
    ensures NextAfter(frames, from, t) == n
  {
  }

  /** The MIDI events of frames lo .. hi-1, concatenated in index order. */
  function MidiOf(frames: seq<HandFrame>, lo: int, hi: int): seq<NoteEvent>
    requires 0 <= lo <= hi <= |frames|
    decreases hi - lo
  {
    if lo == hi then [] else MidiOf(frames, lo, hi - 1) + frames[hi - 1].midiData
  }

  /** Collecting two adjacent ranges is collecting their union. */
  lemma {:induction false} MidiOfSplit(frames: seq<HandFrame>, lo: int, mid: int, hi: int)
    requires 0 <= lo <= mid <= hi <= |frames|
    ensures MidiOf(frames, lo, mid) + MidiOf(frames, mid, hi) == MidiOf(frames, lo, hi)
    decreases hi - mid
  {
    if mid < hi {
      MidiOfSplit(frames, lo, mid, hi - 1);
    }
  }

  /** Every event of every frame in the range is collected. */
  lemma {:induction false} MidiOfContains(frames: seq<HandFrame>, lo: int, hi: int, k: int, e: NoteEvent)
    requires 0 <= lo <= k < hi <= |frames|
    requires e in frames[k].midiData
    ensures e in MidiOf(frames, lo, hi)
    decreases hi - lo
  {
    if k < hi - 1 {
      MidiOfContains(frames, lo, hi - 1, k, e);
    }
  }

  /**
    The MIDI of the frames between the search results of the two times,
    both ends included; nothing when the first index is past the second.
   */
  function RangeMidi(frames: seq<HandFrame>, startTime: real, stopTime: real): seq<NoteEvent>
    requires |frames| > 0
  {
    var start := FrameAt(frames, startTime);
    var stop := FrameAt(frames, stopTime);
    if start <= stop then MidiOf(frames, start, stop + 1) else []
  }

  /** A range read with its ends in order covers the frames between the two search results. */
  lemma {:induction false} RangeMidiForward(frames: seq<HandFrame>, a: real, b: real)
    requires |frames| > 0 && a <= b
    ensures FrameAt(frames, a) <= FrameAt(frames, b)
    ensures RangeMidi(frames, a, b) == MidiOf(frames, FrameAt(frames, a), FrameAt(frames, b) + 1)
  {
    FrameAtMonotone(frames, a, b);
  }

  /** A range read in the forward direction always covers the frame found for its start. */
  lemma {:induction false} ForwardRangeHoldsStartFrame(frames: seq<HandFrame>, a: real, b: real, e: NoteEvent)
    requires |frames| > 0 && a <= b
    requires e in frames[FrameAt(frames, a)].midiData
    ensures e in RangeMidi(frames, a, b)
  {
    RangeMidiForward(frames, a, b);
    MidiOfContains(frames, FrameAt(frames, a), FrameAt(frames, b) + 1, FrameAt(frames, a), e);
  }

  /** The events of one frame, as a range. */
  lemma {:induction false} MidiOfOne(frames: seq<HandFrame>, k: int)
    requires 0 <= k < |frames|
    ensures MidiOf(frames, k, k + 1) == frames[k].midiData
  {
    assert MidiOf(frames, k, k) == [];
  }

  /** Reading [sa, sb] and then [sb, sc] by frame index collects frame sb twice. */
  lemma {:induction false} MidiOfOverlap(frames: seq<HandFrame>, sa: int, sb: int, sc: int)
    requires 0 <= sa <= sb <= sc < |frames|
    ensures MidiOf(frames, sa, sb + 1) + MidiOf(frames, sb, sc + 1)
            == MidiOf(frames, sa, sb + 1) + frames[sb].midiData + MidiOf(frames, sb + 1, sc + 1)
    ensures MidiOf(frames, sa, sc + 1) == MidiOf(frames, sa, sb + 1) + MidiOf(frames, sb + 1, sc + 1)
  {
    var front, boundary, back := MidiOf(frames, sa, sb + 1), frames[sb].midiData, MidiOf(frames, sb + 1, sc + 1);
    MidiOfOne(frames, sb);
    MidiOfSplit(frames, sb, sb + 1, sc + 1);
    assert MidiOf(frames, sb, sc + 1) == boundary + back;
    assert front + (boundary + back) == front + boundary + back;
    MidiOfSplit(frames, sa, sb + 1, sc + 1);
  }

  /**
    Two consecutive forward range reads [a, b] and [b, c] both include the frame
    found for b: the first ends with its events and the second starts with them,
    while a single read of [a, c] holds them once, between the same two parts.
   */
  lemma {:induction false} ConsecutiveRangesRepeatBoundaryFrame(frames: seq<HandFrame>, a: real, b: real, c: real)
    requires |frames| > 0 && a <= b <= c
    ensures var sa, sb := FrameAt(frames, a), FrameAt(frames, b);
            RangeMidi(frames, a, b) == MidiOf(frames, sa, sb) + frames[sb].midiData
    ensures var sb, sc := FrameAt(frames, b), FrameAt(frames, c);
            RangeMidi(frames, b, c) == frames[sb].midiData + MidiOf(frames, sb + 1, sc + 1)
    ensures var sa, sb, sc := FrameAt(frames, a), FrameAt(frames, b), FrameAt(frames, c);
            RangeMidi(frames, a, c) == MidiOf(frames, sa, sb) + frames[sb].midiData + MidiOf(frames, sb + 1, sc + 1)
  {
    RangeEndsWithStop(frames, a, b);
    RangeStartsWithStart(frames, b, c);
    RangeThrough(frames, a, b, c);
  }

  /** A forward range read ends with the events of the frame found for its stop time. */
  lemma {:induction false} RangeEndsWithStop(frames: seq<HandFrame>, a: real, b: real)
    requires |frames| > 0 && a <= b
    ensures var sa, sb := FrameAt(frames, a), FrameAt(frames, b);
            RangeMidi(frames, a, b) == MidiOf(frames, sa, sb) + frames[sb].midiData
  {
    RangeMidiForward(frames, a, b);
  }

  /** A forward range read starts with the events of the frame found for its start time. */
  lemma {:induction false} RangeStartsWithStart(frames: seq<HandFrame>, b: real, c: real)
    requires |frames| > 0 && b <= c
    ensures var sb, sc := FrameAt(frames, b), FrameAt(frames, c);
            RangeMidi(frames, b, c) == frames[sb].midiData + MidiOf(frames, sb + 1, sc + 1)
  {
    RangeMidiForward(frames, b, c);
    MidiOfHead(frames, FrameAt(frames, b), FrameAt(frames, c) + 1);
  }

  /** A non-empty collection starts with its first frame's events. */
  lemma {:induction false} MidiOfHead(frames: seq<HandFrame>, lo: int, hi: int)
    requires 0 <= lo < hi <= |frames|
    ensures MidiOf(frames, lo, hi) == frames[lo].midiData + MidiOf(frames, lo + 1, hi)
  {
    MidiOfOne(frames, lo);
    MidiOfSplit(frames, lo, lo + 1, hi);
  }

  /** A forward range read over [a, c] passes through the frame found for any b between. */
  lemma {:induction false} RangeThrough(frames: seq<HandFrame>, a: real, b: real, c: real)
    requires |frames| > 0 && a <= b <= c
    ensures var sa, sb, sc := FrameAt(frames, a), FrameAt(frames, b), FrameAt(frames, c);
            RangeMidi(frames, a, c) == MidiOf(frames, sa, sb) + frames[sb].midiData + MidiOf(frames, sb + 1, sc + 1)
  {
    FrameAtMonotone(frames, a, b);
    FrameAtMonotone(frames, b, c);
    RangeMidiForward(frames, a, c);
    MidiOfThrough(frames, FrameAt(frames, a), FrameAt(frames, b), FrameAt(frames, c) + 1);
  }

  /** A collection splits around any frame in it: the frames before, that frame's events, the frames after. */
  lemma {:induction false} MidiOfThrough(frames: seq<HandFrame>, lo: int, mid: int, hi: int)
    requires 0 <= lo <= mid < hi <= |frames|
    ensures MidiOf(frames, lo, hi) == MidiOf(frames, lo, mid) + frames[mid].midiData + MidiOf(frames, mid + 1, hi)
  {
    MidiOfSplit(frames, lo, mid + 1, hi);
    assert MidiOf(frames, lo, mid + 1) == MidiOf(frames, lo, mid) + frames[mid].midiData;
  }

  /** The effect of one event on the set of held notes. */
  function ApplyEvent(notes: set<int>, e: NoteEvent): set<int> {
    match e.kind
    case NoteOn => notes + {e.noteNumber}
    case NoteOff => notes - {e.noteNumber}
    case OtherEvent => notes
  }

  /** The held notes after the events, applied in order. */
  function ApplyEvents(notes: set<int>, es: seq<NoteEvent>): set<int>
    decreases |es|
  {
    if es == [] then notes else ApplyEvent(ApplyEvents(notes, es[..|es| - 1]), es[|es| - 1])
  }

  /** The events that are raised to note listeners: the note-on and note-off ones, in order. */
  function Raised(es: seq<NoteEvent>): seq<NoteEvent>
    decreases |es|
  {
    if es == [] then []
    else Raised(es[..|es| - 1]) + (if es[|es| - 1].kind == OtherEvent then [] else [es[|es| - 1]])
  }

  lemma {:induction false} ApplyEventsAppend(notes: set<int>, a: seq<NoteEvent>, b: seq<NoteEvent>)
    ensures ApplyEvents(notes, a + b) == ApplyEvents(ApplyEvents(notes, a), b)
    decreases |b|
  {
    if b != [] {
      var b' := b[..|b| - 1];
      assert (a + b)[..|a + b| - 1] == a + b';
      ApplyEventsAppend(notes, a, b');
    } else {
      assert a + b == a;
    }
  }

  lemma {:induction false} RaisedAppend(a: seq<NoteEvent>, b: seq<NoteEvent>)
    ensures Raised(a + b) == Raised(a) + Raised(b)
    decreases |b|
  {
    if b != [] {
      var b' := b[..|b| - 1];
      assert (a + b)[..|a + b| - 1] == a + b';
      RaisedAppend(a, b');
    } else {
      assert a + b == a;
    }
  }

  /**
    Going from (buffer0, notes0, updates0) to (buffer, notes, updates) is the effect of
    emitting `events`: they are appended to the buffer, applied to the held notes and
    the note events among them are raised.
   */
  predicate EmittedFrom(buffer: seq<NoteEvent>, notes: set<int>, updates: seq<NoteEvent>,
                        buffer0: seq<NoteEvent>, notes0: set<int>, updates0: seq<NoteEvent>,
                        events: seq<NoteEvent>)
  {
    && buffer == buffer0 + events
    && notes == ApplyEvents(notes0, events)
    && updates == updates0 + Raised(events)
  }

  /** Emitting one batch after another is emitting their concatenation. */
  lemma {:induction false} EmittedChain(b0: seq<NoteEvent>, n0: set<int>, u0: seq<NoteEvent>,
                     b1: seq<NoteEvent>, n1: set<int>, u1: seq<NoteEvent>,
                     b2: seq<NoteEvent>, n2: set<int>, u2: seq<NoteEvent>,
                     e1: seq<NoteEvent>, e2: seq<NoteEvent>)
    requires EmittedFrom(b1, n1, u1, b0, n0, u0, e1)
    requires EmittedFrom(b2, n2, u2, b1, n1, u1, e2)
    ensures EmittedFrom(b2, n2, u2, b0, n0, u0, e1 + e2)
  {
    ApplyEventsAppend(n0, e1, e2);
    RaisedAppend(e1, e2);
  }

  /** The raised events are exactly the note-on and note-off events of the input. */
  lemma {:induction false} RaisedMembers(es: seq<NoteEvent>, e: NoteEvent)
    ensures e in Raised(es) <==> e in es && e.kind != OtherEvent
    decreases |es|
  {
    if es != [] {
      var es' := es[..|es| - 1];
      assert es == es' + [es[|es| - 1]];
      RaisedMembers(es', e);
    }
  }

  /** The last note-on or note-off event for note n among the events, if any. */
  function LastOnOff(es: seq<NoteEvent>, n: int): Option<NoteKind>
    decreases |es|
  {
    if es == [] then None
    else if es[|es| - 1].noteNumber == n && es[|es| - 1].kind != OtherEvent then Some(es[|es| - 1].kind)
    else LastOnOff(es[..|es| - 1], n)
  }

  /**
    A note is held after the events exactly when its last on/off event is a
    note-on, or when it has none and was held before.
   */
  lemma {:induction false} HeldIffLastIsNoteOn(notes: set<int>, es: seq<NoteEvent>, n: int)
    ensures n in ApplyEvents(notes, es) <==>
              match LastOnOff(es, n)
              case None => n in notes
              case Some(k) => k == NoteOn
    decreases |es|
  {
    if es != [] {
      HeldIffLastIsNoteOn(notes, es[..|es| - 1], n);
    }
  }

  /** A pressed and released note leaves the held notes as they were when it was not held. */
  lemma {:induction false} PressReleaseRestores(notes: set<int>, n: int)
    requires n !in notes
    ensures ApplyEvents(notes, [NoteEvent(n, NoteOn), NoteEvent(n, NoteOff)]) == notes
  {
    var es := [NoteEvent(n, NoteOn), NoteEvent(n, NoteOff)];
    assert es[..1][..0] == [];
    assert ApplyEvents(notes, es[..1]) == notes + {n};
    assert ApplyEvents(notes, es) == (notes + {n}) - {n};
  }

  /**
    The linear blend the source uses, left * (1 - t) + right * t: the left value at 0,
    the right one at 1, and between them for factors in [0, 1].
   */
  function Lerp(left: real, right: real, t: real): (r: real)
    ensures t == 0.0 ==> r == left
    ensures t == 1.0 ==> r == right
    ensures 0.0 <= t <= 1.0 && left <= right ==> left <= r <= right
    ensures 0.0 <= t <= 1.0 && right <= left ==> right <= r <= left
  {
    if 0.0 <= t <= 1.0 then
      BlendBetween(left, right, t);
      left * (1.0 - t) + right * t
    else left * (1.0 - t) + right * t
  }

  lemma {:induction false} BlendBetween(left: real, right: real, t: real)
    requires 0.0 <= t <= 1.0
    ensures left <= right ==> left <= left * (1.0 - t) + right * t <= right
    ensures right <= left ==> right <= left * (1.0 - t) + right * t <= left
  {
    assert left * (1.0 - t) + right * t == left + (right - left) * t;
    NonNegativeProduct(right - left, t);
    NonNegativeProduct(right - left, 1.0 - t);
    NonNegativeProduct(left - right, t);
    NonNegativeProduct(left - right, 1.0 - t);
  }

  lemma {:induction false} NonNegativeProduct(a: real, b: real)
    ensures 0.0 <= a && 0.0 <= b ==> 0.0 <= a * b
  {}

  /** Component-wise blend of two vectors. */
  function LerpVec(left: Vec3, right: Vec3, t: real): (r: Vec3)
    ensures t == 0.0 ==> r == left
    ensures t == 1.0 ==> r == right
    ensures left == right ==> r == left
  {
    Vec3(Lerp(left.x, right.x, t), Lerp(left.y, right.y, t), Lerp(left.z, right.z, t))
  }

  /** The blend factor for a query time between two frame times. */
  function Factor(time: real, leftTime: real, rightTime: real): real
    requires leftTime != rightTime
  {
    (time - leftTime) / (rightTime - leftTime)
  }

  /** The factor places the query time: blending the two frame times gives the query back. */
  lemma {:induction false} LerpFactorRecoversTime(time: real, leftTime: real, rightTime: real)
    requires leftTime != rightTime
    ensures Lerp(leftTime, rightTime, Factor(time, leftTime, rightTime)) == time
  {
    var d := rightTime - leftTime;
    var f := Factor(time, leftTime, rightTime);
    assert f * d == time - leftTime;
    calc {
      Lerp(leftTime, rightTime, f);
      leftTime + f * d;
      time;
    }
  }

  /**
    The bone translations of the target frame with the first |left| entries
    replaced by the blend of the two frames' translations.
   */
  function LerpBones(target: seq<Vec3>, left: seq<Vec3>, right: seq<Vec3>, t: real): (r: seq<Vec3>)
    requires |left| <= |target| && |left| <= |right|
    ensures |r| == |target|
    ensures forall i :: 0 <= i < |left| ==> r[i] == LerpVec(left[i], right[i], t)
    ensures forall i :: |left| <= i < |target| ==> r[i] == target[i]
  {
    seq(|target|, i requires 0 <= i < |target| => if i < |left| then LerpVec(left[i], right[i], t) else target[i])
  }

  /**
    The frame written by a linear interpolation step between `left` and `right`
    at `time`: the validity flags become the conjunction of both endpoints'; only
    when both flags hold are time, root pose, root scale and translations blended
    (the orientation by the supplied spherical blend). MIDI data are not touched.
   */
  function LerpFrame(frame: HandFrame, left: HandFrame, right: HandFrame, time: real,
                     slerp: (Quat, Quat, real) -> Quat): (r: HandFrame)
    requires left.time != right.time
    requires |left.boneTranslations| <= |frame.boneTranslations|
    requires |left.boneTranslations| <= |right.boneTranslations|
    ensures r.isDataValid == (left.isDataValid && right.isDataValid)
    ensures r.isDataHighConfidence == (left.isDataHighConfidence && right.isDataHighConfidence)
    ensures !(r.isDataValid && r.isDataHighConfidence) ==>
              r == frame.(isDataValid := r.isDataValid, isDataHighConfidence := r.isDataHighConfidence)
    ensures r.isDataValid && r.isDataHighConfidence ==> r.time == time
    ensures r.midiData == frame.midiData && r.hasMidi == frame.hasMidi
    ensures |r.boneTranslations| == |frame.boneTranslations|
  {
    var factor := Factor(time, left.time, right.time);
    var flagged := frame.(isDataValid := left.isDataValid && right.isDataValid,
                          isDataHighConfidence := left.isDataHighConfidence && right.isDataHighConfidence);
    if !flagged.isDataValid || !flagged.isDataHighConfidence then flagged
    else
      LerpFactorRecoversTime(time, left.time, right.time);
      flagged.(time := Lerp(left.time, right.time, factor),
               rootPosition := LerpVec(left.rootPosition, right.rootPosition, factor),
               rootOrientation := slerp(left.rootOrientation, right.rootOrientation, factor),
               rootScale := Lerp(left.rootScale, right.rootScale, factor),
               boneTranslations := LerpBones(frame.boneTranslations, left.boneTranslations,
                                             right.boneTranslations, factor))
  }

  /** Interpolating at the left frame's own time reproduces the left frame's pose. */
  lemma {:induction false} InterpolateAtLeftTime(frame: HandFrame, left: HandFrame, right: HandFrame,
                              slerp: (Quat, Quat, real) -> Quat)
    requires left.time != right.time
    requires |left.boneTranslations| == |frame.boneTranslations| <= |right.boneTranslations|
    requires left.isDataValid && right.isDataValid
    requires left.isDataHighConfidence && right.isDataHighConfidence
    ensures var r := LerpFrame(frame, left, right, left.time, slerp);
            r.rootPosition == left.rootPosition && r.rootScale == left.rootScale
            && r.boneTranslations == left.boneTranslations
            && r.rootOrientation == slerp(left.rootOrientation, right.rootOrientation, 0.0)
  {
    assert Factor(left.time, left.time, right.time) == 0.0;
    var r := LerpFrame(frame, left, right, left.time, slerp);
    assert r.boneTranslations == left.boneTranslations;
  }

  /** Interpolating at the right frame's own time reproduces the right frame's pose. */
  lemma {:induction false} InterpolateAtRightTime(frame: HandFrame, left: HandFrame, right: HandFrame,
                               slerp: (Quat, Quat, real) -> Quat)
    requires left.time != right.time
    requires |right.boneTranslations| == |left.boneTranslations| == |frame.boneTranslations|
    requires left.isDataValid && right.isDataValid
    requires left.isDataHighConfidence && right.isDataHighConfidence
    ensures var r := LerpFrame(frame, left, right, right.time, slerp);
            r.rootPosition == right.rootPosition && r.rootScale == right.rootScale
            && r.boneTranslations == right.boneTranslations
            && r.rootOrientation == slerp(left.rootOrientation, right.rootOrientation, 1.0)
  {
    var d := right.time - left.time;
    assert d / d == 1.0;
    assert Factor(right.time, left.time, right.time) == 1.0;
    var r := LerpFrame(frame, left, right, right.time, slerp);
    assert r.boneTranslations == right.boneTranslations;
  }
}
