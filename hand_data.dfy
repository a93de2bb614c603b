/**
  Shared data model of the hand-recording system: 3D vectors over the reals,
  MIDI note events and the hand frames that a hand sequence is made of.
  Floats of the source are modelled as `real`.
 */
module HandData {

  datatype Option<T> = None | Some(value: T)

  /** A 3D vector (Unity's Vector3), components over the reals. */
  datatype Vec3 = Vec3(x: real, y: real, z: real)

  const Zero: Vec3 := Vec3(0.0, 0.0, 0.0)

  /** Unity's Vector3.up. */
  const Up: Vec3 := Vec3(0.0, 1.0, 0.0)

  function Add(a: Vec3, b: Vec3): Vec3 {
    Vec3(a.x + b.x, a.y + b.y, a.z + b.z)
  }

  function Sub(a: Vec3, b: Vec3): Vec3 {
    Vec3(a.x - b.x, a.y - b.y, a.z - b.z)
  }

  function Scale(a: Vec3, k: real): Vec3 {
    Vec3(a.x * k, a.y * k, a.z * k)
  }

  /** A rotation quaternion; only ever passed through or blended by a supplied slerp. */
  datatype Quat = Quat(x: real, y: real, z: real, w: real)

  /** The MIDI event kinds the playback distinguishes. */
  datatype NoteKind = NoteOn | NoteOff | OtherEvent

  /** A recorded MIDI event: its note number and kind. Its time is that of the owning frame. */
  datatype NoteEvent = NoteEvent(noteNumber: int, kind: NoteKind)

  /**
    One sample of hand-skeleton motion: time since the recording started, root pose
    and scale, per-bone translations, tracker quality flags and the MIDI events
    attached to this frame.
   */
  datatype HandFrame = HandFrame(
    time: real,
    rootPosition: Vec3,
    rootOrientation: Quat,
    rootScale: real,
    boneTranslations: seq<Vec3>,
    isDataValid: bool,
    isDataHighConfidence: bool,
    midiData: seq<NoteEvent>,
    hasMidi: bool)

  /** A hand sequence is its ordered list of frames. */
  type HandSequence = seq<HandFrame>

  /** Every frame of the sequence carries the same number of bone translations. */
  predicate UniformBones(frames: seq<HandFrame>, bones: nat) {
    forall i :: 0 <= i < |frames| ==> |frames[i].boneTranslations| == bones
  }

  /** Timestamps strictly increase from each frame to the next. */
  predicate StrictlyTimed(frames: seq<HandFrame>) {
    forall i :: 0 <= i < |frames| - 1 ==> frames[i].time < frames[i + 1].time
  }
}
