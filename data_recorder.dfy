/**
  Recording bookkeeping: a toggle between recording and idle over a growing list
  of recorded hand sequences, one frame appended per tick while recording, and
  the numbered file names the recordings are exported under. Engine time, the
  pressed keys, the tracked frame and the MIDI provider's buffer are parameters.
 */
module Recorder {
  import opened HandData

  /** The decimal digit character of 0 .. 9. */
  function DigitChar(d: int): char
    requires 0 <= d < 10
  {
    "0123456789"[d]
  }

  /** The value of a digit character ('0' .. '9'); other characters read as 0. */
  function DigitValue(c: char): int {
    if '0' <= c <= '9' then c as int - '0' as int else 0
  }

  /** C#'s decimal rendering of a non-negative int. */
  function NatToString(n: nat): (s: string)
    ensures |s| > 0
    ensures forall i :: 0 <= i < |s| ==> '0' <= s[i] <= '9'
    decreases n
  {
    if n < 10 then [DigitChar(n)] else NatToString(n / 10) + [DigitChar(n % 10)]
  }

  /** Reads a string of decimal digits back. */
  function ParseNat(s: string): nat
    decreases |s|
  {
    if |s| == 0 then 0 else ParseNat(s[..|s| - 1]) * 10 + DigitValue(s[|s| - 1])
  }

  lemma {:induction false} DigitRoundTrip(d: int)
    requires 0 <= d < 10
    ensures DigitValue(DigitChar(d)) == d
  {
  }

  /** Rendering then reading a number gives it back. */
  lemma {:induction false} NatToStringRoundTrip(n: nat)
    ensures ParseNat(NatToString(n)) == n
    decreases n
  {
    var s := NatToString(n);
    if n < 10 {
      DigitRoundTrip(n);
      assert s[..0] == [];
    } else {
      NatToStringRoundTrip(n / 10);
      DigitRoundTrip(n % 10);
      assert s[..|s| - 1] == NatToString(n / 10);
    }
  }

  /** Different numbers render differently. */
  lemma {:induction false} NatToStringInjective(m: nat, n: nat)
    requires NatToString(m) == NatToString(n)
    ensures m == n
  {
    NatToStringRoundTrip(m);
    NatToStringRoundTrip(n);
  }

  /** The file name of the nr-th recording: the base name with the number in parentheses. */
  function ExportName(fileName: string, nr: nat): (s: string)
    ensures |s| == |fileName| + |NatToString(nr)| + 2
    ensures s[..|fileName|] == fileName
    ensures s[|fileName|] == '(' && s[|s| - 1] == ')'
    ensures s[|fileName| + 1 .. |s| - 1] == NatToString(nr)
  {
    fileName + "(" + NatToString(nr) + ")"
  }

  /** No two recordings are exported under the same name. */
  lemma {:induction false} ExportNamesDistinct(fileName: string, m: nat, n: nat)
    requires m != n
    ensures ExportName(fileName, m) != ExportName(fileName, n)
  {
    if ExportName(fileName, m) == ExportName(fileName, n) {
      NatToStringInjective(m, n);
    }
  }

  /** A sequence handed to the exporter under a file name. */
  datatype ExportedFile = ExportedFile(name: string, sequence: HandSequence)

  class DataRecorder {
    var isRecording: bool
    var currentRecording: int
    var hasRecording: bool
    var recordings: seq<HandSequence>
    var recordMidi: bool
    /** Engine time at which the last recording started. */
    var startTime: real
    const fileName: string

    /** The current-recording index points at the open recording, or one past the last. */
    ghost predicate Valid()
      reads this
    {
      && 0 <= currentRecording
      && currentRecording == (if isRecording then |recordings| - 1 else |recordings|)
      && (hasRecording <==> |recordings| > 0)
    }

    /** Start-up: nothing recorded; MIDI recording is switched off when no MIDI provider is found. */
    constructor (recordMidi: bool, fileName: string, midiProviderFound: bool)
      ensures Valid()
      ensures !isRecording && currentRecording == 0 && recordings == [] && !hasRecording
      ensures this.recordMidi == (recordMidi && midiProviderFound)
      ensures this.fileName == fileName
    {
      isRecording := false;
      currentRecording := 0;
      hasRecording := false;
      recordings := [];
      startTime := 0.0;
      this.fileName := fileName;
      this.recordMidi := recordMidi;
      if recordMidi && !midiProviderFound {
        this.recordMidi := false;
      }
    }

    /** Starts a new, empty recording, or closes the open one. */
    method ToggleRecording(now: real)
      requires Valid()
      modifies this`isRecording, this`currentRecording, this`hasRecording, this`recordings, this`startTime
      ensures Valid()
      ensures isRecording == !old(isRecording)
      ensures !old(isRecording) ==>
                recordings == old(recordings) + [[]] && hasRecording && startTime == now
                && currentRecording == old(currentRecording)
      ensures old(isRecording) ==>
                recordings == old(recordings) && currentRecording == old(currentRecording) + 1
                && hasRecording == old(hasRecording) && startTime == old(startTime)
    {
      if !isRecording {
        startTime := now;
        hasRecording := true;
        recordings := recordings + [[]];
      } else {
        currentRecording := currentRecording + 1;
      }
      isRecording := !isRecording;
    }

    /** Input code 0 toggles recording; every other code is ignored. */
    method KeyboardInput(inputList: seq<int>, now: real)
      requires Valid() && |inputList| > 0
      modifies this`isRecording, this`currentRecording, this`hasRecording, this`recordings, this`startTime
      ensures Valid()
      ensures inputList[0] == 0 ==> isRecording == !old(isRecording)
      ensures inputList[0] == 0 && !old(isRecording) ==>
                recordings == old(recordings) + [[]] && hasRecording && startTime == now
                && currentRecording == old(currentRecording)
      ensures inputList[0] == 0 && old(isRecording) ==>
                recordings == old(recordings) && currentRecording == old(currentRecording) + 1
                && hasRecording == old(hasRecording) && startTime == old(startTime)
      ensures inputList[0] != 0 ==>
                isRecording == old(isRecording) && currentRecording == old(currentRecording)
                && hasRecording == old(hasRecording) && recordings == old(recordings)
                && startTime == old(startTime)
    {
      var input := inputList[0];
      if input == 0 {
        ToggleRecording(now);
      }
    }

    /** The frame as stored: stamped with the time since the recording started, carrying its MIDI. */
    function Stamped(frame: HandFrame, now: real, providerMidi: seq<NoteEvent>): (r: HandFrame)
      reads this
      ensures r.time == now - startTime && r.hasMidi == recordMidi
      ensures r.midiData == (if recordMidi then providerMidi else frame.midiData)
      ensures r.(time := frame.time, hasMidi := frame.hasMidi, midiData := frame.midiData) == frame
    {
      frame.(time := now - startTime,
             hasMidi := recordMidi,
             midiData := if recordMidi then providerMidi else frame.midiData)
    }

    /** Appends the tracked frame to the open recording; `providerMidi` is what the MIDI provider hands out. */
    method RecordCurrentFrame(now: real, frame: HandFrame, providerMidi: seq<NoteEvent>)
      requires Valid() && isRecording
      modifies this`recordings
      ensures Valid()
      ensures |recordings| == |old(recordings)|
      ensures recordings[currentRecording] == old(recordings)[currentRecording] + [Stamped(frame, now, providerMidi)]
      ensures forall i :: 0 <= i < |recordings| && i != currentRecording ==> recordings[i] == old(recordings)[i]
      ensures recordings[currentRecording][|recordings[currentRecording]| - 1].time == now - startTime
    {
      var data := frame.(time := now - startTime, hasMidi := recordMidi);
      if recordMidi {
        data := data.(midiData := providerMidi);
      }
      recordings := recordings[currentRecording := recordings[currentRecording] + [data]];
    }

    /** The recordings with their export names, numbered from 0 in list order. */
    method ExportFiles() returns (files: seq<ExportedFile>)
      ensures |files| == |recordings|
      ensures forall i :: 0 <= i < |files| ==> files[i] == ExportedFile(ExportName(fileName, i), recordings[i])
      ensures forall i, j :: 0 <= i < j < |files| ==> files[i].name != files[j].name
    {
      files := [];
      var nr := 0;
      while nr < |recordings|
        invariant 0 <= nr <= |recordings| && |files| == nr
        invariant forall i :: 0 <= i < nr ==> files[i] == ExportedFile(ExportName(fileName, i), recordings[i])
      {
        var filename := fileName + "(" + NatToString(nr) + ")";
        files := files + [ExportedFile(filename, recordings[nr])];
        nr := nr + 1;
      }
      forall i, j | 0 <= i < j < |files|
        ensures files[i].name != files[j].name
      {
        ExportNamesDistinct(fileName, i, j);
      }
    }

    /**
      One engine tick: the R key toggles, an open recording takes the tracked frame,
      and the S key exports when anything was recorded.
     */
    method Update(now: real, rKeyDown: bool, sKeyDown: bool, frame: HandFrame, providerMidi: seq<NoteEvent>)
      returns (exported: Option<seq<ExportedFile>>)
      requires Valid()
      modifies this`isRecording, this`currentRecording, this`hasRecording, this`recordings, this`startTime
      ensures Valid()
      ensures isRecording == (old(isRecording) != rKeyDown)
      ensures exported.Some? <==> sKeyDown && hasRecording
      ensures exported.Some? ==> |exported.value| == |recordings|
      ensures exported.Some? ==>
                forall i :: 0 <= i < |recordings| ==>
                  exported.value[i] == ExportedFile(ExportName(fileName, i), recordings[i])
      ensures currentRecording == if rKeyDown && old(isRecording) then old(currentRecording) + 1
                                  else old(currentRecording)
      ensures startTime == if rKeyDown && !old(isRecording) then now else old(startTime)
      ensures hasRecording == (old(hasRecording) || (rKeyDown && !old(isRecording)))
      // the list after the toggle, before the frame goes in
      ensures var toggled := if rKeyDown && !old(isRecording) then old(recordings) + [[]] else old(recordings);
              && |recordings| == |toggled|
              && (isRecording ==>
                    recordings == toggled[currentRecording := toggled[currentRecording] + [Stamped(frame, now, providerMidi)]])
              && (!isRecording ==> recordings == toggled)
    {
      if rKeyDown {
        ToggleRecording(now);
      }
      ghost var toggled := recordings;
      assert toggled == if rKeyDown && !old(isRecording) then old(recordings) + [[]] else old(recordings);
      if isRecording {
        RecordCurrentFrame(now, frame, providerMidi);
        assert recordings == toggled[currentRecording := toggled[currentRecording] + [Stamped(frame, now, providerMidi)]];
      }
      exported := None;
      if sKeyDown {
        if hasRecording {
          var files := ExportFiles();
          exported := Some(files);
        }
      }
    }
  }
}
