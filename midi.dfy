/** The decoded MIDI data the core consumes, and the summary built from it.
    Decoding the file itself is done by a MIDI library outside this model;
    a file arrives here already split into tracks of notes, or as a failure. */
module Midi {
  import opened Basics

  /** One note as the decoder reports it: name ("C4"), duration and start
      time in seconds, velocity in [0, 1] and the MIDI pitch number. */
  datatype DecodedNote = DecodedNote(name: string, duration: real, time: real, velocity: real, midi: int)

  /** One note of a MidiAnalysis: the decoder's note without its pitch number. */
  datatype Note = Note(name: string, duration: real, time: real, velocity: real)

  /** What a loaded file yields: its note count, total length in seconds,
      mean pitch number and its notes. */
  datatype MidiAnalysis = MidiAnalysis(noteCount: int, duration: real, averagePitch: real, notes: seq<Note>)

  /** The decoder's verdict on a file's bytes. `message` is None when the
      thrown value is not an Error object. */
  datatype Decoded =
    | Tracks(tracks: seq<seq<DecodedNote>>, duration: real)
    | DecodeFailed(message: Option<string>)

  /** A file chosen in the file picker: its name and what decoding it gives. */
  datatype MidiFile = MidiFile(name: string, content: Decoded)

  function ToNote(n: DecodedNote): Note {
    Note(n.name, n.duration, n.time, n.velocity)
  }

  /** The notes of all tracks, track after track (Array.prototype.flatMap). */
  function Flatten(tracks: seq<seq<DecodedNote>>): seq<DecodedNote>
    decreases |tracks|
  {
    if |tracks| == 0 then [] else Flatten(tracks[..|tracks| - 1]) + tracks[|tracks| - 1]
  }

  /** Each decoded note with its pitch number dropped, in order. */
  function Strip(ns: seq<DecodedNote>): seq<Note>
    decreases |ns|
  {
    if |ns| == 0 then [] else Strip(ns[..|ns| - 1]) + [ToNote(ns[|ns| - 1])]
  }

  /** The sum of the pitch numbers. */
  function SumPitch(ns: seq<DecodedNote>): int
    decreases |ns|
  {
    if |ns| == 0 then 0 else SumPitch(ns[..|ns| - 1]) + ns[|ns| - 1].midi
  }

  /** Mean pitch number of the notes, 0 for no notes. */
  function AveragePitch(ns: seq<DecodedNote>): real {
    if |ns| > 0 then SumPitch(ns) as real / |ns| as real else 0.0
  }

  predicate SortedByTime(ns: seq<Note>) {
    forall i, j :: 0 <= i < j < |ns| ==> ns[i].time <= ns[j].time
  }

  /** `a` is the summary use-midi-analysis.ts builds for the decoded tracks:
      every note once, sorted by start time, with the note count and the
      mean pitch over all tracks. */
  ghost predicate IsSortedAnalysisOf(a: MidiAnalysis, tracks: seq<seq<DecodedNote>>, duration: real) {
    var flat := Flatten(tracks);
    && a.noteCount == |flat|
    && a.duration == duration
    && a.averagePitch == AveragePitch(flat)
    && SortedByTime(a.notes)
    && multiset(a.notes) == multiset(Strip(flat))
  }

  lemma {:induction false} StripAt(ns: seq<DecodedNote>, k: int)
    requires 0 <= k < |ns|
    ensures |Strip(ns)| == |ns| && Strip(ns)[k] == ToNote(ns[k])
    decreases |ns|
  {
    var p := ns[..|ns| - 1];
    if k < |ns| - 1 {
      StripAt(p, k);
    } else if |ns| > 1 {
      StripAt(p, 0);
    }
  }
}
