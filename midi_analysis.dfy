/** The MIDI summary hook (use-midi-analysis.ts): it turns a chosen file into
    a MidiAnalysis, skips a file it has already loaded, and can be reset. */
module MidiAnalysisHook {
  import opened Basics
  import opened Midi

  /** The nested track and note loops: count the notes, add up their pitch
      numbers and collect them, track after track. */
  method Aggregate(tracks: seq<seq<DecodedNote>>) returns (totalNotes: nat, totalPitch: int, notes: seq<Note>)
    ensures totalNotes == |Flatten(tracks)| == |notes|
    ensures totalPitch == SumPitch(Flatten(tracks))
    ensures notes == Strip(Flatten(tracks))
  {
    totalNotes, totalPitch, notes := 0, 0, [];
    var t := 0;
    while t < |tracks|
      invariant 0 <= t <= |tracks|
      invariant totalNotes == |Flatten(tracks[..t])| == |notes|
      invariant totalPitch == SumPitch(Flatten(tracks[..t]))
      invariant notes == Strip(Flatten(tracks[..t]))
    {
      var track := tracks[t];
      ghost var before := Flatten(tracks[..t]);
      var k := 0;
      assert before + track[..k] == before;
      while k < |track|
        invariant 0 <= k <= |track|
        invariant totalNotes == |before + track[..k]| == |notes|
        invariant totalPitch == SumPitch(before + track[..k])
        invariant notes == Strip(before + track[..k])
      {
        var note := track[k];
        assert (before + track[..k + 1])[..|before + track[..k]|] == before + track[..k];
        totalNotes := totalNotes + 1;
        totalPitch := totalPitch + note.midi;
        notes := notes + [ToNote(note)];
        k := k + 1;
      }
      assert track[..k] == track;
      assert tracks[..t + 1][..t] == tracks[..t];
      t := t + 1;
    }
    assert tracks[..t] == tracks;
  }

  /** The first `n` notes are in start-time order. */
  predicate SortedPrefix(ns: seq<Note>, n: int) {
    forall p, q :: 0 <= p < q < n && q < |ns| ==> ns[p].time <= ns[q].time
  }

  /** The first i + 1 notes are in order except that the note at j may start
      earlier than those before it. */
  predicate SortedBut(ns: seq<Note>, i: int, j: int) {
    forall p, q :: 0 <= p < q <= i && q < |ns| && q != j ==> ns[p].time <= ns[q].time
  }

  /** Swapping the out-of-order note at j with its earlier neighbour moves the
      gap down by one and keeps the notes. */
  lemma SwapDown(ns: seq<Note>, i: int, j: int)
    requires 0 < j <= i < |ns| && SortedBut(ns, i, j) && ns[j - 1].time > ns[j].time
    ensures SortedBut(ns[j - 1 := ns[j]][j := ns[j - 1]], i, j - 1)
    ensures multiset(ns[j - 1 := ns[j]][j := ns[j - 1]]) == multiset(ns)
  {
  }

  /** The gap closes once the note at j starts no earlier than its neighbour. */
  lemma GapClosed(ns: seq<Note>, i: int, j: int)
    requires 0 <= j <= i < |ns| && SortedBut(ns, i, j)
    requires j == 0 || ns[j - 1].time <= ns[j].time
    ensures SortedPrefix(ns, i + 1)
  {
  }

  /** One pass of the insertion: a[i] moves down by adjacent swaps past every
      later-starting note, so the first i + 1 notes are then in order. */
  method InsertAt(a: array<Note>, i: int)
    requires 1 <= i < a.Length && SortedPrefix(a[..], i)
    modifies a
    ensures SortedPrefix(a[..], i + 1)
    ensures multiset(a[..]) == multiset(old(a[..]))
  {
    var j := i;
    assert SortedBut(a[..], i, j);
    while j > 0 && a[j - 1].time > a[j].time
      invariant 0 <= j <= i
      invariant SortedBut(a[..], i, j)
      invariant multiset(a[..]) == multiset(old(a[..]))
    {
      ghost var ns := a[..];
      SwapDown(ns, i, j);
      a[j - 1], a[j] := a[j], a[j - 1];
      assert a[..] == ns[j - 1 := ns[j]][j := ns[j - 1]];
      j := j - 1;
    }
    GapClosed(a[..], i, j);
  }

  /** Array.prototype.sort with the comparator a.time - b.time, in place. */
  method SortByTime(a: array<Note>)
    modifies a
    ensures SortedByTime(a[..])
    ensures multiset(a[..]) == multiset(old(a[..]))
  {
    var i := 1;
    while i < a.Length
      invariant a.Length == 0 || 1 <= i <= a.Length
      invariant SortedPrefix(a[..], i)
      invariant multiset(a[..]) == multiset(old(a[..]))
    {
      InsertAt(a, i);
      i := i + 1;
    }
  }

  /** The sorted copy of the collected notes. */
  method SortedNotes(notes: seq<Note>) returns (sorted: seq<Note>)
    ensures SortedByTime(sorted)
    ensures multiset(sorted) == multiset(notes)
  {
    var a := new Note[|notes|](i requires 0 <= i < |notes| => notes[i]);
    assert a[..] == notes;
    SortByTime(a);
    sorted := a[..];
  }

  /** The analysis built from decoded tracks: every note once, sorted by
      start time, the count of notes and the mean pitch (0 for no notes). */
  method Analyze(tracks: seq<seq<DecodedNote>>, duration: real) returns (analysis: MidiAnalysis)
    ensures IsSortedAnalysisOf(analysis, tracks, duration)
    ensures analysis.noteCount == |analysis.notes|
  {
    var totalNotes, totalPitch, notes := Aggregate(tracks);
    var sorted := SortedNotes(notes);
    assert |sorted| == |multiset(sorted)| == |multiset(notes)| == |notes|;
    analysis := MidiAnalysis(
      totalNotes,
      duration,
      if totalNotes > 0 then totalPitch as real / totalNotes as real else 0.0,
      sorted);
  }

  /** The text shown for a file that could not be decoded: the Error's
      message, even an empty one, or "unknown" when no Error was thrown. */
  function ParseFailure(message: Option<string>): (r: string)
    ensures message.Some? ==> r == "MIDIファイルの解析に失敗しました: " + message.value
    ensures message.None? ==> r == "MIDIファイルの解析に失敗しました: 不明なエラー"
  {
    "MIDIファイルの解析に失敗しました: " + (match message case Some(m) => m case None => "不明なエラー")
  }

  class MidiAnalyzer {
    var midiData: Option<MidiAnalysis>
    var currentFileName: Option<string>
    var isLoading: bool
    var error: Option<string>
    /** midiDataRef.current: the last successfully loaded file. */
    var refFileName: Option<string>
    var refData: Option<MidiAnalysis>

    constructor ()
      ensures midiData == None && currentFileName == None && !isLoading && error == None
      ensures refFileName == None && refData == None
    {
      midiData, currentFileName, isLoading, error := None, None, false, None;
      refFileName, refData := None, None;
    }

    /** resetState: no data, no error, no file name, and the ref forgotten. */
    method ResetState()
      modifies this
      ensures midiData == None && error == None && currentFileName == None
      ensures refFileName == None && refData == None
      ensures isLoading == old(isLoading)
    {
      midiData := None;
      error := None;
      currentFileName := None;
      refFileName, refData := None, None;
    }

    /** analyzeMidi on the file input's first file (None: nothing chosen).
        The decode is awaited inside the handler; here it is one step. */
    method AnalyzeMidi(file: Option<MidiFile>)
      modifies this
      ensures file.None? || (old(refFileName) == Some(file.value.name) && old(refData).Some?) ==>
        && midiData == old(midiData) && currentFileName == old(currentFileName)
        && isLoading == old(isLoading) && error == old(error)
        && refFileName == old(refFileName) && refData == old(refData)
      ensures file.Some? && !(old(refFileName) == Some(file.value.name) && old(refData).Some?) ==>
        && !isLoading
        && match file.value.content
           case Tracks(tracks, duration) =>
             && midiData.Some? && IsSortedAnalysisOf(midiData.value, tracks, duration)
             && midiData.value.noteCount == |midiData.value.notes|
             && currentFileName == Some(file.value.name) && error == None
             && refFileName == Some(file.value.name) && refData == midiData
           case DecodeFailed(message) =>
             && midiData == None && currentFileName == None
             && error == Some(ParseFailure(message))
             && refFileName == old(refFileName) && refData == old(refData)
    {
      if file.None? {
        return;
      }
      var f := file.value;
      if refFileName == Some(f.name) && refData.Some? {
        return;
      }
      isLoading := true;
      error := None;
      midiData := None;
      currentFileName := None;
      match f.content {
        case Tracks(tracks, duration) =>
          var analysis := Analyze(tracks, duration);
          currentFileName := Some(f.name);
          midiData := Some(analysis);
          refFileName, refData := Some(f.name), Some(analysis);
        case DecodeFailed(message) =>
          error := Some(ParseFailure(message));
      }
      isLoading := false;
    }
  }
}
