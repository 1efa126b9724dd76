/** The lyrics undo/redo history kept by both generators
    (use-lyrics-generator.ts and the older attached_assets/App.tsx): the
    shown lyrics, the list of earlier lyrics and the position in it. */
module History {
  import opened Basics

  datatype Direction = Back | Forward

  /** The history list and the current position (-1 before the first entry). */
  datatype Timeline = Timeline(entries: seq<string>, index: int)

  /** The shape every reachable history has once no navigation has thrown:
      the position is -1 exactly when the list is empty, otherwise on an entry. */
  predicate Consistent(t: Timeline) {
    -1 <= t.index < |t.entries| && (t.index == -1 <==> t.entries == [])
  }

  /** The end position Array.prototype.slice(0, end) uses on a list of `len`. */
  function SliceEnd(len: nat, end: int): (r: nat)
    ensures r <= len
  {
    if end < 0 then Max(len + end, 0) else Min(end, len)
  }

  /** True when the lyrics differ from the entry at the position; a position
      off the list reads as undefined, which differs from any string. */
  predicate DiffersFromCurrent(t: Timeline, lyrics: string) {
    !(0 <= t.index < |t.entries|) || t.entries[t.index] != lyrics
  }

  /** The history effect: new non-empty lyrics drop every entry after the
      position, are appended, and become the position. */
  function Record(t: Timeline, lyrics: string): Timeline {
    if lyrics != "" && (|t.entries| == 0 || DiffersFromCurrent(t, lyrics)) then
      var kept := t.entries[..SliceEnd(|t.entries|, t.index + 1)];
      Timeline(kept + [lyrics], |kept|)
    else t
  }

  /** What navigateHistory does: the clamped position, the lyrics it shows
      when the position moved, and whether reading the entry threw. */
  datatype Step = Step(timeline: Timeline, shown: Option<string>, threw: bool)

  function Target(t: Timeline, dir: Direction): int {
    match dir
    case Back => Max(0, t.index - 1)
    case Forward => Min(|t.entries| - 1, t.index + 1)
  }

  /** The new position is written before lyricsHistory[newIndex].lyrics is
      read, so when that entry does not exist the position has still moved
      and the handler throws a TypeError without changing the lyrics. */
  function Navigate(t: Timeline, dir: Direction): Step {
    var newIndex := Target(t, dir);
    if newIndex == t.index then Step(t, None, false)
    else if 0 <= newIndex < |t.entries| then Step(Timeline(t.entries, newIndex), Some(t.entries[newIndex]), false)
    else Step(Timeline(t.entries, newIndex), None, true)
  }

  /** Recording appends new lyrics after the position, drops the redo tail,
      points at the new last entry, and changes nothing when the lyrics are
      empty or already the current entry. */
  lemma RecordSpec(t: Timeline, lyrics: string)
    requires Consistent(t)
    ensures Consistent(Record(t, lyrics))
    ensures lyrics != "" && (t.entries == [] || t.entries[t.index] != lyrics) ==>
      && Record(t, lyrics).entries == t.entries[..t.index + 1] + [lyrics]
      && Record(t, lyrics).index == |Record(t, lyrics).entries| - 1
    ensures lyrics == "" || (t.entries != [] && t.entries[t.index] == lyrics) ==> Record(t, lyrics) == t
  {
  }

  /** Recording the same lyrics twice is recording them once. */
  lemma RecordIdempotent(t: Timeline, lyrics: string)
    ensures Record(Record(t, lyrics), lyrics) == Record(t, lyrics)
  {
    var r := Record(t, lyrics);
    if r != t {
      assert 0 <= r.index < |r.entries| && r.entries[r.index] == lyrics;
    }
  }

  /** On a non-empty history navigation never throws, clamps the position to
      [0, |entries| - 1], keeps the list, and shows the entry exactly when the
      position moved. On an empty one, going back is the one call that throws. */
  lemma NavigateSpec(t: Timeline, dir: Direction)
    requires Consistent(t)
    ensures Navigate(t, dir).timeline.entries == t.entries
    ensures Navigate(t, dir).threw <==> (t.entries == [] && dir == Back)
    ensures t.entries != [] ==>
      && Consistent(Navigate(t, dir).timeline)
      && Navigate(t, dir).timeline.index == Target(t, dir)
      && 0 <= Target(t, dir) < |t.entries|
      && (Navigate(t, dir).shown.Some? <==> Target(t, dir) != t.index)
      && (Navigate(t, dir).shown.Some? ==> Navigate(t, dir).shown.value == t.entries[Target(t, dir)])
  {
  }

  /** Back then forward from any entry but the first returns to it. */
  lemma UndoRedo(t: Timeline)
    requires Consistent(t) && t.index > 0
    ensures Navigate(Navigate(t, Back).timeline, Forward).timeline == t
    ensures Navigate(Navigate(t, Back).timeline, Forward).shown == Some(t.entries[t.index])
  {
  }

  /** Right after a new file's name has emptied the history, recording the
      lyrics still shown makes them the one entry, at position 0; empty
      lyrics leave the history empty. */
  lemma RecordAfterClear(lyrics: string)
    ensures Record(Timeline([], -1), lyrics) == if lyrics == "" then Timeline([], -1) else Timeline([lyrics], 0)
  {
  }

  class LyricsHistory {
    /** The lyrics shown in the result panel. */
    var lyrics: string
    var entries: seq<string>
    var index: int

    function Current(): Timeline
      reads this
    {
      Timeline(entries, index)
    }

    constructor ()
      ensures lyrics == "" && Current() == Timeline([], -1) && Consistent(Current())
    {
      lyrics, entries, index := "", [], -1;
    }

    /** setLyrics, as the generators call it. */
    method SetLyrics(s: string)
      modifies this
      ensures lyrics == s && Current() == old(Current())
    {
      lyrics := s;
    }

    /** The history effect, run after the lyrics change. */
    method RecordEffect()
      modifies this
      ensures lyrics == old(lyrics)
      ensures Current() == Record(old(Current()), lyrics)
    {
      if lyrics != "" && (|entries| == 0 || !(0 <= index < |entries|) || entries[index] != lyrics) {
        var newHistory := entries[..SliceEnd(|entries|, index + 1)] + [lyrics];
        entries := newHistory;
        index := |newHistory| - 1;
      }
    }

    /** navigateHistory. `threw` reports the TypeError of reading a missing entry. */
    method NavigateHistory(direction: Direction) returns (threw: bool)
      modifies this
      ensures Current() == Navigate(old(Current()), direction).timeline
      ensures threw == Navigate(old(Current()), direction).threw
      ensures lyrics == (match Navigate(old(Current()), direction).shown
                         case Some(l) => l
                         case None => old(lyrics))
    {
      var newIndex := if direction == Back then Max(0, index - 1) else Min(|entries| - 1, index + 1);
      threw := false;
      if newIndex != index {
        index := newIndex;
        if 0 <= newIndex < |entries| {
          lyrics := entries[newIndex];
        } else {
          threw := true;
        }
      }
    }

    /** The effect run when the file name changes: a new file's name empties
        the list; no name (or an empty one) leaves it. */
    method OnFileName(currentFileName: Option<string>)
      modifies this
      ensures lyrics == old(lyrics)
      ensures currentFileName.Some? && currentFileName.value != "" ==> Current() == Timeline([], -1)
      ensures currentFileName.None? || currentFileName.value == "" ==> Current() == old(Current())
    {
      if currentFileName.Some? && currentFileName.value != "" {
        entries, index := [], -1;
      }
    }

    /** clearLyrics in attached_assets/App.tsx. */
    method Clear()
      modifies this
      ensures lyrics == "" && Current() == Timeline([], -1)
    {
      lyrics, entries, index := "", [], -1;
    }
  }
}
