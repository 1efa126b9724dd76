/** The note classifier and the phrase grouper. Both the prompt composer
    (use-lyrics-generator.ts) and the scratch-lyrics editor
    (temp-lyrics-editor.tsx) classify each note by its duration into one of
    six buckets, write one placeholder syllable per note, and cut the
    syllables into phrases of four; they differ only in the text put between
    the syllables of one phrase. */
module Phrases {
  import opened Basics
  import opened Midi

  /** Duration buckets, named as the prompt's counter fields are. */
  datatype Bucket = VeryShort | Short | Eighth | Quarter | Half | Whole

  /** The bucket of a duration in seconds; each bound is inclusive. */
  function Classify(d: real): (b: Bucket)
    ensures b == VeryShort <==> d <= 0.125
    ensures b == Short <==> 0.125 < d <= 0.25
    ensures b == Eighth <==> 0.25 < d <= 0.5
    ensures b == Quarter <==> 0.5 < d <= 1.0
    ensures b == Half <==> 1.0 < d <= 2.0
    ensures b == Whole <==> 2.0 < d
  {
    if d <= 0.125 then VeryShort
    else if d <= 0.25 then Short
    else if d <= 0.5 then Eighth
    else if d <= 1.0 then Quarter
    else if d <= 2.0 then Half
    else Whole
  }

  const La: string := "ラ"
  const LaLong: string := "ラー"
  const LaLonger: string := "ラーー"

  /** The placeholder syllable written for a note of a bucket: the three
      shortest buckets share the one-unit symbol, the half and whole buckets
      share the three-unit one. */
  function SymbolOf(b: Bucket): string {
    match b
    case VeryShort | Short | Eighth => La
    case Quarter => LaLong
    case Half | Whole => LaLonger
  }

  /** One syllable per note, in note order. */
  function Symbols(notes: seq<Note>): (r: seq<string>)
    ensures |r| == |notes|
    ensures forall i :: 0 <= i < |notes| ==> r[i] == SymbolOf(Classify(notes[i].duration))
  {
    seq(|notes|, i requires 0 <= i < |notes| => SymbolOf(Classify(notes[i].duration)))
  }

  /** Syllables per phrase. */
  const PhraseLength: nat := 4

  /** `xs` cut into consecutive phrases of four, the last possibly shorter. */
  function Chunks<T>(xs: seq<T>): seq<seq<T>>
    decreases |xs|
  {
    if |xs| == 0 then []
    else if |xs| <= PhraseLength then [xs]
    else [xs[..PhraseLength]] + Chunks(xs[PhraseLength..])
  }

  function Concat<T>(xss: seq<seq<T>>): seq<T>
    decreases |xss|
  {
    if |xss| == 0 then [] else xss[0] + Concat(xss[1..])
  }

  /** Every piece joined with `sep`. */
  function JoinEach(groups: seq<seq<string>>, sep: string): (r: seq<string>)
    ensures |r| == |groups|
    decreases |groups|
  {
    if |groups| == 0 then [] else [Join(groups[0], sep)] + JoinEach(groups[1..], sep)
  }

  /** Two spaces between phrases. */
  const GroupSeparator: string := "  "

  /** The phrase pattern of the notes: syllables four to a phrase, joined
      inside a phrase with `sep`, phrases joined with two spaces. */
  function Pattern(notes: seq<Note>, sep: string): string {
    Join(JoinEach(Chunks(Symbols(notes)), sep), GroupSeparator)
  }

  /** The grouping loop shared by both callers: the current phrase is closed
      after every fourth syllable and after the last one. */
  method GroupSymbols(symbols: seq<string>, sep: string) returns (pattern: string)
    ensures pattern == Join(JoinEach(Chunks(symbols), sep), GroupSeparator)
  {
    var grouped: seq<string> := [];
    var current: seq<string> := [];
    ghost var start := 0;
    var i := 0;
    while i < |symbols|
      invariant 0 <= start <= i <= |symbols|
      invariant start % PhraseLength == 0 || start == |symbols|
      invariant i - start < PhraseLength
      invariant i == |symbols| ==> start == i
      invariant current == symbols[start..i]
      invariant grouped == JoinEach(Chunks(symbols[..start]), sep)
    {
      current := current + [symbols[i]];
      PhraseBoundary(start, i);
      if (i + 1) % PhraseLength == 0 || i == |symbols| - 1 {
        ChunksAppend(symbols[..start], current);
        JoinEachAppend(Chunks(symbols[..start]), Chunks(current), sep);
        assert symbols[..start] + current == symbols[..i + 1];
        grouped := grouped + [Join(current, sep)];
        current := [];
        start := i + 1;
      }
      i := i + 1;
    }
    assert symbols[..start] == symbols;
    pattern := Join(grouped, GroupSeparator);
  }

  /** Inside a phrase that starts on a multiple of four, the position after
      `i` is a multiple of four exactly when the phrase is then full. */
  lemma PhraseBoundary(start: int, i: int)
    requires start % PhraseLength == 0 && start <= i < start + PhraseLength
    ensures (i + 1) % PhraseLength == 0 <==> i + 1 == start + PhraseLength
  {
    var q := start / PhraseLength;
    assert start == PhraseLength * q;
    assert i + 1 == PhraseLength * q + (i + 1 - start);
  }

  lemma {:induction false} ChunksAppend<T>(a: seq<T>, b: seq<T>)
    requires |a| % PhraseLength == 0
    ensures Chunks(a + b) == Chunks(a) + Chunks(b)
    decreases |a|
  {
    if |a| == 0 {
      assert a + b == b;
    } else {
      var n := PhraseLength;
      assert (a + b)[..n] == a[..n];
      assert (a + b)[n..] == a[n..] + b;
      ChunksAppend(a[n..], b);
      if |a| == n {
        assert a[..n] == a;
        assert a[n..] + b == b;
        if b == [] { assert a + b == a; }
      }
    }
  }

  lemma {:induction false} JoinEachAppend(a: seq<seq<string>>, b: seq<seq<string>>, sep: string)
    ensures JoinEach(a + b, sep) == JoinEach(a, sep) + JoinEach(b, sep)
    decreases |a|
  {
    if |a| == 0 {
      assert a + b == b;
    } else {
      assert (a + b)[1..] == a[1..] + b;
      JoinEachAppend(a[1..], b, sep);
    }
  }

  /** Grouping loses and reorders nothing, gives ceil(|xs| / 4) phrases, each
      of exactly four elements except the last, which has between one and four. */
  lemma {:induction false} ChunksShape<T>(xs: seq<T>)
    ensures Concat(Chunks(xs)) == xs
    ensures |Chunks(xs)| == (|xs| + PhraseLength - 1) / PhraseLength
    ensures forall i :: 0 <= i < |Chunks(xs)| - 1 ==> |Chunks(xs)[i]| == PhraseLength
    ensures |Chunks(xs)| > 0 ==> 0 < |Chunks(xs)[|Chunks(xs)| - 1]| <= PhraseLength
    decreases |xs|
  {
    var n := PhraseLength;
    if |xs| == 0 {
    } else if |xs| <= n {
      assert Concat([xs]) == xs + Concat([xs][1..]);
    } else {
      ChunksShape(xs[n..]);
      var rest := Chunks(xs[n..]);
      assert Chunks(xs) == [xs[..n]] + rest;
      assert ([xs[..n]] + rest)[1..] == rest;
      assert xs[..n] + xs[n..] == xs;
      forall i | 0 <= i < |Chunks(xs)| - 1 ensures |Chunks(xs)[i]| == n {
        if i > 0 { assert Chunks(xs)[i] == rest[i - 1]; }
      }
    }
  }

  /** The j-th piece is the j-th group joined. */
  lemma {:induction false} JoinEachAt(groups: seq<seq<string>>, sep: string, j: int)
    requires 0 <= j < |groups|
    ensures JoinEach(groups, sep)[j] == Join(groups[j], sep)
    decreases j
  {
    if j > 0 {
      JoinEachAt(groups[1..], sep, j - 1);
    }
  }

  /** Every phrase is non-empty and holds only elements of `xs`. */
  lemma {:induction false} ChunksMembers<T>(xs: seq<T>)
    ensures forall j :: 0 <= j < |Chunks(xs)| ==> |Chunks(xs)[j]| > 0
    ensures forall j, i :: 0 <= j < |Chunks(xs)| && 0 <= i < |Chunks(xs)[j]| ==> Chunks(xs)[j][i] in xs
    decreases |xs|
  {
    var n := PhraseLength;
    if |xs| > n {
      ChunksMembers(xs[n..]);
      var rest := Chunks(xs[n..]);
      assert Chunks(xs) == [xs[..n]] + rest;
      forall j, i | 0 <= j < |Chunks(xs)| && 0 <= i < |Chunks(xs)[j]| ensures Chunks(xs)[j][i] in xs {
        if j == 0 {
          assert Chunks(xs)[j][i] == xs[i];
        } else {
          assert Chunks(xs)[j] == rest[j - 1];
          var k :| 0 <= k < |xs[n..]| && xs[n..][k] == rest[j - 1][i];
          assert xs[n + k] == Chunks(xs)[j][i];
        }
      }
    }
  }

  /** No notes give the empty pattern. */
  lemma PatternOfNoNotes(sep: string)
    ensures Pattern([], sep) == ""
  {
  }

  /** The four-note scenario: durations 0.1, 0.6, 1.5 and 3.0 fall in the
      very-short, quarter, half and whole buckets and make one phrase. */
  lemma FourNoteScenario(a: Note, b: Note, c: Note, d: Note)
    requires a.duration == 0.1 && b.duration == 0.6 && c.duration == 1.5 && d.duration == 3.0
    ensures Classify(a.duration) == VeryShort && Classify(b.duration) == Quarter
    ensures Classify(c.duration) == Half && Classify(d.duration) == Whole
    ensures Pattern([a, b, c, d], ",") == "ラ,ラー,ラーー,ラーー"
  {
    var s := Symbols([a, b, c, d]);
    assert s == [La, LaLong, LaLonger, LaLonger];
    assert Chunks(s) == [s];
    assert JoinEach([s], ",") == [Join(s, ",")];
    assert Join(s[3..], ",") == LaLonger;
    assert Join(s[2..], ",") == LaLonger + "," + LaLonger;
    assert Join(s[1..], ",") == LaLong + "," + LaLonger + "," + LaLonger;
  }
}
