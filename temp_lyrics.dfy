/** The scratch-lyrics editor (temp-lyrics-editor.tsx): it writes the
    generated placeholder syllables into an editable text, remembers the
    generated text for "reset", and can rewrite the text with syllable
    dividers. Every new value of the text is handed to the parent's
    onTempLyricsUpdate callback, modelled here as the log `reported`. */
module TempLyrics {
  import opened Basics
  import opened Midi
  import opened Phrases

  /** The classification loop of generateTempLyrics: one syllable per note. */
  method CollectSymbols(notes: seq<Note>) returns (symbols: seq<string>)
    ensures symbols == Symbols(notes)
  {
    symbols := [];
    var i := 0;
    while i < |notes|
      invariant 0 <= i <= |notes|
      invariant |symbols| == i
      invariant forall k :: 0 <= k < i ==> symbols[k] == SymbolOf(Classify(notes[k].duration))
    {
      var duration := notes[i].duration;
      if duration <= 0.125 {
        symbols := symbols + [La];
      } else if duration <= 0.25 {
        symbols := symbols + [La];
      } else if duration <= 0.5 {
        symbols := symbols + [La];
      } else if duration <= 1.0 {
        symbols := symbols + [LaLong];
      } else if duration <= 2.0 {
        symbols := symbols + [LaLonger];
      } else {
        symbols := symbols + [LaLonger];
      }
      i := i + 1;
    }
  }

  /** generateTempLyrics: the editor's pattern puts one space between the
      syllables of a phrase and two between phrases. */
  method GenerateTempLyrics(midi: MidiAnalysis) returns (text: string)
    ensures text == Pattern(midi.notes, " ")
  {
    var symbols := CollectSymbols(midi.notes);
    text := GroupSymbols(symbols, " ");
  }

  // ---------------------------------------------------------------------
  // addSyllableDividers: two global regular-expression replacements.

  /** The first replacement, `/ /g` to "/": every space becomes a slash. */
  function SpacesToSlashes(s: string): (r: string)
    ensures |r| == |s|
    ensures forall i :: 0 <= i < |s| ==> r[i] == (if s[i] == ' ' then '/' else s[i])
  {
    seq(|s|, i requires 0 <= i < |s| => if s[i] == ' ' then '/' else s[i])
  }

  /** The length of the run of slashes `s` starts with. */
  function SlashRun(s: string): (k: nat)
    ensures k <= |s|
    ensures forall i :: 0 <= i < k ==> s[i] == '/'
    ensures k < |s| ==> s[k] != '/'
    decreases |s|
  {
    if |s| > 0 && s[0] == '/' then 1 + SlashRun(s[1..]) else 0
  }

  /** The second replacement, `/\/{2,}/g` to " ": scanning left to right, each
      maximal run of two or more slashes becomes one space; a lone slash stays. */
  function CollapseSlashRuns(s: string): string
    decreases |s|
  {
    if |s| == 0 then ""
    else if s[0] != '/' then [s[0]] + CollapseSlashRuns(s[1..])
    else if SlashRun(s) >= 2 then " " + CollapseSlashRuns(s[SlashRun(s)..])
    else "/" + CollapseSlashRuns(s[1..])
  }

  /** The text the divider button produces. */
  function AddSyllableDividers(s: string): string {
    CollapseSlashRuns(SpacesToSlashes(s))
  }

  /** `s` never has character `c` twice in a row. */
  predicate NoDouble(s: string, c: char) {
    forall i :: 0 <= i < |s| - 1 ==> s[i] != c || s[i + 1] != c
  }

  predicate NoSpace(s: string) {
    forall i :: 0 <= i < |s| ==> s[i] != ' '
  }

  /** The characters of `s` other than spaces and slashes, in order. */
  function Kept(s: string): string
    decreases |s|
  {
    if |s| == 0 then ""
    else (if s[0] == ' ' || s[0] == '/' then "" else [s[0]]) + Kept(s[1..])
  }

  lemma NoDoubleCons(c: char, x: string, d: char)
    requires NoDouble(x, d)
    requires |x| > 0 ==> c != d || x[0] != d
    ensures NoDouble([c] + x, d)
  {
    var s := [c] + x;
    forall i | 0 <= i < |s| - 1 ensures s[i] != d || s[i + 1] != d {
      if i > 0 { assert s[i] == x[i - 1] && s[i + 1] == x[i]; }
    }
  }

  lemma KeptCons(c: char, x: string)
    ensures Kept([c] + x) == (if c == ' ' || c == '/' then "" else [c]) + Kept(x)
  {
    assert ([c] + x)[0] == c;
    assert ([c] + x)[1..] == x;
  }

  lemma {:induction false} KeptSkipsSlashes(s: string, k: nat)
    requires k <= |s|
    requires forall i :: 0 <= i < k ==> s[i] == '/'
    ensures Kept(s) == Kept(s[k..])
    decreases k
  {
    if k > 0 {
      KeptSkipsSlashes(s[1..], k - 1);
      assert s[1..][k - 1..] == s[k..];
    }
  }

  lemma {:induction false} KeptOfSpacesToSlashes(s: string)
    ensures Kept(SpacesToSlashes(s)) == Kept(s)
    decreases |s|
  {
    if |s| > 0 {
      KeptOfSpacesToSlashes(s[1..]);
      assert SpacesToSlashes(s)[1..] == SpacesToSlashes(s[1..]);
    }
  }

  /** The slash collapse never grows the text. */
  lemma {:induction false} CollapseLength(s: string)
    ensures |CollapseSlashRuns(s)| <= |s|
    decreases |s|
  {
    if |s| == 0 {
    } else if s[0] != '/' || SlashRun(s) < 2 {
      CollapseLength(s[1..]);
    } else {
      CollapseLength(s[SlashRun(s)..]);
    }
  }

  /** The slash collapse removes only slashes (and adds only spaces). */
  lemma {:induction false} CollapseKept(s: string)
    ensures Kept(CollapseSlashRuns(s)) == Kept(s)
    decreases |s|
  {
    if |s| == 0 {
    } else if s[0] != '/' {
      CollapseKept(s[1..]);
      KeptCons(s[0], CollapseSlashRuns(s[1..]));
    } else if SlashRun(s) >= 2 {
      var k := SlashRun(s);
      CollapseKept(s[k..]);
      KeptCons(' ', CollapseSlashRuns(s[k..]));
      KeptSkipsSlashes(s, k);
    } else {
      CollapseKept(s[1..]);
      KeptCons('/', CollapseSlashRuns(s[1..]));
      KeptSkipsSlashes(s, 1);
    }
  }

  /** The collapse of a text that starts with a character other than a
      slash starts with that character. */
  lemma CollapseHead(s: string)
    requires |s| > 0 && s[0] != '/'
    ensures |CollapseSlashRuns(s)| > 0 && CollapseSlashRuns(s)[0] == s[0]
  {
  }

  /** The slash collapse leaves no two slashes in a row. */
  lemma {:induction false} CollapseNoDoubleSlash(s: string)
    ensures NoDouble(CollapseSlashRuns(s), '/')
    decreases |s|
  {
    if |s| == 0 {
    } else if s[0] != '/' {
      CollapseNoDoubleSlash(s[1..]);
      NoDoubleCons(s[0], CollapseSlashRuns(s[1..]), '/');
    } else if SlashRun(s) >= 2 {
      var k := SlashRun(s);
      CollapseNoDoubleSlash(s[k..]);
      NoDoubleCons(' ', CollapseSlashRuns(s[k..]), '/');
    } else {
      var t := s[1..];
      CollapseNoDoubleSlash(t);
      if |t| > 0 {
        assert t[0] == s[1];
        CollapseHead(t);
      }
      NoDoubleCons('/', CollapseSlashRuns(t), '/');
    }
  }

  /** On a text without spaces the slash collapse leaves no two spaces in a row. */
  lemma {:induction false} CollapseNoDoubleSpace(s: string)
    requires NoSpace(s)
    ensures NoDouble(CollapseSlashRuns(s), ' ')
    decreases |s|
  {
    if |s| == 0 {
    } else {
      var k := if s[0] != '/' || SlashRun(s) < 2 then 1 else SlashRun(s);
      var t := s[k..];
      assert NoSpace(t) by {
        forall i | 0 <= i < |t| ensures t[i] != ' ' { assert t[i] == s[k + i]; }
      }
      CollapseNoDoubleSpace(t);
      if s[0] != '/' {
        NoDoubleCons(s[0], CollapseSlashRuns(t), ' ');
      } else if SlashRun(s) >= 2 {
        if |t| > 0 {
          assert t[0] == s[k];
          CollapseHead(t);
        }
        NoDoubleCons(' ', CollapseSlashRuns(t), ' ');
      } else {
        NoDoubleCons('/', CollapseSlashRuns(t), ' ');
      }
    }
  }

  /** What the divider rewrite promises of any text: no "//", no two spaces
      in a row, no longer than before, and every character other than space
      and slash kept in order. */
  lemma DividersShape(s: string)
    ensures NoDouble(AddSyllableDividers(s), '/')
    ensures NoDouble(AddSyllableDividers(s), ' ')
    ensures |AddSyllableDividers(s)| <= |s|
    ensures Kept(AddSyllableDividers(s)) == Kept(s)
  {
    var t := SpacesToSlashes(s);
    assert NoSpace(t);
    CollapseLength(t);
    CollapseKept(t);
    CollapseNoDoubleSlash(t);
    CollapseNoDoubleSpace(t);
    KeptOfSpacesToSlashes(s);
  }

  /** The example the editor shows its user. */
  lemma DividersExample()
    ensures AddSyllableDividers("ラ ラ ラ ラ") == "ラ/ラ/ラ/ラ"
  {
    var t := SpacesToSlashes("ラ ラ ラ ラ");
    assert t == "ラ/ラ/ラ/ラ";
    assert SlashRun(t[1..]) == 1;
    assert SlashRun(t[3..]) == 1;
    assert SlashRun(t[5..]) == 1;
    assert CollapseSlashRuns(t[6..]) == "ラ";
    assert CollapseSlashRuns(t[5..]) == "/ラ";
    assert CollapseSlashRuns(t[4..]) == "ラ/ラ";
    assert CollapseSlashRuns(t[3..]) == "/ラ/ラ";
    assert CollapseSlashRuns(t[2..]) == "ラ/ラ/ラ";
    assert CollapseSlashRuns(t[1..]) == "/ラ/ラ/ラ";
  }

  // ---------------------------------------------------------------------
  // Dividers on a generated pattern: phrase structure survives the rewrite.

  /** A syllable text: not empty, with no space and no slash. */
  predicate IsWord(w: string) {
    |w| > 0 && forall i :: 0 <= i < |w| ==> w[i] != ' ' && w[i] != '/'
  }

  lemma {:induction false} SpacesToSlashesAppend(a: string, b: string)
    ensures SpacesToSlashes(a + b) == SpacesToSlashes(a) + SpacesToSlashes(b)
  {
    var l, r := SpacesToSlashes(a + b), SpacesToSlashes(a) + SpacesToSlashes(b);
    assert |l| == |r|;
    forall i | 0 <= i < |l| ensures l[i] == r[i] {
      if i < |a| { assert (a + b)[i] == a[i]; } else { assert (a + b)[i] == b[i - |a|]; }
    }
  }

  lemma {:induction false} CollapseWord(w: string)
    requires forall i :: 0 <= i < |w| ==> w[i] != '/'
    ensures CollapseSlashRuns(w) == w
    decreases |w|
  {
    if |w| > 0 {
      CollapseWord(w[1..]);
      assert [w[0]] + w[1..] == w;
    }
  }

  /** The first step of the collapse is the same on `a` and on `a + b` when
      `a` does not end in a slash: it writes `h` and leaves the suffix `t` of `a`. */
  lemma CollapseFirstStep(a: string, b: string) returns (t: string, h: string)
    requires |a| > 0 && a[|a| - 1] != '/'
    ensures |t| < |a| && (|t| > 0 ==> t[|t| - 1] != '/')
    ensures CollapseSlashRuns(a) == h + CollapseSlashRuns(t)
    ensures CollapseSlashRuns(a + b) == h + CollapseSlashRuns(t + b)
  {
    var k: nat;
    assert (a + b)[0] == a[0];
    if a[0] != '/' {
      k, h := 1, [a[0]];
    } else {
      SlashRunAppend(a, b);
      var r := SlashRun(a);
      if r >= 2 {
        k, h := r, " ";
      } else {
        k, h := 1, "/";
      }
    }
    t := a[k..];
    assert (a + b)[k..] == t + b;
    if |t| > 0 {
      assert t[|t| - 1] == a[|a| - 1];
    }
  }

  lemma {:induction false} CollapseAppend(a: string, b: string)
    requires |a| > 0 ==> a[|a| - 1] != '/'
    ensures CollapseSlashRuns(a + b) == CollapseSlashRuns(a) + CollapseSlashRuns(b)
    decreases |a|
  {
    if |a| == 0 {
      assert a + b == b;
    } else {
      var t, h := CollapseFirstStep(a, b);
      CollapseAppend(t, b);
      assert h + (CollapseSlashRuns(t) + CollapseSlashRuns(b)) == (h + CollapseSlashRuns(t)) + CollapseSlashRuns(b);
    }
  }

  lemma {:induction false} SlashRunAppend(a: string, b: string)
    requires SlashRun(a) < |a|
    ensures SlashRun(a + b) == SlashRun(a)
    decreases |a|
  {
    if a[0] == '/' {
      assert (a + b)[1..] == a[1..] + b;
      SlashRunAppend(a[1..], b);
    }
  }

  lemma {:induction false} JoinStartsWith(parts: seq<string>, sep: string)
    requires |parts| > 0 && |parts[0]| > 0
    ensures |Join(parts, sep)| > 0 && Join(parts, sep)[0] == parts[0][0]
  {
  }

  lemma {:induction false} JoinEndsWith(parts: seq<string>, sep: string)
    requires |parts| > 0 && forall i :: 0 <= i < |parts| ==> IsWord(parts[i])
    ensures |Join(parts, sep)| > 0 && IsWord(parts[|parts| - 1])
    ensures Join(parts, sep)[|Join(parts, sep)| - 1] == parts[|parts| - 1][|parts[|parts| - 1]| - 1]
    decreases |parts|
  {
    if |parts| > 1 {
      JoinEndsWith(parts[1..], sep);
    }
  }

  /** A phrase of the editor's pattern with its spaces made slashes is the
      same phrase with its syllables joined by single slashes. */
  lemma {:induction false} PhraseSlashes(words: seq<string>)
    requires forall i :: 0 <= i < |words| ==> IsWord(words[i])
    ensures SpacesToSlashes(Join(words, " ")) == Join(words, "/")
    decreases |words|
  {
    if |words| == 1 {
      assert SpacesToSlashes(words[0]) == words[0];
    } else if |words| > 1 {
      var w, rest := words[0], words[1..];
      PhraseSlashes(rest);
      JoinCons(words, " ");
      JoinCons(words, "/");
      SpacesToSlashesAppend(w, " " + Join(rest, " "));
      SpacesToSlashesAppend(" ", Join(rest, " "));
      assert SpacesToSlashes(w) == w;
      assert SpacesToSlashes(" ") == "/";
    }
  }

  /** The collapse leaves a phrase joined by single slashes alone. */
  lemma {:induction false} PhraseCollapse(words: seq<string>)
    requires forall i :: 0 <= i < |words| ==> IsWord(words[i])
    ensures CollapseSlashRuns(Join(words, "/")) == Join(words, "/")
    decreases |words|
  {
    if |words| == 1 {
      CollapseWord(words[0]);
    } else if |words| > 1 {
      var w, rest := words[0], words[1..];
      PhraseCollapse(rest);
      JoinCons(words, "/");
      CollapseWord(w);
      CollapseAppend(w, "/" + Join(rest, "/"));
      JoinStartsWith(rest, "/");
      var r := Join(rest, "/");
      assert ("/" + r)[1..] == r;
      assert SlashRun("/" + r) == 1;
    }
  }

  lemma AllWords(notes: seq<Note>)
    ensures forall i :: 0 <= i < |Symbols(notes)| ==> IsWord(Symbols(notes)[i])
  {
  }

  lemma JoinCons(parts: seq<string>, sep: string)
    requires |parts| >= 2
    ensures Join(parts, sep) == parts[0] + (sep + Join(parts[1..], sep))
  {
  }

  /** Making spaces slashes in a generated pattern: single slashes inside a
      phrase, double slashes between phrases. */
  lemma {:induction false} SlashesOfPattern(chunks: seq<seq<string>>)
    requires forall j, i :: 0 <= j < |chunks| && 0 <= i < |chunks[j]| ==> IsWord(chunks[j][i])
    ensures SpacesToSlashes(Join(JoinEach(chunks, " "), GroupSeparator)) == Join(JoinEach(chunks, "/"), "//")
    decreases |chunks|
  {
    if |chunks| > 0 {
      var g := chunks[0];
      PhraseSlashes(g);
      if |chunks| == 1 {
        assert JoinEach(chunks, " ") == [Join(g, " ")];
        assert JoinEach(chunks, "/") == [Join(g, "/")];
      } else {
        var rest := chunks[1..];
        SlashesOfPattern(rest);
        var a := Join(JoinEach(rest, " "), GroupSeparator);
        assert JoinEach(chunks, " ")[1..] == JoinEach(rest, " ");
        assert JoinEach(chunks, "/")[1..] == JoinEach(rest, "/");
        JoinCons(JoinEach(chunks, " "), GroupSeparator);
        JoinCons(JoinEach(chunks, "/"), "//");
        SpacesToSlashesAppend(Join(g, " "), "  " + a);
        SpacesToSlashesAppend("  ", a);
        assert SpacesToSlashes("  ") == "//";
      }
    }
  }

  /** A double slash between a collapsed phrase and the rest becomes one space. */
  lemma CollapsePhraseBoundary(x: string, b: string)
    requires |x| > 0 && x[|x| - 1] != '/' && CollapseSlashRuns(x) == x
    requires |b| > 0 && b[0] != '/'
    ensures CollapseSlashRuns(x + ("//" + b)) == x + (" " + CollapseSlashRuns(b))
  {
    CollapseAppend(x, "//" + b);
    assert ("//" + b)[1..] == "/" + b;
    assert ("/" + b)[1..] == b;
    assert SlashRun("//" + b) == 2;
    assert ("//" + b)[2..] == b;
  }

  /** Collapsing a slashed pattern: each double slash between phrases becomes
      one space, the single slashes inside phrases stay. */
  lemma {:induction false} CollapseOfSlashedPattern(chunks: seq<seq<string>>)
    requires forall j :: 0 <= j < |chunks| ==> |chunks[j]| > 0
    requires forall j, i :: 0 <= j < |chunks| && 0 <= i < |chunks[j]| ==> IsWord(chunks[j][i])
    ensures CollapseSlashRuns(Join(JoinEach(chunks, "/"), "//")) == Join(JoinEach(chunks, "/"), " ")
    decreases |chunks|
  {
    if |chunks| > 0 {
      var g := chunks[0];
      PhraseCollapse(g);
      if |chunks| == 1 {
        assert JoinEach(chunks, "/") == [Join(g, "/")];
      } else {
        var rest := chunks[1..];
        CollapseOfSlashedPattern(rest);
        var x := Join(g, "/");
        var b := Join(JoinEach(rest, "/"), "//");
        assert JoinEach(chunks, "/")[1..] == JoinEach(rest, "/");
        JoinCons(JoinEach(chunks, "/"), "//");
        JoinCons(JoinEach(chunks, "/"), " ");
        JoinEndsWith(g, "/");
        assert IsWord(rest[0][0]);
        JoinStartsWith(rest[0], "/");
        JoinStartsWith(JoinEach(rest, "/"), "//");
        CollapsePhraseBoundary(x, b);
      }
    }
  }

  /** Dividers on a freshly generated scratch text give the same phrases with
      "/" between syllables and one space between phrases. */
  lemma DividersOnGenerated(notes: seq<Note>)
    ensures AddSyllableDividers(Pattern(notes, " ")) == Join(JoinEach(Chunks(Symbols(notes)), "/"), " ")
  {
    var syms := Symbols(notes);
    var cs := Chunks(syms);
    ChunksShape(syms);
    ChunksWords(syms);
    SlashesOfPattern(cs);
    CollapseOfSlashedPattern(cs);
  }

  lemma {:induction false} ChunksWords(xs: seq<string>)
    requires forall i :: 0 <= i < |xs| ==> IsWord(xs[i])
    ensures forall j :: 0 <= j < |Chunks(xs)| ==> |Chunks(xs)[j]| > 0
    ensures forall j, i :: 0 <= j < |Chunks(xs)| && 0 <= i < |Chunks(xs)[j]| ==> IsWord(Chunks(xs)[j][i])
    decreases |xs|
  {
    if |xs| > PhraseLength {
      ChunksWords(xs[PhraseLength..]);
      var rest := Chunks(xs[PhraseLength..]);
      assert Chunks(xs) == [xs[..PhraseLength]] + rest;
      forall j, i | 0 <= j < |Chunks(xs)| && 0 <= i < |Chunks(xs)[j]| ensures IsWord(Chunks(xs)[j][i]) {
        if j > 0 { assert Chunks(xs)[j] == rest[j - 1]; }
      }
    }
  }

  // ---------------------------------------------------------------------
  // The editor's state.

  class TempLyricsEditor {
    /** The text shown in the editor. */
    var tempLyrics: string
    /** The text generated from the last MIDI data, restored by reset. */
    var originalTempLyrics: string
    /** Every value passed to onTempLyricsUpdate, oldest first. */
    var reported: seq<string>

    /** The parent has always been told the current text. */
    ghost predicate Valid()
      reads this
    {
      if reported == [] then tempLyrics == "" else reported[|reported| - 1] == tempLyrics
    }

    constructor ()
      ensures Valid()
      ensures tempLyrics == "" && originalTempLyrics == "" && reported == []
    {
      tempLyrics, originalTempLyrics, reported := "", "", [];
    }

    /** The effect run when midiData changes: new data wins over any edit. */
    method OnMidiData(midiData: Option<MidiAnalysis>)
      requires Valid()
      modifies this
      ensures Valid()
      ensures midiData.None? ==> tempLyrics == old(tempLyrics) && originalTempLyrics == old(originalTempLyrics) && reported == old(reported)
      ensures midiData.Some? ==>
        && tempLyrics == Pattern(midiData.value.notes, " ")
        && originalTempLyrics == tempLyrics
        && reported == old(reported) + [tempLyrics]
    {
      if midiData.Some? {
        var generated := GenerateTempLyrics(midiData.value);
        tempLyrics := generated;
        originalTempLyrics := generated;
        reported := reported + [generated];
      }
    }

    /** handleTempLyricsChange: an edit replaces the text only. */
    method HandleTempLyricsChange(newValue: string)
      requires Valid()
      modifies this
      ensures Valid()
      ensures tempLyrics == newValue && originalTempLyrics == old(originalTempLyrics)
      ensures reported == old(reported) + [newValue]
    {
      tempLyrics := newValue;
      reported := reported + [newValue];
    }

    /** resetToOriginal: back to the generated text, whatever was edited;
        a second reset finds tempLyrics == originalTempLyrics and keeps it. */
    method ResetToOriginal()
      requires Valid()
      modifies this
      ensures Valid()
      ensures tempLyrics == originalTempLyrics && originalTempLyrics == old(originalTempLyrics)
      ensures reported == old(reported) + [originalTempLyrics]
    {
      tempLyrics := originalTempLyrics;
      reported := reported + [originalTempLyrics];
    }

    /** addSyllableDividers applied to the current text. */
    method AddDividers()
      requires Valid()
      modifies this
      ensures Valid()
      ensures tempLyrics == AddSyllableDividers(old(tempLyrics)) && originalTempLyrics == old(originalTempLyrics)
      ensures reported == old(reported) + [tempLyrics]
    {
      var withDividers := AddSyllableDividers(tempLyrics);
      tempLyrics := withDividers;
      reported := reported + [withDividers];
    }
  }
}
