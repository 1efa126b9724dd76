/** The lyrics generator hook (use-lyrics-generator.ts): it composes the
    system and user prompts from the loaded melody and the song settings,
    sends them to the chosen AI provider, stores the answer as the lyrics,
    and keeps the undo/redo history of lyrics. */
module LyricsGenerator {
  import opened Basics
  import opened Midi
  import opened Phrases
  import opened History
  import opened BrowserStorage
  import opened AIProviderHook

  datatype Language = Ja | En

  /** The text used for a title or mood that was not given. */
  function Placeholder(language: Language): string {
    match language
    case Ja => "指定なし"
    case En => "Not specified"
  }

  /** The title as the prompts show it. */
  function TitleText(language: Language, title: string): (r: string)
    ensures title != "" ==> r == title
    ensures title == "" ==> r == Placeholder(language)
  {
    if title != "" then title else Placeholder(language)
  }

  /** A mood was chosen: it is neither empty nor the "none" option. */
  predicate HasMood(mood: string) {
    mood != "" && mood != "none"
  }

  /** The mood as the prompts show it. */
  function MoodText(language: Language, mood: string): (r: string)
    ensures HasMood(mood) ==> r == mood
    ensures !HasMood(mood) ==> r == Placeholder(language)
  {
    if HasMood(mood) then mood else Placeholder(language)
  }

  /** JavaScript's `s && s.trim()`: the text has a non-space character. */
  predicate HasText(s: string) {
    s != "" && Trim(s) != ""
  }

  /** The per-bucket note counts of the user prompt. */
  datatype DurationCounts = DurationCounts(veryShort: nat, short: nat, eighth: nat, quarter: nat, half: nat, whole: nat)
  {
    function Total(): nat {
      veryShort + short + eighth + quarter + half + whole
    }

    function Add(b: Bucket): DurationCounts {
      match b
      case VeryShort => this.(veryShort := veryShort + 1)
      case Short => this.(short := short + 1)
      case Eighth => this.(eighth := eighth + 1)
      case Quarter => this.(quarter := quarter + 1)
      case Half => this.(half := half + 1)
      case Whole => this.(whole := whole + 1)
    }
  }

  const NoCounts: DurationCounts := DurationCounts(0, 0, 0, 0, 0, 0)

  /** The counts of the notes' buckets. */
  function CountBuckets(notes: seq<Note>): DurationCounts
    decreases |notes|
  {
    if |notes| == 0 then NoCounts
    else CountBuckets(notes[..|notes| - 1]).Add(Classify(notes[|notes| - 1].duration))
  }

  /** How many times `x` occurs in `xs`. */
  function Occurrences<T(==)>(xs: seq<T>, x: T): nat
    decreases |xs|
  {
    if |xs| == 0 then 0
    else Occurrences(xs[..|xs| - 1], x) + (if xs[|xs| - 1] == x then 1 else 0)
  }

  /** Every note is counted in exactly one bucket. */
  lemma {:induction false} CountsTotal(notes: seq<Note>)
    ensures CountBuckets(notes).Total() == |notes|
    decreases |notes|
  {
    if |notes| > 0 {
      CountsTotal(notes[..|notes| - 1]);
    }
  }

  /** The counts agree with the syllables: the three shortest buckets are the
      one-unit syllables, the quarter bucket the two-unit ones, and the half
      and whole buckets the three-unit ones. */
  lemma {:induction false} CountsMatchSymbols(notes: seq<Note>)
    ensures Occurrences(Symbols(notes), La) == CountBuckets(notes).veryShort + CountBuckets(notes).short + CountBuckets(notes).eighth
    ensures Occurrences(Symbols(notes), LaLong) == CountBuckets(notes).quarter
    ensures Occurrences(Symbols(notes), LaLonger) == CountBuckets(notes).half + CountBuckets(notes).whole
    decreases |notes|
  {
    if |notes| > 0 {
      var init := notes[..|notes| - 1];
      CountsMatchSymbols(init);
      var s := Symbols(notes);
      assert s[..|s| - 1] == Symbols(init);
    }
  }

  /** The loop over the notes: each note's bucket is counted and its syllable
      written, in note order. */
  method TallyNotes(notes: seq<Note>) returns (counts: DurationCounts, symbols: seq<string>)
    ensures counts == CountBuckets(notes)
    ensures symbols == Symbols(notes)
  {
    counts := NoCounts;
    symbols := [];
    for i := 0 to |notes|
      invariant counts == CountBuckets(notes[..i])
      invariant symbols == Symbols(notes[..i])
    {
      var duration := notes[i].duration;
      if duration <= 0.125 {
        counts := counts.(veryShort := counts.veryShort + 1);
        symbols := symbols + [La];
      } else if duration <= 0.25 {
        counts := counts.(short := counts.short + 1);
        symbols := symbols + [La];
      } else if duration <= 0.5 {
        counts := counts.(eighth := counts.eighth + 1);
        symbols := symbols + [La];
      } else if duration <= 1.0 {
        counts := counts.(quarter := counts.quarter + 1);
        symbols := symbols + [LaLong];
      } else if duration <= 2.0 {
        counts := counts.(half := counts.half + 1);
        symbols := symbols + [LaLonger];
      } else {
        counts := counts.(whole := counts.whole + 1);
        symbols := symbols + [LaLonger];
      }
      assert notes[..i + 1][..i] == notes[..i];
      assert Symbols(notes[..i + 1]) == Symbols(notes[..i]) + [SymbolOf(Classify(duration))];
    }
    assert notes[..|notes|] == notes;
  }

  /** At most this many notes are listed in the user prompt. */
  const SummaryLength: nat := 20

  /** The filled-in fields of the system prompt. */
  datatype SystemPrompt = SystemPrompt(language: Language, title: string, mood: string)

  /** The filled-in fields of the user prompt: the title and mood lines, the
      bucket counts, the note count, the phrase pattern, the first notes
      (name and duration) and the two optional instruction lines. */
  datatype UserPrompt = UserPrompt(
    language: Language, title: string, mood: string, counts: DurationCounts, noteCount: int,
    pattern: string, summary: seq<Note>, titleHint: Option<string>, moodHint: Option<string>)

  datatype Prompts = Prompts(system: SystemPrompt, user: UserPrompt)

  /** The phrase pattern of the user prompt: the user's own scratch lyrics
      when they have text, verbatim; otherwise the generated one. */
  function FullPhrasePattern(notes: seq<Note>, customTempLyrics: string): string {
    if HasText(customTempLyrics) then customTempLyrics else Pattern(notes, ",")
  }

  /** generatePrompt as a function of its inputs. */
  function Compose(language: Language, title: string, mood: string, customTempLyrics: string, midi: MidiAnalysis): Prompts {
    var summary := if |midi.notes| <= SummaryLength then midi.notes else midi.notes[..SummaryLength];
    Prompts(
      SystemPrompt(language, TitleText(language, title), MoodText(language, mood)),
      UserPrompt(language, TitleText(language, title), MoodText(language, mood), CountBuckets(midi.notes),
        midi.noteCount, FullPhrasePattern(midi.notes, customTempLyrics), summary,
        if title != "" then Some(title) else None,
        if HasMood(mood) then Some(mood) else None))
  }

  /** What the composed prompts say: the counts cover every note, the pattern
      is the override or the generated one, both prompts show the same title
      and mood, and the summary is the first min(20, n) notes. */
  lemma ComposeSpec(language: Language, title: string, mood: string, customTempLyrics: string, midi: MidiAnalysis)
    ensures var p := Compose(language, title, mood, customTempLyrics, midi);
      && p.user.counts.Total() == |midi.notes|
      && p.user.noteCount == midi.noteCount
      && (HasNonSpace(customTempLyrics) ==> p.user.pattern == customTempLyrics)
      && (!HasNonSpace(customTempLyrics) ==> p.user.pattern == Join(JoinEach(Chunks(Symbols(midi.notes)), ","), GroupSeparator))
      && p.system.language == p.user.language == language
      && p.system.title == p.user.title && p.system.mood == p.user.mood
      && (p.user.titleHint.Some? <==> title != "")
      && (p.user.moodHint.Some? <==> p.user.mood == mood && HasMood(mood))
      && |p.user.summary| == Min(SummaryLength, |midi.notes|)
      && p.user.summary == midi.notes[..|p.user.summary|]
  {
    CountsTotal(midi.notes);
    TrimSpec(customTempLyrics);
  }

  /** No syllable of a phrase holds a comma or a space. */
  lemma ChunkSyllables(notes: seq<Note>)
    ensures forall j :: 0 <= j < |Chunks(Symbols(notes))| ==> |Chunks(Symbols(notes))[j]| > 0
    ensures forall j, i :: 0 <= j < |Chunks(Symbols(notes))| && 0 <= i < |Chunks(Symbols(notes))[j]| ==>
      Avoids(Chunks(Symbols(notes))[j][i], ',') && Avoids(Chunks(Symbols(notes))[j][i], ' ')
  {
    var syms := Symbols(notes);
    var cs := Chunks(syms);
    ChunksMembers(syms);
    forall j, i | 0 <= j < |cs| && 0 <= i < |cs[j]| ensures Avoids(cs[j][i], ',') && Avoids(cs[j][i], ' ') {
      var k :| 0 <= k < |syms| && syms[k] == cs[j][i];
      assert syms[k] in {La, LaLong, LaLonger};
    }
  }

  /** Phrases of such syllables, joined with commas, split back at the commas
      and hold no space. */
  lemma SplitPhrases(cs: seq<seq<string>>)
    requires forall j :: 0 <= j < |cs| ==> |cs[j]| > 0
    requires forall j, i :: 0 <= j < |cs| && 0 <= i < |cs[j]| ==> Avoids(cs[j][i], ',') && Avoids(cs[j][i], ' ')
    ensures forall j :: 0 <= j < |cs| ==> Avoids(JoinEach(cs, ",")[j], ' ') && Split(JoinEach(cs, ",")[j], ",") == cs[j]
  {
    forall j | 0 <= j < |cs| ensures Avoids(JoinEach(cs, ",")[j], ' ') && Split(JoinEach(cs, ",")[j], ",") == cs[j] {
      JoinEachAt(cs, ",", j);
      JoinAvoids(cs[j], ",", ' ');
      SplitJoin(cs[j], ",");
    }
  }

  /** The generated pattern holds every note's syllable, in order: split at
      the two-space phrase breaks it gives the phrases, and each phrase split
      at its commas gives that phrase's four (or, last, fewer) syllables. */
  lemma GeneratedPatternSyllables(notes: seq<Note>)
    ensures notes == [] ==> Split(Pattern(notes, ","), GroupSeparator) == [""]
    ensures notes != [] ==> Split(Pattern(notes, ","), GroupSeparator) == JoinEach(Chunks(Symbols(notes)), ",")
    ensures forall j :: 0 <= j < |Chunks(Symbols(notes))| ==>
      Split(JoinEach(Chunks(Symbols(notes)), ",")[j], ",") == Chunks(Symbols(notes))[j]
    ensures Concat(Chunks(Symbols(notes))) == Symbols(notes)
  {
    var cs := Chunks(Symbols(notes));
    ChunksShape(Symbols(notes));
    ChunkSyllables(notes);
    SplitPhrases(cs);
    if notes != [] {
      SplitJoin(JoinEach(cs, ","), GroupSeparator);
    }
  }

  /** generatePrompt: the counting loop, the grouping loop, the override and
      the template fields. */
  method GeneratePrompt(language: Language, title: string, mood: string, customTempLyrics: string, midi: MidiAnalysis)
    returns (prompts: Prompts)
    ensures prompts == Compose(language, title, mood, customTempLyrics, midi)
  {
    var notesSummary := if |midi.notes| <= SummaryLength then midi.notes else midi.notes[..SummaryLength];
    var notesByDuration, phrasePatterns := TallyNotes(midi.notes);
    var fullPhrasePattern := GroupSymbols(phrasePatterns, ",");
    if customTempLyrics != "" && Trim(customTempLyrics) != "" {
      fullPhrasePattern := customTempLyrics;
    }
    var moodText := if mood != "" && mood != "none" then mood else Placeholder(language);
    var titleText := if title != "" then title else Placeholder(language);
    prompts := Prompts(
      SystemPrompt(language, titleText, moodText),
      UserPrompt(language, titleText, moodText, notesByDuration, midi.noteCount, fullPhrasePattern, notesSummary,
        if title != "" then Some(title) else None,
        if mood != "" && mood != "none" then Some(mood) else None));
  }

  /** What the provider returned: a text (possibly empty, as when the answer
      has no text part) or an exception with its message, if it had one. */
  datatype Reply = Answer(text: string) | Raised(message: Option<string>)

  /** The request sent to the provider: the system content and the user prompt. */
  datatype Request = Request(provider: Provider, system: PromptText<SystemPrompt>, user: UserPrompt)

  const NoMidiError: string := "MIDIデータが読み込まれていません"
  const NoClientError: string := "APIキーが設定されていません"
  const EmptyAnswerError: string := "AIが歌詞を生成できませんでした。"

  /** The text shown for a failed call; an empty or missing message reads as unknown. */
  function CallFailure(message: Option<string>): (r: string)
    ensures message.Some? && message.value != "" ==> r == "AI歌詞の生成に失敗しました: " + message.value
    ensures message.None? || message.value == "" ==> r == "AI歌詞の生成に失敗しました: 不明なエラー"
  {
    "AI歌詞の生成に失敗しました: " + (if message.Some? && message.value != "" then message.value else "不明なエラー")
  }

  class LyricsGenerator {
    /** The shown lyrics and their history. */
    const history: LyricsHistory
    /** The provider settings the hook reads its client from. */
    const settings: AIProvider
    var isGeneratingAI: bool
    var error: Option<string>
    /** The last composed user prompt ('' before any). */
    var currentUserPrompt: Option<UserPrompt>
    /** The parent's prompt cell and preview flag, written through its setters. */
    var customPrompt: PromptText<SystemPrompt>
    var showPromptPreview: bool

    /** The hook's first render: no lyrics, an empty history at -1, and its own
        provider settings (useAIProvider) over the browser's storage. */
    constructor (storage: LocalStorage)
      ensures fresh(history) && history.lyrics == "" && history.Current() == Timeline([], -1)
      ensures fresh(settings) && settings.storage == storage
      ensures settings.apiKey == "" && settings.apiProvider == DefaultProvider && settings.aiClient == None
      ensures !isGeneratingAI && error == None && currentUserPrompt == None
      ensures customPrompt == Edited("") && !showPromptPreview
    {
      history := new LyricsHistory();
      settings := new AIProvider(storage);
      isGeneratingAI, error, currentUserPrompt := false, None, None;
      customPrompt, showPromptPreview := Edited(""), false;
    }

    /** The preview dialog's text area: the prompt becomes what was typed. */
    method EditPrompt(text: string)
      modifies this
      ensures customPrompt == Edited(text)
      ensures showPromptPreview == old(showPromptPreview) && error == old(error)
      ensures isGeneratingAI == old(isGeneratingAI) && currentUserPrompt == old(currentUserPrompt)
    {
      customPrompt := Edited(text);
    }

    /** generateAILyrics. Without data only the error is set. A request that is
        not the edited one opens the preview with the composed system prompt
        and stops there. An edited request without a client sets the error.
        Otherwise the provider is called when the client is the chosen
        provider's, and its answer is stored trimmed or mapped to an error.
        `request` is what was sent, if anything. */
    method GenerateAILyrics(useEditedPrompt: bool, midiData: Option<MidiAnalysis>, language: Language,
                            title: string, mood: string, customTempLyrics: string, reply: Reply)
      returns (request: Option<Request>)
      modifies this, history
      ensures currentUserPrompt == old(currentUserPrompt)
      ensures history.Current() == old(history.Current())
      // no data
      ensures midiData.None? ==>
        && error == Some(NoMidiError) && request == None
        && customPrompt == old(customPrompt) && showPromptPreview == old(showPromptPreview)
        && isGeneratingAI == old(isGeneratingAI) && history.lyrics == old(history.lyrics)
      // preview
      ensures midiData.Some? && !useEditedPrompt ==>
        && customPrompt == Composed(Compose(language, title, mood, customTempLyrics, midiData.value).system)
        && showPromptPreview && request == None
        && error == old(error) && isGeneratingAI == old(isGeneratingAI) && history.lyrics == old(history.lyrics)
      // no client
      ensures midiData.Some? && useEditedPrompt && settings.aiClient.None? ==>
        && error == Some(NoClientError) && request == None
        && customPrompt == old(customPrompt) && showPromptPreview == old(showPromptPreview)
        && isGeneratingAI == old(isGeneratingAI) && history.lyrics == old(history.lyrics)
      // a call was attempted
      ensures midiData.Some? && useEditedPrompt && settings.aiClient.Some? ==>
        var called := settings.aiClient.value.provider == settings.apiProvider;
        var answer := if called && reply.Answer? then reply.text else "";
        && !isGeneratingAI
        && customPrompt == old(customPrompt) && showPromptPreview == old(showPromptPreview)
        && (request.Some? <==> called)
        && (called ==> request.value == Request(settings.apiProvider, old(customPrompt),
                                                Compose(language, title, mood, customTempLyrics, midiData.value).user))
        && (called && reply.Raised? ==> error == Some(CallFailure(reply.message)) && history.lyrics == old(history.lyrics))
        && (!(called && reply.Raised?) && answer != "" ==> error == None && history.lyrics == Trim(answer))
        && (!(called && reply.Raised?) && answer == "" ==> error == Some(EmptyAnswerError) && history.lyrics == old(history.lyrics))
    {
      request := None;
      if midiData.None? {
        error := Some(NoMidiError);
        return;
      }
      var prompts := GeneratePrompt(language, title, mood, customTempLyrics, midiData.value);
      var systemContent := if useEditedPrompt then customPrompt else Composed(prompts.system);
      var userContent := prompts.user;
      if !useEditedPrompt {
        customPrompt := systemContent;
        showPromptPreview := true;
        return;
      }
      // The fallback for an empty edited prompt writes the same value back.
      if customPrompt.IsBlank() {
        customPrompt := systemContent;
      }
      if settings.aiClient.None? {
        error := Some(NoClientError);
        return;
      }
      isGeneratingAI := true;
      error := None;
      var generatedLyrics := "";
      var failed := false;
      if settings.apiProvider == settings.aiClient.value.provider {
        request := Some(Request(settings.apiProvider, systemContent, userContent));
        match reply {
          case Answer(text) => generatedLyrics := text;
          case Raised(message) =>
            failed := true;
            error := Some(CallFailure(message));
        }
      }
      if !failed {
        if generatedLyrics != "" {
          history.SetLyrics(Trim(generatedLyrics));
        } else {
          error := Some(EmptyAnswerError);
        }
      }
      isGeneratingAI := false;
    }

    /** The user-prompt effect, run when the data or the prompt inputs change. */
    method RefreshUserPrompt(midiData: Option<MidiAnalysis>, language: Language, title: string, mood: string, customTempLyrics: string)
      modifies this
      ensures midiData.Some? ==> currentUserPrompt == Some(Compose(language, title, mood, customTempLyrics, midiData.value).user)
      ensures midiData.None? ==> currentUserPrompt == old(currentUserPrompt)
      ensures error == old(error) && isGeneratingAI == old(isGeneratingAI)
      ensures customPrompt == old(customPrompt) && showPromptPreview == old(showPromptPreview)
    {
      if midiData.Some? {
        var prompts := GeneratePrompt(language, title, mood, customTempLyrics, midiData.value);
        currentUserPrompt := Some(prompts.user);
      }
    }
  }
}
