/** The older single-component application (attached_assets/App.tsx): an
    OpenAI-only generator with its own prompt composer, its own preview rule,
    two file handlers and the same lyrics history. */
module LegacyApp {
  import opened Basics
  import opened Midi
  import opened Phrases
  import opened History
  import opened MidiAnalysisHook
  import opened LyricsGenerator

  /** calculateSyllables: the most syllables a note of `duration` seconds
      may carry. */
  function CalculateSyllables(language: Language, duration: real): (n: nat)
    ensures n == 1 || n == 2
    ensures language == En ==> n == 1
    ensures language == Ja ==> (n == 1 <==> duration <= 0.5)
  {
    match language
    case Ja =>
      if duration <= 0.125 then 1
      else if duration <= 0.25 then 1
      else if duration <= 0.5 then 1
      else if duration <= 1.0 then 2
      else if duration <= 2.0 then 2
      else 2
    case En =>
      if duration <= 0.125 then 1
      else if duration <= 0.25 then 1
      else if duration <= 0.5 then 1
      else if duration <= 1.0 then 1
      else if duration <= 2.0 then 1
      else 1
  }

  /** In Japanese a note may take two syllables exactly when the newer
      composer writes it with a lengthened syllable. */
  lemma SyllablesMatchSymbols(duration: real)
    ensures CalculateSyllables(Ja, duration) == 1 <==> SymbolOf(Classify(duration)) == La
    ensures CalculateSyllables(Ja, duration) == 2 <==> SymbolOf(Classify(duration)) in {LaLong, LaLonger}
  {
    assert La != LaLong && La != LaLonger;
  }

  /** The placeholder of the older composer, in either language. */
  const Unspecified: string := "指定なし"

  function LanguageName(language: Language): string {
    match language
    case Ja => "日本語"
    case En => "English"
  }

  /** The filled-in fields of the older system prompt. */
  datatype LegacySystemPrompt = LegacySystemPrompt(title: string, mood: string, languageName: string)

  /** The filled-in fields of the older user prompt: note count, length,
      mean pitch, the first notes, the two optional instruction lines and
      the language. */
  datatype LegacyUserPrompt = LegacyUserPrompt(
    noteCount: int, duration: real, averagePitch: real, summary: seq<Note>,
    titleHint: Option<string>, moodHint: Option<string>, languageName: string)

  datatype LegacyPrompts = LegacyPrompts(system: LegacySystemPrompt, user: LegacyUserPrompt)

  /** generatePrompt of the older application. */
  function LegacyCompose(language: Language, title: string, mood: string, midi: MidiAnalysis): LegacyPrompts {
    var summary := if |midi.notes| <= SummaryLength then midi.notes else midi.notes[..SummaryLength];
    LegacyPrompts(
      LegacySystemPrompt(if title != "" then title else Unspecified, if mood != "" then mood else Unspecified, LanguageName(language)),
      LegacyUserPrompt(midi.noteCount, midi.duration, midi.averagePitch, summary,
        if title != "" then Some(title) else None,
        if mood != "" then Some(mood) else None,
        LanguageName(language)))
  }

  /** The older composer uses the Japanese placeholder for an empty title or
      mood in both languages, treats "none" as a mood like any other, and
      lists at most 20 notes, the first ones. Where title and mood are given
      and the language is Japanese, its system prompt shows what the newer
      one shows, except for a "none" mood. */
  lemma LegacyComposeSpec(language: Language, title: string, mood: string, customTempLyrics: string, midi: MidiAnalysis)
    ensures var p := LegacyCompose(language, title, mood, midi);
      && (title == "" ==> p.system.title == Unspecified && p.user.titleHint == None)
      && (title != "" ==> p.system.title == title && p.user.titleHint == Some(title))
      && (mood == "" ==> p.system.mood == Unspecified && p.user.moodHint == None)
      && (mood != "" ==> p.system.mood == mood && p.user.moodHint == Some(mood))
      && |p.user.summary| <= SummaryLength
      && |p.user.summary| == Min(SummaryLength, |midi.notes|)
      && p.user.summary == midi.notes[..|p.user.summary|]
      && p.user.noteCount == midi.noteCount
    ensures var p := LegacyCompose(Ja, title, mood, midi);
            var q := Compose(Ja, title, mood, customTempLyrics, midi);
      && p.system.title == q.system.title
      && (mood != "none" ==> p.system.mood == q.system.mood)
      && (mood == "none" ==> p.system.mood == "none" && q.system.mood == Unspecified)
      && p.user.summary == q.user.summary
  {
  }

  /** The analysis handleFileChange builds: the notes of all tracks in track
      order (flatMap, no sort), their count and mean pitch. */
  function FlatAnalysis(tracks: seq<seq<DecodedNote>>, duration: real): (a: MidiAnalysis)
    ensures a.noteCount == |a.notes| == |Flatten(tracks)|
    ensures a.duration == duration && a.averagePitch == AveragePitch(Flatten(tracks))
  {
    var notes := Flatten(tracks);
    if |notes| > 0 then StripAt(notes, 0); MidiAnalysis(|notes|, duration, AveragePitch(notes), Strip(notes))
    else MidiAnalysis(0, duration, 0.0, [])
  }

  /** handleFileChange keeps each note where its track put it. */
  lemma FlatAnalysisKeepsOrder(tracks: seq<seq<DecodedNote>>, duration: real, k: int)
    requires 0 <= k < |Flatten(tracks)|
    ensures FlatAnalysis(tracks, duration).notes[k] == ToNote(Flatten(tracks)[k])
  {
    StripAt(Flatten(tracks), k);
  }

  /** The two handlers agree on everything but the order of the notes:
      analyzeMidi's notes are handleFileChange's, sorted by start time. */
  lemma HandlersAgreeUpToOrder(a: MidiAnalysis, tracks: seq<seq<DecodedNote>>, duration: real)
    requires IsSortedAnalysisOf(a, tracks, duration)
    ensures var f := FlatAnalysis(tracks, duration);
      && a.noteCount == f.noteCount && a.duration == f.duration && a.averagePitch == f.averagePitch
      && multiset(a.notes) == multiset(f.notes)
      && SortedByTime(a.notes)
  {
    var flat := Flatten(tracks);
    if |flat| == 0 {
      assert Strip(flat) == [];
    }
  }

  const FailedParse: string := "MIDIファイルの解析に失敗しました"

  /** The request sent to OpenAI: the system content and the user prompt. */
  datatype LegacyRequest = LegacyRequest(system: PromptText<LegacySystemPrompt>, user: LegacyUserPrompt)

  class App {
    var midiData: Option<MidiAnalysis>
    var currentFileName: Option<string>
    /** The shown lyrics and their history. */
    const history: LyricsHistory
    var isLoading: bool
    var isGeneratingAI: bool
    var showSettings: bool
    var showPromptPreview: bool
    var customPrompt: PromptText<LegacySystemPrompt>
    var language: Language
    var error: Option<string>
    var songTitle: string
    var songMood: string
    /** openaiClientRef holds a client. */
    var hasClient: bool

    /** The first render: no lyrics and an empty history at -1 among the
        other initial cells; `hasClient` stands for the stored-key client. */
    constructor (hasClient: bool)
      ensures fresh(history) && history.lyrics == "" && history.Current() == Timeline([], -1)
      ensures this.hasClient == hasClient
      ensures midiData == None && currentFileName == None && error == None
      ensures !isLoading && !isGeneratingAI && !showSettings && !showPromptPreview
      ensures customPrompt == Edited("") && language == Ja && songTitle == "" && songMood == ""
    {
      history := new LyricsHistory();
      this.hasClient := hasClient;
      midiData, currentFileName, error := None, None, None;
      isLoading, isGeneratingAI, showSettings, showPromptPreview := false, false, false, false;
      customPrompt, language, songTitle, songMood := Edited(""), Ja, "", "";
    }

    /** The language toggle, the title field and the mood buttons. */
    method SetSongSettings(newLanguage: Language, title: string, mood: string)
      modifies this
      ensures language == newLanguage && songTitle == title && songMood == mood
      ensures midiData == old(midiData) && currentFileName == old(currentFileName) && error == old(error)
      ensures customPrompt == old(customPrompt) && showPromptPreview == old(showPromptPreview)
      ensures isLoading == old(isLoading) && isGeneratingAI == old(isGeneratingAI) && showSettings == old(showSettings)
      ensures hasClient == old(hasClient)
    {
      language, songTitle, songMood := newLanguage, title, mood;
    }

    /** The preview dialog's text area. */
    method EditPrompt(text: string)
      modifies this
      ensures customPrompt == Edited(text)
      ensures midiData == old(midiData) && currentFileName == old(currentFileName) && error == old(error)
      ensures language == old(language) && songTitle == old(songTitle) && songMood == old(songMood)
      ensures showPromptPreview == old(showPromptPreview) && showSettings == old(showSettings)
      ensures isLoading == old(isLoading) && isGeneratingAI == old(isGeneratingAI) && hasClient == old(hasClient)
    {
      customPrompt := Edited(text);
    }

    /** generateAILyrics of the older application. The preview opens only for
        a first request while the prompt cell is empty; a first request with
        a filled cell sends the composed system prompt, an edited one sends
        the cell. A missing client opens the settings dialog. */
    method GenerateAILyrics(useEditedPrompt: bool, reply: Reply) returns (request: Option<LegacyRequest>)
      modifies this, history
      ensures midiData == old(midiData) && currentFileName == old(currentFileName)
      ensures language == old(language) && songTitle == old(songTitle) && songMood == old(songMood)
      ensures isLoading == old(isLoading) && hasClient == old(hasClient)
      ensures history.Current() == old(history.Current())
      // no data
      ensures old(midiData).None? ==>
        && error == Some(NoMidiError) && request == None && customPrompt == old(customPrompt)
        && showPromptPreview == old(showPromptPreview) && showSettings == old(showSettings)
        && isGeneratingAI == old(isGeneratingAI) && history.lyrics == old(history.lyrics)
      // preview
      ensures old(midiData).Some? && !useEditedPrompt && old(customPrompt).IsBlank() ==>
        && customPrompt == Composed(LegacyCompose(language, songTitle, songMood, midiData.value).system)
        && showPromptPreview && request == None && error == old(error) && showSettings == old(showSettings)
        && isGeneratingAI == old(isGeneratingAI) && history.lyrics == old(history.lyrics)
      // no client
      ensures old(midiData).Some? && (useEditedPrompt || !old(customPrompt).IsBlank()) && !hasClient ==>
        && showSettings && error == Some(NoClientError) && request == None
        && customPrompt == old(customPrompt) && showPromptPreview == old(showPromptPreview)
        && isGeneratingAI == old(isGeneratingAI) && history.lyrics == old(history.lyrics)
      // the call
      ensures old(midiData).Some? && (useEditedPrompt || !old(customPrompt).IsBlank()) && hasClient ==>
        var prompts := LegacyCompose(language, songTitle, songMood, midiData.value);
        && request == Some(LegacyRequest(if useEditedPrompt then old(customPrompt) else Composed(prompts.system), prompts.user))
        && !isGeneratingAI && !showPromptPreview && customPrompt == old(customPrompt)
        && showSettings == old(showSettings)
        && (reply.Raised? ==> error == Some(CallFailure(reply.message)) && history.lyrics == old(history.lyrics))
        && (reply.Answer? && reply.text != "" ==> error == None && history.lyrics == Trim(reply.text))
        && (reply.Answer? && reply.text == "" ==> error == Some(EmptyAnswerError) && history.lyrics == old(history.lyrics))
    {
      request := None;
      if midiData.None? {
        error := Some(NoMidiError);
        return;
      }
      var prompts := LegacyCompose(language, songTitle, songMood, midiData.value);
      var systemContent := if useEditedPrompt then customPrompt else Composed(prompts.system);
      var userContent := prompts.user;
      if !useEditedPrompt && customPrompt.IsBlank() {
        customPrompt := systemContent;
        showPromptPreview := true;
        return;
      }
      // The fallback for an empty edited prompt writes the same value back.
      if useEditedPrompt && customPrompt.IsBlank() {
        customPrompt := systemContent;
      }
      if !hasClient {
        showSettings := true;
        error := Some(NoClientError);
        return;
      }
      isGeneratingAI := true;
      error := None;
      showPromptPreview := false;
      request := Some(LegacyRequest(systemContent, userContent));
      match reply {
        case Answer(text) =>
          if text != "" {
            history.SetLyrics(Trim(text));
          } else {
            error := Some(EmptyAnswerError);
          }
        case Raised(message) =>
          error := Some(CallFailure(message));
      }
      isGeneratingAI := false;
    }

    /** The clearing analyzeMidi does before it decodes a file. */
    method BeginLoad()
      modifies this, history
      ensures isLoading && error == None && midiData == None && currentFileName == None
      ensures songTitle == "" && songMood == ""
      ensures history.lyrics == "" && history.Current() == Timeline([], -1)
      ensures customPrompt == old(customPrompt) && language == old(language) && hasClient == old(hasClient)
      ensures isGeneratingAI == old(isGeneratingAI) && showSettings == old(showSettings)
      ensures showPromptPreview == old(showPromptPreview)
    {
      isLoading := true;
      error := None;
      midiData := None;
      currentFileName := None;
      history.Clear();
      songTitle := "";
      songMood := "";
    }

    /** analyzeMidi: a file with the loaded name while data is loaded is
        skipped. Otherwise lyrics, title, mood and history are cleared, the
        file is analysed with its notes sorted by time, and the prompt cell
        gets the system prompt composed with the settings as they were
        before the clearing. A failure leaves no data and no file name. */
    method AnalyzeMidi(file: MidiFile)
      modifies this, history
      ensures old(currentFileName) == Some(file.name) && old(midiData).Some? ==>
        && midiData == old(midiData) && currentFileName == old(currentFileName) && error == old(error)
        && songTitle == old(songTitle) && songMood == old(songMood) && customPrompt == old(customPrompt)
        && isLoading == old(isLoading) && history.lyrics == old(history.lyrics) && history.Current() == old(history.Current())
      ensures !(old(currentFileName) == Some(file.name) && old(midiData).Some?) ==>
        && !isLoading && songTitle == "" && songMood == ""
        && history.lyrics == "" && history.Current() == Timeline([], -1)
      ensures !(old(currentFileName) == Some(file.name) && old(midiData).Some?) && file.content.Tracks? ==>
        && midiData.Some? && IsSortedAnalysisOf(midiData.value, file.content.tracks, file.content.duration)
        && currentFileName == Some(file.name) && error == None
        && customPrompt == Composed(LegacyCompose(old(language), old(songTitle), old(songMood), midiData.value).system)
      ensures !(old(currentFileName) == Some(file.name) && old(midiData).Some?) && file.content.DecodeFailed? ==>
        && midiData == None && currentFileName == None && error == Some(FailedParse)
        && customPrompt == old(customPrompt)
      ensures language == old(language) && hasClient == old(hasClient)
      ensures isGeneratingAI == old(isGeneratingAI) && showSettings == old(showSettings)
      ensures showPromptPreview == old(showPromptPreview)
    {
      if currentFileName == Some(file.name) && midiData.Some? {
        return;
      }
      var title, mood := songTitle, songMood;
      BeginLoad();
      if file.content.Tracks? {
        var analysis := Analyze(file.content.tracks, file.content.duration);
        currentFileName := Some(file.name);
        midiData := Some(analysis);
        var prompts := LegacyCompose(language, title, mood, analysis);
        customPrompt := Composed(prompts.system);
      } else {
        error := Some(FailedParse);
        midiData := None;
        currentFileName := None;
        history.SetLyrics("");
      }
      isLoading := false;
    }

    /** resetState: no data, no lyrics, no error, no file name. The history
        list is left as it is. */
    method ResetState()
      modifies this, history
      ensures midiData == None && error == None && currentFileName == None
      ensures history.lyrics == "" && history.Current() == old(history.Current())
      ensures isLoading == old(isLoading) && isGeneratingAI == old(isGeneratingAI)
      ensures customPrompt == old(customPrompt) && showPromptPreview == old(showPromptPreview)
      ensures showSettings == old(showSettings) && language == old(language)
      ensures songTitle == old(songTitle) && songMood == old(songMood) && hasClient == old(hasClient)
    {
      midiData := None;
      history.SetLyrics("");
      error := None;
      currentFileName := None;
    }

    /** handleFileChange, the handler the file input calls: every choice
        resets the state first; the notes are kept in track order. */
    method HandleFileChange(file: Option<MidiFile>)
      modifies this, history
      ensures history.lyrics == "" && history.Current() == old(history.Current())
      ensures file.None? ==> midiData == None && error == None && currentFileName == None && isLoading == old(isLoading)
      ensures file.Some? ==> !isLoading && match file.value.content
        case Tracks(tracks, duration) =>
          && midiData == Some(FlatAnalysis(tracks, duration))
          && currentFileName == Some(file.value.name) && error == None
        case DecodeFailed(message) =>
          && midiData == None && currentFileName == None && error == Some(ParseFailure(message))
      ensures customPrompt == old(customPrompt) && showPromptPreview == old(showPromptPreview)
      ensures isGeneratingAI == old(isGeneratingAI) && showSettings == old(showSettings)
      ensures language == old(language) && songTitle == old(songTitle) && songMood == old(songMood)
      ensures hasClient == old(hasClient)
    {
      if file.None? {
        ResetState();
        return;
      }
      ResetState();
      currentFileName := Some(file.value.name);
      isLoading := true;
      error := None;
      match file.value.content {
        case Tracks(tracks, duration) =>
          midiData := Some(FlatAnalysis(tracks, duration));
        case DecodeFailed(message) =>
          error := Some(ParseFailure(message));
          midiData := None;
          currentFileName := None;
      }
      isLoading := false;
    }
  }
}
