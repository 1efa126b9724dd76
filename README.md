# MIDI lyrics generator — a Dafny model of its core

The application reads a MIDI file in the browser. It summarises the melody: note count, mean pitch, and the notes sorted by start time. It writes one placeholder syllable per note from the note's duration: `ラ` for notes up to 0.5 s, `ラー` up to 1.0 s, `ラーー` above. The syllables are grouped four to a phrase.

From the melody and the song settings (language, title, mood, optional user scratch lyrics), it composes a system prompt and a user prompt. The user can preview and edit the system prompt, then send both to the chosen AI provider (OpenAI, Google or Anthropic). The answer is stored as the lyrics, with an undo/redo history.

Around this sit several smaller pieces:
- the scratch-lyrics editor, with a "reset" button and a "syllable dividers" rewrite;
- the provider settings (API key, provider, client), stored in localStorage;
- a start-up check of the stored provider name;
- an older single-component application (`attached_assets/App.tsx`) with its own composer, preview rule and two file handlers.

The model has one module per part of the program:

| module | file | models |
|---|---|---|
| `Basics` | basics.dfy | Option, the prompt text cell, `Array.prototype.join`, `String.prototype.split`, `String.prototype.trim` |
| `Midi` | midi.dfy | decoded notes, the MidiAnalysis record, flattening tracks, mean pitch |
| `Phrases` | phrases.dfy | the six-bucket duration classifier, the syllables, four-note phrase grouping |
| `TempLyrics` | temp_lyrics.dfy | temp-lyrics-editor.tsx: generated scratch lyrics, the divider rewrite, the editor state |
| `History` | history.dfy | the lyrics undo/redo history shared by both generators |
| `MidiAnalysisHook` | midi_analysis.dfy | use-midi-analysis.ts: the aggregation loops, the in-place sort, the hook state |
| `BrowserStorage` | storage.dfy | localStorage as a string map that can be unavailable |
| `AIProviderHook` | ai_provider.dfy | use-ai-provider.ts: key, provider, client selection, storage handlers |
| `AppSettings` | app_settings.dfy | main.tsx: start-up normalisation of the stored provider |
| `LyricsGenerator` | lyrics_generator.dfy | use-lyrics-generator.ts: prompt composition and the generation gates |
| `LegacyApp` | legacy_app.dfy | attached_assets/App.tsx: the older composer, generator and file handlers |

Each React hook or component becomes a class. Its fields are the component's state cells. Each effect and handler is one method, run as one atomic step.

Outside inputs are parameters:
- A MIDI file arrives already decoded, as tracks of notes or as a decoding failure.
- The provider's answer arrives as a `Reply`: a text, or an exception with an optional message.
- Whether localStorage is available is fixed when the storage object is created.

## Model

| member | source | states |
|---|---|---|
| Phrases.Classify | client/src/hooks/use-lyrics-generator.ts:99-121 | each duration falls in exactly one of six buckets with inclusive upper bounds 0.125, 0.25, 0.5, 1.0 and 2.0 s, each bucket given as an if-and-only-if |
| Phrases.Symbols | client/src/hooks/use-lyrics-generator.ts:99-121 | one syllable per note, in note order, being the syllable of the note's bucket |
| Phrases.GroupSymbols | client/src/hooks/use-lyrics-generator.ts:124-136 | the grouping loop, which closes a phrase after every fourth syllable and after the last, yields the four-note chunks joined inside by the separator and between phrases by two spaces |
| Phrases.ChunksShape | client/src/hooks/use-lyrics-generator.ts:124-133 | grouping loses and reorders nothing; ceil(n/4) phrases; all phrases hold four syllables except the last, which holds one to four |
| Phrases.PatternOfNoNotes | client/src/hooks/use-lyrics-generator.ts:124-136 | no notes give the empty pattern |
| Phrases.FourNoteScenario | client/src/hooks/use-lyrics-generator.ts:99-136 | durations 0.1, 0.6, 1.5 and 3.0 s fall in the very-short, quarter, half and whole buckets and give the single phrase `ラ,ラー,ラーー,ラーー` |
| LyricsGenerator.TallyNotes | client/src/hooks/use-lyrics-generator.ts:86-121 | the counting loop's six counters are the bucket counts of the notes, and its pushed syllables are `Symbols(notes)` |
| LyricsGenerator.CountsTotal | client/src/hooks/use-lyrics-generator.ts:86-121 | the six counts add up to the number of notes |
| LyricsGenerator.CountsMatchSymbols | client/src/hooks/use-lyrics-generator.ts:99-121 | the number of `ラ`, `ラー` and `ラーー` syllables equals the counts of the three short buckets, of the quarter bucket, and of the half and whole buckets |
| LyricsGenerator.TitleText | client/src/hooks/use-lyrics-generator.ts:146-154 | an empty title is shown as `指定なし` or `Not specified` by language, any other title verbatim |
| LyricsGenerator.MoodText | client/src/hooks/use-lyrics-generator.ts:143 | an empty mood or `none` is shown as the placeholder, any other mood verbatim |
| Basics.TrimSpec | client/src/hooks/use-lyrics-generator.ts:139 | trim returns a slice of its input with no whitespace at either end; it is non-empty exactly when the input has a non-whitespace character |
| LyricsGenerator.ComposeSpec | client/src/hooks/use-lyrics-generator.ts:78-276 | the prompt's counts cover every note; non-blank scratch lyrics replace the pattern verbatim, otherwise the generated pattern is used; both prompts show the same title, mood and language; the optional hint lines appear exactly when title or mood is given; the note summary is the first min(20, n) notes |
| LyricsGenerator.GeneratedPatternSyllables | client/src/hooks/use-lyrics-generator.ts:124-136 | the generated pattern string holds every note's syllable, in order. Split at the two-space breaks, it gives the comma-joined phrases ([""] for no notes). Each phrase split at its commas gives back that phrase's syllables, and the phrases together are the syllable sequence |
| LyricsGenerator.GeneratePrompt | client/src/hooks/use-lyrics-generator.ts:78-276 | the imperative composer (counting loop, grouping loop, override, template fields) yields exactly `Compose`, about which `ComposeSpec` states the properties |
| LyricsGenerator.CallFailure | client/src/hooks/use-lyrics-generator.ts:411 | a failed call shows the fixed prefix and the exception's message, or `不明なエラー` when the message is missing or empty |
| LyricsGenerator.LyricsGenerator.constructor | client/src/hooks/use-lyrics-generator.ts:37-55 | the initial state: no lyrics, an empty history at -1, not generating, no error, no user prompt. The hook gets its own new provider settings: key `''`, provider `anthropic`, no client |
| LyricsGenerator.LyricsGenerator.EditPrompt | client/src/hooks/use-lyrics-generator.ts:20-21 | the parent's prompt cell becomes the typed text and nothing else changes |
| LyricsGenerator.LyricsGenerator.GenerateAILyrics | client/src/hooks/use-lyrics-generator.ts:306-415 | the gates are applied in order. With no data, only the error is set. A non-edited request always opens the preview with the composed system prompt and sends nothing, key or no key. An edited request without a client only sets the error. Otherwise the request sent is exactly the prompt cell plus the freshly composed user prompt, and only when the client belongs to the chosen provider. A non-empty answer is stored trimmed. An empty answer, or no call, gives `AIが歌詞を生成できませんでした。`. An exception gives the prefixed message. `isGeneratingAI` is false afterwards in every case, and the history list is untouched |
| LyricsGenerator.LyricsGenerator.RefreshUserPrompt | client/src/hooks/use-lyrics-generator.ts:418-430 | with data, the shown user prompt is the composed one; without data, it is unchanged |
| History.RecordSpec | client/src/hooks/use-lyrics-generator.ts:57-67 | new non-empty lyrics that differ from the current entry drop the redo tail, are appended, and become the position; empty or equal lyrics change nothing; the list/position invariant is kept |
| History.RecordIdempotent | client/src/hooks/use-lyrics-generator.ts:59 | recording the same lyrics twice is recording them once |
| History.NavigateSpec | client/src/hooks/use-lyrics-generator.ts:279-288 | navigation keeps the list and clamps the position to [0, len-1]; it shows the entry exactly when the position moved; it throws only when going back on an empty list |
| History.UndoRedo | client/src/hooks/use-lyrics-generator.ts:279-288 | back then forward from any entry but the first returns to that entry and shows it |
| History.LyricsHistory.constructor | client/src/hooks/use-lyrics-generator.ts:37-41 | empty lyrics, empty history, position -1 |
| History.LyricsHistory.RecordEffect | client/src/hooks/use-lyrics-generator.ts:57-67 | the history effect's body, shared with attached_assets/App.tsx:104-113: the history becomes `Record` of the old one, and the lyrics are left alone |
| History.LyricsHistory.SetLyrics | client/src/hooks/use-lyrics-generator.ts:37 | `setLyrics`: the shown lyrics become the new value, and the history is untouched until its effect runs |
| History.RecordAfterClear | client/src/hooks/use-lyrics-generator.ts:57-75 | recording right after a new file emptied the history makes non-empty lyrics the single entry, at index 0; empty lyrics leave it empty |
| History.LyricsHistory.NavigateHistory | client/src/hooks/use-lyrics-generator.ts:279-288 | the state becomes `Navigate` of the old one; the lyrics change only when an entry was shown; `threw` reports the TypeError |
| History.LyricsHistory.OnFileName | client/src/hooks/use-lyrics-generator.ts:70-75 | a non-empty file name empties the history and sets the position to -1; no name or an empty name leaves it |
| History.LyricsHistory.Clear | attached_assets/App.tsx:501-505 | clearLyrics leaves the lyrics `''`, the history empty and the position -1 |
| TempLyrics.CollectSymbols | client/src/components/midi-lyrics-generator/temp-lyrics-editor.tsx:38-54 | the editor's classification loop pushes `Symbols(notes)`, the same syllables as the prompt composer |
| TempLyrics.GenerateTempLyrics | client/src/components/midi-lyrics-generator/temp-lyrics-editor.tsx:33-70 | the scratch lyrics are the phrase pattern with one space inside a phrase and two between phrases |
| TempLyrics.SpacesToSlashes | client/src/components/midi-lyrics-generator/temp-lyrics-editor.tsx:89 | the first replacement turns every space into `/` and keeps every other character and the length |
| TempLyrics.KeptOfSpacesToSlashes | client/src/components/midi-lyrics-generator/temp-lyrics-editor.tsx:89 | the first replacement keeps the characters other than space and `/`, in order |
| TempLyrics.CollapseLength | client/src/components/midi-lyrics-generator/temp-lyrics-editor.tsx:90 | collapsing slash runs never lengthens the text |
| TempLyrics.CollapseKept | client/src/components/midi-lyrics-generator/temp-lyrics-editor.tsx:90 | collapsing slash runs keeps the characters other than space and `/`, in order |
| TempLyrics.CollapseNoDoubleSlash | client/src/components/midi-lyrics-generator/temp-lyrics-editor.tsx:90 | after collapsing, no `//` remains |
| TempLyrics.CollapseNoDoubleSpace | client/src/components/midi-lyrics-generator/temp-lyrics-editor.tsx:90 | collapsing a text without spaces leaves no two spaces in a row |
| TempLyrics.DividersShape | client/src/components/midi-lyrics-generator/temp-lyrics-editor.tsx:88-90 | for every text, the divider rewrite leaves no `//` and no two consecutive spaces, is no longer than its input, and keeps every character other than space and `/` in order |
| TempLyrics.DividersExample | client/src/components/midi-lyrics-generator/temp-lyrics-editor.tsx:142 | `ラ ラ ラ ラ` becomes `ラ/ラ/ラ/ラ` |
| TempLyrics.DividersOnGenerated | client/src/components/midi-lyrics-generator/temp-lyrics-editor.tsx:33-94 | on freshly generated scratch lyrics, the rewrite gives the same phrases with `/` between syllables and one space between phrases |
| TempLyrics.TempLyricsEditor.constructor | client/src/components/midi-lyrics-generator/temp-lyrics-editor.tsx:19-20 | both texts start empty and nothing has been reported |
| TempLyrics.TempLyricsEditor.OnMidiData | client/src/components/midi-lyrics-generator/temp-lyrics-editor.tsx:23-30 | new data sets both texts to the generated pattern and reports it; no data changes nothing; the parent always holds the current text |
| TempLyrics.TempLyricsEditor.HandleTempLyricsChange | client/src/components/midi-lyrics-generator/temp-lyrics-editor.tsx:73-77 | an edit replaces the shown text only, keeps the original, and reports the identical value |
| TempLyrics.TempLyricsEditor.ResetToOriginal | client/src/components/midi-lyrics-generator/temp-lyrics-editor.tsx:80-83 | the shown text becomes the original, which is unchanged, so a second reset changes nothing; the value is reported |
| TempLyrics.TempLyricsEditor.AddDividers | client/src/components/midi-lyrics-generator/temp-lyrics-editor.tsx:86-94 | the shown text becomes the divider rewrite of the old text, and that value is reported |
| MidiAnalysisHook.Aggregate | client/src/hooks/use-midi-analysis.ts:66-81 | the nested track and note loops count every note of every track, sum their pitch numbers, and collect them track after track |
| MidiAnalysisHook.InsertAt | client/src/hooks/use-midi-analysis.ts:83 | one insertion pass extends the time-sorted prefix by one note and permutes the array |
| MidiAnalysisHook.SortByTime | client/src/hooks/use-midi-analysis.ts:83 | the in-place sort by start time leaves the array sorted and a permutation of its old contents |
| MidiAnalysisHook.SortedNotes | client/src/hooks/use-midi-analysis.ts:83 | the sorted notes are sorted by time and a permutation of the collected notes |
| MidiAnalysisHook.Analyze | client/src/hooks/use-midi-analysis.ts:66-90 | `noteCount` equals the notes over all tracks and the length of `notes`; `averagePitch` is the pitch sum over the count, or 0 for no notes; `notes` is the flattened notes, sorted by time and permuted |
| MidiAnalysisHook.ParseFailure | client/src/hooks/use-midi-analysis.ts:103 | a decoding failure shows the fixed prefix and the Error's message (even an empty one), or `不明なエラー` when what was thrown is not an Error |
| MidiAnalysisHook.MidiAnalyzer.constructor | client/src/hooks/use-midi-analysis.ts:17-28 | no data, no file name, not loading, no error, an empty ref |
| MidiAnalysisHook.MidiAnalyzer.ResetState | client/src/hooks/use-midi-analysis.ts:31-43 | data, error, file name and the ref are cleared |
| MidiAnalysisHook.MidiAnalyzer.AnalyzeMidi | client/src/hooks/use-midi-analysis.ts:46-107 | no file, or the ref's file name while the ref holds data, changes nothing. Otherwise a decoded file sets the data to its sorted analysis, the file name, no error, and writes the ref. A failure leaves no data, no file name, the prefixed error text, and the ref as it was. Loading is off afterwards |
| BrowserStorage.LocalStorage.GetItem | client/src/main.tsx:11 | getItem returns the stored value or null, unless storage throws |
| BrowserStorage.LocalStorage.SetItem | client/src/hooks/use-ai-provider.ts:69 | setItem stores the value, unless storage throws |
| BrowserStorage.LocalStorage.RemoveItem | client/src/hooks/use-ai-provider.ts:148 | removeItem deletes the entry, unless storage throws |
| AIProviderHook.ParseProvider | client/src/main.tsx:12 | a stored name denotes a provider exactly when it is `openai`, `google25` or `anthropic`, and that provider's name is the stored one |
| AIProviderHook.ProviderNameRoundTrip | client/src/hooks/use-ai-provider.ts:117-132 | provider names and providers correspond one to one |
| AIProviderHook.ClientFor | client/src/hooks/use-ai-provider.ts:111-133 | there is no client exactly when the key is empty; otherwise the client is the chosen provider's |
| AIProviderHook.ResetLocalStorage | client/src/hooks/use-ai-provider.ts:26-50 | the stored key is removed and the stored provider set to `anthropic`; the result is true exactly when storage did not throw, and then nothing else changes |
| AIProviderHook.AIProvider.constructor | client/src/hooks/use-ai-provider.ts:56-58 | key `''`, provider `anthropic`, no client |
| AIProviderHook.AIProvider.IsClientReady | client/src/hooks/use-ai-provider.ts:163 | `isClientReady` is true exactly when a client is held |
| AIProviderHook.AIProvider.SetApiKey | client/src/hooks/use-ai-provider.ts:56 | the key becomes the typed one |
| AIProviderHook.AIProvider.SetApiProvider | client/src/hooks/use-ai-provider.ts:57 | the provider becomes the chosen one |
| AIProviderHook.AIProvider.OnMount | client/src/hooks/use-ai-provider.ts:62-72 | whatever was stored, the provider is forced to `anthropic` in storage and in state; the key and client are untouched |
| AIProviderHook.AIProvider.SelectClient | client/src/hooks/use-ai-provider.ts:111-133 | the client is `ClientFor(key, provider)`: ready exactly when the key is non-empty, and tagged with the chosen provider |
| AIProviderHook.AIProvider.HandleApiKeySubmit | client/src/hooks/use-ai-provider.ts:136-142 | a non-empty key is stored together with the provider name; an empty key stores nothing |
| AIProviderHook.AIProvider.HandleApiKeyDelete | client/src/hooks/use-ai-provider.ts:145-153 | the key becomes `''`; when storage works, the stored key is removed, the provider is `anthropic` in state and storage, and there is no client (not ready) |
| AppSettings.ValidProvidersAreProviderNames | client/src/main.tsx:12 | the accepted list holds exactly the names of the hook's three providers |
| AppSettings.NormalizeSettings | client/src/main.tsx:11-19 | afterwards the stored provider is always valid. A valid stored value is left, and then nothing changes. A missing, empty or unknown one becomes `anthropic`. No other entry changes |
| AppSettings.NormalizeIdempotent | client/src/main.tsx:6-23 | running the start-up check twice is running it once |
| AppSettings.InitializeAppSettings | client/src/main.tsx:6-23 | the storage ends as `NormalizeSettings` of what it held, or unchanged when it throws |
| LegacyApp.CalculateSyllables | attached_assets/App.tsx:213-231 | always 1 or 2; always 1 in English; in Japanese 1 exactly when the duration is at most 0.5 s |
| LegacyApp.SyllablesMatchSymbols | attached_assets/App.tsx:213-231 | in Japanese, two syllables are allowed exactly when the newer composer writes a lengthened syllable |
| LegacyApp.LegacyComposeSpec | attached_assets/App.tsx:234-260 | an empty title or mood becomes `指定なし` in both languages; `none` is a mood like any other; the hint lines appear exactly when given; the summary is the first min(20, n) notes. For Japanese, it agrees with the newer composer on title and summary, and on mood except `none` |
| LegacyApp.FlatAnalysis | attached_assets/App.tsx:457-473 | handleFileChange's analysis counts every note over all tracks, `noteCount` equals the length of `notes`, and the mean pitch is over all notes |
| LegacyApp.FlatAnalysisKeepsOrder | attached_assets/App.tsx:457-473 | handleFileChange keeps each note at its flatMap position, unsorted |
| LegacyApp.HandlersAgreeUpToOrder | attached_assets/App.tsx:355-379 | analyzeMidi's analysis agrees with handleFileChange's on count, length and mean pitch; its notes are the same multiset, but sorted by time |
| LegacyApp.App.constructor | attached_assets/App.tsx:71-94 | the initial state of the older application. There is no data, no file name and no error, and nothing is loading, generating or shown. The prompt cell is empty, the language Japanese, and title and mood empty. The lyrics are `''` and the history is new, empty, at index -1 |
| LegacyApp.App.SetSongSettings | attached_assets/App.tsx:78-91 | language, title and mood become the chosen ones; nothing else changes |
| LegacyApp.App.EditPrompt | attached_assets/App.tsx:77 | the prompt cell becomes the typed text; nothing else changes |
| LegacyApp.App.GenerateAILyrics | attached_assets/App.tsx:263-329 | with no data, only the error is set. The preview opens only for a non-edited request while the prompt cell is empty. Otherwise a missing client opens the settings and sets `APIキーが設定されていません` without a call. A call sends the composed system prompt, or the cell when edited, and closes the preview. A non-empty answer is stored trimmed, an empty one gives the error, an exception gives the prefixed message. Generation is off afterwards |
| LegacyApp.App.BeginLoad | attached_assets/App.tsx:339-349 | before decoding: loading, no error, no data, no file name, lyrics/title/mood cleared and history emptied |
| LegacyApp.App.AnalyzeMidi | attached_assets/App.tsx:332-406 | the loaded file name while data is loaded is skipped. Otherwise lyrics, title, mood and history are cleared. A decoded file gives its sorted analysis and file name, and the prompt cell gets the system prompt composed with the title and mood as they were before the clearing. A failure gives no data, no file name and `MIDIファイルの解析に失敗しました` |
| LegacyApp.App.ResetState | attached_assets/App.tsx:175-188 | data, lyrics, error and file name are cleared; the history list is left |
| LegacyApp.App.HandleFileChange | attached_assets/App.tsx:440-485 | every choice first resets the state. No file stops there. A decoded file gives the unsorted flatMap analysis and its file name. A failure gives no data, no file name and the prefixed error text |

## Left out

- MIDI decoding by `@tonejs/midi` is not modelled: a file arrives as decoded tracks (`Midi.Decoded`) or as a failure with an optional message.
- The OpenAI, Google and Anthropic SDK calls are foreign network I/O. The answer is an input `Reply`, and a client is its provider tag (`AIProviderHook.AIClient`). The per-provider message layout (system and user messages for OpenAI, a single joined message for Google and Anthropic) is not modelled. Neither are the model names, temperature and token limits, or the Anthropic content-block check, beyond an answer that can be empty.
- `LyricsGenerator.Compose` and `LegacyApp.LegacyCompose` keep the prompts as their filled-in fields. The fixed template prose is not modelled, and neither is the `toFixed(2)` formatting of durations, lengths and mean pitch. Notes in the summary are kept whole, not rendered as `name(duration s)`.
- Durations are exact reals; JavaScript floating-point rounding is not modelled.
- Strings are sequences of Unicode code points, while JavaScript strings are UTF-16 code units. Lengths and indices of text outside the Basic Multilingual Plane would differ; no property proved here depends on them.
- React scheduling is not modelled. Each effect and handler is one atomic step, async/await interleavings are not modelled, and the effects run when the caller invokes their method.
- The `timestamp: Date.now()` of history entries is not modelled; an entry is its lyrics.
- Not modelled: copying to the clipboard (`copyLyrics`, `handleCopyLyrics`, `handleCopyPrompt`, `copyLyricsToClipboard`), the `isCopied` flag and its `setTimeout`, and `console` logging.
- The hook's `error` for a failed copy is not modelled, as part of the clipboard code.
- The unreachable code after the forced reset on mount in use-ai-provider.ts (lines 75-107) is not modelled, because it never runs.
- The legacy application's own API-key handling is not modelled: the `openai_api_key` storage reads and writes, `initializeOpenAIClient`, the apiKey effect, `handleApiKeySubmit` and `handleApiKeyDelete`. Its client is the flag `LegacyApp.App.hasClient`, given when the application is created.
- `handleFileUpload` and `getPromptPreview` in attached_assets/App.tsx are not modelled separately; `LegacyApp.App.AnalyzeMidi` is the handler `handleFileUpload` calls.
- Resetting the DOM file input's value is not modelled.
- The web component, the views and dialogs, the ads, the pages and the build configuration are not modelled.
- The JSX after `export default App` at the end of attached_assets/App.tsx is not modelled.
- Not modelled, because the code has none of them: a guard against concurrent generation requests (there are only disabled buttons), discarding stale results, and a "has user breaks" flag.
- BrowserStorage.LocalStorage: whether storage is available is fixed for the object's lifetime. A storage that works for one call and throws on the next is not modelled, so a handler that throws half-way is only modelled at its first access.
- LyricsGenerator.LyricsGenerator.GenerateAILyrics: the fallback for an empty edited prompt (use-lyrics-generator.ts:324-326) writes the cell's own value back. It is modelled as such, and the contract states the cell unchanged.
- LegacyApp.App.GenerateAILyrics: the same holds for attached_assets/App.tsx:282-284.
- History.LyricsHistory.RecordEffect: when the effect runs is not modelled. The hook's effect depends on the lyrics, the list and the index, so it runs again after `OnFileName` empties the list: lyrics still shown then become the single entry at index 0, as `History.RecordAfterClear` states. The older application's effect depends on the lyrics only, so its list stays empty until the lyrics change. Callers run the effect method at those points.
- LyricsGenerator.LyricsGenerator.GenerateAILyrics: the lyrics are not recorded into the history by this method. That is done by `History.LyricsHistory.RecordEffect`, the separate history effect.
- MidiAnalysisHook.SortByTime: the contract states sorted and permuted, but not that notes with equal start times keep their order. `Array.prototype.sort` is stable, and so is the insertion sort, but the model does not prove stability.
- AIProviderHook.AIProvider.SelectClient: the SDK client objects are not built, so `dangerouslyAllowBrowser` and the per-provider constructor arguments are out of the model.

Two points where the behaviour stated here follows the code:
- A whitespace-only answer is stored as `''` without an error, because the emptiness test runs before trimming.
- The newer hook opens the preview for every non-edited request; only the older application checks whether the prompt cell is empty.
