/** The start-up settings check of main.tsx: before the application renders,
    a missing or unknown stored provider name is replaced by the default. */
module AppSettings {
  import opened Basics
  import opened BrowserStorage
  import opened AIProviderHook

  /** The provider names main.tsx accepts. */
  const ValidProviders: seq<string> := ["openai", "google25", "anthropic"]

  /** main.tsx's list holds exactly the names of the hook's providers. */
  lemma ValidProvidersAreProviderNames(s: string)
    ensures s in ValidProviders <==> ParseProvider(s).Some?
    ensures forall p: Provider :: ProviderName(p) in ValidProviders
  {
    forall p: Provider ensures ProviderName(p) in ValidProviders {
      match p {
        case OpenAI => assert ValidProviders[0] == ProviderName(p);
        case Google25 => assert ValidProviders[1] == ProviderName(p);
        case Anthropic => assert ValidProviders[2] == ProviderName(p);
      }
    }
  }

  /** The stored entries after the check: a valid stored name is kept, anything
      else (missing, empty, unknown) becomes the default; no other entry changes. */
  function NormalizeSettings(entries: map<string, string>): (r: map<string, string>)
    ensures ProviderEntry in r && r[ProviderEntry] in ValidProviders
    ensures ProviderEntry in entries && entries[ProviderEntry] in ValidProviders ==> r == entries
    ensures !(ProviderEntry in entries && entries[ProviderEntry] in ValidProviders) ==>
      r[ProviderEntry] == ProviderName(DefaultProvider)
    ensures r.Keys == entries.Keys + {ProviderEntry}
    ensures forall k :: k in entries && k != ProviderEntry ==> r[k] == entries[k]
  {
    if ProviderEntry !in entries || entries[ProviderEntry] == "" || entries[ProviderEntry] !in ValidProviders
    then entries[ProviderEntry := ProviderName(DefaultProvider)]
    else entries
  }

  /** Running the check twice is running it once. */
  lemma NormalizeIdempotent(entries: map<string, string>)
    ensures NormalizeSettings(NormalizeSettings(entries)) == NormalizeSettings(entries)
  {
    var once := NormalizeSettings(entries);
    assert ProviderEntry in once && once[ProviderEntry] in ValidProviders;
  }

  /** initializeAppSettings. An unavailable storage is reported and left alone. */
  method InitializeAppSettings(storage: LocalStorage)
    modifies storage
    ensures storage.entries == if storage.blocked then old(storage.entries) else NormalizeSettings(old(storage.entries))
  {
    var currentProvider, threw := storage.GetItem(ProviderEntry);
    if threw {
      return;
    }
    if currentProvider.None? || currentProvider.value == "" || currentProvider.value !in ValidProviders {
      threw := storage.SetItem(ProviderEntry, ProviderName(DefaultProvider));
    }
  }
}
