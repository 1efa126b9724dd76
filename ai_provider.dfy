/** The provider settings hook (use-ai-provider.ts): the API key typed in the
    settings dialog, the chosen provider, the client built from them, and the
    two localStorage entries holding them. The SDK clients themselves are
    out of the model; a client is its provider tag. */
module AIProviderHook {
  import opened Basics
  import opened BrowserStorage

  datatype Provider = OpenAI | Google25 | Anthropic

  /** The provider's name as stored and as compared in the generator. */
  function ProviderName(p: Provider): string {
    match p
    case OpenAI => "openai"
    case Google25 => "google25"
    case Anthropic => "anthropic"
  }

  /** The provider a stored name denotes, if any. */
  function ParseProvider(s: string): (r: Option<Provider>)
    ensures r.Some? <==> s == "openai" || s == "google25" || s == "anthropic"
    ensures r.Some? ==> ProviderName(r.value) == s
  {
    if s == "openai" then Some(OpenAI)
    else if s == "google25" then Some(Google25)
    else if s == "anthropic" then Some(Anthropic)
    else None
  }

  /** Names and providers correspond one to one. */
  lemma ProviderNameRoundTrip(p: Provider, q: Provider)
    ensures ParseProvider(ProviderName(p)) == Some(p)
    ensures ProviderName(p) == ProviderName(q) ==> p == q
  {
    assert ParseProvider(ProviderName(p)) == Some(p);
    if ProviderName(p) == ProviderName(q) {
      assert ParseProvider(ProviderName(q)) == Some(q);
    }
  }

  /** DEFAULT_API_PROVIDER. */
  const DefaultProvider: Provider := Anthropic

  /** An AIClient: the SDK object it holds is the one of its provider tag. */
  datatype AIClient = AIClient(provider: Provider)

  /** The client the selection effect builds: none without a key, otherwise
      one for the chosen provider. */
  function ClientFor(apiKey: string, provider: Provider): (r: Option<AIClient>)
    ensures r.None? <==> apiKey == ""
    ensures r.Some? ==> r.value.provider == provider
  {
    if apiKey == "" then None else Some(AIClient(provider))
  }

  /** resetLocalStorage: the key entry removed and the provider entry set to
      the default; false when storage is unavailable. */
  method ResetLocalStorage(storage: LocalStorage) returns (ok: bool)
    modifies storage
    ensures ok == !storage.blocked
    ensures storage.entries == if ok then (old(storage.entries) - {ApiKeyEntry})[ProviderEntry := ProviderName(DefaultProvider)]
                               else old(storage.entries)
  {
    var current, threw := storage.GetItem(ProviderEntry);
    if threw {
      return false;
    }
    // Storage that answered once answers every later call.
    threw := storage.RemoveItem(ApiKeyEntry);
    threw := storage.SetItem(ProviderEntry, ProviderName(DefaultProvider));
    var confirmed;
    confirmed, threw := storage.GetItem(ProviderEntry);
    ok := !threw;
  }

  class AIProvider {
    var apiKey: string
    var apiProvider: Provider
    var aiClient: Option<AIClient>
    const storage: LocalStorage

    /** The hook's initial state: no key, the default provider, no client. */
    constructor (storage: LocalStorage)
      ensures apiKey == "" && apiProvider == DefaultProvider && aiClient == None
      ensures this.storage == storage
    {
      apiKey, apiProvider, aiClient := "", DefaultProvider, None;
      this.storage := storage;
    }

    /** isClientReady. */
    predicate IsClientReady()
      reads this
    {
      aiClient.Some?
    }

    /** setApiKey, from the settings dialog. */
    method SetApiKey(key: string)
      modifies this
      ensures apiKey == key && apiProvider == old(apiProvider) && aiClient == old(aiClient)
    {
      apiKey := key;
    }

    /** setApiProvider, from the settings dialog. */
    method SetApiProvider(p: Provider)
      modifies this
      ensures apiProvider == p && apiKey == old(apiKey) && aiClient == old(aiClient)
    {
      apiProvider := p;
    }

    /** The mount effect: the stored provider and the state are forced to the
        default, whatever was stored. When storage throws, the state is left. */
    method OnMount() returns (threw: bool)
      modifies this, storage
      ensures threw == storage.blocked
      ensures storage.entries == if threw then old(storage.entries)
                                 else old(storage.entries)[ProviderEntry := ProviderName(DefaultProvider)]
      ensures apiProvider == (if threw then old(apiProvider) else DefaultProvider)
      ensures apiKey == old(apiKey) && aiClient == old(aiClient)
    {
      threw := storage.SetItem(ProviderEntry, ProviderName(DefaultProvider));
      if !threw {
        apiProvider := DefaultProvider;
      }
    }

    /** The client-selection effect, run after the key or the provider changes:
        the client is ready exactly when a key is set, and is for the chosen provider. */
    method SelectClient()
      modifies this
      ensures aiClient == ClientFor(apiKey, apiProvider)
      ensures IsClientReady() <==> apiKey != ""
      ensures IsClientReady() ==> aiClient.value.provider == apiProvider
      ensures apiKey == old(apiKey) && apiProvider == old(apiProvider)
    {
      if apiKey == "" {
        aiClient := None;
        return;
      }
      match apiProvider {
        case OpenAI => aiClient := Some(AIClient(OpenAI));
        case Google25 => aiClient := Some(AIClient(apiProvider));
        case Anthropic => aiClient := Some(AIClient(Anthropic));
      }
    }

    /** handleApiKeySubmit: a non-empty key is saved with the provider name;
        an empty key saves nothing. */
    method HandleApiKeySubmit() returns (threw: bool)
      modifies storage
      ensures threw == (apiKey != "" && storage.blocked)
      ensures storage.entries ==
        if apiKey != "" && !storage.blocked
        then old(storage.entries)[ApiKeyEntry := apiKey][ProviderEntry := ProviderName(apiProvider)]
        else old(storage.entries)
    {
      threw := false;
      if apiKey != "" {
        threw := storage.SetItem(ApiKeyEntry, apiKey);
        if !threw {
          threw := storage.SetItem(ProviderEntry, ProviderName(apiProvider));
        }
      }
    }

    /** handleApiKeyDelete: no key, no stored key, the default provider in
        state and storage, and no client. The key is cleared first, so when
        storage throws only that has happened. */
    method HandleApiKeyDelete() returns (threw: bool)
      modifies this, storage
      ensures threw == storage.blocked
      ensures apiKey == ""
      ensures !threw ==>
        && storage.entries == (old(storage.entries) - {ApiKeyEntry})[ProviderEntry := ProviderName(DefaultProvider)]
        && apiProvider == DefaultProvider && aiClient == None && !IsClientReady()
      ensures threw ==>
        && storage.entries == old(storage.entries)
        && apiProvider == old(apiProvider) && aiClient == old(aiClient)
    {
      apiKey := "";
      threw := storage.RemoveItem(ApiKeyEntry);
      if threw {
        return;
      }
      apiProvider := DefaultProvider;
      threw := storage.SetItem(ProviderEntry, ProviderName(DefaultProvider));
      aiClient := None;
    }
  }
}
