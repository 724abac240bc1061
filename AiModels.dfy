/** Provider detection and API-key selection for the server-side models
    (apps/api/src/lib/ai-models.ts). The model the AI SDK would build is
    represented by the provider, model name and key chosen for it. */
module AiModels {
  import opened Wrappers
  import opened Text
  import opened UserApiKeys

  /** The model used whenever a provider other than Google has no key. */
  const FallbackModel := "gemini-2.0-flash"

  predicate NamesOpenAI(m: string) { StartsWith(m, "gpt-") || Contains(m, "openai") }
  predicate NamesAnthropic(m: string) { StartsWith(m, "claude-") || Contains(m, "anthropic") }
  predicate NamesGoogle(m: string) { StartsWith(m, "gemini-") || Contains(m, "google") }
  predicate NamesXai(m: string) { StartsWith(m, "grok-") || Contains(m, "xai") }

  /** `detectProviderFromModel` (ai-models.ts:134-148): the rules are tried in
      the order openai, anthropic, google, xai; the first that matches wins and
      a name matching none maps to Google. */
  function DetectProvider(m: string): (r: Provider)
    ensures r == OpenAI <==> NamesOpenAI(m)
    ensures r == Anthropic <==> !NamesOpenAI(m) && NamesAnthropic(m)
    ensures r == XAI <==> !NamesOpenAI(m) && !NamesAnthropic(m) && !NamesGoogle(m) && NamesXai(m)
    ensures r == Google <==> !NamesOpenAI(m) && !NamesAnthropic(m) && (NamesGoogle(m) || !NamesXai(m))
  {
    if NamesOpenAI(m) then OpenAI
    else if NamesAnthropic(m) then Anthropic
    else if NamesGoogle(m) then Google
    else if NamesXai(m) then XAI
    else Google
  }

  /** Each family's own prefix selects it: `gpt-4o` is OpenAI, ... */
  lemma DetectGpt()
    ensures DetectProvider("gpt-4o") == OpenAI
  {
    assert StartsWith("gpt-4o", "gpt-");
  }

  /** ... `claude-3-opus` is Anthropic, ... */
  lemma DetectClaude()
    ensures DetectProvider("claude-3-opus") == Anthropic
  {
    assert !NamesOpenAI("claude-3-opus") by {
      DiffersAt("claude-3-opus", "gpt-", 0);
      MissingCharNotContained("claude-3-opus", "openai", 5);
    }
    assert NamesAnthropic("claude-3-opus") by {
      assert StartsWith("claude-3-opus", "claude-");
    }
  }

  /** ... `gemini-pro` is Google ... */
  lemma DetectGemini()
    ensures DetectProvider("gemini-pro") == Google
  {
    DiffersAt("gemini-pro", "gpt-", 1);
    MissingCharNotContained("gemini-pro", "openai", 4);
    DiffersAt("gemini-pro", "claude-", 0);
    MissingCharNotContained("gemini-pro", "anthropic", 0);
    assert StartsWith("gemini-pro", "gemini-");
  }

  /** ... and `grok-2` is xAI. */
  lemma DetectGrok()
    ensures DetectProvider("grok-2") == XAI
  {
    DiffersAt("grok-2", "gpt-", 1);
    MissingCharNotContained("grok-2", "openai", 1);
    DiffersAt("grok-2", "claude-", 0);
    MissingCharNotContained("grok-2", "anthropic", 0);
    DiffersAt("grok-2", "gemini-", 1);
    MissingCharNotContained("grok-2", "google", 4);
    assert StartsWith("grok-2", "grok-");
  }

  /** A name matching two rules goes to the earlier one. */
  lemma DetectFirstRuleWins()
    ensures DetectProvider("claude-via-openai") == OpenAI
  {
    ContainsAt("claude-via-openai", "openai", 11);
  }

  /** A name matching no rule goes to Google. */
  lemma DetectDefault()
    ensures DetectProvider("llama3") == Google
  {
    DiffersAt("llama3", "gpt-", 0);
    MissingCharNotContained("llama3", "openai", 0);
    DiffersAt("llama3", "claude-", 0);
    MissingCharNotContained("llama3", "anthropic", 1);
    DiffersAt("llama3", "gemini-", 0);
    MissingCharNotContained("llama3", "google", 0);
    DiffersAt("llama3", "grok-", 0);
    MissingCharNotContained("llama3", "xai", 0);
  }

  /** JavaScript truthiness of an optional string. */
  predicate Truthy(v: Option<string>) { v.Some? && v.value != "" }

  /** `a || b` */
  function Or(a: Option<string>, b: Option<string>): (r: Option<string>)
    ensures Truthy(a) ==> r == a
    ensures !Truthy(a) ==> r == b
    ensures Truthy(r) <==> Truthy(a) || Truthy(b)
  {
    if Truthy(a) then a else b
  }

  /** `userKeys?.<provider>ApiKey` */
  function UserKey(userKeys: Option<KeyRecord>, p: Provider): (r: Option<string>)
    ensures userKeys.None? ==> r.None?
    ensures userKeys.Some? ==> r == userKeys.value.Get(p)
  {
    match userKeys case Some(k) => k.Get(p) case None => None
  }

  /** The model `getAIModel` builds: its provider, model name and API key. */
  datatype ModelChoice = ModelChoice(provider: Provider, model: string, apiKey: Option<string>)

  /** The key of the Gemini fallback: the system key first, then the user's,
      else none (`env.GOOGLE_GENERATIVE_AI_API_KEY || userKeys?.googleApiKey || undefined`). */
  function FallbackKey(userKeys: Option<KeyRecord>, system: KeyRecord): (r: Option<string>)
    ensures Truthy(system.google) ==> r == system.google
    ensures !Truthy(system.google) && Truthy(UserKey(userKeys, Google)) ==> r == UserKey(userKeys, Google)
    ensures !Truthy(system.google) && !Truthy(UserKey(userKeys, Google)) ==> r == None
  {
    var k := Or(system.google, UserKey(userKeys, Google));
    if Truthy(k) then k else None
  }

  /** `getAIModel` (ai-models.ts:45-129). `provider` is the explicit option,
      `userKeys` what `getUserApiKeys` returned, `system` the server's keys. */
  function GetAIModel(modelName: string, provider: Option<Provider>,
                      userKeys: Option<KeyRecord>, system: KeyRecord): (r: ModelChoice)
    ensures r.model == modelName || r == ModelChoice(Google, FallbackModel, FallbackKey(userKeys, system))
    ensures r.provider != Google ==> Truthy(r.apiKey)
    ensures r.provider == Chosen(modelName, provider) || r == ModelChoice(Google, FallbackModel, FallbackKey(userKeys, system))
  {
    var chosen := Chosen(modelName, provider);
    if chosen == Google then
      ModelChoice(Google, modelName, Or(UserKey(userKeys, Google), system.google))
    else
      var key := Or(UserKey(userKeys, chosen), system.Get(chosen));
      if Truthy(key) then ModelChoice(chosen, modelName, key)
      else ModelChoice(Google, FallbackModel, FallbackKey(userKeys, system))
  }

  /** The provider in effect: the explicit one, else the detected one. */
  function Chosen(modelName: string, provider: Option<Provider>): (r: Provider)
    ensures provider.Some? ==> r == provider.value
    ensures provider.None? ==> r == DetectProvider(modelName)
  {
    match provider case Some(p) => p case None => DetectProvider(modelName)
  }

  /** For OpenAI, Anthropic and xAI the user's key wins over the system key,
      the system key is used when the user has none, and with neither the
      request becomes Gemini 2.0 Flash whatever name was asked for. */
  lemma KeyPriority(modelName: string, provider: Option<Provider>, userKeys: Option<KeyRecord>, system: KeyRecord)
    requires Chosen(modelName, provider) != Google
    ensures var p := Chosen(modelName, provider);
            var r := GetAIModel(modelName, provider, userKeys, system);
            && (Truthy(UserKey(userKeys, p)) ==> r == ModelChoice(p, modelName, UserKey(userKeys, p)))
            && (!Truthy(UserKey(userKeys, p)) && Truthy(system.Get(p)) ==> r == ModelChoice(p, modelName, system.Get(p)))
            && (!Truthy(UserKey(userKeys, p)) && !Truthy(system.Get(p)) ==>
                  r == ModelChoice(Google, FallbackModel, FallbackKey(userKeys, system)))
  {
  }

  /** The Google branch always keeps the requested name and tries the user's
      key before the system key. */
  lemma GoogleKeepsName(modelName: string, provider: Option<Provider>, userKeys: Option<KeyRecord>, system: KeyRecord)
    requires Chosen(modelName, provider) == Google
    ensures var r := GetAIModel(modelName, provider, userKeys, system);
            && r.provider == Google && r.model == modelName
            && (Truthy(UserKey(userKeys, Google)) ==> r.apiKey == UserKey(userKeys, Google))
            && (!Truthy(UserKey(userKeys, Google)) ==> r.apiKey == system.google)
  {
  }

  /** An explicit provider overrides whatever the name suggests: Google
      always, any other provider as soon as the user or the server has a key
      for it, and the requested name is kept. */
  lemma ExplicitProviderWins(modelName: string, p: Provider, userKeys: Option<KeyRecord>, system: KeyRecord)
    requires p == Google || Truthy(Or(UserKey(userKeys, p), system.Get(p)))
    ensures GetAIModel(modelName, Some(p), userKeys, system).provider == p
    ensures GetAIModel(modelName, Some(p), userKeys, system).model == modelName
  {
  }

  /** `getUserApiKeys` of ai-models.ts:23-40: null without a row, otherwise
      the decrypted row. */
  function StoredUserKeys(rows: map<UserId, KeyRecord>, user: UserId, secret: string,
                          decrypt: (string, string) -> Option<string>): (r: Option<KeyRecord>)
    ensures r.None? <==> user !in rows
  {
    if user !in rows then None else Some(DecryptRow(rows[user], secret, decrypt))
  }

  /** The key route and the model factory read the table the same way; they
      differ only in answering null or all-null fields for a missing row, and
      both lead to the same key choice. */
  lemma SameKeysAsRoute(rows: map<UserId, KeyRecord>, user: UserId, secret: string,
                        decrypt: (string, string) -> Option<string>, p: Provider)
    ensures StoredUserKeys(rows, user, secret, decrypt).Some? ==>
              StoredUserKeys(rows, user, secret, decrypt).value == Lookup(rows, user, secret, decrypt)
    ensures UserKey(StoredUserKeys(rows, user, secret, decrypt), p) == Lookup(rows, user, secret, decrypt).Get(p)
  {
  }
}
