/** `createLocalLLM` (apps/desktop/src/lib/ai/local-llm.ts): the model served
    by the local Ollama server through its OpenAI-compatible endpoint, and the
    fallback chain that names it. */
module LocalLlm {
  import opened Wrappers
  import opened Settings

  const OllamaBaseUrl := "http://127.0.0.1:11434/v1"
  const OllamaApiKey := "ollama"
  const DefaultModel := "qwen2.5-coder:7b-instruct-q4_K_M"

  /** `modelName || aiSettingsStore.state.defaultLocalModel || DEFAULT_MODEL` */
  function SelectModel(modelName: Option<string>, storeDefault: string): (r: string)
    ensures r != ""
    ensures modelName.Some? && modelName.value != "" ==> r == modelName.value
    ensures (modelName.None? || modelName.value == "") && storeDefault != "" ==> r == storeDefault
    ensures (modelName.None? || modelName.value == "") && storeDefault == "" ==> r == DefaultModel
  {
    if modelName.Some? && modelName.value != "" then modelName.value
    else if storeDefault != "" then storeDefault
    else DefaultModel
  }

  /** The model `createLocalLLM` builds: endpoint, key and model name. */
  datatype LocalModel = LocalModel(baseUrl: string, apiKey: string, model: string)

  /** `createLocalLLM(modelName)` reading the settings store's state. */
  function CreateLocalLLM(modelName: Option<string>, store: SettingsStore): (r: LocalModel)
    reads store
    ensures r.baseUrl == OllamaBaseUrl && r.apiKey == OllamaApiKey
    ensures r.model == SelectModel(modelName, store.state.defaultLocalModel)
  {
    LocalModel(OllamaBaseUrl, OllamaApiKey, SelectModel(modelName, store.state.defaultLocalModel))
  }

  /** `DEFAULT_MODEL` is the settings' default model, so a fresh install asks
      for the same model whether the name comes from the store or from the
      last fallback. */
  lemma FreshInstallUsesDefault(items: map<string, string>, parse: string -> Option<Json>)
    requires StorageKey !in items
    ensures DefaultModel == Defaults.defaultLocalModel
    ensures SelectModel(None, GetPersistedSettings(ReadItem(items, StorageKey), parse).defaultLocalModel)
         == DefaultModel
  {
    FirstStartUsesDefaults(items, parse);
  }
}
