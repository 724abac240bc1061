/** The desktop app's AI settings (apps/desktop/src/lib/ai/settings-store.ts):
    the schema, loading from `localStorage` with a fall back to the defaults,
    and the store whose every change is written back.

    `JSON.parse` and `JSON.stringify` are parameters; the `localStorage` the
    store reads and writes is a map from key to text. */
module Settings {
  import opened Wrappers

  /** A JSON value as `JSON.parse` produces it (numbers kept integral). */
  datatype Json =
    | JNull
    | JBool(b: bool)
    | JNumber(n: int)
    | JString(s: string)
    | JArray(items: seq<Json>)
    | JObject(fields: map<string, Json>)

  datatype AiProvider = LocalOllama | UserKeys
  datatype ModelProfile = Performant | Balanced | Fast

  /** `settingsStoreType.infer` */
  datatype AiSettings = AiSettings(aiProvider: AiProvider, defaultLocalModel: string,
                                   useLocalAI: bool, selectedModelProfile: ModelProfile)

  const StorageKey := "tryquest-ai-settings"

  /** `defaultSettings` (settings-store.ts:11-16) */
  const Defaults := AiSettings(LocalOllama, "qwen2.5-coder:7b-instruct-q4_K_M", false, Balanced)

  function ProviderName(p: AiProvider): string
  {
    match p case LocalOllama => "local-ollama" case UserKeys => "user-keys"
  }

  function ProfileName(p: ModelProfile): string
  {
    match p case Performant => "performant" case Balanced => "balanced" case Fast => "fast"
  }

  /** The schema of settings-store.ts:4-9, stated on the JSON value: an
      object whose four fields have the listed types and values. */
  predicate FollowsSchema(j: Json)
  {
    && j.JObject?
    && "aiProvider" in j.fields && "defaultLocalModel" in j.fields
    && "useLocalAI" in j.fields && "selectedModelProfile" in j.fields
    && j.fields["aiProvider"] in {JString("local-ollama"), JString("user-keys")}
    && j.fields["defaultLocalModel"].JString?
    && j.fields["useLocalAI"].JBool?
    && j.fields["selectedModelProfile"] in {JString("performant"), JString("balanced"), JString("fast")}
  }

  /** The settings as `JSON.stringify` sees them. */
  function ToJson(s: AiSettings): (j: Json)
    ensures FollowsSchema(j)
  {
    JObject(map["aiProvider" := JString(ProviderName(s.aiProvider)),
                "defaultLocalModel" := JString(s.defaultLocalModel),
                "useLocalAI" := JBool(s.useLocalAI),
                "selectedModelProfile" := JString(ProfileName(s.selectedModelProfile))])
  }

  function ParseProvider(j: Json): Option<AiProvider>
  {
    match j
    case JString("local-ollama") => Some(LocalOllama)
    case JString("user-keys") => Some(UserKeys)
    case _ => None
  }

  function ParseProfile(j: Json): Option<ModelProfile>
  {
    match j
    case JString("performant") => Some(Performant)
    case JString("balanced") => Some(Balanced)
    case JString("fast") => Some(Fast)
    case _ => None
  }

  /** `settingsStoreType(value)`: the settings, or None for a type error. */
  function Validate(j: Json): (r: Option<AiSettings>)
    ensures r.Some? <==> FollowsSchema(j)
    ensures r.Some? ==> forall k :: k in ToJson(r.value).fields ==> k in j.fields && j.fields[k] == ToJson(r.value).fields[k]
  {
    if !j.JObject? then None
    else
      var f := j.fields;
      if "aiProvider" !in f || "defaultLocalModel" !in f || "useLocalAI" !in f || "selectedModelProfile" !in f then None
      else match (ParseProvider(f["aiProvider"]), f["defaultLocalModel"], f["useLocalAI"], ParseProfile(f["selectedModelProfile"]))
        case (Some(p), JString(m), JBool(b), Some(q)) => Some(AiSettings(p, m, b, q))
        case _ => None
  }

  /** Validating the JSON form of settings gives them back. */
  lemma ValidateToJson(s: AiSettings)
    ensures Validate(ToJson(s)) == Some(s)
  {
    var f := ToJson(s).fields;
    assert ParseProvider(f["aiProvider"]) == Some(s.aiProvider);
    assert ParseProfile(f["selectedModelProfile"]) == Some(s.selectedModelProfile);
  }

  /** What `localStorage.getItem` did: threw, or returned the text or null. */
  datatype StoredItem = ReadThrows | Item(text: Option<string>)

  /** `localStorage.getItem(key)` on a map of items. */
  function ReadItem(items: map<string, string>, key: string): StoredItem
  {
    Item(if key in items then Some(items[key]) else None)
  }

  /** `getPersistedSettings` (settings-store.ts:20-38): the stored settings
      when there is a stored text, it parses and it follows the schema;
      otherwise (nothing stored, an empty string, a read or parse error, a
      schema error) the defaults. */
  function GetPersistedSettings(stored: StoredItem, parse: string -> Option<Json>): (r: AiSettings)
    ensures stored.Item? && stored.text.Some? && stored.text.value != ""
            && parse(stored.text.value).Some? && FollowsSchema(parse(stored.text.value).value)
            ==> Some(r) == Validate(parse(stored.text.value).value)
    ensures !(stored.Item? && stored.text.Some? && stored.text.value != ""
              && parse(stored.text.value).Some? && FollowsSchema(parse(stored.text.value).value))
            ==> r == Defaults
  {
    match stored
    case ReadThrows => Defaults
    case Item(None) => Defaults
    case Item(Some(text)) =>
      if text == "" then Defaults
      else match parse(text)
        case None => Defaults
        case Some(j) =>
          match Validate(j)
          case None => Defaults
          case Some(s) => s
  }

  /** `aiSettingsStore` with its subscription: the state, and the
      `localStorage` items it writes on every change. */
  class SettingsStore {
    var state: AiSettings
    var items: map<string, string>

    /** `new Store(getPersistedSettings())` over the items found at start-up. */
    constructor (items: map<string, string>, parse: string -> Option<Json>)
      ensures state == GetPersistedSettings(ReadItem(items, StorageKey), parse)
      ensures this.items == items
    {
      this.items := items;
      state := GetPersistedSettings(Item(if StorageKey in items then Some(items[StorageKey]) else None), parse);
    }

    /** `setState` followed by the subscriber (settings-store.ts:44-46): the
        new state is stored as JSON under the storage key, and no other item
        changes. */
    method SetState(next: AiSettings, stringify: Json -> string)
      modifies this
      ensures state == next
      ensures items == old(items)[StorageKey := stringify(ToJson(next))]
    {
      state := next;
      items := items[StorageKey := stringify(ToJson(state))];
    }
  }

  /** Reading back what the subscriber wrote gives the written state, when
      `JSON.parse` undoes `JSON.stringify` on it and the text is non-empty. */
  lemma ReloadAfterWrite(items: map<string, string>, s: AiSettings,
                         parse: string -> Option<Json>, stringify: Json -> string)
    requires stringify(ToJson(s)) != ""
    requires parse(stringify(ToJson(s))) == Some(ToJson(s))
    ensures GetPersistedSettings(ReadItem(items[StorageKey := stringify(ToJson(s))], StorageKey), parse) == s
  {
    ValidateToJson(s);
  }

  /** Nothing stored, or an unreadable store, gives the defaults. */
  lemma FirstStartUsesDefaults(items: map<string, string>, parse: string -> Option<Json>)
    requires StorageKey !in items
    ensures GetPersistedSettings(ReadItem(items, StorageKey), parse) == Defaults
    ensures GetPersistedSettings(ReadThrows, parse) == Defaults
  {
  }

  /** A stored value that parses but breaks the schema, e.g. an unknown
      provider, gives the defaults. */
  lemma UnknownProviderUsesDefaults(text: string, fields: map<string, Json>, parse: string -> Option<Json>)
    requires text != "" && parse(text) == Some(JObject(fields))
    requires "aiProvider" in fields && fields["aiProvider"] == JString("openai")
    ensures GetPersistedSettings(Item(Some(text)), parse) == Defaults
  {
    assert JString("openai") != JString("local-ollama");
  }
}
