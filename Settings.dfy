/**
 * SettingsManager: eight preferences in one key-value store, each with a
 * writer that stores its value under its own key and a reader that falls
 * back to a fixed default when the key is unset. The store is held in memory;
 * DataStore persistence and the Flow wrapping of the readers are not modelled.
 */
module Settings {
  import opened Wrappers

  /** The eight preference keys. */
  datatype Key =
    | ApiKey | GrokApiKey | GeminiModel | GrokModel
    | DefaultProvider | AppTheme | CustomPrompt | FloatingButtonEnabled

  /** The name each key is stored under. */
  function Name(k: Key): string {
    match k
    case ApiKey => "gemini_api_key"
    case GrokApiKey => "grok_api_key"
    case GeminiModel => "gemini_model"
    case GrokModel => "grok_model"
    case DefaultProvider => "default_provider"
    case AppTheme => "app_theme"
    case CustomPrompt => "custom_prompt"
    case FloatingButtonEnabled => "floating_button_enabled"
  }

  /** A stored preference value: string, int or boolean. */
  datatype Pref = PString(s: string) | PInt(i: int) | PBool(b: bool)

  /** The value type each key is declared with. */
  predicate Fits(k: Key, v: Pref) {
    match k
    case AppTheme => v.PInt?
    case FloatingButtonEnabled => v.PBool?
    case _ => v.PString?
  }

  const DefaultGeminiModel := "gemini-2.5-flash"
  const DefaultGrokModel := "grok-4-1-fast-non-reasoning"
  const DefaultProviderName := "grok"
  const DefaultThemeOption := 0
  const DefaultCustomPrompt := "Rewrite to fix grammar and improve clarity. Please only return the fixed text and nothing else:"
  const DefaultFloatingButtonEnabled := false

  /** What the eight readers return for a given store. */
  datatype View = View(
    apiKey: Option<string>,
    grokApiKey: Option<string>,
    geminiModel: string,
    grokModel: string,
    defaultProvider: string,
    themeOption: int,
    customPrompt: string,
    floatingButtonEnabled: bool)

  function StringAt(prefs: map<Key, Pref>, k: Key): Option<string> {
    if k in prefs && prefs[k].PString? then Some(prefs[k].s) else None
  }

  /** The readers: the two API keys have no default, every other key has a fixed one. */
  function ViewOf(prefs: map<Key, Pref>): View {
    View(
      StringAt(prefs, ApiKey),
      StringAt(prefs, GrokApiKey),
      StringAt(prefs, GeminiModel).GetOr(DefaultGeminiModel),
      StringAt(prefs, GrokModel).GetOr(DefaultGrokModel),
      StringAt(prefs, DefaultProvider).GetOr(DefaultProviderName),
      if AppTheme in prefs && prefs[AppTheme].PInt? then prefs[AppTheme].i else DefaultThemeOption,
      StringAt(prefs, CustomPrompt).GetOr(DefaultCustomPrompt),
      if FloatingButtonEnabled in prefs && prefs[FloatingButtonEnabled].PBool?
      then prefs[FloatingButtonEnabled].b else DefaultFloatingButtonEnabled)
  }

  /** The reader of `k` after it was given `v`: an independent statement of each save-then-get law. */
  function WithSaved(view: View, k: Key, v: Pref): View
    requires Fits(k, v)
  {
    match k
    case ApiKey => view.(apiKey := Some(v.s))
    case GrokApiKey => view.(grokApiKey := Some(v.s))
    case GeminiModel => view.(geminiModel := v.s)
    case GrokModel => view.(grokModel := v.s)
    case DefaultProvider => view.(defaultProvider := v.s)
    case AppTheme => view.(themeOption := v.i)
    case CustomPrompt => view.(customPrompt := v.s)
    case FloatingButtonEnabled => view.(floatingButtonEnabled := v.b)
  }

  /** Every stored key holds a value of that key's type. */
  ghost predicate WellTyped(prefs: map<Key, Pref>) {
    forall k :: k in prefs ==> Fits(k, prefs[k])
  }

  /**
   * The eight keys have distinct names. The store is keyed by name, so this
   * is what lets the model key it by Key: a save under one key never touches
   * another key's entry.
   */
  lemma NamesDistinct(k1: Key, k2: Key)
    ensures Name(k1) == Name(k2) <==> k1 == k2
  {
  }

  /** With nothing saved, every reader gives its default. */
  lemma UnsetDefaults()
    ensures ViewOf(map[]) == View(None, None, "gemini-2.5-flash", "grok-4-1-fast-non-reasoning", "grok", 0,
      "Rewrite to fix grammar and improve clarity. Please only return the fixed text and nothing else:", false)
  {
  }

  /**
   * A save stores under its own name only: afterwards its reader returns the
   * saved value (even "") and every other reader is unchanged.
   */
  lemma SaveOnlyChangesOwnReader(prefs: map<Key, Pref>, k: Key, v: Pref)
    requires Fits(k, v)
    ensures ViewOf(prefs[k := v]) == WithSaved(ViewOf(prefs), k, v)
  {
  }

  /** Saving keeps every stored value typed by its key. */
  lemma SaveKeepsWellTyped(prefs: map<Key, Pref>, k: Key, v: Pref)
    requires WellTyped(prefs) && Fits(k, v)
    ensures WellTyped(prefs[k := v])
  {
  }

  /** The preference store the app writes through SettingsManager. */
  class SettingsStore {
    var prefs: map<Key, Pref>

    ghost predicate Valid()
      reads this
    {
      WellTyped(prefs)
    }

    /** The values the readers return now. */
    function Read(): View
      reads this
    {
      ViewOf(prefs)
    }

    constructor ()
      ensures Valid() && prefs == map[]
    {
      prefs := map[];
    }

    method Save(k: Key, v: Pref)
      requires Valid() && Fits(k, v)
      modifies this
      ensures Valid() && prefs == old(prefs)[k := v]
      ensures Read() == WithSaved(old(Read()), k, v)
    {
      SaveKeepsWellTyped(prefs, k, v);
      SaveOnlyChangesOwnReader(prefs, k, v);
      prefs := prefs[k := v];
    }

    method SaveApiKey(key: string)
      requires Valid()
      modifies this
      ensures Valid() && Read() == old(Read()).(apiKey := Some(key))
    {
      Save(ApiKey, PString(key));
    }

    method SaveGrokApiKey(key: string)
      requires Valid()
      modifies this
      ensures Valid() && Read() == old(Read()).(grokApiKey := Some(key))
    {
      Save(GrokApiKey, PString(key));
    }

    method SaveGeminiModel(model: string)
      requires Valid()
      modifies this
      ensures Valid() && Read() == old(Read()).(geminiModel := model)
    {
      Save(GeminiModel, PString(model));
    }

    method SaveGrokModel(model: string)
      requires Valid()
      modifies this
      ensures Valid() && Read() == old(Read()).(grokModel := model)
    {
      Save(GrokModel, PString(model));
    }

    method SaveDefaultProvider(provider: string)
      requires Valid()
      modifies this
      ensures Valid() && Read() == old(Read()).(defaultProvider := provider)
    {
      Save(DefaultProvider, PString(provider));
    }

    method SaveThemeOption(themeOption: int)
      requires Valid()
      modifies this
      ensures Valid() && Read() == old(Read()).(themeOption := themeOption)
    {
      Save(AppTheme, PInt(themeOption));
    }

    method SaveCustomPrompt(prompt: string)
      requires Valid()
      modifies this
      ensures Valid() && Read() == old(Read()).(customPrompt := prompt)
    {
      Save(CustomPrompt, PString(prompt));
    }

    method SaveFloatingButtonEnabled(isEnabled: bool)
      requires Valid()
      modifies this
      ensures Valid() && Read() == old(Read()).(floatingButtonEnabled := isEnabled)
    {
      Save(FloatingButtonEnabled, PBool(isEnabled));
    }
  }
}
