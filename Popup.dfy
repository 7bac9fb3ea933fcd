/**
 * The popup's state and the rules it applies to it: which provider's key,
 * model and name are active, when the "API Key Required" state replaces the
 * input form, when the fix button is enabled, how the theme option maps to a
 * dark flag, and what a click on the fix button does to the state.
 */
module Popup {
  import opened Wrappers
  import opened KotlinText
  import opened TextDiff
  import opened AiService
  import opened Settings

  /** The theme option chosen in the settings: 1 is light, 2 is dark, anything else follows the system. */
  function IsDark(themeOption: int, systemIsDark: bool): bool {
    if themeOption == 1 then false
    else if themeOption == 2 then true
    else systemIsDark
  }

  /** The theme is decided by the option alone when it is 1 or 2, and by the system otherwise. */
  lemma ThemeMapping(themeOption: int, systemIsDark: bool)
    ensures themeOption == 1 ==> !IsDark(themeOption, systemIsDark)
    ensures themeOption == 2 ==> IsDark(themeOption, systemIsDark)
    ensures themeOption != 1 && themeOption != 2 ==> IsDark(themeOption, systemIsDark) == systemIsDark
    ensures IsDark(themeOption, true) != IsDark(themeOption, false) <==> themeOption != 1 && themeOption != 2
  {
  }

  /** With no theme saved, the popup follows the system theme. */
  lemma UnsetThemeFollowsSystem(systemIsDark: bool)
    ensures IsDark(ViewOf(map[]).themeOption, systemIsDark) == systemIsDark
  {
  }

  /** What the popup card shows. */
  datatype Screen =
    | Loading
    | KeyRequired(hint: string)
    | Editor(buttonEnabled: bool, diff: Option<seq<Segment>>)

  class PopupScreen {
    var text: string
    var originalText: string
    var result: string
    var geminiApiKey: string
    var grokApiKey: string
    var geminiModel: string
    var grokModel: string
    var defaultProvider: string
    var customPrompt: string
    var themeOption: int
    var isLoadingState: bool
    var isFixing: bool

    /** The remembered initial state, before the settings are loaded. */
    constructor ()
      ensures text == "" && originalText == "" && result == ""
      ensures geminiApiKey == "" && grokApiKey == "" && geminiModel == "" && grokModel == ""
      ensures defaultProvider == "grok" && customPrompt == "" && themeOption == 0
      ensures isLoadingState && !isFixing
    {
      text, originalText, result := "", "", "";
      geminiApiKey, grokApiKey, geminiModel, grokModel := "", "", "", "";
      defaultProvider, customPrompt, themeOption := "grok", "", 0;
      isLoadingState, isFixing := true, false;
    }

    /** The launch effect: reads the settings once and shows them. */
    method LoadSettings(store: SettingsStore)
      modifies this
      ensures Shows(store.Read()) && !isLoadingState
      ensures text == old(text) && originalText == old(originalText) && result == old(result) && isFixing == old(isFixing)
    {
      var v := store.Read();
      Apply(v);
    }

    /** The popup's copy of the settings agrees with v, an unset API key having become "". */
    predicate Shows(v: View)
      reads this
    {
      && geminiApiKey == v.apiKey.GetOr("") && grokApiKey == v.grokApiKey.GetOr("")
      && geminiModel == v.geminiModel && grokModel == v.grokModel
      && defaultProvider == v.defaultProvider && customPrompt == v.customPrompt
      && themeOption == v.themeOption
    }

    method Apply(v: View)
      modifies this
      ensures geminiApiKey == v.apiKey.GetOr("") && grokApiKey == v.grokApiKey.GetOr("")
      ensures geminiModel == v.geminiModel && grokModel == v.grokModel
      ensures defaultProvider == v.defaultProvider && customPrompt == v.customPrompt
      ensures themeOption == v.themeOption && !isLoadingState
      ensures text == old(text) && originalText == old(originalText) && result == old(result) && isFixing == old(isFixing)
    {
      geminiApiKey, grokApiKey := v.apiKey.GetOr(""), v.grokApiKey.GetOr("");
      geminiModel, grokModel, defaultProvider := v.geminiModel, v.grokModel, v.defaultProvider;
      customPrompt, themeOption := v.customPrompt, v.themeOption;
      isLoadingState := false;
    }

    /** The text field's onValueChange. */
    method EditText(newText: string)
      modifies this`text
      ensures text == newText
    {
      text := newText;
    }

    function ActiveApiKey(): string
      reads this
    {
      if defaultProvider == "grok" then grokApiKey else geminiApiKey
    }

    function ActiveModel(): string
      reads this
    {
      if defaultProvider == "grok" then grokModel else geminiModel
    }

    function ProviderName(): string
      reads this
    {
      if defaultProvider == "grok" then "Grok" else "Gemini"
    }

    predicate IsButtonEnabled()
      reads this
    {
      !isFixing && !IsBlank(text)
    }

    function CurrentScreen(): Screen
      reads this
    {
      if isLoadingState then Loading
      else if IsBlank(ActiveApiKey()) then
        KeyRequired("Please add your " + ProviderName() + " API Key in the settings.")
      else Editor(IsButtonEnabled(), DiffShown())
    }

    /** The result card: the corrected text diffed against the text it was made from, once there is a result. */
    function DiffShown(): Option<seq<Segment>>
      reads this
    {
      if result == "" then None else Some(Diff(originalText, result))
    }

    /**
     * The fix button's coroutine: sets isFixing, snapshots the text as the
     * original, calls fixGrammarAndTone with the provider, the active model
     * and key, the prompt and the text (`call` is the request that makes),
     * stores what it returns and clears isFixing.
     * When the Gemini model construction throws, the exception leaves the
     * coroutine after the snapshot; the state given for an Escaped reply is
     * the state at that moment (result untouched, isFixing set). What the
     * uncaught exception does to the app afterwards is not modelled.
     */
    method FixGrammar(grok: GrokOutcome, parse: JsonParser, gemini: GeminiOutcome) returns (call: Call, reply: Reply)
      requires CurrentScreen().Editor? && IsButtonEnabled()
      modifies this
      ensures call == CallFor(old(defaultProvider), old(ActiveModel()), old(ActiveApiKey()), old(customPrompt), old(text))
      ensures reply == FixGrammarAndTone(old(defaultProvider), old(ActiveModel()), old(ActiveApiKey()),
        old(customPrompt), old(text), grok, parse, gemini)
      ensures text == old(text) && originalText == old(text)
      ensures reply.Returned? ==> result == reply.text && !isFixing
      ensures reply.Returned? && reply.text != "" ==> DiffShown() == Some(Diff(old(text), reply.text))
      ensures reply.Escaped? ==> result == old(result) && isFixing
      ensures geminiApiKey == old(geminiApiKey) && grokApiKey == old(grokApiKey)
      ensures geminiModel == old(geminiModel) && grokModel == old(grokModel)
      ensures defaultProvider == old(defaultProvider) && customPrompt == old(customPrompt)
      ensures themeOption == old(themeOption) && isLoadingState == old(isLoadingState)
    {
      call := CallFor(defaultProvider, ActiveModel(), ActiveApiKey(), customPrompt, text);
      reply := FixGrammarAndTone(defaultProvider, ActiveModel(), ActiveApiKey(), customPrompt, text, grok, parse, gemini);
      Record(reply);
    }

    /** The coroutine's own state changes around the call: the snapshot, isFixing and, on return, the result. */
    method Record(reply: Reply)
      modifies this
      ensures text == old(text) && originalText == old(text)
      ensures reply.Returned? ==> result == reply.text && !isFixing
      ensures reply.Escaped? ==> result == old(result) && isFixing
      ensures geminiApiKey == old(geminiApiKey) && grokApiKey == old(grokApiKey)
      ensures geminiModel == old(geminiModel) && grokModel == old(grokModel)
      ensures defaultProvider == old(defaultProvider) && customPrompt == old(customPrompt)
      ensures themeOption == old(themeOption) && isLoadingState == old(isLoadingState)
    {
      isFixing := true;
      originalText := text;
      if reply.Returned? {
        result := reply.text;
        isFixing := false;
      }
    }
  }

  /** Key, model and name are all Grok's exactly when the provider is "grok", and all Gemini's otherwise. */
  lemma SelectionFollowsProvider(p: PopupScreen)
    ensures p.ProviderName() == "Grok" <==> p.defaultProvider == "grok"
    ensures p.ProviderName() == "Grok" ==> p.ActiveApiKey() == p.grokApiKey && p.ActiveModel() == p.grokModel
    ensures p.ProviderName() != "Grok" ==>
      p.ProviderName() == "Gemini" && p.ActiveApiKey() == p.geminiApiKey && p.ActiveModel() == p.geminiModel
  {
  }

  /**
   * The key and model the popup passes along reach the provider it names: a
   * Grok request is authorised with the Grok key, a Gemini call gets the
   * Gemini model and key.
   */
  lemma DispatchUsesNamedProvidersSettings(p: PopupScreen)
    ensures var c := CallFor(p.defaultProvider, p.ActiveModel(), p.ActiveApiKey(), p.customPrompt, p.text);
      && (c.GrokCall? <==> p.ProviderName() == "Grok")
      && (c.GrokCall? ==> BearerToken(c.request.headers["Authorization"]) == Some(p.grokApiKey)
                          && ReadPayload(c.request.payload) == Some((p.grokModel, p.customPrompt, p.text)))
      && (c.GeminiCall? ==> c.modelName == p.geminiModel && c.apiKey == p.geminiApiKey)
  {
    GrokRequestShape(p.grokModel, p.grokApiKey, p.customPrompt, p.text);
  }

  /** Once loaded, the input form is replaced by "API Key Required" exactly when the active key trims to nothing. */
  lemma KeyGate(p: PopupScreen)
    requires !p.isLoadingState
    ensures p.CurrentScreen().KeyRequired? <==> Trim(p.ActiveApiKey()) == ""
    ensures p.CurrentScreen().Editor? <==> Trim(p.ActiveApiKey()) != ""
  {
    BlankIffTrimsToEmpty(p.ActiveApiKey());
  }

  /** The fix button is enabled exactly when no fix is running and the text has a non-whitespace character. */
  lemma ButtonEnablement(p: PopupScreen)
    ensures p.IsButtonEnabled() <==> !p.isFixing && Trim(p.text) != ""
  {
    BlankIffTrimsToEmpty(p.text);
  }
}
