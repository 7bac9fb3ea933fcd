# Typer AI: a verified model of its core

Typer AI is an Android app that fixes the grammar and tone of a piece of text
with a large language model. A floating overlay button (or a quick-settings
tile) opens a popup. There the user types or dictates text and presses "Fix
Grammar". The text goes to xAI's Grok chat-completions API or to Google's
Gemini SDK, whichever provider is chosen. The corrected text comes back with
the words that are new highlighted.

This project models the parts of that app that make decisions and proves
properties about them:

- `KotlinText.dfy`: the Kotlin string behaviour the app relies on.
  - `trim` and `isBlank`, with Kotlin's notion of whitespace.
  - The `\s` class of the `\s+` regex on Android, whose regex engine (ICU)
    takes it to be the Unicode White_Space property.
  - The decimal rendering of an `Int`.
- `TextDiff.dfy`: `computeTextDiff`.
  - Splitting on `\s+` keeps empty edge tokens.
  - Each corrected word is flagged as new when the original's word list does not contain it.
  - The words are joined with single spaces.
  - The builder loop is a method proved against the pure `Diff` function.
- `AiService.dfy`: `fixGrammarAndTone`.
  - The provider branch on exactly `"grok"`.
  - The Grok request (endpoint, headers, JSON payload).
  - The handling of the response code and of `choices[0].message.content`.
  - The Gemini prompt and its null-text case.
  - The error strings.
  - The network exchange, the JSON parser and the Gemini SDK are inputs.
- `Settings.dfy`: `SettingsManager`.
  - Eight typed preferences in one store.
  - A writer per preference, and a reader per preference with its default.
  - The store is a class over a map.
- `Popup.dfy`: the popup's state.
  - The fields of the popup's remembered state and the load of the settings.
  - The active provider's key, model and name.
  - The "API Key Required" gate and the fix button's enablement.
  - The theme option, and the fix button's coroutine.
- `FloatingButton.dfy`: the overlay button's touch listener.
  - A press anchors the drag.
  - A move drags the button once the finger is more than 10 px away along either axis.
  - A release clicks only if no drag happened.
  - The listener is a class method proved against a pure step function.
  - Lemmas cover whole gestures.

Two behaviours of the code are worth knowing:

- Gemini's answer falls back to "Error." only when its text is null; an
  empty text gives "" (`AiService.GeminiNullTextOnly`).
- The Gemini `GenerativeModel` is constructed outside the `try`. An exception
  there leaves `fixGrammarAndTone` and the popup's coroutine
  (`AiService.Reply.Escaped`). `Popup.PopupScreen.FixGrammar` gives the
  popup's state at the moment of the throw: the text snapshotted, the old
  result, `isFixing` set. The uncaught exception then ends the app, which the
  model does not cover.

## Model

Source paths are under `app/src/main/java/com/tyzytyper/`.

| member | source | states |
|---|---|---|
| KotlinText.IsRegexSpace | app/src/main/java/com/tyzytyper/PopupActivity.kt:249-250 | definition of `\s` on Android (Unicode White_Space); its relation to `trim` is in `RegexSpaceVersusWhitespace` |
| KotlinText.IsWhitespace | app/src/main/java/com/tyzytyper/AiService.kt:57 | definition of Kotlin's `Char.isWhitespace` on Android (U+180E included); its laws are in `Trim`, `TrimUnique` and `RegexSpaceVersusWhitespace` |
| KotlinText.RegexSpaceVersusWhitespace | app/src/main/java/com/tyzytyper/PopupActivity.kt:249-250 | a character is Kotlin whitespace iff `\s` matches it and it is not NEL, or it is one of the controls FS..US or U+180E; NEL is split on but never trimmed, and U+180E is trimmed but never split on |
| KotlinText.IsBlank | app/src/main/java/com/tyzytyper/PopupActivity.kt:141 | definition of `isBlank`; its law is `BlankIffTrimsToEmpty` |
| KotlinText.Trim | app/src/main/java/com/tyzytyper/AiService.kt:57 | `trim` removes a blank prefix and a blank suffix and leaves a result that is empty or starts and ends with non-whitespace |
| KotlinText.TrimUnique | app/src/main/java/com/tyzytyper/AiService.kt:72 | any such margin-stripped string with non-blank ends is the trim, so `Trim` is the unique answer |
| KotlinText.TrimKeepsUnpadded | app/src/main/java/com/tyzytyper/AiService.kt:57 | a string with no whitespace at either end is its own trim |
| KotlinText.TrimIdempotent | app/src/main/java/com/tyzytyper/AiService.kt:57 | trimming a trimmed text changes nothing |
| KotlinText.BlankIffTrimsToEmpty | app/src/main/java/com/tyzytyper/PopupActivity.kt:141 | `isBlank` holds exactly when `trim` gives the empty string |
| KotlinText.IntText | app/src/main/java/com/tyzytyper/AiService.kt:62 | definition of an `Int` in a string template; its law is `IntTextRoundTrip` |
| KotlinText.IntTextRoundTrip | app/src/main/java/com/tyzytyper/AiService.kt:62 | the decimal text of any response code (negative too) parses back to that code |
| TextDiff.Split | app/src/main/java/com/tyzytyper/PopupActivity.kt:249-250 | `split("\\s+")`: at least one token, none containing `\s`, only the first and last possibly empty; the first is empty iff the text is empty or starts with whitespace; a single token is the whole text |
| TextDiff.JoinSplit | app/src/main/java/com/tyzytyper/PopupActivity.kt:249-272 | joining the tokens with single spaces gives the text with every whitespace run collapsed to one space |
| TextDiff.SplitJoin | app/src/main/java/com/tyzytyper/PopupActivity.kt:249-250 | splitting the space-join of a well-formed token list gives back that list |
| TextDiff.Diff | app/src/main/java/com/tyzytyper/PopupActivity.kt:248-275 | definition: `Mark` over the two splits; its laws are `ComputeTextDiff`, `DiffLength`, `DiffPlainText`, `NothingNewIff` and the lemmas below |
| TextDiff.Mark | app/src/main/java/com/tyzytyper/PopupActivity.kt:258-262 | one segment per corrected word, carrying that word, new exactly when the original words do not contain it |
| TextDiff.ComputeTextDiff | app/src/main/java/com/tyzytyper/PopupActivity.kt:248-275 | the builder loop yields exactly `Diff(original, corrected)` and the text it appends equals the corrected text whitespace-normalised |
| TextDiff.DiffLength | app/src/main/java/com/tyzytyper/PopupActivity.kt:258 | the diff has one segment per token of the corrected text, empty edge tokens included |
| TextDiff.DiffPlainText | app/src/main/java/com/tyzytyper/PopupActivity.kt:266-272 | the diff's words joined with spaces are the corrected text with whitespace normalised |
| TextDiff.NothingNewIff | app/src/main/java/com/tyzytyper/PopupActivity.kt:262 | no segment is highlighted iff every corrected word occurs among the original words |
| TextDiff.SelfDiffHighlightsNothing | app/src/main/java/com/tyzytyper/PopupActivity.kt:262 | a text diffed against itself highlights nothing |
| TextDiff.ReorderingHighlightsNothing | app/src/main/java/com/tyzytyper/PopupActivity.kt:262 | a correction that only reorders the original's words highlights nothing |
| TextDiff.AppendedWordHighlighted | app/src/main/java/com/tyzytyper/PopupActivity.kt:258-272 | appending one word to a text yields the old words unhighlighted plus that word, highlighted iff the text lacked it |
| TextDiff.RepetitionNotHighlighted | app/src/main/java/com/tyzytyper/PopupActivity.kt:262 | a word repeated by the correction is not highlighted (membership, not counting) |
| TextDiff.SwappedWordsNotHighlighted | app/src/main/java/com/tyzytyper/PopupActivity.kt:262 | swapping two words highlights neither |
| TextDiff.SplitEdgeTokens | app/src/main/java/com/tyzytyper/PopupActivity.kt:249-250 | "" splits to [""], a leading space gives a leading "" token and a trailing space a trailing "" token |
| AiService.CallFor | app/src/main/java/com/tyzytyper/AiService.kt:21-70 | the HTTP call to Grok is made iff the provider is exactly "grok", with the Grok request; otherwise the Gemini SDK is called with the given model, key and the Gemini prompt |
| AiService.ChatPayload | app/src/main/java/com/tyzytyper/AiService.kt:30-42 | definition of the JSON payload; its law is `PayloadRoundTrip` |
| AiService.GrokRequest | app/src/main/java/com/tyzytyper/AiService.kt:23-42 | definition of the Grok request; its law is `GrokRequestShape` |
| AiService.GeminiPrompt | app/src/main/java/com/tyzytyper/AiService.kt:70 | definition of the Gemini prompt; its law is `GeminiPromptParts` |
| AiService.PayloadRoundTrip | app/src/main/java/com/tyzytyper/AiService.kt:30-42 | the JSON payload reads back as the model, the system message's prompt and the user message's text |
| AiService.GrokRequestShape | app/src/main/java/com/tyzytyper/AiService.kt:23-42 | the Grok request is a POST with output to the chat endpoint with exactly the JSON content type and a Bearer header carrying the key, and its payload reads back |
| AiService.GeminiPromptParts | app/src/main/java/com/tyzytyper/AiService.kt:70 | the Gemini prompt is the instruction, a blank line and the text, each recoverable |
| AiService.ChoiceContent | app/src/main/java/com/tyzytyper/AiService.kt:54-57 | the lookup succeeds iff `choices` is a non-empty array whose first item is an object with an object `message` holding a `content` that is a string, null, a boolean or a number, and then yields that value's text |
| AiService.ChatResponseContent | app/src/main/java/com/tyzytyper/AiService.kt:54-57 | the smallest chat-completion response yields its content |
| AiService.ExceptionText | app/src/main/java/com/tyzytyper/AiService.kt:65 | definition of "Error: ${e.message}", with a null message printed as "null" |
| AiService.StatusText | app/src/main/java/com/tyzytyper/AiService.kt:62 | definition of "Error (code): body"; its law is `StatusTextRoundTrip` |
| AiService.GrokReply | app/src/main/java/com/tyzytyper/AiService.kt:22-66 | definition of the Grok branch; its laws are `GrokSuccessIsTrimmedContent`, `NonOkStatusIgnoresParser`, `MalformedResponseIsError`, `ScalarContentIsText` and `CaughtExceptionsBecomeErrorText` |
| AiService.GeminiReply | app/src/main/java/com/tyzytyper/AiService.kt:67-76 | definition of the Gemini branch; its laws are `GeminiNullTextOnly`, `CaughtExceptionsBecomeErrorText` and `EscapesOnlyFromModelConstruction` |
| AiService.FixGrammarAndTone | app/src/main/java/com/tyzytyper/AiService.kt:14-77 | definition of the whole function; its laws are `BranchOnExactName` and `EscapesOnlyFromModelConstruction` |
| AiService.BranchOnExactName | app/src/main/java/com/tyzytyper/AiService.kt:21 | "grok" gives the Grok reply; every other name, "Grok" and "" included, gives the Gemini reply |
| AiService.EscapesOnlyFromModelConstruction | app/src/main/java/com/tyzytyper/AiService.kt:22-75 | an exception leaves the function iff the provider is Gemini and constructing the model threw |
| AiService.GrokSuccessIsTrimmedContent | app/src/main/java/com/tyzytyper/AiService.kt:49-57 | on 200, for any response (whatever other fields it carries) whose first choice has a content, the reply is that content trimmed, with no whitespace at either end |
| AiService.StatusTextRoundTrip | app/src/main/java/com/tyzytyper/AiService.kt:58-62 | from the "Error (code): body" string the code and the body can be read back verbatim |
| AiService.NonOkStatusIgnoresParser | app/src/main/java/com/tyzytyper/AiService.kt:50-65 | a status other than 200 never parses the body: from 400 up the reply is the status text; below 400 there is no error stream, and the reply is "Error: null" |
| AiService.ScalarContentIsText | app/src/main/java/com/tyzytyper/AiService.kt:54-57 | for any response whose first choice (whatever other fields it has) holds a `message` object with a null, boolean or number `content`, the reply is that value's text trimmed; null content gives "null" |
| AiService.MalformedResponseIsError | app/src/main/java/com/tyzytyper/AiService.kt:54-65 | a missing `choices`/`message`/`content`, or a mistyped `choices`/`message` (in the model also an array or object `content`), yields "Error: " plus the JSON exception's message |
| AiService.CaughtExceptionsBecomeErrorText | app/src/main/java/com/tyzytyper/AiService.kt:64-74 | a thrown exception in the Grok branch (transport, or unparsable 200 text) and a thrown `generateContent` both give "Error: " plus the exception's message, "null" when it has none |
| AiService.GeminiNullTextOnly | app/src/main/java/com/tyzytyper/AiService.kt:71-72 | "Error." comes only from a null text; an empty text gives "", any text gives its trim |
| Settings.NamesDistinct | app/src/main/java/com/tyzytyper/SettingsManager.kt:13-21 | the eight keys have pairwise distinct names |
| Settings.ViewOf | app/src/main/java/com/tyzytyper/SettingsManager.kt:24-47 | definition of the eight readers with their defaults; its laws are `UnsetDefaults` and `SaveOnlyChangesOwnReader` |
| Settings.WithSaved | app/src/main/java/com/tyzytyper/SettingsManager.kt:23-46 | definition of what one save does to the readers: its own reader returns the saved value |
| Settings.UnsetDefaults | app/src/main/java/com/tyzytyper/SettingsManager.kt:24-47 | with nothing saved the readers give: no keys, "gemini-2.5-flash", "grok-4-1-fast-non-reasoning", "grok", theme 0, the default prompt, button off |
| Settings.SaveOnlyChangesOwnReader | app/src/main/java/com/tyzytyper/SettingsManager.kt:23-47 | after a save, its reader returns the saved value and every other reader is unchanged |
| Settings.SaveKeepsWellTyped | app/src/main/java/com/tyzytyper/SettingsManager.kt:13-21 | saving a value of a key's type keeps every stored value typed by its key |
| Settings.SettingsStore.constructor | app/src/main/java/com/tyzytyper/SettingsManager.kt:10 | a fresh store is empty |
| Settings.SettingsStore.Save | app/src/main/java/com/tyzytyper/SettingsManager.kt:23-46 | stores the value under its key only, keeps the store well typed, and changes the readers as `WithSaved` says |
| Settings.SettingsStore.SaveApiKey | app/src/main/java/com/tyzytyper/SettingsManager.kt:23-24 | afterwards the Gemini key reads back as the saved value; nothing else changes |
| Settings.SettingsStore.SaveGrokApiKey | app/src/main/java/com/tyzytyper/SettingsManager.kt:26-27 | afterwards the Grok key reads back as the saved value; nothing else changes |
| Settings.SettingsStore.SaveGeminiModel | app/src/main/java/com/tyzytyper/SettingsManager.kt:29-30 | afterwards the Gemini model reads back as the saved value; nothing else changes |
| Settings.SettingsStore.SaveGrokModel | app/src/main/java/com/tyzytyper/SettingsManager.kt:32-33 | afterwards the Grok model reads back as the saved value; nothing else changes |
| Settings.SettingsStore.SaveDefaultProvider | app/src/main/java/com/tyzytyper/SettingsManager.kt:35-36 | afterwards the provider reads back as the saved value; nothing else changes |
| Settings.SettingsStore.SaveThemeOption | app/src/main/java/com/tyzytyper/SettingsManager.kt:38-39 | afterwards the theme option reads back as the saved value; nothing else changes |
| Settings.SettingsStore.SaveCustomPrompt | app/src/main/java/com/tyzytyper/SettingsManager.kt:41-44 | afterwards the prompt reads back as the saved value; nothing else changes |
| Settings.SettingsStore.SaveFloatingButtonEnabled | app/src/main/java/com/tyzytyper/SettingsManager.kt:46-47 | afterwards the button flag reads back as the saved value; nothing else changes |
| Popup.IsDark | app/src/main/java/com/tyzytyper/PopupActivity.kt:85-89 | definition of the theme choice; its laws are `ThemeMapping` and `UnsetThemeFollowsSystem` |
| Popup.ThemeMapping | app/src/main/java/com/tyzytyper/PopupActivity.kt:85-89 | option 1 is light, 2 is dark, and the system theme matters iff the option is neither |
| Popup.UnsetThemeFollowsSystem | app/src/main/java/com/tyzytyper/PopupActivity.kt:80-89 | with no theme saved the popup follows the system theme |
| Popup.PopupScreen.constructor | app/src/main/java/com/tyzytyper/PopupActivity.kt:51-64 | the remembered state starts empty, with provider "grok", theme 0, loading and not fixing |
| Popup.PopupScreen.LoadSettings | app/src/main/java/com/tyzytyper/PopupActivity.kt:72-82 | copies each setting from the store, with an unset key becoming "", and ends loading; text, result and isFixing are untouched |
| Popup.PopupScreen.Apply | app/src/main/java/com/tyzytyper/PopupActivity.kt:73-81 | the seven settings fields take the view's values, with an unset key becoming "", and loading ends; text, result and isFixing are untouched |
| Popup.PopupScreen.ActiveApiKey | app/src/main/java/com/tyzytyper/PopupActivity.kt:137 | definition; its law is `SelectionFollowsProvider` |
| Popup.PopupScreen.ActiveModel | app/src/main/java/com/tyzytyper/PopupActivity.kt:138 | definition; its law is `SelectionFollowsProvider` |
| Popup.PopupScreen.ProviderName | app/src/main/java/com/tyzytyper/PopupActivity.kt:139 | definition; its law is `SelectionFollowsProvider` |
| Popup.PopupScreen.IsButtonEnabled | app/src/main/java/com/tyzytyper/PopupActivity.kt:175 | definition; its law is `ButtonEnablement` |
| Popup.PopupScreen.CurrentScreen | app/src/main/java/com/tyzytyper/PopupActivity.kt:84-158 | definition of what the card shows; its law is `KeyGate` |
| Popup.PopupScreen.DiffShown | app/src/main/java/com/tyzytyper/PopupActivity.kt:205-207 | definition of the result card; `FixGrammar` states what it shows after a fix |
| Popup.PopupScreen.EditText | app/src/main/java/com/tyzytyper/PopupActivity.kt:162 | the text becomes the edited value and nothing else changes |
| Popup.PopupScreen.FixGrammar | app/src/main/java/com/tyzytyper/PopupActivity.kt:178-184 | snapshots the text as the original; the call it makes is `CallFor` on the provider, the active model and key, the prompt and the text (so, by `DispatchUsesNamedProvidersSettings`, the named provider's key and model); on return it stores the reply, clears isFixing and shows the reply's diff against the snapshot; if the call throws, the state at the throw has the old result and isFixing set |
| Popup.PopupScreen.Record | app/src/main/java/com/tyzytyper/PopupActivity.kt:179-183 | the coroutine's own writes: isFixing set and the text snapshotted as the original; on return the reply becomes the result and isFixing is cleared; on a throw the result is untouched and isFixing stays set; no setting, key or model field changes |
| Popup.SelectionFollowsProvider | app/src/main/java/com/tyzytyper/PopupActivity.kt:137-139 | key, model and name are all Grok's iff the provider is "grok", and all Gemini's otherwise |
| Popup.DispatchUsesNamedProvidersSettings | app/src/main/java/com/tyzytyper/PopupActivity.kt:137-182 | the call the popup makes goes to the provider it names, with that provider's key as bearer token or SDK key and that provider's model |
| Popup.KeyGate | app/src/main/java/com/tyzytyper/PopupActivity.kt:141-158 | once loaded, "API Key Required" shows iff the active key trims to nothing, and the input form shows otherwise |
| Popup.ButtonEnablement | app/src/main/java/com/tyzytyper/PopupActivity.kt:175 | the fix button is enabled iff no fix runs and the text trims to something non-empty |
| FloatingButton.Truncate | app/src/main/java/com/tyzytyper/FloatingButtonService.kt:129-130 | `toInt` rounds toward zero: the result lies within one of the value, on its side of zero |
| FloatingButton.Step | app/src/main/java/com/tyzytyper/FloatingButtonService.kt:118-151 | definition of one listener call; its laws are `OnTouch` and the gesture lemmas below |
| FloatingButton.FloatingButtonService.constructor | app/src/main/java/com/tyzytyper/FloatingButtonService.kt:81-116 | the button starts at x 0, y 500 with zero anchors and no drag |
| FloatingButton.FloatingButtonService.OnTouch | app/src/main/java/com/tyzytyper/FloatingButtonService.kt:118-151 | the listener's new state and its return/click are those of `Step` on the old state |
| FloatingButton.OtherActionsPassThrough | app/src/main/java/com/tyzytyper/FloatingButtonService.kt:149 | the event is consumed iff it is a press, move or release; otherwise nothing changes and no click happens |
| FloatingButton.PressAnchors | app/src/main/java/com/tyzytyper/FloatingButtonService.kt:120-127 | a press records the button and finger positions as anchors, resets the drag and does not move the button |
| FloatingButton.MovesKeepAnchors | app/src/main/java/com/tyzytyper/FloatingButtonService.kt:128-142 | moves never change the anchors |
| FloatingButton.MovesLatch | app/src/main/java/com/tyzytyper/FloatingButtonService.kt:132-134 | after a run of moves the drag is latched iff it already was or some move went more than 10 px from the press point along an axis |
| FloatingButton.MovesPosition | app/src/main/java/com/tyzytyper/FloatingButtonService.kt:136-140 | unlatched moves leave the button in place; once latched it sits at the anchor plus the last move's offset |
| FloatingButton.TapOrDrag | app/src/main/java/com/tyzytyper/FloatingButtonService.kt:118-148 | press, moves, release: the release clicks iff every move stayed within the slop, and a drag moves the button by the last move's truncated offset from the press point |
| FloatingButton.PlainTapClicks | app/src/main/java/com/tyzytyper/FloatingButtonService.kt:143-147 | a press followed directly by a release always clicks |

## Left out

- The network exchange with xAI, the Gemini SDK and the org.json parser are
  inputs (`GrokOutcome`, `JsonParser`, `GeminiOutcome`). The model does not
  say what the services answer, only what the code does with each answer.
- `AiService.JsonErrorMessage`: org.json's exception messages are modelled in
  their common forms. The value and class named in a type-mismatch message
  are not rendered.
- `AiService.ChoiceContent`: an array or object `content` is reported as a
  type mismatch. Android's `getString` would instead return its JSON text,
  whose key order the model does not track. Numbers are integers only; a
  fractional `content` is not modelled.
- `AiService.GrokReply`: the error stream is taken to exist exactly for
  statuses from 400 up, as Android's `HttpURLConnection` provides it. A 400+
  response with no error stream is not modelled.
- The JSON text of the payload (`jsonPayload.toString()`) is modelled as the
  JSON value before serialisation.
- Coroutines, `withContext(Dispatchers.IO)`, Compose recomposition and the
  order of concurrent clicks are not modelled. Neither is the crash that
  follows an exception escaping the fix coroutine (no exception handler is
  installed on its scope). The button's `enabled` flag is
  the precondition of `FixGrammar`.
- `TextDiff.ComputeTextDiff`: the `isDark` argument and the highlight colour
  it selects (PopupActivity.kt:252) are not modelled. A segment records only
  whether it is highlighted; span styles and `AnnotatedString` rendering are
  left out.
- DataStore persistence and the `Flow` wrapping of the readers are not
  modelled; the store is an in-memory map. It is keyed by `Settings.Key`
  rather than by name, which `Settings.NamesDistinct` justifies.
- `KotlinText.IsRegexSpace`: `\s` is Android's (Unicode White_Space). On a
  desktop JVM it would be the six ASCII characters space and TAB..CR.
- SettingsActivity, TyperTileService, Theme.kt, the speech recogniser, the
  clipboard and the popup's other buttons are not part of this model. The
  system's dark-theme flag is a parameter of `Popup.IsDark`.
- `FloatingButton.FloatingButtonService.OnTouch`: raw coordinates are exact
  reals. Float rounding in `rawX - initialTouchX` and the saturation of
  `toInt` beyond the 32-bit range are not modelled. Neither is the 32-bit
  wrap-around of `initialX + dx`.
- Window manager calls (`updateViewLayout`, `addView`), the service
  lifecycle and `onDestroy` are not modelled. The button's window position is
  the pair `x`, `y`.
