/**
 * fixGrammarAndTone: sends one correction request to the provider named by
 * the settings and turns every outcome into the string the popup displays.
 * The network, the JSON text parser and the Gemini SDK are not modelled; what
 * they return is an input (an outcome value or a parse function), so the
 * reply is a pure function of the arguments and those outcomes.
 */
module AiService {
  import opened Wrappers
  import opened KotlinText

  const GrokProvider := "grok"
  const GrokEndpoint := "https://api.x.ai/v1/chat/completions"
  const HttpOk := 200
  /** The first status for which HttpURLConnection has an error stream. */
  const HttpBadRequest := 400

  /** The org.json value tree. */
  datatype Json =
    | JNull
    | JBool(b: bool)
    | JNumber(n: int)
    | JString(s: string)
    | JArray(items: seq<Json>)
    | JObject(fields: map<string, Json>)

  /** The HTTP request the Grok branch configures before writing the payload. */
  datatype HttpRequest = HttpRequest(
    verb: string,
    url: string,
    headers: map<string, string>,
    doOutput: bool,
    payload: Json)

  /** Which external call a dispatch makes. */
  datatype Call =
    | GrokCall(request: HttpRequest)
    | GeminiCall(modelName: string, apiKey: string, prompt: string)

  /** An exception's `message`, which may be null. */
  type Message = Option<string>

  /**
   * What the Grok HTTP exchange produced: a status code with the text of the
   * response (the input stream on 200, the error stream from 400 up; below
   * 400 there is no error stream and the text is not read), or an exception
   * thrown while connecting, writing or reading.
   */
  datatype GrokOutcome =
    | Replied(code: int, body: string)
    | Threw(message: Message)

  /** `JSONObject(text)`: the top-level object, or the parser's exception message. */
  type JsonParser = string -> Result<map<string, Json>, Message>

  /**
   * What the Gemini SDK did: the GenerativeModel constructor threw (outside
   * any try), or generateContent returned a possibly null text, or threw.
   */
  datatype GeminiOutcome =
    | ModelRejected(message: Message)
    | Generated(text: Option<string>)
    | GenerateThrew(message: Message)

  /**
   * The value fixGrammarAndTone returns, or the exception that escapes it
   * (only the Gemini model construction can throw past it).
   */
  datatype Reply = Returned(text: string) | Escaped(message: Message)

  /** The failures of the org.json getters used on the Grok response. */
  datatype JsonError =
    | NoValue(name: string)
    | IndexOutOfRange(index: int, length: nat)
    | WrongType(name: string, required: string)

  // ---- Request building ----

  predicate UsesGrok(provider: string) {
    provider == GrokProvider
  }

  function ChatMessage(role: string, content: string): Json {
    JObject(map["role" := JString(role), "content" := JString(content)])
  }

  /** The chat-completion payload: the model and the system then the user message. */
  function ChatPayload(model: string, customPrompt: string, userInput: string): Json {
    JObject(map[
      "model" := JString(model),
      "messages" := JArray([ChatMessage("system", customPrompt), ChatMessage("user", userInput)])])
  }

  function GrokRequest(model: string, apiKey: string, customPrompt: string, userInput: string): HttpRequest {
    HttpRequest(
      "POST",
      GrokEndpoint,
      map["Content-Type" := "application/json", "Authorization" := "Bearer " + apiKey],
      true,
      ChatPayload(model, customPrompt, userInput))
  }

  /** The single prompt sent to Gemini: instruction, a blank line, then the text. */
  function GeminiPrompt(customPrompt: string, userInput: string): string {
    customPrompt + "\n\n" + userInput
  }

  /** The call a dispatch makes: Grok's HTTP API on exactly "grok", Gemini otherwise. */
  function CallFor(provider: string, model: string, apiKey: string, customPrompt: string, userInput: string): (c: Call)
    ensures c.GrokCall? <==> provider == "grok"
    ensures c.GrokCall? ==> c.request == GrokRequest(model, apiKey, customPrompt, userInput)
    ensures c.GeminiCall? ==>
      c.modelName == model && c.apiKey == apiKey && c.prompt == GeminiPrompt(customPrompt, userInput)
  {
    if UsesGrok(provider) then GrokCall(GrokRequest(model, apiKey, customPrompt, userInput))
    else GeminiCall(model, apiKey, GeminiPrompt(customPrompt, userInput))
  }

  // ---- Reading the payload back (the partner of ChatPayload) ----

  function StringField(fields: map<string, Json>, name: string): Option<string> {
    if name in fields && fields[name].JString? then Some(fields[name].s) else None
  }

  /** The content of a message object with the given role, if it is one. */
  function MessageContent(j: Json, role: string): Option<string> {
    if j.JObject? && StringField(j.fields, "role") == Some(role) then StringField(j.fields, "content")
    else None
  }

  /** Model, system prompt and user text of a two-message chat payload. */
  function ReadPayload(j: Json): Option<(string, string, string)> {
    if j.JObject? && "model" in j.fields && j.fields["model"].JString?
       && "messages" in j.fields && j.fields["messages"].JArray? && |j.fields["messages"].items| == 2
    then
      var ms := j.fields["messages"].items;
      match (MessageContent(ms[0], "system"), MessageContent(ms[1], "user"))
      case (Some(p), Some(u)) => Some((j.fields["model"].s, p, u))
      case _ => None
    else None
  }

  /** The payload carries the model, the prompt as the system message and the text as the user message. */
  lemma PayloadRoundTrip(model: string, customPrompt: string, userInput: string)
    ensures ReadPayload(ChatPayload(model, customPrompt, userInput)) == Some((model, customPrompt, userInput))
  {
  }

  /** The key a Bearer authorization header carries. */
  function BearerToken(header: string): Option<string> {
    if |header| >= 7 && header[..7] == "Bearer " then Some(header[7..]) else None
  }

  /** The Grok request is a JSON POST to the chat endpoint authorised with the API key. */
  lemma GrokRequestShape(model: string, apiKey: string, customPrompt: string, userInput: string)
    ensures var r := GrokRequest(model, apiKey, customPrompt, userInput);
      && r.verb == "POST" && r.url == GrokEndpoint && r.doOutput
      && r.headers.Keys == {"Content-Type", "Authorization"}
      && r.headers["Content-Type"] == "application/json"
      && BearerToken(r.headers["Authorization"]) == Some(apiKey)
      && ReadPayload(r.payload) == Some((model, customPrompt, userInput))
  {
    var h := "Bearer " + apiKey;
    assert h[..7] == "Bearer " && h[7..] == apiKey;
  }

  /** The Gemini prompt splits back into the instruction and the text. */
  lemma GeminiPromptParts(customPrompt: string, userInput: string)
    ensures var p := GeminiPrompt(customPrompt, userInput);
      && |p| == |customPrompt| + 2 + |userInput|
      && p[..|customPrompt|] == customPrompt
      && p[|customPrompt|..|customPrompt| + 2] == "\n\n"
      && p[|customPrompt| + 2..] == userInput
  {
  }

  // ---- The org.json lookups on the Grok response ----

  function GetJsonArray(fields: map<string, Json>, name: string): Result<seq<Json>, JsonError> {
    if name !in fields then Failure(NoValue(name))
    else if fields[name].JArray? then Success(fields[name].items)
    else Failure(WrongType(name, "JSONArray"))
  }

  function GetJsonObject(fields: map<string, Json>, name: string): Result<map<string, Json>, JsonError> {
    if name !in fields then Failure(NoValue(name))
    else if fields[name].JObject? then Success(fields[name].fields)
    else Failure(WrongType(name, "JSONObject"))
  }

  function GetJsonObjectAt(items: seq<Json>, index: int): Result<map<string, Json>, JsonError> {
    if !(0 <= index < |items|) then Failure(IndexOutOfRange(index, |items|))
    else if items[index].JObject? then Success(items[index].fields)
    else Failure(WrongType(IntText(index), "JSONObject"))
  }

  /**
   * The text `getString` gives for a value: a string as it is, and null, a
   * boolean or a number as its `toString`. Arrays and objects are reported
   * as a type mismatch (see README, "Left out").
   */
  function ScalarText(j: Json): Option<string> {
    match j
    case JString(s) => Some(s)
    case JNull => Some("null")
    case JBool(b) => Some(if b then "true" else "false")
    case JNumber(n) => Some(IntText(n))
    case _ => None
  }

  function GetString(fields: map<string, Json>, name: string): Result<string, JsonError> {
    if name !in fields then Failure(NoValue(name))
    else
      match ScalarText(fields[name])
      case Some(t) => Success(t)
      case None => Failure(WrongType(name, "String"))
  }

  /** `choices[0].message.content` of a chat-completion response. */
  function ChoiceContent(response: map<string, Json>): (r: Result<string, JsonError>)
    ensures r.Success? <==>
      && "choices" in response && response["choices"].JArray? && |response["choices"].items| > 0
      && response["choices"].items[0].JObject? && "message" in response["choices"].items[0].fields
      && response["choices"].items[0].fields["message"].JObject?
      && "content" in response["choices"].items[0].fields["message"].fields
      && ScalarText(response["choices"].items[0].fields["message"].fields["content"]).Some?
    ensures r.Success? ==> Some(r.value) == ScalarText(response["choices"].items[0].fields["message"].fields["content"])
  {
    match GetJsonArray(response, "choices")
    case Failure(e) => Failure(e)
    case Success(choices) =>
      match GetJsonObjectAt(choices, 0)
      case Failure(e) => Failure(e)
      case Success(first) =>
        match GetJsonObject(first, "message")
        case Failure(e) => Failure(e)
        case Success(message) => GetString(message, "content")
  }

  /** A chat-completion response with the given text as its first choice. */
  function ChatResponse(content: string): map<string, Json> {
    map["choices" := JArray([JObject(map["message" := JObject(map["content" := JString(content)])])])]
  }

  /** The text of a JSONException, after Android's org.json (the value and class in a type mismatch are not rendered). */
  function JsonErrorMessage(e: JsonError): string {
    match e
    case NoValue(name) => "No value for " + name
    case IndexOutOfRange(i, n) => "Index " + IntText(i) + " out of range [0.." + IntText(n) + ")"
    case WrongType(name, required) => "Value at " + name + " cannot be converted to " + required
  }

  // ---- Result strings ----

  /** `"Error: ${e.message}"`: a null message prints as "null". */
  function ExceptionText(message: Message): string {
    "Error: " + message.GetOr("null")
  }

  /** `"Error ($responseCode): $errorResponse"`. */
  function StatusText(code: int, body: string): string {
    "Error (" + IntText(code) + "): " + body
  }

  /** The Grok branch: every exception inside its try becomes "Error: <message>". */
  function GrokReply(outcome: GrokOutcome, parse: JsonParser): string {
    match outcome
    case Threw(m) => ExceptionText(m)
    case Replied(code, body) =>
      if code == HttpOk then
        match parse(body)
        case Failure(m) => ExceptionText(m)
        case Success(response) =>
          match ChoiceContent(response)
          case Failure(e) => ExceptionText(Some(JsonErrorMessage(e)))
          case Success(content) => Trim(content)
      else if code < HttpBadRequest then ExceptionText(None)
      else StatusText(code, body)
  }

  /** The Gemini branch: a null text gives "Error.", a thrown generateContent "Error: <message>". */
  function GeminiReply(outcome: GeminiOutcome): Reply {
    match outcome
    case ModelRejected(m) => Escaped(m)
    case Generated(text) =>
      (match text
       case Some(t) => Returned(Trim(t))
       case None => Returned("Error."))
    case GenerateThrew(m) => Returned(ExceptionText(m))
  }

  /**
   * fixGrammarAndTone(provider, model, apiKey, customPrompt, userInput), given
   * what the Grok exchange and the Gemini SDK would produce; only the outcome
   * of the provider actually called is consulted. The reply depends on the
   * model, key, prompt and text only through those outcomes: the request they
   * produce is `CallFor` on the same arguments.
   */
  function FixGrammarAndTone(
    provider: string, model: string, apiKey: string, customPrompt: string, userInput: string,
    grok: GrokOutcome, parse: JsonParser, gemini: GeminiOutcome): Reply
  {
    if UsesGrok(provider) then Returned(GrokReply(grok, parse)) else GeminiReply(gemini)
  }

  // ---- Properties of the dispatch ----

  /** The HTTP branch is taken on exactly "grok": "Grok", "" and every other name go to Gemini. */
  lemma BranchOnExactName(provider: string, model: string, apiKey: string, customPrompt: string, userInput: string,
                          grok: GrokOutcome, parse: JsonParser, gemini: GeminiOutcome)
    ensures provider == "grok" ==>
      FixGrammarAndTone(provider, model, apiKey, customPrompt, userInput, grok, parse, gemini) == Returned(GrokReply(grok, parse))
    ensures provider != "grok" ==>
      FixGrammarAndTone(provider, model, apiKey, customPrompt, userInput, grok, parse, gemini) == GeminiReply(gemini)
    ensures !UsesGrok("Grok") && !UsesGrok("")
  {
  }

  /** Nothing escapes the Grok branch; on Gemini only a rejected model construction does. */
  lemma EscapesOnlyFromModelConstruction(provider: string, model: string, apiKey: string, customPrompt: string,
                                         userInput: string, grok: GrokOutcome, parse: JsonParser, gemini: GeminiOutcome)
    ensures FixGrammarAndTone(provider, model, apiKey, customPrompt, userInput, grok, parse, gemini).Escaped?
      <==> provider != "grok" && gemini.ModelRejected?
  {
  }

  /** The smallest chat-completion response carries its content as the first choice's text. */
  lemma ChatResponseContent(content: string)
    ensures ChoiceContent(ChatResponse(content)) == Success(content)
  {
  }

  /**
   * On 200 with a response whose first choice has a content, whatever other
   * fields it carries, the reply is that content, trimmed.
   */
  lemma GrokSuccessIsTrimmedContent(body: string, parse: JsonParser, response: map<string, Json>, content: string)
    requires parse(body) == Success(response) && ChoiceContent(response) == Success(content)
    ensures GrokReply(Replied(HttpOk, body), parse) == Trim(content)
    ensures var r := GrokReply(Replied(HttpOk, body), parse); r == [] || (!IsWhitespace(r[0]) && !IsWhitespace(r[|r| - 1]))
  {
  }

  /** Reads back the code and the body of an "Error (<code>): <body>" string. */
  function ParseStatusText(s: string): Option<(int, string)> {
    if |s| >= 7 && s[..7] == "Error (" then
      var rest := s[7..];
      var k := CloseParen(rest, 0);
      if k + 3 <= |rest| && rest[k..k + 3] == "): " then
        match ParseInt(rest[..k])
        case Some(code) => Some((code, rest[k + 3..]))
        case None => None
      else None
    else None
  }

  /** The index of the first ')' in `s` at or after `i`, or |s|. */
  function CloseParen(s: string, i: nat): (k: nat)
    requires i <= |s|
    ensures i <= k <= |s| && (k < |s| ==> s[k] == ')')
    ensures forall j :: i <= j < k ==> s[j] != ')'
    decreases |s| - i
  {
    if i == |s| || s[i] == ')' then i else CloseParen(s, i + 1)
  }

  /** A non-200 status yields a message from which the code and the body, verbatim, can be read back. */
  lemma StatusTextRoundTrip(code: int, body: string)
    ensures ParseStatusText(StatusText(code, body)) == Some((code, body))
  {
    var digits := IntText(code);
    var s := StatusText(code, body);
    var rest := digits + "): " + body;
    assert s[..7] == "Error (" && s[7..] == rest;
    assert forall j :: 0 <= j < |digits| ==> digits[j] != ')' by {
      if code < 0 { assert forall j :: 1 <= j < |digits| ==> digits[j] == NatDigits(-code)[j - 1]; }
    }
    assert rest[|digits|] == ')';
    assert CloseParen(rest, 0) == |digits|;
    assert rest[..|digits|] == digits && rest[|digits|..|digits| + 3] == "): " && rest[|digits| + 3..] == body;
    IntTextRoundTrip(code);
  }

  /**
   * A non-200 status never goes through the JSON parser: from 400 up the
   * reply is the status text; below 400 there is no error stream, and
   * reading it fails with a message-less exception, giving "Error: null".
   */
  lemma NonOkStatusIgnoresParser(code: int, body: string, parse: JsonParser)
    requires code != HttpOk
    ensures code >= HttpBadRequest ==> GrokReply(Replied(code, body), parse) == StatusText(code, body)
    ensures code < HttpBadRequest ==> GrokReply(Replied(code, body), parse) == "Error: null"
  {
  }

  /**
   * A `content` that is JSON null, a boolean or a number is not an error:
   * `getString` turns it into its text, so null content gives "null".
   */
  lemma ScalarContentIsText(body: string, parse: JsonParser, response: map<string, Json>)
    requires parse(body) == Success(response)
    requires "choices" in response && response["choices"].JArray? && |response["choices"].items| > 0
    requires response["choices"].items[0].JObject? && "message" in response["choices"].items[0].fields
    requires response["choices"].items[0].fields["message"].JObject?
    requires "content" in response["choices"].items[0].fields["message"].fields
    requires var content := response["choices"].items[0].fields["message"].fields["content"];
      !content.JArray? && !content.JObject?
    ensures var content := response["choices"].items[0].fields["message"].fields["content"];
      GrokReply(Replied(HttpOk, body), parse) == Trim(ScalarText(content).value)
    ensures response["choices"].items[0].fields["message"].fields["content"] == JNull ==>
      GrokReply(Replied(HttpOk, body), parse) == "null"
  {
    TrimKeepsUnpadded("null");
  }

  /** A missing or malformed `choices`/`message`/`content` becomes "Error: " plus the lookup's message. */
  lemma MalformedResponseIsError(body: string, parse: JsonParser, response: map<string, Json>)
    requires parse(body) == Success(response) && ChoiceContent(response).Failure?
    ensures GrokReply(Replied(HttpOk, body), parse) == "Error: " + JsonErrorMessage(ChoiceContent(response).error)
  {
  }

  /**
   * Every exception the two catch blocks see becomes "Error: " plus its message
   * ("null" when it has none): on Grok a failure to connect, send or read, and
   * unparsable 200 text; on Gemini a failing generateContent.
   */
  lemma CaughtExceptionsBecomeErrorText(m: Message, body: string, parse: JsonParser)
    ensures GrokReply(Threw(m), parse) == "Error: " + m.GetOr("null")
    ensures parse(body) == Failure(m) ==> GrokReply(Replied(HttpOk, body), parse) == "Error: " + m.GetOr("null")
    ensures GeminiReply(GenerateThrew(m)) == Returned("Error: " + m.GetOr("null"))
  {
  }

  /** "Error." comes only from a null text; an empty text gives the empty string. */
  lemma GeminiNullTextOnly(t: string)
    ensures GeminiReply(Generated(None)) == Returned("Error.")
    ensures GeminiReply(Generated(Some(""))) == Returned("")
    ensures GeminiReply(Generated(Some(t))) == Returned(Trim(t))
  {
    assert Trim("") == [] by { BlankIffTrimsToEmpty(""); }
  }
}
