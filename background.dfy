/** The background service worker (scripts/background.js): the `OPTIMIZE_PROMPT`
    dispatcher, the four provider adapters, the message listener's reply envelope
    and the first-install default.

    Everything the worker reads from outside arrives as a value: the storage
    snapshot (`Settings`), the message, and the outcome of the one HTTP exchange an
    adapter performs (`Exchange`). Dispatching is split in two, as the source is:
    `Route` validates and picks the adapter with its key and prompt (no network),
    then the adapter maps the exchange to optimized text or a thrown error. */
module Background {
  import opened Results
  import opened JsText

  /** `DEFAULT_META_PROMPT`: the rewriting instructions followed by the framing the
      user's prompt is appended to. */
  const DEFAULT_META_PROMPT: string := META_INSTRUCTIONS + META_FRAMING
  const META_INSTRUCTIONS: string :=
    "You are a professional prompt engineer. Your sole task is to improve the clarity, specificity, and effectiveness of user prompts for large language models.\n\nDo not generate code, images, or perform any actions other than rewriting the prompt for better LLM understanding.\n\nOutput only the improved prompt, without commentary or instructions.\n\n"
  const META_FRAMING: string := "User Prompt: "

  const MISSING_USER_PROMPT: string := "Missing user prompt"
  const UNSUPPORTED_PROVIDER: string := "Unsupported provider"
  const NO_BODY: string := "<no body>"
  const DEFAULT_PROVIDER: string := "openai"
  /** The pattern of OpenRouter's data-policy test, written in lower case because the
      test ignores case. */
  const DATA_POLICY_PHRASE: string := "no endpoints found matching your data policy"
  const OPENROUTER_PRIVACY_MESSAGE: string :=
    "OpenRouter: Your privacy settings block free models. Either enable \"Free model publication\" in OpenRouter Settings \U{2192} Privacy, or choose a non-free model. See https://openrouter.ai/settings/privacy"

  /** The four providers, `PROVIDERS` in the worker. */
  datatype Vendor = OpenAI | Gemini | Claude | OpenRouter

  /** The provider id stored in `po_provider` and sent by the page. */
  function ProviderId(v: Vendor): string {
    match v
    case OpenAI => "openai"
    case Gemini => "gemini"
    case Claude => "claude"
    case OpenRouter => "openrouter"
  }

  /** The provider an id names, if any: the inverse of `ProviderId`. */
  function VendorOf(id: string): (v: Option<Vendor>)
    ensures v.Some? ==> ProviderId(v.value) == id
    ensures v.None? ==> forall w: Vendor :: ProviderId(w) != id
  {
    if id == "openai" then Some(OpenAI)
    else if id == "gemini" then Some(Gemini)
    else if id == "claude" then Some(Claude)
    else if id == "openrouter" then Some(OpenRouter)
    else None
  }

  /** How the missing-key and empty-response messages spell the vendor. */
  function KeyLabel(v: Vendor): string {
    match v
    case OpenAI => "OpenAI"
    case Gemini => "Gemini"
    case Claude => "Claude"
    case OpenRouter => "Openrouter"
  }

  /** How the HTTP-status messages spell the vendor. */
  function StatusLabel(v: Vendor): string {
    match v
    case OpenAI => "OpenAI"
    case Gemini => "Gemini"
    case Claude => "Claude"
    case OpenRouter => "OpenRouter"
  }

  function MissingKeyMessage(v: Vendor): string {
    KeyLabel(v) + " API key not set. Add it in Options."
  }

  function EmptyResponseMessage(v: Vendor): string {
    "Empty response from " + KeyLabel(v)
  }

  /** A JavaScript exception: its `name` and its `message`. */
  datatype JsError = JsError(name: string, message: string)

  /** `new Error(message)` */
  function Error(message: string): JsError {
    JsError("Error", message)
  }

  /** `String(error)`, that is `Error.prototype.toString`. */
  function ErrorToString(e: JsError): string {
    if e.name == "" then e.message
    else if e.message == "" then e.name
    else e.name + ": " + e.message
  }

  /** JavaScript truthiness of an optional string: absent and `''` are false. */
  predicate Truthy(o: Option<string>) {
    o.Some? && o.value != ""
  }

  /** The storage snapshot `handleOptimize` reads; every key may be absent or empty. */
  datatype Settings = Settings(
    masterPrompt: Option<string>,   // po_master_prompt
    provider: Option<string>,       // po_provider
    openaiKey: Option<string>,      // po_openai_key
    geminiKey: Option<string>,      // po_gemini_key
    claudeKey: Option<string>,      // po_claude_key
    openrouterKey: Option<string>)  // po_openrouter_key

  function StoredKey(s: Settings, v: Vendor): Option<string> {
    match v
    case OpenAI => s.openaiKey
    case Gemini => s.geminiKey
    case Claude => s.claudeKey
    case OpenRouter => s.openrouterKey
  }

  /** The `payload` of an `OPTIMIZE_PROMPT` message. */
  datatype Payload = Payload(provider: Option<string>, userPrompt: Option<string>)

  /** `!userPrompt` after `const { provider, userPrompt } = payload || {}`. */
  predicate MissingPrompt(payload: Option<Payload>) {
    payload.None? || !Truthy(payload.value.userPrompt)
  }

  /** `provider || storage.po_provider || 'openai'`: the first truthy of the three. */
  function EffectiveProvider(requested: Option<string>, s: Settings): (id: string)
    ensures id != ""
    ensures Truthy(requested) ==> id == requested.value
    ensures !Truthy(requested) && Truthy(s.provider) ==> id == s.provider.value
    ensures !Truthy(requested) && !Truthy(s.provider) ==> id == DEFAULT_PROVIDER
  {
    if Truthy(requested) then requested.value
    else if Truthy(s.provider) then s.provider.value
    else DEFAULT_PROVIDER
  }

  /** The custom master prompt, trimmed, when that is non-empty; else the default. */
  function MetaPrompt(s: Settings): (m: string)
    ensures m != ""
    ensures s.masterPrompt.Some? && Trim(s.masterPrompt.value) != "" ==> m == Trim(s.masterPrompt.value)
    ensures (s.masterPrompt.None? || Trim(s.masterPrompt.value) == "") ==> m == DEFAULT_META_PROMPT
  {
    if s.masterPrompt.Some? && Trim(s.masterPrompt.value) != "" then Trim(s.masterPrompt.value)
    else DEFAULT_META_PROMPT
  }

  /** What `handleOptimize` decides before any network traffic: fail, or call one
      adapter with a key and the full prompt. */
  datatype Dispatch = Reject(error: JsError) | Call(vendor: Vendor, key: string, prompt: string)

  /** The validation and routing half of `handleOptimize`, branch for branch. */
  function Route(payload: Option<Payload>, s: Settings): (d: Dispatch)
    ensures MissingPrompt(payload) <==> d == Reject(Error(MISSING_USER_PROMPT))
    ensures d.Call? ==> StoredKey(s, d.vendor) == Some(d.key) && d.key != ""
  {
    if payload.None? || !Truthy(payload.value.userPrompt) then Reject(Error(MISSING_USER_PROMPT))
    else
      var provider := EffectiveProvider(payload.value.provider, s);
      var prompt := MetaPrompt(s) + payload.value.userPrompt.value;
      if provider == "openai" then
        if !Truthy(s.openaiKey) then Reject(Error(MissingKeyMessage(OpenAI)))
        else Call(OpenAI, s.openaiKey.value, prompt)
      else if provider == "gemini" then
        if !Truthy(s.geminiKey) then Reject(Error(MissingKeyMessage(Gemini)))
        else Call(Gemini, s.geminiKey.value, prompt)
      else if provider == "claude" then
        if !Truthy(s.claudeKey) then Reject(Error(MissingKeyMessage(Claude)))
        else Call(Claude, s.claudeKey.value, prompt)
      else if provider == "openrouter" then
        if !Truthy(s.openrouterKey) then Reject(Error(MissingKeyMessage(OpenRouter)))
        else Call(OpenRouter, s.openrouterKey.value, prompt)
      else Reject(Error(UNSUPPORTED_PROVIDER))
  }

  /** The four branches of `handleOptimize` are one lookup through `VendorOf`: an
      unknown id is rejected, a known one without a truthy key is rejected naming the
      vendor, and otherwise its adapter gets the key and `metaPrompt + userPrompt`. */
  lemma RouteTable(payload: Option<Payload>, s: Settings)
    ensures !MissingPrompt(payload) ==>
      var d := Route(payload, s);
      var user := payload.value.userPrompt.value;
      match VendorOf(EffectiveProvider(payload.value.provider, s))
      case None => d == Reject(Error(UNSUPPORTED_PROVIDER))
      case Some(v) =>
        if Truthy(StoredKey(s, v)) then d == Call(v, StoredKey(s, v).value, MetaPrompt(s) + user)
        else d == Reject(Error(MissingKeyMessage(v)))
  {
    if !MissingPrompt(payload) {
      var id := EffectiveProvider(payload.value.provider, s);
      if id == "openai" {
        assert VendorOf(id) == Some(OpenAI);
      } else if id == "gemini" {
        assert VendorOf(id) == Some(Gemini);
      } else if id == "claude" {
        assert VendorOf(id) == Some(Claude);
      } else if id == "openrouter" {
        assert VendorOf(id) == Some(OpenRouter);
      } else {
        assert VendorOf(id) == None;
      }
    }
  }

  /** A parsed JSON body. */
  datatype Json =
    | JNull
    | JBool(b: bool)
    | JNumber(n: real)
    | JString(s: string)
    | JArray(items: seq<Json>)
    | JObject(members: map<string, Json>)

  /** `v?.key` for the keys the adapters read; none of them is a built-in property of
      a string or an array, so only objects yield a value. `None` is `undefined`. */
  function Member(v: Option<Json>, key: string): Option<Json> {
    match v
    case Some(JObject(m)) => if key in m then Some(m[key]) else None
    case _ => None
  }

  /** `v?.[0]`: the first element of an array, the member `"0"` of an object, the
      first character of a string. */
  function First(v: Option<Json>): Option<Json> {
    match v
    case Some(JArray(items)) => if items != [] then Some(items[0]) else None
    case Some(JObject(m)) => if "0" in m then Some(m["0"]) else None
    case Some(JString(t)) => if t != "" then Some(JString([t[0]])) else None
    case _ => None
  }

  /** JavaScript truthiness of a value read out of the body. */
  predicate JsonTruthy(v: Option<Json>) {
    match v
    case None => false
    case Some(JNull) => false
    case Some(JBool(b)) => b
    case Some(JNumber(n)) => n != 0.0
    case Some(JString(t)) => t != ""
    case Some(_) => true
  }

  /** The one HTTP round trip an adapter makes: `fetch` rejects, or a response
      arrives with its status, its body as text (`None` when reading it fails) and
      its body as JSON (`Err` when `res.json()` throws). */
  datatype Exchange =
    | NetworkFailure(error: JsError)
    | Response(status: nat, body: Option<string>, json: Result<Json, JsError>)

  /** `res.ok` */
  predicate IsOk(status: nat) {
    200 <= status <= 299
  }

  /** `safeText(res)` */
  function SafeText(body: Option<string>): string {
    match body
    case Some(t) => t
    case None => NO_BODY
  }

  /** `new Error(`${vendorName} error ${res.status}: ${text}`)` */
  function StatusError(vendorName: string, status: nat, body: Option<string>): JsError {
    Error(vendorName + " error " + DecimalString(status) + ": " + SafeText(body))
  }

  /** `content.trim()` on a truthy value bound to the variable `binding`: a string
      is trimmed; any other value has no `trim` method and V8 throws a TypeError. */
  function TrimValue(v: Json, binding: string): (r: Result<string, JsError>)
    ensures v.JString? <==> r.Ok?
    ensures v.JString? ==> r.value == Trim(v.s)
  {
    match v
    case JString(t) => Ok(Trim(t))
    case _ => Err(JsError("TypeError", binding + ".trim is not a function"))
  }

  /** `data?.choices?.[0]?.message?.content` */
  function ChoiceContent(data: Option<Json>): Option<Json> {
    Member(Member(First(Member(data, "choices")), "message"), "content")
  }

  /** `data?.candidates?.[0]?.content?.parts?.[0]?.text` */
  function CandidateText(data: Option<Json>): Option<Json> {
    Member(First(Member(Member(First(Member(data, "candidates")), "content"), "parts")), "text")
  }

  /** `callOpenAI`, from the response on. */
  function CallOpenAI(x: Exchange): Result<string, JsError> {
    match x
    case NetworkFailure(e) => Err(e)
    case Response(status, body, json) =>
      if !IsOk(status) then Err(StatusError(StatusLabel(OpenAI), status, body))
      else match json
        case Err(e) => Err(e)
        case Ok(data) =>
          var content := ChoiceContent(Some(data));
          if !JsonTruthy(content) then Err(Error(EmptyResponseMessage(OpenAI)))
          else TrimValue(content.value, "content")
  }

  /** `callGemini`, from the response on. */
  function CallGemini(x: Exchange): Result<string, JsError> {
    match x
    case NetworkFailure(e) => Err(e)
    case Response(status, body, json) =>
      if !IsOk(status) then Err(StatusError(StatusLabel(Gemini), status, body))
      else match json
        case Err(e) => Err(e)
        case Ok(data) =>
          var text := CandidateText(Some(data));
          if !JsonTruthy(text) then Err(Error(EmptyResponseMessage(Gemini)))
          else TrimValue(text.value, "text")
  }

  /** `callClaude`, from the response on. `data?.content` is preferred when truthy;
      non-string content goes through `stringify` (`JSON.stringify`) untrimmed. */
  function CallClaude(x: Exchange, stringify: Json -> string): Result<string, JsError> {
    match x
    case NetworkFailure(e) => Err(e)
    case Response(status, body, json) =>
      if !IsOk(status) then Err(StatusError(StatusLabel(Claude), status, body))
      else match json
        case Err(e) => Err(e)
        case Ok(data) =>
          var direct := Member(Some(data), "content");
          var content := if JsonTruthy(direct) then direct else ChoiceContent(Some(data));
          if !JsonTruthy(content) then Err(Error(EmptyResponseMessage(Claude)))
          else match content.value
            case JString(t) => Ok(Trim(t))
            case other => Ok(stringify(other))
  }

  /** The 404 body OpenRouter sends when the account's privacy settings exclude
      every endpoint of a free model (a case-insensitive test). */
  predicate DataPolicyBlocked(status: nat, text: string) {
    status == 404 && Contains(Lower(text), DATA_POLICY_PHRASE)
  }

  /** `callOpenrouter`, from the response on. */
  function CallOpenrouter(x: Exchange): Result<string, JsError> {
    match x
    case NetworkFailure(e) => Err(e)
    case Response(status, body, json) =>
      if !IsOk(status) then
        if DataPolicyBlocked(status, SafeText(body)) then Err(Error(OPENROUTER_PRIVACY_MESSAGE))
        else Err(StatusError(StatusLabel(OpenRouter), status, body))
      else match json
        case Err(e) => Err(e)
        case Ok(data) =>
          var content := ChoiceContent(Some(data));
          if !JsonTruthy(content) then Err(Error(EmptyResponseMessage(OpenRouter)))
          else TrimValue(content.value, "content")
  }

  function CallProvider(v: Vendor, x: Exchange, stringify: Json -> string): Result<string, JsError> {
    match v
    case OpenAI => CallOpenAI(x)
    case Gemini => CallGemini(x)
    case Claude => CallClaude(x, stringify)
    case OpenRouter => CallOpenrouter(x)
  }

  /** `handleOptimize(payload)`: its promise resolves to `Ok` or rejects with `Err`.
      A falsy prompt, an unknown provider and a missing key are rejected whatever the
      exchange; otherwise the result is that provider's adapter on the exchange. */
  function HandleOptimize(payload: Option<Payload>, s: Settings, x: Exchange, stringify: Json -> string): (r: Result<string, JsError>)
    ensures MissingPrompt(payload) ==> r == Err(Error(MISSING_USER_PROMPT))
    ensures !MissingPrompt(payload) ==>
      match VendorOf(EffectiveProvider(payload.value.provider, s))
      case None => r == Err(Error(UNSUPPORTED_PROVIDER))
      case Some(v) =>
        if Truthy(StoredKey(s, v)) then r == CallProvider(v, x, stringify)
        else r == Err(Error(MissingKeyMessage(v)))
  {
    RouteTable(payload, s);
    match Route(payload, s)
    case Reject(e) => Err(e)
    case Call(v, _, _) => CallProvider(v, x, stringify)
  }

  /** The messages the listener distinguishes by `message?.type`. */
  datatype Message = OpenOptions | OptimizePrompt(payload: Option<Payload>) | OtherMessage

  /** The reply objects: `{ok: true}`, `{success: true, optimized}`, `{success: false, error}`. */
  datatype Reply = Acknowledged | Optimized(optimized: string) | Failed(error: string)

  /** What one listener invocation does: the reply it sends, if any, and whether it
      returns `true` to keep the channel open for an asynchronous reply. */
  datatype Listening = Listening(reply: Option<Reply>, keepOpen: bool)

  /** `error?.message || String(error)` */
  function ErrorText(e: JsError): (t: string)
    ensures e.message != "" ==> t == e.message
    ensures e.message == "" ==> t == e.name
  {
    if e.message != "" then e.message else ErrorToString(e)
  }

  /** The `.then`/`.catch` pair: exactly one reply per outcome. */
  function Envelope(r: Result<string, JsError>): (reply: Reply)
    ensures r.Ok? <==> reply.Optimized?
    ensures r.Ok? ==> reply == Optimized(r.value)
    ensures r.Err? ==> reply == Failed(ErrorText(r.error))
  {
    match r
    case Ok(text) => Optimized(text)
    case Err(e) => Failed(ErrorText(e))
  }

  /** The `chrome.runtime.onMessage` listener. */
  function OnMessage(m: Message, s: Settings, x: Exchange, stringify: Json -> string): (l: Listening)
    ensures l.keepOpen <==> m.OptimizePrompt?
    ensures m.OpenOptions? ==> l.reply == Some(Acknowledged)
    ensures m.OptimizePrompt? ==> l.reply == Some(Envelope(HandleOptimize(m.payload, s, x, stringify)))
    ensures m.OtherMessage? ==> l.reply.None?
  {
    match m
    case OpenOptions => Listening(Some(Acknowledged), false)
    case OptimizePrompt(payload) => Listening(Some(Envelope(HandleOptimize(payload, s, x, stringify))), true)
    case OtherMessage => Listening(None, false)
  }

  /** `onInstalled`: write `po_provider = 'openai'` when the stored value is falsy. */
  function OnInstalled(s: Settings): (s': Settings)
    ensures Truthy(s'.provider)
    ensures Truthy(s.provider) ==> s' == s
    ensures !Truthy(s.provider) ==> s' == s.(provider := Some(DEFAULT_PROVIDER))
  {
    if !Truthy(s.provider) then s.(provider := Some(DEFAULT_PROVIDER)) else s
  }

  // ---------------------------------------------------------------------------
  // Properties of the dispatcher

  /** An absent payload or a falsy `userPrompt` fails with 'Missing user prompt'
      whatever the storage holds and whatever the network would answer. */
  lemma MissingPromptRejectedFirst(payload: Option<Payload>, s: Settings, x: Exchange, stringify: Json -> string)
    requires MissingPrompt(payload)
    ensures Route(payload, s) == Reject(Error(MISSING_USER_PROMPT))
    ensures HandleOptimize(payload, s, x, stringify) == Err(Error(MISSING_USER_PROMPT))
  {
  }

  /** Only emptiness is checked here: a whitespace-only prompt, blank once trimmed,
      passes validation. */
  lemma WhitespacePromptPassesValidation(provider: Option<string>, user: string, s: Settings)
    requires user != "" && AllWhitespace(user)
    ensures Trim(user) == ""
    ensures Route(Some(Payload(provider, Some(user))), s) != Reject(Error(MISSING_USER_PROMPT))
  {
    TrimShape(user);
  }

  /** The default meta-prompt ends in the framing the user's prompt is appended to. */
  lemma DefaultMetaPromptFraming()
    ensures |META_FRAMING| <= |DEFAULT_META_PROMPT|
    ensures DEFAULT_META_PROMPT[|DEFAULT_META_PROMPT| - |META_FRAMING|..] == "User Prompt: "
  {
    assert DEFAULT_META_PROMPT[|META_INSTRUCTIONS|..] == META_FRAMING;
  }

  /** A custom master prompt is trimmed, so it never ends in whitespace: the user's
      prompt follows its last visible character with no separator. */
  lemma CustomMetaPromptHasNoTrailingSpace(s: Settings)
    requires s.masterPrompt.Some? && Trim(s.masterPrompt.value) != ""
    ensures MetaPrompt(s) != [] && !IsWhitespace(MetaPrompt(s)[|MetaPrompt(s)| - 1])
  {
    var t := Trim(s.masterPrompt.value);
    TrimShape(s.masterPrompt.value);
    assert MetaPrompt(s) == t;
  }

  /** The text an adapter receives is the meta-prompt followed by the user's prompt,
      exactly, and the key it receives is the stored key of that provider. */
  lemma ConcatenationLaw(provider: Option<string>, user: string, s: Settings, v: Vendor)
    requires user != "" && EffectiveProvider(provider, s) == ProviderId(v) && Truthy(StoredKey(s, v))
    ensures Route(Some(Payload(provider, Some(user))), s) == Call(v, StoredKey(s, v).value, MetaPrompt(s) + user)
  {
    RouteTable(Some(Payload(provider, Some(user))), s);
  }

  /** A provider without a truthy stored key fails naming that provider, and no
      adapter runs: the result is the same for every exchange. */
  lemma MissingKeyRejected(payload: Option<Payload>, s: Settings, v: Vendor, x: Exchange, stringify: Json -> string)
    requires !MissingPrompt(payload)
    requires EffectiveProvider(payload.value.provider, s) == ProviderId(v) && !Truthy(StoredKey(s, v))
    ensures HandleOptimize(payload, s, x, stringify) == Err(Error(MissingKeyMessage(v)))
  {
    RouteTable(payload, s);
  }

  /** Any id other than the four fails with 'Unsupported provider'; there is no
      fallback to a default adapter. */
  lemma UnknownProviderRejected(payload: Option<Payload>, s: Settings, x: Exchange, stringify: Json -> string)
    requires !MissingPrompt(payload)
    requires forall v: Vendor :: EffectiveProvider(payload.value.provider, s) != ProviderId(v)
    ensures HandleOptimize(payload, s, x, stringify) == Err(Error(UNSUPPORTED_PROVIDER))
  {
    RouteTable(payload, s);
  }

  /** An empty provider id in the request falls through to the stored one. */
  lemma EmptyRequestedProviderFallsThrough(user: string, s: Settings)
    requires user != ""
    ensures Route(Some(Payload(Some(""), Some(user))), s) == Route(Some(Payload(None, Some(user))), s)
  {
  }

  // ---------------------------------------------------------------------------
  // Properties of the adapters

  /** The text field each chat adapter reads. */
  function ExtractedText(v: Vendor, data: Json): Option<Json> {
    if v == Gemini then CandidateText(Some(data)) else ChoiceContent(Some(data))
  }

  /** Every non-ok status fails with '<Vendor> error <status>: <body>', the body
      being '<no body>' when it cannot be read; the one exception is OpenRouter's
      data-policy 404. */
  lemma NonOkStatusFails(v: Vendor, status: nat, body: Option<string>, json: Result<Json, JsError>, stringify: Json -> string)
    requires !IsOk(status)
    requires v == OpenRouter ==> !DataPolicyBlocked(status, SafeText(body))
    ensures CallProvider(v, Response(status, body, json), stringify) == Err(StatusError(StatusLabel(v), status, body))
    ensures body.None? ==> StatusError(StatusLabel(v), status, body).message
                           == StatusLabel(v) + " error " + DecimalString(status) + ": <no body>"
  {
  }

  /** OpenRouter's 404 whose body mentions the data-policy phrase, in any letter
      case, becomes the privacy-settings message. */
  lemma OpenRouterDataPolicy(body: string, json: Result<Json, JsError>)
    requires Contains(Lower(body), DATA_POLICY_PHRASE)
    ensures CallOpenrouter(Response(404, Some(body), json)) == Err(Error(OPENROUTER_PRIVACY_MESSAGE))
  {
  }

  /** The phrase itself, with any letter case, is such a body. */
  lemma DataPolicyPhraseMatches(body: string)
    requires Lower(body) == DATA_POLICY_PHRASE
    ensures DataPolicyBlocked(404, body)
  {
    var p := Lower(body);
    assert p[0..|p|] == p;
    ContainsAt(p, DATA_POLICY_PHRASE, 0);
  }

  /** The same body with any other failing status is an ordinary status error. */
  lemma OpenRouterOtherStatus(status: nat, body: Option<string>, json: Result<Json, JsError>)
    requires !IsOk(status) && status != 404
    ensures CallOpenrouter(Response(status, body, json)) == Err(StatusError("OpenRouter", status, body))
  {
  }

  /** A vendor's status message determines the status and the body text, whatever
      the bodies: the decimal status is delimited by the ': ' that follows it. */
  lemma StatusErrorInjective(name: string, s1: nat, s2: nat, b1: Option<string>, b2: Option<string>)
    requires StatusError(name, s1, b1) == StatusError(name, s2, b2)
    ensures s1 == s2 && SafeText(b1) == SafeText(b2)
  {
    var d1, d2 := DecimalString(s1), DecimalString(s2);
    var pre := name + " error ";
    var m1 := pre + d1 + ": " + SafeText(b1);
    var m2 := pre + d2 + ": " + SafeText(b2);
    assert m1 == m2;
    assert m1[|pre| + |d1|] == ':' && m2[|pre| + |d2|] == ':';
    if |d1| < |d2| {
      assert false;
    } else if |d2| < |d1| {
      assert false;
    }
    assert d1 == m1[|pre|..|pre| + |d1|] == m2[|pre|..|pre| + |d2|] == d2;
    assert SafeText(b1) == m1[|pre| + |d1| + 2..] == m2[|pre| + |d2| + 2..] == SafeText(b2);
    DecimalRoundTrip(s1);
    DecimalRoundTrip(s2);
  }

  /** OpenAI, Gemini and OpenRouter: on an ok response a non-empty string in the
      text field comes back trimmed, and a missing or falsy field is an empty
      response. */
  lemma TextFieldOutcome(v: Vendor, status: nat, body: Option<string>, data: Json, stringify: Json -> string)
    requires v != Claude && IsOk(status)
    ensures !JsonTruthy(ExtractedText(v, data)) ==>
      CallProvider(v, Response(status, body, Ok(data)), stringify) == Err(Error(EmptyResponseMessage(v)))
    ensures ExtractedText(v, data).Some? && ExtractedText(v, data).value.JString? && JsonTruthy(ExtractedText(v, data)) ==>
      CallProvider(v, Response(status, body, Ok(data)), stringify) == Ok(Trim(ExtractedText(v, data).value.s))
  {
  }

  /** What OpenAI, Gemini and OpenRouter return is already trimmed. */
  lemma AdapterResultTrimmed(v: Vendor, x: Exchange, stringify: Json -> string)
    requires v != Claude && CallProvider(v, x, stringify).Ok?
    ensures Trim(CallProvider(v, x, stringify).value) == CallProvider(v, x, stringify).value
  {
    var data := x.json.value;
    TrimIdempotent(ExtractedText(v, data).value.s);
  }

  /** Claude prefers a truthy `data.content` and otherwise reads the chat-completion
      path; a string is trimmed, anything else is stringified and not trimmed. */
  lemma ClaudeContentOutcome(status: nat, body: Option<string>, data: Json, stringify: Json -> string)
    requires IsOk(status)
    ensures
      var direct := Member(Some(data), "content");
      var content := if JsonTruthy(direct) then direct else ChoiceContent(Some(data));
      var r := CallClaude(Response(status, body, Ok(data)), stringify);
      && (!JsonTruthy(content) <==> r == Err(Error(EmptyResponseMessage(Claude))))
      && (JsonTruthy(content) && content.value.JString? ==> r == Ok(Trim(content.value.s)))
      && (JsonTruthy(content) && !content.value.JString? ==> r == Ok(stringify(content.value)))
  {
  }

  /** A Messages-API-shaped body, whose `content` is an array of blocks, is returned
      as the stringified array rather than as the block's text. */
  lemma ClaudeBlockArrayStringified(text: string, stringify: Json -> string)
    ensures
      var blocks := JArray([JObject(map["type" := JString("text"), "text" := JString(text)])]);
      CallClaude(Response(200, None, Ok(JObject(map["content" := blocks]))), stringify) == Ok(stringify(blocks))
  {
    var blocks := JArray([JObject(map["type" := JString("text"), "text" := JString(text)])]);
    var data := JObject(map["content" := blocks]);
    assert Member(Some(data), "content") == Some(blocks);
    ClaudeContentStringified(200, None, data, stringify);
  }

  /** Truthy `content` that is not a string is returned stringified and untrimmed. */
  lemma ClaudeContentStringified(status: nat, body: Option<string>, data: Json, stringify: Json -> string)
    requires IsOk(status)
    requires JsonTruthy(Member(Some(data), "content")) && !Member(Some(data), "content").value.JString?
    ensures CallClaude(Response(status, body, Ok(data)), stringify) == Ok(stringify(Member(Some(data), "content").value))
  {
  }

  // ---------------------------------------------------------------------------
  // Properties of the listener and of onInstalled

  /** A dispatcher error built with `new Error(m)` reaches the page as `m` itself. */
  lemma ErrorMessageReachesPage(m: string)
    requires m != ""
    ensures Envelope(Err(Error(m))) == Failed(m)
  {
  }

  /** Running the install hook twice is running it once, and it touches nothing but
      `po_provider`. */
  lemma OnInstalledIdempotent(s: Settings)
    ensures OnInstalled(OnInstalled(s)) == OnInstalled(s)
    ensures OnInstalled(s).(provider := s.provider) == s
  {
  }

  /** After installation, a request that names no provider goes to OpenAI when
      nothing was stored before. */
  lemma InstalledDefaultRoutesToOpenAI(s: Settings)
    requires !Truthy(s.provider)
    ensures EffectiveProvider(None, OnInstalled(s)) == ProviderId(OpenAI)
  {
  }

  /** The smallest Gemini body that carries a candidate text. */
  function GeminiBody(text: string): Json {
    var part := JObject(map["text" := JString(text)]);
    var candidate := JObject(map["content" := JObject(map["parts" := JArray([part])])]);
    JObject(map["candidates" := JArray([candidate])])
  }

  /** A Gemini request with a key stored and a non-empty candidate text is answered
      with that text trimmed, through the open channel. */
  lemma GeminiCandidateReachesPage(user: string, text: string, s: Settings, stringify: Json -> string)
    requires user != "" && text != "" && Truthy(s.geminiKey)
    ensures
      var m := OptimizePrompt(Some(Payload(Some("gemini"), Some(user))));
      OnMessage(m, s, Response(200, None, Ok(GeminiBody(text))), stringify)
        == Listening(Some(Optimized(Trim(text))), true)
  {
    var payload := Some(Payload(Some("gemini"), Some(user)));
    GeminiRequestRouted(user, s);
    GeminiBodyAnswered(text);
    assert HandleOptimize(payload, s, Response(200, None, Ok(GeminiBody(text))), stringify) == Ok(Trim(text));
  }

  /** A request naming "gemini", with a Gemini key stored, calls the Gemini adapter. */
  lemma GeminiRequestRouted(user: string, s: Settings)
    requires user != "" && Truthy(s.geminiKey)
    ensures Route(Some(Payload(Some("gemini"), Some(user))), s).Call?
    ensures Route(Some(Payload(Some("gemini"), Some(user))), s).vendor == Gemini
  {
    var payload := Some(Payload(Some("gemini"), Some(user)));
    assert EffectiveProvider(payload.value.provider, s) == ProviderId(Gemini);
  }

  /** A 200 response with a non-empty candidate text is that text trimmed. */
  lemma GeminiBodyAnswered(text: string)
    requires text != ""
    ensures CallGemini(Response(200, None, Ok(GeminiBody(text)))) == Ok(Trim(text))
  {
    assert CandidateText(Some(GeminiBody(text))) == Some(JString(text));
  }

  /** Example: Gemini, 'write a poem', and a candidate text with nothing to trim. */
  lemma GeminiPoemScenario(s: Settings, stringify: Json -> string)
    requires s.geminiKey == Some("g-key")
    ensures
      var m := OptimizePrompt(Some(Payload(Some("gemini"), Some("write a poem"))));
      OnMessage(m, s, Response(200, None, Ok(GeminiBody("A gentle poem about..."))), stringify)
        == Listening(Some(Optimized("A gentle poem about...")), true)
  {
    var text := "A gentle poem about...";
    assert text[0] == 'A' && text[|text| - 1] == '.';
    TrimUnchanged(text);
    GeminiCandidateReachesPage("write a poem", text, s, stringify);
  }

  /** The text the page shows when Claude is selected and no Claude key is stored. */
  lemma ClaudeMissingKeyText()
    ensures MissingKeyMessage(Claude) == "Claude API key not set. Add it in Options."
  {
  }

  /** Example: Claude selected and no Claude key stored. */
  lemma ClaudeWithoutKeyScenario(s: Settings, x: Exchange, stringify: Json -> string)
    requires !Truthy(s.claudeKey)
    ensures
      var m := OptimizePrompt(Some(Payload(Some("claude"), Some("write a poem"))));
      OnMessage(m, s, x, stringify) == Listening(Some(Failed(MissingKeyMessage(Claude))), true)
  {
    var payload := Some(Payload(Some("claude"), Some("write a poem")));
    assert EffectiveProvider(payload.value.provider, s) == ProviderId(Claude);
    MissingKeyRejected(payload, s, Claude, x, stringify);
    ErrorMessageReachesPage(MissingKeyMessage(Claude));
  }
}
