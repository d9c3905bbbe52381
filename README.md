# PromptPolish core, modelled in Dafny

PromptPolish is a browser extension that adds an "Optimize" trigger next to the
prompt box of ChatGPT and Gemini. The trigger opens a modal. The modal sends the
user's draft prompt to the extension's background service worker, which frames it
with a meta-prompt, asks one of four LLM providers (OpenAI, Gemini, Claude,
OpenRouter) to rewrite it, and replies with the rewritten prompt or an error.

This project models the two core scripts:

- `background.dfy` (module `Background`, for `scripts/background.js`):
  - the `OPTIMIZE_PROMPT` dispatcher `handleOptimize`: validation, provider choice,
    meta-prompt choice, the API-key checks and the unsupported-provider error;
  - the four provider adapters, from the HTTP response on: status errors, the
    OpenRouter data-policy translation, text extraction, empty responses, trimming;
  - the message listener's reply envelope and its keep-the-channel-open return value;
  - the first-install default provider.
  The storage snapshot, the message and the outcome of the one HTTP exchange are
  values passed in.
- `content_text.dfy` (module `ContentText`): `escapeHTML` and `needsApiKeyHint`.
- `content_page.dfy` (module `ContentPage`): host detection, the prompt-box search,
  the placement strategies and the idempotent `injectButton`/`ensureUI`.
  - The document is a class `Document` over a map of element records: id, parent,
    children, connectivity and depth.
  - `insertBefore`/`appendChild` and `remove` are methods that change that map.
- `content_modal.dfy` (module `ContentModal`): `openModal` with its one-modal guard,
  and the form as a class `Session`.
  - The session covers the provider select, the prompt and output boxes, the error
    box, and the submit and copy buttons.
  - It models the submit handler (blank-prompt guard, reply rendering, the API-key
    hint, `finally`), the copy handler, and closing.
- `js_text.dfy` (module `JsText`): the JavaScript string primitives both scripts use.
  - `String.prototype.trim` uses the exact ECMAScript whitespace set.
  - Case-insensitive phrase tests compare ASCII-lower-cased text.
  - The decimal rendering of a status code is proved to read back.
- `results.dfy` (module `Results`): `Option` and `Result`.

Where the source and its design description differ, the model follows the source:

- The design makes a whitespace-only `userPrompt` a validation error of the
  dispatcher. `handleOptimize` only rejects a falsy `userPrompt`
  (`scripts/background.js:56`), so every non-empty whitespace-only prompt passes
  (`WhitespacePromptPassesValidation`). The page trims before sending and never
  sends a blank prompt (`PageRequestsPassValidation`).
- The design promises no DOM writes after the modal is closed. The submit handler
  has no such guard (`scripts/content.js:302-328`): a reply that arrives after
  closing is written into the detached controls.
- The design's fallback appends the trigger next to the prompt box. The source
  appends it as the last child of the prompt box's parent, or of `body`
  (`scripts/content.js:143`), which `FallbackPlacement` states.
- The design describes an unreadable error body as truncated. The source puts
  `<no body>` in its place (`scripts/background.js:222`), which `NonOkStatusFails`
  states.
- The design promises at most one trigger even across host re-renders. The source
  keeps that only while the host never re-attaches a subtree it detached and never
  inserts another element with the trigger's id, as "## Left out" explains. The model
  proves the property when the page changes only by removals and by insertions of
  elements with other ids.

## Model

| member | source | states |
|---|---|---|
| Background.VendorOf | scripts/background.js:10-15 | an id names a provider exactly when it is one of the four ids, and then it names that provider |
| Background.EffectiveProvider | scripts/background.js:61 | the provider is the requested id when truthy, else the stored id when truthy, else 'openai'; never empty |
| Background.MetaPrompt | scripts/background.js:62 | the trimmed custom master prompt when it is non-empty after trimming, else the built-in default |
| Background.DefaultMetaPromptFraming | scripts/background.js:8 | the default meta-prompt ends in the framing 'User Prompt: ' the user's text is appended to |
| Background.CustomMetaPromptHasNoTrailingSpace | scripts/background.js:62-63 | a custom meta-prompt never ends in whitespace, so the user's prompt follows it with no separator |
| Background.Route | scripts/background.js:54-90 | rejected with 'Missing user prompt' exactly when the payload or its prompt is falsy; any adapter call carries the provider's own truthy stored key |
| Background.RouteTable | scripts/background.js:65-90 | an unknown id is 'Unsupported provider'; a known one without a truthy key fails naming the vendor; otherwise its adapter gets the key and metaPrompt + userPrompt |
| Background.ConcatenationLaw | scripts/background.js:63 | the text an adapter receives is exactly the meta-prompt followed by the user's prompt |
| Background.MissingPromptRejectedFirst | scripts/background.js:55-56 | a missing payload or falsy prompt fails with 'Missing user prompt' whatever the storage and the network |
| Background.WhitespacePromptPassesValidation | scripts/background.js:56 | every non-empty whitespace-only prompt, though blank once trimmed, is not rejected as missing |
| Background.MissingKeyRejected | scripts/background.js:65-87 | a provider without a truthy key fails with '<Vendor> API key not set. Add it in Options.' for every exchange, so no adapter runs |
| Background.UnknownProviderRejected | scripts/background.js:90 | an id other than the four fails with 'Unsupported provider' for every exchange: there is no fallback adapter |
| Background.EmptyRequestedProviderFallsThrough | scripts/background.js:61 | an empty requested id routes exactly as an absent one |
| Background.TrimValue | scripts/background.js:188 | a string content yields its trim; any other truthy value throws, as calling a missing trim method does |
| Background.NonOkStatusFails | scripts/background.js:180-183 | every non-ok status fails with '<Vendor> error <status>: <body>', with '<no body>' for an unreadable body; OpenRouter's data-policy 404 is the only exception |
| Background.StatusErrorInjective | scripts/background.js:118 | equal status messages of one vendor have equal statuses and equal body texts, whatever the bodies |
| Background.OpenRouterDataPolicy | scripts/background.js:115-116 | an OpenRouter 404 whose body holds the data-policy phrase in any letter case fails with the privacy-settings message |
| Background.DataPolicyPhraseMatches | scripts/background.js:115 | the phrase itself, in any letter case, is such a body |
| Background.OpenRouterOtherStatus | scripts/background.js:118 | any other failing OpenRouter status is an ordinary 'OpenRouter error' message |
| Background.TextFieldOutcome | scripts/background.js:185-188 | for OpenAI, Gemini and OpenRouter on an ok response, a falsy text field is 'Empty response from <Vendor>' and a non-empty string comes back trimmed |
| Background.AdapterResultTrimmed | scripts/background.js:218 | what OpenAI, Gemini and OpenRouter return is already trimmed |
| Background.ClaudeContentOutcome | scripts/background.js:152-155 | Claude prefers a truthy data.content over the chat path; a falsy result is an empty response, a string is trimmed, and anything else is stringified |
| Background.ClaudeContentStringified | scripts/background.js:155 | truthy non-string content comes back stringified and untrimmed |
| Background.ClaudeBlockArrayStringified | scripts/background.js:153-155 | a Messages-API body whose content is an array of blocks returns the stringified array, not the block's text |
| Background.HandleOptimize | scripts/background.js:54-90 | a falsy prompt fails with 'Missing user prompt'; an id naming no provider fails with 'Unsupported provider'; a provider without a truthy key fails with its missing-key message; otherwise the result is that provider's adapter on the exchange |
| Background.ErrorText | scripts/background.js:49 | the reply's error text is the exception's message when non-empty, else its name |
| Background.Envelope | scripts/background.js:47-49 | exactly one reply: success with the optimized text, or failure with the error text |
| Background.ErrorMessageReachesPage | scripts/background.js:49 | an error thrown with a non-empty message reaches the page as that message |
| Background.OnMessage | scripts/background.js:36-52 | the channel is kept open exactly for OPTIMIZE_PROMPT; OPEN_OPTIONS is acknowledged and other messages get no reply |
| Background.OnInstalled | scripts/background.js:17-24 | afterwards a truthy provider is stored; a truthy stored one is kept and a falsy one becomes 'openai' |
| Background.OnInstalledIdempotent | scripts/background.js:17-24 | installing twice is installing once, and only po_provider changes |
| Background.InstalledDefaultRoutesToOpenAI | scripts/background.js:21 | after installation with nothing stored, a request naming no provider resolves to OpenAI |
| Background.GeminiRequestRouted | scripts/background.js:71-74 | a request naming 'gemini' with a Gemini key stored calls the Gemini adapter |
| Background.GeminiBodyAnswered | scripts/background.js:215-218 | a 200 response with a non-empty candidate text yields that text trimmed |
| Background.GeminiCandidateReachesPage | scripts/background.js:46-50 | a Gemini request with a key and a non-empty candidate text is answered through the open channel with that text trimmed |
| Background.GeminiPoemScenario | scripts/background.js:71-74 | 'write a poem' on Gemini answered 'A gentle poem about...' replies success with that text |
| Background.ClaudeMissingKeyText | scripts/background.js:79 | the Claude missing-key message is 'Claude API key not set. Add it in Options.' |
| Background.ClaudeWithoutKeyScenario | scripts/background.js:77-81 | Claude without a stored key replies failure with that message, whatever the network |
| JsText.TrimShape | scripts/content.js:292 | a trimmed string is empty exactly when the input is all whitespace, and otherwise starts and ends with non-whitespace |
| JsText.TrimIdempotent | scripts/background.js:62 | trimming twice is trimming once |
| JsText.DecimalRoundTrip | scripts/background.js:118 | the decimal status in an error message reads back as the status |
| JsText.LowerLacks | scripts/content.js:34 | a phrase holding a letter missing from the text in both cases cannot match case-insensitively |
| ContentText.EscapeHtmlIsPerCharacter | scripts/content.js:24-31 | the five passes equal escaping each character on its own: no entity is escaped twice and no character is missed |
| ContentText.EscapeHtmlConcat | scripts/content.js:24-31 | escaping distributes over concatenation |
| ContentText.EscapeHtmlChar | scripts/content.js:26-30 | one character escapes to its entity, and later passes leave earlier entities alone |
| ContentText.EscapedShape | scripts/content.js:24-31 | the output holds no raw <, >, " or ', and every & in it begins an entity |
| ContentText.EscapeRoundTrip | scripts/content.js:24-31 | decoding the five entities gives back the input exactly |
| ContentText.EscapeIdentityOnPlainText | scripts/content.js:24-31 | text without the five characters is unchanged |
| ContentText.EscapeAmpersand | scripts/content.js:26 | a lone & becomes &amp; |
| ContentText.EscapeGrows | scripts/content.js:24-31 | escaping never shortens text, and text holding a special character grows and gains an & |
| ContentText.EscapeTwiceChanges | scripts/content.js:24-31 | escaping is not idempotent on text holding a special character |
| ContentText.NeedsApiKeyHint | scripts/content.js:33-35 | an absent or empty text never earns the hint |
| ContentText.KeyNotSetRedundant | scripts/content.js:34 | the hint test equals the test without the 'key not set' alternative |
| ContentText.MissingKeyEarnsHint | scripts/content.js:34 | every missing-key error of the dispatcher earns the hint |
| ContentText.KeyNotSetEarnsHint | scripts/content.js:34 | '<name> API key not set. Add it in Options.' earns the hint whatever the name |
| ContentText.NoHintWithoutAK | scripts/content.js:34 | text with no a or k in either case, in which no n is followed by an o (either case), earns no hint |
| ContentText.ValidationErrorsEarnNoHint | scripts/content.js:34 | 'Unsupported provider' and 'Missing user prompt' earn no hint |
| ContentPage.HostsDisjoint | scripts/content.js:49-55 | no hostname is both ChatGPT's and Gemini's |
| ContentPage.FirstMatch | scripts/content.js:64-67 | the answer of the first selector that has one, and none only when no selector matches |
| ContentPage.PromptInputPriority | scripts/content.js:57-83 | ChatGPT tries its two selectors in order, Gemini its two, and any other host has no prompt box |
| ContentPage.PromptInputFromQuery | scripts/content.js:65-66 | a prompt box found is one of the document's own query answers |
| ContentPage.ConnectedIsReachable | scripts/content.js:90 | a node is connected exactly when documentElement is among its ancestors |
| ContentPage.InsertWellFormed | scripts/content.js:111 | inserting a fresh element keeps the document well formed |
| ContentPage.InsertLookups | scripts/content.js:89 | after an insertion, ids present stay present and unique ids other than the inserted one stay unique; a new id is unique, and present when the parent is connected |
| ContentPage.Detach | scripts/content.js:277 | remove takes the node out of its parent and disconnects exactly it and its descendants |
| ContentPage.DetachWellFormed | scripts/content.js:277 | removing a node keeps the document well formed |
| ContentPage.DetachLookups | scripts/content.js:277 | removal finds no new id and keeps unique ids unique |
| ContentPage.Placement | scripts/content.js:100-143 | the chosen place is a connected parent and a valid child index |
| ContentPage.ChatGPTPlacement | scripts/content.js:100-119 | on ChatGPT the trigger lands just before the send cluster when it has a parent, else just after the first button or svg of the form |
| ContentPage.ChatGPTPlaceShape | scripts/content.js:104-117 | which anchor ChatGPT uses and at which child index, and no place when neither anchor has a parent |
| ContentPage.InsertNextTo | scripts/content.js:111-115 | inserting at a child's index puts the trigger just before it, one further just after it |
| ContentPage.GeminiPlacement | scripts/content.js:121-140 | on Gemini the trigger becomes the last child of the leading-actions wrapper, else of the closest div holding a prompt field |
| ContentPage.FallbackPlacement | scripts/content.js:142-143 | without a host strategy the trigger is appended to the target's parent, or to body when it has none |
| ContentPage.Document.InsertChild | scripts/content.js:93-94 | one fresh element joins under the parent at the index; ids present stay present, and unique ids other than the inserted one stay unique |
| ContentPage.Document.Remove | scripts/content.js:277 | the node and its subtree leave the document; nothing new is found and unique ids stay unique |
| ContentPage.Document.InjectButton | scripts/content.js:85-144 | nothing happens for a null target or while a connected trigger exists; otherwise exactly one trigger is inserted where the placement says; uniqueness is kept |
| ContentPage.Document.EnsureUI | scripts/content.js:333-336 | after a run a trigger exists whenever a prompt box does; a run with no prompt box or with a trigger present changes nothing; otherwise exactly one trigger is inserted where the placement says for the prompt box; unique ids stay unique |
| ContentPage.PromptInputShown | scripts/content.js:334-335 | on a page whose answers are live, the prompt box found is a connected element |
| ContentModal.ErrorViewFaithful | scripts/content.js:306-313 | the error box shows exactly the message, with the hint exactly when the message asks for a key |
| ContentModal.RenderSuccess | scripts/content.js:302-304 | copy is enabled exactly after a success with non-empty text; the output holds that text or '(No content)' |
| ContentModal.RenderFailure | scripts/content.js:305-325 | any other outcome clears the output, disables copy and shows a non-empty failure message |
| ContentModal.MissingKeyReplyShowsHint | scripts/content.js:307-308 | every missing-key reply is shown escaped and followed by the hint |
| ContentModal.ValidationReplyShownPlain | scripts/content.js:311-312 | validation errors are shown as plain text |
| ContentModal.PlainFailureReply | scripts/content.js:311-312 | an error reply asking for no key is shown as it is |
| ContentModal.SelectValue | scripts/content.js:281 | the select's value is one of its options or ''; an offered id is taken as it is |
| ContentModal.OptionsAreTheProviders | scripts/content.js:202-207 | the select offers exactly the ids the dispatcher has an adapter for |
| ContentModal.PageRequestsPassValidation | scripts/content.js:291-301 | nothing is sent exactly when the input is blank; what is sent passes validation and has no surrounding whitespace |
| ContentModal.UnknownStoredProviderRejected | scripts/content.js:281 | a stored id the select lacks is sent as '', falls back to that stored id, and is rejected as unsupported |
| ContentModal.Session.constructor | scripts/content.js:200-247 | the first provider is selected, the boxes are empty, submit is enabled as 'Optimize Prompt', and copy is disabled |
| ContentModal.Session.LoadStoredProvider | scripts/content.js:281 | a truthy stored id is written into the select and nothing else changes |
| ContentModal.Session.ChooseProvider | scripts/content.js:202-207 | the user's choice becomes the select's value and nothing else changes |
| ContentModal.Session.EnterPrompt | scripts/content.js:211 | the typed text becomes the input and nothing else changes |
| ContentModal.Session.BeginSubmit | scripts/content.js:284-301 | everything is reset; a blank prompt shows 'Please enter a prompt.' and sends nothing, otherwise the trimmed payload is sent with the button busy |
| ContentModal.Session.CompleteSubmit | scripts/content.js:302-329 | the reply is rendered, and the button ends enabled and labelled 'Optimize Prompt' |
| ContentModal.Session.Submit | scripts/content.js:283-330 | one submission: the sent payload, the final view, and the button enabled on every path |
| ContentModal.Session.Copy | scripts/content.js:248-251 | copies exactly when copy is enabled and the trimmed output is non-empty, and copies that trimmed text |
| ContentModal.Session.Close | scripts/content.js:277 | the overlay and the modal under it leave the document, so no modal is found afterwards; no element is created |
| ContentModal.Session.ClickOverlay | scripts/content.js:278 | a click closes the modal only when its target is the overlay itself; no element is created |
| ContentModal.ClosingFreesModal | scripts/content.js:277 | once the overlay holding the one modal is removed, no modal is present |
| ContentModal.OpenedTree | scripts/content.js:274-275 | after opening, exactly one modal exists, one level below the overlay, which is one below body |
| ContentModal.OpenModal | scripts/content.js:146-275 | nothing while a modal exists; otherwise one overlay and one modal are added and the controls start in their initial state |

## Left out

- HTTP requests: URLs, headers, request bodies, model names and temperature are not modelled. An adapter starts from the response, given as a value.
- Browser APIs: `chrome.storage`, `chrome.runtime` and `chrome.tabs` are not modelled. Storage snapshots and channel outcomes are parameters.
- `openOptionsPage`, the options page opened on an `OPEN_OPTIONS` message, and the `action.onClicked` listener are left out. They only open a browser tab.
- `JSON.stringify` is a parameter, not a definition.
- JSON numbers are reals, used only for truthiness.
- Payload fields that are not strings are left out. The page always sends strings.
- The selector engine (`querySelector`, `closest`) is an oracle that answers for the current document. Live says its answers are connected elements. Live is a precondition of each call and is not carried across changes: an insertion can make an oracle answer stale, so a second `EnsureUI` run needs a Live page for the document as it then is.
- The placement `try`/`catch` blocks are left out, since nothing in the model throws.
- Markup is not modelled: `innerHTML`, class names, labels, focus and the modal's inner nodes. Only the overlay and modal nodes are in the tree, and the error box is a datatype.
- The `MutationObserver` is not modelled. `EnsureUI` keeps the trigger unique across any sequence of runs when the page changes in between only in two ways: a fresh element whose id is not `po-optimize-button` is inserted (`InsertChild`), or a subtree is removed (`Remove`).
- Moving or re-attaching an existing subtree and changing an element's id are not modelled. They can break the one-trigger property. Suppose the host detaches a subtree that holds the trigger. `ensureUI` then injects a second trigger (`scripts/content.js:89-90`, `143`). If the host later re-attaches the cached subtree, two triggers are connected. Inserting an element with the id `po-optimize-button` (for example a clone of a subtree holding the trigger) also leaves two connected triggers, and later runs of `ensureUI` then change nothing.
- `setTimeout` (focus and the 'Copied!' label) and `navigator.clipboard` are left out. `Session.Copy` returns the text it would write.
- The listener on the hint's 'Open Options' button is left out.
- ContentModal.OpenModal: builds the same final tree, but inserts the overlay into body before the modal into the overlay. The source fills the overlay first.
- ContentModal.Session.Submit: runs the handler without a break at `await`. Other events can happen at that point in the browser; the model gives them room by splitting the handler into `BeginSubmit` and `CompleteSubmit`. A reply that arrives after closing still writes to the detached controls, as in the source.
- ContentModal.Session.Close: requires the overlay to sit below body. The model never removes body or documentElement.
- JavaScript strings are sequences of UTF-16 code units; here a string is a sequence of Unicode scalar values. A lone surrogate cannot be represented, and `First` of a string starting with a character outside the Basic Multilingual Plane gives the whole character where `?.[0]` gives half of its surrogate pair. No proved property depends on this.
- Case-insensitive tests lower-case ASCII letters only. This is exact for these all-ASCII patterns, since the non-Unicode regex canonicalisation never maps a non-ASCII character onto an ASCII letter.
- The `PROVIDERS` object of `scripts/content.js` is left out, since nothing reads it.
- `options/options.js` is not part of this model.
