/** The modal of the content script (scripts/content.js): `openModal`, the provider
    select, the submit handler, the copy button and closing.

    The overlay and the modal are nodes of the `Document`. The form's controls are
    the fields of a `Session`: the select's value, the two text areas, the error box,
    and the submit and copy buttons. The reply of `chrome.runtime.sendMessage` is a
    parameter (`ChannelOutcome`). */
module ContentModal {
  import opened Results
  import opened JsText
  import Background
  import opened ContentText
  import opened ContentPage

  const MODAL_ID: string := "po-modal"
  const OVERLAY_ID: string := "po-overlay"
  const SUBMIT_LABEL: string := "Optimize Prompt"
  const BUSY_LABEL: string := "Optimizing\U{2026}"
  const EMPTY_PROMPT_MESSAGE: string := "Please enter a prompt."
  const NO_CONTENT: string := "(No content)"
  const FAILED_MESSAGE: string := "Optimization failed."
  const ERROR_PREFIX: string := "Error: "
  /** The markup placed after an escaped message that earns the hint. */
  const HINT_HTML: string :=
    "<br><span class=\"po-hint\">Add your API key to continue. Click the extension icon to open the Options page, or <button type=\"button\" class=\"po-mini-btn\" id=\"po-open-options-btn\">Open Options</button>.</span>"
  /** The `value`s of the provider `<select>`'s options, in order. */
  const PROVIDER_OPTIONS: seq<string> := ["openai", "gemini", "claude", "openrouter"]

  // ---------------------------------------------------------------------------
  // What the form shows

  /** The error box: set through `textContent` or through `innerHTML`. */
  datatype ErrorDisplay = Plain(text: string) | Markup(html: string)

  /** How the handler shows an error message: escaped and followed by the hint when
      the message asks for a key, as plain text otherwise. */
  function ErrorView(msg: string): ErrorDisplay {
    if NeedsApiKeyHint(Some(msg)) then Markup(EscapeHtml(msg) + HINT_HTML) else Plain(msg)
  }

  /** The text a reader sees in the error box, the hint aside; `None` for markup
      that is not an escaped message followed by the hint. */
  function ShownText(d: ErrorDisplay): Option<string> {
    match d
    case Plain(t) => Some(t)
    case Markup(h) =>
      if |h| >= |HINT_HTML| && h[|h| - |HINT_HTML|..] == HINT_HTML then Unescape(h[..|h| - |HINT_HTML|])
      else None
  }

  /** The error box shows exactly the message, with the hint exactly when the message
      asks for a key. */
  lemma ErrorViewFaithful(msg: string)
    ensures ShownText(ErrorView(msg)) == Some(msg)
    ensures ErrorView(msg).Markup? <==> NeedsApiKeyHint(Some(msg))
  {
    if NeedsApiKeyHint(Some(msg)) {
      var e := EscapeHtml(msg);
      var h := e + HINT_HTML;
      assert h[|h| - |HINT_HTML|..] == HINT_HTML;
      assert h[..|h| - |HINT_HTML|] == e;
      EscapeRoundTrip(msg);
    }
  }

  /** What `chrome.runtime.sendMessage` settles with: a response (`undefined` when
      the listener sent none) or a rejection. */
  datatype ChannelOutcome =
    | Replied(response: Option<Background.Reply>)
    | Rejected(error: Background.JsError)

  /** The output box, the copy button's `disabled`, and the error box. */
  datatype View = View(output: string, copyDisabled: bool, error: ErrorDisplay)

  predicate Succeeded(outcome: ChannelOutcome) {
    outcome.Replied? && outcome.response.Some? && outcome.response.value.Optimized?
  }

  /** The message the form reports for an outcome that is not a success:
      `response?.error || 'Optimization failed.'`, or `'Error: '` and the rejection's
      message. */
  function FailureMessage(outcome: ChannelOutcome): string {
    match outcome
    case Rejected(e) => ERROR_PREFIX + Background.ErrorText(e)
    case Replied(None) => FAILED_MESSAGE
    case Replied(Some(Failed(e))) => if e != "" then e else FAILED_MESSAGE
    case Replied(Some(_)) => FAILED_MESSAGE
  }

  /** The form after the reply has been handled, before `finally`. */
  function Render(outcome: ChannelOutcome): View {
    if Succeeded(outcome) then
      var text := outcome.response.value.optimized;
      View(if text != "" then text else NO_CONTENT, text == "", Plain(""))
    else View("", true, ErrorView(FailureMessage(outcome)))
  }

  /** Copy is enabled exactly after a success with non-empty text; the output then
      holds that text, and after an empty success it holds '(No content)'. */
  lemma RenderSuccess(outcome: ChannelOutcome)
    ensures !Render(outcome).copyDisabled <==> Succeeded(outcome) && outcome.response.value.optimized != ""
    ensures Succeeded(outcome) ==>
      var t := outcome.response.value.optimized;
      Render(outcome).output == (if t != "" then t else NO_CONTENT) && Render(outcome).error == Plain("")
  {
  }

  /** Any other outcome (an error reply, no reply, an unexpected reply, a rejected
      channel) clears the output, disables copy, and shows the failure message in
      the error box. */
  lemma RenderFailure(outcome: ChannelOutcome)
    requires !Succeeded(outcome)
    ensures Render(outcome).output == "" && Render(outcome).copyDisabled
    ensures ShownText(Render(outcome).error) == Some(FailureMessage(outcome))
    ensures FailureMessage(outcome) != ""
  {
    ErrorViewFaithful(FailureMessage(outcome));
  }

  /** Every missing-key error of the dispatcher reaches the page escaped and with
      the hint. */
  lemma MissingKeyReplyShowsHint(v: Background.Vendor)
    ensures
      var m := Background.MissingKeyMessage(v);
      Render(Replied(Some(Background.Failed(m)))) == View("", true, Markup(EscapeHtml(m) + HINT_HTML))
  {
    var m := Background.MissingKeyMessage(v);
    MissingKeyEarnsHint(v, m);
  }

  /** The dispatcher's validation errors reach the page as plain text. */
  lemma ValidationReplyShownPlain(m: string)
    requires m == Background.UNSUPPORTED_PROVIDER || m == Background.MISSING_USER_PROMPT
    ensures Render(Replied(Some(Background.Failed(m)))) == View("", true, Plain(m))
  {
    ValidationErrorsEarnNoHint(m);
    PlainFailureReply(m);
  }

  /** An error reply whose message asks for no key is shown as it is. */
  lemma PlainFailureReply(m: string)
    requires m != "" && !NeedsApiKeyHint(Some(m))
    ensures Render(Replied(Some(Background.Failed(m)))) == View("", true, Plain(m))
  {
  }

  // ---------------------------------------------------------------------------
  // What the form sends

  /** `providerSelect.value = v`: a value no option has leaves no option selected and
      the select's value is ''. */
  function SelectValue(v: string): (r: string)
    ensures r in PROVIDER_OPTIONS || r == ""
    ensures v in PROVIDER_OPTIONS ==> r == v
  {
    if v in PROVIDER_OPTIONS then v else ""
  }

  /** The message payload the handler sends for the select's value and the input's
      text; `None` when the trimmed input is empty and nothing is sent. */
  function PageRequest(provider: string, input: string): Option<Background.Payload> {
    var userPrompt := Trim(input);
    if userPrompt == "" then None else Some(Background.Payload(Some(provider), Some(userPrompt)))
  }

  /** The page never sends what the dispatcher would reject as 'Missing user prompt',
      and what it sends has no surrounding whitespace. */
  lemma PageRequestsPassValidation(provider: string, input: string, s: Background.Settings)
    ensures PageRequest(provider, input).None? <==> AllWhitespace(input)
    ensures PageRequest(provider, input).Some? ==>
      Background.Route(PageRequest(provider, input), s) != Background.Reject(Background.Error(Background.MISSING_USER_PROMPT))
      && Trim(PageRequest(provider, input).value.userPrompt.value) == PageRequest(provider, input).value.userPrompt.value
  {
    TrimShape(input);
    TrimIdempotent(input);
  }

  /** A stored provider id the select does not offer is shown as no selection, sent
      as '', and so resolved by the dispatcher to that same stored id, which it
      rejects as unsupported. */
  lemma UnknownStoredProviderRejected(stored: string, input: string, s: Background.Settings)
    requires stored != "" && stored !in PROVIDER_OPTIONS && s.provider == Some(stored)
    requires !AllWhitespace(input)
    ensures
      var request := PageRequest(SelectValue(stored), input);
      request.Some? && Background.Route(request, s) == Background.Reject(Background.Error(Background.UNSUPPORTED_PROVIDER))
  {
    UnofferedSentEmpty(stored, input);
    OptionsAreTheProviders(stored);
    UnknownIdRejected(Some(Background.Payload(Some(""), Some(Trim(input)))), s);
  }

  lemma UnofferedSentEmpty(stored: string, input: string)
    requires stored !in PROVIDER_OPTIONS && !AllWhitespace(input)
    ensures Trim(input) != ""
    ensures PageRequest(SelectValue(stored), input) == Some(Background.Payload(Some(""), Some(Trim(input))))
  {
    TrimShape(input);
  }

  lemma UnknownIdRejected(request: Option<Background.Payload>, s: Background.Settings)
    requires !Background.MissingPrompt(request)
    requires Background.VendorOf(Background.EffectiveProvider(request.value.provider, s)).None?
    ensures Background.Route(request, s) == Background.Reject(Background.Error(Background.UNSUPPORTED_PROVIDER))
  {
    Background.RouteTable(request, s);
  }

  /** The select offers exactly the ids the dispatcher has a provider for. */
  lemma OptionsAreTheProviders(id: string)
    ensures id in PROVIDER_OPTIONS <==> Background.VendorOf(id).Some?
  {
    assert PROVIDER_OPTIONS[0] == "openai" && PROVIDER_OPTIONS[1] == "gemini";
    assert PROVIDER_OPTIONS[2] == "claude" && PROVIDER_OPTIONS[3] == "openrouter";
    if id in PROVIDER_OPTIONS {
      var i :| 0 <= i < 4 && PROVIDER_OPTIONS[i] == id;
      assert Background.VendorOf(id).Some?;
    }
  }

  // ---------------------------------------------------------------------------
  // The modal's controls

  class Session {
    /** The overlay and the modal this session's controls live in. */
    const overlay: NodeRef
    const modal: NodeRef
    /** `providerSelect.value` */
    var provider: string
    /** `input.value` */
    var input: string
    /** `output.value` */
    var output: string
    /** `errorMsg` */
    var error: ErrorDisplay
    /** `submit.disabled` and `submit.textContent` */
    var submitDisabled: bool
    var submitLabel: string
    /** `copyBtn.disabled` */
    var copyDisabled: bool

    /** The controls as `openModal` builds them: the first provider selected, empty
      boxes, submit enabled and copy disabled. */
    constructor (overlay: NodeRef, modal: NodeRef)
      ensures this.overlay == overlay && this.modal == modal
      ensures provider == PROVIDER_OPTIONS[0] && input == "" && output == "" && error == Plain("")
      ensures !submitDisabled && submitLabel == SUBMIT_LABEL && copyDisabled
    {
      this.overlay := overlay;
      this.modal := modal;
      provider := PROVIDER_OPTIONS[0];
      input := "";
      output := "";
      error := Plain("");
      submitDisabled := false;
      submitLabel := SUBMIT_LABEL;
      copyDisabled := true;
    }

    /** The `chrome.storage.sync.get(['po_provider'])` callback: a truthy stored value
      is written into the select. */
    method LoadStoredProvider(stored: Option<string>)
      modifies this
      ensures Background.Truthy(stored) ==> provider == SelectValue(stored.value)
      ensures !Background.Truthy(stored) ==> provider == old(provider)
      ensures input == old(input) && output == old(output) && error == old(error)
      ensures submitDisabled == old(submitDisabled) && submitLabel == old(submitLabel)
      ensures copyDisabled == old(copyDisabled)
    {
      if Background.Truthy(stored) {
        provider := SelectValue(stored.value);
      }
    }

    /** The user picks one of the select's options. */
    method ChooseProvider(i: nat)
      requires i < |PROVIDER_OPTIONS|
      modifies this
      ensures provider == PROVIDER_OPTIONS[i]
      ensures input == old(input) && output == old(output) && error == old(error)
      ensures submitDisabled == old(submitDisabled) && submitLabel == old(submitLabel)
      ensures copyDisabled == old(copyDisabled)
    {
      provider := PROVIDER_OPTIONS[i];
    }

    /** The user types into the prompt box. */
    method EnterPrompt(text: string)
      modifies this
      ensures input == text
      ensures provider == old(provider) && output == old(output) && error == old(error)
      ensures submitDisabled == old(submitDisabled) && submitLabel == old(submitLabel)
      ensures copyDisabled == old(copyDisabled)
    {
      input := text;
    }

    /** The handler up to `await`: everything is reset and the button shows
      'Optimizing…'. A blank prompt ends it here (the `return` runs `finally`) with
      'Please enter a prompt.' and no message; otherwise the payload is sent. */
    method BeginSubmit() returns (request: Option<Background.Payload>)
      modifies this
      ensures request == PageRequest(old(provider), old(input))
      ensures provider == old(provider) && input == old(input)
      ensures output == "" && copyDisabled
      ensures request.Some? ==> submitDisabled && submitLabel == BUSY_LABEL && error == Plain("")
      ensures request.None? ==>
        !submitDisabled && submitLabel == SUBMIT_LABEL && error == Plain(EMPTY_PROMPT_MESSAGE)
    {
      submitDisabled := true;
      submitLabel := BUSY_LABEL;
      output := "";
      error := Plain("");
      copyDisabled := true;
      request := PageRequest(provider, input);
      if request.None? {
        error := Plain(EMPTY_PROMPT_MESSAGE);
        submitDisabled := false;
        submitLabel := SUBMIT_LABEL;
      }
    }

    /** The handler after `await`: the outcome is rendered, then `finally` re-enables
      the button. A failure leaves the output box as it was. */
    method CompleteSubmit(outcome: ChannelOutcome)
      modifies this
      ensures copyDisabled == Render(outcome).copyDisabled
      ensures Succeeded(outcome) ==> output == Render(outcome).output && error == old(error)
      ensures !Succeeded(outcome) ==> output == old(output) && error == Render(outcome).error
      ensures !submitDisabled && submitLabel == SUBMIT_LABEL
      ensures provider == old(provider) && input == old(input)
    {
      var view := Render(outcome);
      var success := Succeeded(outcome);
      output := if success then view.output else output;
      error := if success then error else view.error;
      copyDisabled := view.copyDisabled;
      submitDisabled := false;
      submitLabel := SUBMIT_LABEL;
    }

    /** One submission, with `outcome` as the reply to the message it sends. On every
      path the button ends enabled and labelled 'Optimize Prompt'. */
    method Submit(outcome: ChannelOutcome) returns (request: Option<Background.Payload>)
      modifies this
      ensures request == PageRequest(old(provider), old(input))
      ensures !submitDisabled && submitLabel == SUBMIT_LABEL
      ensures provider == old(provider) && input == old(input)
      ensures request.None? ==> View(output, copyDisabled, error) == View("", true, Plain(EMPTY_PROMPT_MESSAGE))
      ensures request.Some? ==> View(output, copyDisabled, error) == Render(outcome)
    {
      request := BeginSubmit();
      if request.Some? {
        CompleteSubmit(outcome);
      }
    }

    /** The copy button's click handler: the trimmed output, if the button is enabled
      and that text is not empty; it is what would be written to the clipboard. */
    method Copy() returns (copied: Option<string>)
      ensures copied.Some? <==> !copyDisabled && Trim(output) != ""
      ensures copied.Some? ==> copied.value == Trim(output)
    {
      if copyDisabled {
        return None;
      }
      var optimized := Trim(output);
      if optimized == "" {
        return None;
      }
      copied := Some(optimized);
    }

    /** The close button: `overlay.remove()`. The overlay and everything under it,
      the modal included while it is there, leave the document. */
    method Close(doc: Document)
      requires doc.Valid() && overlay in doc.nodes && modal in doc.nodes
      requires doc.nodes[overlay].depth > doc.nodes[doc.body].depth
      modifies doc
      ensures doc.Valid() && doc.nodes == Detach(old(doc.nodes), overlay) && doc.nextRef == old(doc.nextRef)
      ensures !doc.nodes[overlay].connected
      ensures old(doc.nodes[modal].parent) == Some(overlay) ==> !doc.nodes[modal].connected
      ensures old(doc.nodes[modal].connected && doc.nodes[modal].elementId == MODAL_ID
                  && doc.nodes[modal].parent == Some(overlay) && AtMostOne(doc.nodes, MODAL_ID))
              ==> !doc.Exists(MODAL_ID)
    {
      assert overlay != doc.root by {
        ConnectedIsReachable(doc.nodes, doc.root, doc.body, doc.nextRef, doc.body);
        if doc.body != doc.root {
          SubtreeDeeper(doc.nodes, doc.root, doc.body);
        }
      }
      assert !InSubtree(doc.nodes, overlay, doc.body) by {
        if InSubtree(doc.nodes, overlay, doc.body) {
          SubtreeDeeper(doc.nodes, overlay, doc.body);
          assert false;
        }
      }
      ghost var before := doc.nodes;
      doc.Remove(overlay);
      ClosingFreesModal(before, overlay, modal);
    }

    /** A click on the overlay: it closes the modal only when the click's target is
      the overlay itself, not a control inside the modal. */
    method ClickOverlay(doc: Document, targetIsOverlay: bool)
      requires doc.Valid() && overlay in doc.nodes && modal in doc.nodes
      requires doc.nodes[overlay].depth > doc.nodes[doc.body].depth
      modifies doc
      ensures doc.Valid()
      ensures doc.nextRef == old(doc.nextRef)
      ensures targetIsOverlay ==> doc.nodes == Detach(old(doc.nodes), overlay)
      ensures !targetIsOverlay ==> doc.nodes == old(doc.nodes)
    {
      if targetIsOverlay {
        Close(doc);
      }
    }
  }

  /** Once the overlay holding the one connected modal is removed, no modal is left:
      `openModal` will build a new one. */
  lemma ClosingFreesModal(m: map<NodeRef, Node>, overlay: NodeRef, modal: NodeRef)
    requires Linked(m) && overlay in m && modal in m
    ensures m[modal].parent == Some(overlay) ==> !Detach(m, overlay)[modal].connected
    ensures (m[modal].connected && m[modal].elementId == MODAL_ID && m[modal].parent == Some(overlay)
             && AtMostOne(m, MODAL_ID))
            ==> !Present(Detach(m, overlay), MODAL_ID)
  {
    if m[modal].parent == Some(overlay) {
      assert LinkedAt(m, modal);
      assert InSubtree(m, overlay, overlay);
      assert InSubtree(m, overlay, modal);
    }
    if m[modal].connected && m[modal].elementId == MODAL_ID && m[modal].parent == Some(overlay) && AtMostOne(m, MODAL_ID) {
      var m' := Detach(m, overlay);
      forall k | k in m' && m'[k].elementId == MODAL_ID ensures !m'[k].connected {
        if m[k].connected {
          assert k == modal;
        }
      }
    }
  }

  /** Appending the overlay to a connected `body` and the modal to the overlay, in
      a tree with no modal, leaves exactly one modal, one level below the overlay
      and two below `body`. */
  lemma OpenedTree(m: map<NodeRef, Node>, body: NodeRef, overlay: NodeRef, modal: NodeRef)
    requires body in m && m[body].connected && overlay !in m && modal !in m && modal != overlay
    requires !Present(m, MODAL_ID)
    ensures
      var mid := Insert(m, body, OVERLAY_ID, |m[body].children|, overlay);
      var m' := Insert(mid, overlay, MODAL_ID, 0, modal);
      && Present(m', MODAL_ID) && AtMostOne(m', MODAL_ID)
      && m'[overlay].depth == m'[body].depth + 1
      && m'[modal].parent == Some(overlay) && m'[modal].depth == m'[overlay].depth + 1
  {
    var mid := Insert(m, body, OVERLAY_ID, |m[body].children|, overlay);
    forall k | k in mid && mid[k].connected ensures mid[k].elementId != MODAL_ID {
      if k != overlay {
        assert k in m && mid[k].elementId == m[k].elementId && m[k].connected;
      }
    }
    InsertLookups(mid, overlay, MODAL_ID, 0, modal, MODAL_ID);
  }

  /** `openModal()`: nothing while a `po-modal` element is in the document; otherwise
      the overlay is appended to `body` with the modal inside it, and the new
      session's controls are in their initial state. */
  method OpenModal(doc: Document) returns (s: Session?)
    requires doc.Valid()
    modifies doc
    ensures doc.Valid()
    ensures old(doc.Exists(MODAL_ID)) ==> s == null && doc.nodes == old(doc.nodes) && doc.nextRef == old(doc.nextRef)
    ensures !old(doc.Exists(MODAL_ID)) ==>
      && s != null && fresh(s)
      && s.overlay == old(doc.nextRef) && s.modal == s.overlay + 1 && doc.nextRef == old(doc.nextRef) + 2
      && doc.nodes == Insert(Insert(old(doc.nodes), doc.body, OVERLAY_ID, |old(doc.nodes[doc.body].children)|, s.overlay),
                             s.overlay, MODAL_ID, 0, s.modal)
      && doc.nodes[s.overlay].depth == doc.nodes[doc.body].depth + 1
      && doc.Exists(MODAL_ID) && AtMostOne(doc.nodes, MODAL_ID)
      && s.provider == PROVIDER_OPTIONS[0] && s.input == "" && s.output == "" && s.error == Plain("")
      && !s.submitDisabled && s.submitLabel == SUBMIT_LABEL && s.copyDisabled
    ensures forall x :: x != OVERLAY_ID && old(AtMostOne(doc.nodes, x)) ==> AtMostOne(doc.nodes, x)
  {
    if doc.Exists(MODAL_ID) {
      return null;
    }
    ghost var start := doc.nodes;
    var overlay := doc.InsertChild(doc.body, OVERLAY_ID, |doc.nodes[doc.body].children|);
    var modal := doc.InsertChild(overlay, MODAL_ID, 0);
    OpenedTree(start, doc.body, overlay, modal);
    s := new Session(overlay, modal);
  }
}
