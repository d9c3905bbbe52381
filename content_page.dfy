/** The page side of the content script (scripts/content.js): recognising the host,
    finding the prompt box, and placing the inline "Optimize" trigger next to it.

    The document is a map from node references to element records. Each record holds
    its `id` attribute, its parent, its ordered element children, whether it is
    connected (reachable from `documentElement`), and its depth. The host page's
    selector engine (`querySelector`, `closest`) is not modelled. It is an oracle
    (`HostPage`) that answers for the current document. */
module ContentPage {
  import opened Results

  /** `ID.button` */
  const BUTTON_ID: string := "po-optimize-button"

  // ---------------------------------------------------------------------------
  // Host detection and the prompt box

  /** `isChatGPT()`: an exact hostname match. */
  predicate IsChatGPT(hostname: string) {
    hostname == "chat.openai.com" || hostname == "chatgpt.com"
  }

  /** `isGemini()`: an exact hostname match. */
  predicate IsGemini(hostname: string) {
    hostname == "gemini.google.com"
  }

  /** No hostname is both ChatGPT's and Gemini's. */
  lemma HostsDisjoint(hostname: string)
    ensures !(IsChatGPT(hostname) && IsGemini(hostname))
  {
    if IsGemini(hostname) {
      assert hostname[0] == 'g';
    }
  }

  /** The selectors the script asks the page for. */
  datatype Selector =
    | SendMessageTextarea  // textarea[placeholder*="Send a message" i]
    | FormTextarea         // form textarea
    | AnyTextarea          // textarea
    | EditableDiv          // div[contenteditable="true"]
    | FormElement          // form
    | IconOrSvg            // button, div svg
    | SendTestId           // [data-testid*="send"]
    | SendLabel            // button[aria-label*="Send" i]
    | LeadingActions       // .leading-actions-wrapper
    | DivElement           // div
    | PromptField          // textarea, div[contenteditable="true"]

  type NodeRef = nat

  /** What the host page answers: its hostname, `document.querySelector(sel)`,
      `el.querySelector(sel)` and `el.closest(sel)`. */
  datatype HostPage = HostPage(
    hostname: string,
    query: Selector -> Option<NodeRef>,
    within: (NodeRef, Selector) -> Option<NodeRef>,
    closest: (NodeRef, Selector) -> Option<NodeRef>)

  const CHATGPT_INPUTS: seq<Selector> := [SendMessageTextarea, FormTextarea]
  const GEMINI_INPUTS: seq<Selector> := [AnyTextarea, EditableDiv]

  /** The `for … of` search: the answer to the first selector that has one. */
  function FirstMatch(sels: seq<Selector>, query: Selector -> Option<NodeRef>): (r: Option<NodeRef>)
    ensures r.None? <==> forall i :: 0 <= i < |sels| ==> query(sels[i]).None?
    ensures r.Some? ==> exists i :: 0 <= i < |sels| && query(sels[i]) == r &&
                                    forall j :: 0 <= j < i ==> query(sels[j]).None?
  {
    if sels == [] then None
    else if query(sels[0]).Some? then query(sels[0])
    else
      var r := FirstMatch(sels[1..], query);
      assert forall i :: 1 <= i < |sels| ==> sels[i] == sels[1..][i - 1];
      r
  }

  /** `findPromptInput()` */
  function FindPromptInput(page: HostPage): Option<NodeRef> {
    var chat := if IsChatGPT(page.hostname) then FirstMatch(CHATGPT_INPUTS, page.query) else None;
    if chat.Some? then chat
    else if IsGemini(page.hostname) then FirstMatch(GEMINI_INPUTS, page.query)
    else None
  }

  /** The prompt box is looked up by host, each host's selectors in order, and on
      any other host there is none. */
  lemma PromptInputPriority(page: HostPage)
    ensures !IsChatGPT(page.hostname) && !IsGemini(page.hostname) ==> FindPromptInput(page).None?
    ensures IsChatGPT(page.hostname) ==>
      FindPromptInput(page) == if page.query(SendMessageTextarea).Some? then page.query(SendMessageTextarea)
                               else page.query(FormTextarea)
    ensures IsGemini(page.hostname) ==>
      FindPromptInput(page) == if page.query(AnyTextarea).Some? then page.query(AnyTextarea)
                               else page.query(EditableDiv)
  {
    var q := page.query;
    if IsChatGPT(page.hostname) {
      assert !IsGemini(page.hostname);
      if q(SendMessageTextarea).None? && q(FormTextarea).Some? {
        assert FirstMatch(CHATGPT_INPUTS, q).Some?;
      }
    }
    if IsGemini(page.hostname) {
      if q(AnyTextarea).None? && q(EditableDiv).Some? {
        assert FirstMatch(GEMINI_INPUTS, q).Some?;
      }
    }
  }

  // ---------------------------------------------------------------------------
  // The document tree

  datatype Node = Node(elementId: string, parent: Option<NodeRef>, children: seq<NodeRef>,
                       connected: bool, depth: nat)

  /** A node's parent is an element of the document, one level up, connected exactly
      when the node is, and listing the node among its children. */
  predicate LinkedAt(m: map<NodeRef, Node>, n: NodeRef)
    requires n in m
  {
    match m[n].parent
    case None => true
    case Some(p) =>
      p in m && m[p].depth < m[n].depth && m[p].connected == m[n].connected && n in m[p].children
  }

  predicate Linked(m: map<NodeRef, Node>) {
    forall n :: n in m ==> LinkedAt(m, n)
  }

  /** The document's invariant. `documentElement` is the one connected node without
      a parent, `body` is connected, and every reference is below `next`. */
  predicate WellFormed(m: map<NodeRef, Node>, root: NodeRef, body: NodeRef, next: NodeRef) {
    && Linked(m)
    && root in m && body in m
    && m[root].parent.None? && m[root].connected && m[body].connected
    && (forall n :: n in m ==> n < next)
    && (forall n :: n in m && n != root && m[n].parent.None? ==> !m[n].connected)
  }

  /** `k` is `a` or one of its descendants. */
  predicate InSubtree(m: map<NodeRef, Node>, a: NodeRef, k: NodeRef)
    decreases if k in m then m[k].depth else 0
  {
    k == a
    || (k in m && m[k].parent.Some? && m[k].parent.value in m
        && m[m[k].parent.value].depth < m[k].depth && InSubtree(m, a, m[k].parent.value))
  }

  /** A descendant lies deeper than its ancestor. */
  lemma {:induction false} SubtreeDeeper(m: map<NodeRef, Node>, a: NodeRef, k: NodeRef)
    requires InSubtree(m, a, k) && k != a
    ensures k in m && a in m && m[a].depth < m[k].depth
    decreases if k in m then m[k].depth else 0
  {
    var p := m[k].parent.value;
    if p != a {
      SubtreeDeeper(m, a, p);
    }
  }

  /** The connected flag is reachability: a node is connected exactly when
      `documentElement` is among its ancestors. */
  lemma {:induction false} ConnectedIsReachable(m: map<NodeRef, Node>, root: NodeRef, body: NodeRef, next: NodeRef, k: NodeRef)
    requires WellFormed(m, root, body, next) && k in m
    ensures m[k].connected <==> InSubtree(m, root, k)
    decreases m[k].depth
  {
    assert LinkedAt(m, k);
    if k != root && m[k].parent.Some? {
      ConnectedIsReachable(m, root, body, next, m[k].parent.value);
    }
  }

  /** `getElementById(id)` finds an element: some connected node carries the id. */
  predicate Present(m: map<NodeRef, Node>, id: string) {
    exists k :: k in m && m[k].connected && m[k].elementId == id
  }

  /** At most one connected node carries the id. */
  predicate AtMostOne(m: map<NodeRef, Node>, id: string) {
    forall a, b ::
      (a in m && b in m && m[a].connected && m[b].connected && m[a].elementId == id && m[b].elementId == id)
      ==> a == b
  }

  /** `s` with `x` inserted at position `i`. */
  function InsertAt(s: seq<NodeRef>, i: nat, x: NodeRef): (r: seq<NodeRef>)
    requires i <= |s|
    ensures |r| == |s| + 1 && r[i] == x
    ensures forall j :: 0 <= j < i ==> r[j] == s[j]
    ensures forall j :: i <= j < |s| ==> r[j + 1] == s[j]
  {
    s[..i] + [x] + s[i..]
  }

  /** `parent.insertBefore(el, parent.children[i])` for a fresh element `c` with the
      given id (`appendChild` when `i` is the number of children). */
  function Insert(m: map<NodeRef, Node>, p: NodeRef, id: string, i: nat, c: NodeRef): map<NodeRef, Node>
    requires p in m && i <= |m[p].children|
  {
    m[p := m[p].(children := InsertAt(m[p].children, i, c))]
     [c := Node(id, Some(p), [], m[p].connected, m[p].depth + 1)]
  }

  /** Inserting keeps the invariant; the new node is the only one that changes
      connectivity, and it is connected exactly when its parent is. */
  lemma InsertWellFormed(m: map<NodeRef, Node>, root: NodeRef, body: NodeRef, next: NodeRef,
                         p: NodeRef, id: string, i: nat)
    requires WellFormed(m, root, body, next) && p in m && i <= |m[p].children|
    ensures WellFormed(Insert(m, p, id, i, next), root, body, next + 1)
  {
    var m' := Insert(m, p, id, i, next);
    assert next !in m;
    forall n | n in m' ensures LinkedAt(m', n) {
      if n != next {
        assert LinkedAt(m, n);
        if m[n].parent.Some? && m[n].parent.value == p {
          var s := m[p].children;
          var j :| 0 <= j < |s| && s[j] == n;
          if j < i {
            assert m'[p].children[j] == n;
          } else {
            assert m'[p].children[j + 1] == n;
          }
        }
      } else {
        assert m'[p].children[i] == next;
      }
    }
  }

  /** What an insertion does to id lookups: ids already present stay present and
      unique ids stay unique, an id nobody had is now unique, and it is present
      when the parent was connected. */
  lemma InsertLookups(m: map<NodeRef, Node>, p: NodeRef, id: string, i: nat, c: NodeRef, x: string)
    requires p in m && i <= |m[p].children| && c !in m
    ensures Present(m, x) ==> Present(Insert(m, p, id, i, c), x)
    ensures x != id && AtMostOne(m, x) ==> AtMostOne(Insert(m, p, id, i, c), x)
    ensures !Present(m, id) ==> AtMostOne(Insert(m, p, id, i, c), id)
    ensures m[p].connected ==> Present(Insert(m, p, id, i, c), id)
  {
    var m' := Insert(m, p, id, i, c);
    if Present(m, x) {
      var k :| k in m && m[k].connected && m[k].elementId == x;
      assert m'[k].connected && m'[k].elementId == x;
    }
    if m[p].connected {
      assert m'[c].connected && m'[c].elementId == id;
    }
  }

  /** `s` without `x`. */
  function Without(s: seq<NodeRef>, x: NodeRef): (r: seq<NodeRef>)
    ensures forall y :: y in r <==> y in s && y != x
  {
    if s == [] then []
    else (if s[0] == x then [] else [s[0]]) + Without(s[1..], x)
  }

  /** `n.remove()`: `n` leaves its parent's children and loses its parent, and `n`
      with all of its descendants is disconnected. */
  function Detach(m: map<NodeRef, Node>, n: NodeRef): (m': map<NodeRef, Node>)
    requires n in m
    ensures m'.Keys == m.Keys && m'[n].parent.None?
    ensures forall k :: k in m ==>
      && m'[k].connected == (m[k].connected && !InSubtree(m, n, k))
      && m'[k].elementId == m[k].elementId && m'[k].depth == m[k].depth
      && (k != n ==> m'[k].parent == m[k].parent)
  {
    var loose := Disconnect(m, n)[n := Disconnect(m, n)[n].(parent := None)];
    match m[n].parent
    case None => loose
    case Some(p) =>
      if p in loose then loose[p := loose[p].(children := Without(loose[p].children, n))] else loose
  }

  /** Every node of the subtree under `n` marked disconnected; nothing else changed. */
  function Disconnect(m: map<NodeRef, Node>, n: NodeRef): (m': map<NodeRef, Node>)
    ensures m'.Keys == m.Keys
    ensures forall k :: k in m ==>
      && m'[k].connected == (m[k].connected && !InSubtree(m, n, k))
      && m'[k].(connected := m[k].connected) == m[k]
  {
    map k | k in m :: if InSubtree(m, n, k) then m[k].(connected := false) else m[k]
  }

  /** Removing a node other than `documentElement` and not holding `body` keeps the
      invariant. */
  lemma DetachWellFormed(m: map<NodeRef, Node>, root: NodeRef, body: NodeRef, next: NodeRef, n: NodeRef)
    requires WellFormed(m, root, body, next) && n in m && n != root && !InSubtree(m, n, body)
    ensures WellFormed(Detach(m, n), root, body, next)
  {
    var m' := Detach(m, n);
    assert !InSubtree(m, n, root) by {
      if InSubtree(m, n, root) {
        assert false;
      }
    }
    forall k | k in m' ensures LinkedAt(m', k) {
      assert LinkedAt(m, k);
      if k != n && m[k].parent.Some? {
        var q := m[k].parent.value;
        assert InSubtree(m, n, k) <==> InSubtree(m, n, q);
        assert k in m'[q].children by {
          if m[n].parent == Some(q) {
            assert m'[q].children == Without(m[q].children, n);
          } else if q == n {
            assert m'[q].children == m[q].children;
          } else {
            assert m'[q].children == m[q].children;
          }
        }
      }
    }
  }

  /** Removing only disconnects: nothing new is found by id, and a unique id stays
      unique. */
  lemma DetachLookups(m: map<NodeRef, Node>, n: NodeRef, x: string)
    requires n in m
    ensures Present(Detach(m, n), x) ==> Present(m, x)
    ensures AtMostOne(m, x) ==> AtMostOne(Detach(m, n), x)
  {
    var m' := Detach(m, n);
    if Present(m', x) {
      var k :| k in m' && m'[k].connected && m'[k].elementId == x;
      assert m[k].connected && m[k].elementId == x;
    }
  }

  // ---------------------------------------------------------------------------
  // Placement of the trigger

  /** `Array.prototype.indexOf` on a child list, `|s|` when absent. */
  function IndexOf(s: seq<NodeRef>, x: NodeRef): (i: nat)
    ensures i <= |s| && (i < |s| <==> x in s)
    ensures i < |s| ==> s[i] == x
  {
    if s == [] then 0 else if s[0] == x then 0 else 1 + IndexOf(s[1..], x)
  }

  /** The host page's answers are connected elements of the current document: the
      document's own `querySelector`, and `querySelector`/`closest` asked of a
      connected element. */
  ghost predicate Live(page: HostPage, m: map<NodeRef, Node>) {
    && (forall s :: page.query(s).Some? ==> Shown(m, page.query(s).value))
    && (forall r, s :: Shown(m, r) && page.within(r, s).Some? ==> Shown(m, page.within(r, s).value))
    && (forall r, s :: Shown(m, r) && page.closest(r, s).Some? ==> Shown(m, page.closest(r, s).value))
  }

  predicate Shown(m: map<NodeRef, Node>, k: NodeRef) {
    k in m && m[k].connected
  }

  /** Where `appendChild`/`insertBefore` puts the trigger: under `parent`, at
      position `index` among its children. */
  datatype Place = Place(parent: NodeRef, index: nat)

  /** ChatGPT: before the send cluster, else right after the first button or svg of
      the composer form; `None` when neither has a parent. */
  function ChatGPTPlace(page: HostPage, m: map<NodeRef, Node>, target: NodeRef): (pl: Option<Place>)
    requires Live(page, m) && Linked(m) && Shown(m, target)
    ensures pl.Some? ==> Shown(m, pl.value.parent) && pl.value.index <= |m[pl.value.parent].children|
  {
    var form := page.closest(target, FormElement);
    if form.None? then None
    else
      var icon := page.within(form.value, IconOrSvg);
      var cluster := if page.within(form.value, SendTestId).Some? then page.within(form.value, SendTestId)
                     else page.within(form.value, SendLabel);
      if cluster.Some? && m[cluster.value].parent.Some? then
        var p := m[cluster.value].parent.value;
        assert LinkedAt(m, cluster.value);
        Some(Place(p, IndexOf(m[p].children, cluster.value)))
      else if icon.Some? && m[icon.value].parent.Some? then
        var p := m[icon.value].parent.value;
        assert LinkedAt(m, icon.value);
        Some(Place(p, IndexOf(m[p].children, icon.value) + 1))
      else None
  }

  /** Gemini: appended to `.leading-actions-wrapper`, else to the closest `div` that
      holds a prompt field; `None` when neither exists. The source's second
      `getElementById` test before appending to the wrapper always passes, since
      the first one already returned early. */
  function GeminiPlace(page: HostPage, m: map<NodeRef, Node>, target: NodeRef): (pl: Option<Place>)
    requires Live(page, m) && Shown(m, target)
    ensures pl.Some? ==> Shown(m, pl.value.parent) && pl.value.index == |m[pl.value.parent].children|
  {
    var wrapper := page.query(LeadingActions);
    if wrapper.Some? then Some(Place(wrapper.value, |m[wrapper.value].children|))
    else
      var card := page.closest(target, DivElement);
      if card.Some? && page.within(card.value, PromptField).Some? then
        Some(Place(card.value, |m[card.value].children|))
      else None
  }

  /** The placement `injectButton` chooses: the host's strategy, else the end of
      the target's parent, else the end of `body`. */
  function Placement(page: HostPage, m: map<NodeRef, Node>, body: NodeRef, target: NodeRef): (pl: Place)
    requires Live(page, m) && Linked(m) && Shown(m, target) && Shown(m, body)
    ensures Shown(m, pl.parent) && pl.index <= |m[pl.parent].children|
  {
    var chat := if IsChatGPT(page.hostname) then ChatGPTPlace(page, m, target) else None;
    var gemini := if IsGemini(page.hostname) then GeminiPlace(page, m, target) else None;
    if chat.Some? then chat.value
    else if gemini.Some? then gemini.value
    else
      assert LinkedAt(m, target);
      var p := if m[target].parent.Some? then m[target].parent.value else body;
      Place(p, |m[p].children|)
  }

  /** On ChatGPT the trigger lands immediately before the send cluster when the
      cluster has a parent, and otherwise immediately after the first button or
      svg of the form. */
  lemma ChatGPTPlacement(page: HostPage, m: map<NodeRef, Node>, body: NodeRef, next: NodeRef,
                         target: NodeRef, form: NodeRef)
    requires Linked(m) && Shown(m, body) && next !in m && Live(page, m) && Shown(m, target)
    requires IsChatGPT(page.hostname) && page.closest(target, FormElement) == Some(form)
    ensures
      var pl := Placement(page, m, body, target);
      var kids := Insert(m, pl.parent, BUTTON_ID, pl.index, next)[pl.parent].children;
      var cluster := if page.within(form, SendTestId).Some? then page.within(form, SendTestId)
                     else page.within(form, SendLabel);
      var icon := page.within(form, IconOrSvg);
      && (cluster.Some? && m[cluster.value].parent.Some? ==>
            pl.parent == m[cluster.value].parent.value && kids[pl.index] == next && kids[pl.index + 1] == cluster.value)
      && (!(cluster.Some? && m[cluster.value].parent.Some?) && icon.Some? && m[icon.value].parent.Some? ==>
            pl.parent == m[icon.value].parent.value && pl.index > 0
            && kids[pl.index] == next && kids[pl.index - 1] == icon.value)
  {
    ChatGPTPlaceShape(page, m, target, form);
    var chat := ChatGPTPlace(page, m, target);
    if chat.Some? {
      var p := chat.value.parent;
      assert Placement(page, m, body, target) == chat.value;
      var cluster := if page.within(form, SendTestId).Some? then page.within(form, SendTestId)
                     else page.within(form, SendLabel);
      if cluster.Some? && m[cluster.value].parent.Some? {
        InsertNextTo(m, p, cluster.value, next);
      } else {
        InsertNextTo(m, p, page.within(form, IconOrSvg).value, next);
      }
    }
  }

  /** Which sibling `ChatGPTPlace` picks: the send cluster, as its own index, when
      it has a parent, else the first button or svg, one index past it. */
  lemma ChatGPTPlaceShape(page: HostPage, m: map<NodeRef, Node>, target: NodeRef, form: NodeRef)
    requires Linked(m) && Live(page, m) && Shown(m, target) && page.closest(target, FormElement) == Some(form)
    ensures
      var pl := ChatGPTPlace(page, m, target);
      var cluster := if page.within(form, SendTestId).Some? then page.within(form, SendTestId)
                     else page.within(form, SendLabel);
      var icon := page.within(form, IconOrSvg);
      && (cluster.Some? && m[cluster.value].parent.Some? ==>
            var p := m[cluster.value].parent.value;
            p in m && cluster.value in m[p].children && pl == Some(Place(p, IndexOf(m[p].children, cluster.value))))
      && (!(cluster.Some? && m[cluster.value].parent.Some?) && icon.Some? && m[icon.value].parent.Some? ==>
            var p := m[icon.value].parent.value;
            p in m && icon.value in m[p].children && pl == Some(Place(p, IndexOf(m[p].children, icon.value) + 1)))
      && (!(cluster.Some? && m[cluster.value].parent.Some?) && !(icon.Some? && m[icon.value].parent.Some?) ==>
            pl.None?)
  {
    assert Shown(m, form);
    var cluster := if page.within(form, SendTestId).Some? then page.within(form, SendTestId)
                   else page.within(form, SendLabel);
    var icon := page.within(form, IconOrSvg);
    if cluster.Some? && m[cluster.value].parent.Some? {
      assert LinkedAt(m, cluster.value);
    } else if icon.Some? && m[icon.value].parent.Some? {
      assert LinkedAt(m, icon.value);
    }
  }

  /** Inserting under `p` changes its children as `InsertAt` does. */
  lemma InsertedSiblings(m: map<NodeRef, Node>, p: NodeRef, i: nat, next: NodeRef)
    requires p in m && i <= |m[p].children| && next != p
    ensures Insert(m, p, BUTTON_ID, i, next)[p].children == InsertAt(m[p].children, i, next)
  {
  }

  /** A fresh node inserted at a child's index lands just before it; inserted one
      further on, just after it. */
  lemma InsertNextTo(m: map<NodeRef, Node>, p: NodeRef, c: NodeRef, next: NodeRef)
    requires p in m && c in m[p].children && next != p
    ensures
      var i := IndexOf(m[p].children, c);
      var before := Insert(m, p, BUTTON_ID, i, next)[p].children;
      var after := Insert(m, p, BUTTON_ID, i + 1, next)[p].children;
      && before[i] == next && before[i + 1] == c
      && after[i] == c && after[i + 1] == next
  {
    var s := m[p].children;
    var i := IndexOf(s, c);
    InsertedSiblings(m, p, i, next);
    InsertedSiblings(m, p, i + 1, next);
  }

  /** On Gemini the trigger becomes the last child of `.leading-actions-wrapper` when
      there is one, else of the closest `div` holding a prompt field. */
  lemma GeminiPlacement(page: HostPage, m: map<NodeRef, Node>, body: NodeRef, target: NodeRef)
    requires Live(page, m) && Linked(m) && Shown(m, target) && Shown(m, body) && IsGemini(page.hostname)
    ensures page.query(LeadingActions).Some? ==>
      Placement(page, m, body, target) == Place(page.query(LeadingActions).value, |m[page.query(LeadingActions).value].children|)
    ensures
      var card := page.closest(target, DivElement);
      page.query(LeadingActions).None? && card.Some? && page.within(card.value, PromptField).Some? ==>
        Placement(page, m, body, target) == Place(card.value, |m[card.value].children|)
  {
    assert !IsChatGPT(page.hostname);
  }

  /** When no host strategy applies the trigger is appended to the target's parent,
      or to `body` when the target has none. */
  lemma FallbackPlacement(page: HostPage, m: map<NodeRef, Node>, body: NodeRef, target: NodeRef)
    requires Live(page, m) && Linked(m) && Shown(m, target) && Shown(m, body)
    requires (IsChatGPT(page.hostname) ==> ChatGPTPlace(page, m, target).None?)
    requires (IsGemini(page.hostname) ==> GeminiPlace(page, m, target).None?)
    ensures
      var p := if m[target].parent.Some? then m[target].parent.value else body;
      Placement(page, m, body, target) == Place(p, |m[p].children|)
  {
  }

  // ---------------------------------------------------------------------------
  // The live document

  class Document {
    var nodes: map<NodeRef, Node>
    var nextRef: NodeRef
    /** `document.documentElement` */
    const root: NodeRef
    /** `document.body` */
    const body: NodeRef

    ghost predicate Valid()
      reads this
    {
      WellFormed(nodes, root, body, nextRef)
    }

    /** A page holding `<html>` and its `<body>`, neither carrying an id. */
    constructor ()
      ensures Valid() && nodes.Keys == {root, body}
      ensures forall id :: id != "" ==> !Present(nodes, id)
      ensures forall id :: id != "" ==> AtMostOne(nodes, id)
    {
      root := 0;
      body := 1;
      nodes := map[0 := Node("", None, [1], true, 0), 1 := Node("", Some(0), [], true, 1)];
      nextRef := 2;
    }

    /** `getElementById(id) !== null` */
    predicate Exists(id: string)
      reads this
    {
      Present(nodes, id)
    }

    /** `createElement`, set its id, and `parent.insertBefore(el, parent.children[i])`. */
    method InsertChild(p: NodeRef, id: string, i: nat) returns (c: NodeRef)
      requires Valid() && p in nodes && i <= |nodes[p].children|
      modifies this
      ensures Valid()
      ensures c == old(nextRef) && c !in old(nodes) && nodes.Keys == old(nodes).Keys + {c}
      ensures nextRef == old(nextRef) + 1
      ensures nodes == Insert(old(nodes), p, id, i, c)
      ensures forall x :: old(Present(nodes, x)) ==> Present(nodes, x)
      ensures forall x :: x != id && old(AtMostOne(nodes, x)) ==> AtMostOne(nodes, x)
      ensures old(nodes[p].connected) ==> Exists(id)
    {
      InsertWellFormed(nodes, root, body, nextRef, p, id, i);
      forall x {
        InsertLookups(nodes, p, id, i, nextRef, x);
      }
      c := nextRef;
      nodes := Insert(nodes, p, id, i, c);
      nextRef := nextRef + 1;
    }

    /** `n.remove()`, for any node but `documentElement` and the ancestors of `body`:
      the node and its subtree leave the document. */
    method Remove(n: NodeRef)
      requires Valid() && n in nodes && n != root && !InSubtree(nodes, n, body)
      modifies this
      ensures Valid() && nextRef == old(nextRef)
      ensures nodes == Detach(old(nodes), n)
      ensures forall x :: Present(nodes, x) ==> old(Present(nodes, x))
      ensures forall x :: old(AtMostOne(nodes, x)) ==> AtMostOne(nodes, x)
    {
      DetachWellFormed(nodes, root, body, nextRef, n);
      forall x {
        DetachLookups(nodes, n, x);
      }
      nodes := Detach(nodes, n);
    }

    /** `injectButton(target)`: nothing for a null target or while a connected
      trigger exists; otherwise one new trigger where `Placement` says. */
    method InjectButton(page: HostPage, target: Option<NodeRef>)
      requires Valid() && Live(page, nodes) && (target.Some? ==> Shown(nodes, target.value))
      modifies this
      ensures Valid()
      ensures target.None? || old(Exists(BUTTON_ID)) ==> nodes == old(nodes) && nextRef == old(nextRef)
      ensures target.Some? && !old(Exists(BUTTON_ID)) ==>
        var pl := Placement(page, old(nodes), body, target.value);
        nodes == Insert(old(nodes), pl.parent, BUTTON_ID, pl.index, old(nextRef)) && nextRef == old(nextRef) + 1
      ensures target.Some? ==> Exists(BUTTON_ID)
      ensures forall x :: old(AtMostOne(nodes, x)) ==> AtMostOne(nodes, x)
    {
      if target.None? || Exists(BUTTON_ID) {
        return;
      }
      var pl := Placement(page, nodes, body, target.value);
      ghost var before := nodes;
      var _ := InsertChild(pl.parent, BUTTON_ID, pl.index);
      InsertLookups(before, pl.parent, BUTTON_ID, pl.index, old(nextRef), BUTTON_ID);
    }

    /** `ensureUI()`: find the prompt box and inject the trigger next to it. However
      often it runs, and whatever the page removes in between, at most one
      connected trigger exists; once one is connected, further runs change nothing. */
    method EnsureUI(page: HostPage)
      requires Valid() && Live(page, nodes)
      modifies this
      ensures Valid()
      ensures FindPromptInput(page).Some? ==> Exists(BUTTON_ID)
      ensures FindPromptInput(page).None? || old(Exists(BUTTON_ID)) ==> nodes == old(nodes) && nextRef == old(nextRef)
      ensures FindPromptInput(page).Some? && !old(Exists(BUTTON_ID)) ==>
        (PromptInputShown(page, old(nodes));
         var pl := Placement(page, old(nodes), body, FindPromptInput(page).value);
         nodes == Insert(old(nodes), pl.parent, BUTTON_ID, pl.index, old(nextRef)) && nextRef == old(nextRef) + 1)
      ensures forall x :: old(AtMostOne(nodes, x)) ==> AtMostOne(nodes, x)
    {
      var input := FindPromptInput(page);
      PromptInputShown(page, nodes);
      InjectButton(page, input);
    }
  }

  /** On a page whose answers are live, the prompt box found is a connected element. */
  lemma PromptInputShown(page: HostPage, m: map<NodeRef, Node>)
    requires Live(page, m)
    ensures FindPromptInput(page).Some? ==> Shown(m, FindPromptInput(page).value)
  {
    if FindPromptInput(page).Some? {
      PromptInputFromQuery(page);
    }
  }

  /** The prompt box is one of the document's own `querySelector` answers. */
  lemma PromptInputFromQuery(page: HostPage)
    requires FindPromptInput(page).Some?
    ensures exists s :: page.query(s) == FindPromptInput(page)
  {
    var q := page.query;
    if IsChatGPT(page.hostname) && FirstMatch(CHATGPT_INPUTS, q).Some? {
      var i :| 0 <= i < |CHATGPT_INPUTS| && q(CHATGPT_INPUTS[i]) == FirstMatch(CHATGPT_INPUTS, q);
    } else {
      var i :| 0 <= i < |GEMINI_INPUTS| && q(GEMINI_INPUTS[i]) == FirstMatch(GEMINI_INPUTS, q);
    }
  }
}
