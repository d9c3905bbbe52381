/** The string helpers of the content script (scripts/content.js): `escapeHTML`, which
    prepares an error message for `innerHTML`, and `needsApiKeyHint`, which decides
    whether the modal adds the "Add your API key" hint under an error. */
module ContentText {
  import opened Results
  import opened JsText
  import Background

  // ---------------------------------------------------------------------------
  // escapeHTML

  /** `s.replace(/c/g, rep)` for a one-character pattern: every occurrence of `c`,
      left to right, becomes `rep`. */
  function ReplaceAll(s: string, c: char, rep: string): string {
    if s == [] then []
    else (if s[0] == c then rep else [s[0]]) + ReplaceAll(s[1..], c, rep)
  }

  /** `escapeHTML(str)`: five global replacements, the ampersand first. */
  function EscapeHtml(s: string): string {
    ReplaceAll(ReplaceAll(ReplaceAll(ReplaceAll(ReplaceAll(s,
      '&', "&amp;"), '<', "&lt;"), '>', "&gt;"), '"', "&quot;"), '\'', "&#039;")
  }

  /** The five characters `escapeHTML` rewrites. */
  predicate Special(c: char) {
    c == '&' || c == '<' || c == '>' || c == '"' || c == '\''
  }

  /** What one input character turns into. */
  function Entity(c: char): (e: string)
    ensures !Special(c) ==> e == [c]
    ensures Special(c) ==> |e| >= 4 && e[0] == '&' && '&' !in e[1..]
    ensures forall j :: 0 < j < |e| ==> !Special(e[j])
  {
    if c == '&' then "&amp;"
    else if c == '<' then "&lt;"
    else if c == '>' then "&gt;"
    else if c == '"' then "&quot;"
    else if c == '\'' then "&#039;"
    else [c]
  }

  /** The reference definition: each character escaped on its own. */
  function EscapeChars(s: string): string {
    if s == [] then [] else Entity(s[0]) + EscapeChars(s[1..])
  }

  /** `t` begins with one of the five entities `escapeHTML` produces. */
  predicate StartsEntity(t: string) {
    "&amp;" <= t || "&lt;" <= t || "&gt;" <= t || "&quot;" <= t || "&#039;" <= t
  }

  lemma {:induction false} ReplaceAllConcat(a: string, b: string, c: char, rep: string)
    ensures ReplaceAll(a + b, c, rep) == ReplaceAll(a, c, rep) + ReplaceAll(b, c, rep)
    decreases |a|
  {
    if a == [] {
      assert a + b == b;
    } else {
      assert (a + b)[1..] == a[1..] + b;
      ReplaceAllConcat(a[1..], b, c, rep);
    }
  }

  lemma {:induction false} ReplaceAllAbsent(s: string, c: char, rep: string)
    requires c !in s
    ensures ReplaceAll(s, c, rep) == s
    decreases |s|
  {
    if s != [] {
      assert s[0] in s;
      assert forall x :: x in s[1..] ==> x in s;
      ReplaceAllAbsent(s[1..], c, rep);
    }
  }

  /** The five passes distribute over concatenation, because no pass splits a
      character of its input. */
  lemma EscapeHtmlConcat(a: string, b: string)
    ensures EscapeHtml(a + b) == EscapeHtml(a) + EscapeHtml(b)
  {
    var a1, b1 := ReplaceAll(a, '&', "&amp;"), ReplaceAll(b, '&', "&amp;");
    ReplaceAllConcat(a, b, '&', "&amp;");
    var a2, b2 := ReplaceAll(a1, '<', "&lt;"), ReplaceAll(b1, '<', "&lt;");
    ReplaceAllConcat(a1, b1, '<', "&lt;");
    var a3, b3 := ReplaceAll(a2, '>', "&gt;"), ReplaceAll(b2, '>', "&gt;");
    ReplaceAllConcat(a2, b2, '>', "&gt;");
    var a4, b4 := ReplaceAll(a3, '"', "&quot;"), ReplaceAll(b3, '"', "&quot;");
    ReplaceAllConcat(a3, b3, '"', "&quot;");
    ReplaceAllConcat(a4, b4, '\'', "&#039;");
  }

  /** A replacement of one character: `rep` when it is the pattern, itself otherwise. */
  lemma ReplaceAllSingle(c: char, x: char, rep: string)
    ensures ReplaceAll([c], x, rep) == if c == x then rep else [c]
  {
    assert [c][1..] == [];
  }

  /** On a single character the five passes give its entity: an entity inserted by
      an earlier pass holds none of the characters later passes look for. */
  lemma EscapeHtmlChar(c: char)
    ensures EscapeHtml([c]) == Entity(c)
  {
    var s1 := ReplaceAll([c], '&', "&amp;");
    var s2 := ReplaceAll(s1, '<', "&lt;");
    var s3 := ReplaceAll(s2, '>', "&gt;");
    var s4 := ReplaceAll(s3, '"', "&quot;");
    var s5 := ReplaceAll(s4, '\'', "&#039;");
    assert EscapeHtml([c]) == s5;
    ReplaceAllSingle(c, '&', "&amp;");
    if c == '&' {
      PassesAfterAmp(s1);
    } else {
      ReplaceAllSingle(c, '<', "&lt;");
      if c == '<' {
        PassesAfterLt(s2);
      } else {
        ReplaceAllSingle(c, '>', "&gt;");
        if c == '>' {
          PassesAfterGt(s3);
        } else {
          ReplaceAllSingle(c, '"', "&quot;");
          if c == '"' {
            ReplaceAllAbsent(s4, '\'', "&#039;");
          } else {
            ReplaceAllSingle(c, '\'', "&#039;");
          }
        }
      }
    }
  }

  lemma PassesAfterAmp(s1: string)
    requires s1 == "&amp;"
    ensures ReplaceAll(ReplaceAll(ReplaceAll(ReplaceAll(s1, '<', "&lt;"), '>', "&gt;"), '"', "&quot;"), '\'', "&#039;") == s1
  {
    ReplaceAllAbsent(s1, '<', "&lt;");
    ReplaceAllAbsent(s1, '>', "&gt;");
    ReplaceAllAbsent(s1, '"', "&quot;");
    ReplaceAllAbsent(s1, '\'', "&#039;");
  }

  lemma PassesAfterLt(s2: string)
    requires s2 == "&lt;"
    ensures ReplaceAll(ReplaceAll(ReplaceAll(s2, '>', "&gt;"), '"', "&quot;"), '\'', "&#039;") == s2
  {
    ReplaceAllAbsent(s2, '>', "&gt;");
    ReplaceAllAbsent(s2, '"', "&quot;");
    ReplaceAllAbsent(s2, '\'', "&#039;");
  }

  lemma PassesAfterGt(s3: string)
    requires s3 == "&gt;"
    ensures ReplaceAll(ReplaceAll(s3, '"', "&quot;"), '\'', "&#039;") == s3
  {
    ReplaceAllAbsent(s3, '"', "&quot;");
    ReplaceAllAbsent(s3, '\'', "&#039;");
  }

  /** `escapeHTML` is the per-character escape: the chain of passes neither escapes
      an entity twice nor misses a character. */
  lemma {:induction false} EscapeHtmlIsPerCharacter(s: string)
    ensures EscapeHtml(s) == EscapeChars(s)
    decreases |s|
  {
    if s == [] {
      assert EscapeHtml(s) == [];
    } else {
      assert s == [s[0]] + s[1..];
      EscapeHtmlConcat([s[0]], s[1..]);
      EscapeHtmlChar(s[0]);
      EscapeHtmlIsPerCharacter(s[1..]);
    }
  }

  /** The output carries no raw `<`, `>`, `"` or `'`, and every `&` in it begins an
      entity. */
  lemma {:induction false} EscapedShape(s: string)
    ensures forall i :: 0 <= i < |EscapeChars(s)| ==>
      !Special(EscapeChars(s)[i]) || (EscapeChars(s)[i] == '&' && StartsEntity(EscapeChars(s)[i..]))
    decreases |s|
  {
    if s != [] {
      EscapedShape(s[1..]);
      var e, rest := Entity(s[0]), EscapeChars(s[1..]);
      var r := e + rest;
      assert EscapeChars(s) == r;
      forall i | 0 <= i < |r|
        ensures !Special(r[i]) || (r[i] == '&' && StartsEntity(r[i..]))
      {
        if i < |e| {
          EntityPrefix(s[0], rest, i);
        } else {
          assert r[i] == rest[i - |e|];
          assert r[i..] == rest[i - |e|..];
        }
      }
    }
  }

  /** Within the entity that opens a string, only its leading `&` is special, and
      that `&` begins an entity. */
  lemma EntityPrefix(c: char, rest: string, i: nat)
    requires i < |Entity(c)|
    ensures
      var r := Entity(c) + rest;
      !Special(r[i]) || (r[i] == '&' && StartsEntity(r[i..]))
  {
    var e := Entity(c);
    var r := e + rest;
    assert r[i] == e[i];
    if Special(c) && i == 0 {
      assert r[i..] == e + rest;
    }
  }

  /** Decoding of the five entities; `None` on a raw special character or on an
      ampersand that begins no entity. */
  function Unescape(t: string): Option<string>
    decreases |t|
  {
    if t == [] then Some([])
    else if "&amp;" <= t then Prepend('&', Unescape(t[5..]))
    else if "&lt;" <= t then Prepend('<', Unescape(t[4..]))
    else if "&gt;" <= t then Prepend('>', Unescape(t[4..]))
    else if "&quot;" <= t then Prepend('"', Unescape(t[6..]))
    else if "&#039;" <= t then Prepend('\'', Unescape(t[6..]))
    else if Special(t[0]) then None
    else Prepend(t[0], Unescape(t[1..]))
  }

  function Prepend(c: char, o: Option<string>): Option<string> {
    if o.Some? then Some([c] + o.value) else None
  }

  /** Decoding one escaped character and then the rest. */
  lemma UnescapeEntity(c: char, rest: string)
    ensures Unescape(Entity(c) + rest) == Prepend(c, Unescape(rest))
  {
    var t := Entity(c) + rest;
    if c == '&' {
      assert t[5..] == rest;
    } else if c == '<' {
      assert t[1] == 'l';
      assert t[4..] == rest;
    } else if c == '>' {
      assert t[1] == 'g';
      assert t[4..] == rest;
    } else if c == '"' {
      assert t[1] == 'q';
      assert t[6..] == rest;
    } else if c == '\'' {
      assert t[1] == '#';
      assert t[6..] == rest;
    } else {
      assert t[0] == c;
      assert t[1..] == rest;
    }
  }

  /** Nothing is lost: decoding the escaped text gives back the input, every
      character in its place. */
  lemma {:induction false} EscapeRoundTrip(s: string)
    ensures Unescape(EscapeHtml(s)) == Some(s)
    decreases |s|
  {
    EscapeHtmlIsPerCharacter(s);
    if s != [] {
      EscapeRoundTrip(s[1..]);
      EscapeHtmlIsPerCharacter(s[1..]);
      UnescapeEntity(s[0], EscapeChars(s[1..]));
      assert [s[0]] + s[1..] == s;
    }
  }

  /** A string free of the five characters is left as it is. */
  lemma {:induction false} EscapeIdentityOnPlainText(s: string)
    requires forall i :: 0 <= i < |s| ==> !Special(s[i])
    ensures EscapeHtml(s) == s
    decreases |s|
  {
    EscapeHtmlIsPerCharacter(s);
    EscapeCharsPlain(s);
  }

  lemma {:induction false} EscapeCharsPlain(s: string)
    requires forall i :: 0 <= i < |s| ==> !Special(s[i])
    ensures EscapeChars(s) == s
    decreases |s|
  {
    if s != [] {
      EscapeCharsPlain(s[1..]);
      assert [s[0]] + s[1..] == s;
    }
  }

  /** A lone ampersand becomes `&amp;`. */
  lemma EscapeAmpersand(amp: string)
    requires amp == "&"
    ensures EscapeHtml(amp) == "&amp;"
  {
    assert amp == ['&'];
    EscapeHtmlChar('&');
  }

  /** Escaping never shortens a text; a text holding one of the five characters
      grows and comes out holding an ampersand. */
  lemma {:induction false} EscapeGrows(s: string)
    ensures |EscapeChars(s)| >= |s|
    ensures (exists i :: 0 <= i < |s| && Special(s[i])) ==> |EscapeChars(s)| > |s| && '&' in EscapeChars(s)
    decreases |s|
  {
    if s != [] {
      EscapeGrows(s[1..]);
      var e := Entity(s[0]);
      assert EscapeChars(s) == e + EscapeChars(s[1..]);
      if Special(s[0]) {
        assert e[0] == '&';
        assert EscapeChars(s)[0] == '&';
      } else if exists i :: 0 <= i < |s| && Special(s[i]) {
        var i :| 0 <= i < |s| && Special(s[i]);
        assert Special(s[1..][i - 1]);
        var j :| 0 <= j < |EscapeChars(s[1..])| && EscapeChars(s[1..])[j] == '&';
        assert EscapeChars(s)[j + 1] == '&';
      }
    }
  }

  /** Escaping is not idempotent: a text holding any of the five characters changes
      again when its escaped form is escaped, because the ampersand of every entity
      is escaped anew. */
  lemma EscapeTwiceChanges(s: string)
    requires exists i :: 0 <= i < |s| && Special(s[i])
    ensures EscapeHtml(EscapeHtml(s)) != EscapeHtml(s)
  {
    var once := EscapeHtml(s);
    EscapeHtmlIsPerCharacter(s);
    EscapeGrows(s);
    var j :| 0 <= j < |once| && once[j] == '&';
    assert Special(once[j]);
    EscapeHtmlIsPerCharacter(once);
    EscapeGrows(once);
  }

  // ---------------------------------------------------------------------------
  // needsApiKeyHint

  /** `/api key|key not set|add it in options|not set|missing key/i.test(text || '')`,
      the phrases being all lower case. */
  function NeedsApiKeyHint(text: Option<string>): (r: bool)
    ensures text.None? || text == Some("") ==> !r
  {
    var s := Lower(if text.Some? then text.value else "");
    Contains(s, "api key") || Contains(s, "key not set") || Contains(s, "add it in options")
      || Contains(s, "not set") || Contains(s, "missing key")
  }

  /** The alternative "key not set" adds nothing: every text it matches is matched by
      "not set". */
  lemma KeyNotSetRedundant(text: Option<string>)
    ensures NeedsApiKeyHint(text) <==>
      var s := Lower(if text.Some? then text.value else "");
      Contains(s, "api key") || Contains(s, "add it in options") || Contains(s, "not set")
        || Contains(s, "missing key")
  {
    var s := Lower(if text.Some? then text.value else "");
    if Contains(s, "key not set") {
      KeyNotSetHasNotSet(s, "key not set");
    }
  }

  /** Every occurrence of "key not set" holds one of "not set". */
  lemma KeyNotSetHasNotSet(s: string, phrase: string)
    requires phrase == "key not set" && Contains(s, phrase)
    ensures Contains(s, "not set")
  {
    var i := ContainsWitness(s, phrase);
    assert phrase[4..] == "not set" by {
      assert phrase[4] == 'n' && phrase[5] == 'o' && phrase[6] == 't' && phrase[7] == ' ';
      assert phrase[8] == 's' && phrase[9] == 'e' && phrase[10] == 't';
    }
    assert s[i + 4..i + 11] == s[i..i + 11][4..];
    ContainsAt(s, "not set", i + 4);
  }

  /** Every missing-key error of the dispatcher earns the hint. */
  lemma MissingKeyEarnsHint(v: Background.Vendor, m: string)
    requires m == Background.MissingKeyMessage(v)
    ensures NeedsApiKeyHint(Some(m))
  {
    KeyNotSetEarnsHint(Background.KeyLabel(v), m);
  }

  /** The missing-key sentence earns the hint whatever the vendor name before it. */
  lemma KeyNotSetEarnsHint(name: string, m: string)
    requires m == name + " API key not set. Add it in Options."
    ensures NeedsApiKeyHint(Some(m))
  {
    NotSetAfterName(name, m);
    ContainsAt(Lower(m), "not set", |name| + 9);
  }

  lemma NotSetAfterName(name: string, m: string)
    requires m == name + " API key not set. Add it in Options."
    ensures OccursAt(Lower(m), "not set", |name| + 9)
  {
    var p := "not set";
    assert OccursAt(m, p, |name| + 9) by {
      var tail := " API key not set. Add it in Options.";
      assert m[|name| + 9..|name| + 16] == tail[9..16];
      assert tail[9..16] == p by {
        assert tail[9] == 'n' && tail[10] == 'o' && tail[11] == 't' && tail[12] == ' ';
        assert tail[13] == 's' && tail[14] == 'e' && tail[15] == 't';
      }
    }
    assert forall j :: 0 <= j < |p| ==> !('A' <= p[j] <= 'Z');
    LowerKeeps(m, p, |name| + 9);
  }

  /** A text with no `a` and no `k` in either case, in which no `n` is followed by
      an `o` (in either case), matches none of the five phrases. */
  lemma NoHintWithoutAK(s: string)
    requires 'a' !in s && 'A' !in s && 'k' !in s && 'K' !in s
    requires forall j :: 0 <= j < |s| - 1 && (s[j] == 'n' || s[j] == 'N') ==> s[j + 1] != 'o' && s[j + 1] != 'O'
    ensures !NeedsApiKeyHint(Some(s))
  {
    LowerLacks(s, "api key", 0, 'A');
    LowerLacks(s, "key not set", 0, 'K');
    LowerLacks(s, "add it in options", 0, 'A');
    LowerLacks(s, "missing key", 8, 'K');
    NoPhraseAfterN(s, "not set");
  }

  /** The dispatcher's two validation errors earn no hint. */
  lemma ValidationErrorsEarnNoHint(m: string)
    requires m == Background.UNSUPPORTED_PROVIDER || m == Background.MISSING_USER_PROMPT
    ensures !NeedsApiKeyHint(Some(m))
  {
    if m == Background.UNSUPPORTED_PROVIDER {
      UnsupportedProviderNoHint(m);
    } else {
      MissingUserPromptNoHint(m);
    }
  }

  /** 'Unsupported provider' earns no hint. */
  lemma UnsupportedProviderNoHint(m: string)
    requires m == Background.UNSUPPORTED_PROVIDER
    ensures !NeedsApiKeyHint(Some(m))
  {
    assert forall j :: 0 <= j < |m| && (m[j] == 'n' || m[j] == 'N') ==> j == 1;
    assert m[2] != 'o' && m[2] != 'O';
    NoHintWithoutAK(m);
  }

  /** 'Missing user prompt' earns no hint. */
  lemma MissingUserPromptNoHint(m: string)
    requires m == Background.MISSING_USER_PROMPT
    ensures !NeedsApiKeyHint(Some(m))
  {
    assert forall j :: 0 <= j < |m| && (m[j] == 'n' || m[j] == 'N') ==> j == 5;
    assert m[6] != 'o' && m[6] != 'O';
    NoHintWithoutAK(m);
  }

  /** A phrase beginning "no" (such as "not set") cannot occur, in any case, when no
      `n` of `s` is followed by an `o`, in either case. */
  lemma NoPhraseAfterN(s: string, p: string)
    requires |p| >= 2 && p[0] == 'n' && p[1] == 'o'
    requires forall j :: 0 <= j < |s| - 1 && (s[j] == 'n' || s[j] == 'N') ==> s[j + 1] != 'o' && s[j + 1] != 'O'
    ensures !Contains(Lower(s), p)
  {
    var l := Lower(s);
    forall i: nat | i + |p| <= |l| ensures !OccursAt(l, p, i) {
      if l[i] == 'n' {
        assert s[i] == 'n' || s[i] == 'N';
        assert l[i + 1] == AsciiLower(s[i + 1]) != 'o';
        assert l[i..i + |p|][1] != p[1];
      } else {
        assert l[i..i + |p|][0] != p[0];
      }
    }
    if Contains(l, p) {
      var i := ContainsWitness(l, p);
      assert false;
    }
  }
}
