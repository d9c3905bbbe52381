/** The JavaScript string primitives the extension relies on: `String.prototype.trim`,
    case-insensitive phrase tests (`/…/i.test`), and `${n}` for a non-negative integer. */
module JsText {

  /** The code points `trim` removes: ECMAScript WhiteSpace (TAB, VT, FF, SP, NBSP,
      ZWNBSP and the Zs category) and LineTerminator (LF, CR, LS, PS). */
  predicate IsWhitespace(c: char) {
    || c == '\t' || c == '\n' || c == '\U{000B}' || c == '\U{000C}' || c == '\r'
    || c == ' ' || c == '\U{00A0}' || c == '\U{1680}'
    || ('\U{2000}' <= c <= '\U{200A}')
    || c == '\U{2028}' || c == '\U{2029}' || c == '\U{202F}' || c == '\U{205F}'
    || c == '\U{3000}' || c == '\U{FEFF}'
  }

  predicate AllWhitespace(s: string) {
    forall i :: 0 <= i < |s| ==> IsWhitespace(s[i])
  }

  /** Drops the leading whitespace: the result is the suffix of `s` that starts at its
      first non-whitespace character. */
  function TrimStart(s: string): (r: string)
    ensures |r| <= |s| && r == s[|s| - |r|..]
    ensures r == [] || !IsWhitespace(r[0])
    ensures AllWhitespace(s[..|s| - |r|])
  {
    if s != [] && IsWhitespace(s[0]) then TrimStart(s[1..]) else s
  }

  /** Drops the trailing whitespace: the result is the prefix of `s` that ends at its
      last non-whitespace character. */
  function TrimEnd(s: string): (r: string)
    ensures |r| <= |s| && r == s[..|r|]
    ensures r == [] || !IsWhitespace(r[|r| - 1])
    ensures AllWhitespace(s[|r|..])
  {
    if s != [] && IsWhitespace(s[|s| - 1]) then TrimEnd(s[..|s| - 1]) else s
  }

  /** `s.trim()` */
  function Trim(s: string): string {
    TrimEnd(TrimStart(s))
  }

  /** A trimmed string is empty exactly when the input was whitespace only, and
      otherwise it begins and ends with a non-whitespace character. */
  lemma TrimShape(s: string)
    ensures Trim(s) == [] <==> AllWhitespace(s)
    ensures Trim(s) != [] ==> !IsWhitespace(Trim(s)[0]) && !IsWhitespace(Trim(s)[|Trim(s)| - 1])
  {
    var t := TrimStart(s);
    var r := TrimEnd(t);
    var k := |s| - |t|;
    if r == [] {
      assert t[|r|..] == t;
      assert t == [] && k == |s|;
      forall i | 0 <= i < |s| ensures IsWhitespace(s[i]) {
        assert s[i] == s[..k][i];
      }
    } else {
      assert r[0] == t[0];
      assert s[k] == t[0];
    }
  }

  /** Trimming twice is trimming once. */
  lemma TrimIdempotent(s: string)
    ensures Trim(Trim(s)) == Trim(s)
  {
    TrimShape(s);
    TrimUnchanged(Trim(s));
  }

  /** A string that neither starts nor ends with whitespace is left as it is. */
  lemma TrimUnchanged(s: string)
    requires s == [] || (!IsWhitespace(s[0]) && !IsWhitespace(s[|s| - 1]))
    ensures Trim(s) == s
  {
  }

  /** The lower-casing under which a case-insensitive test compares ASCII letters. */
  function AsciiLower(c: char): (d: char)
    ensures 'A' <= c <= 'Z' ==> d as int == c as int + 32
    ensures !('A' <= c <= 'Z') ==> d == c
  {
    if 'A' <= c <= 'Z' then (c as int + 32) as char else c
  }

  function Lower(s: string): (r: string)
    ensures |r| == |s| && forall i :: 0 <= i < |s| ==> r[i] == AsciiLower(s[i])
  {
    if s == [] then [] else [AsciiLower(s[0])] + Lower(s[1..])
  }

  /** `p` occurs somewhere in `s`. */
  predicate Contains(s: string, p: string)
    decreases |s|
  {
    p <= s || (s != [] && Contains(s[1..], p))
  }

  /** An occurrence at a known position is an occurrence. */
  lemma {:induction false} ContainsAt(s: string, p: string, i: nat)
    requires i + |p| <= |s| && s[i..i + |p|] == p
    ensures Contains(s, p)
    decreases i
  {
    if i == 0 {
      assert s[..|p|] == p;
    } else {
      assert s[1..][i - 1..i - 1 + |p|] == s[i..i + |p|];
      ContainsAt(s[1..], p, i - 1);
    }
  }

  /** `p` occurs in `s` at position `i`. */
  predicate OccursAt(s: string, p: string, i: nat) {
    i + |p| <= |s| && s[i..i + |p|] == p
  }

  /** Every occurrence sits at some position. */
  lemma {:induction false} ContainsWitness(s: string, p: string) returns (i: nat)
    requires Contains(s, p)
    ensures i + |p| <= |s| && s[i..i + |p|] == p
    ensures OccursAt(s, p, i)
    decreases |s|
  {
    if p <= s {
      i := 0;
      assert s[..|p|] == p;
    } else {
      var j := ContainsWitness(s[1..], p);
      i := j + 1;
      assert s[1..][j..j + |p|] == s[i..i + |p|];
    }
  }

  /** Lower-casing keeps an occurrence of a phrase that has no capital letters. */
  lemma LowerKeeps(s: string, p: string, i: nat)
    requires OccursAt(s, p, i)
    requires forall j :: 0 <= j < |p| ==> !('A' <= p[j] <= 'Z')
    ensures OccursAt(Lower(s), p, i)
  {
    forall j | 0 <= j < |p| ensures Lower(s)[i + j] == p[j] {
      assert s[i..i + |p|][j] == s[i + j];
    }
    assert Lower(s)[i..i + |p|] == p;
  }

  /** A character missing from `s` in both cases cannot occur in `Lower(s)`, so no
      phrase holding it can match case-insensitively. */
  lemma LowerLacks(s: string, p: string, k: nat, upper: char)
    requires k < |p| && 'a' <= p[k] <= 'z' && upper as int == p[k] as int - 32
    requires p[k] !in s && upper !in s
    ensures !Contains(Lower(s), p)
  {
    var l := Lower(s);
    forall i: nat | i + |p| <= |l| ensures !OccursAt(l, p, i) {
      var c := s[i + k];
      assert c in s;
      assert c != p[k] && c != upper;
      assert l[i + k] == AsciiLower(c) != p[k];
      assert l[i..i + |p|][k] == l[i + k];
    }
    if Contains(l, p) {
      var i := ContainsWitness(l, p);
      assert false;
    }
  }

  function Digit(d: nat): (c: char)
    requires d < 10
    ensures '0' <= c <= '9' && c as int - '0' as int == d
  {
    ('0' as int + d) as char
  }

  predicate IsDigits(s: string) {
    forall i :: 0 <= i < |s| ==> '0' <= s[i] <= '9'
  }

  /** `${n}`: the shortest decimal numeral of `n`. */
  function DecimalString(n: nat): (r: string)
    ensures r != [] && IsDigits(r)
    ensures |r| > 1 ==> r[0] != '0'
  {
    if n < 10 then [Digit(n)] else DecimalString(n / 10) + [Digit(n % 10)]
  }

  /** The value of a decimal numeral, the partner of `DecimalString`. */
  function DecimalValue(s: string): nat
    requires IsDigits(s)
  {
    if s == [] then 0 else DecimalValue(s[..|s| - 1]) * 10 + (s[|s| - 1] as int - '0' as int)
  }

  /** Reading the numeral back gives the number: status codes print unambiguously. */
  lemma {:induction false} DecimalRoundTrip(n: nat)
    ensures DecimalValue(DecimalString(n)) == n
  {
    if n >= 10 {
      var r := DecimalString(n);
      assert r[..|r| - 1] == DecimalString(n / 10);
      DecimalRoundTrip(n / 10);
    }
  }
}
