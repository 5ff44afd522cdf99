/**
  String helpers of the generator: HTML escaping of user text, Python truthiness
  and `or` on optional strings, `sep.join(...)`, `sep.join(filter(None, ...))`
  and `str.strip()`.
*/
module Text {
  import opened Wrappers

  // ---------------------------------------------------------------------------
  // Truthiness

  /** Python truthiness of an optional string: absent, null and "" are falsy. */
  predicate Truthy(v: Option<string>) {
    v.Some? && v.value != ""
  }

  /** Python's `a or b` on optional strings. */
  function OrElse(a: Option<string>, b: Option<string>): Option<string> {
    if Truthy(a) then a else b
  }

  // ---------------------------------------------------------------------------
  // HTML escaping, as `html.escape(s, quote=True)` does it

  /** The characters that may never appear raw in escaped text. */
  predicate IsMarkup(c: char) {
    c == '<' || c == '>' || c == '"' || c == '\''
  }

  /** The characters `html.escape` rewrites. */
  predicate IsEscaped(c: char) {
    c == '&' || IsMarkup(c)
  }

  /** The replacement of one character: `&` first, then `<`, `>`, `"` and `'`. */
  function EscapeChar(c: char): (r: string)
    ensures r != []
  {
    match c
    case '&' => "&amp;"
    case '<' => "&lt;"
    case '>' => "&gt;"
    case '"' => "&quot;"
    case '\'' => "&#x27;"
    case _ => [c]
  }

  /** `html.escape(s, quote=True)`: each character replaced by its escape. */
  function Escape(s: string): string {
    if s == [] then [] else EscapeChar(s[0]) + Escape(s[1..])
  }

  /** Escaping never shortens text, and only the empty text escapes to "". */
  lemma {:induction false} EscapeLength(s: string)
    ensures |s| <= |Escape(s)|
    ensures Escape(s) == [] <==> s == []
  {
    if s != [] {
      EscapeLength(s[1..]);
    }
  }

  lemma EscapeCharNoMarkup(c: char)
    ensures forall i :: 0 <= i < |EscapeChar(c)| ==> !IsMarkup(EscapeChar(c)[i])
  {
    var e := EscapeChar(c);
    match c
    case '&' => assert e == "&amp;";
    case '<' => assert e == "&lt;";
    case '>' => assert e == "&gt;";
    case '"' => assert e == "&quot;";
    case '\'' => assert e == "&#x27;";
    case _ => assert e == [c];
  }

  /** Escaped text never contains a raw `<`, `>`, `"` or `'`. */
  lemma {:induction false} EscapeNoMarkup(s: string)
    ensures forall i :: 0 <= i < |Escape(s)| ==> !IsMarkup(Escape(s)[i])
  {
    if s != [] {
      EscapeNoMarkup(s[1..]);
      EscapeCharNoMarkup(s[0]);
    }
  }

  /** Whether `t` starts with `p`. */
  predicate StartsWith(t: string, p: string) {
    |p| <= |t| && t[..|p|] == p
  }

  /** The inverse of `Escape`, as `html.unescape` reads the five entities. */
  function Unescape(t: string): string
    decreases |t|
  {
    if t == [] then []
    else if t[0] != '&' then [t[0]] + Unescape(t[1..])
    else if StartsWith(t, "&amp;") then "&" + Unescape(t[5..])
    else if StartsWith(t, "&lt;") then "<" + Unescape(t[4..])
    else if StartsWith(t, "&gt;") then ">" + Unescape(t[4..])
    else if StartsWith(t, "&quot;") then "\"" + Unescape(t[6..])
    else if StartsWith(t, "&#x27;") then "'" + Unescape(t[6..])
    else "&" + Unescape(t[1..])
  }

  lemma StartsWithPrefix(p: string, rest: string)
    ensures StartsWith(p + rest, p) && (p + rest)[|p|..] == rest
  {
    assert (p + rest)[..|p|] == p;
  }

  lemma UnescapeEscapeChar(c: char, rest: string)
    ensures Unescape(EscapeChar(c) + rest) == [c] + Unescape(rest)
  {
    var e := EscapeChar(c);
    var t := e + rest;
    StartsWithPrefix(e, rest);
    assert t[0] == e[0];
    match c
    case '&' =>
    case '<' => assert t[1] == e[1];
    case '>' => assert t[1] == e[1];
    case '"' => assert t[1] == e[1];
    case '\'' => assert t[1] == e[1];
    case _ =>
  }

  /** Escaping loses nothing: unescaping gives the original text back. */
  lemma {:induction false} UnescapeEscape(s: string)
    ensures Unescape(Escape(s)) == s
  {
    if s != [] {
      UnescapeEscapeChar(s[0], Escape(s[1..]));
      UnescapeEscape(s[1..]);
    }
  }

  /** Two different texts never escape to the same text. */
  lemma EscapeInjective(s: string, t: string)
    requires Escape(s) == Escape(t)
    ensures s == t
  {
    UnescapeEscape(s);
    UnescapeEscape(t);
  }

  /** Text without `&`, `<`, `>`, `"` or `'` is left as it is. */
  lemma {:induction false} EscapePlain(s: string)
    requires forall i :: 0 <= i < |s| ==> !IsEscaped(s[i])
    ensures Escape(s) == s
  {
    if s != [] {
      EscapePlain(s[1..]);
    }
  }

  /** Escaping distributes over concatenation. */
  lemma {:induction false} EscapeAppend(s: string, t: string)
    ensures Escape(s + t) == Escape(s) + Escape(t)
  {
    if s == [] {
      assert s + t == t;
    } else {
      assert (s + t)[0] == s[0] && (s + t)[1..] == s[1..] + t;
      EscapeAppend(s[1..], t);
    }
  }

  /** Text wrapped in angle brackets: only the brackets are rewritten. */
  lemma EscapeTagged(a: string, b: string)
    requires forall i :: 0 <= i < |a| ==> !IsEscaped(a[i])
    requires forall i :: 0 <= i < |b| ==> !IsEscaped(b[i])
    ensures Escape(a + "<" + b + ">") == a + "&lt;" + b + "&gt;"
  {
    var lt, gt := "<", ">";
    assert Escape(lt) == "&lt;";
    assert Escape(gt) == "&gt;";
    EscapePlain(a);
    EscapePlain(b);
    var x := a + lt;
    EscapeAppend(a, lt);
    var y := x + b;
    EscapeAppend(x, b);
    EscapeAppend(y, gt);
  }

  /** `_sanitize_text(value)`: `html.escape(str(value or ""), quote=True)`. */
  function Sanitize(v: Option<string>): (r: string)
    ensures r == "" <==> !Truthy(v)
  {
    var s := if Truthy(v) then v.value else "";
    EscapeLength(s);
    Escape(s)
  }

  /**
    Sanitized text never contains a raw `<`, `>`, `"` or `'`; absent or empty
    input gives "", and any other input is escaped so that unescaping restores it.
  */
  lemma SanitizeSafe(v: Option<string>)
    ensures forall i :: 0 <= i < |Sanitize(v)| ==> !IsMarkup(Sanitize(v)[i])
    ensures !Truthy(v) ==> Sanitize(v) == ""
    ensures Truthy(v) ==> Sanitize(v) == Escape(v.value) && Unescape(Sanitize(v)) == v.value
  {
    EscapeNoMarkup(if Truthy(v) then v.value else "");
    if Truthy(v) {
      UnescapeEscape(v.value);
    }
  }

  /** A truthy value `a<b>` with plain `a` and `b` sanitizes to `a&lt;b&gt;`. */
  lemma SanitizeTagged(v: Option<string>, a: string, b: string)
    requires forall i :: 0 <= i < |a| ==> !IsEscaped(a[i])
    requires forall i :: 0 <= i < |b| ==> !IsEscaped(b[i])
    requires v == Some(a + "<" + b + ">")
    ensures Sanitize(v) == a + "&lt;" + b + "&gt;"
  {
    EscapeTagged(a, b);
  }

  // The example name is built from fragments, and never written as one literal, so
  // that the prover does not unfold `Escape` over it character by character.
  const EXAMPLE_FIRST := "Alice "
  const EXAMPLE_ROLE := "Dev"
  /** The name of the example payload. */
  const EXAMPLE_NAME := EXAMPLE_FIRST + "<" + EXAMPLE_ROLE + ">"
  /** The escaped example name. */
  const EXAMPLE_ESCAPED := EXAMPLE_FIRST + "&lt;" + EXAMPLE_ROLE + "&gt;"

  /** `_sanitize_text("Alice <Dev>")` is "Alice &lt;Dev&gt;". */
  lemma SanitizeExample()
    ensures EXAMPLE_NAME == "Alice <Dev>" && EXAMPLE_ESCAPED == "Alice &lt;Dev&gt;"
    ensures Sanitize(Some(EXAMPLE_NAME)) == EXAMPLE_ESCAPED
  {
    var a, b := EXAMPLE_FIRST, EXAMPLE_ROLE;
    assert forall i :: 0 <= i < |a| ==> !IsEscaped(a[i]);
    assert forall i :: 0 <= i < |b| ==> !IsEscaped(b[i]);
    SanitizeTagged(Some(EXAMPLE_NAME), a, b);
  }

  /** `_sanitize_text(v or d)` for a non-empty default `d`: never empty. */
  function SanitizeOr(v: Option<string>, d: string): (r: string)
    requires d != ""
    ensures r != ""
  {
    Sanitize(OrElse(v, Some(d)))
  }

  // ---------------------------------------------------------------------------
  // Joining

  /** `sep.join(xs)`. */
  function Join(sep: string, xs: seq<string>): string {
    if |xs| == 0 then ""
    else if |xs| == 1 then xs[0]
    else xs[0] + sep + Join(sep, xs[1..])
  }

  lemma JoinStartsWithFirst(sep: string, xs: seq<string>)
    requires |xs| > 0
    ensures |xs[0]| <= |Join(sep, xs)| && Join(sep, xs)[..|xs[0]|] == xs[0]
  {
    if |xs| > 1 {
      var j := Join(sep, xs);
      assert j == xs[0] + (sep + Join(sep, xs[1..]));
    }
  }

  /** `filter(None, xs)` on strings: the non-empty ones, in order. */
  function NonEmpty(xs: seq<string>): seq<string> {
    if xs == [] then []
    else if xs[0] == "" then NonEmpty(xs[1..])
    else [xs[0]] + NonEmpty(xs[1..])
  }

  /** Filtering keeps exactly the non-empty strings and never lengthens the list. */
  lemma {:induction false} NonEmptyContents(xs: seq<string>)
    ensures |NonEmpty(xs)| <= |xs|
    ensures forall i :: 0 <= i < |NonEmpty(xs)| ==> NonEmpty(xs)[i] != ""
    ensures forall x :: x in NonEmpty(xs) <==> x in xs && x != ""
  {
    if xs != [] {
      NonEmptyContents(xs[1..]);
      assert forall x :: x in xs <==> x == xs[0] || x in xs[1..];
    }
  }

  /** Filtering keeps the order of the two halves. */
  lemma {:induction false} NonEmptyAppend(a: seq<string>, b: seq<string>)
    ensures NonEmpty(a + b) == NonEmpty(a) + NonEmpty(b)
  {
    if a == [] {
      assert a + b == b;
    } else {
      assert (a + b)[0] == a[0] && (a + b)[1..] == a[1..] + b;
      NonEmptyAppend(a[1..], b);
    }
  }

  /** A list without empty strings is left as it is. */
  lemma {:induction false} NonEmptyIdentity(xs: seq<string>)
    requires forall i :: 0 <= i < |xs| ==> xs[i] != ""
    ensures NonEmpty(xs) == xs
  {
    if xs != [] {
      NonEmptyIdentity(xs[1..]);
    }
  }

  /** Filtering a list whose middle part has no empty strings keeps that part whole, between the filtered ends. */
  lemma NonEmptyAround(e: seq<string>, n: seq<string>, k: seq<string>)
    requires forall i :: 0 <= i < |n| ==> n[i] != ""
    ensures NonEmpty(e + n + k) == NonEmpty(e) + (n + NonEmpty(k))
  {
    var (a, c) := (NonEmpty(e), NonEmpty(k));
    assert a + n + c == a + (n + c) by {
      assert |a + n + c| == |a + (n + c)|;
    }
    NonEmptyAppend(e + n, k);
    NonEmptyAppend(e, n);
    NonEmptyIdentity(n);
  }

  /** `sep.join(filter(None, parts))`: empty exactly when every part is. */
  function JoinNonEmpty(sep: string, parts: seq<string>): (r: string)
    ensures r == "" <==> forall i :: 0 <= i < |parts| ==> parts[i] == ""
  {
    var kept := NonEmpty(parts);
    NonEmptyContents(parts);
    if kept != [] then
      assert kept[0] in kept && kept[0] in parts;
      JoinStartsWithFirst(sep, kept);
      Join(sep, kept)
    else assert forall i :: 0 <= i < |parts| ==> parts[i] !in kept; Join(sep, kept)
  }

  /** The two-part join the generator uses: the separator only between two non-empty parts. */
  lemma JoinNonEmptyPair(sep: string, a: string, b: string)
    ensures JoinNonEmpty(sep, [a, b]) ==
            if a == "" then b else if b == "" then a else a + sep + b
  {
    assert [a, b][1..] == [b];
    assert [b][1..] == [];
    assert NonEmpty([b]) == if b == "" then [] else [b];
    if a != "" && b != "" {
      assert NonEmpty([a, b]) == [a, b];
      assert Join(sep, [a, b]) == a + sep + Join(sep, [b]);
    }
  }

  // ---------------------------------------------------------------------------
  // Stripping, as `str.strip()` does it

  /** Python's `str.isspace` on one character. */
  predicate IsSpace(c: char) {
    || c == ' '
    || ('\t' <= c <= '\r')
    || ('\U{1C}' <= c <= '\U{1F}')
    || c == '\U{85}' || c == '\U{A0}' || c == '\U{1680}'
    || ('\U{2000}' <= c <= '\U{200A}')
    || c == '\U{2028}' || c == '\U{2029}' || c == '\U{202F}' || c == '\U{205F}' || c == '\U{3000}'
  }

  /** `str.lstrip()`: the text after the leading whitespace (`StripLeftShape`). */
  function StripLeft(s: string): (r: string)
    ensures |r| <= |s|
    ensures r != [] ==> !IsSpace(r[0])
  {
    if s != [] && IsSpace(s[0]) then StripLeft(s[1..]) else s
  }

  /** `str.rstrip()`: the text before the trailing whitespace (`StripRightShape`). */
  function StripRight(s: string): (r: string)
    ensures |r| <= |s|
    ensures r != [] ==> !IsSpace(r[|r| - 1])
  {
    if s != [] && IsSpace(s[|s| - 1]) then StripRight(s[..|s| - 1]) else s
  }

  /** Left stripping leaves a suffix and drops only whitespace. */
  lemma {:induction false} StripLeftShape(s: string)
    ensures StripLeft(s) == s[|s| - |StripLeft(s)|..]
    ensures forall k :: 0 <= k < |s| - |StripLeft(s)| ==> IsSpace(s[k])
  {
    if s != [] && IsSpace(s[0]) {
      StripLeftShape(s[1..]);
      assert forall k :: 1 <= k < |s| ==> s[k] == s[1..][k - 1];
    }
  }

  /** Right stripping leaves a prefix and drops only whitespace. */
  lemma {:induction false} StripRightShape(s: string)
    ensures StripRight(s) == s[..|StripRight(s)|]
    ensures forall k :: |StripRight(s)| <= k < |s| ==> IsSpace(s[k])
  {
    if s != [] && IsSpace(s[|s| - 1]) {
      var init := s[..|s| - 1];
      StripRightShape(init);
      assert forall k :: 0 <= k < |init| ==> s[k] == init[k];
      assert StripRight(s) == init[..|StripRight(s)|];
    }
  }

  /** `str.strip()`: neither starts nor ends with whitespace (`StripSlice`, `StripOutside`). */
  function Strip(s: string): (r: string)
    ensures r != [] ==> !IsSpace(r[0]) && !IsSpace(r[|r| - 1])
  {
    var l := StripLeft(s);
    var r := StripRight(l);
    StripRightShape(l);
    assert r != [] ==> r[0] == l[0];
    r
  }

  /** The stripped text is the slice of `s` that starts after the leading whitespace. */
  lemma StripSlice(s: string)
    ensures var i := |s| - |StripLeft(s)|;
            i + |Strip(s)| <= |s| && Strip(s) == s[i..i + |Strip(s)|]
  {
    var l := StripLeft(s);
    var r := StripRight(l);
    var i := |s| - |l|;
    StripLeftShape(s);
    StripRightShape(l);
    assert Strip(s) == r;
    assert s[i..][..|r|] == s[i..i + |r|];
  }

  /** Only whitespace lies outside the stripped slice. */
  lemma StripOutside(s: string)
    ensures var (i, n) := (|s| - |StripLeft(s)|, |Strip(s)|);
            && (forall k :: 0 <= k < i ==> IsSpace(s[k]))
            && (forall k :: i + n <= k < |s| ==> IsSpace(s[k]))
  {
    var l := StripLeft(s);
    var r := StripRight(l);
    var i := |s| - |l|;
    StripLeftShape(s);
    StripRightShape(l);
    assert Strip(s) == r;
    forall k | i + |r| <= k < |s|
      ensures IsSpace(s[k])
    {
      assert s[k] == l[k - i];
    }
  }

  /** Text with no whitespace at either end is not changed by stripping. */
  lemma StripTrimmed(s: string)
    requires s != [] ==> !IsSpace(s[0]) && !IsSpace(s[|s| - 1])
    ensures Strip(s) == s
  {
  }

  /** Stripping twice is stripping once. */
  lemma StripIdempotent(s: string)
    ensures Strip(Strip(s)) == Strip(s)
  {
    StripTrimmed(Strip(s));
  }
}
