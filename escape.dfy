/**
 * HTML escaping of text before it is inserted into the page. Both frontends
 * define `esc`: one chains four global replacements, the other makes one
 * pass with a lookup table. Both replace exactly `&`, `<`, `>` and `"`.
 */
module Html {
  import opened JsValue
  import opened Faults

  /** Characters that could open a tag or end an attribute value. */
  predicate IsMarkup(c: char) {
    c == '<' || c == '>' || c == '"'
  }

  /** Text that cannot open a tag or end an attribute value. */
  predicate Inert(s: string) {
    forall i :: 0 <= i < |s| ==> !IsMarkup(s[i])
  }

  /** Characters that `esc` replaces by an entity. */
  predicate IsSpecial(c: char) {
    c == '&' || IsMarkup(c)
  }

  /** The lookup table of the one-pass replacement. */
  function EscapeChar(c: char): (r: string)
    ensures Inert(r)
    ensures !IsSpecial(c) ==> r == [c]
  {
    if c == '&' then "&amp;"
    else if c == '<' then "&lt;"
    else if c == '>' then "&gt;"
    else if c == '"' then "&quot;"
    else [c]
  }

  /**
   * `s.replace(/[&<>"]/g, m => table[m])`: every character is replaced by its
   * entry in the table, independently of its neighbours. The result holds no
   * markup character.
   */
  function Escape(s: string): (r: string)
    ensures Inert(r)
    ensures |r| >= |s|
  {
    if s == [] then "" else EscapeChar(s[0]) + Escape(s[1..])
  }

  /** `s.replace(new RegExp(c, "g"), rep)` for a single character `c`. */
  function ReplaceAll(s: string, c: char, rep: string): string {
    if s == [] then "" else (if s[0] == c then rep else [s[0]]) + ReplaceAll(s[1..], c, rep)
  }

  /** The four chained replacements, ampersand first. */
  function EscapeChained(s: string): string {
    ReplaceAll(ReplaceAll(ReplaceAll(ReplaceAll(s, '&', "&amp;"), '<', "&lt;"), '>', "&gt;"), '"', "&quot;")
  }

  /** The text `esc` works on: `(s || '').toString()`. */
  function Text(v: Value): string {
    if Truthy(v) then ToJsString(v) else ""
  }

  /**
   * `esc` of the main frontend: falsy input escapes to "", anything else is
   * converted to a string first and then escaped character by character.
   * `EscIsChained` shows this is what its four chained replacements compute.
   */
  function Esc(v: Value): (r: string)
    ensures Inert(r)
    ensures !Truthy(v) ==> r == ""
  {
    Escape(Text(v))
  }

  /**
   * `esc` of the legacy frontend, `(s || "").replace(...)`: falsy input
   * escapes to "", a string is escaped, and any other truthy value has no
   * `replace` method, so the call throws.
   */
  function EscLegacy(v: Value): (r: Result<string>)
    ensures r.Ok? <==> !Truthy(v) || v.Str?
    ensures r.Ok? ==> r.value == Esc(v)
    ensures r.Err? ==> r.fault == TypeFault
  {
    if !Truthy(v) then Ok("")
    else if v.Str? then Ok(Escape(v.s))
    else Err(TypeFault)
  }

  predicate StartsWith(s: string, p: string) {
    |p| <= |s| && s[..|p|] == p
  }

  /** Decodes the four entities `esc` produces; the partner of `Escape`. */
  function Unescape(s: string): string
    decreases |s|
  {
    if s == [] then ""
    else if StartsWith(s, "&amp;") then "&" + Unescape(s[5..])
    else if StartsWith(s, "&lt;") then "<" + Unescape(s[4..])
    else if StartsWith(s, "&gt;") then ">" + Unescape(s[4..])
    else if StartsWith(s, "&quot;") then "\"" + Unescape(s[6..])
    else [s[0]] + Unescape(s[1..])
  }

  lemma UnescapeStep(c: char, rest: string)
    ensures Unescape(EscapeChar(c) + rest) == [c] + Unescape(rest)
  {
    var s := EscapeChar(c) + rest;
    if c == '&' {
      assert s[..5] == "&amp;" && s[5..] == rest;
      assert StartsWith(s, "&amp;");
    } else if c == '<' {
      assert s[1] == 'l' && s[..4] == "&lt;" && s[4..] == rest;
      assert !StartsWith(s, "&amp;") && StartsWith(s, "&lt;");
    } else if c == '>' {
      assert s[1] == 'g' && s[..4] == "&gt;" && s[4..] == rest;
      assert !StartsWith(s, "&amp;") && !StartsWith(s, "&lt;") && StartsWith(s, "&gt;");
    } else if c == '"' {
      assert s[1] == 'q' && s[..6] == "&quot;" && s[6..] == rest;
      assert !StartsWith(s, "&amp;") && !StartsWith(s, "&lt;") && !StartsWith(s, "&gt;");
      assert StartsWith(s, "&quot;");
    } else {
      assert s[0] == c && s[1..] == rest;
      assert !StartsWith(s, "&amp;") && !StartsWith(s, "&lt;") && !StartsWith(s, "&gt;") && !StartsWith(s, "&quot;");
    }
  }

  /** Escaping loses nothing: unescaping its output gives the input back. */
  lemma {:induction false} UnescapeEscape(s: string)
    ensures Unescape(Escape(s)) == s
  {
    if s != [] {
      UnescapeStep(s[0], Escape(s[1..]));
      UnescapeEscape(s[1..]);
    }
  }

  /** Escaping is injective: distinct texts never render alike. */
  lemma EscapeInjective(s: string, t: string)
    requires Escape(s) == Escape(t)
    ensures s == t
  {
    UnescapeEscape(s);
    UnescapeEscape(t);
  }

  /** Each character is escaped on its own: escaping distributes over concatenation. */
  lemma {:induction false} EscapeConcat(a: string, b: string)
    ensures Escape(a + b) == Escape(a) + Escape(b)
  {
    if a != [] {
      assert (a + b)[0] == a[0];
      assert (a + b)[1..] == a[1..] + b;
      EscapeConcat(a[1..], b);
    } else {
      assert a + b == b;
    }
  }

  /** Text without `&`, `<`, `>` or `"` passes through unchanged. */
  lemma {:induction false} EscapePlainText(s: string)
    requires forall i :: 0 <= i < |s| ==> !IsSpecial(s[i])
    ensures Escape(s) == s
  {
    if s != [] {
      EscapePlainText(s[1..]);
      assert s == [s[0]] + s[1..];
    }
  }

  lemma {:induction false} ReplaceAllConcat(a: string, b: string, c: char, rep: string)
    ensures ReplaceAll(a + b, c, rep) == ReplaceAll(a, c, rep) + ReplaceAll(b, c, rep)
  {
    if a != [] {
      assert (a + b)[0] == a[0];
      assert (a + b)[1..] == a[1..] + b;
      ReplaceAllConcat(a[1..], b, c, rep);
    } else {
      assert a + b == b;
    }
  }

  lemma {:induction false} ReplaceAllAbsent(s: string, c: char, rep: string)
    requires forall i :: 0 <= i < |s| ==> s[i] != c
    ensures ReplaceAll(s, c, rep) == s
  {
    if s != [] {
      ReplaceAllAbsent(s[1..], c, rep);
      assert s == [s[0]] + s[1..];
    }
  }

  lemma ReplaceAllOne(c: char, d: char, rep: string)
    ensures ReplaceAll([c], d, rep) == if c == d then rep else [c]
  {
    assert [c][0] == c && [c][1..] == [];
    assert ReplaceAll([], d, rep) == [];
  }

  lemma ChainedOneChar(c: char)
    ensures EscapeChained([c]) == EscapeChar(c)
  {
    ReplaceAllOne(c, '&', "&amp;");
    var r1 := ReplaceAll([c], '&', "&amp;");
    if c == '<' {
      ReplaceAllOne(c, '<', "&lt;");
    } else {
      ReplaceAllAbsent(r1, '<', "&lt;");
    }
    var r2 := ReplaceAll(r1, '<', "&lt;");
    if c == '>' {
      ReplaceAllOne(c, '>', "&gt;");
    } else {
      ReplaceAllAbsent(r2, '>', "&gt;");
    }
    var r3 := ReplaceAll(r2, '>', "&gt;");
    if c == '"' {
      ReplaceAllOne(c, '"', "&quot;");
    } else {
      ReplaceAllAbsent(r3, '"', "&quot;");
    }
  }

  /**
   * The chained replacements of the main frontend compute the same text as
   * the one-pass table of the legacy frontend, on every input.
   */
  lemma {:induction false} ChainedIsOnePass(s: string)
    ensures EscapeChained(s) == Escape(s)
  {
    if s != [] {
      var c, t := s[0], s[1..];
      assert s == [c] + t;
      var a1, b1 := ReplaceAll([c], '&', "&amp;"), ReplaceAll(t, '&', "&amp;");
      ReplaceAllConcat([c], t, '&', "&amp;");
      var a2, b2 := ReplaceAll(a1, '<', "&lt;"), ReplaceAll(b1, '<', "&lt;");
      ReplaceAllConcat(a1, b1, '<', "&lt;");
      var a3, b3 := ReplaceAll(a2, '>', "&gt;"), ReplaceAll(b2, '>', "&gt;");
      ReplaceAllConcat(a2, b2, '>', "&gt;");
      ReplaceAllConcat(a3, b3, '"', "&quot;");
      assert EscapeChained(s) == EscapeChained([c]) + EscapeChained(t);
      ChainedOneChar(c);
      ChainedIsOnePass(t);
    }
  }

  /**
   * The main frontend's `esc` replaces `&` first, so its chain never
   * re-escapes an entity it has produced: on every value it computes the
   * one-pass escape of the value's text.
   */
  lemma EscIsChained(v: Value)
    ensures Esc(v) == EscapeChained(Text(v))
  {
    ChainedIsOnePass(Text(v));
  }
}
