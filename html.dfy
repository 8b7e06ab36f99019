/** `escapeHtml`: three global replacements, `&` first, then `<`, then `>`. */
module Html {

  /** `s.replace(/c/g, rep)` for a one-character pattern. */
  function ReplaceAll(s: string, c: char, rep: string): (r: string)
    ensures c !in s ==> r == s
  {
    if s == [] then [] else (if s[0] == c then rep else [s[0]]) + ReplaceAll(s[1..], c, rep)
  }

  /** The three chained replacements of the source, in their order. */
  function ReplaceSpecials(s: string): string
  {
    ReplaceAll(ReplaceAll(ReplaceAll(s, '&', "&amp;"), '<', "&lt;"), '>', "&gt;")
  }

  /** `escapeHtml(s)` for a string `s`; an empty result is falsy, so `|| s` gives back `s`. */
  function EscapeHtml(s: string): (r: string)
    ensures r == Escaped(s)
  {
    ReplaceSpecialsIsEscaped(s);
    assert s != [] ==> EscapeChar(s[0]) != [];
    var r := ReplaceSpecials(s);
    if r == [] then s else r
  }

  /** The replacement of one character, as a single pass would do it. */
  function EscapeChar(c: char): string
  {
    if c == '&' then "&amp;" else if c == '<' then "&lt;" else if c == '>' then "&gt;" else [c]
  }

  /** Reference definition: every character escaped on its own. */
  function Escaped(s: string): string
  {
    if s == [] then [] else EscapeChar(s[0]) + Escaped(s[1..])
  }

  lemma {:induction false} ReplaceAllConcat(a: string, b: string, c: char, rep: string)
    ensures ReplaceAll(a + b, c, rep) == ReplaceAll(a, c, rep) + ReplaceAll(b, c, rep)
  {
    if a == [] {
      assert a + b == b;
    } else {
      assert (a + b)[1..] == a[1..] + b;
      ReplaceAllConcat(a[1..], b, c, rep);
    }
  }

  lemma ReplaceSpecialsConcat(a: string, b: string)
    ensures ReplaceSpecials(a + b) == ReplaceSpecials(a) + ReplaceSpecials(b)
  {
    ReplaceAllConcat(a, b, '&', "&amp;");
    var a1, b1 := ReplaceAll(a, '&', "&amp;"), ReplaceAll(b, '&', "&amp;");
    ReplaceAllConcat(a1, b1, '<', "&lt;");
    ReplaceAllConcat(ReplaceAll(a1, '<', "&lt;"), ReplaceAll(b1, '<', "&lt;"), '>', "&gt;");
  }

  lemma ReplaceSpecialsChar(c: char)
    ensures ReplaceSpecials([c]) == EscapeChar(c)
  {
    var a := ReplaceAll([c], '&', "&amp;");
    assert a == if c == '&' then "&amp;" else [c];
    var b := ReplaceAll(a, '<', "&lt;");
    assert b == if c == '<' then "&lt;" else a;
    assert ReplaceAll(b, '>', "&gt;") == if c == '>' then "&gt;" else b;
  }

  /** The three chained replacements of the source escape one character at a time:
      because `&` goes first, no entity written by a later pass is escaped again. */
  lemma {:induction false} ReplaceSpecialsIsEscaped(s: string)
    ensures ReplaceSpecials(s) == Escaped(s)
  {
    if s != [] {
      assert s == [s[0]] + s[1..];
      ReplaceSpecialsConcat([s[0]], s[1..]);
      ReplaceSpecialsChar(s[0]);
      ReplaceSpecialsIsEscaped(s[1..]);
    }
  }

  predicate StartsWith(s: string, p: string)
  {
    |p| <= |s| && s[..|p|] == p
  }

  /** `s` at position `i` begins one of the three entities. */
  predicate EntityAt(s: string, i: nat)
    requires i < |s|
  {
    var t := s[i..];
    StartsWith(t, "&amp;") || StartsWith(t, "&lt;") || StartsWith(t, "&gt;")
  }

  /** What escaping promises: no angle bracket survives, and every `&` in the
      output is the start of an entity. */
  ghost predicate SafeHtml(r: string)
  {
    && '<' !in r && '>' !in r
    && forall i :: 0 <= i < |r| && r[i] == '&' ==> EntityAt(r, i)
  }

  lemma {:induction false} EscapedIsSafe(s: string)
    ensures SafeHtml(Escaped(s))
  {
    if s != [] {
      var e, rest := EscapeChar(s[0]), Escaped(s[1..]);
      var r := e + rest;
      EscapedIsSafe(s[1..]);
      forall i | 0 <= i < |r| && r[i] == '&' ensures EntityAt(r, i) {
        if i < |e| {
          assert i == 0 && r[i..][..|e|] == e;
        } else {
          assert r[i..] == rest[i - |e|..];
          assert EntityAt(rest, i - |e|);
        }
      }
    }
  }

  /** In the output of `escapeHtml` no `<` or `>` survives and every `&` starts an
      entity; `"` is not escaped, so the output is not safe inside a double-quoted
      attribute. */
  lemma EscapeHtmlIsSafe(s: string)
    ensures '<' !in EscapeHtml(s) && '>' !in EscapeHtml(s)
    ensures forall i :: 0 <= i < |EscapeHtml(s)| && EscapeHtml(s)[i] == '&' ==> EntityAt(EscapeHtml(s), i)
  {
    EscapedIsSafe(s);
  }

  /** The inverse: decode the three entities, keep everything else. */
  function Unescape(r: string): string
  {
    if r == [] then []
    else if StartsWith(r, "&amp;") then "&" + Unescape(r[5..])
    else if StartsWith(r, "&lt;") then "<" + Unescape(r[4..])
    else if StartsWith(r, "&gt;") then ">" + Unescape(r[4..])
    else [r[0]] + Unescape(r[1..])
  }

  lemma {:induction false} UnescapeEscaped(s: string)
    ensures Unescape(Escaped(s)) == s
  {
    if s != [] {
      UnescapeChar(s[0], Escaped(s[1..]));
      UnescapeEscaped(s[1..]);
      assert s == [s[0]] + s[1..];
    }
  }

  /** Decoding reads one escaped character back and goes on after it. */
  lemma UnescapeChar(c: char, rest: string)
    ensures Unescape(EscapeChar(c) + rest) == [c] + Unescape(rest)
  {
    if c == '&' {
      UnescapeEntity("&amp;", rest);
    } else if c == '<' {
      UnescapeEntity("&lt;", rest);
    } else if c == '>' {
      UnescapeEntity("&gt;", rest);
    } else {
      var r := [c] + rest;
      assert r[0] == c && r[1..] == rest;
      assert !StartsWith(r, "&amp;") && !StartsWith(r, "&lt;") && !StartsWith(r, "&gt;") by {
        assert r[0] != '&';
      }
    }
  }

  lemma UnescapeEntity(e: string, rest: string)
    requires e == "&amp;" || e == "&lt;" || e == "&gt;"
    ensures Unescape(e + rest) == Unescape(e) + Unescape(rest)
    ensures Unescape(e) == if e == "&amp;" then "&" else if e == "&lt;" then "<" else ">"
  {
    var r := e + rest;
    assert r[..|e|] == e && r[|e|..] == rest;
    assert e[|e|..] == [];
    if e != "&amp;" {
      assert !StartsWith(r, "&amp;") && !StartsWith(e, "&amp;") by {
        assert r[1] == e[1] != 'a';
      }
    }
    if e == "&gt;" {
      assert !StartsWith(r, "&lt;") && !StartsWith(e, "&lt;") by {
        assert r[1] == e[1] != 'l';
      }
    }
  }

  /** Escaping loses nothing: decoding the entities restores the input. */
  lemma EscapeHtmlRoundTrip(s: string)
    ensures Unescape(EscapeHtml(s)) == s
  {
    UnescapeEscaped(s);
  }
}
