/**
 * Text escaping for HTML on both sides, and the browser's decoding of it:
 * WordPress's esc_html (quotes encoded, existing entities not encoded twice) on
 * the server, and the client's escapeHtml (a text node read back as markup).
 * `Shown` is what a reader sees for an escaped string.
 */
module Html {
  import opened Base

  /** The character references this model knows, with the character each stands for. */
  function MatchEntity(s: string): Option<(string, char)> {
    if "&amp;" <= s then Some(("&amp;", '&'))
    else if "&lt;" <= s then Some(("&lt;", '<'))
    else if "&gt;" <= s then Some(("&gt;", '>'))
    else if "&quot;" <= s then Some(("&quot;", '"'))
    else if "&#039;" <= s then Some(("&#039;", '\''))
    else if "&nbsp;" <= s then Some(("&nbsp;", '\U{00A0}'))
    else None
  }

  lemma MatchEntityFacts(s: string)
    ensures MatchEntity(s).Some? ==> |s| >= 1 && s[0] == '&'
    ensures MatchEntity(s).Some? ==> 4 <= |MatchEntity(s).value.0| <= |s| && MatchEntity(s).value.0 <= s
  {
  }

  /** The browser's reading of escaped text: a known reference becomes its character, anything else stays. */
  function Shown(s: string): (r: string)
    ensures |r| <= |s|
    decreases |s|
  {
    if s == [] then []
    else
      MatchEntityFacts(s);
      match MatchEntity(s)
      case Some(e) => [e.1] + Shown(s[|e.0|..])
      case None => [s[0]] + Shown(s[1..])
  }

  /** No '&' in `s` begins a reference this model knows. */
  predicate NoEntityRefs(s: string) {
    forall i :: 0 <= i < |s| ==> MatchEntity(s[i..]) == None
  }

  /** The client's escapeHtml: &, <, > and the no-break space are encoded; quotes are not. */
  function EscapeHtml(s: string): (r: string)
    ensures |r| >= |s|
  {
    if s == [] then [] else EscapeChar(s[0]) + EscapeHtml(s[1..])
  }

  /** What escapeHtml writes for one character. */
  function EscapeChar(c: char): (r: string)
    ensures |r| >= 1
  {
    match c
    case '&' => "&amp;"
    case '<' => "&lt;"
    case '>' => "&gt;"
    case '\U{00A0}' => "&nbsp;"
    case _ => [c]
  }

  /** WordPress's esc_html: &, <, >, " and ' are encoded, except an '&' that already begins a reference. */
  function EscHtml(s: string): (r: string)
    decreases |s|
  {
    if s == [] then []
    else
      MatchEntityFacts(s);
      match MatchEntity(s)
      case Some(e) => e.0 + EscHtml(s[|e.0|..])
      case None => EncodeChar(s[0]) + EscHtml(s[1..])
  }

  /** What esc_html writes for one character that does not begin a reference. */
  function EncodeChar(c: char): (r: string)
    ensures |r| >= 1
  {
    match c
    case '&' => "&amp;"
    case '<' => "&lt;"
    case '>' => "&gt;"
    case '"' => "&quot;"
    case '\'' => "&#039;"
    case _ => [c]
  }

  /** A known reference, followed by anything, is matched as itself. */
  lemma EntityFirst(e: string, c: char, rest: string)
    requires (e, c) in {("&amp;", '&'), ("&lt;", '<'), ("&gt;", '>'), ("&quot;", '"'), ("&#039;", '\''), ("&nbsp;", '\U{00A0}')}
    ensures MatchEntity(e + rest) == Some((e, c))
  {
    var s := e + rest;
    assert s[..|e|] == e;
    assert s[1] == e[1];
    if |e| >= 3 { assert s[2] == e[2]; }
    if |e| >= 4 { assert s[3] == e[3]; }
  }

  /** A plain character (not '&') is never the start of a reference. */
  lemma PlainFirst(c: char, rest: string)
    requires c != '&'
    ensures MatchEntity([c] + rest) == None
  {
    MatchEntityFacts([c] + rest);
  }

  /** The browser shows exactly the text the client escaped. */
  lemma {:induction false} EscapeHtmlShown(s: string)
    ensures Shown(EscapeHtml(s)) == s
  {
    if s != [] {
      EscapeHtmlShown(s[1..]);
      ShownEscapedChar(s[0], EscapeHtml(s[1..]));
    }
  }

  /** The browser reads one escaped character back as that character. */
  lemma ShownEscapedChar(c: char, rest: string)
    ensures Shown(EscapeChar(c) + rest) == [c] + Shown(rest)
  {
    match c
    case '&' =>
      EntityFirst("&amp;", '&', rest);
      assert ("&amp;" + rest)[5..] == rest;
    case '<' =>
      EntityFirst("&lt;", '<', rest);
      assert ("&lt;" + rest)[4..] == rest;
    case '>' =>
      EntityFirst("&gt;", '>', rest);
      assert ("&gt;" + rest)[4..] == rest;
    case '\U{00A0}' =>
      EntityFirst("&nbsp;", '\U{00A0}', rest);
      assert ("&nbsp;" + rest)[6..] == rest;
    case _ =>
      PlainFirst(c, rest);
      assert ([c] + rest)[1..] == rest;
  }

  /** The client's output holds no markup: no '<' or '>' survives. */
  lemma {:induction false} EscapeHtmlNoTags(s: string)
    ensures forall i :: 0 <= i < |EscapeHtml(s)| ==> EscapeHtml(s)[i] != '<' && EscapeHtml(s)[i] != '>'
  {
    if s != [] {
      EscapeHtmlNoTags(s[1..]);
      var head, rest := EscapeChar(s[0]), EscapeHtml(s[1..]);
      assert forall i :: 0 <= i < |head| ==> head[i] != '<' && head[i] != '>';
      assert forall i :: |head| <= i < |head + rest| ==> (head + rest)[i] == rest[i - |head|];
    }
  }

  /** The server's output holds no markup either: esc_html leaves no '<' or '>'. */
  lemma {:induction false} EscHtmlNoTags(s: string)
    ensures forall i :: 0 <= i < |EscHtml(s)| ==> EscHtml(s)[i] != '<' && EscHtml(s)[i] != '>'
    decreases |s|
  {
    if s != [] {
      MatchEntityFacts(s);
      match MatchEntity(s)
      case Some(e) =>
        EscHtmlNoTags(s[|e.0|..]);
        EntityNoTags(s);
        NoTagsAppend(e.0, EscHtml(s[|e.0|..]));
      case None =>
        EscHtmlNoTags(s[1..]);
        EncodeCharNoTags(s[0]);
        NoTagsAppend(EncodeChar(s[0]), EscHtml(s[1..]));
    }
  }

  predicate NoTags(t: string) {
    forall i :: 0 <= i < |t| ==> t[i] != '<' && t[i] != '>'
  }

  lemma NoTagsAppend(a: string, b: string)
    requires NoTags(a) && NoTags(b)
    ensures NoTags(a + b)
  {
    assert forall i :: |a| <= i < |a + b| ==> (a + b)[i] == b[i - |a|];
  }

  lemma EntityNoTags(s: string)
    requires MatchEntity(s).Some?
    ensures NoTags(MatchEntity(s).value.0)
  {
  }

  lemma EncodeCharNoTags(c: char)
    ensures NoTags(EncodeChar(c))
  {
  }

  /** Every '&' the client writes begins a reference: the output never holds a bare ampersand. */
  lemma {:induction false} EscapeHtmlAmpersands(s: string)
    ensures forall i :: 0 <= i < |EscapeHtml(s)| && EscapeHtml(s)[i] == '&' ==> MatchEntity(EscapeHtml(s)[i..]).Some?
  {
    if s != [] {
      EscapeHtmlAmpersands(s[1..]);
      var head, rest := EscapeChar(s[0]), EscapeHtml(s[1..]);
      forall i | 0 <= i < |head + rest| && (head + rest)[i] == '&'
        ensures MatchEntity((head + rest)[i..]).Some?
      {
        if i >= |head| {
          assert (head + rest)[i..] == rest[i - |head|..];
        } else {
          EscapedAmpersand(s[0], rest, i);
        }
      }
    }
  }

  /** Within one escaped character, an '&' is the start of its reference. */
  lemma EscapedAmpersand(c: char, rest: string, i: int)
    requires 0 <= i < |EscapeChar(c)| && EscapeChar(c)[i] == '&'
    ensures MatchEntity((EscapeChar(c) + rest)[i..]).Some?
  {
    assert i == 0;
    assert (EscapeChar(c) + rest)[0..] == EscapeChar(c) + rest;
    match c
    case '&' => EntityFirst("&amp;", '&', rest);
    case '<' => EntityFirst("&lt;", '<', rest);
    case '>' => EntityFirst("&gt;", '>', rest);
    case '\U{00A0}' => EntityFirst("&nbsp;", '\U{00A0}', rest);
    case _ =>
  }

  /** For text without references, the browser shows exactly what esc_html was given. */
  lemma {:induction false} EscHtmlShown(s: string)
    requires NoEntityRefs(s)
    ensures Shown(EscHtml(s)) == s
  {
    if s != [] {
      assert MatchEntity(s[0..]) == None;
      assert s[0..] == s;
      assert NoEntityRefs(s[1..]) by {
        forall i | 0 <= i < |s[1..]| ensures MatchEntity(s[1..][i..]) == None {
          assert s[1..][i..] == s[i + 1..];
        }
      }
      EscHtmlShown(s[1..]);
      ShownEncodedChar(s[0], EscHtml(s[1..]));
    }
  }

  /** The browser reads one character esc_html encoded back as that character. */
  lemma ShownEncodedChar(c: char, rest: string)
    ensures Shown(EncodeChar(c) + rest) == [c] + Shown(rest)
  {
    match c
    case '&' =>
      EntityFirst("&amp;", '&', rest);
      assert ("&amp;" + rest)[5..] == rest;
    case '<' =>
      EntityFirst("&lt;", '<', rest);
      assert ("&lt;" + rest)[4..] == rest;
    case '>' =>
      EntityFirst("&gt;", '>', rest);
      assert ("&gt;" + rest)[4..] == rest;
    case '"' =>
      EntityFirst("&quot;", '"', rest);
      assert ("&quot;" + rest)[6..] == rest;
    case '\'' =>
      EntityFirst("&#039;", '\'', rest);
      assert ("&#039;" + rest)[6..] == rest;
    case _ =>
      PlainFirst(c, rest);
      assert ([c] + rest)[1..] == rest;
  }

  /** Escaping twice with esc_html gives what escaping once gives: nothing is encoded twice. */
  lemma {:induction false} EscHtmlIdempotent(s: string)
    ensures EscHtml(EscHtml(s)) == EscHtml(s)
    decreases |s|
  {
    if s != [] {
      MatchEntityFacts(s);
      match MatchEntity(s)
      case Some(e) =>
        EscHtmlIdempotent(s[|e.0|..]);
        EscHtmlKeepsPrefix(e.0, e.1, EscHtml(s[|e.0|..]));
      case None =>
        EscHtmlIdempotent(s[1..]);
        var rest := EscHtml(s[1..]);
        match s[0]
        case '&' => EscHtmlKeepsPrefix("&amp;", '&', rest);
        case '<' => EscHtmlKeepsPrefix("&lt;", '<', rest);
        case '>' => EscHtmlKeepsPrefix("&gt;", '>', rest);
        case '"' => EscHtmlKeepsPrefix("&quot;", '"', rest);
        case '\'' => EscHtmlKeepsPrefix("&#039;", '\'', rest);
        case _ =>
          PlainFirst(s[0], rest);
          assert ([s[0]] + rest)[1..] == rest;
          EscHtmlPlain(s[0], rest);
    }
  }

  /** esc_html passes a known reference through and carries on after it. */
  lemma EscHtmlKeepsPrefix(e: string, c: char, rest: string)
    requires (e, c) in {("&amp;", '&'), ("&lt;", '<'), ("&gt;", '>'), ("&quot;", '"'), ("&#039;", '\''), ("&nbsp;", '\U{00A0}')}
    ensures EscHtml(e + rest) == e + EscHtml(rest)
  {
    EntityFirst(e, c, rest);
    assert (e + rest)[|e|..] == rest;
  }

  /** esc_html on a plain character that it leaves alone. */
  lemma EscHtmlPlain(c: char, rest: string)
    requires c != '&' && c != '<' && c != '>' && c != '"' && c != '\''
    ensures EscHtml([c] + rest) == [c] + EscHtml(rest)
  {
    PlainFirst(c, rest);
    assert ([c] + rest)[0] == c;
    assert ([c] + rest)[1..] == rest;
  }
}
