/** HTML escaping and the `{{ … }}` template renderer of the profile viewer
    (`_render_template`), with the expression evaluator left abstract. */
module Template {
  import opened Text

  // ---------------------------------------------------------------------------
  // cgi.escape(value, quote=True)
  // ---------------------------------------------------------------------------

  /** The entity a character is written as: `&`, `<`, `>` and `"` are escaped,
      everything else (the single quote included) is kept. */
  function EscapeChar(c: char): string
  {
    if c == '&' then "&amp;"
    else if c == '<' then "&lt;"
    else if c == '>' then "&gt;"
    else if c == '"' then "&quot;"
    else [c]
  }

  function Escape(s: string): string
  {
    if s == [] then [] else EscapeChar(s[0]) + Escape(s[1..])
  }

  /** A character HTML gives a meaning to inside text or a quoted attribute. */
  predicate IsMarkup(c: char)
  {
    c == '&' || c == '<' || c == '>' || c == '"'
  }

  /** Decoding of the four entities `Escape` produces; the reference the
      escaping is checked against. */
  function Unescape(s: string): string
    decreases |s|
  {
    if s == [] then []
    else if StartsWith(s, "&amp;") then "&" + Unescape(s[5..])
    else if StartsWith(s, "&lt;") then "<" + Unescape(s[4..])
    else if StartsWith(s, "&gt;") then ">" + Unescape(s[4..])
    else if StartsWith(s, "&quot;") then "\"" + Unescape(s[6..])
    else [s[0]] + Unescape(s[1..])
  }

  lemma DiffersAt(s: string, p: string, i: nat)
    requires i < |p| && i < |s| && s[i] != p[i]
    ensures !StartsWith(s, p)
  {
    if |p| <= |s| {
      assert s[..|p|][i] == s[i];
    }
  }

  lemma UnescapeAmp(rest: string)
    ensures Unescape("&amp;" + rest) == "&" + Unescape(rest)
  {
    var s := "&amp;" + rest;
    assert s[..5] == "&amp;" && s[5..] == rest;
  }

  lemma UnescapeLt(rest: string)
    ensures Unescape("&lt;" + rest) == "<" + Unescape(rest)
  {
    var s := "&lt;" + rest;
    DiffersAt(s, "&amp;", 1);
    assert s[..4] == "&lt;" && s[4..] == rest;
  }

  lemma UnescapeGt(rest: string)
    ensures Unescape("&gt;" + rest) == ">" + Unescape(rest)
  {
    var s := "&gt;" + rest;
    DiffersAt(s, "&amp;", 1);
    DiffersAt(s, "&lt;", 1);
    assert s[..4] == "&gt;" && s[4..] == rest;
  }

  lemma UnescapeQuot(rest: string)
    ensures Unescape("&quot;" + rest) == "\"" + Unescape(rest)
  {
    var s := "&quot;" + rest;
    DiffersAt(s, "&amp;", 1);
    DiffersAt(s, "&lt;", 1);
    DiffersAt(s, "&gt;", 1);
    assert s[..6] == "&quot;" && s[6..] == rest;
  }

  lemma UnescapePlainChar(c: char, rest: string)
    requires !IsMarkup(c)
    ensures Unescape([c] + rest) == [c] + Unescape(rest)
  {
    var s := [c] + rest;
    DiffersAt(s, "&amp;", 0);
    DiffersAt(s, "&lt;", 0);
    DiffersAt(s, "&gt;", 0);
    DiffersAt(s, "&quot;", 0);
    assert s[1..] == rest;
  }

  /** Decoding reads one escaped character back off the front. */
  lemma UnescapeStep(c: char, rest: string)
    ensures Unescape(EscapeChar(c) + rest) == [c] + Unescape(rest)
  {
    if c == '&' {
      UnescapeAmp(rest);
    } else if c == '<' {
      UnescapeLt(rest);
    } else if c == '>' {
      UnescapeGt(rest);
    } else if c == '"' {
      UnescapeQuot(rest);
    } else {
      UnescapePlainChar(c, rest);
    }
  }

  /** Escaping loses nothing: decoding the entities gives back the value. */
  lemma {:induction false} UnescapeEscape(s: string)
    ensures Unescape(Escape(s)) == s
    decreases |s|
  {
    if s != [] {
      UnescapeEscape(s[1..]);
      UnescapeStep(s[0], Escape(s[1..]));
      assert [s[0]] + s[1..] == s;
    }
  }

  /** Escaped text holds no `<`, `>` or `"`, so an interpolated value can neither
      open a tag nor close the attribute it is written into. */
  lemma {:induction false} EscapeHasNoMarkup(s: string)
    ensures forall i :: 0 <= i < |Escape(s)| ==> Escape(s)[i] !in "<>\""
    decreases |s|
  {
    if s != [] {
      EscapeHasNoMarkup(s[1..]);
      var e, rest := EscapeChar(s[0]), Escape(s[1..]);
      assert Escape(s) == e + rest;
      forall i | 0 <= i < |e + rest| ensures (e + rest)[i] !in "<>\"" {
        if i >= |e| {
          assert (e + rest)[i] == rest[i - |e|];
        }
      }
    }
  }

  /** Text without markup characters is not changed by escaping. */
  lemma {:induction false} EscapePlain(s: string)
    requires '&' !in s && '<' !in s && '>' !in s && '"' !in s
    ensures Escape(s) == s
    decreases |s|
  {
    if s != [] {
      EscapePlain(s[1..]);
    }
  }

  // ---------------------------------------------------------------------------
  // re.sub(r'\{\{(.*?)\}\}', replace_placeholder, template_html)
  // ---------------------------------------------------------------------------

  /** Where the non-greedy group that starts at `k` ends: the first `}}` at or
      after `k`, provided no newline comes before it (`.` does not match '\n'). */
  function CloseAt(s: string, k: nat): (r: Option<nat>)
    decreases |s| - k
    ensures r.Some? ==> k <= r.value && r.value + 2 <= |s|
  {
    if k + 2 > |s| then None
    else if s[k] == '\n' then None
    else if s[k] == '}' && s[k + 1] == '}' then Some(k)
    else CloseAt(s, k + 1)
  }

  /** `CloseAt` finds the shortest newline-free group followed by `}}`, and finds
      nothing exactly when every `}}` after `k` has a newline before it. */
  lemma {:induction false} CloseAtIsShortestMatch(s: string, k: nat)
    ensures CloseAt(s, k).Some? ==>
              var e := CloseAt(s, k).value;
              s[e] == '}' && s[e + 1] == '}' && '\n' !in s[k..e]
              && forall j :: k <= j < e ==> !(s[j] == '}' && s[j + 1] == '}')
    ensures CloseAt(s, k).None? ==>
              forall j :: k <= j && j + 1 < |s| && s[j] == '}' && s[j + 1] == '}' ==> '\n' in s[k..j]
    decreases |s| - k
  {
    if k + 2 <= |s| && s[k] != '\n' && !(s[k] == '}' && s[k + 1] == '}') {
      CloseAtIsShortestMatch(s, k + 1);
      assert forall j :: k + 1 <= j <= |s| ==> s[k..j] == [s[k]] + s[k + 1..j];
    }
  }

  /** Render `s`: every placeholder `{{expr}}` is replaced by the escaped value
      `evaluate(expr, dict)`, all other text is copied, and the scan resumes
      after the replaced placeholder, so a value is never scanned again. */
  function Render<D>(s: string, evaluate: (string, D) -> string, dict: D): string
    decreases |s|
  {
    if |s| < 2 then s
    else if s[0] == '{' && s[1] == '{' && CloseAt(s, 2).Some? then
      var k := CloseAt(s, 2).value;
      Escape(evaluate(s[2..k], dict)) + Render(s[k + 2..], evaluate, dict)
    else [s[0]] + Render(s[1..], evaluate, dict)
  }

  /** Text where no placeholder can start: no `{{` anywhere, and no `{` at
      the end that a following `{` could pair with. */
  predicate PlainText(s: string)
  {
    && (forall i :: 0 <= i < |s| - 1 ==> !(s[i] == '{' && s[i + 1] == '{'))
    && (s == [] || s[|s| - 1] != '{')
  }

  /** A placeholder expression the pattern captures whole: no newline to
      stop the match, and no `}}` in `e + "}"` to end it early. */
  predicate SimpleExpression(e: string)
  {
    && '\n' !in e
    && (forall i :: 0 <= i < |e| - 1 ==> !(e[i] == '}' && e[i + 1] == '}'))
    && (e == [] || e[|e| - 1] != '}')
  }

  /** Text outside placeholders is copied unchanged. */
  lemma {:induction false} RenderCopiesText<D>(a: string, b: string, evaluate: (string, D) -> string, dict: D)
    requires PlainText(a)
    ensures Render(a + b, evaluate, dict) == a + Render(b, evaluate, dict)
    decreases |a|
  {
    if a == [] {
      assert a + b == b;
    } else if |a + b| < 2 {
      assert b == [] && a + b == a;
    } else {
      SplitHead(a, b);
      RenderAtText(a + b, evaluate, dict);
      RenderCopiesText(a[1..], b, evaluate, dict);
      SplitHead(a, Render(b, evaluate, dict));
    }
  }

  lemma SplitHead(a: string, b: string)
    requires a != []
    ensures (a + b)[0] == a[0] && (a + b)[1..] == a[1..] + b
    ensures [a[0]] + (a[1..] + b) == a + b
  {
  }

  lemma {:induction false} CloseAtSimple(e: string, b: string, k: nat)
    requires k <= |e| && SimpleExpression(e[k..])
    ensures CloseAt("{{" + e + "}}" + b, k + 2) == Some(|e| + 2)
    decreases |e| - k
  {
    var s := "{{" + e + "}}" + b;
    assert s[|e| + 2] == '}' && s[|e| + 3] == '}';
    if k < |e| {
      assert s[k + 2] == e[k];
      assert e[k..][1..] == e[k + 1..];
      CloseAtSimple(e, b, k + 1);
    }
  }

  /** A placeholder is replaced by the escaped value of its expression, and
      rendering carries on right after it. */
  lemma RenderPlaceholder<D>(e: string, b: string, evaluate: (string, D) -> string, dict: D)
    requires SimpleExpression(e)
    ensures Render("{{" + e + "}}" + b, evaluate, dict)
            == Escape(evaluate(e, dict)) + Render(b, evaluate, dict)
  {
    var s := "{{" + e + "}}" + b;
    assert e[0..] == e;
    CloseAtSimple(e, b, 0);
    assert s[2..|e| + 2] == e;
    assert s[|e| + 4..] == b;
  }

  lemma {:induction false} CloseAtNewline(h: string, r: string, k: nat)
    requires k <= |h|
    ensures CloseAt(h + "\n" + r, k) == CloseAt(h, k)
    decreases |h| - k
  {
    var s := h + "\n" + r;
    if k + 2 <= |h| {
      assert s[k] == h[k] && s[k + 1] == h[k + 1];
      CloseAtNewline(h, r, k + 1);
    } else if k + 1 == |h| {
      assert s[k] == h[k] && s[k + 1] == '\n';
      if s[k] != '\n' {
        assert CloseAt(s, k + 1) == None;
      }
    } else {
      assert s[k] == '\n';
    }
  }

  /** A match never spans a line break, so a template renders line by line. */
  lemma {:induction false} RenderNewlineSplit<D>(h: string, r: string, evaluate: (string, D) -> string, dict: D)
    ensures Render(h + "\n" + r, evaluate, dict)
            == Render(h, evaluate, dict) + "\n" + Render(r, evaluate, dict)
    decreases |h|
  {
    var s := h + "\n" + r;
    if |h| >= 2 {
      CloseAtNewline(h, r, 2);
      assert s[0] == h[0] && s[1] == h[1];
      if h[0] == '{' && h[1] == '{' && CloseAt(h, 2).Some? {
        var k := CloseAt(h, 2).value;
        RenderNewlineSplitPlaceholder(h, r, k, evaluate, dict);
      } else {
        RenderNewlineSplitCopy(h, r, evaluate, dict);
      }
    } else if |h| == 1 {
      assert s[1] == '\n' && s[1..] == "\n" + r;
      RenderNewlineSplit(h[1..], r, evaluate, dict);
      assert h[1..] + "\n" + r == "\n" + r;
    } else {
      assert s == "\n" + r;
      if r != [] {
        assert s[1..] == r;
      }
    }
  }

  /** One step of `Render` at a placeholder. */
  lemma RenderAtPlaceholder<D>(s: string, k: nat, evaluate: (string, D) -> string, dict: D)
    requires |s| >= 2 && s[0] == '{' && s[1] == '{' && CloseAt(s, 2) == Some(k)
    ensures Render(s, evaluate, dict) == Escape(evaluate(s[2..k], dict)) + Render(s[k + 2..], evaluate, dict)
  {
  }

  /** One step of `Render` at a character that does not start a placeholder. */
  lemma RenderAtText<D>(s: string, evaluate: (string, D) -> string, dict: D)
    requires |s| >= 2 && !(s[0] == '{' && s[1] == '{' && CloseAt(s, 2).Some?)
    ensures Render(s, evaluate, dict) == [s[0]] + Render(s[1..], evaluate, dict)
  {
  }

  lemma JoinLines(v: string, rest: string, tail: string)
    ensures v + (rest + "\n" + tail) == (v + rest) + "\n" + tail
  {
  }

  /** Slices of `h + "\n" + r` that lie in `h` or start in it. */
  lemma SliceAroundNewline(h: string, r: string, i: nat, k: nat)
    requires 2 <= i <= k <= |h| - 2
    ensures (h + "\n" + r)[0] == h[0] && (h + "\n" + r)[1] == h[1]
    ensures (h + "\n" + r)[i..k] == h[i..k]
    ensures (h + "\n" + r)[k + 2..] == h[k + 2..] + "\n" + r
  {
  }

  lemma {:induction false} RenderNewlineSplitPlaceholder<D>(h: string, r: string, k: nat, evaluate: (string, D) -> string, dict: D)
    requires |h| >= 2 && h[0] == '{' && h[1] == '{' && CloseAt(h, 2) == Some(k)
    requires CloseAt(h + "\n" + r, 2) == Some(k)
    ensures Render(h + "\n" + r, evaluate, dict)
            == Render(h, evaluate, dict) + "\n" + Render(r, evaluate, dict)
    decreases |h|, 0
  {
    var s := h + "\n" + r;
    SliceAroundNewline(h, r, 2, k);
    RenderAtPlaceholder(s, k, evaluate, dict);
    RenderAtPlaceholder(h, k, evaluate, dict);
    RenderNewlineSplit(h[k + 2..], r, evaluate, dict);
    JoinLines(Escape(evaluate(h[2..k], dict)), Render(h[k + 2..], evaluate, dict), Render(r, evaluate, dict));
  }

  lemma {:induction false} RenderNewlineSplitCopy<D>(h: string, r: string, evaluate: (string, D) -> string, dict: D)
    requires |h| >= 2 && !(h[0] == '{' && h[1] == '{' && CloseAt(h, 2).Some?)
    requires CloseAt(h + "\n" + r, 2) == CloseAt(h, 2)
    ensures Render(h + "\n" + r, evaluate, dict)
            == Render(h, evaluate, dict) + "\n" + Render(r, evaluate, dict)
    decreases |h|, 0
  {
    var s := h + "\n" + r;
    assert s[0] == h[0] && s[1] == h[1];
    RenderAtText(s, evaluate, dict);
    RenderAtText(h, evaluate, dict);
    assert s[1..] == h[1..] + "\n" + r;
    RenderNewlineSplit(h[1..], r, evaluate, dict);
    JoinLines([h[0]], Render(h[1..], evaluate, dict), Render(r, evaluate, dict));
  }

  // ---------------------------------------------------------------------------
  // The viewer page
  // ---------------------------------------------------------------------------

  /** The names the viewer template's expressions are evaluated against. */
  datatype TemplateDict = TemplateDict(params: map<string, string>, statsDump: string)

  /** The expression of the statistics placeholder. */
  const StatsDumpExpression: string := " stats_dump "

  /** Everything of the viewer template up to the line with the statistics. */
  const ViewerHead: string :=
    "<!doctype html>\n"
    + "<html>\n"
    + "  <head>\n"
    + "    <meta charset=\"UTF-8\">\n"
    + "    <title>WSGI Profiler</title>\n"
    + "  </head>\n"
    + "  <body>\n"
    + "    <div style=\"float: right; border: 1px solid #444; margin: 8px; padding: 4px\">\n"
    + "      <a href=\"/__profile__/tree.png?request_id={{ params.get('request_id', '') }}&amp;request_path_prefix={{ params.get('request_path_prefix', '') }}\"><img src=\"/__profile__/tree.png?request_id={{ params.get('request_id', '') }}&amp;request_path_prefix={{ params.get('request_path_prefix', '') }}\" style=\"width: 300px\"></a>\n"
    + "    </div>\n"
    + "    <form method=\"GET\" action=\"/__profile__/\">\n"
    + "      <table>\n"
    + "        <tbody>\n"
    + "          <tr>\n"
    + "            <td>Request ID:</td>\n"
    + "            <td><input type=\"text\" name=\"request_id\" value=\"{{ params.get('request_id', '') }}\" placeholder=\"\"></td>\n"
    + "          </tr>\n"
    + "          <tr>\n"
    + "            <td>Request path prefix:</td>\n"
    + "            <td><input type=\"text\" name=\"request_path_prefix\" value=\"{{ params.get('request_path_prefix', '') }}\" placeholder=\"/\"></td>\n"
    + "          </tr>\n"
    + "          <tr>\n"
    + "            <td>Sort order:</td>\n"
    + "            <td>\n"
    + "              <select name=\"sort\">\n"
    + "                <option value=\"cumtime\" {{ 'selected=selected' if params.get('sort', 'cumtime') == 'cumtime' else ''}}>cumulative time</option>\n"
    + "                <option value=\"filename\" {{ 'selected=selected' if params.get('sort', 'cumtime') == 'filename' else '' }}>file name</option>\n"
    + "                <option value=\"ncalls\" {{ 'selected=selected' if params.get('sort', 'cumtime') == 'ncalls' else '' }}>call count</option>\n"
    + "                <option value=\"pcalls\" {{ 'selected=selected' if params.get('sort', 'cumtime') == 'pcalls' else '' }}>primitive call count</option>\n"
    + "                <option value=\"line\" {{ 'selected=selected' if params.get('sort', 'cumtime') == 'line' else '' }}>line number</option>\n"
    + "                <option value=\"name\" {{ 'selected=selected' if params.get('sort', 'cumtime') == 'name' else '' }}>function name</option>\n"
    + "                <option value=\"nfl\" {{ 'selected=selected' if params.get('sort', 'cumtime') == 'nfl' else '' }}>name/file/line</option>\n"
    + "                <option value=\"stdname\" {{ 'selected=selected' if params.get('sort', 'cumtime') == 'stdname' else '' }}>standard name</option>\n"
    + "                <option value=\"tottime\" {{ 'selected=selected' if params.get('sort', 'cumtime') == 'tottime' else '' }}>internal time</option>\n"
    + "              </select>\n"
    + "            </td>\n"
    + "          </tr>\n"
    + "        </tbody>\n"
    + "      </table>\n"
    + "      <input type=\"submit\" value=\"Refresh\">\n"
    + "    </form>"

  const PreOpen: string := "    <pre>"

  const PageClose: string := "</pre>\n" + "  </body>\n" + "</html>\n"

  /** The line with the statistics placeholder and the end of the page. */
  const ViewerTail: string := PreOpen + ("{{" + StatsDumpExpression + "}}" + PageClose)

  /** A page made of `head` and the statistics line. */
  function WithStatsLine(head: string): string
  {
    head + "\n" + ViewerTail
  }

  /** The viewer page template. */
  const ViewerTemplate: string := WithStatsLine(ViewerHead)

  lemma RenderEmpty<D>(evaluate: (string, D) -> string, dict: D)
    ensures Render([], evaluate, dict) == []
  {
  }

  /** A line holding one placeholder between two pieces of plain text. */
  lemma RenderOnePlaceholder<D>(pre: string, e: string, post: string, evaluate: (string, D) -> string, dict: D)
    requires PlainText(pre) && SimpleExpression(e) && PlainText(post)
    ensures Render(pre + ("{{" + e + "}}" + post), evaluate, dict)
            == pre + Escape(evaluate(e, dict)) + post
  {
    RenderCopiesText(pre, "{{" + e + "}}" + post, evaluate, dict);
    RenderPlaceholderThenText(e, post, evaluate, dict);
  }

  /** A placeholder followed by plain text to the end. */
  lemma RenderPlaceholderThenText<D>(e: string, post: string, evaluate: (string, D) -> string, dict: D)
    requires SimpleExpression(e) && PlainText(post)
    ensures Render("{{" + e + "}}" + post, evaluate, dict) == Escape(evaluate(e, dict)) + post
  {
    RenderPlaceholder(e, post, evaluate, dict);
    RenderAllText(post, evaluate, dict);
  }

  /** Plain text renders as itself. */
  lemma RenderAllText<D>(a: string, evaluate: (string, D) -> string, dict: D)
    requires PlainText(a)
    ensures Render(a, evaluate, dict) == a
  {
    RenderEmpty(evaluate, dict);
    RenderCopiesText(a, [], evaluate, dict);
    assert a + [] == a;
  }

  lemma PageCloseIsText()
    ensures PlainText(PageClose)
  {
  }

  /** The line with the statistics renders as the escaped dump inside `<pre>`. */
  lemma ViewerTailRenders(evaluate: (string, TemplateDict) -> string, dict: TemplateDict)
    ensures Render(ViewerTail, evaluate, dict)
            == PreOpen + Escape(evaluate(StatsDumpExpression, dict)) + PageClose
  {
    assert PlainText(PreOpen);
    assert SimpleExpression(StatsDumpExpression);
    PageCloseIsText();
    RenderOnePlaceholder(PreOpen, StatsDumpExpression, PageClose, evaluate, dict);
  }

  /** A page ending in the statistics line ends with the escaped statistics
      dump inside `<pre>`, whatever the placeholders above it render to. */
  lemma StatsLineRenders(head: string, evaluate: (string, TemplateDict) -> string, dict: TemplateDict)
    ensures Render(WithStatsLine(head), evaluate, dict)
            == Render(head, evaluate, dict) + "\n" + PreOpen
               + Escape(evaluate(StatsDumpExpression, dict)) + PageClose
  {
    RenderNewlineSplit(head, ViewerTail, evaluate, dict);
    ViewerTailRenders(evaluate, dict);
  }
}
