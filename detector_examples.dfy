/**
 * The hidden-script cases of the repository's tests (a `<script>` block that
 * defines `x`), as instances of the detector's lemmas. Each lemma takes the
 * block's text, written as a concatenation of the pieces the test varies.
 */
module DetectorExamples {
  import opened Wrappers
  import opened JsStrings
  import opened Detector

  const Body: string := "var deadbeef, x = 4;"

  /** Trimming leaves a text that starts with `<` and ends with `>` as it is. */
  lemma TrimTag(c: string)
    requires |c| > 0 && c[0] == '<' && c[|c| - 1] == '>'
    ensures Trim(c) == c
  {
    assert "" + c + "" == c;
    TrimOf("", c, "");
  }

  lemma PlainScriptTagRuns(node: Node)
    requires node.t == HtmlBlock && node.content == ScriptTagPrefix + ">" + Body + "</script>"
    ensures GetExecutableContents(node) == Some(Body)
  {
    WellFormedScriptTag(node, "", "", Body, "script>", "");
  }

  lemma ExtraAttributeRuns(node: Node)
    requires node.t == HtmlBlock && node.content == ScriptTagPrefix + " anotherAttr=\"foo\">" + Body + "</script>"
    ensures GetExecutableContents(node) == Some(Body)
  {
    WellFormedScriptTag(node, "", " anotherAttr=\"foo\"", Body, "script>", "");
  }

  lemma TabsInEndTagRun(node: Node)
    requires node.t == HtmlBlock && node.content == ScriptTagPrefix + ">" + Body + "</script\t\t>"
    ensures GetExecutableContents(node) == Some(Body)
  {
    WellFormedScriptTag(node, "", "", Body, "script\t\t>", "");
  }

  lemma LeadingSpacesRun(node: Node)
    requires node.t == HtmlBlock && node.content == "  " + ScriptTagPrefix + ">" + Body + "</script>\n"
    ensures GetExecutableContents(node) == Some(Body)
  {
    WellFormedScriptTag(node, "  ", "", Body, "script>", "\n");
  }

  /** A tag-shaped text that differs from the prefix within the prefix's length does not start with it, even once trimmed. */
  lemma DiffersFromPrefix(c: string, i: nat)
    requires |c| > 0 && c[0] == '<' && c[|c| - 1] == '>'
    requires i < |ScriptTagPrefix| && i < |c| && c[i] != ScriptTagPrefix[i]
    ensures !(ScriptTagPrefix <= Trim(c))
  {
    NotPrefix(ScriptTagPrefix, c, i);
    TrimTag(c);
  }

  lemma NotPrefix(p: string, c: string, i: nat)
    requires i < |p| && i < |c| && c[i] != p[i]
    ensures !(p <= c)
  {
  }

  const WrongType: string := "<script type=\"text/" + "fooscript\">" + Body + "</script>"
  const AttributeBeforeType: string := "<script " + "foo=\"bar\" type=\"text/markscript\">" + Body + "</script>"

  lemma WrongTypeLacksPrefix(c: string)
    requires c == WrongType
    ensures !(ScriptTagPrefix <= Trim(c))
  {
    var head, rest := "<script type=\"text/", "fooscript\">" + Body + "</script>";
    assert |head| == 19 && head[0] == '<' && rest[0] == 'f';
    assert c == head + rest;
    assert c[0] == '<' && c[19] == 'f';
    DiffersFromPrefix(c, 19);
  }

  lemma WrongTypeDoesNotRun(node: Node)
    requires node.t == HtmlBlock && node.content == WrongType
    ensures GetExecutableContents(node) == None
  {
    WrongTypeLacksPrefix(node.content);
    WithoutPrefixNotExecutable(node);
  }

  lemma AttributeBeforeTypeLacksPrefix(c: string)
    requires c == AttributeBeforeType
    ensures !(ScriptTagPrefix <= Trim(c))
  {
    var head, rest := "<script ", "foo=\"bar\" type=\"text/markscript\">" + Body + "</script>";
    assert |head| == 8 && head[0] == '<' && rest[0] == 'f';
    assert c == head + rest;
    assert c[0] == '<' && c[8] == 'f';
    DiffersFromPrefix(c, 8);
  }

  lemma AttributeBeforeTypeDoesNotRun(node: Node)
    requires node.t == HtmlBlock && node.content == AttributeBeforeType
    ensures GetExecutableContents(node) == None
  {
    AttributeBeforeTypeLacksPrefix(node.content);
    WithoutPrefixNotExecutable(node);
  }
}
