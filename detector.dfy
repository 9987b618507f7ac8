/**
 * Deciding whether one parsed node is executable and, if so, what source text
 * it carries (`startswith` and `getExecutableContents` in lib/markscript.js).
 */
module Detector {
  import opened Wrappers
  import opened JsStrings

  /** A node of the parsed document: its kind `t`, info string, raw text and children. */
  datatype Node = Node(t: string, info: string, content: string, children: seq<Node>)

  const HtmlBlock: string := "HtmlBlock"
  const FencedCode: string := "FencedCode"

  /** The literal an executable `<script>` block must start with, once trimmed. */
  const ScriptTagPrefix: string := "<script type=\"text/markscript\""

  /** The info strings of fenced blocks that are run (compared case-sensitively). */
  const JsInfoStrings: seq<string> := ["", "js", "javascript"]

  /** `startswith(str, prefix)`, written as `str.indexOf(prefix) === 0`. */
  function StartsWith(str: string, prefix: string): (b: bool)
    ensures b <==> prefix <= str
  {
    assert prefix <= str ==> IsAt(str, prefix, 0);
    IndexOf(str, prefix) == 0
  }

  /** The body of a trimmed `<script type="text/markscript" ...>...</...>` block, if it is one. */
  function ScriptTagContents(content: string): Option<string> {
    if StartsWith(content, ScriptTagPrefix) then
      var start := IndexOf(content, ">") + 1;
      var end := LastIndexOf(content, "</");
      if start > 0 && end > 0 then Some(Slice(content, start, end)) else None
    else
      None
  }

  /** `getExecutableContents(node)`: the code to run for `node`, or `None` for `null`. */
  function GetExecutableContents(node: Node): (r: Option<string>)
    ensures node.t != HtmlBlock && node.t != FencedCode ==> r == None
    ensures node.t == FencedCode ==>
              r == if node.info == "" || node.info == "js" || node.info == "javascript"
                   then Some(node.content) else None
    ensures node.t == HtmlBlock && r.Some? ==> ScriptTagPrefix <= Trim(node.content)
  {
    var script := if node.t == HtmlBlock then ScriptTagContents(Trim(node.content)) else None;
    if script.Some? then script
    else if node.t == FencedCode && node.info in JsInfoStrings then Some(node.content)
    else None
  }

  /** Once the prefix matched, `lastIndexOf('</') > 0` is the same as `</` occurring at all. */
  lemma ClosingTagFound(content: string)
    requires ScriptTagPrefix <= content
    ensures LastIndexOf(content, "</") > 0 <==> Occurs(content, "</")
  {
    assert content[1] == 's';
    assert !IsAt(content, "</", 0);
  }

  /** An HTML block runs exactly when its trimmed text has the prefix, a `>` and a `</`. */
  lemma HtmlBlockRule(node: Node)
    requires node.t == HtmlBlock
    ensures GetExecutableContents(node).Some? <==>
              var c := Trim(node.content);
              ScriptTagPrefix <= c && Occurs(c, ">") && Occurs(c, "</")
  {
    var c := Trim(node.content);
    if ScriptTagPrefix <= c {
      ClosingTagFound(c);
    }
  }

  /** What a trimmed script text yields: the text between its first `>` and its last `</`. */
  lemma ScriptTagExtraction(c: string, open: nat, close: nat)
    requires ScriptTagPrefix <= c
    requires IsAt(c, ">", open) && (forall j :: 0 <= j < open ==> !IsAt(c, ">", j))
    requires IsAt(c, "</", close) && (forall j :: close < j ==> !IsAt(c, "</", j))
    ensures ScriptTagContents(c) == Some(if open < close then c[open + 1..close] else [])
  {
    IndexOfIs(c, ">", open);
    LastIndexOfIs(c, "</", close);
    ClosingTagFound(c);
    assert StartsWith(c, ScriptTagPrefix);
    assert ScriptTagContents(c) == Some(Slice(c, open + 1, close));
    if open < close {
      assert Slice(c, open + 1, close) == c[open + 1..close];
    } else {
      assert Slice(c, open + 1, close) == [];
    }
  }

  /** What an executable HTML block yields: the text between the first `>` and the last `</` of its trimmed text. */
  lemma HtmlBlockExtraction(node: Node, open: nat, close: nat)
    requires node.t == HtmlBlock
    requires var c := Trim(node.content);
             ScriptTagPrefix <= c
             && IsAt(c, ">", open) && (forall j :: 0 <= j < open ==> !IsAt(c, ">", j))
             && IsAt(c, "</", close) && (forall j :: close < j ==> !IsAt(c, "</", j))
    ensures var c := Trim(node.content);
            GetExecutableContents(node) == Some(if open < close then c[open + 1..close] else [])
  {
    ScriptTagExtraction(Trim(node.content), open, close);
  }

  /** In `a + ">" + b` with no `>` in `a`, the first `>` is the one after `a`. */
  lemma FirstGreaterThan(a: string, b: string)
    requires '>' !in a
    ensures IsAt(a + ">" + b, ">", |a|)
    ensures forall j :: 0 <= j < |a| ==> !IsAt(a + ">" + b, ">", j)
  {
    var s := a + ">" + b;
    forall j | 0 <= j < |a| ensures !IsAt(s, ">", j) {
      assert s[j] == a[j];
    }
  }

  /** In `a + "</" + r` with no `<` in `r`, the last `</` is the one after `a`. */
  lemma LastClosing(a: string, r: string)
    requires '<' !in r
    ensures IsAt(a + "</" + r, "</", |a|)
    ensures forall j :: |a| < j ==> !IsAt(a + "</" + r, "</", j)
  {
    var s := a + "</" + r;
    assert s[|a|..|a| + 2] == "</";
    forall j | |a| < j ensures !IsAt(s, "</", j) {
      if j + 2 <= |s| {
        if j == |a| + 1 {
          assert s[j] == '/';
        } else {
          assert s[j] == r[j - |a| - 2];
        }
      }
    }
  }

  /** A trimmed text made of an opening tag, a body and a closing tag yields exactly the body. */
  lemma TagBody(opening: string, body: string, closeRest: string)
    requires ScriptTagPrefix <= opening
    requires '>' !in opening
    requires '<' !in closeRest
    ensures ScriptTagContents(opening + ">" + body + "</" + closeRest) == Some(body)
  {
    var upToClose := opening + ">" + body;
    var tag := upToClose + "</" + closeRest;
    assert tag == opening + ">" + (body + "</" + closeRest);
    FirstGreaterThan(opening, body + "</" + closeRest);
    LastClosing(upToClose, closeRest);
    IndexOfIs(tag, ">", |opening|);
    LastIndexOfIs(tag, "</", |upToClose|);
    assert ScriptTagPrefix <= tag by {
      assert tag[..|opening|] == opening;
    }
    assert StartsWith(tag, ScriptTagPrefix);
    assert Slice(tag, |opening| + 1, |upToClose|) == body by {
      assert tag[|opening| + 1..|upToClose|] == body;
    }
  }

  /** The trimmed text of a well-formed script block yields exactly its body. */
  lemma ScriptTagBody(attrs: string, body: string, closeRest: string)
    requires '>' !in attrs
    requires '<' !in closeRest
    ensures ScriptTagContents(ScriptTagPrefix + attrs + ">" + body + "</" + closeRest) == Some(body)
  {
    var opening := ScriptTagPrefix + attrs;
    assert '>' !in opening by {
      assert '>' !in ScriptTagPrefix;
    }
    TagBody(opening, body, closeRest);
  }

  /**
   * A well-formed script block runs, and yields exactly its body: extra attributes
   * after `type` (without `>`), any end tag after `</` that holds no `<`,
   * surrounding whitespace, and `>` or `</` inside the body do not change that.
   */
  lemma WellFormedScriptTag(node: Node, lead: string, attrs: string, body: string, closeRest: string, trail: string)
    requires node.t == HtmlBlock
    requires node.content == lead + ScriptTagPrefix + attrs + ">" + body + "</" + closeRest + trail
    requires AllWhitespace(lead) && AllWhitespace(trail)
    requires '>' !in attrs
    requires '<' !in closeRest
    requires closeRest == [] || !IsWhitespace(closeRest[|closeRest| - 1])
    ensures GetExecutableContents(node) == Some(body)
  {
    var tag := ScriptTagPrefix + attrs + ">" + body + "</" + closeRest;
    assert node.content == lead + tag + trail;
    assert tag[0] == '<';
    assert tag[|tag| - 1] == if closeRest == [] then '/' else closeRest[|closeRest| - 1];
    TrimOf(lead, tag, trail);
    ScriptTagBody(attrs, body, closeRest);
  }

  /** An HTML block whose trimmed text lacks the exact prefix never runs. */
  lemma WithoutPrefixNotExecutable(node: Node)
    requires node.t == HtmlBlock
    requires !(ScriptTagPrefix <= Trim(node.content))
    ensures GetExecutableContents(node) == None
  {
  }
}
