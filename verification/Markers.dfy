/** The marker that GovFlow writes into every Jira comment, and the text that a search sees. */
module Markers {

  import opened Text

  /** A node of the Atlassian Document Format, as the flattening sees it: a node with a text, a
      node with children, or one with neither (also an absent one). */
  datatype Node = TextNode(text: string) | Branch(content: seq<Node>) | Blank

  function BuildExecutionStepMarker(executionStepId: string): string {
    "GovFlow executionStepId: " + executionStepId
  }

  function Join(lines: seq<string>, separator: string): string {
    if |lines| == 0 then ""
    else if |lines| == 1 then lines[0]
    else lines[0] + separator + Join(lines[1..], separator)
  }

  function BuildGovFlowJiraComment(comment: string, executionId: string, executionStepId: string): string {
    Join([Trim(comment), "", BuildExecutionStepMarker(executionStepId), "GovFlow executionId: " + executionId], "\n")
  }

  /** A document with one paragraph with one text node. */
  function BuildJiraCommentBody(text: string): Node {
    Branch([Branch([TextNode(text)])])
  }

  /** Flatten a document: a node with a text is that text, otherwise its children in order. */
  function ExtractAdfPlainText(node: Node): string
    decreases node, 1
  {
    match node
    case TextNode(text) => text
    case Branch(content) => ExtractAll(content)
    case Blank => ""
  }

  function ExtractAll(nodes: seq<Node>): string
    decreases nodes, 0
  {
    if |nodes| == 0 then "" else ExtractAdfPlainText(nodes[0]) + ExtractAll(nodes[1..])
  }

  /** Flattening undoes the wrapping of a comment text. */
  lemma FlattenUndoesBuild(text: string)
    ensures ExtractAdfPlainText(BuildJiraCommentBody(text)) == text
  {
    assert [TextNode(text)][1..] == [] && [Branch([TextNode(text)])][1..] == [];
    assert ExtractAll([TextNode(text)]) == text + "";
    assert ExtractAll([Branch([TextNode(text)])]) == text + "" + "";
  }

  /** The text runs of a document, left to right. */
  function Runs(node: Node): seq<string>
    decreases node, 1
  {
    match node
    case TextNode(text) => [text]
    case Branch(content) => RunsOfAll(content)
    case Blank => []
  }

  function RunsOfAll(nodes: seq<Node>): seq<string>
    decreases nodes, 0
  {
    if |nodes| == 0 then [] else Runs(nodes[0]) + RunsOfAll(nodes[1..])
  }

  lemma {:induction false} JoinAppends(xs: seq<string>, ys: seq<string>)
    ensures Join(xs + ys, "") == Join(xs, "") + Join(ys, "")
  {
    if |xs| == 0 {
      assert xs + ys == ys;
    } else if |xs| == 1 && ys == [] {
      assert xs + ys == xs;
    } else {
      assert (xs + ys)[1..] == xs[1..] + ys;
      JoinAppends(xs[1..], ys);
    }
  }

  /** The flattened text does not depend on how the text runs are nested. */
  lemma {:induction false} FlattenIgnoresNesting(node: Node)
    ensures ExtractAdfPlainText(node) == Join(Runs(node), "")
    decreases node, 1
  {
    match node
    case TextNode(text) =>
    case Branch(content) => FlattenAllIgnoresNesting(content);
    case Blank =>
  }

  lemma {:induction false} FlattenAllIgnoresNesting(nodes: seq<Node>)
    ensures ExtractAll(nodes) == Join(RunsOfAll(nodes), "")
    decreases nodes, 0
  {
    if |nodes| > 0 {
      FlattenIgnoresNesting(nodes[0]);
      FlattenAllIgnoresNesting(nodes[1..]);
      JoinAppends(Runs(nodes[0]), RunsOfAll(nodes[1..]));
    }
  }

  predicate NewlineFree(s: string) {
    '\n' !in s
  }

  /** An occurrence of a newline-free text lies between two newlines. */
  lemma OccursWithinLine(s: string, needle: string, i: int, k: int)
    requires OccursAt(s, needle, i) && NewlineFree(needle)
    requires 0 <= k < |s| && s[k] == '\n'
    ensures k < i || i + |needle| <= k
  {
    assert forall j :: i <= j < i + |needle| ==> s[j] == s[i..i + |needle|][j - i];
    assert forall j :: 0 <= j < |needle| ==> needle[j] in needle;
  }

  /** The comment as two lines of the user's text, the marker line and the execution line. */
  lemma CommentLayout(comment: string, executionId: string, a: string)
    ensures BuildGovFlowJiraComment(comment, executionId, a) ==
      Before(comment) + BuildExecutionStepMarker(a) + After(executionId)
    ensures BuildGovFlowJiraComment(comment, executionId, a) ==
      "" + Trim(comment) + ("\n\n" + BuildExecutionStepMarker(a) + After(executionId))
  {
    var c, m, l := Trim(comment), BuildExecutionStepMarker(a), "GovFlow executionId: " + executionId;
    assert [c, "", m, l][1..] == ["", m, l] && ["", m, l][1..] == [m, l] && [m, l][1..] == [l];
    assert Join([m, l], "\n") == m + "\n" + l;
    assert Join(["", m, l], "\n") == "\n" + (m + "\n" + l);
    assert Join([c, "", m, l], "\n") == c + "\n" + ("\n" + (m + "\n" + l));
    assert "\n\n" == "\n" + "\n";
    ConcatRegroups(c, "\n", m, "\n", l);
  }

  lemma ConcatRegroups(a: string, b: string, c: string, d: string, e: string)
    ensures a + b + (b + (c + d + e)) == (a + (b + b)) + c + (d + e)
    ensures a + b + (b + (c + d + e)) == "" + a + ((b + b) + c + (d + e))
  {
  }

  /** What precedes and what follows the marker in a comment. */
  function Before(comment: string): string {
    Trim(comment) + "\n\n"
  }

  function After(executionId: string): string {
    "\n" + ("GovFlow executionId: " + executionId)
  }

  lemma OccursInPart(before: string, part: string, after: string, needle: string, i: int)
    requires |before| <= i && i + |needle| <= |before| + |part|
    ensures OccursAt(before + part + after, needle, i) <==> OccursAt(part, needle, i - |before|)
  {
    assert (before + part + after)[i..i + |needle|] == part[i - |before|..i - |before| + |needle|];
  }

  /** Where the marker of step `b` can occur in the comment of step `a`: in the user's own text,
      or as the marker line itself. */
  lemma WhereMarkerOccurs(comment: string, executionId: string, a: string, b: string, i: int)
    requires |a| == |b| == |executionId|
    requires NewlineFree(a) && NewlineFree(b) && NewlineFree(executionId)
    requires OccursAt(BuildGovFlowJiraComment(comment, executionId, a), BuildExecutionStepMarker(b), i)
    ensures a == b || OccursAt(Trim(comment), BuildExecutionStepMarker(b), i)
  {
    var c, m, needle := Trim(comment), BuildExecutionStepMarker(a), BuildExecutionStepMarker(b);
    var text := BuildGovFlowJiraComment(comment, executionId, a);
    CommentLayout(comment, executionId, a);
    assert text[|c|] == text[|c| + 1] == text[|c| + 2 + |m|] == '\n';
    OccursWithinLine(text, needle, i, |c|);
    OccursWithinLine(text, needle, i, |c| + 1);
    OccursWithinLine(text, needle, i, |c| + 2 + |m|);
    if i + |needle| <= |c| {
      OccursInPart("", c, "\n\n" + m + After(executionId), needle, i);
    } else {
      assert i == |c| + 2;
      OccursInPart(Before(comment), m, After(executionId), needle, i);
      assert m == needle;
      assert a == m[25..] && b == needle[25..];
    }
  }

  /** The marker line of step `a` contains the marker of `a`. */
  lemma MarkerOccurs(comment: string, executionId: string, a: string)
    ensures Includes(BuildGovFlowJiraComment(comment, executionId, a), BuildExecutionStepMarker(a))
  {
    var m := BuildExecutionStepMarker(a);
    CommentLayout(comment, executionId, a);
    assert m[0..|m|] == m;
    OccursInPart(Before(comment), m, After(executionId), m, |Before(comment)|);
    assert OccursAt(BuildGovFlowJiraComment(comment, executionId, a), m, |Before(comment)|);
  }

  /** So does whatever the user wrote. */
  lemma UserTextOccurs(comment: string, executionId: string, a: string, needle: string)
    requires Includes(Trim(comment), needle)
    ensures Includes(BuildGovFlowJiraComment(comment, executionId, a), needle)
  {
    CommentLayout(comment, executionId, a);
    var i :| OccursAt(Trim(comment), needle, i);
    OccursInPart("", Trim(comment), "\n\n" + BuildExecutionStepMarker(a) + After(executionId), needle, i);
    assert OccursAt(BuildGovFlowJiraComment(comment, executionId, a), needle, i);
  }

  /** The comment of step `a`, wrapped and flattened back, contains the marker of step `b` exactly
      if `a` and `b` are the same step or the user's own text contains that marker. */
  lemma MarkerIdentifiesStep(comment: string, executionId: string, a: string, b: string)
    requires |a| == |b| == |executionId|
    requires NewlineFree(a) && NewlineFree(b) && NewlineFree(executionId)
    ensures
      Includes(
        ExtractAdfPlainText(BuildJiraCommentBody(BuildGovFlowJiraComment(comment, executionId, a))),
        BuildExecutionStepMarker(b))
      <==>
      a == b || Includes(Trim(comment), BuildExecutionStepMarker(b))
  {
    var text, needle := BuildGovFlowJiraComment(comment, executionId, a), BuildExecutionStepMarker(b);
    FlattenUndoesBuild(text);
    if Includes(text, needle) {
      var i :| OccursAt(text, needle, i);
      WhereMarkerOccurs(comment, executionId, a, b, i);
    }
    if a == b {
      MarkerOccurs(comment, executionId, a);
    }
    if Includes(Trim(comment), needle) {
      UserTextOccurs(comment, executionId, a, needle);
    }
  }
}
