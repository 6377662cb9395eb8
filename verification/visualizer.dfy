/**
 * The Mermaid renderer: a header line, one line per node, then one line per
 * connection, in declaration order, joined by newlines.
 */
module Visualizer {
  import opened Models

  const Header: string := "graph TD"
  const Indent: string := "    "

  function NodeLine(node: FlowNode): string {
    Indent + node.name + "[" + node.name + " <br> Type: " + node.nodeType + "]"
  }

  function ConnectionLine(c: FlowConnection): string {
    Indent + c.source + " --> |" + c.name + "| " + c.target
  }

  // ---------------------------------------------------------------------------
  // Joining and splitting on newlines
  // ---------------------------------------------------------------------------

  /** `"\n".join(lines)`. */
  function Join(lines: seq<string>): string {
    if |lines| == 0 then ""
    else if |lines| == 1 then lines[0]
    else lines[0] + "\n" + Join(lines[1..])
  }

  /** `s.split("\n")`: the pieces between newlines, always at least one. */
  function Split(s: string): (pieces: seq<string>)
    ensures |pieces| >= 1
    decreases |s|
  {
    if |s| == 0 then [""]
    else
      var rest := Split(s[1..]);
      if s[0] == '\n' then [""] + rest
      else [[s[0]] + rest[0]] + rest[1..]
  }

  predicate NoNewline(s: string) {
    '\n' !in s
  }

  lemma {:induction false} SplitSingle(a: string)
    requires NoNewline(a)
    ensures Split(a) == [a]
    decreases |a|
  {
    if |a| > 0 {
      SplitSingle(a[1..]);
      assert [a[0]] + a[1..] == a;
    }
  }

  lemma {:induction false} SplitFirstLine(a: string, t: string)
    requires NoNewline(a)
    ensures Split(a + "\n" + t) == [a] + Split(t)
    decreases |a|
  {
    var s := a + "\n" + t;
    if |a| == 0 {
      assert s[0] == '\n' && s[1..] == t;
    } else {
      assert s[0] == a[0] && s[1..] == a[1..] + "\n" + t;
      SplitFirstLine(a[1..], t);
      assert [a[0]] + a[1..] == a;
    }
  }

  /** Splitting newline-free lines after joining them gives the lines back. */
  lemma {:induction false} SplitJoin(lines: seq<string>)
    requires |lines| >= 1
    requires forall i :: 0 <= i < |lines| ==> NoNewline(lines[i])
    ensures Split(Join(lines)) == lines
    decreases |lines|
  {
    if |lines| == 1 {
      SplitSingle(lines[0]);
    } else {
      SplitJoin(lines[1..]);
      SplitFirstLine(lines[0], Join(lines[1..]));
      assert lines == [lines[0]] + lines[1..];
    }
  }

  /** Joining the pieces of any text after splitting it gives the text back. */
  lemma {:induction false} JoinSplit(s: string)
    ensures Join(Split(s)) == s
    decreases |s|
  {
    if |s| > 0 {
      var rest := Split(s[1..]);
      JoinSplit(s[1..]);
      if s[0] == '\n' {
        assert ([""] + rest)[1..] == rest;
        assert s == "\n" + s[1..];
      } else {
        var pieces := [[s[0]] + rest[0]] + rest[1..];
        if |rest| == 1 {
          assert Join(pieces) == [s[0]] + rest[0];
        } else {
          assert pieces[1..] == rest[1..];
          assert Join(rest) == rest[0] + "\n" + Join(rest[1..]);
        }
        assert s == [s[0]] + s[1..];
      }
    }
  }

  /** The joined text ends with its last line. */
  lemma {:induction false} JoinEndsWithLast(lines: seq<string>)
    requires |lines| >= 1
    ensures |Join(lines)| >= |lines[|lines| - 1]|
    ensures Join(lines)[|Join(lines)| - |lines[|lines| - 1]|..] == lines[|lines| - 1]
    decreases |lines|
  {
    if |lines| > 1 {
      JoinEndsWithLast(lines[1..]);
      var j := Join(lines);
      var tail := Join(lines[1..]);
      assert j == (lines[0] + "\n") + tail;
      assert j[|j| - |tail|..] == tail;
    }
  }

  // ---------------------------------------------------------------------------
  // The diagram
  // ---------------------------------------------------------------------------

  /** The diagram's lines: the header, the node lines, then the connection lines. */
  function MermaidLines(flow: FlowDefinition): (lines: seq<string>)
    ensures |lines| == 1 + |flow.nodes| + |flow.connections|
    ensures lines[0] == "graph TD"
    ensures forall k :: 1 <= k <= |flow.nodes| ==>
              var node := flow.nodes[k - 1];
              lines[k] == "    " + node.name + "[" + node.name + " <br> Type: " + node.nodeType + "]"
    ensures forall k :: 1 + |flow.nodes| <= k < |lines| ==>
              var c := flow.connections[k - 1 - |flow.nodes|];
              lines[k] == "    " + c.source + " --> |" + c.name + "| " + c.target
  {
    [Header]
      + seq(|flow.nodes|, i requires 0 <= i < |flow.nodes| => NodeLine(flow.nodes[i]))
      + seq(|flow.connections|, j requires 0 <= j < |flow.connections| => ConnectionLine(flow.connections[j]))
  }

  /**
   * `generate_mermaid`: appends the header, then a line per node, then a line
   * per connection, and joins the lines with newlines.
   */
  method GenerateMermaid(flow: FlowDefinition) returns (text: string)
    ensures text == Join(MermaidLines(flow))
  {
    var lines := [Header];
    var i := 0;
    while i < |flow.nodes|
      invariant 0 <= i <= |flow.nodes|
      invariant lines == MermaidLines(flow)[..1 + i]
    {
      lines := lines + [NodeLine(flow.nodes[i])];
      i := i + 1;
    }
    var j := 0;
    while j < |flow.connections|
      invariant 0 <= j <= |flow.connections|
      invariant lines == MermaidLines(flow)[..1 + |flow.nodes| + j]
    {
      lines := lines + [ConnectionLine(flow.connections[j])];
      j := j + 1;
    }
    assert lines == MermaidLines(flow);
    text := Join(lines);
  }

  /** No name or type in the flow contains a newline. */
  predicate NewlineFree(flow: FlowDefinition) {
    && (forall i :: 0 <= i < |flow.nodes| ==> NoNewline(flow.nodes[i].name) && NoNewline(flow.nodes[i].nodeType))
    && (forall j :: 0 <= j < |flow.connections| ==>
          NoNewline(flow.connections[j].source) && NoNewline(flow.connections[j].name) && NoNewline(flow.connections[j].target))
  }

  lemma NodeLineClean(node: FlowNode)
    requires NoNewline(node.name) && NoNewline(node.nodeType)
    ensures NoNewline(NodeLine(node)) && |NodeLine(node)| > 0
  {
  }

  lemma ConnectionLineClean(c: FlowConnection)
    requires NoNewline(c.source) && NoNewline(c.name) && NoNewline(c.target)
    ensures NoNewline(ConnectionLine(c)) && |ConnectionLine(c)| > 0
  {
  }

  /**
   * When no name contains a newline, the diagram text has exactly
   * 1 + |nodes| + |connections| lines, they are the diagram's lines, and the
   * text does not end with a newline.
   */
  lemma MermaidTextLines(flow: FlowDefinition)
    requires NewlineFree(flow)
    ensures Split(Join(MermaidLines(flow))) == MermaidLines(flow)
    ensures |Split(Join(MermaidLines(flow)))| == 1 + |flow.nodes| + |flow.connections|
    ensures var text := Join(MermaidLines(flow)); |text| > 0 && text[|text| - 1] != '\n'
  {
    var lines := MermaidLines(flow);
    forall k | 0 <= k < |lines| ensures NoNewline(lines[k]) && |lines[k]| > 0 {
      if k == 0 {
        assert lines[k] == Header;
      } else if k <= |flow.nodes| {
        assert lines[k] == NodeLine(flow.nodes[k - 1]);
        NodeLineClean(flow.nodes[k - 1]);
      } else {
        assert lines[k] == ConnectionLine(flow.connections[k - 1 - |flow.nodes|]);
        ConnectionLineClean(flow.connections[k - 1 - |flow.nodes|]);
      }
    }
    SplitJoin(lines);
    JoinEndsWithLast(lines);
    var text := Join(lines);
    var last := lines[|lines| - 1];
    assert text[|text| - 1] == last[|last| - 1];
  }
}
