/**
 * The flow definition data model: nodes with typed ports, data connections
 * between named ports, per-node configuration, and the three example flows
 * the package builds (identity, upcase through a Lambda function, and a
 * knowledge-base question-answering flow).
 */
module Models {
  import opened Wrappers

  /** Default binding expression of an input port: the whole incoming value. */
  const DefaultExpression: string := "$.data"

  /** Default kind of a connection. */
  const DefaultConnectionType: string := "Data"

  datatype NodeInput = NodeInput(name: string, portType: string, expression: string)

  datatype NodeOutput = NodeOutput(name: string, portType: string)

  /**
   * The part of a prompt node's configuration dictionary the simulator reads:
   * `prompt["sourceConfiguration"]["resource"]`, a string-keyed entry that
   * holds `promptArn` and optionally `modelId`. A missing level is `None`.
   */
  datatype SourceConfiguration = SourceConfiguration(resource: Option<map<string, string>>)

  datatype PromptSpec = PromptSpec(sourceConfiguration: Option<SourceConfiguration>)

  /** The closed family of node configurations. */
  datatype NodeConfiguration =
    | PlainConfig
    | LambdaFunctionConfig(lambdaArn: string)
    | PromptConfig(prompt: PromptSpec)
    | KnowledgeBaseConfig(knowledgeBaseId: string)

  /** A node; its type is the free-form string the simulator dispatches on. */
  datatype FlowNode = FlowNode(
    name: string,
    nodeType: string,
    inputs: seq<NodeInput>,
    outputs: seq<NodeOutput>,
    configuration: NodeConfiguration)

  datatype DataConnectionConfiguration = DataConnectionConfiguration(sourceOutput: string, targetInput: string)

  datatype FlowConnection = FlowConnection(
    name: string,
    source: string,
    target: string,
    connectionType: string,
    configuration: map<string, DataConnectionConfiguration>)

  datatype FlowDefinition = FlowDefinition(nodes: seq<FlowNode>, connections: seq<FlowConnection>)

  /** An input port built without an explicit expression. */
  function InputPort(name: string, portType: string): (p: NodeInput)
    ensures p.name == name && p.portType == portType
    ensures p.expression == "$.data"
  {
    NodeInput(name, portType, DefaultExpression)
  }

  /** A node built without explicit port lists: it declares no ports. */
  function NewNode(name: string, nodeType: string, configuration: NodeConfiguration): (n: FlowNode)
    ensures n.name == name && n.nodeType == nodeType && n.configuration == configuration
    ensures n.inputs == [] && n.outputs == []
  {
    FlowNode(name, nodeType, [], [], configuration)
  }

  /** A connection built without an explicit type: it is a data connection. */
  function NewConnection(name: string, source: string, target: string,
                         configuration: map<string, DataConnectionConfiguration>): (c: FlowConnection)
    ensures c.name == name && c.source == source && c.target == target
    ensures c.configuration == configuration
    ensures c.connectionType == "Data"
  {
    FlowConnection(name, source, target, DefaultConnectionType, configuration)
  }

  /** The single-entry port mapping every builder attaches, under the key "data". */
  function DataMapping(sourceOutput: string, targetInput: string): map<string, DataConnectionConfiguration>
  {
    map["data" := DataConnectionConfiguration(sourceOutput, targetInput)]
  }

  // ---------------------------------------------------------------------------
  // Well-formedness
  // ---------------------------------------------------------------------------

  predicate UniqueNames(nodes: seq<FlowNode>) {
    forall i, j :: 0 <= i < j < |nodes| ==> nodes[i].name != nodes[j].name
  }

  predicate HasNode(nodes: seq<FlowNode>, name: string) {
    exists i :: 0 <= i < |nodes| && nodes[i].name == name
  }

  predicate DeclaresInput(node: FlowNode, port: string) {
    exists k :: 0 <= k < |node.inputs| && node.inputs[k].name == port
  }

  predicate DeclaresOutput(node: FlowNode, port: string) {
    exists k :: 0 <= k < |node.outputs| && node.outputs[k].name == port
  }

  /**
   * A connection resolves when both ends name existing nodes and every port
   * mapping it carries reads a declared output of its source and feeds a
   * declared input of its target.
   */
  predicate ConnectionResolves(nodes: seq<FlowNode>, c: FlowConnection) {
    && HasNode(nodes, c.source)
    && HasNode(nodes, c.target)
    && (forall i, key :: 0 <= i < |nodes| && key in c.configuration && nodes[i].name == c.source ==>
          DeclaresOutput(nodes[i], c.configuration[key].sourceOutput))
    && (forall i, key :: 0 <= i < |nodes| && key in c.configuration && nodes[i].name == c.target ==>
          DeclaresInput(nodes[i], c.configuration[key].targetInput))
  }

  /** Number of nodes whose type string is `t`. */
  function CountOfType(nodes: seq<FlowNode>, t: string): nat {
    if |nodes| == 0 then 0
    else (if nodes[0].nodeType == t then 1 else 0) + CountOfType(nodes[1..], t)
  }

  /** The Input node takes no inputs and the Output node produces no outputs. */
  predicate EndpointPorts(nodes: seq<FlowNode>) {
    forall i :: 0 <= i < |nodes| ==>
      && (nodes[i].nodeType == "Input" ==> |nodes[i].inputs| == 0)
      && (nodes[i].nodeType == "Output" ==> |nodes[i].outputs| == 0)
  }

  predicate WellFormed(flow: FlowDefinition) {
    && UniqueNames(flow.nodes)
    && (forall c :: c in flow.connections ==> ConnectionResolves(flow.nodes, c))
    && CountOfType(flow.nodes, "Input") == 1
    && CountOfType(flow.nodes, "Output") == 1
    && EndpointPorts(flow.nodes)
  }

  /** Connections leaving `name`, in declaration order. */
  function Outgoing(connections: seq<FlowConnection>, name: string): (r: seq<FlowConnection>)
    ensures forall c :: c in r <==> c in connections && c.source == name
    ensures |r| <= |connections|
  {
    if |connections| == 0 then []
    else (if connections[0].source == name then [connections[0]] else []) + Outgoing(connections[1..], name)
  }

  /** Connections entering `name`, in declaration order. */
  function Incoming(connections: seq<FlowConnection>, name: string): (r: seq<FlowConnection>)
    ensures forall c :: c in r <==> c in connections && c.target == name
    ensures |r| <= |connections|
  {
    if |connections| == 0 then []
    else (if connections[0].target == name then [connections[0]] else []) + Incoming(connections[1..], name)
  }

  // ---------------------------------------------------------------------------
  // Builders
  // ---------------------------------------------------------------------------

  function StartNode(): FlowNode {
    NewNode("Start", "Input", PlainConfig).(outputs := [NodeOutput("document", "String")])
  }

  function EndNode(): FlowNode {
    NewNode("End", "Output", PlainConfig).(inputs := [InputPort("document", "String")])
  }

  /** Start (Input) wired straight to End (Output). */
  function IdentityFlow(): (f: FlowDefinition)
    ensures |f.nodes| == 2 && |f.connections| == 1
    ensures f.nodes[0].name == "Start" && f.nodes[0].nodeType == "Input"
    ensures f.nodes[1].name == "End" && f.nodes[1].nodeType == "Output"
    ensures f.connections[0].source == "Start" && f.connections[0].target == "End"
    ensures f.connections[0].configuration == DataMapping("document", "document")
  {
    FlowDefinition(
      [StartNode(), EndNode()],
      [NewConnection("StartToEnd", "Start", "End", DataMapping("document", "document"))])
  }

  function UpcaseNode(lambdaArn: string): FlowNode {
    NewNode("Upcase", "LambdaFunction", LambdaFunctionConfig(lambdaArn)).(
      inputs := [InputPort("input", "String")],
      outputs := [NodeOutput("functionResponse", "String")])
  }

  /** Start -> Upcase (a Lambda function node) -> End. */
  function UpcaseFlow(lambdaArn: string): (f: FlowDefinition)
    ensures |f.nodes| == 3 && |f.connections| == 2
    ensures f.nodes[0].name == "Start" && f.nodes[0].nodeType == "Input"
    ensures f.nodes[2].name == "End" && f.nodes[2].nodeType == "Output"
    ensures f.nodes[1].name == "Upcase" && f.nodes[1].nodeType == "LambdaFunction"
    ensures f.nodes[1].configuration == LambdaFunctionConfig(lambdaArn)
    ensures f.connections[0].source == "Start" && f.connections[0].target == "Upcase"
    ensures f.connections[0].configuration == DataMapping("document", "input")
    ensures f.connections[1].source == "Upcase" && f.connections[1].target == "End"
    ensures f.connections[1].configuration == DataMapping("functionResponse", "document")
  {
    FlowDefinition(
      [StartNode(), UpcaseNode(lambdaArn), EndNode()],
      [NewConnection("StartToUpcase", "Start", "Upcase", DataMapping("document", "input")),
       NewConnection("UpcaseToEnd", "Upcase", "End", DataMapping("functionResponse", "document"))])
  }

  function QueryKnowledgeBaseNode(knowledgeBaseId: string): FlowNode {
    NewNode("QueryKnowledgeBase", "KnowledgeBase", KnowledgeBaseConfig(knowledgeBaseId)).(
      inputs := [InputPort("retrievalQuery", "String")],
      outputs := [NodeOutput("retrievalResults", "Array")])
  }

  /** The prompt configuration dictionary `{sourceConfiguration: {resource: {promptArn: …}}}`. */
  function PromptResourceSpec(promptArn: string): PromptSpec {
    PromptSpec(Some(SourceConfiguration(Some(map["promptArn" := promptArn]))))
  }

  function GenerateResponseNode(promptArn: string): FlowNode {
    NewNode("GenerateResponse", "Prompt", PromptConfig(PromptResourceSpec(promptArn))).(
      inputs := [InputPort("query", "String"), InputPort("context", "Array")],
      outputs := [NodeOutput("modelCompletion", "String")])
  }

  /**
   * Start fans out to QueryKnowledgeBase and GenerateResponse; the retrieval
   * results also feed GenerateResponse; GenerateResponse feeds End.
   */
  function KnowledgeBaseFlow(knowledgeBaseId: string, promptArn: string): (f: FlowDefinition)
    ensures |f.nodes| == 4 && |f.connections| == 4
    ensures f.nodes[0].name == "Start" && f.nodes[0].nodeType == "Input"
    ensures f.nodes[3].name == "End" && f.nodes[3].nodeType == "Output"
    ensures f.nodes[1].name == "QueryKnowledgeBase" && f.nodes[1].nodeType == "KnowledgeBase"
    ensures f.nodes[1].configuration == KnowledgeBaseConfig(knowledgeBaseId)
    ensures f.nodes[2].name == "GenerateResponse" && f.nodes[2].nodeType == "Prompt"
    ensures f.nodes[2].configuration.PromptConfig?
    ensures f.nodes[2].configuration.prompt.sourceConfiguration.Some?
    ensures f.nodes[2].configuration.prompt.sourceConfiguration.value.resource == Some(map["promptArn" := promptArn])
  {
    FlowDefinition(
      [StartNode(), QueryKnowledgeBaseNode(knowledgeBaseId), GenerateResponseNode(promptArn), EndNode()],
      [NewConnection("StartToKB", "Start", "QueryKnowledgeBase", DataMapping("document", "retrievalQuery")),
       NewConnection("StartToPrompt", "Start", "GenerateResponse", DataMapping("document", "query")),
       NewConnection("KBToPrompt", "QueryKnowledgeBase", "GenerateResponse", DataMapping("retrievalResults", "context")),
       NewConnection("PromptToEnd", "GenerateResponse", "End", DataMapping("modelCompletion", "document"))])
  }

  // ---------------------------------------------------------------------------
  // The builders produce well-formed flows
  // ---------------------------------------------------------------------------

  /**
   * With unique names, a connection resolves as soon as the nodes at two known
   * positions are its endpoints and declare the ports of every mapping entry.
   */
  lemma ResolvesAt(nodes: seq<FlowNode>, c: FlowConnection, si: nat, ti: nat)
    requires UniqueNames(nodes)
    requires si < |nodes| && nodes[si].name == c.source
    requires ti < |nodes| && nodes[ti].name == c.target
    requires forall key :: key in c.configuration ==>
               DeclaresOutput(nodes[si], c.configuration[key].sourceOutput)
               && DeclaresInput(nodes[ti], c.configuration[key].targetInput)
    ensures ConnectionResolves(nodes, c)
  {
    forall i, key | 0 <= i < |nodes| && key in c.configuration && nodes[i].name == c.source
      ensures DeclaresOutput(nodes[i], c.configuration[key].sourceOutput)
    {
      assert i == si;
    }
    forall i, key | 0 <= i < |nodes| && key in c.configuration && nodes[i].name == c.target
      ensures DeclaresInput(nodes[i], c.configuration[key].targetInput)
    {
      assert i == ti;
    }
  }

  /** A type held by the node at position `i` and by no other node is counted once. */
  lemma {:induction false} CountOfTypeOne(nodes: seq<FlowNode>, t: string, i: nat)
    requires i < |nodes| && nodes[i].nodeType == t
    requires forall j :: 0 <= j < |nodes| && j != i ==> nodes[j].nodeType != t
    ensures CountOfType(nodes, t) == 1
  {
    if i == 0 {
      CountOfTypeNone(nodes[1..], t);
    } else {
      CountOfTypeOne(nodes[1..], t, i - 1);
    }
  }

  lemma {:induction false} CountOfTypeNone(nodes: seq<FlowNode>, t: string)
    requires forall j :: 0 <= j < |nodes| ==> nodes[j].nodeType != t
    ensures CountOfType(nodes, t) == 0
  {
    if |nodes| > 0 {
      CountOfTypeNone(nodes[1..], t);
    }
  }

  lemma IdentityFlowWellFormed()
    ensures WellFormed(IdentityFlow())
  {
    var f := IdentityFlow();
    assert f.nodes[1..][1..] == [];
    assert f.nodes[0].outputs[0].name == "document" && f.nodes[1].inputs[0].name == "document";
    ResolvesAt(f.nodes, f.connections[0], 0, 1);
  }

  lemma UpcaseFlowWellFormed(lambdaArn: string)
    ensures WellFormed(UpcaseFlow(lambdaArn))
  {
    var f := UpcaseFlow(lambdaArn);
    assert f.nodes[0].outputs[0].name == "document" && f.nodes[1].inputs[0].name == "input";
    assert f.nodes[1].outputs[0].name == "functionResponse" && f.nodes[2].inputs[0].name == "document";
    ResolvesAt(f.nodes, f.connections[0], 0, 1);
    ResolvesAt(f.nodes, f.connections[1], 1, 2);
    CountOfTypeOne(f.nodes, "Input", 0);
    CountOfTypeOne(f.nodes, "Output", 2);
  }

  lemma KnowledgeBaseFlowWellFormed(knowledgeBaseId: string, promptArn: string)
    ensures WellFormed(KnowledgeBaseFlow(knowledgeBaseId, promptArn))
  {
    var f := KnowledgeBaseFlow(knowledgeBaseId, promptArn);
    assert f.nodes[0].outputs[0].name == "document";
    assert f.nodes[1].inputs[0].name == "retrievalQuery" && f.nodes[1].outputs[0].name == "retrievalResults";
    assert f.nodes[2].inputs[0].name == "query" && f.nodes[2].inputs[1].name == "context";
    assert f.nodes[2].outputs[0].name == "modelCompletion" && f.nodes[3].inputs[0].name == "document";
    ResolvesAt(f.nodes, f.connections[0], 0, 1);
    ResolvesAt(f.nodes, f.connections[1], 0, 2);
    ResolvesAt(f.nodes, f.connections[2], 1, 2);
    ResolvesAt(f.nodes, f.connections[3], 2, 3);
    CountOfTypeOne(f.nodes, "Input", 0);
    CountOfTypeOne(f.nodes, "Output", 3);
  }

  /** In the knowledge-base flow, Start feeds two nodes: the retrieval and the prompt. */
  lemma KnowledgeBaseFanOut(knowledgeBaseId: string, promptArn: string)
    ensures var out := Outgoing(KnowledgeBaseFlow(knowledgeBaseId, promptArn).connections, "Start");
      |out| == 2 && out[0].target == "QueryKnowledgeBase" && out[1].target == "GenerateResponse"
  {
    var cs := KnowledgeBaseFlow(knowledgeBaseId, promptArn).connections;
    assert cs[1..][1..] == cs[2..] && cs[2..][1..] == cs[3..] && cs[3..][1..] == [];
    assert Outgoing(cs[3..], "Start") == [];
    assert Outgoing(cs[2..], "Start") == [];
    assert Outgoing(cs[1..], "Start") == [cs[1]];
  }

  /**
   * In the knowledge-base flow, GenerateResponse is fed by two connections
   * whose mappings target its two distinct ports `query` and `context`.
   */
  lemma KnowledgeBaseFanIn(knowledgeBaseId: string, promptArn: string)
    ensures var inc := Incoming(KnowledgeBaseFlow(knowledgeBaseId, promptArn).connections, "GenerateResponse");
      && |inc| == 2
      && inc[0].configuration == DataMapping("document", "query")
      && inc[1].configuration == DataMapping("retrievalResults", "context")
  {
    var cs := KnowledgeBaseFlow(knowledgeBaseId, promptArn).connections;
    assert cs[1..][1..] == cs[2..] && cs[2..][1..] == cs[3..] && cs[3..][1..] == [];
    assert Incoming(cs[3..], "GenerateResponse") == [];
    assert Incoming(cs[2..], "GenerateResponse") == [cs[2]];
    assert Incoming(cs[1..], "GenerateResponse") == [cs[1], cs[2]];
  }
}
