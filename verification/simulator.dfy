/**
 * The flow simulator: a name-to-node map and a source-to-connection map built
 * from a flow definition, a walk along single successors from the node named
 * "Start" to the first node of type "Output", and per-node processing that
 * calls one of three external services. The services are oracles supplied by
 * the caller; the walk is bounded by a fuel count.
 */
module Simulator {
  import opened Wrappers
  import opened Models

  /** The errors the walk can raise: dictionary lookups, configuration attributes, and fuel. */
  datatype SimError =
    | KeyNotFound(key: string)
    | AttributeMissing(node: string, attribute: string)
    | OutOfFuel

  /** Model id used when the prompt resource names none. */
  const DefaultModelId: string := "anthropic.claude-v2"
  const MaxTokensToSample: nat := 500
  const TopP: nat := 1
  const TopK: nat := 250
  const StopSequences: seq<string> := ["\n\nHuman:"]
  /** Number of passages requested from a knowledge base. */
  const NumberOfResults: nat := 5

  /** The body sent to the model-inference service (the temperature is not modelled). */
  datatype ModelRequest = ModelRequest(
    prompt: string,
    maxTokensToSample: nat,
    topP: nat,
    topK: nat,
    stopSequences: seq<string>)

  datatype RetrieveRequest = RetrieveRequest(knowledgeBaseId: string, retrievalQuery: string, numberOfResults: nat)

  /**
   * The external services, each mapping a request to the decoded fields of
   * its response: a Lambda invocation (function name and JSON payload), a
   * model invocation (model id and request body), and a knowledge-base
   * retrieval, whose field values are already serialized to JSON text.
   */
  datatype Services = Services(
    invokeLambda: (string, map<string, string>) -> map<string, string>,
    invokeModel: (string, ModelRequest) -> map<string, string>,
    retrieve: RetrieveRequest -> map<string, string>)

  /** The simulator's state: the flow and the two lookup tables built from it. */
  datatype FlowSimulator = FlowSimulator(
    flow: FlowDefinition,
    nodeMap: map<string, FlowNode>,
    connectionMap: map<string, FlowConnection>)

  // ---------------------------------------------------------------------------
  // Lookup tables
  // ---------------------------------------------------------------------------

  /** `i` is the last position of `xs` whose key is `k`. */
  ghost predicate LastWithKey<T>(xs: seq<T>, key: T -> string, k: string, i: int) {
    && 0 <= i < |xs|
    && key(xs[i]) == k
    && forall j :: i < j < |xs| ==> key(xs[j]) != k
  }

  /**
   * `m` is the dictionary comprehension `{key(x): x for x in xs}`: its keys
   * are the keys that occur in `xs`, and each maps to the last element
   * carrying it.
   */
  ghost predicate IsIndex<T>(xs: seq<T>, key: T -> string, m: map<string, T>) {
    && m.Keys == (set i | 0 <= i < |xs| :: key(xs[i]))
    && forall k :: k in m ==> exists i :: LastWithKey(xs, key, k, i) && m[k] == xs[i]
  }

  function IndexBy<T>(xs: seq<T>, key: T -> string): (m: map<string, T>)
    ensures IsIndex(xs, key, m)
  {
    if |xs| == 0 then map[]
    else
      var init := xs[..|xs| - 1];
      var m := IndexBy(init, key);
      forall k | k in m && k != key(xs[|xs| - 1])
        ensures exists i :: LastWithKey(xs, key, k, i) && m[k] == xs[i]
      {
        var i :| LastWithKey(init, key, k, i) && m[k] == init[i];
        assert LastWithKey(xs, key, k, i);
      }
      assert LastWithKey(xs, key, key(xs[|xs| - 1]), |xs| - 1);
      assert (set i | 0 <= i < |xs| :: key(xs[i])) == (set i | 0 <= i < |init| :: key(init[i])) + {key(xs[|xs| - 1])} by {
        forall i | 0 <= i < |init| ensures key(init[i]) == key(xs[i]) { }
      }
      m[key(xs[|xs| - 1]) := xs[|xs| - 1]]
  }

  /** An element whose key no later element repeats is the one the table keeps. */
  lemma LastDeclaredWins<T>(xs: seq<T>, key: T -> string, i: nat)
    requires i < |xs|
    requires forall j :: i < j < |xs| ==> key(xs[j]) != key(xs[i])
    ensures key(xs[i]) in IndexBy(xs, key)
    ensures IndexBy(xs, key)[key(xs[i])] == xs[i]
  {
    var m := IndexBy(xs, key);
    assert key(xs[i]) in m;
    var i' :| LastWithKey(xs, key, key(xs[i]), i') && m[key(xs[i])] == xs[i'];
  }

  /** An element followed by another with the same key is dropped: the table keeps a later one. */
  lemma EarlierDeclaredDropped<T>(xs: seq<T>, key: T -> string, i: nat, j: nat)
    requires i < j < |xs| && key(xs[i]) == key(xs[j])
    ensures key(xs[i]) in IndexBy(xs, key)
    ensures exists k :: j <= k < |xs| && IndexBy(xs, key)[key(xs[i])] == xs[k]
  {
    var m := IndexBy(xs, key);
    assert key(xs[j]) in m;
    var k :| LastWithKey(xs, key, key(xs[i]), k) && m[key(xs[i])] == xs[k];
    assert j <= k;
  }

  function NodeName(n: FlowNode): string { n.name }

  function ConnectionSource(c: FlowConnection): string { c.source }

  /** Every node is filed under its own name and every connection under its own source. */
  predicate KeysConsistent(sim: FlowSimulator) {
    && (forall k :: k in sim.nodeMap ==> sim.nodeMap[k].name == k)
    && (forall k :: k in sim.connectionMap ==> sim.connectionMap[k].source == k)
  }

  /** Builds the two lookup tables: nodes by name, connections by source name. */
  function NewSimulator(flow: FlowDefinition): (sim: FlowSimulator)
    ensures sim.flow == flow
    ensures KeysConsistent(sim)
    ensures IsIndex(flow.nodes, NodeName, sim.nodeMap)
    ensures IsIndex(flow.connections, ConnectionSource, sim.connectionMap)
  {
    FlowSimulator(flow, IndexBy(flow.nodes, NodeName), IndexBy(flow.connections, ConnectionSource))
  }

  // ---------------------------------------------------------------------------
  // Node processing
  // ---------------------------------------------------------------------------

  /** The JSON object `{"input": data}` sent to a Lambda function. */
  function LambdaPayload(data: string): (payload: map<string, string>)
    ensures payload.Keys == {"input"} && payload["input"] == data
  {
    map["input" := data]
  }

  /** The prompt text: the prompt ARN, a blank line, `Input: `, then the data. */
  function PromptText(promptArn: string, data: string): (text: string)
    ensures |text| == |promptArn| + 9 + |data|
    ensures text[..|promptArn|] == promptArn
    ensures text[|promptArn|..|promptArn| + 9] == "\n\nInput: "
    ensures text[|promptArn| + 9..] == data
  {
    promptArn + "\n\nInput: " + data
  }

  /** The model id named by a prompt resource entry, or the default one. */
  function ModelIdOf(resource: map<string, string>): (modelId: string)
    ensures "modelId" in resource ==> modelId == resource["modelId"]
    ensures "modelId" !in resource ==> modelId == "anthropic.claude-v2"
  {
    if "modelId" in resource then resource["modelId"] else DefaultModelId
  }

  /** The fixed-parameter inference request carrying `promptText`. */
  function ModelRequestFor(promptText: string): (request: ModelRequest)
    ensures request.prompt == promptText
    ensures request.maxTokensToSample == 500 && request.topP == 1 && request.topK == 250
    ensures request.stopSequences == ["\n\nHuman:"]
  {
    ModelRequest(promptText, MaxTokensToSample, TopP, TopK, StopSequences)
  }

  /** The retrieval request: the data is the query, five results are asked for. */
  function RetrievalRequestFor(knowledgeBaseId: string, data: string): (request: RetrieveRequest)
    ensures request.knowledgeBaseId == knowledgeBaseId && request.retrievalQuery == data
    ensures request.numberOfResults == 5
  {
    RetrieveRequest(knowledgeBaseId, data, NumberOfResults)
  }

  /** Looks up `prompt["sourceConfiguration"]["resource"]`, failing on the first missing key. */
  function PromptResource(prompt: PromptSpec): (r: Result<map<string, string>, SimError>)
    ensures prompt.sourceConfiguration.None? ==> r == Err(KeyNotFound("sourceConfiguration"))
    ensures prompt.sourceConfiguration.Some? && prompt.sourceConfiguration.value.resource.None? ==>
              r == Err(KeyNotFound("resource"))
    ensures r.Ok? <==> prompt.sourceConfiguration.Some? && prompt.sourceConfiguration.value.resource.Some?
    ensures r.Ok? ==> r.value == prompt.sourceConfiguration.value.resource.value
  {
    match prompt.sourceConfiguration
    case None => Err(KeyNotFound("sourceConfiguration"))
    case Some(source) =>
      match source.resource
      case None => Err(KeyNotFound("resource"))
      case Some(resource) => Ok(resource)
  }

  /**
   * A Lambda node sends `{"input": data}` to its configured function and
   * yields the response's `output` field.
   */
  function InvokeLambda(svc: Services, node: FlowNode, data: string): (r: Result<string, SimError>)
    ensures !node.configuration.LambdaFunctionConfig? ==> r == Err(AttributeMissing(node.name, "lambdaArn"))
    ensures node.configuration.LambdaFunctionConfig? ==>
              var response := svc.invokeLambda(node.configuration.lambdaArn, map["input" := data]);
              && (r.Ok? <==> "output" in response)
              && (r.Ok? ==> r.value == response["output"])
              && (r.Err? ==> r.error == KeyNotFound("output"))
  {
    if !node.configuration.LambdaFunctionConfig? then Err(AttributeMissing(node.name, "lambdaArn"))
    else
      var response := svc.invokeLambda(node.configuration.lambdaArn, LambdaPayload(data));
      if "output" in response then Ok(response["output"]) else Err(KeyNotFound("output"))
  }

  /**
   * A Prompt node builds `promptArn + "\n\nInput: " + data`, sends it to the
   * resource's model (the default model when none is named) and yields the
   * response's `completion` field.
   */
  function InvokePrompt(svc: Services, node: FlowNode, data: string): (r: Result<string, SimError>)
    ensures !node.configuration.PromptConfig? ==> r == Err(AttributeMissing(node.name, "prompt"))
    ensures node.configuration.PromptConfig? && PromptResource(node.configuration.prompt).Err? ==>
              r == Err(PromptResource(node.configuration.prompt).error)
    ensures node.configuration.PromptConfig? && PromptResource(node.configuration.prompt).Ok? ==>
              var resource := PromptResource(node.configuration.prompt).value;
              && ("promptArn" !in resource ==> r == Err(KeyNotFound("promptArn")))
              && ("promptArn" in resource ==>
                    var response := svc.invokeModel(ModelIdOf(resource),
                      ModelRequestFor(resource["promptArn"] + "\n\nInput: " + data));
                    && (r.Ok? <==> "completion" in response)
                    && (r.Ok? ==> r.value == response["completion"])
                    && (r.Err? ==> r.error == KeyNotFound("completion")))
  {
    if !node.configuration.PromptConfig? then Err(AttributeMissing(node.name, "prompt"))
    else
      var resource :- PromptResource(node.configuration.prompt);
      var modelId := ModelIdOf(resource);
      if "promptArn" !in resource then Err(KeyNotFound("promptArn"))
      else
        var response := svc.invokeModel(modelId, ModelRequestFor(PromptText(resource["promptArn"], data)));
        if "completion" in response then Ok(response["completion"]) else Err(KeyNotFound("completion"))
  }

  /**
   * A KnowledgeBase node queries its knowledge base with the data for five
   * results and yields the serialized `retrievalResults` field.
   */
  function QueryKnowledgeBase(svc: Services, node: FlowNode, data: string): (r: Result<string, SimError>)
    ensures !node.configuration.KnowledgeBaseConfig? ==> r == Err(AttributeMissing(node.name, "knowledgeBaseId"))
    ensures node.configuration.KnowledgeBaseConfig? ==>
              var response := svc.retrieve(RetrieveRequest(node.configuration.knowledgeBaseId, data, 5));
              && (r.Ok? <==> "retrievalResults" in response)
              && (r.Ok? ==> r.value == response["retrievalResults"])
              && (r.Err? ==> r.error == KeyNotFound("retrievalResults"))
  {
    if !node.configuration.KnowledgeBaseConfig? then Err(AttributeMissing(node.name, "knowledgeBaseId"))
    else
      var response := svc.retrieve(RetrievalRequestFor(node.configuration.knowledgeBaseId, data));
      if "retrievalResults" in response then Ok(response["retrievalResults"]) else Err(KeyNotFound("retrievalResults"))
  }

  /** A node type that calls no service. */
  predicate IsPassThrough(nodeType: string) {
    nodeType != "LambdaFunction" && nodeType != "Prompt" && nodeType != "KnowledgeBase"
  }

  /** Dispatch on the node type string; every other type hands the data on unchanged. */
  function ProcessNode(svc: Services, node: FlowNode, data: string): (r: Result<string, SimError>)
    ensures IsPassThrough(node.nodeType) ==> r == Ok(data)
    ensures node.nodeType == "LambdaFunction" ==> r == InvokeLambda(svc, node, data)
    ensures node.nodeType == "Prompt" ==> r == InvokePrompt(svc, node, data)
    ensures node.nodeType == "KnowledgeBase" ==> r == QueryKnowledgeBase(svc, node, data)
  {
    if node.nodeType == "LambdaFunction" then InvokeLambda(svc, node, data)
    else if node.nodeType == "Prompt" then InvokePrompt(svc, node, data)
    else if node.nodeType == "KnowledgeBase" then QueryKnowledgeBase(svc, node, data)
    else Ok(data)
  }

  // ---------------------------------------------------------------------------
  // The walk
  // ---------------------------------------------------------------------------

  /** The node the current node's (last-declared) outgoing connection targets. */
  function Successor(sim: FlowSimulator, node: FlowNode): (r: Result<FlowNode, SimError>)
    ensures node.name !in sim.connectionMap ==> r == Err(KeyNotFound(node.name))
    ensures node.name in sim.connectionMap && sim.connectionMap[node.name].target !in sim.nodeMap ==>
              r == Err(KeyNotFound(sim.connectionMap[node.name].target))
    ensures r.Ok? <==> node.name in sim.connectionMap && sim.connectionMap[node.name].target in sim.nodeMap
    ensures r.Ok? ==> node.name in sim.connectionMap && r.value == sim.nodeMap[sim.connectionMap[node.name].target]
  {
    if node.name !in sim.connectionMap then Err(KeyNotFound(node.name))
    else
      var connection := sim.connectionMap[node.name];
      if connection.target !in sim.nodeMap then Err(KeyNotFound(connection.target))
      else Ok(sim.nodeMap[connection.target])
  }

  /**
   * The loop of `simulate` from `current`: stop at an Output node, otherwise
   * move to the successor, process it, and continue; each move costs one fuel.
   */
  function Walk(sim: FlowSimulator, svc: Services, current: FlowNode, data: string, fuel: nat): (r: Result<string, SimError>)
    ensures current.nodeType == "Output" ==> r == Ok(data)
    ensures current.nodeType != "Output" && fuel > 0 && current.name !in sim.connectionMap ==>
              r == Err(KeyNotFound(current.name))
    decreases fuel
  {
    if current.nodeType == "Output" then Ok(data)
    else if fuel == 0 then Err(OutOfFuel)
    else
      var next :- Successor(sim, current);
      var data' :- ProcessNode(svc, next, data);
      Walk(sim, svc, next, data', fuel - 1)
  }

  /** `simulate(input)`: the walk from the node named "Start", which is not itself processed. */
  function Simulate(sim: FlowSimulator, svc: Services, input: string, fuel: nat): (r: Result<string, SimError>)
    ensures "Start" !in sim.nodeMap ==> r == Err(KeyNotFound("Start"))
    ensures "Start" in sim.nodeMap && sim.nodeMap["Start"].nodeType == "Output" ==> r == Ok(input)
  {
    if "Start" !in sim.nodeMap then Err(KeyNotFound("Start"))
    else Walk(sim, svc, sim.nodeMap["Start"], input, fuel)
  }
}
