/**
 * The three example flows run through the simulator and the renderer: the
 * identity flow hands its input back, the upcase flow yields the Lambda
 * function's output, and the knowledge-base flow never reaches its retrieval
 * node because its second connection from Start replaces the first.
 */
module Scenarios {
  import opened Wrappers
  import opened Models
  import opened Simulator
  import opened Runs
  import opened Visualizer

  /** The identity flow returns its input unchanged, whatever the services do. */
  lemma IdentityFlowReturnsInput(svc: Services, input: string, fuel: nat)
    requires fuel >= 1
    ensures Simulate(NewSimulator(IdentityFlow()), svc, input, fuel) == Ok(input)
  {
    var f := IdentityFlow();
    var sim := NewSimulator(f);
    IdentityFlowWellFormed();
    NodeFiledUnderName(f, 0);
    NodeFiledUnderName(f, 1);
    ConnectionFiledUnderSource(f, 0);
    var route := [f.nodes[0], f.nodes[1]];
    assert IsRoute(sim, route);
    WalkFollowsChain(sim, svc, route, input, fuel);
    assert route[1..] == [f.nodes[1]];
  }

  lemma UpcaseNamesUnique(lambdaArn: string)
    ensures UniqueNames(UpcaseFlow(lambdaArn).nodes)
  {
  }

  /** In the upcase flow, Start leads to Upcase and Upcase leads to End. */
  lemma UpcaseSuccessors(lambdaArn: string)
    ensures var f := UpcaseFlow(lambdaArn); Successor(NewSimulator(f), f.nodes[0]) == Ok(f.nodes[1])
    ensures var f := UpcaseFlow(lambdaArn); Successor(NewSimulator(f), f.nodes[1]) == Ok(f.nodes[2])
  {
    UpcaseNamesUnique(lambdaArn);
    SuccessorAt(UpcaseFlow(lambdaArn), 0, 0, 1);
    SuccessorAt(UpcaseFlow(lambdaArn), 1, 1, 2);
  }

  /** Start, Upcase, End is a route of the upcase flow. */
  lemma UpcaseFlowRoute(lambdaArn: string)
    ensures var f := UpcaseFlow(lambdaArn);
            IsRoute(NewSimulator(f), [f.nodes[0], f.nodes[1], f.nodes[2]])
  {
    var f := UpcaseFlow(lambdaArn);
    UpcaseNamesUnique(lambdaArn);
    NodeFiledUnderName(f, 0);
    UpcaseSuccessors(lambdaArn);
    ThreeNodeRoute(NewSimulator(f), f.nodes[0], f.nodes[1], f.nodes[2]);
  }

  /** The upcase flow yields the `output` field of the Lambda response to `{"input": input}`. */
  lemma UpcaseFlowReturnsLambdaOutput(svc: Services, lambdaArn: string, input: string, fuel: nat)
    requires fuel >= 2
    ensures var response := svc.invokeLambda(lambdaArn, map["input" := input]);
            Simulate(NewSimulator(UpcaseFlow(lambdaArn)), svc, input, fuel)
              == if "output" in response then Ok(response["output"]) else Err(KeyNotFound("output"))
  {
    var f := UpcaseFlow(lambdaArn);
    var sim := NewSimulator(f);
    var route := [f.nodes[0], f.nodes[1], f.nodes[2]];
    UpcaseFlowRoute(lambdaArn);
    WalkFollowsChain(sim, svc, route, input, fuel);
    assert route[1..] == [f.nodes[1], f.nodes[2]] && route[1..][1..] == [f.nodes[2]];
  }

  lemma KnowledgeBaseNamesUnique(knowledgeBaseId: string, promptArn: string)
    ensures UniqueNames(KnowledgeBaseFlow(knowledgeBaseId, promptArn).nodes)
  {
  }

  /**
   * In the knowledge-base flow the connection table keeps StartToPrompt for
   * Start, declared after StartToKB, so Start leads to GenerateResponse; and
   * GenerateResponse leads to End.
   */
  lemma KnowledgeBaseSuccessors(knowledgeBaseId: string, promptArn: string)
    ensures var f := KnowledgeBaseFlow(knowledgeBaseId, promptArn);
            "Start" in NewSimulator(f).connectionMap && NewSimulator(f).connectionMap["Start"].name == "StartToPrompt"
    ensures var f := KnowledgeBaseFlow(knowledgeBaseId, promptArn);
            Successor(NewSimulator(f), f.nodes[0]) == Ok(f.nodes[2])
    ensures var f := KnowledgeBaseFlow(knowledgeBaseId, promptArn);
            Successor(NewSimulator(f), f.nodes[2]) == Ok(f.nodes[3])
  {
    var f := KnowledgeBaseFlow(knowledgeBaseId, promptArn);
    KnowledgeBaseNamesUnique(knowledgeBaseId, promptArn);
    ConnectionFiledUnderSource(f, 1);
    SuccessorAt(f, 0, 1, 2);
    SuccessorAt(f, 2, 3, 3);
  }

  /** Start, GenerateResponse, End is a route of the knowledge-base flow. */
  lemma KnowledgeBaseFlowRoute(knowledgeBaseId: string, promptArn: string)
    ensures var f := KnowledgeBaseFlow(knowledgeBaseId, promptArn);
            IsRoute(NewSimulator(f), [f.nodes[0], f.nodes[2], f.nodes[3]])
  {
    var f := KnowledgeBaseFlow(knowledgeBaseId, promptArn);
    KnowledgeBaseNamesUnique(knowledgeBaseId, promptArn);
    NodeFiledUnderName(f, 0);
    KnowledgeBaseSuccessors(knowledgeBaseId, promptArn);
    ThreeNodeRoute(NewSimulator(f), f.nodes[0], f.nodes[2], f.nodes[3]);
  }

  /**
   * It is the only route: whatever the services do, the retrieval node is
   * never visited.
   */
  lemma KnowledgeBaseRouteSkipsRetrieval(knowledgeBaseId: string, promptArn: string)
    ensures var f := KnowledgeBaseFlow(knowledgeBaseId, promptArn);
            forall path: seq<FlowNode> :: IsRoute(NewSimulator(f), path) ==>
              && |path| == 3
              && path[0].name == "Start" && path[1].name == "GenerateResponse" && path[2].name == "End"
  {
    var f := KnowledgeBaseFlow(knowledgeBaseId, promptArn);
    var sim := NewSimulator(f);
    var route := [f.nodes[0], f.nodes[2], f.nodes[3]];
    KnowledgeBaseFlowRoute(knowledgeBaseId, promptArn);
    forall path: seq<FlowNode> | IsRoute(sim, path)
      ensures |path| == 3 && path[0].name == "Start" && path[1].name == "GenerateResponse" && path[2].name == "End"
    {
      ChainUnique(sim, path, route);
    }
  }

  /**
   * The GenerateResponse node asks the default model for the completion of
   * `promptArn + "\n\nInput: " + data`: its resource names no model.
   */
  lemma GenerateResponseAnswers(svc: Services, knowledgeBaseId: string, promptArn: string, data: string)
    ensures var response := svc.invokeModel("anthropic.claude-v2", ModelRequestFor(promptArn + "\n\nInput: " + data));
            ProcessNode(svc, KnowledgeBaseFlow(knowledgeBaseId, promptArn).nodes[2], data)
              == if "completion" in response then Ok(response["completion"]) else Err(KeyNotFound("completion"))
  {
    var node := KnowledgeBaseFlow(knowledgeBaseId, promptArn).nodes[2];
    var resource := map["promptArn" := promptArn];
    assert PromptResource(node.configuration.prompt) == Ok(resource);
    assert "modelId" !in resource;
  }

  /**
   * The knowledge-base flow yields the completion for the prompt text
   * `promptArn + "\n\nInput: " + input` under the default model; the
   * retrieval service plays no part in the result.
   */
  lemma KnowledgeBaseFlowReturnsCompletion(svc: Services, knowledgeBaseId: string, promptArn: string,
                                           input: string, fuel: nat)
    requires fuel >= 2
    ensures var response := svc.invokeModel("anthropic.claude-v2", ModelRequestFor(promptArn + "\n\nInput: " + input));
            Simulate(NewSimulator(KnowledgeBaseFlow(knowledgeBaseId, promptArn)), svc, input, fuel)
              == if "completion" in response then Ok(response["completion"]) else Err(KeyNotFound("completion"))
  {
    var f := KnowledgeBaseFlow(knowledgeBaseId, promptArn);
    var sim := NewSimulator(f);
    var route := [f.nodes[0], f.nodes[2], f.nodes[3]];
    KnowledgeBaseFlowRoute(knowledgeBaseId, promptArn);
    WalkFollowsChain(sim, svc, route, input, fuel);
    GenerateResponseAnswers(svc, knowledgeBaseId, promptArn, input);
    assert route[1..] == [f.nodes[2], f.nodes[3]] && route[1..][1..] == [f.nodes[3]];
  }

  /** A Start node whose only connection leads back to itself never finishes. */
  lemma SelfLoopFlowNeverReturns(svc: Services, input: string, fuel: nat)
    ensures var f := FlowDefinition([StartNode()], [NewConnection("Loop", "Start", "Start", DataMapping("document", "document"))]);
            Simulate(NewSimulator(f), svc, input, fuel) == Err(OutOfFuel)
  {
    var f := FlowDefinition([StartNode()], [NewConnection("Loop", "Start", "Start", DataMapping("document", "document"))]);
    var sim := NewSimulator(f);
    NodeFiledUnderName(f, 0);
    ConnectionFiledUnderSource(f, 0);
    SelfLoopNeverReturns(sim, svc, StartNode(), input, fuel);
  }
}
