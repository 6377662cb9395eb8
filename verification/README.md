# flow_simulator in Dafny

A model of the `flow_simulator` package, a local stand-in for a managed
prompt-flow service. The package has three parts:

- **Flow definitions** (`Models`, `models.dfy`). A flow is a list of nodes with
  typed input and output ports, plus a list of data connections from a source
  node's output to a target node's input. Node configuration is a tagged union:
  empty, a Lambda function ARN, a prompt dictionary, or a knowledge-base id.
  The module also holds the three example flows the package builds (identity,
  upcase through a Lambda function, and knowledge-base question answering),
  and a `WellFormed` predicate that all three are proved to satisfy:
  - unique node names;
  - connections that resolve to existing nodes and declared ports;
  - exactly one Input node and one Output node;
  - no inputs on the Input node and no outputs on the Output node.
- **The simulator** (`Simulator`, `simulator.dfy`; `Runs`, `runs.dfy`).
  - It builds a name-to-node table and a source-to-connection table. Both are
    dictionary comprehensions, so the last-declared entry per key wins.
  - It walks from the node named "Start" along one connection per step until
    the current node has type "Output", and threads one string through the
    processing of every node it moves to.
  - Lambda, Prompt and KnowledgeBase nodes call external services. These are
    oracles in a `Services` value. Every other node type passes the data on.
  - `Runs` characterises a run independently of the loop. A run is a *route*:
    a chain of successors from Start to an Output node. The result is the
    input threaded through the route's nodes after Start. The module proves
    the loop equal to that description in both directions.
- **The Mermaid renderer** (`Visualizer`, `visualizer.dfy`). It produces a
  header line, one line per node and one line per connection, in declaration
  order, joined by newlines. When no node name or type and no connection
  source, name or target contains a newline, the text splits back into
  exactly those lines.
- **The example runs** (`Scenarios`, `scenarios.dfy`; `Diagrams`,
  `diagrams.dfy`). These state what the three example flows compute and draw:
  - the identity flow returns its input;
  - the upcase flow returns the Lambda function's `output` field;
  - the knowledge-base flow returns the prompt completion and never queries
    the knowledge base. Its second connection from Start replaces the first in
    the connection table, while the diagram still draws both.

Python exceptions are modelled as values of `SimError`:

| Python | `SimError` |
|---|---|
| a `KeyError` from a dictionary lookup | `KeyNotFound` |
| an `AttributeError` from a configuration of the wrong kind | `AttributeMissing` |

The `while` loop of `simulate` has no termination guarantee, so `Simulate` takes
a fuel count. `OutOfFuel` marks a walk that would have gone on longer than
the fuel allows. For a pass-through node that is its own successor, such as a
Start node connected to itself, that means forever, for every fuel
(`SelfLoopNeverReturns`, `SelfLoopFlowNeverReturns`).

The simulator follows one connection per node: the last one declared from
that node. It has no topological ordering and no per-port input table. The
knowledge-base scenarios state the consequence: the retrieval branch is
dropped.

## Model

| member | source | states |
|---|---|---|
| Models.InputPort | flow_simulator/models.py:4-7 | an input port built without an expression has expression `"$.data"` |
| Models.NewNode | flow_simulator/models.py:16-21 | a node built without port lists declares no inputs and no outputs |
| Models.NewConnection | flow_simulator/models.py:27-32 | a connection built without a type has type `"Data"` |
| Models.IdentityFlow | flow_simulator/models.py:47-74 | two nodes and one connection: Start (Input) first, End (Output) last, the connection from Start to End mapping `document` to `document` |
| Models.UpcaseFlow | flow_simulator/models.py:76-124 | three nodes and two connections; the middle node is the Lambda node "Upcase" whose configuration carries exactly the given ARN; Start feeds its `input` port and its `functionResponse` feeds End |
| Models.KnowledgeBaseFlow | flow_simulator/models.py:126-215 | four nodes and four connections; the KnowledgeBase node carries the given id, and the Prompt node's `sourceConfiguration.resource` is exactly `{promptArn: p}` |
| Models.IdentityFlowWellFormed | flow_simulator/models.py:47-74 | the identity flow has unique names, resolving connections and ports, one Input and one Output node, and clean endpoint ports |
| Models.UpcaseFlowWellFormed | flow_simulator/models.py:76-124 | the upcase flow is well-formed in the same sense, for every ARN |
| Models.KnowledgeBaseFlowWellFormed | flow_simulator/models.py:126-215 | the knowledge-base flow is well-formed in the same sense, for every id and prompt ARN |
| Models.KnowledgeBaseFanOut | flow_simulator/models.py:168-190 | Start has exactly two outgoing connections, to QueryKnowledgeBase and then to GenerateResponse |
| Models.KnowledgeBaseFanIn | flow_simulator/models.py:180-201 | GenerateResponse has exactly two incoming connections, feeding its distinct ports `query` and `context` |
| Simulator.IndexBy | flow_simulator/simulator.py:8-9 | the table's keys are exactly the keys occurring in the list, and each maps to the last element carrying that key |
| Simulator.LastDeclaredWins | flow_simulator/simulator.py:9 | an element whose key no later element repeats is the one the table keeps |
| Simulator.EarlierDeclaredDropped | flow_simulator/simulator.py:9 | an element followed by another with the same key is replaced by an element at or after the later position |
| Simulator.NewSimulator | flow_simulator/simulator.py:6-9 | the node table indexes the nodes by name and the connection table indexes the connections by source, last declaration winning; every entry is filed under its own key |
| Simulator.LambdaPayload | flow_simulator/simulator.py:40 | the Lambda payload is the object with the single key `input`, holding the data |
| Simulator.PromptText | flow_simulator/simulator.py:47 | the prompt text is the prompt ARN, then `"\n\nInput: "`, then the data, and nothing else |
| Simulator.ModelIdOf | flow_simulator/simulator.py:46 | the model id is the resource's `modelId` when present, otherwise `"anthropic.claude-v2"` |
| Simulator.ModelRequestFor | flow_simulator/simulator.py:53-60 | the model request carries the prompt text, 500 tokens to sample, top_p 1, top_k 250 and the stop sequence `"\n\nHuman:"` |
| Simulator.RetrievalRequestFor | flow_simulator/simulator.py:67-71 | the retrieval request queries the node's knowledge base with the data and asks for 5 results |
| Simulator.PromptResource | flow_simulator/simulator.py:45-47 | the resource lookup fails on `sourceConfiguration`, then on `resource`, whichever is missing first; it succeeds exactly when both are present, with the resource entry |
| Simulator.InvokeLambda | flow_simulator/simulator.py:36-42 | a non-Lambda configuration fails on `lambdaArn`; otherwise the result is the `output` field of the service's answer to `{"input": data}`, and a missing field fails on `output` |
| Simulator.InvokePrompt | flow_simulator/simulator.py:44-63 | a non-prompt configuration fails on `prompt`, and a missing resource fails as the lookup does. A missing `promptArn` fails. Otherwise the result is the `completion` field of the answer of the resource's model (or the default) to the prompt text |
| Simulator.QueryKnowledgeBase | flow_simulator/simulator.py:65-72 | a non-knowledge-base configuration fails on `knowledgeBaseId`; otherwise the result is the `retrievalResults` field of the retrieval of 5 results for the data |
| Simulator.ProcessNode | flow_simulator/simulator.py:26-34 | LambdaFunction, Prompt and KnowledgeBase nodes go to their service; every other type, Input and Output included, returns the data unchanged |
| Simulator.Successor | flow_simulator/simulator.py:19-20 | the successor lookup fails on the node's name when it has no outgoing connection, and on the target's name when the target is missing; it succeeds exactly when the node has a kept connection whose target is in the node table, and then it is the node filed under that target |
| Simulator.Walk | flow_simulator/simulator.py:18-24 | at an Output node the walk returns the current data; with fuel left and no outgoing connection it fails on the current node's name |
| Simulator.Simulate | flow_simulator/simulator.py:14-24 | without a node named "Start" the run fails on `"Start"`; a Start node of type Output returns the input unprocessed |
| Runs.WalkFollowsChain | flow_simulator/simulator.py:18-22 | along a chain of successors ending at an Output node, the walk processes exactly the chain's nodes after the first, in order |
| Runs.WalkFindsChain | flow_simulator/simulator.py:18-24 | every walk that returns a value went along such a chain, no longer than the fuel, and its value is the data threaded through the chain |
| Runs.SimulateIsRoute | flow_simulator/simulator.py:14-24 | a run returns `out` if and only if some route from Start within the fuel threads the input to `out` |
| Runs.ChainUnique | flow_simulator/simulator.py:19-20 | two chains from the same node are equal: the successor function is deterministic |
| Runs.WalkFuelMonotone | flow_simulator/simulator.py:18-22 | a walk that finished without running out of fuel gives the same result with any larger fuel |
| Runs.SelfLoopNeverReturns | flow_simulator/simulator.py:18-22 | a pass-through node that is its own successor never finishes, for any fuel |
| Runs.WellFormedLookups | flow_simulator/simulator.py:8-9 | in a well-formed flow every node is filed under its name, and a successor lookup fails only for want of an outgoing connection; a successor is always a node of the flow |
| Runs.NodeFiledUnderName | flow_simulator/simulator.py:8 | with unique names, every node is in the node table under its own name |
| Runs.ConnectionFiledUnderSource | flow_simulator/simulator.py:9 | a connection that no later connection from the same source overrides is in the connection table under its source |
| Runs.SuccessorAt | flow_simulator/simulator.py:19-20 | with unique names, the last-declared connection out of a node determines its successor |
| Runs.MissingStartFails | flow_simulator/simulator.py:15 | a flow without a node named "Start" fails on `"Start"` |
| Runs.DeadEndStartFails | flow_simulator/simulator.py:15-19 | when every node named "Start" is non-Output and no connection leaves "Start", a run with any fuel fails on `"Start"`, however many nodes share the name |
| Runs.WalkStopsAtDeadEnd | flow_simulator/simulator.py:18-22 | a walk along successors that reaches, within the fuel and without a processing error, a non-Output node whose lookup fails returns that lookup's error |
| Runs.DeadEndFails | flow_simulator/simulator.py:15-22 | a run that reaches from Start a non-Output node with no outgoing connection fails on that node's name; one whose kept connection targets a missing node fails on the target's name |
| Visualizer.MermaidLines | flow_simulator/visualizer.py:5-11 | the diagram has 1 + nodes + connections lines: `graph TD`, then line k+1 for node k as `    name[name <br> Type: type]`, then one line per connection in order: indent, source, an arrow labelled with the connection's name, target |
| Visualizer.GenerateMermaid | flow_simulator/visualizer.py:4-13 | the loops append exactly those lines, and the text is their newline join |
| Visualizer.SplitJoin | flow_simulator/visualizer.py:13 | splitting the newline join of newline-free lines gives the lines back |
| Visualizer.JoinSplit | flow_simulator/visualizer.py:13 | joining the pieces of any text split at newlines gives the text back |
| Visualizer.MermaidTextLines | flow_simulator/visualizer.py:5-13 | when no name or type contains a newline, the text splits into exactly the diagram's 1 + nodes + connections lines and does not end with a newline |
| Diagrams.IdentityFlowDiagram | flow_simulator/tests/test_visualizer.py:10-16 | the identity diagram is exactly `graph TD`, the Start and End node lines, and the StartToEnd connection line |
| Diagrams.UpcaseFlowDiagram | flow_simulator/tests/test_visualizer.py:19-28 | the upcase diagram has 6 lines, ending with the StartToUpcase and UpcaseToEnd lines |
| Diagrams.KnowledgeBaseDiagramFanOut | flow_simulator/tests/test_visualizer.py:31-46 | the knowledge-base diagram has 9 lines and draws all four connections, both fan-out edges from Start included |
| Scenarios.IdentityFlowReturnsInput | flow_simulator/tests/test_simulator.py:11-21 | the identity flow returns its input unchanged, whatever the services answer |
| Scenarios.UpcaseSuccessors | flow_simulator/models.py:99-122 | in the upcase flow Start leads to Upcase and Upcase leads to End |
| Scenarios.UpcaseFlowRoute | flow_simulator/simulator.py:18-22 | Start, Upcase, End is a route of the upcase flow |
| Scenarios.UpcaseFlowReturnsLambdaOutput | flow_simulator/tests/test_simulator.py:24-38 | the upcase flow returns the `output` field of the Lambda answer to `{"input": input}`, or fails on `output` |
| Scenarios.KnowledgeBaseSuccessors | flow_simulator/simulator.py:9 | the connection table keeps StartToPrompt for Start, so Start leads to GenerateResponse, which leads to End |
| Scenarios.KnowledgeBaseFlowRoute | flow_simulator/simulator.py:18-22 | Start, GenerateResponse, End is a route of the knowledge-base flow |
| Scenarios.KnowledgeBaseRouteSkipsRetrieval | flow_simulator/simulator.py:9-22 | every route of the knowledge-base flow is Start, GenerateResponse, End: the retrieval node is never visited |
| Scenarios.GenerateResponseAnswers | flow_simulator/simulator.py:44-63 | GenerateResponse asks the default model for the completion of `promptArn + "\n\nInput: " + data` |
| Scenarios.KnowledgeBaseFlowReturnsCompletion | flow_simulator/tests/test_simulator.py:41-61 | the knowledge-base flow returns that completion for the input (or fails on `completion`); the retrieval service plays no part |
| Scenarios.SelfLoopFlowNeverReturns | flow_simulator/simulator.py:18-22 | a Start node connected to itself never finishes: the run is out of fuel for every fuel |

## Left out

- Service calls: the Lambda, model-inference and knowledge-base clients are the three oracles of `Services`. Their transport, errors and retries are not modelled.
- JSON encoding and decoding: the services take requests and return the response's fields as a string-keyed map. Encoding the payload and decoding the response body happen inside the oracles.
- Simulator.QueryKnowledgeBase: the retrieval results are a string that the oracle has already serialized, so this model does not include `json.dumps` of the results list.
- Simulator.InvokeLambda: response fields are strings. A JSON `output` of another type would be returned as that value, and the model does not cover it.
- Simulator.ModelRequestFor: the request omits the floating-point temperature 0.7, the content type and the accept header; none affects the model's behaviour.
- Simulator.Simulate: the `while` loop may never end. `Simulate` takes a fuel count and returns `OutOfFuel` when it runs out. `WalkFuelMonotone` shows that extra fuel does not change a finished run. `SelfLoopNeverReturns` shows a cycle that exhausts any fuel.
- The prompt configuration dictionary is modelled only along the path the simulator reads: `sourceConfiguration`, then `resource`, then a string map with `promptArn` and optionally `modelId`. Other keys of the dictionary are not kept.
- Node type is a free string, as in the code. A configuration of the wrong kind for the node type is the `AttributeMissing` error, in place of the runtime attribute error.
- Pydantic validation of field types is not modelled: the datatypes are well typed by construction.
- The service clients created in the constructor are the `Services` argument, not fields of the simulator.
- flow_simulator/utils.py is not part of this model: it is file reading and writing and JSON (de)serialization of flows.
- flow_simulator/bedrock_updater.py and flow_simulator/main.py are not part of this model: they are cloud create/update calls and a demo driver.
- The provisioning, invocation, evaluation and advisor scripts at the top of the repository are not part of this model: they are cloud API calls, polling, interactive input and charting.
