/**
 * What a simulation run is, independently of the loop that performs it: the
 * route of nodes from "Start" to the first Output node, each reached through
 * the current node's last-declared outgoing connection, and the data threaded
 * through the processing of every node on the route after "Start".
 */
module Runs {
  import opened Wrappers
  import opened Models
  import opened Simulator

  /** Feeds `data` through the processing of each node in turn, stopping at the first error. */
  function Thread(svc: Services, nodes: seq<FlowNode>, data: string): Result<string, SimError>
    decreases |nodes|
  {
    if |nodes| == 0 then Ok(data)
    else
      var data' :- ProcessNode(svc, nodes[0], data);
      Thread(svc, nodes[1..], data')
  }

  /**
   * `path` moves from each non-Output node to its successor and ends at the
   * first Output node it meets.
   */
  ghost predicate IsChain(sim: FlowSimulator, path: seq<FlowNode>) {
    && |path| >= 1
    && (forall k :: 0 <= k < |path| - 1 ==>
          path[k].nodeType != "Output" && Successor(sim, path[k]) == Ok(path[k + 1]))
    && path[|path| - 1].nodeType == "Output"
  }

  /** A chain that starts at the node filed under "Start". */
  ghost predicate IsRoute(sim: FlowSimulator, path: seq<FlowNode>) {
    && "Start" in sim.nodeMap
    && IsChain(sim, path)
    && path[0] == sim.nodeMap["Start"]
  }

  lemma {:induction false} ChainTail(sim: FlowSimulator, path: seq<FlowNode>)
    requires IsChain(sim, path) && |path| > 1
    ensures IsChain(sim, path[1..])
  {
    forall k | 0 <= k < |path[1..]| - 1
      ensures path[1..][k].nodeType != "Output" && Successor(sim, path[1..][k]) == Ok(path[1..][k + 1])
    {
      assert path[1..][k] == path[k + 1] && path[1..][k + 1] == path[k + 2];
    }
  }

  /** Walking along a chain processes exactly the chain's nodes after the first, in order. */
  lemma {:induction false} WalkFollowsChain(sim: FlowSimulator, svc: Services, path: seq<FlowNode>, data: string, fuel: nat)
    requires IsChain(sim, path) && |path| <= fuel + 1
    ensures Walk(sim, svc, path[0], data, fuel) == Thread(svc, path[1..], data)
    decreases |path|
  {
    if |path| > 1 {
      assert path[0].nodeType != "Output" && Successor(sim, path[0]) == Ok(path[1]);
      ChainTail(sim, path);
      assert path[1..][0] == path[1] && path[1..][1..] == path[2..];
      match ProcessNode(svc, path[1], data)
      case Err(_) =>
      case Ok(d) =>
        WalkFollowsChain(sim, svc, path[1..], d, fuel - 1);
    }
  }

  /** A walk that returns a value went along a chain no longer than the fuel allows. */
  lemma {:induction false} WalkFindsChain(sim: FlowSimulator, svc: Services, current: FlowNode, data: string, fuel: nat)
    returns (path: seq<FlowNode>)
    requires Walk(sim, svc, current, data, fuel).Ok?
    ensures IsChain(sim, path) && path[0] == current && |path| <= fuel + 1
    ensures Thread(svc, path[1..], data) == Walk(sim, svc, current, data, fuel)
    decreases fuel
  {
    if current.nodeType == "Output" {
      path := [current];
    } else {
      var next := Successor(sim, current).value;
      var d := ProcessNode(svc, next, data).value;
      var rest := WalkFindsChain(sim, svc, next, d, fuel - 1);
      path := [current] + rest;
      assert path[1..] == rest;
      forall k | 0 <= k < |path| - 1
        ensures path[k].nodeType != "Output" && Successor(sim, path[k]) == Ok(path[k + 1])
      {
        if k > 0 {
          assert path[k] == rest[k - 1] && path[k + 1] == rest[k];
        }
      }
    }
  }

  /**
   * `simulate` returns `out` exactly when a route from "Start" exists within
   * the fuel and threading the input through the route's nodes after "Start"
   * yields `out`.
   */
  lemma SimulateIsRoute(sim: FlowSimulator, svc: Services, input: string, fuel: nat, out: string)
    ensures Simulate(sim, svc, input, fuel) == Ok(out) <==>
            exists path :: IsRoute(sim, path) && |path| <= fuel + 1 && Thread(svc, path[1..], input) == Ok(out)
  {
    if Simulate(sim, svc, input, fuel) == Ok(out) {
      var path := WalkFindsChain(sim, svc, sim.nodeMap["Start"], input, fuel);
      assert IsRoute(sim, path);
    }
    if exists path :: IsRoute(sim, path) && |path| <= fuel + 1 && Thread(svc, path[1..], input) == Ok(out) {
      var path :| IsRoute(sim, path) && |path| <= fuel + 1 && Thread(svc, path[1..], input) == Ok(out);
      WalkFollowsChain(sim, svc, path, input, fuel);
    }
  }

  /** Three nodes linked by their successors, from the Start node to an Output node, form a route. */
  lemma ThreeNodeRoute(sim: FlowSimulator, a: FlowNode, b: FlowNode, c: FlowNode)
    requires "Start" in sim.nodeMap && sim.nodeMap["Start"] == a
    requires a.nodeType != "Output" && b.nodeType != "Output" && c.nodeType == "Output"
    requires Successor(sim, a) == Ok(b) && Successor(sim, b) == Ok(c)
    ensures IsRoute(sim, [a, b, c])
  {
  }

  /** Successors are determined by the tables alone, so a chain is fixed by its first node. */
  lemma {:induction false} ChainUnique(sim: FlowSimulator, p: seq<FlowNode>, q: seq<FlowNode>)
    requires IsChain(sim, p) && IsChain(sim, q) && p[0] == q[0]
    ensures p == q
    decreases |p|
  {
    if |p| > 1 && |q| > 1 {
      assert Successor(sim, p[0]) == Ok(p[1]) && Successor(sim, q[0]) == Ok(q[1]);
      ChainTail(sim, p);
      ChainTail(sim, q);
      ChainUnique(sim, p[1..], q[1..]);
      assert p == [p[0]] + p[1..] && q == [q[0]] + q[1..];
    }
  }

  /** Once a walk has finished without running out of fuel, more fuel changes nothing. */
  lemma {:induction false} WalkFuelMonotone(sim: FlowSimulator, svc: Services, current: FlowNode, data: string,
                                            fuel: nat, fuel': nat)
    requires Walk(sim, svc, current, data, fuel) != Err(OutOfFuel) && fuel <= fuel'
    ensures Walk(sim, svc, current, data, fuel') == Walk(sim, svc, current, data, fuel)
    decreases fuel
  {
    if current.nodeType != "Output" && Successor(sim, current).Ok? {
      var next := Successor(sim, current).value;
      if ProcessNode(svc, next, data).Ok? {
        WalkFuelMonotone(sim, svc, next, ProcessNode(svc, next, data).value, fuel - 1, fuel' - 1);
      }
    }
  }

  /**
   * A pass-through node that is its own successor keeps the loop going
   * forever: no amount of fuel makes the walk return.
   */
  lemma {:induction false} SelfLoopNeverReturns(sim: FlowSimulator, svc: Services, node: FlowNode, data: string, fuel: nat)
    requires node.nodeType != "Output" && IsPassThrough(node.nodeType)
    requires Successor(sim, node) == Ok(node)
    ensures Walk(sim, svc, node, data, fuel) == Err(OutOfFuel)
    decreases fuel
  {
    if fuel > 0 {
      SelfLoopNeverReturns(sim, svc, node, data, fuel - 1);
    }
  }

  /**
   * In a well-formed flow every node is filed under its name, and a lookup
   * of a successor fails only for want of an outgoing connection: the target
   * of every connection exists.
   */
  lemma WellFormedLookups(flow: FlowDefinition, n: FlowNode)
    requires WellFormed(flow) && n in flow.nodes
    ensures n.name in NewSimulator(flow).nodeMap && NewSimulator(flow).nodeMap[n.name] == n
    ensures Successor(NewSimulator(flow), n).Ok? || Successor(NewSimulator(flow), n) == Err(KeyNotFound(n.name))
    ensures Successor(NewSimulator(flow), n).Ok? ==> Successor(NewSimulator(flow), n).value in flow.nodes
  {
    var sim := NewSimulator(flow);
    var i :| 0 <= i < |flow.nodes| && flow.nodes[i] == n;
    NodeFiledUnderName(flow, i);
    if n.name in sim.connectionMap {
      var c := sim.connectionMap[n.name];
      var ci :| LastWithKey(flow.connections, ConnectionSource, n.name, ci) && c == flow.connections[ci];
      assert c in flow.connections;
      assert ConnectionResolves(flow.nodes, c);
      var t :| 0 <= t < |flow.nodes| && flow.nodes[t].name == c.target;
      NodeFiledUnderName(flow, t);
    }
  }

  /** With unique names the node table keeps every node. */
  lemma NodeFiledUnderName(flow: FlowDefinition, i: nat)
    requires UniqueNames(flow.nodes) && i < |flow.nodes|
    ensures flow.nodes[i].name in NewSimulator(flow).nodeMap
    ensures NewSimulator(flow).nodeMap[flow.nodes[i].name] == flow.nodes[i]
  {
    forall j | i < j < |flow.nodes|
      ensures NodeName(flow.nodes[j]) != NodeName(flow.nodes[i])
    {
    }
    LastDeclaredWins(flow.nodes, NodeName, i);
  }

  /** A connection that no later connection from the same source overrides is the one kept. */
  lemma ConnectionFiledUnderSource(flow: FlowDefinition, i: nat)
    requires i < |flow.connections|
    requires forall j :: i < j < |flow.connections| ==> flow.connections[j].source != flow.connections[i].source
    ensures flow.connections[i].source in NewSimulator(flow).connectionMap
    ensures NewSimulator(flow).connectionMap[flow.connections[i].source] == flow.connections[i]
  {
    forall j | i < j < |flow.connections|
      ensures ConnectionSource(flow.connections[j]) != ConnectionSource(flow.connections[i])
    {
    }
    LastDeclaredWins(flow.connections, ConnectionSource, i);
  }

  /**
   * With unique names, the successor of the node at position `i` is the node
   * at position `j` when connection `ci` leads from one to the other and no
   * later connection leaves the same node.
   */
  lemma SuccessorAt(flow: FlowDefinition, i: nat, ci: nat, j: nat)
    requires UniqueNames(flow.nodes) && i < |flow.nodes| && j < |flow.nodes| && ci < |flow.connections|
    requires flow.connections[ci].source == flow.nodes[i].name && flow.connections[ci].target == flow.nodes[j].name
    requires forall k :: ci < k < |flow.connections| ==> flow.connections[k].source != flow.nodes[i].name
    ensures Successor(NewSimulator(flow), flow.nodes[i]) == Ok(flow.nodes[j])
  {
    ConnectionFiledUnderSource(flow, ci);
    NodeFiledUnderName(flow, j);
  }

  /** Without a node named "Start" the simulation fails on that lookup. */
  lemma MissingStartFails(flow: FlowDefinition, svc: Services, input: string, fuel: nat)
    requires !HasNode(flow.nodes, "Start")
    ensures Simulate(NewSimulator(flow), svc, input, fuel) == Err(KeyNotFound("Start"))
  {
    forall i | 0 <= i < |flow.nodes| ensures NodeName(flow.nodes[i]) != "Start" {
    }
  }

  /**
   * A node named "Start" that is not an Output node and has no outgoing
   * connection makes the first lookup in the loop fail. When several nodes
   * share the name, the last one is the one looked up, and it fails alike.
   */
  lemma DeadEndStartFails(flow: FlowDefinition, svc: Services, input: string, fuel: nat)
    requires forall i :: 0 <= i < |flow.nodes| && flow.nodes[i].name == "Start" ==> flow.nodes[i].nodeType != "Output"
    requires HasNode(flow.nodes, "Start")
    requires forall c :: c in flow.connections ==> c.source != "Start"
    requires fuel > 0
    ensures Simulate(NewSimulator(flow), svc, input, fuel) == Err(KeyNotFound("Start"))
  {
    var sim := NewSimulator(flow);
    var i :| 0 <= i < |flow.nodes| && flow.nodes[i].name == "Start";
    assert NodeName(flow.nodes[i]) == "Start";
    assert "Start" in sim.nodeMap;
    var last :| LastWithKey(flow.nodes, NodeName, "Start", last) && sim.nodeMap["Start"] == flow.nodes[last];
    forall j | 0 <= j < |flow.connections| ensures ConnectionSource(flow.connections[j]) != "Start" {
      assert flow.connections[j] in flow.connections;
    }
  }

  /**
   * `path` moves from each node to its successor and ends at a non-Output
   * node whose successor lookup fails: no outgoing connection, or a
   * connection to a missing node.
   */
  ghost predicate IsDeadEndChain(sim: FlowSimulator, path: seq<FlowNode>) {
    && |path| >= 1
    && (forall k :: 0 <= k < |path| - 1 ==>
          path[k].nodeType != "Output" && Successor(sim, path[k]) == Ok(path[k + 1]))
    && path[|path| - 1].nodeType != "Output"
    && Successor(sim, path[|path| - 1]).Err?
  }

  /**
   * A walk that reaches a dead end with fuel to spare, every node before it
   * processed without error, fails with the dead end's lookup error.
   */
  lemma {:induction false} WalkStopsAtDeadEnd(sim: FlowSimulator, svc: Services, path: seq<FlowNode>, data: string, fuel: nat)
    requires IsDeadEndChain(sim, path) && |path| <= fuel
    requires Thread(svc, path[1..], data).Ok?
    ensures Walk(sim, svc, path[0], data, fuel) == Err(Successor(sim, path[|path| - 1]).error)
    decreases |path|
  {
    if |path| > 1 {
      assert Successor(sim, path[0]) == Ok(path[1]);
      var rest := path[1..];
      assert rest[0] == path[1] && rest[1..] == path[2..];
      var d := ProcessNode(svc, path[1], data).value;
      forall k | 0 <= k < |rest| - 1
        ensures rest[k].nodeType != "Output" && Successor(sim, rest[k]) == Ok(rest[k + 1])
      {
        assert rest[k] == path[k + 1] && rest[k + 1] == path[k + 2];
      }
      WalkStopsAtDeadEnd(sim, svc, rest, d, fuel - 1);
    }
  }

  /**
   * A run that reaches, from Start, a non-Output node without an outgoing
   * connection fails on that node's name; one that reaches a node whose kept
   * connection targets a missing node fails on the target's name.
   */
  lemma DeadEndFails(sim: FlowSimulator, svc: Services, path: seq<FlowNode>, input: string, fuel: nat)
    requires "Start" in sim.nodeMap && IsDeadEndChain(sim, path) && path[0] == sim.nodeMap["Start"]
    requires |path| <= fuel && Thread(svc, path[1..], input).Ok?
    ensures var last := path[|path| - 1];
            last.name !in sim.connectionMap ==> Simulate(sim, svc, input, fuel) == Err(KeyNotFound(last.name))
    ensures var last := path[|path| - 1];
            last.name in sim.connectionMap ==>
              Simulate(sim, svc, input, fuel) == Err(KeyNotFound(sim.connectionMap[last.name].target))
  {
    WalkStopsAtDeadEnd(sim, svc, path, input, fuel);
  }

}
