/** The workflow graph the server receives (`nodes`, `edges`) and
    `WorkflowService.validate_workflow`: required component types, per-node
    configuration warnings and the unconnected-node warning. */
module Workflow {
  import opened Values
  import opened Text

  /** One entry of `nodes`: its `id`, its `type` tag and its `data` object. */
  datatype Node = Node(id: string, nodeType: string, data: Config)

  /** One entry of `edges`: a directed connection from `source` to `target`. */
  datatype Edge = Edge(source: string, target: string)

  /** The dictionary `validate_workflow` returns. */
  datatype Validation = Validation(valid: bool, errors: seq<string>, warnings: seq<string>)

  const UserQueryType := "userQuery"
  const KnowledgeBaseType := "knowledgeBase"
  const LlmEngineType := "llmEngine"
  const OutputType := "output"

  const MissingUserQuery := "Workflow must have a User Query component"
  const MissingOutput := "Workflow must have an Output component"
  const MissingLlmEngine := "Workflow should have an LLM Engine component"

  /** Some node carries the type tag `t`. */
  predicate HasType(nodes: seq<Node>, t: string) {
    exists i :: 0 <= i < |nodes| && nodes[i].nodeType == t
  }

  /** The errors: one per missing required component, user query first. */
  function RequiredErrors(nodes: seq<Node>): seq<string> {
    (if HasType(nodes, UserQueryType) then [] else [MissingUserQuery])
    + (if HasType(nodes, OutputType) then [] else [MissingOutput])
  }

  /** An LLM engine without a truthy model provider, or a knowledge base
      without a truthy collection name. */
  predicate Misconfigured(n: Node) {
    (n.nodeType == LlmEngineType && !PyGetTruthy(n.data, "modelProvider"))
    || (n.nodeType == KnowledgeBaseType && !PyGetTruthy(n.data, "collectionName"))
  }

  /** The warning text for a misconfigured node, naming its id. */
  function ConfigWarning(n: Node): string
    requires Misconfigured(n)
  {
    if n.nodeType == LlmEngineType
    then "LLM Engine node " + n.id + " should specify a model provider"
    else "Knowledge Base node " + n.id + " should specify a collection name"
  }

  /** The configuration warnings of the nodes, in node order. */
  function ConfigWarnings(nodes: seq<Node>): seq<string> {
    if nodes == [] then []
    else
      var last := nodes[|nodes| - 1];
      ConfigWarnings(nodes[..|nodes| - 1]) + (if Misconfigured(last) then [ConfigWarning(last)] else [])
  }

  /** Every id an edge mentions, as source or as target. */
  function Touched(edges: seq<Edge>): set<string> {
    (set e | e in edges :: e.source) + (set e | e in edges :: e.target)
  }

  /** The ids of the nodes no edge mentions, in node order. */
  function Unconnected(nodes: seq<Node>, touched: set<string>): seq<string> {
    if nodes == [] then []
    else
      var last := nodes[|nodes| - 1];
      Unconnected(nodes[..|nodes| - 1], touched) + (if last.id in touched then [] else [last.id])
  }

  /** The single "Unconnected nodes" warning, present only when some node is unconnected. */
  function UnconnectedWarnings(nodes: seq<Node>, edges: seq<Edge>): seq<string> {
    var u := Unconnected(nodes, Touched(edges));
    if u == [] then [] else ["Unconnected nodes: " + Join(u, ", ")]
  }

  /** `validate_workflow(nodes, edges)`. */
  method ValidateWorkflow(nodes: seq<Node>, edges: seq<Edge>) returns (r: Validation)
    ensures r.valid <==> HasType(nodes, UserQueryType) && HasType(nodes, OutputType)
    ensures r.errors == RequiredErrors(nodes)
    ensures r.warnings
            == (if HasType(nodes, LlmEngineType) then [] else [MissingLlmEngine])
               + ConfigWarnings(nodes) + UnconnectedWarnings(nodes, edges)
  {
    var errors: seq<string> := [];
    var warnings: seq<string> := [];
    var nodeTypes := seq(|nodes|, i requires 0 <= i < |nodes| => nodes[i].nodeType);
    forall t | HasType(nodes, t) ensures t in nodeTypes {
      var i :| 0 <= i < |nodes| && nodes[i].nodeType == t;
      assert nodeTypes[i] == t;
    }

    if UserQueryType !in nodeTypes {
      errors := errors + [MissingUserQuery];
    }
    if OutputType !in nodeTypes {
      errors := errors + [MissingOutput];
    }
    if LlmEngineType !in nodeTypes {
      warnings := warnings + [MissingLlmEngine];
    }

    var configWarnings := CollectConfigWarnings(nodes);
    warnings := warnings + configWarnings;

    var connected := ConnectedIds(edges);
    var unconnected := UnconnectedIds(nodes, connected);
    if unconnected != [] {
      warnings := warnings + ["Unconnected nodes: " + Join(unconnected, ", ")];
    }
    r := Validation(|errors| == 0, errors, warnings);
  }

  /** The loop over the nodes that checks each one's configuration. */
  method CollectConfigWarnings(nodes: seq<Node>) returns (warnings: seq<string>)
    ensures warnings == ConfigWarnings(nodes)
  {
    warnings := [];
    for i := 0 to |nodes|
      invariant warnings == ConfigWarnings(nodes[..i])
    {
      var node := nodes[i];
      if node.nodeType == LlmEngineType {
        if !PyGetTruthy(node.data, "modelProvider") {
          warnings := warnings + ["LLM Engine node " + node.id + " should specify a model provider"];
        }
      } else if node.nodeType == KnowledgeBaseType {
        if !PyGetTruthy(node.data, "collectionName") {
          warnings := warnings + ["Knowledge Base node " + node.id + " should specify a collection name"];
        }
      }
      assert nodes[..i + 1][..i] == nodes[..i];
    }
    assert nodes[..|nodes|] == nodes;
  }

  /** The loop over the edges that collects every mentioned id. */
  method ConnectedIds(edges: seq<Edge>) returns (connected: set<string>)
    ensures connected == Touched(edges)
  {
    connected := {};
    for j := 0 to |edges|
      invariant connected == Touched(edges[..j])
    {
      connected := connected + {edges[j].source} + {edges[j].target};
      assert edges[..j + 1] == edges[..j] + [edges[j]];
    }
    assert edges[..|edges|] == edges;
  }

  /** The loop over the nodes that keeps the ids no edge mentions. */
  method UnconnectedIds(nodes: seq<Node>, connected: set<string>) returns (unconnected: seq<string>)
    ensures unconnected == Unconnected(nodes, connected)
  {
    unconnected := [];
    for i := 0 to |nodes|
      invariant unconnected == Unconnected(nodes[..i], connected)
    {
      if nodes[i].id !in connected {
        unconnected := unconnected + [nodes[i].id];
      }
      assert nodes[..i + 1][..i] == nodes[..i];
    }
    assert nodes[..|nodes|] == nodes;
  }

  /** No configuration warning exactly when every LLM engine names a model
      provider and every knowledge base names a collection. */
  lemma {:induction false} ConfigWarningsEmpty(nodes: seq<Node>)
    ensures ConfigWarnings(nodes) == [] <==> forall i :: 0 <= i < |nodes| ==> !Misconfigured(nodes[i])
  {
    if nodes != [] {
      var init := nodes[..|nodes| - 1];
      ConfigWarningsEmpty(init);
      assert forall i :: 0 <= i < |init| ==> init[i] == nodes[i];
    }
  }

  /** The misconfigured nodes, in node order. */
  function MisconfiguredNodes(nodes: seq<Node>): seq<Node> {
    if nodes == [] then []
    else
      var last := nodes[|nodes| - 1];
      MisconfiguredNodes(nodes[..|nodes| - 1]) + (if Misconfigured(last) then [last] else [])
  }

  /** A node is listed as misconfigured exactly when it is a misconfigured node of the workflow. */
  lemma {:induction false} MisconfiguredNodesMembers(nodes: seq<Node>, n: Node)
    ensures n in MisconfiguredNodes(nodes) <==> n in nodes && Misconfigured(n)
  {
    if nodes != [] {
      var init := nodes[..|nodes| - 1];
      MisconfiguredNodesMembers(init, n);
      assert nodes == init + [nodes[|nodes| - 1]];
    }
  }

  /** There is one configuration warning per misconfigured node, in node
      order, and the k-th warning is the one for the k-th such node. */
  lemma {:induction false} ConfigWarningsCount(nodes: seq<Node>)
    ensures |ConfigWarnings(nodes)| == |MisconfiguredNodes(nodes)|
    ensures forall k :: 0 <= k < |ConfigWarnings(nodes)| ==>
              Misconfigured(MisconfiguredNodes(nodes)[k])
              && ConfigWarnings(nodes)[k] == ConfigWarning(MisconfiguredNodes(nodes)[k])
  {
    if nodes != [] {
      var init := nodes[..|nodes| - 1];
      ConfigWarningsCount(init);
    }
  }

  /** An id is listed as unconnected exactly when it is the id of a node that
      no edge mentions. */
  lemma {:induction false} UnconnectedMembers(nodes: seq<Node>, edges: seq<Edge>, x: string)
    ensures x in Unconnected(nodes, Touched(edges))
            <==> (exists i :: 0 <= i < |nodes| && nodes[i].id == x)
                 && (forall e :: e in edges ==> e.source != x && e.target != x)
  {
    if nodes != [] {
      var init := nodes[..|nodes| - 1];
      UnconnectedMembers(init, edges, x);
      if exists i :: 0 <= i < |nodes| && nodes[i].id == x {
        var i :| 0 <= i < |nodes| && nodes[i].id == x;
        if i < |init| { assert init[i] == nodes[i]; }
      }
    }
  }

  /** There is no "Unconnected nodes" warning exactly when every node is
      mentioned by some edge. */
  lemma UnconnectedWarningsEmpty(nodes: seq<Node>, edges: seq<Edge>)
    ensures UnconnectedWarnings(nodes, edges) == []
            <==> forall i :: 0 <= i < |nodes| ==> nodes[i].id in Touched(edges)
  {
    var u := Unconnected(nodes, Touched(edges));
    if u != [] {
      UnconnectedMembers(nodes, edges, u[0]);
    } else {
      forall i | 0 <= i < |nodes| ensures nodes[i].id in Touched(edges) {
        UnconnectedMembers(nodes, edges, nodes[i].id);
      }
    }
  }
}
