/** The graph-store helpers of the canvas (`WorkflowCanvas.js`): the
    module-level id counter, dropping a component onto the canvas (label
    table, default configuration, position relative to the canvas), and the
    edge id a new connection gets. */
module WorkflowCanvas {
  import opened Values
  import opened Text
  import Workflow
  import Execution

  datatype Position = Position(x: real, y: real)

  /** The part of `getBoundingClientRect()` the drop handler reads. */
  datatype Bounds = Bounds(left: real, top: real)

  /** A node of the canvas (the fixed `style` object left out). */
  datatype CanvasNode = CanvasNode(id: string, nodeType: string, position: Position, labelText: string, config: Config)

  /** The edge `onConnectHandler` builds (animation and styling left out). */
  datatype CanvasEdge = CanvasEdge(id: string, source: string, target: string)

  /** `node_${n}`. */
  function IdOf(n: nat): string {
    "node_" + NatToString(n)
  }

  /** Different counter values give different node ids. */
  lemma IdOfInjective(a: nat, b: nat)
    requires IdOf(a) == IdOf(b)
    ensures a == b
  {
    assert IdOf(a)[5..] == NatToString(a);
    assert IdOf(b)[5..] == NatToString(b);
    NatToStringInjective(a, b);
  }

  /** `nodeLabels[type] || 'Unknown'`. */
  function Label(nodeType: string): (name: string)
    ensures name != "Unknown" <==> nodeType in {"userQuery", "knowledgeBase", "llmEngine", "output"}
  {
    if nodeType == "userQuery" then "User Query"
    else if nodeType == "knowledgeBase" then "Knowledge Base"
    else if nodeType == "llmEngine" then "LLM Engine"
    else if nodeType == "output" then "Output"
    else "Unknown"
  }

  /** The four component labels are distinct, so a label names its type. */
  lemma LabelNamesType(t1: string, t2: string)
    requires Label(t1) == Label(t2) && Label(t1) != "Unknown"
    ensures t1 == t2
  {
  }

  /** `getDefaultConfig(type)`. */
  function DefaultConfig(nodeType: string): (c: Config)
    ensures nodeType !in {"userQuery", "knowledgeBase", "llmEngine", "output"} ==> c == map[]
  {
    if nodeType == "userQuery" then map["placeholder" := Str("Enter your question here...")]
    else if nodeType == "knowledgeBase" then
      map["collectionName" := Str(""), "embeddingProvider" := Str("openai"), "maxResults" := Int(5)]
    else if nodeType == "llmEngine" then
      map["modelProvider" := Str("openai"), "model" := Str("gpt-3.5-turbo"), "temperature" := Real(0.7),
          "useWebSearch" := Bool(false), "customPrompt" := Str("")]
    else if nodeType == "output" then map["displayFormat" := Str("text")]
    else map[]
  }

  /** The node `workflowAPI.validate` and `workflowAPI.execute` post for a
      canvas node: its `data` holds the label and, nested under `config`,
      the configuration object. */
  function Posted(n: CanvasNode): (w: Workflow.Node)
    ensures w.id == n.id && w.nodeType == n.nodeType
    ensures "config" in w.data && w.data["config"] == Obj(n.config)
    ensures w.data.Keys == {"label", "config"}
  {
    Workflow.Node(n.id, n.nodeType, map["label" := Str(n.labelText), "config" := Obj(n.config)])
  }

  /** As written, the server looks for the configuration keys directly in
      `node["data"]`, where the client never puts them: every posted LLM
      engine and knowledge base is warned about, the knowledge-base step
      always fails for want of a collection name, and the LLM request is
      the all-defaults one whatever the node's configuration says. */
  lemma PostedConfigUnread(n: CanvasNode, query: string, context: string, retrieve: Execution.Retriever)
    ensures n.nodeType in {"llmEngine", "knowledgeBase"} ==> Workflow.Misconfigured(Posted(n))
    ensures Execution.KnowledgeBaseComponent(Posted(n).data, query, retrieve)
            == Execution.StepError(Execution.MissingCollection)
    ensures Execution.LlmRequestFor(Posted(n).data, query, context) == Execution.LlmRequestFor(map[], query, context)
  {
    var d := Posted(n).data;
    assert "modelProvider" !in d && "model" !in d && "useWebSearch" !in d;
    assert "customPrompt" !in d && "temperature" !in d && "collectionName" !in d;
  }

  /** The server's intended reading of a posted node: the configuration is
      `node["data"]["config"]`, an empty one when absent. */
  function ConfigRead(w: Workflow.Node): (c: Config)
    ensures "config" !in w.data ==> c == map[]
  {
    if "config" in w.data && w.data["config"].Obj? then w.data["config"].fields else map[]
  }

  /** With the intended reading, the server sees exactly the configuration
      the canvas holds. */
  lemma ConfigReachesServer(n: CanvasNode, query: string, context: string)
    ensures ConfigRead(Posted(n)) == n.config
    ensures Execution.LlmRequestFor(ConfigRead(Posted(n)), query, context) == Execution.LlmRequestFor(n.config, query, context)
  {
  }

  /** With the intended reading, a freshly dropped LLM engine is configured
      for the server's validation (its provider defaults to "openai") while
      a freshly dropped knowledge base is not (its collection name starts
      empty). */
  lemma DefaultsUnderValidation(id: string, position: Position)
    ensures !Workflow.Misconfigured(Workflow.Node(id, "llmEngine", ConfigRead(Posted(
              CanvasNode(id, "llmEngine", position, Label("llmEngine"), DefaultConfig("llmEngine"))))))
    ensures Workflow.Misconfigured(Workflow.Node(id, "knowledgeBase", ConfigRead(Posted(
              CanvasNode(id, "knowledgeBase", position, Label("knowledgeBase"), DefaultConfig("knowledgeBase"))))))
  {
    assert DefaultConfig("llmEngine")["modelProvider"] == Str("openai");
    assert DefaultConfig("knowledgeBase")["collectionName"] == Str("");
  }

  /** The drop position: the cursor relative to the canvas, shifted so the
      node's centre lands under it. */
  function DropPosition(clientX: real, clientY: real, bounds: Bounds): (p: Position)
    ensures p.x + 100.0 + bounds.left == clientX && p.y + 50.0 + bounds.top == clientY
  {
    Position(clientX - bounds.left - 100.0, clientY - bounds.top - 50.0)
  }

  /** `edge-${source}-${target}`. */
  function EdgeId(source: string, target: string): string {
    "edge-" + source + "-" + target
  }

  /** The edge a connection produces: its id depends on the two ends only. */
  function EdgeFor(source: string, target: string): (e: CanvasEdge)
    ensures e.source == source && e.target == target
  {
    CanvasEdge(EdgeId(source, target), source, target)
  }

  /** When sources contain no '-', the edge id determines the connection. */
  lemma EdgeIdInjective(s1: string, t1: string, s2: string, t2: string)
    requires '-' !in s1 && '-' !in s2
    requires EdgeId(s1, t1) == EdgeId(s2, t2)
    ensures s1 == s2 && t1 == t2
  {
    var r1, r2 := s1 + "-" + t1, s2 + "-" + t2;
    assert EdgeId(s1, t1) == "edge-" + r1 && EdgeId(s2, t2) == "edge-" + r2;
    assert EdgeId(s1, t1)[5..] == r1 && EdgeId(s2, t2)[5..] == r2;
    IndexOfAfter(s1, '-', t1);
    IndexOfAfter(s2, '-', t2);
    assert r1[..|s1|] == s1 && r1[|s1| + 1..] == t1;
    assert r2[..|s2|] == s2 && r2[|s2| + 1..] == t2;
  }

  /** Generated node ids contain no '-', so edges between generated nodes
      have distinct ids for distinct connections. */
  lemma GeneratedEdgeIds(a: nat, b: nat, c: nat, d: nat)
    requires EdgeId(IdOf(a), IdOf(b)) == EdgeId(IdOf(c), IdOf(d))
    ensures a == c && b == d
  {
    forall n: nat ensures '-' !in IdOf(n) {
      var s := NatToString(n);
      assert IdOf(n) == "node_" + s;
      forall i | 0 <= i < |IdOf(n)| ensures IdOf(n)[i] != '-' {
        if i >= 5 { assert IdOf(n)[i] == s[i - 5]; }
      }
    }
    EdgeIdInjective(IdOf(a), IdOf(b), IdOf(c), IdOf(d));
    IdOfInjective(a, c);
    IdOfInjective(b, d);
  }

  /** The canvas state: the module-level counter behind `getId` and the node
      list `setNodes` replaces. `serials` records, per node, the counter
      value its id was made from. */
  class Canvas {
    var counter: nat
    var nodes: seq<CanvasNode>
    ghost var serials: seq<nat>

    /** Every node id came from an earlier counter value, in increasing order. */
    ghost predicate Valid()
      reads this
    {
      |serials| == |nodes|
      && (forall i :: 0 <= i < |nodes| ==> nodes[i].id == IdOf(serials[i]) && serials[i] < counter)
      && (forall i, j :: 0 <= i < j < |serials| ==> serials[i] < serials[j])
    }

    /** `let id = 0` with an empty canvas. */
    constructor ()
      ensures Valid() && counter == 0 && nodes == []
    {
      counter := 0;
      nodes := [];
      serials := [];
    }

    /** `getId()`: the id of the current counter value; the counter moves on. */
    method GetId() returns (id: string)
      requires Valid()
      modifies this
      ensures Valid()
      ensures id == IdOf(old(counter)) && counter == old(counter) + 1
      ensures nodes == old(nodes) && serials == old(serials)
    {
      id := "node_" + NatToString(counter);
      counter := counter + 1;
    }

    /** `onDrop`: an empty drag type changes nothing; otherwise a node with
        a fresh id, the type's label and default configuration is appended
        at the drop position, and the existing nodes stay as they were. */
    method OnDrop(dropType: string, clientX: real, clientY: real, bounds: Bounds)
      requires Valid()
      modifies this
      ensures Valid()
      ensures dropType == "" ==> counter == old(counter) && nodes == old(nodes)
      ensures dropType != "" ==>
                && counter == old(counter) + 1
                && nodes == old(nodes) + [CanvasNode(IdOf(old(counter)), dropType,
                                                     DropPosition(clientX, clientY, bounds),
                                                     Label(dropType), DefaultConfig(dropType))]
    {
      if dropType == "" {
        return;
      }
      var position := Position(clientX - bounds.left - 100.0, clientY - bounds.top - 50.0);
      ghost var serial := counter;
      var id := GetId();
      var newNode := CanvasNode(id, dropType, position, Label(dropType), DefaultConfig(dropType));
      nodes := nodes + [newNode];
      serials := serials + [serial];
    }

    /** The node ids on a valid canvas are pairwise distinct. */
    lemma IdsDistinct()
      requires Valid()
      ensures forall i, j :: 0 <= i < j < |nodes| ==> nodes[i].id != nodes[j].id
    {
      forall i, j | 0 <= i < j < |nodes| ensures nodes[i].id != nodes[j].id {
        if nodes[i].id == nodes[j].id {
          IdOfInjective(serials[i], serials[j]);
        }
      }
    }

    /** The next generated id is not yet on the canvas. */
    lemma NextIdFresh()
      requires Valid()
      ensures forall i :: 0 <= i < |nodes| ==> nodes[i].id != IdOf(counter)
    {
      forall i | 0 <= i < |nodes| ensures nodes[i].id != IdOf(counter) {
        if nodes[i].id == IdOf(counter) {
          IdOfInjective(serials[i], counter);
        }
      }
    }
  }
}
