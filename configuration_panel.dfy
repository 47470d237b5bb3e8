/** The other node editor (`component/ConfigurationPanel.js`). Unlike
    `ConfigPanel`, it writes every new configuration straight into the
    node's `data` object, which it shares with the canvas; dropped files are
    appended to `config.documents` and the remove button filters one out by
    position. Its form reads `provider` and `embeddingModel`, keys the server
    never looks at. */
module ConfigurationPanel {
  import opened Values
  import Workflow
  import Execution

  /** The `node.data` object the panel receives and writes in place. */
  class NodeData {
    var config: Option<Config>

    constructor (config: Option<Config>)
      ensures this.config == config
    {
      this.config := config;
    }
  }

  /** `config.documents || []`: the document list, empty when missing or falsy. */
  function Documents(c: Config): seq<Value> {
    if "documents" in c && c["documents"].List? then c["documents"].items else []
  }

  /** `documents.filter((_, i) => i !== index)`, with `offset` the position
      of `docs[0]` in the original list. */
  function FilterOut(docs: seq<Value>, index: int, offset: nat): seq<Value>
    decreases |docs|
  {
    if docs == [] then []
    else (if offset == index then [] else [docs[0]]) + FilterOut(docs[1..], index, offset + 1)
  }

  /** Filtering out position `index` removes exactly that element and keeps
      the others in order; an index outside the list removes nothing. */
  lemma FilterOutRemoves(docs: seq<Value>, index: int, offset: nat)
    ensures offset <= index < offset + |docs| ==>
              FilterOut(docs, index, offset) == docs[..index - offset] + docs[index - offset + 1..]
    ensures !(offset <= index < offset + |docs|) ==> FilterOut(docs, index, offset) == docs
  {
    if offset <= index < offset + |docs| {
      FilterOutInside(docs, index, offset);
    } else {
      FilterOutOutside(docs, index, offset);
    }
  }

  /** An index inside the list: exactly that element goes. */
  lemma {:induction false} FilterOutInside(docs: seq<Value>, index: int, offset: nat)
    requires offset <= index < offset + |docs|
    ensures FilterOut(docs, index, offset) == docs[..index - offset] + docs[index - offset + 1..]
    decreases |docs|
  {
    if offset == index {
      FilterOutOutside(docs[1..], index, offset + 1);
      assert docs[..0] + docs[1..] == docs[1..];
    } else {
      FilterOutInside(docs[1..], index, offset + 1);
      DropAfterHead(docs, index - offset);
    }
  }

  /** An index outside the list: nothing goes. */
  lemma {:induction false} FilterOutOutside(docs: seq<Value>, index: int, offset: nat)
    requires !(offset <= index < offset + |docs|)
    ensures FilterOut(docs, index, offset) == docs
    decreases |docs|
  {
    if docs != [] {
      FilterOutOutside(docs[1..], index, offset + 1);
      assert docs == [docs[0]] + docs[1..];
    }
  }

  /** Dropping position `k > 0` keeps the head and drops position `k - 1`
      of the tail. */
  lemma DropAfterHead(docs: seq<Value>, k: int)
    requires 0 < k < |docs|
    ensures docs[..k] + docs[k + 1..] == [docs[0]] + (docs[1..][..k - 1] + docs[1..][k..])
  {
    assert docs[..k] == [docs[0]] + docs[1..][..k - 1];
    assert docs[k + 1..] == docs[1..][k..];
  }

  /** The panel's state: its own copy of the configuration and the node's
      shared `data` object. */
  class Panel {
    const nodeType: string
    const data: NodeData
    var config: Config

    /** The node's `data.config` holds what the panel shows. */
    ghost predicate Valid()
      reads this, data
    {
      config == data.config.GetOr(map[])
    }

    /** `useState(node.data.config || {})`. */
    constructor (nodeType: string, data: NodeData)
      ensures Valid() && this.nodeType == nodeType && this.data == data
      ensures config == data.config.GetOr(map[])
    {
      this.nodeType := nodeType;
      this.data := data;
      config := data.config.GetOr(map[]);
    }

    /** `updateConfig(key, value)`: `key` takes `value` in the panel and in
        the node's `data`, every other key keeps its value. */
    method UpdateConfig(key: string, value: Value)
      requires Valid()
      modifies this, data
      ensures Valid()
      ensures config == old(config)[key := value] && data.config == Some(config)
      ensures forall k :: k in old(config) && k != key ==> k in config && config[k] == old(config)[k]
    {
      var newConfig := config[key := value];
      config := newConfig;
      data.config := Some(newConfig);
    }

    /** The dropzone's `onDrop`: the accepted files go after the documents
        already listed, in order. */
    method OnDropFiles(files: seq<Value>)
      requires Valid()
      modifies this, data
      ensures Valid()
      ensures Documents(config) == Documents(old(config)) + files
      ensures config == old(config)["documents" := List(Documents(old(config)) + files)]
      ensures data.config == Some(config)
    {
      var newConfig := config["documents" := List(Documents(config) + files)];
      config := newConfig;
      data.config := Some(newConfig);
    }

    /** The remove button of document `index` (shown only when the list is
        non-empty): the list loses exactly that document. */
    method RemoveDocument(index: nat)
      requires Valid()
      requires "documents" in config && config["documents"].List? && index < |config["documents"].items|
      modifies this, data
      ensures Valid()
      ensures Documents(config) == Documents(old(config))[..index] + Documents(old(config))[index + 1..]
      ensures |Documents(config)| == |Documents(old(config))| - 1
      ensures forall k :: k in old(config) && k != "documents" ==> k in config && config[k] == old(config)[k]
      ensures config == old(config)["documents" := List(Documents(old(config))[..index] + Documents(old(config))[index + 1..])]
      ensures data.config == Some(config)
    {
      var newDocs := FilterOut(config["documents"].items, index, 0);
      FilterOutRemoves(config["documents"].items, index, 0);
      UpdateConfig("documents", List(newDocs));
    }
  }

  /** `getNodeTitle()`. */
  function NodeTitle(nodeType: string): (title: string)
    ensures nodeType !in {"userQuery", "knowledgeBase", "llmEngine", "output"} ==> title == "Node Configuration"
  {
    if nodeType == "userQuery" then "User Query Configuration"
    else if nodeType == "knowledgeBase" then "Knowledge Base Configuration"
    else if nodeType == "llmEngine" then "LLM Engine Configuration"
    else if nodeType == "output" then "Output Configuration"
    else "Node Configuration"
  }

  /** Different component types get different titles. */
  lemma NodeTitleDistinct(t1: string, t2: string)
    requires NodeTitle(t1) == NodeTitle(t2) && NodeTitle(t1) != "Node Configuration"
    ensures t1 == t2
  {
  }

  /** The value each form field of a node type shows when its key is
      missing or falsy (`saveHistory` as written, with `|| true`). */
  function Fallbacks(nodeType: string): map<string, Value> {
    if nodeType == "userQuery" then map["label" := Str("User Query"), "description" := Str("")]
    else if nodeType == "knowledgeBase" then
      map["label" := Str("Knowledge Base"), "embeddingModel" := Str("openai"), "vectorStore" := Str("chromadb")]
    else if nodeType == "llmEngine" then
      map["label" := Str("LLM Engine"), "provider" := Str("openai"), "model" := Str("gpt-3.5-turbo"),
          "temperature" := Real(0.7), "customPrompt" := Str(""), "useWebSearch" := Bool(false)]
    else if nodeType == "output" then
      map["label" := Str("Output"), "chatStyle" := Str("modern"), "saveHistory" := Bool(true),
          "showTimestamps" := Bool(false)]
    else map[]
  }

  /** What a form field shows: `config.key || fallback`. */
  function Shown(c: Config, nodeType: string, key: string): (v: Value)
    requires key in Fallbacks(nodeType)
    ensures key !in c ==> v == Fallbacks(nodeType)[key]
  {
    JsOr(c, key, Fallbacks(nodeType)[key])
  }

  /** As written, `config.saveHistory || true` is truthy for every stored
      value, so the "Save Chat History" box shows checked even right after it
      was unchecked. */
  lemma SaveHistoryAlwaysChecked(c: Config)
    ensures JsTruthy(Shown(c, "output", "saveHistory"))
    ensures JsTruthy(Shown(c["saveHistory" := Bool(false)], "output", "saveHistory"))
  {
  }

  /** The evidently intended box state, `config.saveHistory ?? true`: checked
      by default, and otherwise exactly what was stored. */
  function SaveHistoryChecked(c: Config): (checked: bool)
    ensures "saveHistory" !in c ==> checked
    ensures "saveHistory" in c && c["saveHistory"].Bool? ==> checked == c["saveHistory"].b
  {
    JsTruthy(JsNullish(c, "saveHistory", Bool(true)))
  }

  /** With the intended box, unchecking it shows it unchecked, and checking
      it shows it checked. */
  lemma SaveHistoryFollowsChange(c: Config, b: bool)
    ensures SaveHistoryChecked(c["saveHistory" := Bool(b)]) == b
  {
  }

  /** Even when the server reads the node's configuration object (the
      intended reading, `WorkflowCanvas.ConfigRead`), the panel's provider
      field writes `provider`, a key the server never reads: what the LLM
      engine step asks for, and whether validation warns about the node,
      are the same before and after the edit. */
  lemma ProviderEditNotSeenByServer(c: Config, v: Value, id: string, query: string, context: string)
    ensures Execution.LlmRequestFor(c["provider" := v], query, context) == Execution.LlmRequestFor(c, query, context)
    ensures Workflow.Misconfigured(Workflow.Node(id, "llmEngine", c["provider" := v]))
            == Workflow.Misconfigured(Workflow.Node(id, "llmEngine", c))
  {
    var c' := c["provider" := v];
    assert forall k :: k != "provider" ==> (k in c' <==> k in c) && (k in c ==> c'[k] == c[k]);
    assert Execution.PyGet(c', "modelProvider", Str("openai")) == Execution.PyGet(c, "modelProvider", Str("openai"));
  }
}
