/** The side panel that edits the selected node (`components/ConfigPanel.js`):
    a configuration change rebuilds the node around the new configuration and
    hands it to the parent; a document upload runs between `BeginUpload` (up
    to the `await`) and `CompleteUpload` (what happens once the server has
    answered); the form shows fallbacks for missing keys. */
module ConfigPanel {
  import opened Values
  import WorkflowCanvas

  /** `node.data`: its label, its configuration (`None` when undefined), and
      the other fields. */
  datatype NodeData = NodeData(labelText: string, config: Option<Config>, extra: map<string, Value>)

  /** A canvas node as the panel receives it: id, type, `data`, and the
      other fields (position, style, ...). */
  datatype FlowNode = FlowNode(id: string, nodeType: string, data: NodeData, extra: map<string, Value>)

  /** The arguments of `documentAPI.upload`. */
  datatype UploadRequest = UploadRequest(file: string, collectionName: Value, embeddingProvider: Value)

  /** The fields of the upload response the panel reads. */
  datatype UploadResponse = UploadResponse(success: Value, collectionName: Value)

  /** The notifications the upload shows. */
  datatype Toast = UploadSucceeded(collectionName: Value) | UploadFailed | UploadErrored

  /** A JavaScript property read: a missing key reads as undefined, here `Null`. */
  function Get(c: Config, key: string): Value {
    if key in c then c[key] else Null
  }

  /** `{ ...node, data: { ...node.data, config: c } }`. */
  function WithConfig(node: FlowNode, c: Config): (n: FlowNode)
    ensures n.data.config == Some(c)
  {
    node.(data := node.data.(config := Some(c)))
  }

  /** The rebuilt node differs from the original in `data.config` only. */
  lemma WithConfigKeepsRest(node: FlowNode, c: Config)
    ensures WithConfig(node, c).data.(config := node.data.config) == node.data
    ensures WithConfig(node, c).(data := node.data) == node
  {
  }

  /** The panel's state. `updates` lists the nodes passed to `onNodeUpdate`,
      in order; `pending` is the configuration the running upload handler
      closed over. */
  class Panel {
    const selectedNode: FlowNode
    var config: Config
    var isUploading: bool
    var updates: seq<FlowNode>
    var toasts: seq<Toast>
    var pending: Option<Config>

    /** The parent was last told about the panel's current configuration,
        and an upload is running exactly when one has started and not
        finished. */
    ghost predicate Valid()
      reads this
    {
      (updates != [] ==> updates[|updates| - 1] == WithConfig(selectedNode, config))
      && (isUploading <==> pending.Some?)
    }

    /** `useState(selectedNode.data.config || {})`. */
    constructor (node: FlowNode)
      ensures Valid()
      ensures selectedNode == node && config == node.data.config.GetOr(map[])
      ensures !isUploading && updates == [] && toasts == []
    {
      selectedNode := node;
      config := node.data.config.GetOr(map[]);
      isUploading := false;
      updates := [];
      toasts := [];
      pending := None;
    }

    /** `handleConfigChange(key, value)`: `key` takes `value`, every other
        key keeps its value, and the parent receives the node rebuilt around
        the new configuration, once. */
    method HandleConfigChange(key: string, value: Value)
      requires Valid()
      modifies this
      ensures Valid()
      ensures config == old(config)[key := value]
      ensures forall k :: k in old(config) && k != key ==> k in config && config[k] == old(config)[k]
      ensures updates == old(updates) + [WithConfig(selectedNode, config)]
      ensures isUploading == old(isUploading) && pending == old(pending) && toasts == old(toasts)
    {
      var newConfig := config[key := value];
      config := newConfig;
      var updatedNode := selectedNode.(data := selectedNode.data.(config := Some(newConfig)));
      updates := updates + [updatedNode];
    }

    /** `handleFileUpload` up to its `await`: without a file nothing
        happens; otherwise the upload starts with the configured collection
        name and embedding provider. The file input is disabled while an
        upload runs. */
    method BeginUpload(file: Option<string>) returns (request: Option<UploadRequest>)
      requires Valid() && !isUploading
      modifies this
      ensures Valid()
      ensures file.None? ==> request.None? && !isUploading && pending == old(pending)
      ensures file.Some? ==> request == Some(UploadRequest(file.value, Get(config, "collectionName"),
                                                           Get(config, "embeddingProvider")))
                             && isUploading && pending == Some(config)
      ensures config == old(config) && updates == old(updates) && toasts == old(toasts)
    {
      if file.None? {
        return None;
      }
      isUploading := true;
      pending := Some(config);
      request := Some(UploadRequest(file.value, Get(config, "collectionName"), Get(config, "embeddingProvider")));
    }

    /** `handleFileUpload` after its `await`: a truthy `success` sets
        `collectionName` (through `handleConfigChange`, on the configuration
        the handler closed over); a falsy one or an exception only shows an
        error; `isUploading` is cleared in every case. */
    method CompleteUpload(outcome: Result<UploadResponse, string>)
      requires Valid() && isUploading
      modifies this
      ensures Valid() && !isUploading && pending.None?
      ensures outcome.Ok? && JsTruthy(outcome.value.success) ==>
                && toasts == old(toasts) + [UploadSucceeded(outcome.value.collectionName)]
                && config == old(pending).value["collectionName" := outcome.value.collectionName]
                && updates == old(updates) + [WithConfig(selectedNode, config)]
      ensures outcome.Ok? && !JsTruthy(outcome.value.success) ==>
                toasts == old(toasts) + [UploadFailed] && config == old(config) && updates == old(updates)
      ensures outcome.Err? ==>
                toasts == old(toasts) + [UploadErrored] && config == old(config) && updates == old(updates)
    {
      var closedOver := pending.value;
      match outcome {
        case Ok(result) =>
          if JsTruthy(result.success) {
            toasts := toasts + [UploadSucceeded(result.collectionName)];
            var newConfig := closedOver["collectionName" := result.collectionName];
            config := newConfig;
            updates := updates + [WithConfig(selectedNode, newConfig)];
          } else {
            toasts := toasts + [UploadFailed];
          }
        case Err(_) =>
          toasts := toasts + [UploadErrored];
      }
      isUploading := false;
      pending := None;
    }
  }

  /** The value each form field shows when its key is missing or falsy. */
  const Fallbacks: map<string, Value> := map[
    "placeholder" := Str(""),
    "collectionName" := Str(""),
    "embeddingProvider" := Str("openai"),
    "maxResults" := Int(5),
    "modelProvider" := Str("openai"),
    "model" := Str("gpt-3.5-turbo"),
    "temperature" := Real(0.7),
    "useWebSearch" := Bool(false),
    "customPrompt" := Str(""),
    "displayFormat" := Str("text")
  ]

  /** What a form field shows: `config.key || fallback`. */
  function Shown(c: Config, key: string): (v: Value)
    requires key in Fallbacks
    ensures key !in c ==> v == Fallbacks[key]
  {
    JsOr(c, key, Fallbacks[key])
  }

  /** A freshly dropped node shows exactly the configuration it was given. */
  lemma FreshNodeShowsDefaults(nodeType: string, key: string)
    requires key in Fallbacks && key in WorkflowCanvas.DefaultConfig(nodeType)
    ensures Shown(WorkflowCanvas.DefaultConfig(nodeType), key) == WorkflowCanvas.DefaultConfig(nodeType)[key]
  {
    var d := WorkflowCanvas.DefaultConfig(nodeType);
    if nodeType == "knowledgeBase" {
      assert key in {"collectionName", "embeddingProvider", "maxResults"};
    } else if nodeType == "llmEngine" {
      assert key in {"modelProvider", "model", "temperature", "useWebSearch", "customPrompt"};
    } else if nodeType == "output" {
      assert key == "displayFormat";
    } else {
      assert nodeType == "userQuery" && key == "placeholder";
    }
  }

  /** As written, a stored temperature of 0 is falsy and the slider and its
      label show 0.7 instead. */
  lemma TemperatureZeroShownAsDefault(c: Config)
    requires "temperature" in c && c["temperature"] == Real(0.0)
    ensures Shown(c, "temperature") == Real(0.7)
  {
  }

  /** The evidently intended display, `config.key ?? fallback`: a stored
      value is shown whatever it is, the fallback only for a missing one. */
  function ShownNullish(c: Config, key: string): (v: Value)
    requires key in Fallbacks
    ensures key in c && c[key] != Null ==> v == c[key]
    ensures key !in c ==> v == Fallbacks[key]
  {
    JsNullish(c, key, Fallbacks[key])
  }

  /** With the intended display, what the slider shows after a change is the
      value the change stored, 0 included. */
  lemma ShownNullishAfterChange(c: Config, t: real)
    ensures ShownNullish(c["temperature" := Real(t)], "temperature") == Real(t)
    ensures t != 0.0 ==> Shown(c["temperature" := Real(t)], "temperature") == Real(t)
  {
  }
}
