/** `WorkflowService.execute_workflow`: validate, order the nodes, then run
    the components one after the other, threading the component data
    (`user_query`, `context`, `llm_response`) and logging one entry per step
    until the first failing step. The document retrieval behind a knowledge
    base and the language-model call behind an LLM engine are parameters:
    arbitrary functions that may succeed or fail. */
module Execution {
  import opened Values
  import opened Text
  import opened Workflow
  import opened Scheduling

  const NoResponse := "No response generated"
  const MissingCollection := "Knowledge Base component requires collection name"

  /** What the knowledge-base component asks the document store for. */
  datatype RetrievalRequest = RetrievalRequest(collectionName: Value, query: string, nResults: Value, embeddingProvider: Value)

  /** What the LLM-engine component asks the language-model service for. */
  datatype LlmRequest = LlmRequest(prompt: string, context: string, modelProvider: Value, model: Value,
                                   useWebSearch: Value, customPrompt: Value, temperature: Value)

  /** The document store: the contents of the retrieved chunks, or an error. */
  type Retriever = RetrievalRequest -> Result<seq<string>, string>

  /** The language-model service: a response and the model used, or an error. */
  type Generator = LlmRequest -> Result<(string, string), string>

  /** The dictionary a component returns; every variant but `StepError` has
      `success` true. */
  datatype StepResult =
    | QueryStep(query: string)
    | ContextStep(context: string, retrievedDocuments: nat)
    | ResponseStep(response: string, modelUsed: string)
    | OutputStep(output: string)
    | StepError(error: string)
  {
    predicate Success() { !StepError? }
  }

  /** One entry of `execution_log` (the step time is left out). */
  datatype LogEntry = LogEntry(nodeId: string, nodeType: string, success: bool, result: StepResult)

  /** `component_data`: the user query and, once set, the context and the LLM response. */
  datatype ComponentData = ComponentData(userQuery: string, context: Option<string>, llmResponse: Option<string>)

  /** The dictionary `execute_workflow` returns (times left out). */
  datatype Outcome =
    | Rejected(errors: seq<string>)
    | Completed(finalResponse: string, log: seq<LogEntry>, sessionId: Option<string>)
    | Raised(missingNode: string)

  /** Python's `d.get(key, default)`: the default only when the key is missing. */
  function PyGet(c: Config, key: string, default: Value): Value {
    if key in c then c[key] else default
  }

  /** `_execute_user_query_component`. */
  function UserQueryComponent(userQuery: string): (r: StepResult)
    ensures r.Success() && r.QueryStep? && r.query == userQuery
  {
    QueryStep(userQuery)
  }

  /** `_execute_knowledge_base_component`: a falsy collection name fails before
      any retrieval; retrieved contents are joined with blank lines. */
  function KnowledgeBaseComponent(config: Config, query: string, retrieve: Retriever): (r: StepResult)
    ensures !PyGetTruthy(config, "collectionName") ==> r == StepError(MissingCollection)
    ensures PyGetTruthy(config, "collectionName") ==>
              var req := RetrievalRequest(config["collectionName"], query,
                                          PyGet(config, "maxResults", Int(5)),
                                          PyGet(config, "embeddingProvider", Str("openai")));
              match retrieve(req)
              case Ok(contents) => r == ContextStep(Join(contents, "\n\n"), |contents|)
              case Err(e) => r == StepError(e)
  {
    if !PyGetTruthy(config, "collectionName") then StepError(MissingCollection)
    else
      var req := RetrievalRequest(config["collectionName"], query,
                                  PyGet(config, "maxResults", Int(5)),
                                  PyGet(config, "embeddingProvider", Str("openai")));
      match retrieve(req)
      case Ok(contents) => ContextStep(Join(contents, "\n\n"), |contents|)
      case Err(e) => StepError(e)
  }

  /** The request `_execute_llm_engine_component` sends, with its defaults. */
  function LlmRequestFor(config: Config, query: string, context: string): (req: LlmRequest)
    ensures req.prompt == query && req.context == context
    ensures "modelProvider" !in config ==> req.modelProvider == Str("openai")
    ensures "model" !in config ==> req.model == Str("gpt-3.5-turbo")
    ensures "useWebSearch" !in config ==> req.useWebSearch == Bool(false)
    ensures "customPrompt" !in config ==> req.customPrompt == Str("")
    ensures "temperature" !in config ==> req.temperature == Real(0.7)
  {
    LlmRequest(query, context, PyGet(config, "modelProvider", Str("openai")), PyGet(config, "model", Str("gpt-3.5-turbo")),
               PyGet(config, "useWebSearch", Bool(false)), PyGet(config, "customPrompt", Str("")),
               PyGet(config, "temperature", Real(0.7)))
  }

  /** `_execute_llm_engine_component`: the step succeeds exactly when the
      language-model service answers the request built from the node's
      configuration, and then carries its response and model name;
      otherwise it carries the service's error. */
  function LlmEngineComponent(config: Config, query: string, context: string, generate: Generator): (r: StepResult)
    ensures r.Success() <==> generate(LlmRequestFor(config, query, context)).Ok?
    ensures r.Success() ==> && r.ResponseStep?
                            && (r.response, r.modelUsed) == generate(LlmRequestFor(config, query, context)).value
    ensures !r.Success() ==> r.error == generate(LlmRequestFor(config, query, context)).error
  {
    match generate(LlmRequestFor(config, query, context))
    case Ok(out) => ResponseStep(out.0, out.1)
    case Err(e) => StepError(e)
  }

  /** `_execute_output_component`. */
  function OutputComponent(response: string): (r: StepResult)
    ensures r.Success() && r.OutputStep? && r.output == response
  {
    OutputStep(response)
  }

  /** The `if`/`elif` dispatch on the node type inside the loop. */
  function Step(node: Node, data: ComponentData, retrieve: Retriever, generate: Generator): (r: StepResult)
    ensures node.nodeType == UserQueryType ==> r == QueryStep(data.userQuery)
    ensures node.nodeType == OutputType ==> r == OutputStep(data.llmResponse.GetOr(NoResponse))
    ensures node.nodeType !in {UserQueryType, KnowledgeBaseType, LlmEngineType, OutputType}
            ==> r == StepError("Unknown node type: " + node.nodeType)
    ensures r.ContextStep? ==> node.nodeType == KnowledgeBaseType
    ensures r.ResponseStep? ==> node.nodeType == LlmEngineType
  {
    if node.nodeType == UserQueryType then UserQueryComponent(data.userQuery)
    else if node.nodeType == KnowledgeBaseType then KnowledgeBaseComponent(node.data, data.userQuery, retrieve)
    else if node.nodeType == LlmEngineType then
      LlmEngineComponent(node.data, data.userQuery, data.context.GetOr(""), generate)
    else if node.nodeType == OutputType then OutputComponent(data.llmResponse.GetOr(NoResponse))
    else StepError("Unknown node type: " + node.nodeType)
  }

  /** The log entry for running `node` under `id`. */
  function Entry(id: string, node: Node, data: ComponentData, retrieve: Retriever, generate: Generator): LogEntry {
    var r := Step(node, data, retrieve, generate);
    LogEntry(id, node.nodeType, r.Success(), r)
  }

  /** The context of the last knowledge-base step in `log`, if any. */
  function LastContext(log: seq<LogEntry>): Option<string>
  {
    if log == [] then None
    else
      var last := log[|log| - 1];
      if last.result.ContextStep? then Some(last.result.context) else LastContext(log[..|log| - 1])
  }

  /** The response of the last LLM step in `log`, if any. */
  function LastResponse(log: seq<LogEntry>): Option<string>
  {
    if log == [] then None
    else
      var last := log[|log| - 1];
      if last.result.ResponseStep? then Some(last.result.response) else LastResponse(log[..|log| - 1])
  }

  /** `LastContext` is empty exactly when no knowledge-base step ran, and
      otherwise is the context of the last one. */
  lemma {:induction false} LastContextIsLast(log: seq<LogEntry>)
    ensures LastContext(log).None? <==> forall i :: 0 <= i < |log| ==> !log[i].result.ContextStep?
    ensures forall i :: 0 <= i < |log| && log[i].result.ContextStep?
                        && (forall j :: i < j < |log| ==> !log[j].result.ContextStep?)
              ==> LastContext(log) == Some(log[i].result.context)
  {
    if log != [] {
      var init := log[..|log| - 1];
      LastContextIsLast(init);
      assert forall i :: 0 <= i < |init| ==> init[i] == log[i];
    }
  }

  /** `LastResponse` is empty exactly when no LLM step ran, and otherwise is
      the response of the last one. */
  lemma {:induction false} LastResponseIsLast(log: seq<LogEntry>)
    ensures LastResponse(log).None? <==> forall i :: 0 <= i < |log| ==> !log[i].result.ResponseStep?
    ensures forall i :: 0 <= i < |log| && log[i].result.ResponseStep?
                        && (forall j :: i < j < |log| ==> !log[j].result.ResponseStep?)
              ==> LastResponse(log) == Some(log[i].result.response)
  {
    if log != [] {
      var init := log[..|log| - 1];
      LastResponseIsLast(init);
      assert forall i :: 0 <= i < |init| ==> init[i] == log[i];
    }
  }

  /** `component_data` after the steps of `log`. */
  function DataAfter(userQuery: string, log: seq<LogEntry>): ComponentData {
    ComponentData(userQuery, LastContext(log), LastResponse(log))
  }

  /** `node_lookup = {node["id"]: node for node in nodes}`: a later node
      with the same id replaces an earlier one. */
  function NodeLookup(nodes: seq<Node>): (m: map<string, Node>)
    ensures m.Keys == SetOf(Ids(nodes))
    ensures forall id :: id in m ==> m[id].id == id && m[id] in nodes
  {
    if nodes == [] then map[]
    else
      var init := nodes[..|nodes| - 1];
      var last := nodes[|nodes| - 1];
      assert nodes == init + [last];
      assert Ids(nodes) == Ids(init) + [last.id];
      assert SetOf(Ids(nodes)) == SetOf(Ids(init)) + {last.id};
      NodeLookup(init)[last.id := last]
  }

  /** The lookup holds, for each id, the last node that carries it. */
  lemma {:induction false} NodeLookupLast(nodes: seq<Node>, i: int)
    requires 0 <= i < |nodes|
    requires forall j :: i < j < |nodes| ==> nodes[j].id != nodes[i].id
    ensures NodeLookup(nodes)[nodes[i].id] == nodes[i]
  {
    var init := nodes[..|nodes| - 1];
    if i < |init| {
      assert init[i] == nodes[i];
      NodeLookupLast(init, i);
    }
  }

  /** Entry `i` of `log` runs the node of `order[i]` on the component data
      the entries before it left. */
  predicate Follows(order: seq<string>, lookup: map<string, Node>, userQuery: string,
                    retrieve: Retriever, generate: Generator, log: seq<LogEntry>) {
    |log| <= |order|
    && forall i :: 0 <= i < |log| ==>
         order[i] in lookup && log[i] == Entry(order[i], lookup[order[i]], DataAfter(userQuery, log[..i]), retrieve, generate)
  }

  /** Appending the entry for the next id keeps the log following the order. */
  lemma FollowsSnoc(order: seq<string>, lookup: map<string, Node>, userQuery: string,
                    retrieve: Retriever, generate: Generator, log: seq<LogEntry>)
    requires Follows(order, lookup, userQuery, retrieve, generate, log)
    requires |log| < |order| && order[|log|] in lookup
    ensures Follows(order, lookup, userQuery, retrieve, generate,
                    log + [Entry(order[|log|], lookup[order[|log|]], DataAfter(userQuery, log), retrieve, generate)])
  {
    var next := log + [Entry(order[|log|], lookup[order[|log|]], DataAfter(userQuery, log), retrieve, generate)];
    forall i | 0 <= i < |next|
      ensures next[i] == Entry(order[i], lookup[order[i]], DataAfter(userQuery, next[..i]), retrieve, generate)
    {
      if i < |log| {
        assert next[..i] == log[..i];
      } else {
        assert next[..i] == log;
      }
    }
  }

  /** The step protocol over `order`: entry `i` runs the node of `order[i]`
      on the component data the earlier entries left, every entry but the
      last succeeded, the log stops short of the order only after a failure,
      and the final response is the last LLM response. */
  predicate RunsOver(order: seq<string>, lookup: map<string, Node>, userQuery: string,
                     retrieve: Retriever, generate: Generator, log: seq<LogEntry>, finalResponse: string) {
    |log| <= |order|
    && Follows(order, lookup, userQuery, retrieve, generate, log)
    && (forall i :: 0 <= i < |log| - 1 ==> log[i].success)
    && (|log| < |order| ==> log != [] && !log[|log| - 1].success)
    && finalResponse == LastResponse(log).GetOr(NoResponse)
  }

  /** The `for node_id in execution_order` loop with its early `break`. */
  method RunSteps(order: seq<string>, lookup: map<string, Node>, userQuery: string,
                  retrieve: Retriever, generate: Generator) returns (log: seq<LogEntry>, finalResponse: string)
    requires forall i :: 0 <= i < |order| ==> order[i] in lookup
    ensures RunsOver(order, lookup, userQuery, retrieve, generate, log, finalResponse)
  {
    var data := ComponentData(userQuery, None, None);
    log := [];
    var i := 0;
    while i < |order|
      invariant i <= |order| && |log| == i
      invariant Follows(order, lookup, userQuery, retrieve, generate, log)
      invariant forall k :: 0 <= k < i ==> log[k].success
      invariant data == DataAfter(userQuery, log)
    {
      var nodeId := order[i];
      var node := lookup[nodeId];
      var result := Step(node, data, retrieve, generate);
      match result {
        case ContextStep(c, _) => data := data.(context := Some(c));
        case ResponseStep(r, _) => data := data.(llmResponse := Some(r));
        case _ =>
      }
      ghost var before := log;
      FollowsSnoc(order, lookup, userQuery, retrieve, generate, log);
      log := log + [LogEntry(nodeId, node.nodeType, result.Success(), result)];
      assert log[..i] == before;
      assert LastContext(log) == if result.ContextStep? then Some(result.context) else LastContext(before);
      assert LastResponse(log) == if result.ResponseStep? then Some(result.response) else LastResponse(before);
      if !result.Success() {
        break;
      }
      i := i + 1;
    }
    finalResponse := data.llmResponse.GetOr(NoResponse);
  }

  /** `execute_workflow(nodes, edges, user_query, session_id)`. An invalid
      workflow is rejected with its validation errors before anything runs;
      a dangling edge raises out of the ordering step; otherwise the steps
      run over the first-in first-out execution order of the nodes. */
  method ExecuteWorkflow(nodes: seq<Node>, edges: seq<Edge>, userQuery: string, sessionId: Option<string>,
                         retrieve: Retriever, generate: Generator) returns (out: Outcome)
    ensures out.Rejected? <==> !(HasType(nodes, UserQueryType) && HasType(nodes, OutputType))
    ensures out.Rejected? ==> out.errors == RequiredErrors(nodes) && out.errors != []
    ensures out.Raised? <==> !out.Rejected? && exists e :: e in edges && Dangling(e, SetOf(Ids(nodes)))
    ensures out.Raised? ==> exists k :: 0 <= k < |edges| && Dangling(edges[k], SetOf(Ids(nodes)))
                                        && out.missingNode == edges[k].target
                                        && forall k' :: 0 <= k' < k ==> !Dangling(edges[k'], SetOf(Ids(nodes)))
    ensures out.Completed? ==> out.sessionId == sessionId
    ensures out.Completed? ==> && (forall e :: e in edges ==> !Dangling(e, SetOf(Ids(nodes))))
                               && ExecutionOrder(FifoOrder(Ids(nodes), edges), Ids(nodes), edges)
                               && RunsOver(FifoOrder(Ids(nodes), edges), NodeLookup(nodes), userQuery, retrieve,
                                           generate, out.log, out.finalResponse)
  {
    var validation := ValidateWorkflow(nodes, edges);
    if !validation.valid {
      return Rejected(validation.errors);
    }
    var ordered := BuildExecutionOrder(nodes, edges);
    if ordered.Err? {
      return Raised(ordered.error);
    }
    var order := ordered.value;
    var lookup := NodeLookup(nodes);
    var log, finalResponse := RunSteps(order, lookup, userQuery, retrieve, generate);
    out := Completed(finalResponse, log, sessionId);
  }

  /** Two logs that follow the same order agree on their common prefix. */
  lemma {:induction false} FollowsAgree(order: seq<string>, lookup: map<string, Node>, userQuery: string,
                                        retrieve: Retriever, generate: Generator,
                                        log1: seq<LogEntry>, log2: seq<LogEntry>, n: nat)
    requires Follows(order, lookup, userQuery, retrieve, generate, log1)
    requires Follows(order, lookup, userQuery, retrieve, generate, log2)
    requires n <= |log1| && n <= |log2|
    ensures log1[..n] == log2[..n]
  {
    if n > 0 {
      FollowsAgree(order, lookup, userQuery, retrieve, generate, log1, log2, n - 1);
      ExtendAgreement(log1, log2, n - 1);
    }
  }

  /** Two logs that agree before `i` and hold equal entries at `i` agree up to `i + 1`. */
  lemma ExtendAgreement(log1: seq<LogEntry>, log2: seq<LogEntry>, i: nat)
    requires i < |log1| && i < |log2|
    requires log1[..i] == log2[..i] && log1[i] == log2[i]
    ensures log1[..i + 1] == log2[..i + 1]
  {
    assert log1[..i + 1] == log1[..i] + [log1[i]];
    assert log2[..i + 1] == log2[..i] + [log2[i]];
  }

  /** The step protocol pins the log down: two runs over the same order agree. */
  lemma RunsOverUnique(order: seq<string>, lookup: map<string, Node>, userQuery: string,
                       retrieve: Retriever, generate: Generator,
                       log1: seq<LogEntry>, final1: string, log2: seq<LogEntry>, final2: string)
    requires RunsOver(order, lookup, userQuery, retrieve, generate, log1, final1)
    requires RunsOver(order, lookup, userQuery, retrieve, generate, log2, final2)
    ensures log1 == log2 && final1 == final2
  {
    var n := if |log1| <= |log2| then |log1| else |log2|;
    FollowsAgree(order, lookup, userQuery, retrieve, generate, log1, log2, n);
    assert n > 0 ==> log1[n - 1] == log1[..n][n - 1] == log2[n - 1];
    assert |log1| == |log2|;
    assert log1 == log1[..n] && log2 == log2[..n];
  }

  /** An LLM engine step receives the context of the last knowledge-base
      step before it, or the empty string when none ran. */
  lemma LlmSeesLastContext(order: seq<string>, lookup: map<string, Node>, userQuery: string,
                           retrieve: Retriever, generate: Generator, log: seq<LogEntry>, finalResponse: string, i: int)
    requires RunsOver(order, lookup, userQuery, retrieve, generate, log, finalResponse)
    requires 0 <= i < |log| && lookup[order[i]].nodeType == LlmEngineType
    ensures log[i].result == LlmEngineComponent(lookup[order[i]].data, userQuery,
                                                LastContext(log[..i]).GetOr(""), generate)
  {
  }
}
