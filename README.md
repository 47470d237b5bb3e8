# AI workflow builder: a Dafny model of its core

The AI workflow builder lets a user draw a workflow on a canvas and then run it on a query. A workflow is a graph of four component types:

- a *user query* node;
- a *knowledge base* node, which retrieves document chunks from a vector store;
- an *LLM engine* node, which asks OpenAI or Gemini, optionally after a SerpAPI web search;
- an *output* node.

The Python server validates the graph, orders it with Kahn's topological sort and runs the components in that order. Uploaded PDFs are cut into overlapping chunks before they are embedded. The React client consists of:

- the canvas;
- two node configuration panels;
- the header with its validation status and buttons;
- the chat dialog;
- the execution results dialog.

This project models that core in Dafny and proves what each part promises.

| module | file | models |
|---|---|---|
| `Values` | values.dfy | JSON-like values, JavaScript `\|\|` and `??`, Python and JavaScript truthiness |
| `Text` | text.dfy | `strip`/`trim`, `join`/`split`, decimal rendering of naturals |
| `Workflow` | workflow.dfy | `validate_workflow` |
| `Scheduling` | scheduling.dfy | `build_execution_order` (Kahn's algorithm) |
| `Execution` | execution.dfy | `execute_workflow` and the four component executors |
| `Chunking` | chunking.dfy | `chunk_text` and `process_and_embed_document` |
| `LlmService` | llm_service.dfy | `LLMService`: prompts, message lists, web search, provider dispatch |
| `WorkflowCanvas` | workflow_canvas.dfy | `WorkflowCanvas.js`: node ids, drops, default configurations, edge ids |
| `ConfigPanel` | config_panel.dfy | `components/ConfigPanel.js` |
| `ConfigurationPanel` | configuration_panel.dfy | `component/ConfigurationPanel.js` |
| `Header` | header.dfy | `Header.js` and its save dialog |
| `ChatModal` | chat_modal.dfy | `ChatModal.js` |
| `ExecutionPanel` | execution_panel.dfy | `ExecutionPanel.js` |

## How the model is built

**Server code that only computes** is modelled as functions over datatypes. Examples are the component executors, the prompt builders and the dispatch.

**Server loops** are methods whose loop invariants tie them to a specification function or predicate. These are:

- the validation loops;
- the three phases of the topological sort;
- the chunking loop;
- the metadata loop;
- the search-result loop;
- the snippet loop;
- the step loop of `execute_workflow`.

**Client components whose state changes** are classes: the canvas, both panels, the save dialog and the chat dialog.

- Their fields are the component's state.
- Every handler is a method with a `modifies` clause and a `Valid()` invariant.
- An `async` handler is split at its `await` into a method for the part before it and a method for the part after it. The remote answer is a parameter of the second method.

**Remote and library calls become parameters.** These are:

- the language-model SDKs;
- SerpAPI;
- the vector store;
- the clock;
- `uuid4`.

The parameters are arbitrary functions that may succeed or fail, so every proved property holds whatever those services answer.

## Model

| member | source | states |
|---|---|---|
| Workflow.ValidateWorkflow | ai-workflow-builder/server/services/workflow_service.py:15-63 | The workflow is valid exactly when it has a user-query node and an output node. The errors are the missing-component errors, user query first. The warnings are, in order: the missing-LLM warning, one configuration warning per node, and the unconnected-nodes warning. |
| Workflow.CollectConfigWarnings | ai-workflow-builder/server/services/workflow_service.py:33-43 | The node loop yields exactly the configuration warnings, in node order. |
| Workflow.ConnectedIds | ai-workflow-builder/server/services/workflow_service.py:46-49 | The edge loop collects exactly the ids mentioned as source or target. |
| Workflow.UnconnectedIds | ai-workflow-builder/server/services/workflow_service.py:51-54 | The node loop keeps exactly the ids that no edge mentions, in node order. |
| Workflow.ConfigWarningsEmpty | ai-workflow-builder/server/services/workflow_service.py:37-43 | There is no configuration warning if and only if every LLM engine has a truthy model provider and every knowledge base has a truthy collection name. |
| Workflow.MisconfiguredNodesMembers | ai-workflow-builder/server/services/workflow_service.py:37-43 | A node is listed as misconfigured if and only if it belongs to the workflow and is misconfigured. |
| Workflow.ConfigWarningsCount | ai-workflow-builder/server/services/workflow_service.py:33-43 | There is one warning per misconfigured node: the k-th warning names the k-th misconfigured node. |
| Workflow.UnconnectedMembers | ai-workflow-builder/server/services/workflow_service.py:51-54 | An id is reported as unconnected if and only if it is a node id that no edge mentions. |
| Workflow.UnconnectedWarningsEmpty | ai-workflow-builder/server/services/workflow_service.py:56-57 | The unconnected-nodes warning is absent if and only if every node is touched by some edge. |
| Scheduling.KeysSpec | ai-workflow-builder/server/services/workflow_service.py:70-73 | The dictionary keys in insertion order are repetition-free and are exactly the node ids. |
| Scheduling.InitTables | ai-workflow-builder/server/services/workflow_service.py:70-73 | Every node id starts with an empty successor list and in-degree 0, and the keys are in insertion order. |
| Scheduling.CountEdge | ai-workflow-builder/server/services/workflow_service.py:75-81 | An edge from a node id to an unknown target raises a `KeyError` naming that target. Otherwise the tables count the edges seen so far. |
| Scheduling.CountEdges | ai-workflow-builder/server/services/workflow_service.py:75-81 | The edge loop raises exactly when some edge dangles, naming the target of a dangling edge. Otherwise `graph` holds each node's targets in edge order and `in_degree` counts the counted edges into each node. |
| Scheduling.TargetsIn | ai-workflow-builder/server/services/workflow_service.py:79-81 | When no edge dangles, every recorded successor is a node id. |
| Scheduling.InitialQueue | ai-workflow-builder/server/services/workflow_service.py:84 | The initial queue is the keys of in-degree 0, in key order. |
| Scheduling.RootsSpec | ai-workflow-builder/server/services/workflow_service.py:84 | A key is in the initial queue if and only if its in-degree is 0. The queue has no repetition. |
| Scheduling.Drain | ai-workflow-builder/server/services/workflow_service.py:87-95 | The `while queue` loop emits exactly `Kahn` from the counted tables and the initial queue: the first-in first-out run that pops the head, emits it and releases its successors. |
| Scheduling.Release | ai-workflow-builder/server/services/workflow_service.py:92-95 | Decrementing the popped node's successors in order gives exactly the tables of `ReleaseAll`: a successor whose count reaches 0 is appended to the queue at that moment. |
| Scheduling.StepSpec | ai-workflow-builder/server/services/workflow_service.py:93-95 | Decrementing one successor keeps each in-degree counting the edges from nodes not yet emitted, and queues that successor exactly when its count reaches 0. |
| Scheduling.ReleaseAllSpec | ai-workflow-builder/server/services/workflow_service.py:92-95 | After all successors are released, each in-degree counts the edges from nodes not yet emitted. The old queue stays in front, and the emitted and queued nodes are distinct node ids that include every node whose count is 0. |
| Scheduling.Pass | ai-workflow-builder/server/services/workflow_service.py:90-95 | One pass keeps the keys of `in_degree`. Every node it queues was already queued behind the head or is a successor of the head. |
| Scheduling.PopStep | ai-workflow-builder/server/services/workflow_service.py:90-95 | Emitting the head and releasing its successors keeps the loop state, with the rest of the queue still in front. Every counted edge into the head comes from a node already emitted. |
| Scheduling.PopAndRelease | ai-workflow-builder/server/services/workflow_service.py:90-95 | One iteration keeps the loop state, and the passes left (one fewer) still produce the same overall order. |
| Scheduling.KahnSpec | ai-workflow-builder/server/services/workflow_service.py:87-95 | From any reachable loop state, what the loop emits completes an execution order: distinct node ids, counted predecessors first, no ready node left out, emitted and queued nodes first. |
| Scheduling.KahnStep | ai-workflow-builder/server/services/workflow_service.py:88-95 | The same for a non-empty queue: the head is emitted, and the rest follows from the state after its release. |
| Scheduling.KahnStart | ai-workflow-builder/server/services/workflow_service.py:84-95 | Started from the roots with nothing emitted, `\|s\|` passes of the loop give an execution order that begins with the roots. |
| Scheduling.SortCounted | ai-workflow-builder/server/services/workflow_service.py:84-97 | From the counted tables, the initial queue and the `while queue` loop return exactly the first-in first-out order. |
| Scheduling.FifoOrderSpec | ai-workflow-builder/server/services/workflow_service.py:65-97 | The first-in first-out order is an execution order of the node ids. |
| Scheduling.FifoCompleteIffAcyclic | ai-workflow-builder/server/services/workflow_service.py:65-97 | The first-in first-out order holds every node id if and only if the graph has no cycle. |
| Scheduling.BuildExecutionOrder | ai-workflow-builder/server/services/workflow_service.py:65-97 | The sort raises if and only if some edge dangles, naming the target of the first such edge. Otherwise it returns the first-in first-out order of Kahn's algorithm, which is an execution order: each node id at most once, edges respected, and no ready node left out. |
| Scheduling.EdgesRespected | ai-workflow-builder/server/services/workflow_service.py:84-97 | For every edge between two emitted nodes, the source is emitted first. |
| Scheduling.AcyclicIfComplete | ai-workflow-builder/server/services/workflow_service.py:84-97 | An order that holds every node id proves that the graph has no cycle. |
| Scheduling.CyclicIfIncomplete | ai-workflow-builder/server/services/workflow_service.py:84-97 | An order that misses some node id proves that the graph has a cycle. |
| Scheduling.CompleteIffAcyclic | ai-workflow-builder/server/services/workflow_service.py:84-97 | The order holds every node id if and only if the graph is acyclic. |
| Scheduling.CycleOmitted | ai-workflow-builder/server/services/workflow_service.py:84-97 | No node on a directed cycle is ever emitted. |
| Execution.UserQueryComponent | ai-workflow-builder/server/services/workflow_service.py:190-196 | The user-query step succeeds and carries the query. |
| Execution.KnowledgeBaseComponent | ai-workflow-builder/server/services/workflow_service.py:198-229 | A falsy collection name fails with the fixed message. Otherwise the store is asked with the defaults "openai" and 5. On success the retrieved contents are joined with blank lines and counted; on failure the store's error is passed on. |
| Execution.LlmRequestFor | ai-workflow-builder/server/services/workflow_service.py:231-247 | The LLM request carries the query and the context. Each missing key takes its default: "openai", "gpt-3.5-turbo", no web search, an empty custom prompt, temperature 0.7. |
| Execution.LlmEngineComponent | ai-workflow-builder/server/services/workflow_service.py:249-257 | The LLM step succeeds exactly when the generator answers the request built from the node data. It then carries the response and the model used; otherwise it carries the generator's error. |
| Execution.OutputComponent | ai-workflow-builder/server/services/workflow_service.py:259-265 | The output step succeeds and carries the response it was given. |
| Execution.Step | ai-workflow-builder/server/services/workflow_service.py:131-156 | Each node type runs its own component on the current data. An output node gets the last LLM response or "No response generated". An unknown type fails with "Unknown node type: …". |
| Execution.LastContextIsLast | ai-workflow-builder/server/services/workflow_service.py:134-139 | The context passed on is the one from the latest successful knowledge-base step. There is none exactly when no such step ran. |
| Execution.LastResponseIsLast | ai-workflow-builder/server/services/workflow_service.py:141-148 | The LLM response passed on is the one from the latest successful LLM step. There is none exactly when no such step ran. |
| Execution.NodeLookup | ai-workflow-builder/server/services/workflow_service.py:117 | The lookup's keys are exactly the node ids, and each key maps to a node that carries it. |
| Execution.NodeLookupLast | ai-workflow-builder/server/services/workflow_service.py:117 | For a repeated id, the lookup holds the last node that carries it. |
| Execution.RunSteps | ai-workflow-builder/server/services/workflow_service.py:124-176 | Entry i runs the node of the i-th id in the order, on the data the earlier entries left. Every entry but the last succeeded. The log stops short of the order only after a failed step. The final response is the last LLM response, or "No response generated". |
| Execution.RunsOverUnique | ai-workflow-builder/server/services/workflow_service.py:124-169 | For a given order, the log and the final response are determined. |
| Execution.LlmSeesLastContext | ai-workflow-builder/server/services/workflow_service.py:141-147 | An LLM step receives the user query and the context of the last earlier knowledge-base step. |
| Execution.ExecuteWorkflow | ai-workflow-builder/server/services/workflow_service.py:99-180 | The run is rejected, with the validation errors, exactly when a required component is missing. It raises exactly when an edge dangles. Otherwise it completes over the first-in first-out execution order of the nodes, following the step protocol and echoing the session id. |
| Chunking.LastTerminator | ai-workflow-builder/server/services/document_service.py:62-65 | Returns the highest index in the scan range that holds '.', '!', '?' or a newline, or None when the range holds none. |
| Chunking.FindWindowEnd | ai-workflow-builder/server/services/document_service.py:57-65 | The scanning loop computes the window end: one past the last terminator in range, else `start + chunk_size`. |
| Chunking.WindowEndBreaks | ai-workflow-builder/server/services/document_service.py:60-65 | Only the last terminator in range ends a window early. A window that reaches the end of the text, or has no terminator in range, is `chunk_size` wide. |
| Chunking.WindowsWithin | ai-workflow-builder/server/services/document_service.py:56-71 | Every window starts inside the text, at or after the start. |
| Chunking.WindowsChained | ai-workflow-builder/server/services/document_service.py:71 | Each window starts `overlap` characters before the previous one ended. |
| Chunking.ChainedIncreasing | ai-workflow-builder/server/services/document_service.py:56-71 | Window starts strictly increase, so the loop terminates. |
| Chunking.WindowsReachEnd | ai-workflow-builder/server/services/document_service.py:56-71 | The first window starts at the start, and the last window reaches the end of the text. |
| Chunking.WindowsCover | ai-workflow-builder/server/services/document_service.py:56-71 | With a non-negative overlap, every character of the text lies in some window. |
| Chunking.PiecesFrom | ai-workflow-builder/server/services/document_service.py:67-69 | Every chunk kept is the non-empty stripped text of one window. |
| Chunking.CollectChunks | ai-workflow-builder/server/services/document_service.py:56-71 | The while loop yields the stripped non-empty window texts, in window order. |
| Chunking.NextChunk | ai-workflow-builder/server/services/document_service.py:57-71 | One pass appends the current window's piece, and the next start is strictly later. |
| Chunking.ChunkText | ai-workflow-builder/server/services/document_service.py:48-73 | A text of at most `chunk_size` characters comes back whole. Otherwise the chunks are those of the window sequence. |
| Chunking.ChunksShape | ai-workflow-builder/server/services/document_service.py:48-73 | For a long text every chunk is non-empty and has no surrounding whitespace. Its length is at most `chunk_size`, plus one character with the scan as written. |
| Chunking.ChunkOverrun | ai-workflow-builder/server/services/document_service.py:62-64 | With the scan as written, "aaaaaaaaaa.b" with chunk size 10 and overlap 0 gives a first chunk of 11 characters. |
| Chunking.ChunksWithinSize | ai-workflow-builder/server/services/document_service.py:48-73 | With the corrected scan, every chunk of a long text is at most `chunk_size` characters. |
| Chunking.ChunkMetadata | ai-workflow-builder/server/services/document_service.py:94-101 | There is one metadata record per chunk, carrying the file name, the index, the chunk's length and that pass's timestamp. |
| Chunking.ProcessAndEmbed | ai-workflow-builder/server/services/document_service.py:75-129 | A failed extraction is returned unchanged. A missing or empty collection name becomes "doc_" plus the first 8 of the 32 hex digits of a fresh `uuid4().hex`. The chunks sent to the store are those of the scan as written, each at most `chunk_size + 1` characters, with one metadata record per chunk. The result reports the store's ids and counts, or "Error creating embeddings: …". |
| LlmService.CustomizedPromptFrames | ai-workflow-builder/server/services/llm_service.py:173-174 | A custom prompt is placed first, followed by "\n\nUser Query: " and then the query. |
| LlmService.CustomizedPromptInjective | ai-workflow-builder/server/services/llm_service.py:173-174 | With a fixed custom prompt, different queries give different prompts. |
| LlmService.Messages | ai-workflow-builder/server/services/llm_service.py:23-34 | The user prompt is the last message. A system message carrying the context comes first exactly when the context is non-empty. |
| LlmService.MessagesRoundTrip | ai-workflow-builder/server/services/llm_service.py:23-34 | Both the context and the prompt can be read back from the message list. |
| LlmService.BuildMessages | ai-workflow-builder/server/services/llm_service.py:23-34 | The two appends build that message list. |
| LlmService.OpenAiOutcome | ai-workflow-builder/server/services/llm_service.py:43-57 | The OpenAI result is answered exactly when the call succeeds, with its text and the model name. Otherwise the result is the exception text. |
| LlmService.GenerateOpenAi | ai-workflow-builder/server/services/llm_service.py:17-57 | The OpenAI call receives the model, the message list, the temperature and the token limit. |
| LlmService.GeminiPromptInjective | ai-workflow-builder/server/services/llm_service.py:66-68 | For a fixed question, different contexts give different full prompts. |
| LlmService.GenerateGemini | ai-workflow-builder/server/services/llm_service.py:59-89 | The Gemini call receives the full prompt, the temperature and a limit of 4000 tokens. The result is answered exactly when the call succeeds. |
| LlmService.SearchWeb | ai-workflow-builder/server/services/llm_service.py:91-131 | An unset or empty key gives "SerpAPI key not configured". Otherwise the organic results are mapped in order, with missing fields read as "". |
| LlmService.CollectSnippets | ai-workflow-builder/server/services/llm_service.py:142-144 | The loop builds one "- title: snippet" line per hit, in order. |
| LlmService.WebResultsLines | ai-workflow-builder/server/services/llm_service.py:142-145 | When titles and snippets have no newline, splitting the joined results gives back one line per hit. |
| LlmService.CombineContextKeeps | ai-workflow-builder/server/services/llm_service.py:147-151 | The original context stays at the front and can be recovered. The web results come last, under their header. |
| LlmService.ContextAfterSearch | ai-workflow-builder/server/services/llm_service.py:139-151 | The context changes only when search was asked for and succeeded. |
| LlmService.Dispatch | ai-workflow-builder/server/services/llm_service.py:153-162 | The generator is chosen by provider. Any other provider fails with "Unsupported model provider: …". |
| LlmService.DispatchRoutes | ai-workflow-builder/server/services/llm_service.py:153-162 | Only "openai" and "gemini" can answer. OpenAI receives the prompt last and the context in the system message. |
| LlmService.GenerateWithWebSearch | ai-workflow-builder/server/services/llm_service.py:133-162 | The generator runs on the context after the search, at the default temperature. |
| LlmService.GenerateResponse | ai-workflow-builder/server/services/llm_service.py:164-182 | The rewritten prompt is both the search query and the question, and the outcome does not depend on `temperature`. |
| LlmService.TemperatureDropped | ai-workflow-builder/server/services/llm_service.py:164-182 | As written, a caller's temperature of 0 still reaches the backend as 0.7. |
| LlmService.RespondAt | ai-workflow-builder/server/services/llm_service.py:164-182 | Intended version that forwards the temperature; at 0.7 it agrees with the code as written. |
| LlmService.TemperatureForwarded | ai-workflow-builder/server/services/llm_service.py:164-182 | In the intended version, the chosen generator receives the caller's temperature. |
| WorkflowCanvas.IdOfInjective | ai-workflow-builder/client/src/components/WorkflowCanvas.js:25-26 | Different counter values give different `node_${n}` ids. |
| WorkflowCanvas.Canvas.constructor | ai-workflow-builder/client/src/components/WorkflowCanvas.js:25 | The module-level counter starts at 0 with an empty canvas. |
| WorkflowCanvas.Canvas.GetId | ai-workflow-builder/client/src/components/WorkflowCanvas.js:25-26 | Returns the id of the current counter and advances the counter. |
| WorkflowCanvas.Canvas.OnDrop | ai-workflow-builder/client/src/components/WorkflowCanvas.js:38-77 | An empty drag type changes nothing. Otherwise one node is appended with a fresh id, the type, the drop position, the label and the default configuration; existing nodes are untouched. |
| WorkflowCanvas.Canvas.IdsDistinct | ai-workflow-builder/client/src/components/WorkflowCanvas.js:25-26 | The node ids on the canvas are pairwise distinct. |
| WorkflowCanvas.Canvas.NextIdFresh | ai-workflow-builder/client/src/components/WorkflowCanvas.js:25-26 | The next generated id is not yet on the canvas. |
| WorkflowCanvas.DropPosition | ai-workflow-builder/client/src/components/WorkflowCanvas.js:45-49 | The node's centre lands under the cursor, relative to the canvas. |
| WorkflowCanvas.Label | ai-workflow-builder/client/src/components/WorkflowCanvas.js:51-63 | The label is "Unknown" exactly for a type outside the four component types. |
| WorkflowCanvas.LabelNamesType | ai-workflow-builder/client/src/components/WorkflowCanvas.js:51-57 | The four labels are distinct. |
| WorkflowCanvas.DefaultConfig | ai-workflow-builder/client/src/components/WorkflowCanvas.js:79-106 | The default configuration of an unknown type is empty. |
| WorkflowCanvas.Posted | ai-workflow-builder/client/src/components/WorkflowCanvas.js:58-65 | The node sent to the server keeps its id and type. Its `data` holds exactly `label` and `config`, and `config` is the canvas configuration. |
| WorkflowCanvas.PostedConfigUnread | ai-workflow-builder/server/services/workflow_service.py:33-43 | As written, the server reads the configuration keys from `node["data"]`, where the client never puts them. Every posted LLM engine and knowledge base is warned about, the knowledge-base step fails for want of a collection name, and the LLM request is the all-defaults one. |
| WorkflowCanvas.ConfigRead | ai-workflow-builder/client/src/components/WorkflowCanvas.js:62-65 | The intended server reading takes `node["data"]["config"]`, and an empty configuration when the key is absent. |
| WorkflowCanvas.ConfigReachesServer | ai-workflow-builder/client/src/components/WorkflowCanvas.js:62-65 | With the intended reading, the server sees exactly the canvas configuration, and the LLM request is built from it. |
| WorkflowCanvas.DefaultsUnderValidation | ai-workflow-builder/client/src/components/WorkflowCanvas.js:79-106 | With the intended reading of `data.config`, a freshly dropped LLM engine passes the server's configuration check. A freshly dropped knowledge base does not. |
| WorkflowCanvas.EdgeFor | ai-workflow-builder/client/src/components/WorkflowCanvas.js:113-128 | A connection becomes an edge between its two ends. |
| WorkflowCanvas.EdgeIdInjective | ai-workflow-builder/client/src/components/WorkflowCanvas.js:117 | When sources contain no '-', the edge id determines the connection. |
| WorkflowCanvas.GeneratedEdgeIds | ai-workflow-builder/client/src/components/WorkflowCanvas.js:117 | Between generated nodes, distinct connections have distinct edge ids. |
| ConfigPanel.WithConfigKeepsRest | ai-workflow-builder/client/src/components/ConfigPanel.js:38-50 | The node passed to the parent differs from the selected node only in `data.config`. |
| ConfigPanel.Panel.constructor | ai-workflow-builder/client/src/components/ConfigPanel.js:7 | The form starts from the node's `data.config`, or from an empty configuration when it has none. Nothing is uploading, and no update or toast has happened. |
| ConfigPanel.Panel.HandleConfigChange | ai-workflow-builder/client/src/components/ConfigPanel.js:38-50 | The key takes the new value and every other key is kept. The parent receives the rebuilt node once. |
| ConfigPanel.Panel.BeginUpload | ai-workflow-builder/client/src/components/ConfigPanel.js:52-57 | Without a file nothing happens. Otherwise the upload starts with the configured collection name and embedding provider. |
| ConfigPanel.Panel.CompleteUpload | ai-workflow-builder/client/src/components/ConfigPanel.js:58-71 | On success the collection name is set on the configuration the handler closed over. A failed or thrown upload only shows an error. `isUploading` is cleared in every case. |
| ConfigPanel.Shown | ai-workflow-builder/client/src/components/ConfigPanel.js:92-259 | A field whose key is missing shows its fallback. |
| ConfigPanel.FreshNodeShowsDefaults | ai-workflow-builder/client/src/components/ConfigPanel.js:92-259 | The form of a freshly dropped node shows exactly its default configuration. |
| ConfigPanel.TemperatureZeroShownAsDefault | ai-workflow-builder/client/src/components/ConfigPanel.js:207-214 | As written, a stored temperature of 0 is displayed as 0.7. |
| ConfigPanel.ShownNullish | ai-workflow-builder/client/src/components/ConfigPanel.js:207-214 | In the intended display, any stored non-null value is shown, and the fallback is used only for a missing key. |
| ConfigPanel.ShownNullishAfterChange | ai-workflow-builder/client/src/components/ConfigPanel.js:207-215 | In the intended display, the slider shows the value just stored, including 0. |
| ConfigurationPanel.Panel.constructor | ai-workflow-builder/client/src/component/ConfigurationPanel.js:6 | The panel shows the node's `data.config`, or an empty configuration, and shares the node's data. |
| ConfigurationPanel.Panel.UpdateConfig | ai-workflow-builder/client/src/component/ConfigurationPanel.js:22-27 | The key takes the new value, every other key is kept, and the node's shared `data.config` is the same configuration. |
| ConfigurationPanel.Panel.OnDropFiles | ai-workflow-builder/client/src/component/ConfigurationPanel.js:15-19 | Dropped files are appended after the existing documents, in order, with a missing list read as empty. |
| ConfigurationPanel.FilterOutRemoves | ai-workflow-builder/client/src/component/ConfigurationPanel.js:133 | Filtering out position i removes exactly that element and keeps the rest in order. An index out of range removes nothing. |
| ConfigurationPanel.FilterOutInside | ai-workflow-builder/client/src/component/ConfigurationPanel.js:133 | For an index in range, the filter keeps everything before and after that position, in order. |
| ConfigurationPanel.FilterOutOutside | ai-workflow-builder/client/src/component/ConfigurationPanel.js:133 | For an index out of range, the filter keeps the whole list. |
| ConfigurationPanel.Panel.RemoveDocument | ai-workflow-builder/client/src/component/ConfigurationPanel.js:132-134 | The document list loses exactly the chosen document, every other key keeps its value and no key is added, and the node's shared `data.config` is the new configuration. |
| ConfigurationPanel.NodeTitle | ai-workflow-builder/client/src/component/ConfigurationPanel.js:314-327 | Any type other than the four component types gets the title "Node Configuration". |
| ConfigurationPanel.NodeTitleDistinct | ai-workflow-builder/client/src/component/ConfigurationPanel.js:314-327 | The four component titles are distinct. |
| ConfigurationPanel.Shown | ai-workflow-builder/client/src/component/ConfigurationPanel.js:37-288 | A missing key shows the field's fallback. |
| ConfigurationPanel.SaveHistoryAlwaysChecked | ai-workflow-builder/client/src/component/ConfigurationPanel.js:275 | As written, the "Save Chat History" box shows checked for every stored value, including just after it was unchecked. |
| ConfigurationPanel.SaveHistoryChecked | ai-workflow-builder/client/src/component/ConfigurationPanel.js:275 | In the intended box, the box is checked by default and otherwise shows exactly the stored boolean. |
| ConfigurationPanel.SaveHistoryFollowsChange | ai-workflow-builder/client/src/component/ConfigurationPanel.js:275-276 | In the intended box, the box shows whatever was last stored. |
| ConfigurationPanel.ProviderEditNotSeenByServer | ai-workflow-builder/client/src/component/ConfigurationPanel.js:166-170 | The `provider` key this panel writes changes neither the server's LLM request nor its validation warnings. |
| Header.ValidationText | ai-workflow-builder/client/src/components/Header.js:94-99 | While validating the text is "Validating...". With no result it is "Not validated". |
| Header.ValidationIcon | ai-workflow-builder/client/src/components/Header.js:81-92 | While validating the icon is the spinner. |
| Header.IconMatchesText | ai-workflow-builder/client/src/components/Header.js:81-99 | Each icon goes with exactly one status text. |
| Header.ChatEnabled | ai-workflow-builder/client/src/components/Header.js:148-150 | "Chat with Stack" is enabled exactly when a result exists and says valid. |
| Header.ChatFollowsStatus | ai-workflow-builder/client/src/components/Header.js:94-150 | Once validation is done, chat is enabled exactly when the status reads "Valid workflow". |
| Header.BuildDisabled | ai-workflow-builder/client/src/components/Header.js:130-132 | "Build Stack" is enabled exactly when not validating and the canvas is not empty. |
| Header.BuildLabel | ai-workflow-builder/client/src/components/Header.js:136 | The button reads "Validating..." exactly while validating. |
| Header.BuildLabelMatchesStatus | ai-workflow-builder/client/src/components/Header.js:94-136 | The button caption equals the status text exactly while validating. |
| Header.SaveDisabled | ai-workflow-builder/client/src/components/Header.js:139-141 | "Save" is disabled exactly on an empty canvas. |
| Header.SaveModal.constructor | ai-workflow-builder/client/src/components/Header.js:5-6 | Name and description start empty, and nothing is saved. The dialog starts closed, as `showSaveModal` starts false in `Header` (line 79). |
| Header.SaveModal.Open | ai-workflow-builder/client/src/components/Header.js:139-141 | The enabled "Save" button opens the dialog and keeps what was typed. |
| Header.SaveModal.CanSave | ai-workflow-builder/client/src/components/Header.js:59 | The dialog's save button is enabled exactly when the name has a non-whitespace character. |
| Header.SaveModal.SetFields | ai-workflow-builder/client/src/components/Header.js:31-43 | Typing sets the two fields. |
| Header.SaveModal.Close | ai-workflow-builder/client/src/components/Header.js:52 | Cancel closes the dialog and keeps what was typed. |
| Header.SaveModal.HandleSave | ai-workflow-builder/client/src/components/Header.js:8-15 | A blank name changes nothing. Otherwise the trimmed name and description are saved, the dialog closes, and both fields are cleared. Every saved name is non-blank and trimmed. |
| ChatModal.BotReply | ai-workflow-builder/client/src/components/ChatModal.js:59-66 | The bot message shows the final response when it is non-empty, and "No response generated" otherwise. It is never blank and is not an error. |
| ChatModal.CanSendNeedsText | ai-workflow-builder/client/src/components/ChatModal.js:39 | A send goes out, and the Send button is enabled, exactly when nothing is loading and the input has a non-whitespace character. |
| ChatModal.Chat.constructor | ai-workflow-builder/client/src/components/ChatModal.js:6-9 | The chat starts with no messages, an empty input, nothing loading and no session id. |
| ChatModal.Chat.SessionCreated | ai-workflow-builder/client/src/components/ChatModal.js:25-32 | A created session's id is kept. A failure leaves the id unchanged. |
| ChatModal.Chat.SetInput | ai-workflow-builder/client/src/components/ChatModal.js:205-212 | Typing sets the input, which is disabled while loading. |
| ChatModal.Chat.BeginSend | ai-workflow-builder/client/src/components/ChatModal.js:38-56 | With a blank input or while loading, nothing happens. Otherwise the input is cleared, loading starts, the trimmed text is appended as a user message, and the text is sent with the session id. |
| ChatModal.Chat.CompleteSend | ai-workflow-builder/client/src/components/ChatModal.js:56-82 | The answer, or the apology with `success` false and `error` true, is appended as one bot message, and loading stops. User and bot messages keep alternating. |
| ChatModal.Chat.HandleKeyPress | ai-workflow-builder/client/src/components/ChatModal.js:85-90 | Enter without Shift sends when a send can go out: the trimmed input is appended as a user message, the input is cleared, loading starts, and the query goes out with the current session id. Any other key, including Shift+Enter, changes nothing. The session id never changes. |
| ChatModal.Chat.Answered | ai-workflow-builder/client/src/components/ChatModal.js:38-83 | When nothing is loading, every user message is followed by its bot message. |
| ExecutionPanel.ServerResponse | ai-workflow-builder/server/services/workflow_service.py:105-180 | A response body exists unless the ordering step raised. `success` is true exactly for a completed run. |
| ExecutionPanel.VisibleUnlessRaised | ai-workflow-builder/client/src/components/ExecutionPanel.js:5 | An open dialog shows every rejected or completed run, and nothing when the ordering step raised. |
| ExecutionPanel.Truncate | ai-workflow-builder/client/src/components/ExecutionPanel.js:119-122 | A response of at most 200 characters is shown unchanged. A longer one is shown as its first 200 characters plus "...". |
| ExecutionPanel.TruncateIdempotent | ai-workflow-builder/client/src/components/ExecutionPanel.js:119-122 | Shortening a shortened response changes nothing. |
| ExecutionPanel.StepResponse | ai-workflow-builder/client/src/components/ExecutionPanel.js:115-125 | Only an LLM step with a non-empty response shows one, and at most 203 characters of it. |
| ExecutionPanel.FailureText | ai-workflow-builder/client/src/components/ExecutionPanel.js:150-156 | A failure shows a non-empty `error`, or "Unknown error occurred". The text is never blank. |
| ExecutionPanel.RejectionShowsUnknownError | ai-workflow-builder/client/src/components/ExecutionPanel.js:150-156 | A rejected workflow sends `errors`, not `error`, so the dialog shows "Unknown error occurred". |
| ExecutionPanel.StepsCompleted | ai-workflow-builder/client/src/components/ExecutionPanel.js:172 | An absent log counts 0 steps. |
| ExecutionPanel.CompletedRunCounts | ai-workflow-builder/client/src/components/ExecutionPanel.js:42-52 | For a completed run, the step count is the log length, at most the order's length. The header reads "Success" even when a failed step cut the run short. |
| ExecutionPanel.NodeTypeColor | ai-workflow-builder/client/src/components/ExecutionPanel.js:15-23 | Any type outside the four component types gets the grey badge. |
| ExecutionPanel.NodeTypeColorsDistinct | ai-workflow-builder/client/src/components/ExecutionPanel.js:15-23 | The four component types get four different non-grey colours. |
| Text.StripEmpty | ai-workflow-builder/client/src/components/Header.js:9 | `trim` keeps nothing exactly when the string is all whitespace. |
| Text.StripIdempotent | ai-workflow-builder/client/src/components/Header.js:9-10 | Trimming twice is trimming once. |
| Text.SplitJoin | ai-workflow-builder/server/services/llm_service.py:145 | Joining with a separator no part contains can be undone by splitting on it. |
| Text.NatToStringInjective | ai-workflow-builder/client/src/components/WorkflowCanvas.js:26 | Distinct naturals render as distinct decimal strings. |

## Left out

- I/O and foreign calls become parameters that may answer anything:
  - the OpenAI, Gemini and SerpAPI calls;
  - the vector store;
  - PDF text extraction;
  - HTTP;
  - the clock;
  - `uuid4`.
- Not modelled: execution times, token usage, message ids and timestamps, toast wording beyond which toast is shown, and styling.
- JavaScript `undefined` and `null` are both `Null`. JSON objects are maps from keys to values. The node `style` and edge styling are left out.
- `Execution.ExecuteWorkflow`: does not model the `except` branch around the step loop. The component executors here cannot raise, because the language-model and document-store calls are parameters that return failures as values.
- `Scheduling.BuildExecutionOrder`: a `KeyError` raised by the sort escapes `execute_workflow`, which has no handler around it. It is modelled as the `Raised` outcome, not as a response dictionary.
- `Scheduling.Kahn` takes a bound of `|s|` passes. Each pass emits a node id not yet emitted, so the bound never stops the loop early.
- `Execution`: the component executors read the node data as the server is written, with keys such as `modelProvider` directly under `data`. The reading the client calls for is `WorkflowCanvas.ConfigRead`.
- `Chunking.ChunkText`: requires `ValidParams`. Outside those parameters, for example a chunk size of at most about 200 with the default overlap of 200, `start` can stop advancing and the Python loop does not terminate.
- `Chunking.ProcessAndEmbed` uses the scan as written, so its chunks may be one character longer than `chunk_size`. The corrected scan is the `Corrected` mode of `Chunking.Chunks`, and `Chunking.ChunksWithinSize` proves its bound.
- `Chunking.ProcessAndEmbed`: the chunks and metadata it sends are ghost out-parameters. The Python code does not return them.
- `query_document_collection`'s `1 - distance` score is floating point over library output, so the knowledge-base step sees only the contents the store returns.
- `ConfigurationPanel.OnDropFiles`: reads a non-list truthy `documents` value as an empty list. The source would spread it.
- `ConfigPanel.Panel`: the effect that resets the configuration when another node is selected is modelled as constructing a new panel.
- `loadCollections` and `loadModels` in `ConfigPanel.js` only fill option lists from remote calls, so they are left out.
- The React Flow library's own behaviour is left out: `addEdge` deduplication, node dragging and deletion, and `fitView`.
- `ChatModal`: `onExecuteWorkflow` is the parameter of `CompleteSend`. Scrolling and focus are left out.
- `Header.ValidationText` and `Header.ValidationIcon` take the validation result as `Workflow.Validation`. The client only reads its `valid` field.
- Temperatures are exact `real` numbers. Floating-point rounding is not modelled.
- `ExecutionPanel.Truncate` counts characters (Unicode scalar values). JavaScript's `length` and `substring` count UTF-16 code units, so the two differ on text outside the Basic Multilingual Plane.
- The server's `main.py`, `database.py` and `embedding_service.py` are not part of this model: they are request routing, ORM declarations and SDK wrappers.

## Findings

| source | as written | input that shows it | evidently intended | confidence | as-written member | corrected member |
|---|---|---|---|---|---|---|
| ai-workflow-builder/server/services/document_service.py:62 | The terminator scan starts at index `end`, so a chunk can be `chunk_size + 1` characters long. | "aaaaaaaaaa.b" with chunk size 10 and overlap 0: the first chunk is "aaaaaaaaaa.", 11 characters. | The scan starts at `end - 1`, so every chunk is at most `chunk_size` characters. | medium, not executed | Chunking.ChunkOverrun | Chunking.ChunksWithinSize |
| ai-workflow-builder/client/src/component/ConfigurationPanel.js:275 | `checked={config.saveHistory \|\| true}` is always true. | `saveHistory` stored as false: the box still shows checked. | `config.saveHistory ?? true`: checked by default, otherwise the stored value. | high, not executed | ConfigurationPanel.SaveHistoryAlwaysChecked | ConfigurationPanel.SaveHistoryFollowsChange |
| ai-workflow-builder/client/src/components/ConfigPanel.js:207-214 | `config.temperature \|\| 0.7` treats a stored 0 as missing. | temperature stored as 0: the slider and its label show 0.7. | `config.temperature ?? 0.7`: a stored 0 is shown as 0. | high, not executed | ConfigPanel.TemperatureZeroShownAsDefault | ConfigPanel.ShownNullishAfterChange |
| ai-workflow-builder/server/services/llm_service.py:176-182 | `generate_response` takes `temperature` but never passes it on, so the generators run at 0.7. | A node configured with temperature 0: with a backend that answers differently at 0, the sampled answer comes back. | The caller's temperature reaches the generator. | high, not executed | LlmService.TemperatureDropped | LlmService.TemperatureForwarded |
| ai-workflow-builder/server/services/workflow_service.py:35-38 | The server reads `modelProvider` and `collectionName` directly from `node["data"]`, but the canvas nests the configuration under `data.config`. The executors at lines 198-257 read the node data the same way. | A freshly dropped LLM engine with its default configuration: validation warns that it has no model provider, and its model and temperature are ignored at run time. | Read the configuration from `node["data"]["config"]`. | high, not executed | WorkflowCanvas.PostedConfigUnread | WorkflowCanvas.ConfigReachesServer |
