/** The execution results dialog (`components/ExecutionPanel.js`) over the
    dictionary `execute_workflow` answers with: when it shows, how a long
    step response is shortened, what a failure shows, the step count and the
    colour of each node type. */
module ExecutionPanel {
  import opened Values
  import opened Workflow
  import opened Execution

  const UnknownError := "Unknown error occurred"
  const Ellipsis := "..."
  const ResponseLimit := 200

  /** The fields of the server's answer the client reads (times left out):
      `success`, `final_response`, `error` and `execution_log`, each `None`
      when the dictionary has no such key. */
  datatype Response = Response(success: bool, finalResponse: Option<string>, error: Option<string>,
                               log: Option<seq<LogEntry>>)

  /** The dictionary `execute_workflow` returns: a rejected workflow answers
      `success` false with `errors` (not `error`); a completed run answers
      `success` true with the final response and the log, even when a step
      failed. An exception raised out of the ordering step produces no
      dictionary at all. */
  function ServerResponse(out: Outcome): (r: Option<Response>)
    ensures r.None? <==> out.Raised?
    ensures r.Some? ==> (r.value.success <==> out.Completed?)
  {
    match out
    case Rejected(_) => Some(Response(false, None, None, None))
    case Completed(finalResponse, log, _) => Some(Response(true, Some(finalResponse), None, Some(log)))
    case Raised(_) => None
  }

  /** `if (!isOpen || !executionResult) return null`. */
  predicate Visible(isOpen: bool, result: Option<Response>) {
    isOpen && result.Some?
  }

  /** An open dialog shows every rejected or completed run, and nothing
      when the ordering step raised. */
  lemma VisibleUnlessRaised(isOpen: bool, out: Outcome)
    ensures Visible(isOpen, ServerResponse(out)) <==> isOpen && !out.Raised?
  {
  }

  /** A step response of more than 200 characters is shown as its first 200
      characters and "...": either the response itself, or its prefix with
      the ellipsis, never more than 203 characters. */
  function Truncate(response: string): (shown: string)
    ensures |response| <= ResponseLimit ==> shown == response
    ensures shown == response
            || (|shown| == ResponseLimit + |Ellipsis| && shown[..ResponseLimit] == response[..ResponseLimit]
                && shown[ResponseLimit..] == Ellipsis)
  {
    if |response| > ResponseLimit then response[..ResponseLimit] + Ellipsis else response
  }

  /** Shortening a shortened response changes nothing. */
  lemma TruncateIdempotent(response: string)
    ensures Truncate(Truncate(response)) == Truncate(response)
  {
    if |response| > ResponseLimit {
      assert Truncate(response)[..ResponseLimit] == response[..ResponseLimit];
    }
  }

  /** What a step shows under "Response:": only an LLM step with a
      non-empty response has one, shortened. */
  function StepResponse(entry: LogEntry): (shown: Option<string>)
    ensures shown.Some? <==> entry.result.ResponseStep? && entry.result.response != ""
    ensures shown.Some? ==> |shown.value| <= ResponseLimit + |Ellipsis|
  {
    match entry.result
    case ResponseStep(response, _) => if response != "" then Some(Truncate(response)) else None
    case _ => None
  }

  /** The text under "Execution Failed:": `error || 'Unknown error occurred'`. */
  function FailureText(r: Response): (text: string)
    ensures text != ""
    ensures r.error.Some? && r.error.value != "" ==> text == r.error.value
  {
    if r.error.Some? && r.error.value != "" then r.error.value else UnknownError
  }

  /** A rejected workflow carries its reasons under `errors`, which the panel
      does not read: the dialog reports a failure with the fixed text. */
  lemma RejectionShowsUnknownError(errors: seq<string>)
    ensures ServerResponse(Rejected(errors)).Some?
    ensures !ServerResponse(Rejected(errors)).value.success
    ensures FailureText(ServerResponse(Rejected(errors)).value) == UnknownError
  {
  }

  /** "Steps Completed": `execution_log?.length || 0`. */
  function StepsCompleted(r: Response): (n: nat)
    ensures r.log.None? ==> n == 0
  {
    if r.log.Some? then |r.log.value| else 0
  }

  /** For a completed run, the step count is the number of log entries, at
      most the length of the execution order; the header still reads
      "Success" when the last step failed and cut the run short. */
  lemma CompletedRunCounts(order: seq<string>, lookup: map<string, Node>, userQuery: string,
                           retrieve: Retriever, generate: Generator, log: seq<LogEntry>,
                           finalResponse: string, sessionId: Option<string>)
    requires RunsOver(order, lookup, userQuery, retrieve, generate, log, finalResponse)
    ensures var r := ServerResponse(Completed(finalResponse, log, sessionId)).value;
            && r.success
            && StepsCompleted(r) == |log| <= |order|
            && (StepsCompleted(r) < |order| ==> !log[|log| - 1].success)
  {
  }

  /** The badge colours of `getNodeTypeColor`. */
  function NodeTypeColor(nodeType: string): (color: string)
    ensures nodeType !in {UserQueryType, KnowledgeBaseType, LlmEngineType, OutputType}
            ==> color == "bg-gray-100 text-gray-800"
  {
    if nodeType == UserQueryType then "bg-blue-100 text-blue-800"
    else if nodeType == KnowledgeBaseType then "bg-green-100 text-green-800"
    else if nodeType == LlmEngineType then "bg-purple-100 text-purple-800"
    else if nodeType == OutputType then "bg-orange-100 text-orange-800"
    else "bg-gray-100 text-gray-800"
  }

  /** The four component types get four different colours, none of them the
      default grey. */
  lemma NodeTypeColorsDistinct(t1: string, t2: string)
    requires t1 in {UserQueryType, KnowledgeBaseType, LlmEngineType, OutputType}
    requires NodeTypeColor(t1) == NodeTypeColor(t2)
    ensures t1 == t2
    ensures NodeTypeColor(t1) != "bg-gray-100 text-gray-800"
  {
  }
}
