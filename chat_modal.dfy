/** The chat dialog (`components/ChatModal.js`) as a state machine over its
    message list: a send appends the user's trimmed message and starts
    loading; the answer (or the failure) appends one bot message and stops
    loading. The `await` splits a send into `BeginSend` and `CompleteSend`. */
module ChatModal {
  import opened Values
  import opened Text
  import ExecutionPanel

  const NoResponse := "No response generated"
  const Apology := "Sorry, there was an error processing your request. Please try again."

  /** A chat bubble (ids and timestamps left out): the user's text, or the
      bot's content with the `success` flag of the answer (`None` when the
      answer had none) and whether it reports an error. */
  datatype ChatMessage =
    | UserMessage(text: string)
    | BotMessage(content: string, success: Option<bool>, error: bool)

  /** The bot bubble for an answer `result` (`None` when undefined):
      `result?.final_response || 'No response generated'`. */
  function BotReply(result: Option<ExecutionPanel.Response>): (m: ChatMessage)
    ensures m.BotMessage? && !m.error && m.content != ""
    ensures result.Some? && result.value.finalResponse.Some? && result.value.finalResponse.value != ""
            ==> m.content == result.value.finalResponse.value && m.success == Some(result.value.success)
  {
    match result
    case None => BotMessage(NoResponse, None, false)
    case Some(r) =>
      var content := if r.finalResponse.Some? && r.finalResponse.value != "" then r.finalResponse.value else NoResponse;
      BotMessage(content, Some(r.success), false)
  }

  /** The bot bubble when the call throws. */
  const ErrorReply := BotMessage(Apology, Some(false), true)

  /** Whether a send does anything: a non-blank input and no request
      running. The Send button is enabled exactly then. */
  predicate CanSend(input: string, isLoading: bool) {
    Strip(input, IsJsSpace) != "" && !isLoading
  }

  /** A send goes out exactly when nothing is loading and the input has a
      character that is not whitespace. */
  lemma CanSendNeedsText(input: string, isLoading: bool)
    ensures CanSend(input, isLoading) <==> !isLoading && exists i :: 0 <= i < |input| && !IsJsSpace(input[i])
  {
    StripEmpty(input, IsJsSpace);
  }

  /** The dialog's state; `sent` lists the queries passed to
      `onExecuteWorkflow`, with the session id of the moment. */
  class Chat {
    var messages: seq<ChatMessage>
    var input: string
    var isLoading: bool
    var sessionId: Option<string>
    var sent: seq<(string, Option<string>)>

    /** User and bot messages alternate, starting with a user message; a
        request is running exactly when the last message is the user's; every
        user message is the trimmed, non-blank text that was sent. */
    ghost predicate Valid()
      reads this
    {
      (forall i :: 0 <= i < |messages| ==> (messages[i].UserMessage? <==> i % 2 == 0))
      && (isLoading <==> |messages| % 2 == 1)
      && (forall i :: 0 <= i < |messages| && messages[i].UserMessage? ==>
            messages[i].text != "" && Trimmed(messages[i].text, IsJsSpace))
      && |sent| == (|messages| + 1) / 2
      && (forall i :: 0 <= i < |sent| ==> sent[i].0 != "")
    }

    /** The `useState` initial values: no messages, an empty input, not
        loading and no session. */
    constructor ()
      ensures Valid() && messages == [] && input == "" && !isLoading && sessionId.None? && sent == []
    {
      messages := [];
      input := "";
      isLoading := false;
      sessionId := None;
      sent := [];
    }

    /** `createChatSession` when the dialog opens: a created session's id is
        kept; a failure leaves the id as it was. */
    method SessionCreated(outcome: Result<string, string>)
      requires Valid()
      modifies this
      ensures Valid()
      ensures outcome.Ok? ==> sessionId == Some(outcome.value)
      ensures outcome.Err? ==> sessionId == old(sessionId)
      ensures messages == old(messages) && input == old(input) && isLoading == old(isLoading) && sent == old(sent)
    {
      if outcome.Ok? {
        sessionId := Some(outcome.value);
      }
    }

    /** Typing into the input box (disabled while loading). */
    method SetInput(text: string)
      requires Valid() && !isLoading
      modifies this
      ensures Valid() && input == text
      ensures messages == old(messages) && isLoading == old(isLoading) && sessionId == old(sessionId) && sent == old(sent)
    {
      input := text;
    }

    /** `handleSendMessage` up to its `await`: nothing when the trimmed input
        is empty or a request is running; otherwise the input is cleared,
        loading starts, the trimmed text is appended as a user message and
        passed on with the current session id. */
    method BeginSend() returns (query: Option<string>)
      requires Valid()
      modifies this
      ensures Valid()
      ensures !CanSend(old(input), old(isLoading)) ==>
                && query.None? && messages == old(messages) && input == old(input)
                && isLoading == old(isLoading) && sent == old(sent)
      ensures CanSend(old(input), old(isLoading)) ==>
                && query == Some(Strip(old(input), IsJsSpace))
                && messages == old(messages) + [UserMessage(query.value)]
                && input == "" && isLoading
                && sent == old(sent) + [(query.value, sessionId)]
      ensures sessionId == old(sessionId)
    {
      var userMessage := Strip(input, IsJsSpace);
      if userMessage == "" || isLoading {
        return None;
      }
      input := "";
      isLoading := true;
      messages := messages + [UserMessage(userMessage)];
      sent := sent + [(userMessage, sessionId)];
      query := Some(userMessage);
    }

    /** `handleSendMessage` after its `await`: the answer or the failure
        becomes one bot message, and loading stops (`finally`). */
    method CompleteSend(outcome: Result<Option<ExecutionPanel.Response>, string>)
      requires Valid() && isLoading
      modifies this
      ensures Valid() && !isLoading
      ensures outcome.Ok? ==> messages == old(messages) + [BotReply(outcome.value)]
      ensures outcome.Err? ==> messages == old(messages) + [ErrorReply]
      ensures input == old(input) && sessionId == old(sessionId) && sent == old(sent)
    {
      var reply := if outcome.Ok? then BotReply(outcome.value) else ErrorReply;
      messages := messages + [reply];
      isLoading := false;
    }

    /** `handleKeyPress`: Enter without Shift sends; any other key, or
        Shift+Enter, leaves everything as it was. */
    method HandleKeyPress(key: string, shiftKey: bool) returns (query: Option<string>)
      requires Valid()
      modifies this
      ensures Valid()
      ensures key == "Enter" && !shiftKey && CanSend(old(input), old(isLoading)) ==>
                && query == Some(Strip(old(input), IsJsSpace))
                && messages == old(messages) + [UserMessage(query.value)]
                && input == "" && isLoading
                && sent == old(sent) + [(query.value, old(sessionId))]
      ensures !(key == "Enter" && !shiftKey && CanSend(old(input), old(isLoading))) ==>
                && query.None? && messages == old(messages) && input == old(input)
                && isLoading == old(isLoading) && sent == old(sent)
      ensures sessionId == old(sessionId)
    {
      if key == "Enter" && !shiftKey {
        query := BeginSend();
      } else {
        query := None;
      }
    }

    /** Every bot message answers the user message right before it, and
        while nothing is loading each user message has its answer. */
    lemma Answered(i: nat)
      requires Valid() && i < |messages| && messages[i].UserMessage?
      ensures !isLoading ==> i + 1 < |messages| && messages[i + 1].BotMessage?
      ensures isLoading && i + 1 < |messages| ==> messages[i + 1].BotMessage?
    {
    }
  }
}
