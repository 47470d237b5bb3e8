/** `LLMService`: the prompt and context builders around the language-model
    calls. The OpenAI and Gemini SDK calls and the SerpAPI request are
    parameters (arbitrary functions that may succeed or fail); what is
    modelled is what the service builds and sends to them and how it routes
    and combines their answers. */
module LlmService {
  import opened Values
  import opened Text

  datatype Role = System | User

  /** One entry of the OpenAI `messages` list. */
  datatype Message = Message(role: Role, content: string)

  /** One entry of `search_results`. */
  datatype SearchHit = SearchHit(title: string, snippet: string, link: string)

  /** What `search_web` returns. */
  datatype SearchOutcome = SearchOk(results: seq<SearchHit>, query: string) | SearchFailed(error: string)

  /** What the generators return (token usage left out). */
  datatype LlmOutcome = Answered(response: string, model: string) | Failed(error: string)

  /** The SerpAPI query parameters. */
  datatype SearchRequest = SearchRequest(q: string, apiKey: string, engine: string, num: nat)

  /** The HTTP request to SerpAPI: the `organic_results` entries (an absent
      field reads as an empty list), or the text of the exception. */
  type Fetcher = SearchRequest -> Result<seq<map<string, string>>, string>

  /** The OpenAI chat-completion call: model, messages, temperature, maximum
      tokens; the content of the first choice, or the text of the exception. */
  type OpenAiBackend = (string, seq<Message>, real, nat) -> Result<string, string>

  /** The Gemini call: model, full prompt, temperature, maximum output
      tokens; the response text, or the text of the exception. */
  type GeminiBackend = (string, string, real, nat) -> Result<string, string>

  /** The service as configured from the environment: the SerpAPI key
      (`None` when the variable is unset) and the three remote calls. */
  datatype Services = Services(serpapiKey: Option<string>, fetch: Fetcher,
                               openai: OpenAiBackend, gemini: GeminiBackend)

  const DefaultTemperature: real := 0.7
  const MaxTokens: nat := 4000
  const DefaultResults: nat := 5
  const SystemPreamble := "Use the following context to answer the user's question:\n\n"
  const UserQueryMarker := "\n\nUser Query: "
  const WebHeader := "Web Search Results:\n"
  const NoSearchKey := "SerpAPI key not configured"

  /** `s` starts with `p`. */
  predicate StartsWith(s: string, p: string) {
    |p| <= |s| && s[..|p|] == p
  }

  /** `s` ends with `p`. */
  predicate EndsWith(s: string, p: string) {
    |p| <= |s| && s[|s| - |p|..] == p
  }

  // ---------------------------------------------------------------------
  // generate_response: the custom-prompt rewrite

  /** `f"{custom_prompt}\n\nUser Query: {prompt}"` when `custom_prompt` is
      non-empty, `prompt` otherwise. */
  function CustomizedPrompt(prompt: string, customPrompt: string): (p: string)
    ensures customPrompt == "" ==> p == prompt
  {
    if customPrompt != "" then customPrompt + UserQueryMarker + prompt else prompt
  }

  /** A custom prompt goes in front and the user query stays at the end,
      after the "User Query: " marker. */
  lemma CustomizedPromptFrames(prompt: string, customPrompt: string)
    requires customPrompt != ""
    ensures StartsWith(CustomizedPrompt(prompt, customPrompt), customPrompt + UserQueryMarker)
    ensures EndsWith(CustomizedPrompt(prompt, customPrompt), UserQueryMarker + prompt)
    ensures |CustomizedPrompt(prompt, customPrompt)| == |customPrompt| + |UserQueryMarker| + |prompt|
  {
    var p := CustomizedPrompt(prompt, customPrompt);
    assert p == (customPrompt + UserQueryMarker) + prompt;
    assert p == customPrompt + (UserQueryMarker + prompt);
  }

  /** With the same custom prompt, different queries give different prompts. */
  lemma CustomizedPromptInjective(p1: string, p2: string, customPrompt: string)
    requires CustomizedPrompt(p1, customPrompt) == CustomizedPrompt(p2, customPrompt)
    ensures p1 == p2
  {
    if customPrompt != "" {
      var q1, q2 := CustomizedPrompt(p1, customPrompt), CustomizedPrompt(p2, customPrompt);
      var n := |customPrompt + UserQueryMarker|;
      assert q1 == (customPrompt + UserQueryMarker) + p1 && q1[n..] == p1;
      assert q2 == (customPrompt + UserQueryMarker) + p2 && q2[n..] == p2;
    }
  }

  // ---------------------------------------------------------------------
  // generate_openai_response: the message list

  /** The message list the OpenAI call receives: a system message carrying
      the context when there is one, then the user message. */
  function Messages(prompt: string, context: string): (ms: seq<Message>)
    ensures 1 <= |ms| <= 2 && ms[|ms| - 1] == Message(User, prompt)
    ensures |ms| == 2 <==> context != ""
    ensures |ms| == 2 ==> ms[0] == Message(System, SystemPreamble + context)
  {
    (if context != "" then [Message(System, SystemPreamble + context)] else []) + [Message(User, prompt)]
  }

  /** The context a message list carries: the system message's text after
      the preamble, or nothing. */
  function ContextOf(ms: seq<Message>): string {
    if |ms| == 2 && ms[0].role == System && StartsWith(ms[0].content, SystemPreamble)
    then ms[0].content[|SystemPreamble|..]
    else ""
  }

  /** The user's prompt and the context can both be read back from the
      message list, so the list loses nothing. */
  lemma MessagesRoundTrip(prompt: string, context: string)
    ensures ContextOf(Messages(prompt, context)) == context
    ensures Messages(prompt, context)[|Messages(prompt, context)| - 1].content == prompt
  {
    if context != "" {
      var c := SystemPreamble + context;
      assert c[..|SystemPreamble|] == SystemPreamble;
      assert c[|SystemPreamble|..] == context;
    }
  }

  /** The two appends of `generate_openai_response`. */
  method BuildMessages(prompt: string, context: string) returns (messages: seq<Message>)
    ensures messages == Messages(prompt, context)
  {
    messages := [];
    if context != "" {
      messages := messages + [Message(System, SystemPreamble + context)];
    }
    messages := messages + [Message(User, prompt)];
  }

  /** What the OpenAI call returns, given its result. */
  function OpenAiOutcome(model: string, call: Result<string, string>): (r: LlmOutcome)
    ensures r.Answered? <==> call.Ok?
    ensures r.Answered? ==> r.response == call.value && r.model == model
    ensures r.Failed? ==> r.error == call.error
  {
    match call
    case Ok(text) => Answered(text, model)
    case Err(e) => Failed(e)
  }

  /** `generate_openai_response(prompt, context, model, temperature, max_tokens)`. */
  method GenerateOpenAi(prompt: string, context: string, model: string, temperature: real, maxTokens: nat,
                        openai: OpenAiBackend) returns (r: LlmOutcome)
    ensures r == OpenAiOutcome(model, openai(model, Messages(prompt, context), temperature, maxTokens))
  {
    var messages := BuildMessages(prompt, context);
    r := OpenAiOutcome(model, openai(model, messages, temperature, maxTokens));
  }

  // ---------------------------------------------------------------------
  // generate_gemini_response: the full prompt

  /** `full_prompt`: the bare prompt without context, otherwise
      "Context:\n{context}\n\nQuestion: {prompt}". */
  function GeminiPrompt(prompt: string, context: string): (full: string)
    ensures context == "" ==> full == prompt
    ensures EndsWith(full, prompt)
  {
    if context != "" then "Context:\n" + context + "\n\nQuestion: " + prompt else prompt
  }

  /** For a fixed question, different contexts give different full prompts:
      the context can be told apart from the prompt Gemini receives. */
  lemma GeminiPromptInjective(prompt: string, c1: string, c2: string)
    requires GeminiPrompt(prompt, c1) == GeminiPrompt(prompt, c2)
    ensures c1 == c2
  {
    var f := GeminiPrompt(prompt, c1);
    if c1 != "" && c2 != "" {
      assert |c1| == |c2|;
      var n := |"Context:\n"|;
      assert f == "Context:\n" + (c1 + "\n\nQuestion: " + prompt);
      assert f[n..n + |c1|] == c1;
      assert GeminiPrompt(prompt, c2) == "Context:\n" + (c2 + "\n\nQuestion: " + prompt);
      assert f[n..n + |c2|] == c2;
    }
  }

  /** `generate_gemini_response(prompt, context, model, temperature)`. */
  function GenerateGemini(prompt: string, context: string, model: string, temperature: real,
                          gemini: GeminiBackend): (r: LlmOutcome)
    ensures r.Answered? <==> gemini(model, GeminiPrompt(prompt, context), temperature, MaxTokens).Ok?
    ensures r.Answered? ==> r.model == model
                            && r.response == gemini(model, GeminiPrompt(prompt, context), temperature, MaxTokens).value
    ensures r.Failed? ==> r.error == gemini(model, GeminiPrompt(prompt, context), temperature, MaxTokens).error
  {
    match gemini(model, GeminiPrompt(prompt, context), temperature, MaxTokens)
    case Ok(text) => Answered(text, model)
    case Err(e) => Failed(e)
  }

  // ---------------------------------------------------------------------
  // search_web

  /** `not self.serpapi_key`: unset or empty. */
  predicate KeyConfigured(key: Option<string>) {
    key.Some? && key.value != ""
  }

  /** Python's `d.get(k, "")` on a result entry. */
  function Field(entry: map<string, string>, k: string): string {
    if k in entry then entry[k] else ""
  }

  /** One entry of `search_results` built from an organic result. */
  function HitOf(entry: map<string, string>): SearchHit {
    SearchHit(Field(entry, "title"), Field(entry, "snippet"), Field(entry, "link"))
  }

  /** What `search_web(query, num_results)` returns. */
  function SearchOutcomeOf(query: string, key: Option<string>, numResults: nat, fetch: Fetcher): SearchOutcome {
    if !KeyConfigured(key) then SearchFailed(NoSearchKey)
    else
      match fetch(SearchRequest(query, key.value, "google", numResults))
      case Ok(raw) => SearchOk(seq(|raw|, i requires 0 <= i < |raw| => HitOf(raw[i])), query)
      case Err(e) => SearchFailed(e)
  }

  /** `search_web`, with its loop over the organic results. */
  method SearchWeb(query: string, key: Option<string>, numResults: nat, fetch: Fetcher) returns (r: SearchOutcome)
    ensures r == SearchOutcomeOf(query, key, numResults, fetch)
    ensures !KeyConfigured(key) ==> r == SearchFailed(NoSearchKey)
    ensures r.SearchOk? ==> KeyConfigured(key) && r.query == query
  {
    if !KeyConfigured(key) {
      return SearchFailed(NoSearchKey);
    }
    var data := fetch(SearchRequest(query, key.value, "google", numResults));
    if data.Err? {
      return SearchFailed(data.error);
    }
    var raw := data.value;
    var results: seq<SearchHit> := [];
    for i := 0 to |raw|
      invariant |results| == i
      invariant forall k :: 0 <= k < i ==> results[k] == HitOf(raw[k])
    {
      results := results + [HitOf(raw[i])];
    }
    r := SearchOk(results, query);
  }

  // ---------------------------------------------------------------------
  // generate_with_web_search: snippets and context

  /** `f"- {title}: {snippet}"`. */
  function SnippetLine(hit: SearchHit): string {
    "- " + hit.title + ": " + hit.snippet
  }

  /** The snippet lines, one per hit, in order. */
  function SnippetLines(hits: seq<SearchHit>): seq<string> {
    seq(|hits|, i requires 0 <= i < |hits| => SnippetLine(hits[i]))
  }

  /** The loop that fills `web_snippets`. */
  method CollectSnippets(hits: seq<SearchHit>) returns (snippets: seq<string>)
    ensures snippets == SnippetLines(hits)
  {
    snippets := [];
    for i := 0 to |hits|
      invariant snippets == SnippetLines(hits[..i])
    {
      snippets := snippets + [SnippetLine(hits[i])];
    }
    assert hits[..|hits|] == hits;
  }

  /** `"\n".join(web_snippets)`. */
  function WebResults(hits: seq<SearchHit>): string {
    Join(SnippetLines(hits), "\n")
  }

  /** When no title or snippet contains a newline, the web results split
      back, line by line, into the snippets of the hits. */
  lemma WebResultsLines(hits: seq<SearchHit>)
    requires hits != []
    requires forall h :: h in hits ==> '\n' !in h.title && '\n' !in h.snippet
    ensures Split(WebResults(hits), '\n') == SnippetLines(hits)
    ensures |Split(WebResults(hits), '\n')| == |hits|
  {
    var lines := SnippetLines(hits);
    forall p | p in lines ensures '\n' !in p {
      var i :| 0 <= i < |lines| && lines[i] == p;
      assert hits[i] in hits;
      assert p == "- " + hits[i].title + ": " + hits[i].snippet;
    }
    SplitJoin(lines, '\n');
  }

  /** The context after a successful search: the web results appended under
      a header, separated by a blank line from a non-empty context. */
  function CombineContext(context: string, webResults: string): (c: string)
    ensures EndsWith(c, WebHeader + webResults)
  {
    if context != "" then context + "\n\n" + WebHeader + webResults else WebHeader + webResults
  }

  /** The original context stays at the front and is recoverable: for the
      same web results, different contexts give different combinations. */
  lemma CombineContextKeeps(c1: string, c2: string, webResults: string)
    ensures c1 != "" ==> StartsWith(CombineContext(c1, webResults), c1 + "\n\n")
    ensures CombineContext(c1, webResults) == CombineContext(c2, webResults) ==> c1 == c2
  {
    var r1, r2 := CombineContext(c1, webResults), CombineContext(c2, webResults);
    var tail := WebHeader + webResults;
    if c1 != "" {
      assert r1 == (c1 + "\n\n") + tail;
    }
    if c2 != "" {
      assert r2 == (c2 + "\n\n") + tail;
    }
    if r1 == r2 && c1 != "" && c2 != "" {
      assert |c1| == |c2|;
      assert r1[..|c1|] == c1;
      assert r2[..|c2|] == c2;
    }
  }

  /** The context the generator receives: combined with the web results only
      when search was asked for and succeeded. */
  function ContextAfterSearch(context: string, useWebSearch: bool, search: SearchOutcome): (c: string)
    ensures !useWebSearch || search.SearchFailed? ==> c == context
  {
    if useWebSearch && search.SearchOk? then CombineContext(context, WebResults(search.results)) else context
  }

  /** The provider dispatch at the end of `generate_with_web_search`, with
      the temperature the generator is called with; for OpenAI, with the
      default token limit. */
  function Dispatch(prompt: string, provider: string, model: string, context: string, temperature: real,
                    s: Services): (r: LlmOutcome)
    ensures provider != "openai" && provider != "gemini" ==> r == Failed("Unsupported model provider: " + provider)
    ensures provider == "gemini" ==> r == GenerateGemini(prompt, context, model, temperature, s.gemini)
  {
    if provider == "openai" then
      OpenAiOutcome(model, s.openai(model, Messages(prompt, context), temperature, MaxTokens))
    else if provider == "gemini" then GenerateGemini(prompt, context, model, temperature, s.gemini)
    else Failed("Unsupported model provider: " + provider)
  }

  /** An answer only ever comes from one of the two supported providers, and
      the OpenAI one receives the prompt last and the context in the system
      message. */
  lemma DispatchRoutes(prompt: string, provider: string, model: string, context: string, temperature: real,
                        s: Services)
    ensures Dispatch(prompt, provider, model, context, temperature, s).Answered? ==> provider == "openai" || provider == "gemini"
    ensures provider == "openai" ==>
              exists ms :: ContextOf(ms) == context && |ms| >= 1 && ms[|ms| - 1] == Message(User, prompt)
                           && Dispatch(prompt, provider, model, context, temperature, s)
                              == OpenAiOutcome(model, s.openai(model, ms, temperature, MaxTokens))
  {
    MessagesRoundTrip(prompt, context);
    var ms := Messages(prompt, context);
    assert ContextOf(ms) == context && ms[|ms| - 1] == Message(User, prompt);
  }

  /** `generate_with_web_search(prompt, model_provider, model, context, use_web_search)`. */
  method GenerateWithWebSearch(prompt: string, provider: string, model: string, context: string,
                               useWebSearch: bool, s: Services) returns (r: LlmOutcome)
    ensures r == Dispatch(prompt, provider, model,
                          ContextAfterSearch(context, useWebSearch,
                                             SearchOutcomeOf(prompt, s.serpapiKey, DefaultResults, s.fetch)),
                          DefaultTemperature, s)
  {
    var ctx := context;
    if useWebSearch {
      var search := SearchWeb(prompt, s.serpapiKey, DefaultResults, s.fetch);
      if search.SearchOk? {
        var snippets := CollectSnippets(search.results);
        var webResults := Join(snippets, "\n");
        if ctx != "" {
          ctx := ctx + "\n\n" + WebHeader + webResults;
        } else {
          ctx := WebHeader + webResults;
        }
      }
    }
    if provider == "openai" {
      r := GenerateOpenAi(prompt, ctx, model, DefaultTemperature, MaxTokens, s.openai);
    } else if provider == "gemini" {
      r := GenerateGemini(prompt, ctx, model, DefaultTemperature, s.gemini);
    } else {
      r := Failed("Unsupported model provider: " + provider);
    }
  }

  /** What `generate_response` returns as written: the rewritten prompt is
      both the search query and the question, and the generator runs at the
      default temperature whatever temperature the caller passed. */
  function Respond(prompt: string, context: string, provider: string, model: string, useWebSearch: bool,
                   customPrompt: string, s: Services): LlmOutcome {
    var p := CustomizedPrompt(prompt, customPrompt);
    Dispatch(p, provider, model,
             ContextAfterSearch(context, useWebSearch, SearchOutcomeOf(p, s.serpapiKey, DefaultResults, s.fetch)),
             DefaultTemperature, s)
  }

  /** `generate_response(prompt, context, model_provider, model, use_web_search, custom_prompt, temperature)`:
      the outcome does not depend on `temperature`, which is never forwarded. */
  method GenerateResponse(prompt: string, context: string, provider: string, model: string, useWebSearch: bool,
                          customPrompt: string, temperature: real, s: Services) returns (r: LlmOutcome)
    ensures r == Respond(prompt, context, provider, model, useWebSearch, customPrompt, s)
  {
    var p := prompt;
    if customPrompt != "" {
      p := customPrompt + UserQueryMarker + prompt;
    }
    r := GenerateWithWebSearch(p, provider, model, context, useWebSearch, s);
  }

  /** A backend whose answer depends on the temperature only. */
  function TemperatureProbe(model: string, ms: seq<Message>, temperature: real, maxTokens: nat): Result<string, string> {
    Ok(if temperature == 0.0 then "deterministic" else "sampled")
  }

  /** As written, a node configured with temperature 0 is still answered at
      0.7: with a backend that tells the two apart, the answer is the
      sampled one. */
  lemma TemperatureDropped(key: Option<string>, fetch: Fetcher, gemini: GeminiBackend)
    ensures Respond("q", "", "openai", "gpt-3.5-turbo", false, "", Services(key, fetch, TemperatureProbe, gemini))
            == Answered("sampled", "gpt-3.5-turbo")
  {
  }

  /** The evidently intended `generate_response`: the caller's temperature
      is passed on to the generator. */
  function RespondAt(prompt: string, context: string, provider: string, model: string, useWebSearch: bool,
                     customPrompt: string, temperature: real, s: Services): (r: LlmOutcome)
    ensures temperature == DefaultTemperature ==>
              r == Respond(prompt, context, provider, model, useWebSearch, customPrompt, s)
  {
    var p := CustomizedPrompt(prompt, customPrompt);
    Dispatch(p, provider, model,
             ContextAfterSearch(context, useWebSearch, SearchOutcomeOf(p, s.serpapiKey, DefaultResults, s.fetch)),
             temperature, s)
  }

  /** With the intended version, the generator of the chosen provider runs at
      the temperature the caller passed, on the customised prompt and the
      context after the search; on the probe, temperature 0 is answered as
      such. */
  lemma TemperatureForwarded(prompt: string, context: string, provider: string, model: string, useWebSearch: bool,
                             customPrompt: string, temperature: real, s: Services)
    ensures var p := CustomizedPrompt(prompt, customPrompt);
            var c := ContextAfterSearch(context, useWebSearch, SearchOutcomeOf(p, s.serpapiKey, DefaultResults, s.fetch));
            && (provider == "openai" ==>
                  RespondAt(prompt, context, provider, model, useWebSearch, customPrompt, temperature, s)
                  == OpenAiOutcome(model, s.openai(model, Messages(p, c), temperature, MaxTokens)))
            && (provider == "gemini" ==>
                  RespondAt(prompt, context, provider, model, useWebSearch, customPrompt, temperature, s)
                  == GenerateGemini(p, c, model, temperature, s.gemini))
    ensures RespondAt("q", "", "openai", "gpt-3.5-turbo", false, "", 0.0,
                      Services(s.serpapiKey, s.fetch, TemperatureProbe, s.gemini))
            == Answered("deterministic", "gpt-3.5-turbo")
  {
  }
}
