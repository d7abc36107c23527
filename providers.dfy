/**
 * The generative providers as the orchestrator sees them: what a primary
 * (Gemini) call can produce and how a story is extracted from it, the two
 * secondary providers behind `try_openai_fallback` and
 * `try_huggingface_fallback`, and the keyword test applied to error text.
 */
module Providers {
  import opened Wrappers
  import opened Text

  /** An API key read from the environment; `not key` holds for a missing
      and for an empty value. */
  predicate Configured(key: Option<String>) {
    key.Some? && key.value != []
  }

  /** Python truthiness of an optional story. */
  predicate Truthy(story: Option<String>) {
    story.Some? && story.value != []
  }

  // ---------------------------------------------------------------- primary

  /** A response candidate; `parts` is None when it has no `content.parts`
      attribute, otherwise the `text` of each part. */
  datatype Candidate = Candidate(parts: Option<seq<String>>)

  /** A `generate_content` response; `text` is None when the response has no
      `text` attribute. */
  datatype GeminiResponse = GeminiResponse(text: Option<String>, candidates: seq<Candidate>)

  /** What one primary call does: raise an exception with a message, or
      return a response. */
  datatype Outcome = Raised(message: String) | Returned(response: GeminiResponse)

  /** The primary provider: the outcome of calling a model, on a given
      attempt, with a given prompt text. */
  type Oracle = (int, String, String) -> Outcome

  /** Stories of this many characters or fewer are rejected. */
  const MinimumStoryLength := 50

  /** The story text of a response: the stripped `text` field when it is
      present and non-empty, otherwise the stripped text of the first part of
      the first candidate, otherwise none. */
  function ExtractStory(response: GeminiResponse): (story: Option<String>)
    ensures story.Some? ==> story.value == [] || (!IsSpace(story.value[0]) && !IsSpace(story.value[|story.value| - 1]))
    ensures Truthy(response.text) ==> story == Some(Strip(response.text.value))
    ensures story.Some? && !Truthy(response.text) ==>
      && |response.candidates| > 0
      && response.candidates[0].parts.Some?
      && |response.candidates[0].parts.value| > 0
      && story.value == Strip(response.candidates[0].parts.value[0])
    ensures
      && !Truthy(response.text)
      && |response.candidates| > 0
      && response.candidates[0].parts.Some?
      && |response.candidates[0].parts.value| > 0
      ==> story == Some(Strip(response.candidates[0].parts.value[0]))
  {
    if Truthy(response.text) then Some(Strip(response.text.value))
    else if |response.candidates| > 0 then
      match response.candidates[0].parts
      case Some(parts) => if |parts| > 0 then Some(Strip(parts[0])) else None
      case None => None
    else None
  }

  /** The story a primary call yields, if it passes the quality gate: the
      call returned, a story could be extracted, and it is longer than
      `MinimumStoryLength` characters. */
  function AcceptedStory(outcome: Outcome): (story: Option<String>)
    ensures story.Some? <==>
      outcome.Returned? && ExtractStory(outcome.response).Some? && |ExtractStory(outcome.response).value| > MinimumStoryLength
    ensures story.Some? ==> story == ExtractStory(outcome.response) && |story.value| > MinimumStoryLength
  {
    match outcome
    case Raised(_) => None
    case Returned(response) =>
      var story := ExtractStory(response);
      if story.Some? && story.value != [] && |story.value| > MinimumStoryLength then story else None
  }

  /** A non-empty `text` field decides the story, whatever the candidates. */
  lemma TextFieldPreferred(text: String, candidates: seq<Candidate>, others: seq<Candidate>)
    requires text != []
    ensures ExtractStory(GeminiResponse(Some(text), candidates)) == ExtractStory(GeminiResponse(Some(text), others))
    ensures AcceptedStory(Returned(GeminiResponse(Some(text), candidates))) == AcceptedStory(Returned(GeminiResponse(Some(text), others)))
  {
  }

  // --------------------------------------------------------------- keywords

  /** Keywords taken to mean that content was blocked by a safety filter. */
  const SafetyKeywords: seq<String> := ["safety", "blocked", "filter"]

  /** `any(keyword in message.lower() for keyword in [...])`; a message
      shorter than the shortest keyword never matches. */
  predicate MentionsSafetyFilter(message: String)
    ensures MentionsSafetyFilter(message) ==> |message| >= 6
  {
    exists k | k in SafetyKeywords :: Contains(Lower(message), k)
  }

  /** `"not found" in message.lower()`; it needs at least nine
      characters. */
  predicate MentionsNotFound(message: String)
    ensures MentionsNotFound(message) ==> |message| >= 9
  {
    Contains(Lower(message), "not found")
  }

  /** The keyword test ignores case: lower-casing the message first does
      not change its outcome. */
  lemma MentionsSafetyFilterIgnoresCase(message: String)
    ensures MentionsSafetyFilter(Lower(message)) == MentionsSafetyFilter(message)
  {
    LowerIdempotent(message);
  }

  // -------------------------------------------------------------- fallbacks

  /** What a fallback returns: Python's `(story, error)` pair. */
  datatype FallbackReply = FallbackReply(story: Option<String>, error: Option<String>)

  /** A secondary provider, called with the neutralised prompt. */
  type Fallback = String -> FallbackReply

  /** The message of the NameError raised by the first statement of
      `try_openai_fallback`: the module never imports `openai`. */
  const OpenAINameError := "name 'openai' is not defined"

  /** `try_openai_fallback`: its first statement assigns `openai.api_key`,
      which raises NameError because `openai` is not imported; the handler
      returns no story and the exception text, whatever the prompt and
      whatever key is configured. */
  function TryOpenAIFallback(prompt: String): (reply: FallbackReply)
    ensures !Truthy(reply.story) && reply.error.Some?
  {
    FallbackReply(None, Some(OpenAINameError))
  }

  /** The JSON body of an inference response: a list whose elements give
      their `generated_text` field (None when absent), another JSON value, or
      a body whose decoding raised with the given message. */
  datatype JsonBody = JsonList(generatedTexts: seq<Option<String>>) | JsonOther | JsonInvalid(message: String)

  /** An HTTP POST: raised with a message, or answered with a status and a
      body. */
  datatype HttpReply = HttpRaised(message: String) | HttpResponse(status: int, body: JsonBody)

  /** The inference endpoint, called with the bearer key and the `inputs`
      payload. */
  type HttpPost = (String, String) -> HttpReply

  /** `try_huggingface_fallback`. */
  function TryHuggingFaceFallback(prompt: String, apiKey: Option<String>, post: HttpPost): (reply: FallbackReply)
    ensures reply.story.Some? <==>
      && Configured(apiKey)
      && post(apiKey.value, prompt).HttpResponse?
      && post(apiKey.value, prompt).status == 200
      && post(apiKey.value, prompt).body.JsonList?
      && |post(apiKey.value, prompt).body.generatedTexts| > 0
    ensures reply.story.Some? ==>
      reply.error.None? && reply.story.value == Strip(post(apiKey.value, prompt).body.generatedTexts[0].GetOr(""))
    ensures reply.story.None? ==> reply.error.Some?
  {
    if !Configured(apiKey) then FallbackReply(None, Some("Hugging Face API key not configured"))
    else
      match post(apiKey.value, prompt)
      case HttpRaised(message) => FallbackReply(None, Some(message))
      case HttpResponse(status, body) =>
        if status == 200 && body.JsonInvalid? then FallbackReply(None, Some(body.message))
        else if status == 200 && body.JsonList? && |body.generatedTexts| > 0 then
          FallbackReply(Some(Strip(body.generatedTexts[0].GetOr(""))), None)
        else FallbackReply(None, Some("Hugging Face API returned status " + DecimalString(status)))
  }
}
